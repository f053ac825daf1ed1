/** The age step of the survey wizard. */
module SurveyAge {
  import opened Wrappers
  import opened Json
  import opened SurveyContext

  /** The fee the age step records for a selected age group. */
  function AmountFor(selectedAge: string): (amount: int)
    ensures amount == 3000 || amount == 5000
    ensures amount == 3000 <==> selectedAge == "under18"
  {
    if selectedAge == "under18" then 3000 else 5000
  }

  class AgePage {
    var selectedAge: string
    var error: string

    /** The selection starts from the stored answer, or empty. */
    constructor (ctx: SurveyProvider)
      ensures selectedAge == StrField(ctx.surveyData, "age") && error == ""
    {
      selectedAge := StrField(ctx.surveyData, "age");
      error := "";
    }

    /**
     * A click on an age card: sets the selection and clears any shown error. The effect
     * that follows is `SelectedAgeChanged`.
     */
    method Select(age: string)
      modifies this
      ensures selectedAge == age && error == ""
    {
      selectedAge := age;
      error := "";
    }

    /** The effect run after `selectedAge` changes: only `amount` is written, and only for a selection. */
    method SelectedAgeChanged(ctx: SurveyProvider)
      modifies ctx
      ensures selectedAge != "" ==> ctx.surveyData == Spread(old(ctx.surveyData), map["amount" := Num(AmountFor(selectedAge))])
      ensures selectedAge == "" ==> ctx.surveyData == old(ctx.surveyData)
      ensures ctx.isComplete == old(ctx.isComplete)
    {
      if selectedAge != "" {
        ctx.UpdateSurveyData(map["amount" := Num(AmountFor(selectedAge))]);
      }
    }

    /** `handleSubmit`: `Some(route)` is the page navigated to. */
    method HandleSubmit(ctx: SurveyProvider) returns (next: Option<string>)
      modifies this, ctx
      ensures selectedAge == old(selectedAge)
      ensures old(selectedAge) == "" ==>
        && next == None && error == "Please select your age group"
        && ctx.surveyData == old(ctx.surveyData)
      ensures old(selectedAge) != "" ==>
        && next == Some("/survey/additional") && error == old(error)
        && ctx.surveyData == Spread(old(ctx.surveyData), map["age" := Str(old(selectedAge))])
      ensures ctx.isComplete == old(ctx.isComplete)
    {
      if selectedAge == "" {
        error := "Please select your age group";
        return None;
      }
      ctx.UpdateSurveyData(map["age" := Str(selectedAge)]);
      next := Some("/survey/additional");
    }
  }
}
