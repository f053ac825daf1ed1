/** The additional-questions step of the survey wizard. */
module SurveyAdditional {
  import opened Wrappers
  import opened Json
  import opened SurveyContext

  /** The five form fields; only `experience` is required. */
  const Fields: seq<string> := ["experience", "framework", "learningStyle", "careerGoal", "challenge"]

  datatype ExperienceOption = ExperienceOption(value: string, caption: string)

  /** The experience levels the select offers (the empty placeholder left out). */
  const ExperienceOptions: seq<ExperienceOption> := [
    ExperienceOption("beginner", "Beginner (less than 1 year)"),
    ExperienceOption("intermediate", "Intermediate (1-3 years)"),
    ExperienceOption("experienced", "Experienced (3-5 years)"),
    ExperienceOption("advanced", "Advanced (5+ years)")]

  /** A stored answer as a string: `surveyData.additionalResponses?.[field] || ''`. */
  function StoredAnswer(surveyData: Object, field: string): string {
    if "additionalResponses" in surveyData && surveyData["additionalResponses"].Obj? then
      StrField(surveyData["additionalResponses"].fields, field)
    else ""
  }

  /** `newErrors` from `handleSubmit`: one entry when the experience is missing. */
  method CollectErrors(formData: map<string, string>) returns (newErrors: map<string, string>)
    ensures newErrors.Keys <= {"experience"}
    ensures "experience" in newErrors <==> !("experience" in formData && formData["experience"] != "")
    ensures "experience" in newErrors ==> newErrors["experience"] == "Please select your experience level"
  {
    newErrors := map[];
    if !("experience" in formData && formData["experience"] != "") {
      newErrors := newErrors["experience" := "Please select your experience level"];
    }
  }

  class AdditionalPage {
    var formData: map<string, string>
    var errors: map<string, string>

    /** The form starts from the stored answers. */
    constructor (ctx: SurveyProvider)
      ensures formData.Keys == set f | f in Fields
      ensures forall f :: f in formData ==> formData[f] == StoredAnswer(ctx.surveyData, f)
      ensures errors == map[]
    {
      var d := ctx.surveyData;
      formData := map[
        "experience" := StoredAnswer(d, "experience"), "framework" := StoredAnswer(d, "framework"),
        "learningStyle" := StoredAnswer(d, "learningStyle"), "careerGoal" := StoredAnswer(d, "careerGoal"),
        "challenge" := StoredAnswer(d, "challenge")];
      errors := map[];
    }

    /** `handleChange`: sets one field; a shown error for it becomes `''`. */
    method HandleChange(name: string, value: string)
      modifies this
      ensures formData == old(formData)[name := value]
      ensures name in old(errors) && old(errors)[name] != "" ==> errors == old(errors)[name := ""]
      ensures !(name in old(errors) && old(errors)[name] != "") ==> errors == old(errors)
    {
      formData := formData[name := value];
      if name in errors && errors[name] != "" {
        errors := errors[name := ""];
      }
    }

    /** `handleSubmit`: `Some(route)` is the page navigated to. */
    method HandleSubmit(ctx: SurveyProvider) returns (next: Option<string>)
      modifies this, ctx
      ensures formData == old(formData)
      ensures ctx.isComplete == old(ctx.isComplete)
      ensures !("experience" in formData && formData["experience"] != "") ==>
        && next == None
        && errors == map["experience" := "Please select your experience level"]
        && ctx.surveyData == old(ctx.surveyData)
      ensures "experience" in formData && formData["experience"] != "" ==>
        && next == Some("/survey/summary")
        && errors == old(errors)
        && ctx.surveyData == Spread(old(ctx.surveyData), map["additionalResponses" := Obj(FromStrings(formData))])
    {
      var newErrors := CollectErrors(formData);
      if |newErrors| > 0 {
        errors := newErrors;
        return None;
      }
      ctx.UpdateSurveyData(map["additionalResponses" := Obj(FromStrings(formData))]);
      next := Some("/survey/summary");
    }
  }
}
