/**
 * `SurveyContext`: the survey answers shared by the wizard pages. The provider
 * keeps them as one object that `updateSurveyData` shallow-merges into and
 * `resetSurvey` replaces with the initial answers.
 */
module SurveyContext {
  import opened Json

  /** `initialSurveyData`. */
  function InitialSurveyData(): (d: Object)
    ensures d.Keys == {"language", "age", "additionalResponses", "paymentStatus", "amount"}
    ensures d["language"] == Str("") && d["age"] == Str("") && d["amount"] == Num(0)
    ensures !TruthyField(d, "language") && !TruthyField(d, "age") && !TruthyField(d, "amount")
    ensures d["additionalResponses"] == Obj(map[]) && d["paymentStatus"] == Str("pending")
  {
    map["language" := Str(""), "age" := Str(""), "additionalResponses" := Obj(map[]),
        "paymentStatus" := Str("pending"), "amount" := Num(0)]
  }

  /** Merging an empty partial changes nothing. */
  lemma MergeEmpty(prev: Object)
    ensures Spread(prev, map[]) == prev
  {
  }

  /** Merging the same partial twice is merging it once. */
  lemma MergeIdempotent(prev: Object, data: Object)
    ensures Spread(Spread(prev, data), data) == Spread(prev, data)
  {
  }

  class SurveyProvider {
    var surveyData: Object
    var isComplete: bool

    constructor ()
      ensures surveyData == InitialSurveyData() && !isComplete
    {
      surveyData := InitialSurveyData();
      isComplete := false;
    }

    /** `updateSurveyData`: `{ ...prev, ...data }`. */
    method UpdateSurveyData(data: Object)
      modifies this
      ensures surveyData == Spread(old(surveyData), data)
      ensures isComplete == old(isComplete)
    {
      surveyData := Spread(surveyData, data);
    }

    /** `resetSurvey`. */
    method ResetSurvey()
      modifies this
      ensures surveyData == InitialSurveyData() && !isComplete
    {
      surveyData := InitialSurveyData();
      isComplete := false;
    }

    /** `setIsComplete`. */
    method SetIsComplete(value: bool)
      modifies this
      ensures isComplete == value && surveyData == old(surveyData)
    {
      isComplete := value;
    }
  }
}
