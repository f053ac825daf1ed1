/** The summary step of the survey wizard: display labels for the stored answers and the fee. */
module SurveySummary {
  import SurveyLanguage
  import SurveyAdditional
  import SurveyAge

  /** `languageMap`. */
  const LanguageNames: map<string, string> := map[
    "javascript" := "JavaScript", "python" := "Python", "java" := "Java", "csharp" := "C#",
    "cpp" := "C++", "ruby" := "Ruby", "php" := "PHP", "go" := "Go", "rust" := "Rust"]

  /** `experienceMap`. */
  const ExperienceLabels: map<string, string> := map[
    "beginner" := "Beginner (less than 1 year)", "intermediate" := "Intermediate (1-3 years)",
    "experienced" := "Experienced (3-5 years)", "advanced" := "Advanced (5+ years)"]

  /** A lookup with the id itself as fallback (`map[id] || id`; every mapped name is non-empty). */
  function LabelOr(labels: map<string, string>, id: string): (r: string)
    ensures id in labels && labels[id] != "" ==> r == labels[id]
    ensures id !in labels || labels[id] == "" ==> r == id
  {
    if id in labels && labels[id] != "" then labels[id] else id
  }

  /** `getLanguageName`. */
  function GetLanguageName(languageId: string): (r: string)
    ensures languageId in LanguageNames ==> r == LanguageNames[languageId]
    ensures languageId !in LanguageNames ==> r == languageId
  {
    LabelOr(LanguageNames, languageId)
  }

  /** `getExperienceLabel`. */
  function GetExperienceLabel(experienceId: string): (r: string)
    ensures experienceId in ExperienceLabels ==> r == ExperienceLabels[experienceId]
    ensures experienceId !in ExperienceLabels ==> r == experienceId
  {
    LabelOr(ExperienceLabels, experienceId)
  }

  /** `getAgeLabel`. */
  function GetAgeLabel(ageId: string): (r: string)
    ensures r == "Under 18" <==> ageId == "under18"
    ensures r != "Under 18" ==> r == "18 or Above"
  {
    if ageId == "under18" then "Under 18" else "18 or Above"
  }

  /**
   * The fee shown in the payment details box. The page writes its own copy of the age
   * step's ternary, so this repeats `SurveyAge.AmountFor` on purpose;
   * `FeeAgreesWithAgeStep` proves the two agree.
   */
  function DisplayedFee(age: string): (fee: int)
    ensures fee == 3000 || fee == 5000
    ensures fee == 3000 <==> age == "under18"
  {
    if age == "under18" then 3000 else 5000
  }

  /** Every language the language step offers, except `'other'`, is shown by the name that step displays. */
  lemma LanguageNamesMatchChoices()
    ensures forall i :: 0 <= i < |SurveyLanguage.Languages| && SurveyLanguage.Languages[i].id != "other" ==>
      GetLanguageName(SurveyLanguage.Languages[i].id) == SurveyLanguage.Languages[i].name
    ensures GetLanguageName("other") == "other"
  {
    var choices := SurveyLanguage.Languages;
    forall i | 0 <= i < |choices| && choices[i].id != "other"
      ensures GetLanguageName(choices[i].id) == choices[i].name
    {
      assert i < 9;
      if i == 0 { assert GetLanguageName("javascript") == "JavaScript"; }
      else if i == 1 { assert GetLanguageName("python") == "Python"; }
      else if i == 2 { assert GetLanguageName("java") == "Java"; }
      else if i == 3 { assert GetLanguageName("csharp") == "C#"; }
      else if i == 4 { assert GetLanguageName("cpp") == "C++"; }
      else if i == 5 { assert GetLanguageName("ruby") == "Ruby"; }
      else if i == 6 { assert GetLanguageName("php") == "PHP"; }
      else if i == 7 { assert GetLanguageName("go") == "Go"; }
      else { assert GetLanguageName("rust") == "Rust"; }
    }
  }

  /** Every experience level the additional step offers is shown by that step's own caption. */
  lemma ExperienceLabelsMatchOptions()
    ensures forall i :: 0 <= i < |SurveyAdditional.ExperienceOptions| ==>
      GetExperienceLabel(SurveyAdditional.ExperienceOptions[i].value) == SurveyAdditional.ExperienceOptions[i].caption
  {
  }

  /** An id the table does not know is shown as it was stored. */
  lemma UnknownIdsShownAsStored(id: string)
    ensures id !in LanguageNames ==> GetLanguageName(id) == id
    ensures id !in ExperienceLabels ==> GetExperienceLabel(id) == id
  {
  }

  /** The fee shown here, the label shown beside it and the amount the age step records agree. */
  lemma FeeAgreesWithAgeStep(age: string)
    ensures DisplayedFee(age) == SurveyAge.AmountFor(age)
    ensures DisplayedFee(age) == 3000 <==> GetAgeLabel(age) == "Under 18"
  {
  }
}
