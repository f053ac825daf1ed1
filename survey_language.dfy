/** The language step of the survey wizard. */
module SurveyLanguage {
  import opened Wrappers
  import opened Json
  import opened SurveyContext

  datatype LanguageOption = LanguageOption(id: string, name: string)

  /** The choices offered, in display order (icons and descriptions left out). */
  const Languages: seq<LanguageOption> := [
    LanguageOption("javascript", "JavaScript"), LanguageOption("python", "Python"),
    LanguageOption("java", "Java"), LanguageOption("csharp", "C#"), LanguageOption("cpp", "C++"),
    LanguageOption("ruby", "Ruby"), LanguageOption("php", "PHP"), LanguageOption("go", "Go"),
    LanguageOption("rust", "Rust"), LanguageOption("other", "Other")]

  /** `languageValue`: the free text stands in for `'other'`. */
  function LanguageValue(selectedLanguage: string, otherLanguage: string): (v: string)
    ensures selectedLanguage == "other" ==> v == otherLanguage
    ensures selectedLanguage != "other" ==> v == selectedLanguage
  {
    if selectedLanguage == "other" then otherLanguage else selectedLanguage
  }

  class LanguagePage {
    var selectedLanguage: string
    var otherLanguage: string
    var error: string

    constructor (ctx: SurveyProvider)
      ensures selectedLanguage == StrField(ctx.surveyData, "language")
      ensures otherLanguage == "" && error == ""
    {
      selectedLanguage := StrField(ctx.surveyData, "language");
      otherLanguage := "";
      error := "";
    }

    /** `handleSubmit`: `Some(route)` is the page navigated to. */
    method HandleSubmit(ctx: SurveyProvider) returns (next: Option<string>)
      modifies this, ctx
      ensures selectedLanguage == old(selectedLanguage) && otherLanguage == old(otherLanguage)
      ensures ctx.isComplete == old(ctx.isComplete)
      ensures old(selectedLanguage) == "" ==>
        next == None && error == "Please select a programming language" && ctx.surveyData == old(ctx.surveyData)
      ensures old(selectedLanguage) == "other" && old(otherLanguage) == "" ==>
        next == None && error == "Please specify your preferred language" && ctx.surveyData == old(ctx.surveyData)
      ensures old(selectedLanguage) != "" && !(old(selectedLanguage) == "other" && old(otherLanguage) == "") ==>
        && next == Some("/survey/age") && error == old(error)
        && ctx.surveyData == Spread(old(ctx.surveyData),
                                    map["language" := Str(LanguageValue(old(selectedLanguage), old(otherLanguage)))])
    {
      if selectedLanguage == "" {
        error := "Please select a programming language";
        return None;
      }
      var languageValue := LanguageValue(selectedLanguage, otherLanguage);
      if selectedLanguage == "other" && otherLanguage == "" {
        error := "Please specify your preferred language";
        return None;
      }
      ctx.UpdateSurveyData(map["language" := Str(languageValue)]);
      next := Some("/survey/age");
    }
  }
}
