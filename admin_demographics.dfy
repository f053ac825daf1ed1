/** The admin demographics page: the respondent list filtered by age tab and search term. */
module AdminDemographics {
  import opened Wrappers
  import opened Text
  import Seqs

  datatype Respondent = Respondent(
    id: string, name: string, email: string, age: string, language: string,
    paymentAmount: int, paymentStatus: string, submittedAt: string)

  datatype Tab = Under18 | Over18 {
    function Name(): string {
      match this
      case Under18 => "under18"
      case Over18 => "over18"
    }
  }

  /** The tab shown when the page opens. */
  const InitialActiveTab := Over18

  predicate MatchesSearch(r: Respondent, searchTerm: string) {
    var q := ToLower(searchTerm);
    searchTerm == ""
    || Includes(ToLower(r.name), q) || Includes(ToLower(r.email), q) || Includes(ToLower(r.language), q)
  }

  predicate Matches(r: Respondent, activeTab: Tab, searchTerm: string) {
    r.age == activeTab.Name() && MatchesSearch(r, searchTerm)
  }

  /** `filteredRespondents`: `None` while nothing has loaded (`data?.…` is `undefined`). */
  function FilteredRespondents(data: Option<seq<Respondent>>, activeTab: Tab, searchTerm: string)
    : (r: Option<seq<Respondent>>)
    ensures r.None? <==> data.None?
    ensures r.Some? ==> Seqs.IsSubsequence(r.value, data.value)
    ensures r.Some? ==> |r.value| == Seqs.Count(data.value, x => Matches(x, activeTab, searchTerm))
    ensures r.Some? ==> forall x :: x in r.value <==> x in data.value && Matches(x, activeTab, searchTerm)
  {
    match data
    case None => None
    case Some(respondents) =>
      Seqs.FilterIsSubsequence(respondents, x => Matches(x, activeTab, searchTerm));
      Some(Seqs.Filter(respondents, x => Matches(x, activeTab, searchTerm)))
  }

  /** An empty search keeps exactly the respondents of the active age group, in order. */
  lemma EmptySearchKeepsAgeGroup(respondents: seq<Respondent>, activeTab: Tab)
    ensures FilteredRespondents(Some(respondents), activeTab, "")
         == Some(Seqs.Filter(respondents, (x: Respondent) => x.age == activeTab.Name()))
  {
    Seqs.FilterCongruent(respondents, x => Matches(x, activeTab, ""), (x: Respondent) => x.age == activeTab.Name());
  }

  /**
   * A non-empty term keeps a respondent of the active group exactly when the lower-cased
   * term occurs in its lower-cased name, e-mail or language.
   */
  lemma SearchMatchesIff(r: Respondent, searchTerm: string)
    requires searchTerm != ""
    ensures MatchesSearch(r, searchTerm) <==>
      (exists i :: OccursAt(ToLower(r.name), ToLower(searchTerm), i))
      || (exists i :: OccursAt(ToLower(r.email), ToLower(searchTerm), i))
      || (exists i :: OccursAt(ToLower(r.language), ToLower(searchTerm), i))
  {
    IncludesIff(ToLower(r.name), ToLower(searchTerm));
    IncludesIff(ToLower(r.email), ToLower(searchTerm));
    IncludesIff(ToLower(r.language), ToLower(searchTerm));
  }
}
