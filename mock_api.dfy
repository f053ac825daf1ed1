/**
 * The in-memory mock database of `src/utils/api.ts`: a module-level array of
 * survey responses that `submitSurvey` appends to, an admin login check, and
 * the read-only queries the admin pages call (find by id, age-group counts,
 * language tallies sorted by popularity, payment totals).
 */
module MockApi {
  import opened Wrappers
  import opened Json
  import Seqs

  // ---------------------------------------------------------------- login

  datatype AdminUser = AdminUser(id: string, name: string, email: string, password: string, role: string)

  /** The user object handed back after login: the admin record without its password. */
  datatype PublicUser = PublicUser(id: string, name: string, email: string, role: string)

  /** The one hard-coded administrator. */
  const Admin := AdminUser("1", "Admin User", "admin@example.com", "admin123", "admin")

  datatype Login = LoggedIn(user: PublicUser) | LoginFailed(message: string)

  /** `loginAdmin`: both credentials must equal the stored admin's. */
  function LoginAdmin(email: string, password: string): (r: Login)
    ensures r.LoggedIn? <==> email == Admin.email && password == Admin.password
    ensures r.LoggedIn? ==>
      r.user.id == Admin.id && r.user.name == Admin.name && r.user.email == email && r.user.role == Admin.role
    ensures r.LoginFailed? ==> r.message == "Invalid credentials"
  {
    if email == Admin.email && password == Admin.password then
      LoggedIn(PublicUser(Admin.id, Admin.name, Admin.email, Admin.role))
    else
      LoginFailed("Invalid credentials")
  }

  // ---------------------------------------------------------------- records

  /** `{ id: 'survey-' + now, createdAt, ...data }`: keys of `data` override the generated ones. */
  function NewResponse(data: Object, now: nat, createdAt: string): (r: Object)
    ensures r.Keys == data.Keys + {"id", "createdAt"}
    ensures forall k :: k in data ==> r[k] == data[k]
    ensures "id" !in data ==> r["id"] == Str("survey-" + NatToString(now))
    ensures "createdAt" !in data ==> r["createdAt"] == Str(createdAt)
  {
    Spread(map["id" := Str("survey-" + NatToString(now)), "createdAt" := Str(createdAt)], data)
  }

  function SampleRecord(id: string, createdAt: string, language: string, age: string,
                        experience: string, preference: string, status: string, amount: int,
                        payment: Option<Object>): Object
  {
    var base := map[
      "id" := Str(id), "createdAt" := Str(createdAt), "language" := Str(language), "age" := Str(age),
      "additionalResponses" := Obj(map["experience" := Str(experience), "preference" := Str(preference)]),
      "paymentStatus" := Str(status), "amount" := Num(amount)];
    if payment.Some? then base["paymentDetails" := Obj(payment.value)] else base
  }

  /** The three demo responses the array starts with. */
  function SampleData(): seq<Object> {
    [ SampleRecord("survey-1", "2025-03-28T10:30:00Z", "JavaScript", "over18", "3-5 years", "frontend",
                   "completed", 5000, Some(map["name" := Str("John Doe"), "lastFour" := Str("4242")])),
      SampleRecord("survey-2", "2025-03-28T11:45:00Z", "Python", "under18", "1-2 years", "backend",
                   "completed", 3000, Some(map["name" := Str("Jane Smith"), "lastFour" := Str("1234")])),
      SampleRecord("survey-3", "2025-03-29T09:15:00Z", "JavaScript", "under18", "Less than 1 year", "fullstack",
                   "pending", 3000, None) ]
  }

  // ---------------------------------------------------------------- find

  predicate HasId(r: Object, id: string) {
    FieldIs(r, "id", id)
  }

  /** `responses.find(r => r.id === id)`: the first response with that id. */
  function Find(responses: seq<Object>, id: string): (r: Option<Object>)
    ensures r.Some? ==> exists i :: 0 <= i < |responses| && responses[i] == r.value && HasId(responses[i], id)
                                    && forall j :: 0 <= j < i ==> !HasId(responses[j], id)
    ensures r.None? ==> forall j :: 0 <= j < |responses| ==> !HasId(responses[j], id)
  {
    if responses == [] then None
    else if HasId(responses[0], id) then Some(responses[0])
    else
      var r := Find(responses[1..], id);
      assert r.Some? ==> exists i :: 0 <= i < |responses| && responses[i] == r.value && HasId(responses[i], id)
                                     && forall j :: 0 <= j < i ==> !HasId(responses[j], id) by {
        if r.Some? {
          var i :| 0 <= i < |responses[1..]| && responses[1..][i] == r.value && HasId(responses[1..][i], id)
                   && forall j :: 0 <= j < i ==> !HasId(responses[1..][j], id);
          assert forall j :: 1 <= j < i + 1 ==> responses[j] == responses[1..][j - 1];
        }
      }
      r
  }

  // ---------------------------------------------------------------- demographics

  predicate IsUnder18(r: Object) { FieldIs(r, "age", "under18") }
  predicate IsOver18(r: Object) { FieldIs(r, "age", "over18") }

  /** `total ? (count / total) * 100 : 0`, as an exact rational. */
  function Share(count: nat, total: nat): (p: real)
    ensures total == 0 ==> p == 0.0
    ensures count <= total ==> 0.0 <= p <= 100.0
  {
    if total == 0 then 0.0 else (count as real / total as real) * 100.0
  }

  datatype AgeGroup = AgeGroup(count: nat, percentage: real)
  datatype Demographics = Demographics(totalResponses: nat, under18: AgeGroup, over18: AgeGroup)

  // ---------------------------------------------------------------- language tallies

  datatype LanguageCount = LanguageCount(language: string, count: nat)

  /** A response is tallied when its `language` is truthy. */
  predicate HasLanguage(r: Object) { TruthyField(r, "language") }

  /** The property name a truthy language becomes in the counting object. */
  function LanguageOf(r: Object): string
    requires HasLanguage(r)
  {
    KeyString(r["language"])
  }

  /** Responses tallied under `lang`. */
  predicate IsLanguage(r: Object, lang: string) {
    HasLanguage(r) && LanguageOf(r) == lang
  }

  predicate DistinctLanguages(t: seq<LanguageCount>) {
    forall i, j :: 0 <= i < j < |t| ==> t[i].language != t[j].language
  }

  /** Position of `lang` in `t`, or `|t|` when it is not there. */
  function IndexOf(t: seq<LanguageCount>, lang: string): (i: nat)
    ensures i <= |t|
    ensures i < |t| ==> t[i].language == lang
    ensures forall j :: 0 <= j < i ==> t[j].language != lang
  {
    if t == [] then 0
    else if t[0].language == lang then 0
    else 1 + IndexOf(t[1..], lang)
  }

  /** `IndexOf` is the first position holding `lang`. */
  lemma IndexOfIs(t: seq<LanguageCount>, lang: string, j: nat)
    requires j <= |t|
    requires j < |t| ==> t[j].language == lang
    requires forall k :: 0 <= k < j ==> t[k].language != lang
    ensures IndexOf(t, lang) == j
  {
  }

  /** `counts[lang] = (counts[lang] || 0) + 1` on the ordered object: a new key goes last. */
  function Bump(t: seq<LanguageCount>, lang: string): seq<LanguageCount> {
    var i := IndexOf(t, lang);
    if i == |t| then t + [LanguageCount(lang, 1)]
    else t[i := t[i].(count := t[i].count + 1)]
  }

  /**
   * The counting object after the `forEach` over `responses`, as its entries in
   * insertion order (which is the order `Object.entries` reports them in).
   */
  function Tallied(responses: seq<Object>): (t: seq<LanguageCount>)
    ensures DistinctLanguages(t)
    ensures forall i :: 0 <= i < |t| ==> t[i].count > 0
  {
    if responses == [] then []
    else
      var last := responses[|responses| - 1];
      var init := Tallied(responses[..|responses| - 1]);
      if HasLanguage(last) then Bump(init, LanguageOf(last)) else init
  }

  /** Sum of the counts. */
  function Total(t: seq<LanguageCount>): nat {
    if t == [] then 0 else t[0].count + Total(t[1..])
  }

  lemma {:induction false} TotalAppend(t: seq<LanguageCount>, x: LanguageCount)
    ensures Total(t + [x]) == Total(t) + x.count
    decreases |t|
  {
    if t != [] {
      assert (t + [x])[1..] == t[1..] + [x];
      TotalAppend(t[1..], x);
    }
  }

  lemma {:induction false} TotalIncrement(t: seq<LanguageCount>, i: nat)
    requires i < |t|
    ensures Total(t[i := t[i].(count := t[i].count + 1)]) == Total(t) + 1
    decreases |t|
  {
    if i > 0 {
      var u := t[i := t[i].(count := t[i].count + 1)];
      assert u[1..] == t[1..][i - 1 := t[i].(count := t[i].count + 1)];
      TotalIncrement(t[1..], i - 1);
    }
  }

  /** The tallies add up to the number of responses with a truthy language. */
  lemma {:induction false} TalliedTotal(responses: seq<Object>)
    ensures Total(Tallied(responses)) == Seqs.Count(responses, HasLanguage)
    ensures Total(Tallied(responses)) <= |responses|
    decreases |responses|
  {
    if responses != [] {
      var last := responses[|responses| - 1];
      var init := responses[..|responses| - 1];
      TalliedTotal(init);
      if HasLanguage(last) {
        var t := Tallied(init);
        var i := IndexOf(t, LanguageOf(last));
        if i == |t| {
          TotalAppend(t, LanguageCount(LanguageOf(last), 1));
        } else {
          TotalIncrement(t, i);
        }
      }
    }
  }

  /** Each tally is the number of responses with that language, and a language no response has is absent. */
  lemma {:induction false} TalliedCount(responses: seq<Object>, lang: string)
    ensures var t := Tallied(responses); var i := IndexOf(t, lang);
      && (i < |t| ==> t[i].count == Seqs.Count(responses, r => IsLanguage(r, lang)))
      && (i == |t| ==> Seqs.Count(responses, r => IsLanguage(r, lang)) == 0)
    decreases |responses|
  {
    if responses != [] {
      var last := responses[|responses| - 1];
      var init := responses[..|responses| - 1];
      TalliedCount(init, lang);
      var t := Tallied(init);
      if HasLanguage(last) {
        var l := LanguageOf(last);
        var j := IndexOf(t, l);
        var u := Bump(t, l);
        if l == lang {
          IndexOfIs(u, lang, j);
        } else {
          assert forall k :: 0 <= k < |t| ==> u[k].language == t[k].language;
          IndexOfIs(u, lang, if IndexOf(t, lang) == |t| then |u| else IndexOf(t, lang));
        }
      }
    }
  }

  /** The counting object as `Object.entries` lists it. */
  function Entries(order: seq<string>, counts: map<string, nat>): (t: seq<LanguageCount>)
    requires forall k :: k in order ==> k in counts
    ensures |t| == |order|
    ensures forall i :: 0 <= i < |order| ==> t[i] == LanguageCount(order[i], counts[order[i]])
  {
    seq(|order|, i requires 0 <= i < |order| => LanguageCount(order[i], counts[order[i]]))
  }

  /** Keys of `counts` are exactly the entries of `order`, each once. */
  ghost predicate OrderedKeys(order: seq<string>, counts: map<string, nat>) {
    && (forall k :: k in counts <==> k in order)
    && (forall i, j :: 0 <= i < j < |order| ==> order[i] != order[j])
  }

  lemma EntriesBumpKnown(order: seq<string>, counts: map<string, nat>, lang: string)
    requires OrderedKeys(order, counts) && lang in counts
    ensures Entries(order, counts[lang := counts[lang] + 1]) == Bump(Entries(order, counts), lang)
  {
    var t := Entries(order, counts);
    var j :| 0 <= j < |order| && order[j] == lang;
    IndexOfIs(t, lang, j);
    var bumped := counts[lang := counts[lang] + 1];
    var u := Entries(order, bumped);
    var b := t[j := t[j].(count := t[j].count + 1)];
    forall i | 0 <= i < |order|
      ensures u[i] == b[i]
    {
      if i != j {
        assert order[i] != lang;
      }
    }
    assert u == b;
  }

  lemma EntriesBumpNew(order: seq<string>, counts: map<string, nat>, lang: string)
    requires OrderedKeys(order, counts) && lang !in counts
    ensures Entries(order + [lang], counts[lang := 1]) == Bump(Entries(order, counts), lang)
  {
    var t := Entries(order, counts);
    IndexOfIs(t, lang, |t|);
  }

  /** The `forEach` that fills `languageCounts`, with its keys in insertion order. */
  method CountLanguages(responses: seq<Object>) returns (order: seq<string>, counts: map<string, nat>)
    ensures OrderedKeys(order, counts)
    ensures Entries(order, counts) == Tallied(responses)
  {
    order, counts := [], map[];
    var n := 0;
    while n < |responses|
      invariant n <= |responses|
      invariant OrderedKeys(order, counts)
      invariant Entries(order, counts) == Tallied(responses[..n])
    {
      var response := responses[n];
      assert responses[..n + 1][..n] == responses[..n];
      assert Tallied(responses[..n + 1]) ==
        if HasLanguage(response) then Bump(Tallied(responses[..n]), LanguageOf(response)) else Tallied(responses[..n]);
      if HasLanguage(response) {
        var lang := LanguageOf(response);
        if lang in counts {
          EntriesBumpKnown(order, counts, lang);
          counts := counts[lang := counts[lang] + 1];
        } else {
          EntriesBumpNew(order, counts, lang);
          order, counts := order + [lang], counts[lang := 1];
        }
      }
      n := n + 1;
    }
    assert responses[..n] == responses;
  }

  predicate NonIncreasing(t: seq<LanguageCount>) {
    forall i, j :: 0 <= i < j < |t| ==> t[i].count >= t[j].count
  }

  /** Places `x` before the first entry whose count does not exceed its own. */
  function Insert(x: LanguageCount, t: seq<LanguageCount>): (r: seq<LanguageCount>)
    ensures |r| == |t| + 1
    ensures r[0] == x || (t != [] && r[0] == t[0])
    ensures multiset(r) == multiset(t) + multiset{x}
    ensures forall y :: y in r <==> y == x || y in t
  {
    if t == [] || t[0].count <= x.count then [x] + t
    else
      var rest := Insert(x, t[1..]);
      assert forall y :: y in t <==> y == t[0] || y in t[1..];
      assert t == [t[0]] + t[1..];
      [t[0]] + rest
  }

  lemma {:induction false} InsertSorted(x: LanguageCount, t: seq<LanguageCount>)
    requires NonIncreasing(t)
    ensures NonIncreasing(Insert(x, t))
    decreases |t|
  {
    if t != [] && t[0].count > x.count {
      var rest := Insert(x, t[1..]);
      InsertSorted(x, t[1..]);
      forall k | 0 <= k < |rest| ensures rest[k].count <= t[0].count {
        assert rest[k] in rest;
      }
      assert Insert(x, t) == [t[0]] + rest;
    }
  }

  /** `sort((a, b) => b.count - a.count)`: most frequent first, ties in their original order. */
  function SortByCount(t: seq<LanguageCount>): (r: seq<LanguageCount>)
    ensures multiset(r) == multiset(t)
    ensures NonIncreasing(r)
  {
    if t == [] then []
    else
      assert t == [t[0]] + t[1..];
      var rest := SortByCount(t[1..]);
      InsertSorted(t[0], rest);
      Insert(t[0], rest)
  }

  lemma {:induction false} TotalInsert(x: LanguageCount, t: seq<LanguageCount>)
    ensures Total(Insert(x, t)) == x.count + Total(t)
    decreases |t|
  {
    if t != [] && t[0].count > x.count {
      TotalInsert(x, t[1..]);
    }
  }

  /** Sorting neither loses nor invents responses. */
  lemma {:induction false} TotalSorted(t: seq<LanguageCount>)
    ensures Total(SortByCount(t)) == Total(t)
    decreases |t|
  {
    if t != [] {
      TotalSorted(t[1..]);
      TotalInsert(t[0], SortByCount(t[1..]));
    }
  }

  datatype LanguageShare = LanguageShare(language: string, count: nat, percentage: real)
  /** The `.map` that adds each language's percentage of all responses. */
  function WithShares(t: seq<LanguageCount>, total: nat): (r: seq<LanguageShare>)
    ensures |r| == |t|
    ensures forall i :: 0 <= i < |t| ==>
      r[i].language == t[i].language && r[i].count == t[i].count && r[i].percentage == Share(t[i].count, total)
  {
    seq(|t|, i requires 0 <= i < |t| => LanguageShare(t[i].language, t[i].count, Share(t[i].count, total)))
  }

  datatype LanguageAnalytics = LanguageAnalytics(languages: seq<LanguageShare>, mostPopular: Option<string>)

  // ---------------------------------------------------------------- payments

  predicate IsCompleted(r: Object) { FieldIs(r, "paymentStatus", "completed") }
  predicate IsPending(r: Object) { FieldIs(r, "paymentStatus", "pending") }
  predicate IsFailed(r: Object) { FieldIs(r, "paymentStatus", "failed") }

  /** `r.amount || 0` for a numeric amount. */
  function AmountOf(r: Object): int {
    if "amount" in r && r["amount"].Num? then r["amount"].n else 0
  }

  /** The `reduce` over the completed responses. */
  function Revenue(completed: seq<Object>): int {
    if completed == [] then 0 else Revenue(completed[..|completed| - 1]) + AmountOf(completed[|completed| - 1])
  }

  lemma {:induction false} RevenueIsSum(s: seq<Object>)
    ensures Revenue(s) == Seqs.SumWhere(s, _ => true, AmountOf)
    decreases |s|
  {
    if s != [] {
      RevenueIsSum(s[..|s| - 1]);
    }
  }

  datatype PaymentAnalytics = PaymentAnalytics(
    totalRevenue: int, completed: nat, pending: nat, failed: nat, recentPayments: seq<Object>)

  // ---------------------------------------------------------------- the database

  class Database {
    /** `surveyResponses`. */
    var surveyResponses: seq<Object>

    /** The module's initialisation: the array holds the sample data. */
    constructor ()
      ensures surveyResponses == SampleData()
    {
      surveyResponses := SampleData();
    }

    /** `submitSurvey`: appends one response; `now` and `createdAt` stand for the clock. */
    method SubmitSurvey(data: Object, now: nat, createdAt: string) returns (newResponse: Object)
      modifies this
      ensures newResponse == NewResponse(data, now, createdAt)
      ensures surveyResponses == old(surveyResponses) + [newResponse]
    {
      newResponse := NewResponse(data, now, createdAt);
      surveyResponses := surveyResponses + [newResponse];
    }

    /** `getSurveyResponse`: `None` is the `'Response not found'` answer. */
    function GetSurveyResponse(id: string): (r: Option<Object>)
      reads this
      ensures r.Some? ==> exists i :: 0 <= i < |surveyResponses| && surveyResponses[i] == r.value
                                      && HasId(surveyResponses[i], id)
                                      && forall j :: 0 <= j < i ==> !HasId(surveyResponses[j], id)
      ensures r.None? <==> forall j :: 0 <= j < |surveyResponses| ==> !HasId(surveyResponses[j], id)
    {
      Find(surveyResponses, id)
    }

    /** `getDemographicsData`. */
    function GetDemographicsData(): (d: Demographics)
      reads this
      ensures d.totalResponses == |surveyResponses|
      ensures d.under18.count == Seqs.Count(surveyResponses, IsUnder18)
      ensures d.over18.count == Seqs.Count(surveyResponses, IsOver18)
      ensures d.under18.count + d.over18.count <= d.totalResponses
      ensures d.totalResponses == 0 ==> d.under18.percentage == 0.0 && d.over18.percentage == 0.0
      ensures 0.0 <= d.under18.percentage <= 100.0 && 0.0 <= d.over18.percentage <= 100.0
    {
      var total := |surveyResponses|;
      var under18 := Seqs.Count(surveyResponses, IsUnder18);
      var over18 := Seqs.Count(surveyResponses, IsOver18);
      Seqs.CountDisjoint(surveyResponses, IsUnder18, IsOver18);
      Demographics(total, AgeGroup(under18, Share(under18, total)), AgeGroup(over18, Share(over18, total)))
    }

    /** `getLanguageAnalytics`: tally, sort by popularity, attach each language's share. */
    method GetLanguageAnalytics() returns (analytics: LanguageAnalytics)
      ensures analytics.languages == WithShares(SortByCount(Tallied(surveyResponses)), |surveyResponses|)
      ensures forall i, j :: 0 <= i < j < |analytics.languages| ==>
        analytics.languages[i].count >= analytics.languages[j].count
      ensures analytics.mostPopular.None? <==> analytics.languages == []
      ensures analytics.mostPopular.Some? ==> analytics.mostPopular.value == analytics.languages[0].language
    {
      var order, counts := CountLanguages(surveyResponses);
      var languages := WithShares(SortByCount(Entries(order, counts)), |surveyResponses|);
      var mostPopular := if |languages| > 0 then Some(languages[0].language) else None;
      analytics := LanguageAnalytics(languages, mostPopular);
    }

    /** `getPaymentAnalytics`. */
    function GetPaymentAnalytics(): (a: PaymentAnalytics)
      reads this
      ensures a.totalRevenue == Seqs.SumWhere(surveyResponses, IsCompleted, AmountOf)
      ensures a.completed == Seqs.Count(surveyResponses, IsCompleted)
      ensures a.pending == Seqs.Count(surveyResponses, IsPending)
      ensures a.failed == Seqs.Count(surveyResponses, IsFailed)
      ensures a.completed + a.pending + a.failed <= |surveyResponses|
      ensures |a.recentPayments| <= 5
      ensures forall r :: r in a.recentPayments ==> r in surveyResponses && IsCompleted(r)
    {
      var completed := Seqs.Filter(surveyResponses, IsCompleted);
      var pending := Seqs.Filter(surveyResponses, IsPending);
      var failed := Seqs.Filter(surveyResponses, IsFailed);
      RevenueIsSum(completed);
      Seqs.SumFilter(surveyResponses, IsCompleted, AmountOf);
      Seqs.CountDisjoint3(surveyResponses, IsCompleted, IsPending, IsFailed);
      var recent := if |completed| <= 5 then completed else completed[..5];
      assert forall r :: r in recent ==> r in completed;
      PaymentAnalytics(Revenue(completed), |completed|, |pending|, |failed|, recent)
    }
  }
}
