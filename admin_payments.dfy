/**
 * The admin payments page: the `reduce` that turns the fetched payment records
 * into revenue and count totals, and the status / age-group / search filter
 * over the list.
 */
module AdminPayments {
  import opened Text
  import Seqs

  datatype PaymentRecord = PaymentRecord(
    id: string, userId: string, userName: string, userEmail: string,
    amount: int, status: string, ageGroup: string, date: string)

  datatype Stats = Stats(
    totalRevenue: int,
    above18Count: nat, below18Count: nat,
    above18Revenue: int, below18Revenue: int,
    completedCount: nat, pendingCount: nat, failedCount: nat)

  predicate IsCompleted(p: PaymentRecord) { p.status == "completed" }
  predicate IsPending(p: PaymentRecord) { p.status == "pending" }
  predicate IsFailed(p: PaymentRecord) { p.status == "failed" }

  /** Completed records whose age group is `'above18'`. */
  predicate IsCompletedAbove18(p: PaymentRecord) { IsCompleted(p) && p.ageGroup == "above18" }

  /** Every other completed record, whatever its age group says. */
  predicate IsCompletedBelow18(p: PaymentRecord) { IsCompleted(p) && p.ageGroup != "above18" }

  function Amount(p: PaymentRecord): int { p.amount }

  /**
   * The stats `reduce`: the accumulator starts at zero and each record bumps the
   * fields its status (and, when completed, its age group) selects.
   */
  method ComputeStats(records: seq<PaymentRecord>) returns (stats: Stats)
    ensures stats.completedCount == Seqs.Count(records, IsCompleted)
    ensures stats.pendingCount == Seqs.Count(records, IsPending)
    ensures stats.failedCount == Seqs.Count(records, IsFailed)
    ensures stats.totalRevenue == Seqs.SumWhere(records, IsCompleted, Amount)
    ensures stats.above18Count == Seqs.Count(records, IsCompletedAbove18)
    ensures stats.below18Count == Seqs.Count(records, IsCompletedBelow18)
    ensures stats.above18Revenue == Seqs.SumWhere(records, IsCompletedAbove18, Amount)
    ensures stats.below18Revenue == Seqs.SumWhere(records, IsCompletedBelow18, Amount)
    ensures stats.above18Count + stats.below18Count == stats.completedCount
    ensures stats.above18Revenue + stats.below18Revenue == stats.totalRevenue
    ensures stats.completedCount + stats.pendingCount + stats.failedCount <= |records|
  {
    var acc := Stats(0, 0, 0, 0, 0, 0, 0, 0);
    var i := 0;
    while i < |records|
      invariant i <= |records|
      invariant acc.completedCount == Seqs.Count(records[..i], IsCompleted)
      invariant acc.pendingCount == Seqs.Count(records[..i], IsPending)
      invariant acc.failedCount == Seqs.Count(records[..i], IsFailed)
      invariant acc.totalRevenue == Seqs.SumWhere(records[..i], IsCompleted, Amount)
      invariant acc.above18Count == Seqs.Count(records[..i], IsCompletedAbove18)
      invariant acc.below18Count == Seqs.Count(records[..i], IsCompletedBelow18)
      invariant acc.above18Revenue == Seqs.SumWhere(records[..i], IsCompletedAbove18, Amount)
      invariant acc.below18Revenue == Seqs.SumWhere(records[..i], IsCompletedBelow18, Amount)
      invariant acc.above18Count + acc.below18Count == acc.completedCount
      invariant acc.above18Revenue + acc.below18Revenue == acc.totalRevenue
    {
      var payment := records[i];
      assert records[..i + 1][..i] == records[..i];
      assert records[..i + 1][i] == payment;
      if payment.status == "completed" {
        acc := acc.(totalRevenue := acc.totalRevenue + payment.amount);
        acc := acc.(completedCount := acc.completedCount + 1);
        if payment.ageGroup == "above18" {
          acc := acc.(above18Count := acc.above18Count + 1);
          acc := acc.(above18Revenue := acc.above18Revenue + payment.amount);
        } else {
          acc := acc.(below18Count := acc.below18Count + 1);
          acc := acc.(below18Revenue := acc.below18Revenue + payment.amount);
        }
      } else if payment.status == "pending" {
        acc := acc.(pendingCount := acc.pendingCount + 1);
      } else if payment.status == "failed" {
        acc := acc.(failedCount := acc.failedCount + 1);
      }
      i := i + 1;
    }
    assert records[..i] == records;
    Seqs.CountDisjoint3(records, IsCompleted, IsPending, IsFailed);
    stats := acc;
  }

  datatype PaymentFilter = PaymentFilter(status: string, ageGroup: string, searchQuery: string)

  /** The filter the page starts with. */
  const InitialFilter := PaymentFilter("all", "all", "")

  predicate MatchesStatus(p: PaymentRecord, f: PaymentFilter) {
    f.status == "all" || p.status == f.status
  }

  predicate MatchesAge(p: PaymentRecord, f: PaymentFilter) {
    f.ageGroup == "all" || p.ageGroup == f.ageGroup
  }

  predicate MatchesSearch(p: PaymentRecord, f: PaymentFilter) {
    var q := ToLower(f.searchQuery);
    f.searchQuery == "" || Includes(ToLower(p.userName), q) || Includes(ToLower(p.userEmail), q)
  }

  predicate Matches(p: PaymentRecord, f: PaymentFilter) {
    MatchesStatus(p, f) && MatchesAge(p, f) && MatchesSearch(p, f)
  }

  /** `filteredPayments`. */
  function FilteredPayments(records: seq<PaymentRecord>, f: PaymentFilter): (r: seq<PaymentRecord>)
    ensures Seqs.IsSubsequence(r, records)
    ensures |r| == Seqs.Count(records, p => Matches(p, f))
    ensures forall p :: p in r <==> p in records && Matches(p, f)
  {
    Seqs.FilterIsSubsequence(records, p => Matches(p, f));
    Seqs.Filter(records, p => Matches(p, f))
  }

  /** With the initial filter every record is listed, in order. */
  lemma InitialFilterKeepsAll(records: seq<PaymentRecord>)
    ensures FilteredPayments(records, InitialFilter) == records
  {
    Seqs.FilterAll(records, p => Matches(p, InitialFilter));
  }

  /**
   * A non-empty query matches a record exactly when the lower-cased query occurs
   * somewhere in the lower-cased name or e-mail.
   */
  lemma SearchMatchesIff(p: PaymentRecord, f: PaymentFilter)
    requires f.searchQuery != ""
    ensures MatchesSearch(p, f) <==>
      (exists i :: OccursAt(ToLower(p.userName), ToLower(f.searchQuery), i))
      || (exists i :: OccursAt(ToLower(p.userEmail), ToLower(f.searchQuery), i))
  {
    IncludesIff(ToLower(p.userName), ToLower(f.searchQuery));
    IncludesIff(ToLower(p.userEmail), ToLower(f.searchQuery));
  }
}
