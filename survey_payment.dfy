/**
 * The payment step of the survey wizard: the fee, the card form's validators,
 * the card-number formatter, and the page's change and submit handlers.
 */
module SurveyPayment {
  import opened Wrappers
  import opened Json
  import opened Text
  import Seqs
  import opened SurveyContext
  import MockApi
  import SurveyAge

  /** `paymentAmount`, from the age answer in the survey data. */
  function PaymentAmount(surveyData: Object): (amount: int)
    ensures amount == 3000 || amount == 5000
    ensures amount == 3000 <==> FieldIs(surveyData, "age", "under18")
  {
    if FieldIs(surveyData, "age", "under18") then 3000 else 5000
  }

  /**
   * The payment page charges what the age step recorded as `amount` for the same
   * answer; an age that is not a string (absent, say) is charged the full fee.
   */
  lemma PaymentAmountAgreesWithAgeStep(surveyData: Object)
    ensures "age" in surveyData && surveyData["age"].Str? ==>
      PaymentAmount(surveyData) == SurveyAge.AmountFor(surveyData["age"].s)
    ensures !("age" in surveyData && surveyData["age"].Str?) ==> PaymentAmount(surveyData) == 5000
  {
  }

  // ---------------------------------------------------------------- validators

  /** `/^\d{16}$/`. */
  predicate SixteenDigits(s: string) { |s| == 16 && AllDigits(s) }

  /** `/^\d{2}\/\d{2}$/`. */
  predicate ExpiryShape(s: string) {
    |s| == 5 && IsDigit(s[0]) && IsDigit(s[1]) && s[2] == '/' && IsDigit(s[3]) && IsDigit(s[4])
  }

  /** `/^\d{3}$/`. */
  predicate ThreeDigits(s: string) { |s| == 3 && AllDigits(s) }

  /** `[^\s@]+`. */
  predicate Plain(s: string) {
    |s| > 0 && forall k :: 0 <= k < |s| ==> s[k] != '@' && !IsSpace(s[k])
  }

  /** `/^[^\s@]+@[^\s@]+\.[^\s@]+$/`: some `@` and some later `.` cut the string into three plain runs. */
  predicate EmailShape(s: string) {
    exists i, j | 0 < i < |s| && i + 1 < j < |s| - 1 ::
      s[i] == '@' && s[j] == '.' && Plain(s[..i]) && Plain(s[i + 1..j]) && Plain(s[j + 1..])
  }

  /** The tests of `validateForm`, each with its `trim()` guard. */
  predicate CardNumberOk(s: string) { Trim(s) != "" && SixteenDigits(RemoveSpaces(s)) }
  predicate CardHolderOk(s: string) { Trim(s) != "" }
  predicate ExpiryOk(s: string) { Trim(s) != "" && ExpiryShape(s) }
  predicate CvvOk(s: string) { Trim(s) != "" && ThreeDigits(s) }
  predicate EmailOk(s: string) { Trim(s) != "" && EmailShape(s) }

  /** A string that is not all white space survives `trim`. */
  lemma NotBlank(s: string, k: nat)
    requires k < |s| && !IsSpace(s[k])
    ensures Trim(s) != ""
  {
    TrimEmptyIff(s);
  }

  /** The card number passes exactly when removing its white space leaves sixteen digits. */
  lemma CardNumberOkIff(s: string)
    ensures CardNumberOk(s) <==> SixteenDigits(RemoveSpaces(s))
  {
    var d := RemoveSpaces(s);
    if SixteenDigits(d) {
      assert d[0] in d;
      var k :| 0 <= k < |s| && s[k] == d[0];
      NotBlank(s, k);
    }
  }

  /** For the expiry, CVV and e-mail the `trim()` guard adds nothing to the pattern. */
  lemma TrimGuardsRedundant(s: string)
    ensures ExpiryOk(s) <==> ExpiryShape(s)
    ensures CvvOk(s) <==> ThreeDigits(s)
    ensures EmailOk(s) <==> EmailShape(s)
  {
    if ExpiryShape(s) || ThreeDigits(s) {
      NotBlank(s, 0);
    }
    if EmailShape(s) {
      var i, j :| 0 < i < |s| && i + 1 < j < |s| - 1 && s[i] == '@' && s[j] == '.'
                  && Plain(s[..i]) && Plain(s[i + 1..j]) && Plain(s[j + 1..]);
      NotBlank(s, i);
    }
  }

  lemma PlainSlice(s: string, lo: nat, hi: nat, at: nat)
    requires lo < hi <= |s| && !(lo <= at < hi)
    requires forall k :: 0 <= k < |s| ==> !IsSpace(s[k]) && (s[k] == '@' ==> k == at)
    ensures Plain(s[lo..hi])
  {
    forall k | 0 <= k < hi - lo ensures s[lo..hi][k] != '@' && !IsSpace(s[lo..hi][k]) {
      assert s[lo..hi][k] == s[lo + k];
    }
  }

  /**
   * The e-mail pattern read another way: exactly one `@`, not first; no white space;
   * and a `.` after the `@` that is neither next to it nor last.
   */
  ghost predicate OneAtThenDot(s: string) {
    exists i :: 0 < i < |s| && s[i] == '@'
      && (forall k :: 0 <= k < |s| ==> !IsSpace(s[k]) && (s[k] == '@' ==> k == i))
      && (exists j :: i + 1 < j < |s| - 1 && s[j] == '.')
  }

  lemma EmailShapeOneAt(s: string)
    requires EmailShape(s)
    ensures OneAtThenDot(s)
  {
    var i, j :| 0 < i < |s| && i + 1 < j < |s| - 1 && s[i] == '@' && s[j] == '.'
                && Plain(s[..i]) && Plain(s[i + 1..j]) && Plain(s[j + 1..]);
    forall k | 0 <= k < |s| ensures !IsSpace(s[k]) && (s[k] == '@' ==> k == i) {
      if k < i {
        assert s[k] == s[..i][k];
      } else if i < k < j {
        assert s[k] == s[i + 1..j][k - i - 1];
      } else if j < k {
        assert s[k] == s[j + 1..][k - j - 1];
      }
    }
  }

  lemma OneAtEmailShape(s: string)
    requires OneAtThenDot(s)
    ensures EmailShape(s)
  {
    var i :| 0 < i < |s| && s[i] == '@'
      && (forall k :: 0 <= k < |s| ==> !IsSpace(s[k]) && (s[k] == '@' ==> k == i))
      && (exists j :: i + 1 < j < |s| - 1 && s[j] == '.');
    var j :| i + 1 < j < |s| - 1 && s[j] == '.';
    PlainSlice(s, 0, i, i);
    PlainSlice(s, i + 1, j, i);
    PlainSlice(s, j + 1, |s|, i);
    assert s[0..i] == s[..i] && s[j + 1..|s|] == s[j + 1..];
  }

  lemma EmailShapeIff(s: string)
    ensures EmailShape(s) <==> OneAtThenDot(s)
  {
    if EmailShape(s) {
      EmailShapeOneAt(s);
    }
    if OneAtThenDot(s) {
      OneAtEmailShape(s);
    }
  }

  /** The five card-form fields, each present from the start. */
  const FormFields: set<string> := {"cardNumber", "cardHolder", "expiryDate", "cvv", "email"}

  /**
   * The error map `validateForm` builds for `formData`: one entry, with its fixed message,
   * for each field whose test fails, and no other entries.
   */
  predicate ErrorsFor(formData: map<string, string>, errors: map<string, string>)
    requires FormFields <= formData.Keys
  {
    && errors.Keys <= FormFields
    && ("cardNumber" in errors <==> !CardNumberOk(formData["cardNumber"]))
    && ("cardHolder" in errors <==> !CardHolderOk(formData["cardHolder"]))
    && ("expiryDate" in errors <==> !ExpiryOk(formData["expiryDate"]))
    && ("cvv" in errors <==> !CvvOk(formData["cvv"]))
    && ("email" in errors <==> !EmailOk(formData["email"]))
    && ("cardNumber" in errors ==> errors["cardNumber"] == "Please enter a valid 16-digit card number")
    && ("cardHolder" in errors ==> errors["cardHolder"] == "Please enter the card holder name")
    && ("expiryDate" in errors ==> errors["expiryDate"] == "Please enter a valid expiry date (MM/YY)")
    && ("cvv" in errors ==> errors["cvv"] == "Please enter a valid 3-digit CVV")
    && ("email" in errors ==> errors["email"] == "Please enter a valid email address")
  }

  /** `newErrors` of `validateForm`, filled one test at a time. */
  method CollectErrors(formData: map<string, string>) returns (newErrors: map<string, string>)
    requires FormFields <= formData.Keys
    ensures ErrorsFor(formData, newErrors)
  {
    newErrors := map[];
    if !CardNumberOk(formData["cardNumber"]) {
      newErrors := newErrors["cardNumber" := "Please enter a valid 16-digit card number"];
    }
    if !CardHolderOk(formData["cardHolder"]) {
      newErrors := newErrors["cardHolder" := "Please enter the card holder name"];
    }
    if !ExpiryOk(formData["expiryDate"]) {
      newErrors := newErrors["expiryDate" := "Please enter a valid expiry date (MM/YY)"];
    }
    if !CvvOk(formData["cvv"]) {
      newErrors := newErrors["cvv" := "Please enter a valid 3-digit CVV"];
    }
    if !EmailOk(formData["email"]) {
      newErrors := newErrors["email" := "Please enter a valid email address"];
    }
  }

  /** Every field passes its test. */
  predicate FormOk(formData: map<string, string>)
    requires FormFields <= formData.Keys
  {
    && CardNumberOk(formData["cardNumber"]) && CardHolderOk(formData["cardHolder"])
    && ExpiryOk(formData["expiryDate"]) && CvvOk(formData["cvv"]) && EmailOk(formData["email"])
  }

  lemma NoFieldErrors(e: map<string, string>)
    requires e.Keys <= FormFields
    requires "cardNumber" !in e && "cardHolder" !in e && "expiryDate" !in e && "cvv" !in e && "email" !in e
    ensures e == map[]
  {
    assert e.Keys == {};
  }

  // ---------------------------------------------------------------- card number formatting

  /** The characters left by `replace(/\s+/g, '')` and then `replace(/[^0-9]/gi, '')`. */
  function CardDigits(value: string): (v: string)
    ensures AllDigits(v)
  {
    KeepDigits(RemoveSpaces(value))
  }

  /**
   * `(v.match(/\d{4,16}/g) || [''])[0]` for a string `v` of digits only: the first
   * match starts at 0 and is greedy, so it is the first sixteen digits, and there
   * is none when `v` is shorter than four.
   */
  function FirstMatch(v: string): (m: string)
    ensures m == "" <==> |v| < 4
    ensures |m| <= 16 && |m| <= |v| && m == v[..|m|]
    ensures |v| >= 4 ==> |m| == Min(|v|, 16)
  {
    if |v| < 4 then "" else v[..if |v| < 16 then |v| else 16]
  }

  /** The four-character slices the `for` loop pushes, the last one possibly shorter. */
  function Chunks(m: string): (parts: seq<string>)
    ensures parts == [] <==> m == ""
    decreases |m|
  {
    if m == "" then [] else
      var n := if |m| < 4 then |m| else 4;
      [m[..n]] + Chunks(m[n..])
  }

  /** `parts.join(' ')`. */
  function Join(parts: seq<string>): string {
    if parts == [] then ""
    else if |parts| == 1 then parts[0]
    else parts[0] + " " + Join(parts[1..])
  }

  /** What `formatCardNumber` returns. */
  function Formatted(value: string): string {
    var parts := Chunks(FirstMatch(CardDigits(value)));
    if parts == [] then value else Join(parts)
  }

  function Min(a: int, b: int): int { if a < b then a else b }

  /** One turn of the loop: the slice at `i` and the chunks after it. */
  lemma ChunksFrom(m: string, i: nat)
    requires i < |m|
    ensures Chunks(m[i..]) == [m[i..Min(i + 4, |m|)]] + Chunks(m[Min(i + 4, |m|)..])
  {
    var end := Min(i + 4, |m|);
    var rest := m[i..];
    assert rest[..end - i] == m[i..end] && rest[end - i..] == m[end..];
  }

  /** `formatCardNumber`. */
  method FormatCardNumber(value: string) returns (r: string)
    ensures r == Formatted(value)
  {
    var v := CardDigits(value);
    var firstMatch := FirstMatch(v);
    var parts: seq<string> := [];
    var i, len := 0, |firstMatch|;
    while i < len
      invariant 0 <= i <= len + 3
      invariant parts + Chunks(firstMatch[Min(i, len)..]) == Chunks(firstMatch)
    {
      var end := Min(i + 4, len);
      ChunksFrom(firstMatch, i);
      assert (parts + [firstMatch[i..end]]) + Chunks(firstMatch[end..]) == parts + Chunks(firstMatch[i..]);
      parts := parts + [firstMatch[i..end]];
      i := i + 4;
      assert Min(i, len) == end;
    }
    assert firstMatch[len..] == "";
    assert parts == Chunks(firstMatch);
    if |parts| > 0 {
      r := Join(parts);
    } else {
      r := value;
    }
  }

  /** Grouping `m` puts a space at every fifth position and a digit everywhere else. */
  lemma {:induction false} GroupedShape(m: string)
    requires m != "" && AllDigits(m)
    ensures var r := Join(Chunks(m));
      && |r| == |m| + (|m| - 1) / 4
      && forall k :: 0 <= k < |r| ==> (k % 5 == 4 ==> r[k] == ' ') && (k % 5 != 4 ==> IsDigit(r[k]))
    decreases |m|
  {
    if |m| > 4 {
      GroupedShape(m[4..]);
      var rest := Join(Chunks(m[4..]));
      assert Chunks(m) == [m[..4]] + Chunks(m[4..]);
      var r := m[..4] + " " + rest;
      assert Join(Chunks(m)) == r;
      forall k | 0 <= k < |r| ensures (k % 5 == 4 ==> r[k] == ' ') && (k % 5 != 4 ==> IsDigit(r[k])) {
        if k >= 5 {
          assert r[k] == rest[k - 5];
          assert (k - 5) % 5 == k % 5;
        }
      }
    } else {
      assert m[..|m|] == m && m[|m|..] == "";
      assert Chunks(m) == [m];
    }
  }

  lemma DigitsKeptBySpaceRemoval(m: string)
    requires AllDigits(m)
    ensures RemoveSpaces(m) == m && KeepDigits(m) == m
  {
    Seqs.FilterAll(m, c => !IsSpace(c));
    Seqs.FilterAll(m, IsDigit);
  }

  lemma SpaceJoinStripped(a: string, b: string)
    ensures RemoveSpaces(a + " " + b) == RemoveSpaces(a) + RemoveSpaces(b)
  {
    Seqs.FilterConcat(a + " ", b, c => !IsSpace(c));
    Seqs.FilterConcat(a, " ", c => !IsSpace(c));
    assert Seqs.Filter(" ", c => !IsSpace(c)) == "" by {
      assert " "[..0] == "";
    }
  }

  /** Removing the spaces from the grouped digits gives the digits back. */
  lemma {:induction false} GroupedDigits(m: string)
    requires AllDigits(m)
    ensures RemoveSpaces(Join(Chunks(m))) == m
    decreases |m|
  {
    if |m| > 4 {
      GroupedDigits(m[4..]);
      assert Chunks(m) == [m[..4]] + Chunks(m[4..]);
      var rest := Join(Chunks(m[4..]));
      assert Join(Chunks(m)) == m[..4] + " " + rest;
      SpaceJoinStripped(m[..4], rest);
      DigitsKeptBySpaceRemoval(m[..4]);
      assert m[..4] + m[4..] == m;
    } else if m != "" {
      assert m[..|m|] == m && m[|m|..] == "";
      assert Chunks(m) == [m];
      DigitsKeptBySpaceRemoval(m);
    }
  }

  /**
   * With four or more digits the result groups the first sixteen of them by four,
   * so it is at most 19 characters; with fewer the input comes back untouched.
   */
  lemma FormattedShape(value: string)
    ensures var m := FirstMatch(CardDigits(value)); var r := Formatted(value);
      && (m == "" ==> r == value)
      && (m != "" ==>
            && |r| == |m| + (|m| - 1) / 4 && |r| <= 19
            && RemoveSpaces(r) == m
            && forall k :: 0 <= k < |r| ==> (k % 5 == 4 ==> r[k] == ' ') && (k % 5 != 4 ==> IsDigit(r[k])))
  {
    var m := FirstMatch(CardDigits(value));
    if m != "" {
      GroupedShape(m);
      GroupedDigits(m);
    }
  }

  /** Formatting an already formatted number changes nothing. */
  lemma FormattedIdempotent(value: string)
    ensures Formatted(Formatted(value)) == Formatted(value)
  {
    var m := FirstMatch(CardDigits(value));
    if m != "" {
      var r := Formatted(value);
      GroupedDigits(m);
      DigitsKeptBySpaceRemoval(m);
      assert CardDigits(r) == m;
      assert FirstMatch(m) == m;
    }
  }

  // ---------------------------------------------------------------- the page

  class PaymentPage {
    var formData: map<string, string>
    var errors: map<string, string>
    var isSubmitting: bool

    ghost predicate Valid()
      reads this
    {
      FormFields <= formData.Keys
    }

    constructor ()
      ensures Valid()
      ensures formData == map["cardNumber" := "", "cardHolder" := "", "expiryDate" := "", "cvv" := "", "email" := ""]
      ensures errors == map[] && !isSubmitting
    {
      formData := map["cardNumber" := "", "cardHolder" := "", "expiryDate" := "", "cvv" := "", "email" := ""];
      errors := map[];
      isSubmitting := false;
    }

    /** `handleChange`: sets one field; a shown error for it is deleted, no other. */
    method HandleChange(name: string, value: string)
      requires Valid()
      modifies this
      ensures Valid()
      ensures formData == old(formData)[name := value]
      ensures name in old(errors) && old(errors)[name] != "" ==> errors == old(errors) - {name}
      ensures !(name in old(errors) && old(errors)[name] != "") ==> errors == old(errors)
      ensures isSubmitting == old(isSubmitting)
    {
      formData := formData[name := value];
      if name in errors && errors[name] != "" {
        errors := errors - {name};
      }
    }

    /** `validateForm`: shows the new errors and reports whether there were none. */
    method ValidateForm() returns (ok: bool)
      requires Valid()
      modifies this`errors
      ensures ok <==> FormOk(formData)
      ensures ok <==> errors == map[]
      ensures ErrorsFor(formData, errors)
    {
      errors := CollectErrors(formData);
      ok := |errors| == 0;
      if FormOk(formData) {
        NoFieldErrors(errors);
      }
    }

    /**
     * `handleSubmit`. `paymentDate` and `submittedDate` are the two `new Date()` readings,
     * `now` and `createdAt` the clock readings `submitSurvey` takes.
     */
    method HandleSubmit(ctx: SurveyProvider, db: MockApi.Database,
                        paymentDate: string, submittedDate: string, now: nat, createdAt: string)
      returns (next: Option<string>)
      requires Valid()
      modifies this, ctx, db
      ensures Valid() && formData == old(formData)
      ensures ctx.isComplete == old(ctx.isComplete)
      ensures !FormOk(formData) ==>
        && next == None && errors != map[] && ErrorsFor(formData, errors) && isSubmitting == old(isSubmitting)
        && ctx.surveyData == old(ctx.surveyData) && db.surveyResponses == old(db.surveyResponses)
      ensures FormOk(formData) ==>
        var amount := PaymentAmount(old(ctx.surveyData));
        && next == Some("/survey/thank-you") && errors == map[] && !isSubmitting
        && ctx.surveyData == Spread(old(ctx.surveyData), PaymentInfo(amount, formData["email"], paymentDate))
        && db.surveyResponses == old(db.surveyResponses) + [MockApi.NewResponse(
             Spread(old(ctx.surveyData), PaymentInfo(amount, formData["email"], submittedDate)), now, createdAt)]
    {
      var ok := ValidateForm();
      if !ok {
        return None;
      }
      isSubmitting := true;
      var surveyData := ctx.surveyData;
      var paymentAmount := PaymentAmount(surveyData);
      ctx.UpdateSurveyData(PaymentInfo(paymentAmount, formData["email"], paymentDate));
      var _ := db.SubmitSurvey(Spread(surveyData, PaymentInfo(paymentAmount, formData["email"], submittedDate)),
                               now, createdAt);
      next := Some("/survey/thank-you");
      isSubmitting := false;
    }
  }

  /** The `{ paymentInfo: { amount, email, paymentDate, status: 'completed' } }` partial. */
  function PaymentInfo(amount: int, email: string, paymentDate: string): Object {
    map["paymentInfo" := Obj(map[
      "amount" := Num(amount), "email" := Str(email),
      "paymentDate" := Str(paymentDate), "status" := Str("completed")])]
  }
}
