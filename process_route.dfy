/**
 * `POST /api/payments/process` (src/app/api/payments/process/route.ts): starts a
 * payment. Creates a pending payment transaction, then its bank transaction, and
 * answers with the transfer details. The two creates are separate writes.
 */
module ProcessRoute {
  import opened Wrappers
  import opened Json
  import opened PaymentStore
  import opened Http
  import BankIntegration

  /** The JSON body; `Malformed` when `request.json()` throws. Absent fields are `None`. */
  datatype Body =
    | Malformed
    | Body(amount: Option<int>, email: Option<string>, name: Option<string>,
           description: Option<string>, metadata: Option<Details>)

  /** The `x-forwarded-for` and `user-agent` headers; `None` when absent. */
  datatype Headers = Headers(forwardedFor: Option<string>, userAgent: Option<string>)

  datatype TransferDetails = TransferDetails(accountName: Option<string>, accountNumber: Option<string>,
                                             bankName: Option<string>, reference: string)

  datatype Initiated = Initiated(success: bool, reference: string, bankReference: string, amount: int,
                                 bankDetails: TransferDetails)

  /** `x || fallback` on an optional string. */
  function OrElse(x: Option<string>, fallback: string): (r: string)
    ensures x.Some? && x.value != "" ==> r == x.value
    ensures x.None? || x.value == "" ==> r == fallback
  {
    if x.Some? && x.value != "" then x.value else fallback
  }

  /** `!data.amount || !data.email`: a missing or zero amount, or a missing or empty email. */
  predicate MissingRequired(body: Body)
    requires body.Body?
  {
    body.amount.None? || body.amount.value == 0 || body.email.None? || body.email.value == ""
  }

  /** The bank reference `BANK-<now>`, `now` being `Date.now()` in milliseconds. */
  function BankReference(now: nat): string {
    "BANK-" + NatToString(now)
  }

  /** The row the handler asks the store to create, under the id the store hands out. */
  function NewTransaction(id: nat, reference: string, body: Body, headers: Headers): PaymentTransaction
    requires body.Body? && !MissingRequired(body)
  {
    PaymentTransaction(
      id, reference, body.amount.value, body.email.value,
      if body.name.Some? && body.name.value != "" then body.name else None,
      OrElse(body.description, "Survey payment"),
      Pending,
      OrElse(headers.forwardedFor, "unknown"),
      OrElse(headers.userAgent, "unknown"),
      body.metadata.GetOr(map[]),
      false)
  }

  /**
   * `POST`. `reference` is `generateReference()`'s value, `now` the second clock
   * reading, `env` the bank settings and `encrypt` the account-number encryption.
   */
  method Post(db: Store, body: Body, headers: Headers, env: BankIntegration.BankEnv,
              encrypt: string -> Option<string>, reference: string, now: nat, down: set<Write>)
    returns (response: Response<Initiated>)
    requires db.Valid()
    modifies db
    ensures db.Valid()
    ensures db.receipts == old(db.receipts)
    // malformed JSON or any failed store write: 500
    ensures body.Malformed? ==> response == Error(500, "Failed to process payment request")
    ensures body.Malformed? ==> db.payments == old(db.payments) && db.banks == old(db.banks)
    // a missing amount or email: 400, nothing created
    ensures body.Body? && MissingRequired(body) ==>
      && response == Error(400, "Amount and email are required")
      && db.payments == old(db.payments) && db.banks == old(db.banks)
    // the payment row cannot be created: 500, nothing created
    ensures body.Body? && !MissingRequired(body) &&
            (CreatePayment in down || old(db.PaymentByReference(reference)).Some?) ==>
      && response == Error(500, "Failed to process payment request")
      && db.payments == old(db.payments) && db.banks == old(db.banks)
    // otherwise exactly one new pending payment row; the bank row follows unless it fails
    ensures body.Body? && !MissingRequired(body) &&
            CreatePayment !in down && old(db.PaymentByReference(reference)).None? ==>
      var p := NewTransaction(old(db.nextId), reference, body, headers);
      var details := BankIntegration.GetBankDetails(env);
      var bankOk := encrypt(details.accountNumber).Some? && CreateBank !in down
                    && BankReference(now) !in old(db.banks);
      && p.id !in old(db.payments)
      && db.payments == old(db.payments)[p.id := p]
      && (bankOk ==>
            && db.banks == old(db.banks)[BankReference(now) :=
                 BankTransaction(p.id, BankReference(now), encrypt(details.accountNumber).value,
                                 details.bankName, Pending, map[])]
            && response == Ok(Initiated(true, reference, BankReference(now), body.amount.value,
                                        TransferDetails(env.accountHolderName, env.accountNumber,
                                                        env.bankName, reference))))
      && (!bankOk ==>
            db.banks == old(db.banks) && response == Error(500, "Failed to process payment request"))
  {
    if body.Malformed? {
      return Error(500, "Failed to process payment request");
    }
    if MissingRequired(body) {
      return Error(400, "Amount and email are required");
    }
    var p := NewTransaction(0, reference, body, headers);
    var transaction := db.CreatePayment(reference, p.amount, p.customerEmail, p.customerName,
                                        p.description, p.ipAddress, p.userAgent, p.metadata,
                                        CreatePayment !in down);
    if transaction.None? {
      return Error(500, "Failed to process payment request");
    }
    var bankReference := BankReference(now);
    var bank := BankIntegration.StoreBankTransaction(db, transaction.value.id, bankReference, env, encrypt, down);
    if bank.None? {
      return Error(500, "Failed to process payment request");
    }
    response := Ok(Initiated(true, reference, bankReference, transaction.value.amount,
                             TransferDetails(env.accountHolderName, env.accountNumber, env.bankName, reference)));
  }
}
