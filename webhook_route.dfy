/**
 * `POST /api/payments/webhook` (src/app/api/payments/webhook/route.ts): the bank's
 * callback. Checks the HMAC signature of the raw body, then acts on the event:
 * `payment.success` completes the bank and payment rows and dispatches receipts if
 * none were sent, `payment.failed` fails them, any other event is ignored.
 */
module WebhookRoute {
  import opened Wrappers
  import opened PaymentStore
  import opened Http
  import BankIntegration
  import Email

  /** The parsed payload; `event` and `reference` are `None` when absent. */
  datatype Payload = Payload(event: Option<string>, reference: Option<string>, details: Option<Details>)

  /**
   * The raw body, the `x-signature` header, and `JSON.parse` of the body. `None` stands for
   * any body whose parsing or field access throws: text that is not JSON, or JSON `null`,
   * on which reading `data.event` throws.
   */
  datatype Request = Request(text: string, signature: Option<string>, payload: Option<Payload>)

  datatype Received = Received

  /** What `verifySignature` does: answers, or throws. */
  datatype SignatureCheck = Genuine | Forged | Throws

  /** A SHA-256 HMAC in hex, as `digest('hex')` gives it: 64 lower-case hex digits. */
  predicate IsHexDigest(s: string) {
    |s| == 64 && forall i :: 0 <= i < |s| ==> '0' <= s[i] <= '9' || 'a' <= s[i] <= 'f'
  }

  /** Bytes `c` takes in UTF-8, as `Buffer.from(string)` encodes it. */
  function Utf8Size(c: char): nat {
    if c as int < 0x80 then 1 else if c as int < 0x800 then 2 else if c as int < 0x10000 then 3 else 4
  }

  function Utf8Length(s: string): nat {
    if s == [] then 0 else Utf8Length(s[..|s| - 1]) + Utf8Size(s[|s| - 1])
  }

  /** An ASCII string takes one byte per character. */
  lemma {:induction false} AsciiUtf8Length(s: string)
    requires forall i :: 0 <= i < |s| ==> s[i] as int < 0x80
    ensures Utf8Length(s) == |s|
    decreases |s|
  {
    if s != [] {
      AsciiUtf8Length(s[..|s| - 1]);
    }
  }

  /**
   * `verifySignature(payload, signature)`. `hmac(secret, payload)` is the hex HMAC-SHA256 of
   * RFC 2104. Throws when `PAYMENT_SECRET_KEY` is unset, and when `timingSafeEqual` is given
   * buffers of different byte lengths; otherwise compares the bytes.
   */
  function VerifySignature(secret: Option<string>, payload: string, signature: string,
                           hmac: (string, string) -> string): (check: SignatureCheck)
    requires forall k, t :: IsHexDigest(hmac(k, t))
    ensures check == Genuine <==> secret.Some? && secret.value != "" && signature == hmac(secret.value, payload)
    ensures check == Forged <==> secret.Some? && secret.value != "" && Utf8Length(signature) == 64
                                 && signature != hmac(secret.value, payload)
    ensures secret.None? || secret.value == "" ==> check == Throws
    ensures secret.Some? && secret.value != "" && Utf8Length(signature) != 64 ==> check == Throws
  {
    if secret.None? || secret.value == "" then Throws
    else
      var expected := hmac(secret.value, payload);
      assert IsHexDigest(expected);
      AsciiUtf8Length(expected);
      if Utf8Length(expected) != Utf8Length(signature) then Throws
      else if expected == signature then Genuine
      else Forged
  }

  /**
   * A request without an `x-signature` header is checked against `''`, which makes
   * `timingSafeEqual` throw: the answer is 500, not 401.
   */
  lemma MissingSignatureThrows(secret: Option<string>, payload: string, hmac: (string, string) -> string)
    requires forall k, t :: IsHexDigest(hmac(k, t))
    ensures VerifySignature(secret, payload, None.GetOr(""), hmac) == Throws
  {
  }

  /** The request passes the signature check and carries an event and a reference. */
  predicate Accepted(request: Request, secret: Option<string>, hmac: (string, string) -> string)
    requires forall k, t :: IsHexDigest(hmac(k, t))
  {
    && VerifySignature(secret, request.text, request.signature.GetOr(""), hmac) == Genuine
    && request.payload.Some?
    && request.payload.value.event.Some? && request.payload.value.event.value != ""
    && request.payload.value.reference.Some? && request.payload.value.reference.value != ""
  }

  /**
   * The tail of the `payment.success` case: look up the payment transaction and dispatch
   * receipts unless `receiptSent` is already set.
   */
  method DispatchIfUnsent(db: Store, transactionId: nat, receiptNumber: string,
                          adminEmail: Option<string>, delivery: Email.Delivery, down: set<Write>)
    requires db.Valid() && transactionId in db.payments
    modifies db
    ensures db.Valid()
    ensures db.banks == old(db.banks)
    ensures var q := old(db.payments[transactionId]);
      var dispatched := !q.receiptSent && CreateReceipt !in down && receiptNumber !in old(db.receipts);
      && db.payments == old(db.payments)[transactionId :=
           q.(receiptSent := q.receiptSent || (dispatched && ReceiptSentFlag !in down))]
      && (!dispatched ==> db.receipts == old(db.receipts))
      && (dispatched ==>
            db.receipts == old(db.receipts)[receiptNumber :=
              Email.DispatchedReceipt(q, receiptNumber, adminEmail, delivery, down)])
  {
    var paymentTransaction := db.PaymentById(transactionId);
    if paymentTransaction.Some? && !paymentTransaction.value.receiptSent {
      Email.GenerateAndSendReceipts(db, paymentTransaction.value, receiptNumber, adminEmail, delivery, down);
    }
  }

  /** A second write to the same key replaces the first. */
  lemma Overwrite(m: map<nat, PaymentTransaction>, k: nat, v: PaymentTransaction, w: PaymentTransaction)
    ensures m[k := v][k := w] == m[k := w]
  {
  }

  /**
   * The `payment.success` case: an unknown bank reference is ignored; otherwise the bank and
   * payment rows are completed and, when the payment had no receipts yet, receipts go out.
   */
  method PaymentSucceeded(db: Store, reference: string, details: Details, receiptNumber: string,
                          adminEmail: Option<string>, delivery: Email.Delivery, down: set<Write>)
    returns (response: Response<Received>)
    requires db.Valid()
    modifies db
    ensures db.Valid()
    ensures reference !in old(db.banks) ==>
      && response == Ok(Received)
      && db.payments == old(db.payments) && db.banks == old(db.banks) && db.receipts == old(db.receipts)
    ensures reference in old(db.banks) ==> old(db.banks[reference]).transactionId in old(db.payments)
    ensures reference in old(db.banks) && BankStatus in down ==>
      && response == Error(500, "Failed to process webhook")
      && db.payments == old(db.payments) && db.banks == old(db.banks) && db.receipts == old(db.receipts)
    ensures reference in old(db.banks) && BankStatus !in down ==>
      var b := old(db.banks[reference]);
      db.banks == old(db.banks)[reference := b.(status := Completed, processingDetails := details)]
    ensures reference in old(db.banks) && BankStatus !in down && PaymentStatus in down ==>
      && response == Error(500, "Failed to process webhook")
      && db.payments == old(db.payments) && db.receipts == old(db.receipts)
    ensures reference in old(db.banks) && BankStatus !in down && PaymentStatus !in down ==>
      var b := old(db.banks[reference]);
      var p := old(db.payments[b.transactionId]);
      var dispatched := !p.receiptSent && CreateReceipt !in down && receiptNumber !in old(db.receipts);
      && response == Ok(Received)
      && db.payments == old(db.payments)[b.transactionId :=
           p.(status := Completed, receiptSent := p.receiptSent || (dispatched && ReceiptSentFlag !in down))]
      && (!dispatched ==> db.receipts == old(db.receipts))
      && (dispatched ==>
            db.receipts == old(db.receipts)[receiptNumber :=
              Email.DispatchedReceipt(p.(status := Completed), receiptNumber, adminEmail, delivery, down)])
  {
    var bankTransaction := db.BankByReference(reference);
    if bankTransaction.None? {
      return Ok(Received);
    }
    var updated := BankIntegration.UpdateBankTransactionStatus(db, reference, Completed, details, down);
    if updated.None? {
      return Error(500, "Failed to process webhook");
    }
    ghost var b := bankTransaction.value;
    ghost var p := old(db.payments[b.transactionId]);
    ghost var completed := p.(status := Completed);
    ghost var payments1, receipts1 := db.payments, db.receipts;
    assert payments1 == old(db.payments)[b.transactionId := completed] && receipts1 == old(db.receipts);
    DispatchIfUnsent(db, bankTransaction.value.transactionId, receiptNumber, adminEmail, delivery, down);
    ghost var dispatched := !p.receiptSent && CreateReceipt !in down && receiptNumber !in old(db.receipts);
    ghost var flagged := completed.(receiptSent := p.receiptSent || (dispatched && ReceiptSentFlag !in down));
    assert b == old(db.banks[reference]);
    assert db.payments == payments1[b.transactionId := flagged];
    Overwrite(old(db.payments), b.transactionId, completed, flagged);
    assert flagged == p.(status := Completed, receiptSent := p.receiptSent || (dispatched && ReceiptSentFlag !in down));
    response := Ok(Received);
  }

  /**
   * `POST`. `secret` is `PAYMENT_SECRET_KEY`; `receiptNumber`, `adminEmail` and `delivery`
   * feed the receipt dispatch; `down` names the writes the database refuses.
   */
  method Post(db: Store, request: Request, secret: Option<string>, hmac: (string, string) -> string,
              receiptNumber: string, adminEmail: Option<string>, delivery: Email.Delivery,
              down: set<Write>)
    returns (response: Response<Received>)
    requires db.Valid()
    requires forall k, t :: IsHexDigest(hmac(k, t))
    modifies db
    ensures db.Valid()
    // rejected before any store access: nothing changes
    ensures !Accepted(request, secret, hmac) ==>
      db.payments == old(db.payments) && db.banks == old(db.banks) && db.receipts == old(db.receipts)
    ensures VerifySignature(secret, request.text, request.signature.GetOr(""), hmac) == Throws ==>
      response == Error(500, "Failed to process webhook")
    ensures VerifySignature(secret, request.text, request.signature.GetOr(""), hmac) == Forged ==>
      response == Error(401, "Invalid signature")
    ensures VerifySignature(secret, request.text, request.signature.GetOr(""), hmac) == Genuine ==>
      && (request.payload.None? ==> response == Error(500, "Failed to process webhook"))
      && (request.payload.Some? && !Accepted(request, secret, hmac) ==>
            response == Error(400, "Invalid webhook payload"))
    ensures Accepted(request, secret, hmac) ==>
      var event := request.payload.value.event.value;
      var reference := request.payload.value.reference.value;
      var details := request.payload.value.details.GetOr(map[]);
      && (event != "payment.success" && event != "payment.failed" ==>
            && response == Ok(Received)
            && db.payments == old(db.payments) && db.banks == old(db.banks) && db.receipts == old(db.receipts))
      && (event == "payment.success" && reference !in old(db.banks) ==>
            && response == Ok(Received)
            && db.payments == old(db.payments) && db.banks == old(db.banks) && db.receipts == old(db.receipts))
      && (event == "payment.failed" && reference !in old(db.banks) ==>
            && response == Error(500, "Failed to process webhook")
            && db.payments == old(db.payments) && db.banks == old(db.banks) && db.receipts == old(db.receipts))
      && ((event == "payment.success" || event == "payment.failed") && reference in old(db.banks) ==>
            var b := old(db.banks[reference]);
            var p := old(db.payments[b.transactionId]);
            var status := if event == "payment.success" then Completed else Failed;
            && b.transactionId in old(db.payments)
            && (BankStatus in down ==>
                  && response == Error(500, "Failed to process webhook")
                  && db.payments == old(db.payments) && db.banks == old(db.banks) && db.receipts == old(db.receipts))
            && (BankStatus !in down ==>
                  db.banks == old(db.banks)[reference := b.(status := status, processingDetails := details)])
            && (BankStatus !in down && PaymentStatus in down ==>
                  && response == Error(500, "Failed to process webhook")
                  && db.payments == old(db.payments) && db.receipts == old(db.receipts))
            && (BankStatus !in down && PaymentStatus !in down ==>
                  // receipts go out only on success, and only when none were sent before
                  var dispatched := status == Completed && !p.receiptSent && CreateReceipt !in down
                                    && receiptNumber !in old(db.receipts);
                  && response == Ok(Received)
                  && db.payments == old(db.payments)[b.transactionId :=
                       p.(status := status, receiptSent := p.receiptSent || (dispatched && ReceiptSentFlag !in down))]
                  && (!dispatched ==> db.receipts == old(db.receipts))
                  && (dispatched ==>
                        db.receipts == old(db.receipts)[receiptNumber :=
                          Email.DispatchedReceipt(p.(status := Completed), receiptNumber, adminEmail, delivery, down)])))
  {
    var check := VerifySignature(secret, request.text, request.signature.GetOr(""), hmac);
    if check == Throws {
      return Error(500, "Failed to process webhook");
    }
    if check == Forged {
      return Error(401, "Invalid signature");
    }
    if request.payload.None? {
      return Error(500, "Failed to process webhook");
    }
    var data := request.payload.value;
    if data.event.None? || data.event.value == "" || data.reference.None? || data.reference.value == "" {
      return Error(400, "Invalid webhook payload");
    }
    var reference := data.reference.value;
    var details := data.details.GetOr(map[]);
    match data.event.value {
      case "payment.success" =>
        response := PaymentSucceeded(db, reference, details, receiptNumber, adminEmail, delivery, down);
        return;
      case "payment.failed" =>
        var updated := BankIntegration.UpdateBankTransactionStatus(db, reference, Failed, details, down);
        if updated.None? {
          return Error(500, "Failed to process webhook");
        }
      case _ =>
    }
    response := Ok(Received);
  }
}
