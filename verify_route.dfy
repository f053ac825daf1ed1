/**
 * `POST /api/payments/verify` (src/app/api/payments/verify/route.ts): the client's
 * poll. Answers at once for a payment already completed; otherwise runs the
 * simulated bank check and, when it confirms, dispatches receipts. The handler does
 * not look at `receiptSent` before dispatching.
 */
module VerifyRoute {
  import opened Wrappers
  import opened PaymentStore
  import opened Http
  import BankIntegration
  import Email

  /** The JSON body; `Malformed` when `request.json()` throws. */
  datatype Body = Malformed | Body(reference: Option<string>)

  datatype TransactionView = TransactionView(reference: string, amount: int, status: Status)

  /** `{ success, status, transaction?, message? }`; `status` is `Completed` or `Pending`. */
  datatype Verification = Verification(success: bool, status: Status,
                                       transaction: Option<TransactionView>, message: Option<string>)

  function View(p: PaymentTransaction): TransactionView {
    TransactionView(p.reference, p.amount, p.status)
  }

  /**
   * `POST`. `receiptNumber`, `adminEmail` and `delivery` feed the receipt dispatch; `down`
   * names the writes the database refuses.
   */
  method Post(db: Store, body: Body, receiptNumber: string, adminEmail: Option<string>,
              delivery: Email.Delivery, down: set<Write>)
    returns (response: Response<Verification>)
    requires db.Valid()
    modifies db
    ensures db.Valid()
    ensures body.Malformed? ==>
      && response == Error(500, "Failed to verify payment")
      && db.payments == old(db.payments) && db.banks == old(db.banks) && db.receipts == old(db.receipts)
    ensures body.Body? && (body.reference.None? || body.reference.value == "") ==>
      && response == Error(400, "Transaction reference is required")
      && db.payments == old(db.payments) && db.banks == old(db.banks) && db.receipts == old(db.receipts)
    ensures body.Body? && body.reference.Some? && body.reference.value != "" ==>
      var found := old(db.PaymentByReference(body.reference.value));
      && (found.None? ==>
            && response == Error(404, "Transaction not found")
            && db.payments == old(db.payments) && db.banks == old(db.banks) && db.receipts == old(db.receipts))
      && (found.Some? && found.value.status == Completed ==>
            && response == Ok(Verification(true, Completed, Some(View(found.value)), None))
            && db.payments == old(db.payments) && db.banks == old(db.banks) && db.receipts == old(db.receipts))
      && (found.Some? && found.value.status != Completed ==>
            var p := found.value;
            var bank := old(db.BankByPayment(p.id));
            var verified := PaymentStatus !in down && (bank.Some? ==> BankStatus !in down);
            var dispatched := CreateReceipt !in down && receiptNumber !in old(db.receipts);
            && (verified ==>
                  && db.payments == old(db.payments)[p.id :=
                       p.(status := Completed, receiptSent := p.receiptSent || (dispatched && ReceiptSentFlag !in down))]
                  && (bank.Some? ==> db.banks == old(db.banks)[bank.value.bankReference := bank.value.(status := Completed)])
                  && (bank.None? ==> db.banks == old(db.banks))
                  && response == Ok(Verification(true, Completed,
                                                 Some(TransactionView(p.reference, p.amount, Completed)), None))
                  && (dispatched ==>
                        db.receipts == old(db.receipts)[receiptNumber :=
                          Email.DispatchedReceipt(p, receiptNumber, adminEmail, delivery, down)])
                  && (!dispatched ==> db.receipts == old(db.receipts)))
            && (!verified ==>
                  && response == Ok(Verification(false, Pending, None, Some("Payment not yet confirmed")))
                  && db.receipts == old(db.receipts)
                  && db.banks == old(db.banks)
                  && (PaymentStatus in down ==> db.payments == old(db.payments))
                  && (PaymentStatus !in down ==> db.payments == old(db.payments)[p.id := p.(status := Completed)])))
  {
    if body.Malformed? {
      return Error(500, "Failed to verify payment");
    }
    if body.reference.None? || body.reference.value == "" {
      return Error(400, "Transaction reference is required");
    }
    var reference := body.reference.value;
    var transaction := db.PaymentByReference(reference);
    if transaction.None? {
      return Error(404, "Transaction not found");
    }
    if transaction.value.status == Completed {
      return Ok(Verification(true, Completed, Some(View(transaction.value)), None));
    }
    var verified := BankIntegration.VerifyBankPayment(db, reference, down);
    if verified {
      Email.GenerateAndSendReceipts(db, transaction.value, receiptNumber, adminEmail, delivery, down);
      var updated := db.PaymentByReference(reference);
      response := Ok(Verification(true, Completed, Some(View(updated.value)), None));
    } else {
      response := Ok(Verification(false, Pending, None, Some("Payment not yet confirmed")));
    }
  }
}
