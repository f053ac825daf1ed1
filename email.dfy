/**
 * Receipt dispatch (src/lib/email.ts): a Receipt row, two messages (customer and
 * admin) and the flags that record them. Rendering and delivery are outside the
 * model; whether the mail provider accepted each message is given as a boolean.
 */
module Email {
  import opened Wrappers
  import opened PaymentStore

  /** Whether the mail provider accepted the customer's and the admin's message. */
  datatype Delivery = Delivery(customer: bool, admin: bool)

  /** `ADMIN_EMAIL` is set to a non-empty address. */
  predicate AdminConfigured(adminEmail: Option<string>) {
    adminEmail.Some? && adminEmail.value != ""
  }

  /**
   * `sendCustomerReceipt`: after the provider accepts the message, flags the receipt as
   * sent to the customer. Answers false, with nothing changed, when either step fails.
   */
  method SendCustomerReceipt(db: Store, receiptNumber: string, delivered: bool, down: set<Write>)
    returns (sent: bool)
    requires db.Valid()
    modifies db
    ensures db.Valid()
    ensures sent <==> delivered && CustomerFlag !in down && receiptNumber in old(db.receipts)
    ensures sent ==> db.receipts == old(db.receipts)[receiptNumber :=
                                       old(db.receipts[receiptNumber]).(sentToCustomer := true)]
    ensures !sent ==> db.receipts == old(db.receipts)
    ensures db.payments == old(db.payments) && db.banks == old(db.banks)
    ensures db.idByReference == old(db.idByReference) && db.bankByPayment == old(db.bankByPayment)
  {
    if !delivered {
      return false;
    }
    sent := db.SetSentToCustomer(receiptNumber, CustomerFlag !in down);
  }

  /**
   * `sendAdminReceipt`: answers false without sending when `ADMIN_EMAIL` is unset;
   * otherwise as for the customer, with the admin flag.
   */
  method SendAdminReceipt(db: Store, receiptNumber: string, adminEmail: Option<string>,
                          delivered: bool, down: set<Write>)
    returns (sent: bool)
    requires db.Valid()
    modifies db
    ensures db.Valid()
    ensures sent <==> AdminConfigured(adminEmail) && delivered && AdminFlag !in down
                      && receiptNumber in old(db.receipts)
    ensures sent ==> db.receipts == old(db.receipts)[receiptNumber :=
                                       old(db.receipts[receiptNumber]).(sentToAdmin := true)]
    ensures !sent ==> db.receipts == old(db.receipts)
    ensures db.payments == old(db.payments) && db.banks == old(db.banks)
    ensures db.idByReference == old(db.idByReference) && db.bankByPayment == old(db.bankByPayment)
  {
    if !AdminConfigured(adminEmail) || !delivered {
      return false;
    }
    sent := db.SetSentToAdmin(receiptNumber, AdminFlag !in down);
  }

  /** The receipt row `generateAndSendReceipts` leaves behind when it gets to create one. */
  function DispatchedReceipt(transaction: PaymentTransaction, receiptNumber: string,
                             adminEmail: Option<string>, delivery: Delivery, down: set<Write>): Receipt
  {
    Receipt(receiptNumber, transaction.reference, transaction.amount, transaction.customerEmail,
            adminEmail.GetOr(""),
            delivery.customer && CustomerFlag !in down,
            AdminConfigured(adminEmail) && delivery.admin && AdminFlag !in down)
  }

  /**
   * `generateAndSendReceipts`: creates one receipt for the transaction, attempts both
   * messages, then sets the transaction's `receiptSent` whatever the messages' fate
   * (neither send function ever rejects). Never throws: a failed store write ends it quietly.
   * `receiptNumber` is the generated `RCP-<time>-<random>`.
   */
  method GenerateAndSendReceipts(db: Store, transaction: PaymentTransaction, receiptNumber: string,
                                 adminEmail: Option<string>, delivery: Delivery, down: set<Write>)
    requires db.Valid()
    modifies db
    ensures db.Valid()
    ensures CreateReceipt in down || receiptNumber in old(db.receipts) ==>
      db.receipts == old(db.receipts) && db.payments == old(db.payments)
    ensures CreateReceipt !in down && receiptNumber !in old(db.receipts) ==>
      && db.receipts == old(db.receipts)[receiptNumber :=
                          DispatchedReceipt(transaction, receiptNumber, adminEmail, delivery, down)]
      && (ReceiptSentFlag !in down && transaction.id in old(db.payments) ==>
            db.payments == old(db.payments)[transaction.id :=
                              old(db.payments[transaction.id]).(receiptSent := true)])
      && (ReceiptSentFlag in down || transaction.id !in old(db.payments) ==>
            db.payments == old(db.payments))
    ensures db.banks == old(db.banks)
    ensures db.idByReference == old(db.idByReference) && db.bankByPayment == old(db.bankByPayment)
  {
    var created := db.CreateReceipt(receiptNumber, transaction.reference, transaction.amount,
                                    transaction.customerEmail, adminEmail.GetOr(""),
                                    CreateReceipt !in down);
    if !created {
      return;
    }
    ghost var created0 := Receipt(receiptNumber, transaction.reference, transaction.amount,
                               transaction.customerEmail, adminEmail.GetOr(""), false, false);
    ghost var receipts0 := db.receipts;
    assert receipts0 == old(db.receipts)[receiptNumber := created0];
    var toCustomer := SendCustomerReceipt(db, receiptNumber, delivery.customer, down);
    ghost var withCustomer := created0.(sentToCustomer := toCustomer);
    assert db.receipts == old(db.receipts)[receiptNumber := withCustomer];
    var toAdmin := SendAdminReceipt(db, receiptNumber, adminEmail, delivery.admin, down);
    assert db.receipts == old(db.receipts)[receiptNumber := withCustomer.(sentToAdmin := toAdmin)];
    assert withCustomer.(sentToAdmin := toAdmin) ==
           DispatchedReceipt(transaction, receiptNumber, adminEmail, delivery, down);
    assert db.payments == old(db.payments);
    var flagged := db.SetReceiptSent(transaction.id, ReceiptSentFlag !in down);
  }
}
