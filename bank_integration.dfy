/**
 * The bank adapter (src/utils/bankIntegration.ts): records the bank-side row of a
 * new payment, moves a bank transaction and its payment transaction to a new
 * status, and the simulated bank check that marks a payment completed. Each store
 * call is a separate write; nothing rolls back an earlier write when a later one fails.
 */
module BankIntegration {
  import opened Wrappers
  import opened PaymentStore

  /** The environment variables `BANK_ACCOUNT_NUMBER`, `BANK_NAME`, `ACCOUNT_HOLDER_NAME`; `None` when unset. */
  datatype BankEnv = BankEnv(accountNumber: Option<string>, bankName: Option<string>, accountHolderName: Option<string>)

  datatype BankDetails = BankDetails(accountNumber: string, bankName: string, accountHolderName: string)

  /** `getBankDetails()`: every unset variable reads as `''`. */
  function GetBankDetails(env: BankEnv): (d: BankDetails)
    ensures env.accountNumber.Some? ==> d.accountNumber == env.accountNumber.value
    ensures env.bankName.Some? ==> d.bankName == env.bankName.value
    ensures env.accountHolderName.Some? ==> d.accountHolderName == env.accountHolderName.value
    ensures env.accountNumber.None? ==> d.accountNumber == ""
    ensures env.bankName.None? ==> d.bankName == ""
    ensures env.accountHolderName.None? ==> d.accountHolderName == ""
  {
    BankDetails(env.accountNumber.GetOr(""), env.bankName.GetOr(""), env.accountHolderName.GetOr(""))
  }

  /**
   * `storeBankTransaction`. `encrypt` stands for AES encryption of the account number with a
   * fresh IV; it gives `None` when it throws because `ENCRYPTION_KEY` is unset. The result is
   * `None` when the function throws.
   */
  method StoreBankTransaction(db: Store, paymentTransactionId: nat, bankReference: string,
                              env: BankEnv, encrypt: string -> Option<string>, down: set<Write>)
    returns (stored: Option<BankTransaction>)
    requires db.Valid()
    modifies db
    ensures db.Valid()
    ensures stored.Some? <==>
      && encrypt(GetBankDetails(env).accountNumber).Some?
      && CreateBank !in down
      && bankReference !in old(db.banks)
      && old(db.BankByPayment(paymentTransactionId)).None?
      && paymentTransactionId in old(db.payments)
    ensures stored.Some? ==>
      && stored.value == BankTransaction(paymentTransactionId, bankReference,
                                         encrypt(GetBankDetails(env).accountNumber).value,
                                         GetBankDetails(env).bankName, Pending, map[])
      && db.banks == old(db.banks)[bankReference := stored.value]
    ensures stored.None? ==> db.banks == old(db.banks)
    ensures db.payments == old(db.payments) && db.receipts == old(db.receipts)
  {
    var details := GetBankDetails(env);
    var cipher := encrypt(details.accountNumber);
    if cipher.None? {
      return None;
    }
    stored := db.CreateBank(paymentTransactionId, bankReference, cipher.value, details.bankName,
                            CreateBank !in down);
  }

  /**
   * `updateBankTransactionStatus`: first the bank transaction (status and processing
   * details), then, as a second write, the linked payment transaction's status. `None`
   * when it throws: the bank row is missing or a write is refused. A refused second
   * write leaves the bank row already changed.
   */
  method UpdateBankTransactionStatus(db: Store, bankReference: string, status: Status,
                                     details: Details, down: set<Write>)
    returns (updated: Option<BankTransaction>)
    requires db.Valid()
    modifies db
    ensures db.Valid()
    ensures updated.Some? <==> bankReference in old(db.banks) && BankStatus !in down && PaymentStatus !in down
    ensures bankReference !in old(db.banks) || BankStatus in down ==>
      db.banks == old(db.banks) && db.payments == old(db.payments)
    ensures bankReference in old(db.banks) && BankStatus !in down ==>
      var b := old(db.banks[bankReference]);
      && db.banks == old(db.banks)[bankReference := b.(status := status, processingDetails := details)]
      && b.transactionId in old(db.payments)
      && (PaymentStatus !in down ==>
            db.payments == old(db.payments)[b.transactionId := old(db.payments[b.transactionId]).(status := status)])
      && (PaymentStatus in down ==> db.payments == old(db.payments))
    ensures updated.Some? ==> updated.value == db.banks[bankReference]
    ensures db.receipts == old(db.receipts)
    ensures db.idByReference == old(db.idByReference) && db.bankByPayment == old(db.bankByPayment)
  {
    var bank := db.SetBankStatusByReference(bankReference, status, details, BankStatus !in down);
    if bank.None? {
      return None;
    }
    var ok := db.SetStatusById(bank.value.transactionId, status, PaymentStatus !in down);
    if !ok {
      return None;
    }
    updated := bank;
  }

  /**
   * `verifyBankPayment` (simulated: the bank always confirms). Marks the payment with this
   * reference completed, then its bank transaction if it has one. Never throws: every
   * failure, including a refused second write after the first went through, answers false.
   */
  method VerifyBankPayment(db: Store, reference: string, down: set<Write>) returns (verified: bool)
    requires db.Valid()
    modifies db
    ensures db.Valid()
    ensures old(db.PaymentByReference(reference)).None? ==>
      !verified && db.payments == old(db.payments) && db.banks == old(db.banks)
    ensures old(db.PaymentByReference(reference)).Some? ==>
      var p := old(db.PaymentByReference(reference)).value;
      var bank := old(db.BankByPayment(p.id));
      && (PaymentStatus in down ==>
            !verified && db.payments == old(db.payments) && db.banks == old(db.banks))
      && (PaymentStatus !in down ==>
            && db.payments == old(db.payments)[p.id := p.(status := Completed)]
            && (bank.None? ==> verified && db.banks == old(db.banks))
            && (bank.Some? && BankStatus !in down ==>
                  verified && db.banks == old(db.banks)[bank.value.bankReference := bank.value.(status := Completed)])
            && (bank.Some? && BankStatus in down ==> !verified && db.banks == old(db.banks)))
    ensures db.receipts == old(db.receipts)
    ensures db.idByReference == old(db.idByReference) && db.bankByPayment == old(db.bankByPayment)
  {
    var transaction := db.PaymentByReference(reference);
    if transaction.None? {
      return false;
    }
    var ok := db.SetStatusByReference(reference, Completed, PaymentStatus !in down);
    if !ok {
      return false;
    }
    var bank := db.BankByPayment(transaction.value.id);
    if bank.Some? {
      ok := db.SetBankStatusByPayment(transaction.value.id, Completed, BankStatus !in down);
      if !ok {
        return false;
      }
    }
    verified := true;
  }
}
