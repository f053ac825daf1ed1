/**
 * The relational store behind the payment routes (three tables reached through
 * Prisma): payment transactions, the bank transactions linked to them, and
 * receipts. Each write method is one Prisma statement. It succeeds or fails as
 * a whole; `up` says whether the database accepted the statement at all, and
 * the other failures are the ones the schema forces: an update of a row that does
 * not exist, and a create that would duplicate a unique key or break the link from
 * a bank transaction to its payment transaction.
 */
module PaymentStore {
  import opened Wrappers

  datatype Status = Pending | Completed | Failed

  /** The opaque JSON columns (`metadata`, `processingDetails`). */
  type Details = map<string, string>

  datatype PaymentTransaction = PaymentTransaction(
    id: nat,
    reference: string,
    amount: int,
    customerEmail: string,
    customerName: Option<string>,
    description: string,
    status: Status,
    ipAddress: string,
    userAgent: string,
    metadata: Details,
    receiptSent: bool)

  datatype BankTransaction = BankTransaction(
    transactionId: nat,
    bankReference: string,
    accountNumber: string,
    bankName: string,
    status: Status,
    processingDetails: Details)

  datatype Receipt = Receipt(
    receiptNumber: string,
    transactionReference: string,
    amount: int,
    customerEmail: string,
    adminEmail: string,
    sentToCustomer: bool,
    sentToAdmin: bool)

  /** The write statements one request can issue; no request issues the same one twice. */
  datatype Write =
    | CreatePayment | CreateBank
    | PaymentStatus | BankStatus
    | CreateReceipt | CustomerFlag | AdminFlag | ReceiptSentFlag

  class Store {
    /** Payment transactions by id, with the unique `reference` index. */
    var payments: map<nat, PaymentTransaction>
    var idByReference: map<string, nat>
    /** Bank transactions by their unique `bankReference`, with the unique `transactionId` index. */
    var banks: map<string, BankTransaction>
    var bankByPayment: map<nat, string>
    /** Receipts by their unique `receiptNumber`. */
    var receipts: map<string, Receipt>
    /** The id the database hands to the next payment transaction it creates. */
    var nextId: nat

    ghost predicate Valid()
      reads this
    {
      && (forall id :: id in payments ==> payments[id].id == id && id < nextId)
      && (forall r :: r in idByReference ==>
            idByReference[r] in payments && payments[idByReference[r]].reference == r)
      && (forall id :: id in payments ==>
            payments[id].reference in idByReference && idByReference[payments[id].reference] == id)
      && (forall b :: b in banks ==>
            banks[b].bankReference == b && banks[b].transactionId in bankByPayment
            && bankByPayment[banks[b].transactionId] == b)
      && (forall id :: id in bankByPayment ==>
            id in payments && bankByPayment[id] in banks && banks[bankByPayment[id]].transactionId == id)
      && (forall n :: n in receipts ==> receipts[n].receiptNumber == n)
    }

    constructor ()
      ensures Valid()
      ensures payments == map[] && banks == map[] && receipts == map[]
    {
      payments, idByReference := map[], map[];
      banks, bankByPayment := map[], map[];
      receipts, nextId := map[], 0;
    }

    /** `findUnique({ where: { reference } })` on payment transactions. */
    function PaymentByReference(reference: string): (p: Option<PaymentTransaction>)
      reads this
      requires Valid()
      ensures p.Some? ==> p.value.id in payments && payments[p.value.id] == p.value && p.value.reference == reference
      ensures p.None? ==> forall id :: id in payments ==> payments[id].reference != reference
    {
      if reference in idByReference then Some(payments[idByReference[reference]]) else None
    }

    /** `findUnique({ where: { id } })` on payment transactions. */
    function PaymentById(id: nat): (p: Option<PaymentTransaction>)
      reads this
      ensures p.Some? <==> id in payments
      ensures p.Some? ==> p.value == payments[id]
    {
      if id in payments then Some(payments[id]) else None
    }

    /** `findUnique({ where: { bankReference } })` on bank transactions. */
    function BankByReference(bankReference: string): (b: Option<BankTransaction>)
      reads this
      ensures b.Some? <==> bankReference in banks
      ensures b.Some? ==> b.value == banks[bankReference]
    {
      if bankReference in banks then Some(banks[bankReference]) else None
    }

    /** `findUnique({ where: { transactionId } })` on bank transactions. */
    function BankByPayment(id: nat): (b: Option<BankTransaction>)
      reads this
      requires Valid()
      ensures b.Some? ==> b.value.transactionId == id && b.value.bankReference in banks
                          && banks[b.value.bankReference] == b.value
      ensures b.None? ==> forall r :: r in banks ==> banks[r].transactionId != id
    {
      if id in bankByPayment then Some(banks[bankByPayment[id]]) else None
    }

    /** `paymentTransaction.create`: a new pending row under a fresh id, unless the reference is taken. */
    method CreatePayment(reference: string, amount: int, customerEmail: string,
                         customerName: Option<string>, description: string,
                         ipAddress: string, userAgent: string, metadata: Details, up: bool)
      returns (created: Option<PaymentTransaction>)
      requires Valid()
      modifies this
      ensures Valid()
      ensures created.Some? <==> up && old(PaymentByReference(reference)).None?
      ensures created.Some? ==>
        && created.value == PaymentTransaction(old(nextId), reference, amount, customerEmail, customerName,
                                               description, Pending, ipAddress, userAgent, metadata, false)
        && created.value.id !in old(payments)
        && payments == old(payments)[created.value.id := created.value]
        && idByReference == old(idByReference)[reference := created.value.id]
        && nextId == old(nextId) + 1
      ensures created.None? ==> payments == old(payments) && idByReference == old(idByReference)
      ensures banks == old(banks) && bankByPayment == old(bankByPayment) && receipts == old(receipts)
    {
      if !up || reference in idByReference {
        return None;
      }
      var p := PaymentTransaction(nextId, reference, amount, customerEmail, customerName,
                                  description, Pending, ipAddress, userAgent, metadata, false);
      payments := payments[nextId := p];
      idByReference := idByReference[reference := nextId];
      nextId := nextId + 1;
      created := Some(p);
    }

    /** `paymentTransaction.update({ where: { reference }, data: { status } })`. */
    method SetStatusByReference(reference: string, status: Status, up: bool) returns (ok: bool)
      requires Valid()
      modifies this
      ensures Valid()
      ensures ok <==> up && old(PaymentByReference(reference)).Some?
      ensures ok ==> var id := old(idByReference[reference]);
                     payments == old(payments)[id := old(payments[id]).(status := status)]
      ensures !ok ==> payments == old(payments)
      ensures idByReference == old(idByReference) && nextId == old(nextId)
      ensures banks == old(banks) && bankByPayment == old(bankByPayment) && receipts == old(receipts)
    {
      ok := up && reference in idByReference;
      if ok {
        var id := idByReference[reference];
        payments := payments[id := payments[id].(status := status)];
      }
    }

    /** `paymentTransaction.update({ where: { id }, data: { status } })`. */
    method SetStatusById(id: nat, status: Status, up: bool) returns (ok: bool)
      requires Valid()
      modifies this
      ensures Valid()
      ensures ok <==> up && id in old(payments)
      ensures ok ==> payments == old(payments)[id := old(payments[id]).(status := status)]
      ensures !ok ==> payments == old(payments)
      ensures idByReference == old(idByReference) && nextId == old(nextId)
      ensures banks == old(banks) && bankByPayment == old(bankByPayment) && receipts == old(receipts)
    {
      ok := up && id in payments;
      if ok {
        payments := payments[id := payments[id].(status := status)];
      }
    }

    /** `paymentTransaction.update({ where: { id }, data: { receiptSent: true } })`. */
    method SetReceiptSent(id: nat, up: bool) returns (ok: bool)
      requires Valid()
      modifies this
      ensures Valid()
      ensures ok <==> up && id in old(payments)
      ensures ok ==> payments == old(payments)[id := old(payments[id]).(receiptSent := true)]
      ensures !ok ==> payments == old(payments)
      ensures idByReference == old(idByReference) && nextId == old(nextId)
      ensures banks == old(banks) && bankByPayment == old(bankByPayment) && receipts == old(receipts)
    {
      ok := up && id in payments;
      if ok {
        payments := payments[id := payments[id].(receiptSent := true)];
      }
    }

    /**
     * `bankTransaction.create`: a pending row with empty processing details, unless the
     * bank reference or the payment transaction's link is taken, or the payment does not exist.
     */
    method CreateBank(transactionId: nat, bankReference: string, accountNumber: string,
                      bankName: string, up: bool)
      returns (created: Option<BankTransaction>)
      requires Valid()
      modifies this
      ensures Valid()
      ensures created.Some? <==>
        up && bankReference !in old(banks) && old(BankByPayment(transactionId)).None?
        && transactionId in old(payments)
      ensures created.Some? ==>
        && created.value == BankTransaction(transactionId, bankReference, accountNumber, bankName, Pending, map[])
        && banks == old(banks)[bankReference := created.value]
      ensures created.None? ==> banks == old(banks) && bankByPayment == old(bankByPayment)
      ensures payments == old(payments) && idByReference == old(idByReference) && nextId == old(nextId)
      ensures receipts == old(receipts)
    {
      if !up || bankReference in banks || transactionId in bankByPayment || transactionId !in payments {
        return None;
      }
      var b := BankTransaction(transactionId, bankReference, accountNumber, bankName, Pending, map[]);
      banks := banks[bankReference := b];
      bankByPayment := bankByPayment[transactionId := bankReference];
      created := Some(b);
    }

    /** `bankTransaction.update({ where: { bankReference }, data: { status, processingDetails } })`. */
    method SetBankStatusByReference(bankReference: string, status: Status, details: Details, up: bool)
      returns (updated: Option<BankTransaction>)
      requires Valid()
      modifies this
      ensures Valid()
      ensures updated.Some? <==> up && bankReference in old(banks)
      ensures updated.Some? ==>
        && updated.value == old(banks[bankReference]).(status := status, processingDetails := details)
        && banks == old(banks)[bankReference := updated.value]
      ensures updated.None? ==> banks == old(banks)
      ensures bankByPayment == old(bankByPayment)
      ensures payments == old(payments) && idByReference == old(idByReference) && nextId == old(nextId)
      ensures receipts == old(receipts)
    {
      if !up || bankReference !in banks {
        return None;
      }
      var b := banks[bankReference].(status := status, processingDetails := details);
      banks := banks[bankReference := b];
      updated := Some(b);
    }

    /** `bankTransaction.update({ where: { transactionId }, data: { status } })`. */
    method SetBankStatusByPayment(transactionId: nat, status: Status, up: bool) returns (ok: bool)
      requires Valid()
      modifies this
      ensures Valid()
      ensures ok <==> up && old(BankByPayment(transactionId)).Some?
      ensures ok ==> var r := old(bankByPayment[transactionId]);
                     banks == old(banks)[r := old(banks[r]).(status := status)]
      ensures !ok ==> banks == old(banks)
      ensures bankByPayment == old(bankByPayment)
      ensures payments == old(payments) && idByReference == old(idByReference) && nextId == old(nextId)
      ensures receipts == old(receipts)
    {
      ok := up && transactionId in bankByPayment;
      if ok {
        var r := bankByPayment[transactionId];
        banks := banks[r := banks[r].(status := status)];
      }
    }

    /** `receipt.create`: both sent flags start false; fails on a receipt number already used. */
    method CreateReceipt(receiptNumber: string, transactionReference: string, amount: int,
                         customerEmail: string, adminEmail: string, up: bool)
      returns (ok: bool)
      requires Valid()
      modifies this
      ensures Valid()
      ensures ok <==> up && receiptNumber !in old(receipts)
      ensures ok ==> receipts == old(receipts)[receiptNumber :=
                       Receipt(receiptNumber, transactionReference, amount, customerEmail, adminEmail, false, false)]
      ensures !ok ==> receipts == old(receipts)
      ensures payments == old(payments) && idByReference == old(idByReference) && nextId == old(nextId)
      ensures banks == old(banks) && bankByPayment == old(bankByPayment)
    {
      ok := up && receiptNumber !in receipts;
      if ok {
        receipts := receipts[receiptNumber :=
          Receipt(receiptNumber, transactionReference, amount, customerEmail, adminEmail, false, false)];
      }
    }

    /** `receipt.update({ where: { receiptNumber }, data: { sentToCustomer: true } })`. */
    method SetSentToCustomer(receiptNumber: string, up: bool) returns (ok: bool)
      requires Valid()
      modifies this
      ensures Valid()
      ensures ok <==> up && receiptNumber in old(receipts)
      ensures ok ==> receipts == old(receipts)[receiptNumber := old(receipts[receiptNumber]).(sentToCustomer := true)]
      ensures !ok ==> receipts == old(receipts)
      ensures payments == old(payments) && idByReference == old(idByReference) && nextId == old(nextId)
      ensures banks == old(banks) && bankByPayment == old(bankByPayment)
    {
      ok := up && receiptNumber in receipts;
      if ok {
        receipts := receipts[receiptNumber := receipts[receiptNumber].(sentToCustomer := true)];
      }
    }

    /** `receipt.update({ where: { receiptNumber }, data: { sentToAdmin: true } })`. */
    method SetSentToAdmin(receiptNumber: string, up: bool) returns (ok: bool)
      requires Valid()
      modifies this
      ensures Valid()
      ensures ok <==> up && receiptNumber in old(receipts)
      ensures ok ==> receipts == old(receipts)[receiptNumber := old(receipts[receiptNumber]).(sentToAdmin := true)]
      ensures !ok ==> receipts == old(receipts)
      ensures payments == old(payments) && idByReference == old(idByReference) && nextId == old(nextId)
      ensures banks == old(banks) && bankByPayment == old(bankByPayment)
    {
      ok := up && receiptNumber in receipts;
      if ok {
        receipts := receipts[receiptNumber := receipts[receiptNumber].(sentToAdmin := true)];
      }
    }
  }
}
