/**
  The invoice and payment tables and the two saves that change them
  (construction/models.py, Invoice.save and Payment.save). Rows are kept in
  insertion order and get increasing ids, so the invoice with the highest id
  is the last one.
 */
module Ledger {
  import opened Wrappers
  import opened Text
  import opened Models
  import opened Seqs

  /**
    The fields a caller gives a new invoice; an empty number or a missing due
    date asks save() to fill them in. amount_paid is not among them: a new
    invoice starts with nothing paid.
   */
  datatype InvoiceDraft = InvoiceDraft(
    jobId: nat, customerId: nat, number: string, dueDate: Option<Day>,
    laborCost: Money, materialCost: Money, additionalCosts: Money, taxRate: real,
    status: InvoiceStatus)

  function LastNumber(invoices: seq<Invoice>): Option<string>
  {
    if invoices == [] then None else Some(invoices[|invoices| - 1].number)
  }

  /** Some stored invoice already has this number (invoice_number is unique). */
  predicate NumberTaken(invoices: seq<Invoice>, number: string)
  {
    invoices != [] && (invoices[|invoices| - 1].number == number || NumberTaken(invoices[..|invoices| - 1], number))
  }

  /** Some stored invoice already belongs to this job (an invoice's job is one-to-one). */
  predicate JobInvoiced(invoices: seq<Invoice>, jobId: nat)
  {
    invoices != [] && (invoices[|invoices| - 1].jobId == jobId || JobInvoiced(invoices[..|invoices| - 1], jobId))
  }

  /** The unique-constraint violation the insert would raise, if any. */
  function Conflict(invoices: seq<Invoice>, number: string, jobId: nat): Option<SaveError>
  {
    if NumberTaken(invoices, number) then Some(DuplicateNumber(number))
    else if JobInvoiced(invoices, jobId) then Some(JobAlreadyInvoiced(jobId))
    else None
  }

  /** The insert conflicts exactly when a stored invoice has the same number or the same job. */
  lemma {:induction false} ConflictIff(invoices: seq<Invoice>, number: string, jobId: nat)
    ensures Conflict(invoices, number, jobId).None? <==>
      forall i :: 0 <= i < |invoices| ==> invoices[i].number != number && invoices[i].jobId != jobId
  {
    if invoices != [] {
      var init := invoices[..|invoices| - 1];
      ConflictIff(init, number, jobId);
      assert forall i :: 0 <= i < |init| ==> init[i] == invoices[i];
    }
  }

  function InvoiceId(inv: Invoice): int { inv.id }

  /** The number save() keeps: the one given, or a generated one when it is empty. */
  function NumberToSave(invoices: seq<Invoice>, given: string): Result<string, SaveError>
  {
    if given == "" then NextInvoiceNumber(LastNumber(invoices)) else Ok(given)
  }

  /**
    The outcome of saving a new invoice with the given id: save() fills in the
    number and the due date, then the database refuses a number already in use
    and a second invoice for the same job.
   */
  function SaveNew(invoices: seq<Invoice>, id: nat, d: InvoiceDraft, today: Day, now: int): Result<Invoice, SaveError>
  {
    var number := NumberToSave(invoices, d.number);
    if number.Err? then Err(number.error)
    else if Conflict(invoices, number.value, d.jobId).Some? then Err(Conflict(invoices, number.value, d.jobId).value)
    else
      Ok(Invoice(id, d.jobId, d.customerId, number.value, today,
                 Some(if d.dueDate.None? then today + 30 else d.dueDate.value),
                 d.laborCost, d.materialCost, d.additionalCosts, d.taxRate,
                 d.status, 0.0, now))
  }

  /** A number given by the caller is kept; into an empty table a numberless invoice gets the first number. */
  lemma {:induction false} SaveNewNumber(invoices: seq<Invoice>, id: nat, d: InvoiceDraft, today: Day, now: int)
    ensures var r := SaveNew(invoices, id, d, today, now);
      && (r.Ok? && d.number != "" ==> r.value.number == d.number)
      && (r.Ok? && d.number == "" && invoices == [] ==> r.value.number == FirstInvoiceNumber)
  {
  }

  /**
    A numberless invoice saved after one whose number reads as n is numbered
    n + 1, formatted; the save fails when n + 1 has more digits than format()
    writes. (The number read is never negative: InvoiceSequenceNonNegative.)
   */
  lemma {:induction false} SaveNewNextNumber(invoices: seq<Invoice>, id: nat, d: InvoiceDraft, today: Day, now: int, n: nat)
    requires d.number == "" && invoices != [] && InvoiceSequence(invoices[|invoices| - 1].number) == Some(n)
    ensures DigitCount(n + 1) > MaxStrDigits ==> SaveNew(invoices, id, d, today, now) == Err(NumberTooLong(n + 1))
    ensures SaveNew(invoices, id, d, today, now).Ok? ==>
      SaveNew(invoices, id, d, today, now).value.number == FormatInvoiceNumber(n + 1)
  {
    ParsedNumberToSave(invoices, d.number, n);
    if DigitCount(n + 1) <= MaxStrDigits {
      SaveNewTakesNumber(invoices, id, d, today, now, Ok(FormatInvoiceNumber(n + 1)));
    } else {
      SaveNewTakesNumber(invoices, id, d, today, now, Err(NumberTooLong(n + 1)));
    }
  }

  /** A numberless invoice saved after one whose number does not parse is refused, naming that number. */
  lemma {:induction false} SaveNewUnreadableLast(invoices: seq<Invoice>, id: nat, d: InvoiceDraft, today: Day, now: int)
    requires d.number == "" && invoices != [] && InvoiceSequence(invoices[|invoices| - 1].number).None?
    ensures SaveNew(invoices, id, d, today, now) == Err(BadLastNumber(invoices[|invoices| - 1].number))
  {
    var last := invoices[|invoices| - 1].number;
    UnparsedNumberToSave(invoices, d.number);
    SaveNewTakesNumber(invoices, id, d, today, now, Err(BadLastNumber(last)));
  }

  lemma UnparsedNumberToSave(invoices: seq<Invoice>, given: string)
    requires given == "" && invoices != [] && InvoiceSequence(invoices[|invoices| - 1].number).None?
    ensures NumberToSave(invoices, given) == Err(BadLastNumber(invoices[|invoices| - 1].number))
  {
    assert LastNumber(invoices) == Some(invoices[|invoices| - 1].number);
  }

  lemma ParsedNumberToSave(invoices: seq<Invoice>, given: string, n: nat)
    requires given == "" && invoices != [] && InvoiceSequence(invoices[|invoices| - 1].number) == Some(n)
    ensures NumberToSave(invoices, given) ==
      if DigitCount(n + 1) <= MaxStrDigits then Ok(FormatInvoiceNumber(n + 1)) else Err(NumberTooLong(n + 1))
  {
    assert LastNumber(invoices) == Some(invoices[|invoices| - 1].number);
    NextAfterParsed(invoices[|invoices| - 1].number, n);
  }

  /** A save fails with the error of the number it was to take, and otherwise stores that number. */
  lemma SaveNewTakesNumber(invoices: seq<Invoice>, id: nat, d: InvoiceDraft, today: Day, now: int,
                           number: Result<string, SaveError>)
    requires number == NumberToSave(invoices, d.number)
    ensures number.Err? ==> SaveNew(invoices, id, d, today, now) == Err(number.error)
    ensures SaveNew(invoices, id, d, today, now).Ok? ==>
      number.Ok? && SaveNew(invoices, id, d, today, now).value.number == number.value
  {
  }

  /** The due date is thirty days after today unless the caller gave one. */
  lemma {:induction false} SaveNewDueDate(invoices: seq<Invoice>, id: nat, d: InvoiceDraft, today: Day, now: int)
    ensures var r := SaveNew(invoices, id, d, today, now);
      r.Ok? ==>
        && r.value.dueDate == (if d.dueDate.None? then Some(today + 30) else d.dueDate)
        && r.value.invoiceDate == today && r.value.amountPaid == 0.0 && r.value.status == d.status
  {
  }

  /**
    The save succeeds exactly when a number can be had and no stored invoice
    has that number or the same job.
   */
  lemma {:induction false} SaveNewSucceeds(invoices: seq<Invoice>, id: nat, d: InvoiceDraft, today: Day, now: int)
    ensures SaveNew(invoices, id, d, today, now).Ok? <==>
      && NumberToSave(invoices, d.number).Ok?
      && forall i :: 0 <= i < |invoices| ==>
           invoices[i].number != NumberToSave(invoices, d.number).value && invoices[i].jobId != d.jobId
  {
    var number := NumberToSave(invoices, d.number);
    if number.Ok? {
      ConflictIff(invoices, number.value, d.jobId);
    }
  }

  /** Into an empty table, a numberless invoice is saved as INV-00001, due in thirty days. */
  lemma {:induction false} FirstInvoiceSaved(id: nat, d: InvoiceDraft, today: Day, now: int)
    requires d.number == "" && d.dueDate.None?
    ensures SaveNew([], id, d, today, now).Ok?
    ensures SaveNew([], id, d, today, now).value.number == "INV-00001"
    ensures SaveNew([], id, d, today, now).value.dueDate == Some(today + 30)
  {
  }

  /**
    A numberless invoice saved after one numbered INV-<n> is numbered
    INV-<n+1>, whatever larger numbers were inserted before, and the save goes
    through exactly when that number can be formatted and it and the job are
    both still free.
   */
  lemma {:induction false} NumberFollowsLastInserted(invoices: seq<Invoice>, id: nat, d: InvoiceDraft, today: Day, now: int, n: nat)
    requires d.number == "" && invoices != [] && invoices[|invoices| - 1].number == FormatInvoiceNumber(n)
    ensures var r := SaveNew(invoices, id, d, today, now);
      && (r.Ok? ==> r.value.number == FormatInvoiceNumber(n + 1))
      && (r.Ok? <==> DigitCount(n + 1) <= MaxStrDigits && forall i :: 0 <= i < |invoices| ==>
            invoices[i].number != FormatInvoiceNumber(n + 1) && invoices[i].jobId != d.jobId)
  {
    NumberAfter(invoices, d.number, n);
    SaveNewSucceeds(invoices, id, d, today, now);
  }

  lemma {:induction false} NumberAfter(invoices: seq<Invoice>, given: string, n: nat)
    requires given == "" && invoices != [] && invoices[|invoices| - 1].number == FormatInvoiceNumber(n)
    ensures DigitCount(n + 1) <= MaxStrDigits ==> NumberToSave(invoices, given) == Ok(FormatInvoiceNumber(n + 1))
    ensures DigitCount(n + 1) > MaxStrDigits ==> NumberToSave(invoices, given).Err?
  {
    var last := invoices[|invoices| - 1].number;
    assert LastNumber(invoices) == Some(last);
    InvoiceNumberRoundTrip(n);
    DigitCountMonotonic(n, n + 1);
    if InvoiceSequence(last).Some? {
      NextAfterParsed(last, n);
    }
  }

  /**
    Because the number follows the last inserted invoice rather than the
    largest one, it can be one already in use: after INV-00003 and then
    INV-00002, a numberless invoice is refused as a duplicate INV-00003.
    (Past the digit limit it is refused before the number is even made.)
   */
  lemma {:induction false} NextNumberCanCollide(invoices: seq<Invoice>, id: nat, d: InvoiceDraft, today: Day, now: int, n: nat, k: nat)
    requires d.number == "" && invoices != [] && invoices[|invoices| - 1].number == FormatInvoiceNumber(n)
    requires k < |invoices| && invoices[k].number == FormatInvoiceNumber(n + 1)
    ensures SaveNew(invoices, id, d, today, now).Err?
    ensures DigitCount(n + 1) <= MaxStrDigits ==>
      SaveNew(invoices, id, d, today, now) == Err(DuplicateNumber(FormatInvoiceNumber(n + 1)))
  {
    NumberAfter(invoices, d.number, n);
    NumberTakenAt(invoices, k);
  }

  lemma {:induction false} NumberTakenAt(invoices: seq<Invoice>, k: nat)
    requires k < |invoices|
    ensures NumberTaken(invoices, invoices[k].number)
  {
    if k < |invoices| - 1 {
      var init := invoices[..|invoices| - 1];
      NumberTakenAt(init, k);
    }
  }

  /**
    The tables as invoice creation and payment recording keep them: invoice
    ids increase in insertion order up to the last id handed out, numbers and
    jobs are unique, every payment belongs to a stored invoice, and each
    invoice's amount_paid is the sum of its payments. (A direct write of
    amount_paid elsewhere can break the last part; the ledger has none.)
   */
  ghost predicate Consistent(invoices: seq<Invoice>, payments: seq<Payment>, lastInvoiceId: nat)
  {
    && (forall i :: 0 <= i < |invoices| ==> invoices[i].id <= lastInvoiceId)
    && (forall i, j :: 0 <= i < j < |invoices| ==> invoices[i].id < invoices[j].id)
    && (forall i, j :: 0 <= i < j < |invoices| ==>
          invoices[i].number != invoices[j].number && invoices[i].jobId != invoices[j].jobId)
    && (forall k :: 0 <= k < |payments| ==> FindKey(invoices, InvoiceId, payments[k].invoiceId).Some?)
    && (forall i :: 0 <= i < |invoices| ==> invoices[i].amountPaid == PaidTotal(payments, invoices[i].id))
  }

  /** An invoice found before an append is still found after it. */
  lemma {:induction false} FindInvoiceAppend(invoices: seq<Invoice>, inv: Invoice, id: nat)
    requires FindKey(invoices, InvoiceId, id).Some?
    ensures FindKey(invoices + [inv], InvoiceId, id).Some?
  {
    assert (invoices + [inv])[..|invoices|] == invoices;
  }

  /**
    Inserting an unpaid invoice under the next id, with a number and a job no
    stored invoice has, keeps the tables consistent.
   */
  lemma {:induction false} InsertKeepsConsistent(invoices: seq<Invoice>, payments: seq<Payment>, lastInvoiceId: nat,
                                                 inv: Invoice)
    requires Consistent(invoices, payments, lastInvoiceId)
    requires inv.id == lastInvoiceId + 1 && inv.amountPaid == 0.0
    requires forall i :: 0 <= i < |invoices| ==> invoices[i].number != inv.number && invoices[i].jobId != inv.jobId
    ensures Consistent(invoices + [inv], payments, lastInvoiceId + 1)
  {
    var invoices' := invoices + [inv];
    forall k | 0 <= k < |payments|
      ensures FindKey(invoices', InvoiceId, payments[k].invoiceId).Some?
      ensures payments[k].invoiceId != inv.id
    {
      FindInvoiceAppend(invoices, inv, payments[k].invoiceId);
    }
    NoPaymentsForNewId(payments, inv.id);
  }

  /** No stored payment can belong to an id that no invoice has yet. */
  lemma {:induction false} NoPaymentsForNewId(payments: seq<Payment>, id: nat)
    requires forall k :: 0 <= k < |payments| ==> payments[k].invoiceId != id
    ensures PaidTotal(payments, id) == 0.0
  {
    if payments != [] {
      NoPaymentsForNewId(payments[..|payments| - 1], id);
    }
  }

  /**
    Storing a payment for the invoice at position k and then recomputing that
    invoice keeps the tables consistent; no other invoice's total moves.
   */
  lemma {:induction false} PaymentKeepsConsistent(invoices: seq<Invoice>, payments: seq<Payment>, lastInvoiceId: nat,
                                                  k: nat, p: Payment, now: int)
    requires Consistent(invoices, payments, lastInvoiceId)
    requires k < |invoices| && p.invoiceId == invoices[k].id
    ensures Consistent(invoices[k := ApplyPayments(invoices[k], payments + [p], now)], payments + [p], lastInvoiceId)
  {
    var invoices' := invoices[k := ApplyPayments(invoices[k], payments + [p], now)];
    forall j | 0 <= j < |invoices|
      ensures invoices'[j].amountPaid == PaidTotal(payments + [p], invoices'[j].id)
    {
      PaidTotalAppend(payments, p, invoices[j].id);
      if j < k {
        assert invoices[j].id < invoices[k].id;
      } else if k < j {
        assert invoices[k].id < invoices[j].id;
      }
    }
    forall q | 0 <= q < |payments + [p]|
      ensures FindKey(invoices', InvoiceId, (payments + [p])[q].invoiceId).Some?
    {
      var id := (payments + [p])[q].invoiceId;
      var at := if q < |payments| then FindKey(invoices, InvoiceId, id).value else k;
      assert invoices'[at].id == id;
      FindInvoiceOf(invoices', at);
    }
  }

  /** The table keys and paid amounts of two invoice tables agree row by row. */
  predicate SameKeys(a: seq<Invoice>, b: seq<Invoice>)
  {
    |a| == |b| &&
    forall i :: 0 <= i < |a| ==>
      a[i].id == b[i].id && a[i].number == b[i].number && a[i].jobId == b[i].jobId && a[i].amountPaid == b[i].amountPaid
  }

  lemma {:induction false} FindInvoiceSameKeys(a: seq<Invoice>, b: seq<Invoice>, id: nat)
    requires SameKeys(a, b)
    ensures FindKey(a, InvoiceId, id) == FindKey(b, InvoiceId, id)
  {
    if a != [] {
      FindInvoiceSameKeys(a[..|a| - 1], b[..|b| - 1], id);
    }
  }

  /** Rewriting rows without touching their ids, numbers, jobs or paid amounts keeps the tables consistent. */
  lemma {:induction false} SameKeysKeepConsistent(a: seq<Invoice>, b: seq<Invoice>, payments: seq<Payment>, lastInvoiceId: nat)
    requires Consistent(a, payments, lastInvoiceId) && SameKeys(a, b)
    ensures Consistent(b, payments, lastInvoiceId)
  {
    forall k | 0 <= k < |payments|
      ensures FindKey(b, InvoiceId, payments[k].invoiceId).Some?
    {
      FindInvoiceSameKeys(a, b, payments[k].invoiceId);
    }
  }

  /** An invoice stored at some position is found. */
  lemma {:induction false} FindInvoiceOf(invoices: seq<Invoice>, at: nat)
    requires at < |invoices|
    ensures FindKey(invoices, InvoiceId, invoices[at].id).Some?
  {
    if invoices[|invoices| - 1].id != invoices[at].id {
      FindInvoiceOf(invoices[..|invoices| - 1], at);
    }
  }

  /** The invoice with the given number, once save() has settled its number. */
  lemma {:induction false} SaveNewWhenFree(invoices: seq<Invoice>, id: nat, d: InvoiceDraft, today: Day, now: int, number: string)
    requires NumberToSave(invoices, d.number) == Ok(number) && Conflict(invoices, number, d.jobId).None?
    ensures SaveNew(invoices, id, d, today, now) ==
      Ok(Invoice(id, d.jobId, d.customerId, number, today,
                 Some(if d.dueDate.None? then today + 30 else d.dueDate.value),
                 d.laborCost, d.materialCost, d.additionalCosts, d.taxRate,
                 d.status, 0.0, now))
  {
  }

  /** A save that fails reports the number's failure first, then the conflict. */
  lemma {:induction false} SaveNewRefused(invoices: seq<Invoice>, id: nat, d: InvoiceDraft, today: Day, now: int)
    ensures var number := NumberToSave(invoices, d.number);
      && (number.Err? ==> SaveNew(invoices, id, d, today, now) == Err(number.error))
      && (number.Ok? && Conflict(invoices, number.value, d.jobId).Some? ==>
            SaveNew(invoices, id, d, today, now) == Err(Conflict(invoices, number.value, d.jobId).value))
  {
  }

  /** sum(payment.amount for payment in invoice.payments.all()), added up one payment at a time. */
  method SumPayments(payments: seq<Payment>, invoiceId: nat) returns (paid: Money)
    ensures paid == PaidTotal(payments, invoiceId)
  {
    paid := 0.0;
    var i := 0;
    while i < |payments|
      invariant 0 <= i <= |payments|
      invariant paid == PaidTotal(payments[..i], invoiceId)
    {
      assert payments[..i + 1] == payments[..i] + [payments[i]];
      PaidTotalAppend(payments[..i], payments[i], invoiceId);
      if payments[i].invoiceId == invoiceId {
        paid := paid + payments[i].amount;
      }
      i := i + 1;
    }
    assert payments[..i] == payments;
  }

  class Ledger {
    var invoices: seq<Invoice>
    var payments: seq<Payment>
    var lastInvoiceId: nat
    var lastPaymentId: nat

    ghost predicate Valid()
      reads this
    {
      Consistent(invoices, payments, lastInvoiceId)
    }

    constructor ()
      ensures Valid() && invoices == [] && payments == []
      ensures lastInvoiceId == 0 && lastPaymentId == 0
    {
      invoices, payments := [], [];
      lastInvoiceId, lastPaymentId := 0, 0;
    }

    /** Invoice.objects.create(...): Invoice.save on a new row, then the insert. */
    method CreateInvoice(d: InvoiceDraft, today: Day, now: int) returns (r: Result<Invoice, SaveError>)
      requires Valid()
      modifies this
      ensures Valid()
      ensures r == SaveNew(old(invoices), old(lastInvoiceId) + 1, d, today, now)
      ensures invoices == if r.Ok? then old(invoices) + [r.value] else old(invoices)
      ensures lastInvoiceId == if r.Ok? then old(lastInvoiceId) + 1 else old(lastInvoiceId)
      ensures payments == old(payments) && lastPaymentId == old(lastPaymentId)
    {
      // save() fills in a missing number from the last inserted invoice ...
      var number := NumberToSave(invoices, d.number);
      if number.Err? {
        SaveNewRefused(invoices, lastInvoiceId + 1, d, today, now);
        return Err(number.error);
      }
      // ... and a missing due date thirty days out; then the insert checks the unique fields.
      var dueDate := d.dueDate;
      if dueDate.None? {
        dueDate := Some(today + 30);
      }
      var conflict := Conflict(invoices, number.value, d.jobId);
      if conflict.Some? {
        SaveNewRefused(invoices, lastInvoiceId + 1, d, today, now);
        return Err(conflict.value);
      }
      var inv := Invoice(lastInvoiceId + 1, d.jobId, d.customerId, number.value, today, dueDate,
                         d.laborCost, d.materialCost, d.additionalCosts, d.taxRate,
                         d.status, 0.0, now);
      SaveNewWhenFree(invoices, lastInvoiceId + 1, d, today, now, number.value);
      ConflictIff(invoices, number.value, d.jobId);
      Insert(inv);
      r := Ok(inv);
    }

    /** The insert of a new invoice row under the next id. */
    method Insert(inv: Invoice)
      requires Valid()
      requires inv.id == lastInvoiceId + 1 && inv.amountPaid == 0.0
      requires forall i :: 0 <= i < |invoices| ==> invoices[i].number != inv.number && invoices[i].jobId != inv.jobId
      modifies this
      ensures Valid()
      ensures invoices == old(invoices) + [inv] && lastInvoiceId == old(lastInvoiceId) + 1
      ensures payments == old(payments) && lastPaymentId == old(lastPaymentId)
    {
      InsertKeepsConsistent(invoices, payments, lastInvoiceId, inv);
      invoices := invoices + [inv];
      lastInvoiceId := lastInvoiceId + 1;
    }

    /**
      Payment.objects.create(...): the payment is stored, then its invoice's
      amount_paid is recomputed from all of the invoice's payments and the
      invoice turns PAID once that covers its total.
     */
    method RecordPayment(invoiceId: nat, amount: Money, paymentMethod: PaymentMethod,
                         date: Option<Day>, reference: string, today: Day, now: int)
      returns (r: Result<Payment, SaveError>)
      requires Valid()
      modifies this
      ensures Valid()
      ensures r.Err? <==> FindKey(old(invoices), InvoiceId, invoiceId).None?
      ensures lastInvoiceId == old(lastInvoiceId)
      ensures lastPaymentId == if r.Ok? then old(lastPaymentId) + 1 else old(lastPaymentId)
      ensures r.Err? ==>
        r.error == NoSuchInvoice(invoiceId) && invoices == old(invoices) && payments == old(payments)
      ensures r.Ok? ==>
        var k := FindKey(old(invoices), InvoiceId, invoiceId).value;
        && r.value == Payment(old(lastPaymentId) + 1, invoiceId, amount, paymentMethod,
                              if date.None? then today else date.value, reference)
        && payments == old(payments) + [r.value]
        && invoices == old(invoices)[k := ApplyPayments(old(invoices)[k], payments, now)]
    {
      var found := FindKey(invoices, InvoiceId, invoiceId);
      if found.None? {
        return Err(NoSuchInvoice(invoiceId));
      }
      var k := found.value;
      var p := Payment(lastPaymentId + 1, invoiceId, amount, paymentMethod,
                       if date.None? then today else date.value, reference);
      var inv := invoices[k];
      var stored := payments + [p];

      var paid := SumPayments(stored, invoiceId);

      var status := inv.status;
      if paid >= TotalAmount(inv) {
        status := Paid;
      }
      var updated := inv.(amountPaid := paid, status := status, updatedAt := now);
      assert updated == ApplyPayments(inv, stored, now);
      StorePayment(k, p, updated);
      r := Ok(p);
    }

    /** The insert of a payment row under the next id, with its invoice's row rewritten. */
    method StorePayment(k: nat, p: Payment, updated: Invoice)
      requires Valid()
      requires k < |invoices| && p.invoiceId == invoices[k].id && p.id == lastPaymentId + 1
      requires updated == ApplyPayments(invoices[k], payments + [p], updated.updatedAt)
      modifies this
      ensures Valid()
      ensures payments == old(payments) + [p] && lastPaymentId == old(lastPaymentId) + 1
      ensures invoices == old(invoices)[k := updated] && lastInvoiceId == old(lastInvoiceId)
    {
      PaymentKeepsConsistent(invoices, payments, lastInvoiceId, k, p, updated.updatedAt);
      invoices := invoices[k := updated];
      payments := payments + [p];
      lastPaymentId := lastPaymentId + 1;
    }
  }
}
