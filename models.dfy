/**
  The entities of the construction back end and the values its models derive
  from their fields: the money fields of an invoice, the date-window checks of
  jobs, estimates and invoices, the invoice-number format, and the rule a saved
  payment applies to its invoice (construction/models.py).

  Decimal amounts are exact reals; dates are day numbers; `today` and `now`
  (the clock the source reads) are parameters.
 */
module Models {
  import opened Wrappers
  import opened Text
  import opened Seqs

  /** A calendar date as a day number, so that `d + 30` is thirty days later. */
  type Day = int

  /** A Decimal amount of money, exact. */
  type Money = real

  datatype Customer = Customer(id: nat, firstName: string, lastName: string, email: string)

  /** Customer.full_name: the first name, one space, the last name. */
  function FullName(c: Customer): (r: string)
    ensures |r| == |c.firstName| + 1 + |c.lastName|
    ensures r[|c.firstName|] == ' '
    ensures r[..|c.firstName|] == c.firstName && r[|c.firstName| + 1..] == c.lastName
  {
    c.firstName + " " + c.lastName
  }

  /** When first names contain no space, the full name determines both names. */
  lemma FullNameDeterminesNames(a: Customer, b: Customer)
    requires ' ' !in a.firstName && ' ' !in b.firstName
    requires FullName(a) == FullName(b)
    ensures a.firstName == b.firstName && a.lastName == b.lastName
  {
    var s := FullName(a);
    assert forall i :: 0 <= i < |a.firstName| ==> s[i] == a.firstName[i];
    assert forall i :: 0 <= i < |b.firstName| ==> s[i] == b.firstName[i];
    assert |a.firstName| == |b.firstName|;
    assert a.firstName == s[..|a.firstName|];
    assert b.firstName == s[..|b.firstName|];
    assert a.lastName == s[|a.firstName| + 1..];
    assert b.lastName == s[|b.firstName| + 1..];
  }

  datatype Worker = Worker(id: nat, username: string, email: string, isAvailable: bool)

  datatype EstimateStatus = Pending | Visited | EstimateSent | Accepted | Rejected

  datatype Estimate = Estimate(
    id: nat, customerId: nat, status: EstimateStatus,
    propertyVisitDate: Option<Day>, estimateSentDate: Option<Day>, responseDate: Option<Day>)

  /** Estimate.is_within_3_days_of_visit: a visit took place and today is at most three days after it. */
  predicate IsWithin3DaysOfVisit(e: Estimate, today: Day)
  {
    e.propertyVisitDate.Some? && today <= e.propertyVisitDate.value + 3
  }

  /** The window closes for good: once past it, every later day is past it too. */
  lemma {:induction false} VisitWindowCloses(e: Estimate, today: Day, later: Day)
    requires today <= later
    ensures IsWithin3DaysOfVisit(e, later) ==> IsWithin3DaysOfVisit(e, today)
    ensures e.propertyVisitDate.Some? && today > e.propertyVisitDate.value + 3 ==> !IsWithin3DaysOfVisit(e, later)
  {
  }

  datatype JobStatus = Scheduled | Confirmed | InProgress | Completed | JobCancelled

  datatype Job = Job(
    id: nat, customerId: nat, title: string,
    scheduledStart: Day, scheduledEnd: Day, actualStart: Option<Day>, actualEnd: Option<Day>,
    status: JobStatus, confirmationDate: Option<Day>, updatedAt: int)

  /** Job.needs_confirmation: still scheduled and due to start in one to five days. */
  predicate NeedsConfirmation(j: Job, today: Day)
  {
    j.status == Scheduled && 1 <= j.scheduledStart - today <= 5
  }

  /** A scheduled job needs confirmation on exactly the five days before its start. */
  lemma NeedsConfirmationDays(j: Job, today: Day)
    requires j.status == Scheduled
    ensures NeedsConfirmation(j, today) <==> j.scheduledStart - 5 <= today < j.scheduledStart
    ensures NeedsConfirmation(j, today) ==> !NeedsConfirmation(j, j.scheduledStart)
  {
  }

  datatype Material = Material(id: nat, jobId: nat, name: string, quantity: Money, unitCost: Money)

  /** Material.total_cost. */
  function TotalCost(m: Material): Money
  {
    m.quantity * m.unitCost
  }

  /** The materials bought for one job. */
  function MaterialsOf(jobId: nat, materials: seq<Material>): seq<Material>
  {
    Filter(materials, (m: Material) => m.jobId == jobId)
  }

  /** Job.total_material_cost: the cost of the job's own materials; never negative when no quantity or price is. */
  function JobMaterialCost(j: Job, materials: seq<Material>): (r: Money)
    ensures (forall k :: 0 <= k < |materials| ==> materials[k].quantity >= 0.0 && materials[k].unitCost >= 0.0) ==> r >= 0.0
    ensures MaterialsOf(j.id, materials) == [] ==> r == 0.0
  {
    OwnSpendNonNegative(j.id, materials);
    Sum(MaterialsOf(j.id, materials), TotalCost)
  }

  lemma OwnSpendNonNegative(jobId: nat, materials: seq<Material>)
    ensures (forall k :: 0 <= k < |materials| ==> materials[k].quantity >= 0.0 && materials[k].unitCost >= 0.0) ==>
      Sum(MaterialsOf(jobId, materials), TotalCost) >= 0.0
  {
    var own := MaterialsOf(jobId, materials);
    if forall k :: 0 <= k < |materials| ==> materials[k].quantity >= 0.0 && materials[k].unitCost >= 0.0 {
      assert forall k :: 0 <= k < |own| ==> own[k] in materials;
      SumNonNegative(own, TotalCost);
    }
  }

  /** Spending on all materials splits into one job's materials and everybody else's. */
  lemma {:induction false} MaterialSpendSplits(jobId: nat, materials: seq<Material>)
    ensures Sum(materials, TotalCost)
         == Sum(MaterialsOf(jobId, materials), TotalCost)
          + Sum(Filter(materials, (m: Material) => m.jobId != jobId), TotalCost)
  {
    if materials != [] {
      var init := materials[..|materials| - 1];
      var last := materials[|materials| - 1];
      MaterialSpendSplits(jobId, init);
      if last.jobId == jobId {
        SumAppend(MaterialsOf(jobId, init), [last], TotalCost);
      } else {
        SumAppend(Filter(init, (m: Material) => m.jobId != jobId), [last], TotalCost);
      }
    }
  }

  datatype InvoiceStatus = Draft | Sent | Paid | Overdue | Cancelled

  datatype Invoice = Invoice(
    id: nat, jobId: nat, customerId: nat, number: string,
    invoiceDate: Day, dueDate: Option<Day>,
    laborCost: Money, materialCost: Money, additionalCosts: Money, taxRate: real,
    status: InvoiceStatus, amountPaid: Money, updatedAt: int)

  /** The invoice fields' validators, which the serializers enforce and save() does not. */
  predicate CostsInRange(inv: Invoice)
  {
    inv.laborCost >= 0.0 && inv.materialCost >= 0.0 && inv.additionalCosts >= 0.0
    && 0.0 <= inv.taxRate <= 100.0
  }

  /** Invoice.subtotal. */
  function Subtotal(inv: Invoice): Money
  {
    inv.laborCost + inv.materialCost + inv.additionalCosts
  }

  /** Invoice.tax_amount: tax_rate is a percentage of the subtotal. */
  function TaxAmount(inv: Invoice): Money
  {
    Subtotal(inv) * inv.taxRate / 100.0
  }

  /** Invoice.total_amount. */
  function TotalAmount(inv: Invoice): Money
  {
    Subtotal(inv) + TaxAmount(inv)
  }

  /** Invoice.balance_due. */
  function BalanceDue(inv: Invoice): (r: Money)
    ensures r <= 0.0 <==> inv.amountPaid >= TotalAmount(inv)
    ensures r + inv.amountPaid == TotalAmount(inv)
  {
    TotalAmount(inv) - inv.amountPaid
  }

  /** The total is the subtotal scaled by (1 + tax_rate/100), and lies between one and two subtotals. */
  lemma TotalIsTaxedSubtotal(inv: Invoice)
    ensures TotalAmount(inv) == Subtotal(inv) * (100.0 + inv.taxRate) / 100.0
    ensures CostsInRange(inv) ==> 0.0 <= TaxAmount(inv) <= Subtotal(inv)
    ensures CostsInRange(inv) ==> Subtotal(inv) <= TotalAmount(inv) <= 2.0 * Subtotal(inv)
  {
    var s, t := Subtotal(inv), inv.taxRate;
    assert s * t / 100.0 + s == s * (100.0 + t) / 100.0;
    if CostsInRange(inv) {
      NonNegativeProduct(s, t);
      NonNegativeProduct(s, 100.0 - t);
      assert s * 100.0 - s * t == s * (100.0 - t);
    }
  }

  /** Labour 10000, material 5000, additional 1000 at 16% tax, with 5000 paid. */
  lemma InvoiceTotalsExample(inv: Invoice)
    requires inv.laborCost == 10000.0 && inv.materialCost == 5000.0 && inv.additionalCosts == 1000.0
    requires inv.taxRate == 16.0 && inv.amountPaid == 5000.0
    ensures Subtotal(inv) == 16000.0 && TaxAmount(inv) == 2560.0 && TotalAmount(inv) == 18560.0
    ensures BalanceDue(inv) == 13560.0
  {
  }

  lemma NonNegativeProduct(x: real, y: real)
    requires x >= 0.0 && y >= 0.0
    ensures x * y >= 0.0
  {
  }

  /** Invoice.is_overdue: sent or already overdue, with a due date that has passed. */
  predicate IsOverdue(inv: Invoice, today: Day)
  {
    (inv.status == Sent || inv.status == Overdue) && inv.dueDate.Some? && today > inv.dueDate.value
  }

  /** The number given to the first invoice of all. */
  const FirstInvoiceNumber: string := "INV-00001"

  /** f"INV-{n:05d}": at least five digits, wider when n needs more. */
  function FormatInvoiceNumber(n: nat): (r: string)
    ensures |r| >= 9 && r[..4] == "INV-"
  {
    "INV-" + ZeroPad(n, 5)
  }

  /** int(number.split('-')[-1]): None where Python raises ValueError. */
  function InvoiceSequence(number: string): Option<int>
  {
    ParseInt(AfterLastDash(number))
  }

  /** What follows the last dash has no minus sign, so it never reads as a negative number. */
  lemma InvoiceSequenceNonNegative(number: string)
    ensures InvoiceSequence(number).Some? ==> InvoiceSequence(number).value >= 0
  {
    ParseIntNoMinus(AfterLastDash(number));
  }

  /**
    The number a formatted invoice number carries reads back unchanged, as
    long as it has no more digits than int() reads.
   */
  lemma InvoiceNumberRoundTrip(n: nat)
    ensures InvoiceSequence(FormatInvoiceNumber(n)) == if DigitCount(n) <= MaxStrDigits then Some(n) else None
  {
    assert FormatInvoiceNumber(n) == "INV" + "-" + ZeroPad(n, 5);
    assert '-' !in ZeroPad(n, 5) by {
      forall i | 0 <= i < |ZeroPad(n, 5)| ensures ZeroPad(n, 5)[i] != '-' {
        assert IsDigit(ZeroPad(n, 5)[i]);
      }
    }
    AfterLastDashOfSuffix("INV", ZeroPad(n, 5));
    ParseZeroPad(n, 5);
    DigitCountIsLength(n);
  }

  /** Distinct numbers give distinct invoice numbers, however wide they are. */
  lemma FormatInvoiceNumberInjective(m: nat, n: nat)
    requires FormatInvoiceNumber(m) == FormatInvoiceNumber(n)
    ensures m == n
  {
    assert ZeroPad(m, 5) == FormatInvoiceNumber(m)[4..];
    assert ZeroPad(n, 5) == FormatInvoiceNumber(n)[4..];
    ZeroPadValue(m, 5);
    ZeroPadValue(n, 5);
  }

  /** The first number is the one the format gives 1, so numbering goes on from it. */
  lemma FirstInvoiceNumberIsOne()
    ensures FormatInvoiceNumber(1) == FirstInvoiceNumber
  {
    assert NatToString(1) == ['1'];
    assert Zeros(4) == Zeros(3) + ['0'];
    assert Zeros(3) == Zeros(2) + ['0'];
    assert Zeros(2) == Zeros(1) + ['0'];
    assert Zeros(1) == Zeros(0) + ['0'];
    assert ZeroPad(1, 5) == "00001";
  }

  /** The first number reads back as 1. */
  lemma FirstInvoiceSequence()
    ensures InvoiceSequence(FirstInvoiceNumber) == Some(1)
  {
    FirstInvoiceNumberIsOne();
    InvoiceNumberRoundTrip(1);
  }

  /** Five digits at least, and more once the number needs them. */
  lemma InvoiceNumberExamples()
    ensures FormatInvoiceNumber(2) == "INV-00002"
    ensures FormatInvoiceNumber(123456) == "INV-123456"
  {
    PaddedToFive();
    WiderThanFive();
  }

  lemma PaddedToFive()
    ensures ZeroPad(2, 5) == "00002"
  {
    assert NatToString(2) == ['2'];
    assert Zeros(1) == ['0'];
    assert Zeros(2) == ['0', '0'];
    assert Zeros(3) == ['0', '0', '0'];
    assert Zeros(4) == ['0', '0', '0', '0'];
  }

  lemma WiderThanFive()
    ensures ZeroPad(123456, 5) == "123456"
  {
    assert NatToString(12) == ['1', '2'];
    assert NatToString(123) == ['1', '2', '3'];
    assert NatToString(1234) == ['1', '2', '3', '4'];
    assert NatToString(12345) == ['1', '2', '3', '4', '5'];
    assert NatToString(123456) == ['1', '2', '3', '4', '5', '6'];
  }

  datatype SaveError =
    | BadLastNumber(number: string)
    | DuplicateNumber(number: string)
    | JobAlreadyInvoiced(jobId: nat)
    | NoSuchInvoice(invoiceId: nat)
    | NumberTooLong(sequence: nat)

  /**
    The number Invoice.save gives an invoice saved without one, from the number
    of the most recently inserted invoice (None when there is none yet). Both
    int() and format() raise past the digit limit.
   */
  function NextInvoiceNumber(last: Option<string>): (r: Result<string, SaveError>)
    ensures last.None? ==> r == Ok(FirstInvoiceNumber)
    ensures last.Some? && InvoiceSequence(last.value).None? ==> r == Err(BadLastNumber(last.value))
    ensures last.Some? && InvoiceSequence(last.value).Some? ==> InvoiceSequence(last.value).value >= 0
    ensures last.Some? && InvoiceSequence(last.value).Some? ==>
      var next: nat := InvoiceSequence(last.value).value + 1;
      (r.Ok? <==> DigitCount(next) <= MaxStrDigits)
      && (r.Ok? ==> r.value == FormatInvoiceNumber(next))
      && (r.Err? ==> r == Err(NumberTooLong(next)))
  {
    match last
    case None => Ok(FirstInvoiceNumber)
    case Some(number) =>
      var parsed := InvoiceSequence(number);
      if parsed.None? then Err(BadLastNumber(number))
      else
        ParseIntNoMinus(AfterLastDash(number));
        if DigitCount(parsed.value + 1) <= MaxStrDigits then Ok(FormatInvoiceNumber(parsed.value + 1))
        else Err(NumberTooLong(parsed.value + 1))
  }

  /**
    When the last number reads as n and n + 1 can still be formatted, a number
    is handed out, and it reads back as n + 1. (These are exactly the cases in
    which NextInvoiceNumber succeeds after a stored invoice.)
   */
  lemma NextNumberReadsBack(last: string, n: nat)
    requires InvoiceSequence(last) == Some(n) && DigitCount(n + 1) <= MaxStrDigits
    ensures NextInvoiceNumber(Some(last)).Ok?
    ensures InvoiceSequence(NextInvoiceNumber(Some(last)).value) == Some(n + 1)
  {
    NextAfterParsed(last, n);
    InvoiceNumberRoundTrip(n + 1);
  }

  /** A last number that reads as n is followed by the formatted n + 1, unless n + 1 is too long to format. */
  lemma NextAfterParsed(last: string, n: nat)
    requires InvoiceSequence(last) == Some(n)
    ensures NextInvoiceNumber(Some(last)) ==
      if DigitCount(n + 1) <= MaxStrDigits then Ok(FormatInvoiceNumber(n + 1)) else Err(NumberTooLong(n + 1))
  {
  }

  datatype PaymentMethod = Cash | Cheque | BankTransfer | CreditCard | DebitCard | MobileMoney

  datatype Payment = Payment(
    id: nat, invoiceId: nat, amount: Money, paymentMethod: PaymentMethod, date: Day, reference: string)

  /** sum(payment.amount for payment in invoice.payments.all()). */
  function PaidTotal(payments: seq<Payment>, invoiceId: nat): Money
  {
    if payments == [] then 0.0
    else
      var last := payments[|payments| - 1];
      PaidTotal(payments[..|payments| - 1], invoiceId) + (if last.invoiceId == invoiceId then last.amount else 0.0)
  }

  /** A payment for another invoice leaves this invoice's total alone; one for it adds its amount. */
  lemma PaidTotalAppend(payments: seq<Payment>, p: Payment, invoiceId: nat)
    ensures PaidTotal(payments + [p], invoiceId)
         == PaidTotal(payments, invoiceId) + (if p.invoiceId == invoiceId then p.amount else 0.0)
  {
    assert (payments + [p])[..|payments|] == payments;
  }

  /**
    What Payment.save does to the invoice once the payments (the new one among
    them) are stored: amount_paid is recomputed from them, and the status turns
    PAID when that covers the total.
   */
  function ApplyPayments(inv: Invoice, payments: seq<Payment>, now: int): Invoice
  {
    var paid := PaidTotal(payments, inv.id);
    inv.(amountPaid := paid,
         status := if paid >= TotalAmount(inv) then Paid else inv.status,
         updatedAt := now)
  }

  /** The invoice ends up PAID exactly when its payments cover the total or it was PAID already. */
  lemma {:induction false} ApplyPaymentsStatus(inv: Invoice, payments: seq<Payment>, now: int)
    ensures var r := ApplyPayments(inv, payments, now);
      && r.amountPaid == PaidTotal(payments, inv.id)
      && (r.status == Paid <==> r.amountPaid >= TotalAmount(inv) || inv.status == Paid)
      && (r.amountPaid < TotalAmount(inv) ==> r.status == inv.status)
      && BalanceDue(r) == TotalAmount(inv) - PaidTotal(payments, inv.id)
  {
  }

  /**
    Recomputing from the payments agrees with adding the new amount when
    amount_paid was up to date before the payment.
   */
  lemma {:induction false} RecomputeMatchesIncrement(inv: Invoice, payments: seq<Payment>, p: Payment, now: int)
    requires inv.amountPaid == PaidTotal(payments, inv.id)
    requires p.invoiceId == inv.id
    ensures ApplyPayments(inv, payments + [p], now).amountPaid == inv.amountPaid + p.amount
  {
    PaidTotalAppend(payments, p, inv.id);
  }
}
