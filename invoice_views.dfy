/**
  The two invoice list actions of the invoice view set
  (construction/views.py, InvoiceViewSet.overdue and InvoiceViewSet.unpaid):
  the overdue sweep rewrites the status of stored invoices in bulk.
 */
module InvoiceViews {
  import opened Wrappers
  import opened Seqs
  import opened Models
  import opened Ledger

  /**
    The sweep's query: status SENT or OVERDUE and a due date before today.
    It selects exactly the invoices whose is_overdue property holds.
   */
  predicate OverdueQuery(inv: Invoice, today: Day)
    ensures OverdueQuery(inv, today) <==> IsOverdue(inv, today)
  {
    (inv.status == Sent || inv.status == Overdue) && inv.dueDate.Some? && inv.dueDate.value < today
  }

  /** One row after update(status='OVERDUE') on the query; the update bypasses save(), so updated_at stays. */
  function Swept(inv: Invoice, today: Day): Invoice
  {
    if OverdueQuery(inv, today) then inv.(status := Overdue) else inv
  }

  /** The whole table after the sweep. */
  function SweepAll(invoices: seq<Invoice>, today: Day): (r: seq<Invoice>)
    ensures |r| == |invoices|
  {
    seq(|invoices|, i requires 0 <= i < |invoices| => Swept(invoices[i], today))
  }

  /**
    After the sweep an invoice is OVERDUE exactly when it was overdue or
    already OVERDUE; the sweep changes nothing but that status, and leaves an
    invoice outside the query exactly as it was.
   */
  lemma SweepStatus(invoices: seq<Invoice>, today: Day)
    ensures var r := SweepAll(invoices, today);
      forall i :: 0 <= i < |invoices| ==>
        && (r[i].status == Overdue <==> IsOverdue(invoices[i], today) || invoices[i].status == Overdue)
        && r[i] == invoices[i].(status := r[i].status)
        && (!IsOverdue(invoices[i], today) ==> r[i] == invoices[i])
  {
  }

  /** A second sweep on the same day changes nothing. */
  lemma SweepIdempotent(invoices: seq<Invoice>, today: Day)
    ensures SweepAll(SweepAll(invoices, today), today) == SweepAll(invoices, today)
  {
  }

  /** The sweep keeps the ledger consistent: it changes no id, number, job or paid amount. */
  lemma SweepKeepsKeys(invoices: seq<Invoice>, today: Day)
    ensures SameKeys(invoices, SweepAll(invoices, today))
  {
  }

  function InvoiceDate(inv: Invoice): int { inv.invoiceDate }

  /** Invoice.objects.all() in the model's ordering, ['-invoice_date']: the newest invoice first. */
  function NewestFirst(invoices: seq<Invoice>): seq<Invoice>
  {
    SortDesc(invoices, InvoiceDate)
  }

  predicate IsSentOrOverdue(inv: Invoice)
  {
    inv.status == Sent || inv.status == Overdue
  }

  /** InvoiceViewSet.unpaid: the invoices with status SENT or OVERDUE, newest first. */
  function Unpaid(invoices: seq<Invoice>): seq<Invoice>
  {
    NewestFirst(Filter(invoices, IsSentOrOverdue))
  }

  /** The rows the overdue query selects, in storage order. */
  function OverdueSelection(invoices: seq<Invoice>, today: Day): seq<Invoice>
  {
    Filter(invoices, (inv: Invoice) => OverdueQuery(inv, today))
  }

  /** The rows the overdue action serializes: the query re-run on the updated table, newest first. */
  function OverdueListed(invoices: seq<Invoice>, today: Day): seq<Invoice>
  {
    NewestFirst(OverdueSelection(invoices, today))
  }

  /**
    What the overdue action lists once the update has run: newest first, every
    invoice that was overdue, now OVERDUE, and all of them among the unpaid
    ones.
   */
  lemma {:induction false} OverdueListing(invoices: seq<Invoice>, today: Day)
    ensures var after := SweepAll(invoices, today);
      var listed := OverdueListed(after, today);
      && SortedDesc(listed, InvoiceDate)
      && (forall x :: x in listed ==> x.status == Overdue && x in Unpaid(after))
      && (forall i :: 0 <= i < |invoices| && IsOverdue(invoices[i], today) ==> after[i] in listed)
      && |listed| == Count(invoices, (inv: Invoice) => IsOverdue(inv, today))
  {
    var after := SweepAll(invoices, today);
    OverdueSelected(invoices, today);
    SortDescMembers(OverdueSelection(after, today), InvoiceDate);
    SortDescMembers(Filter(after, IsSentOrOverdue), InvoiceDate);
  }

  /** The same facts before the rows are put in order. */
  lemma {:induction false} OverdueSelected(invoices: seq<Invoice>, today: Day)
    ensures var after := SweepAll(invoices, today);
      var selected := OverdueSelection(after, today);
      && (forall x :: x in selected ==> x.status == Overdue && x in Filter(after, IsSentOrOverdue))
      && (forall i :: 0 <= i < |invoices| && IsOverdue(invoices[i], today) ==> after[i] in selected)
      && |selected| == Count(invoices, (inv: Invoice) => IsOverdue(inv, today))
  {
    var after := SweepAll(invoices, today);
    var selected := OverdueSelection(after, today);
    forall x | x in selected ensures x.status == Overdue && x in Filter(after, IsSentOrOverdue) {
      var k :| 0 <= k < |selected| && selected[k] == x;
    }
    CountSame(after, (inv: Invoice) => OverdueQuery(inv, today), invoices, (inv: Invoice) => IsOverdue(inv, today));
  }

  /**
    InvoiceViewSet.overdue: every stored invoice the query selects becomes
    OVERDUE; the action answers with the rows the query selects afterwards,
    newest first.
   */
  method MarkOverdue(ledger: Ledger, today: Day) returns (listed: seq<Invoice>)
    requires ledger.Valid()
    modifies ledger
    ensures ledger.Valid()
    ensures ledger.invoices == SweepAll(old(ledger.invoices), today)
    ensures ledger.payments == old(ledger.payments)
    ensures ledger.lastInvoiceId == old(ledger.lastInvoiceId) && ledger.lastPaymentId == old(ledger.lastPaymentId)
    ensures listed == OverdueListed(ledger.invoices, today)
  {
    ghost var before := ledger.invoices;
    var i := 0;
    while i < |ledger.invoices|
      invariant 0 <= i <= |ledger.invoices| == |before|
      invariant forall k :: 0 <= k < i ==> ledger.invoices[k] == Swept(before[k], today)
      invariant forall k :: i <= k < |before| ==> ledger.invoices[k] == before[k]
      invariant ledger.payments == old(ledger.payments)
      invariant ledger.lastInvoiceId == old(ledger.lastInvoiceId) && ledger.lastPaymentId == old(ledger.lastPaymentId)
    {
      var inv := ledger.invoices[i];
      if OverdueQuery(inv, today) {
        ledger.invoices := ledger.invoices[i := inv.(status := Overdue)];
      }
      i := i + 1;
    }
    assert ledger.invoices == SweepAll(before, today);
    SweepKeepsKeys(before, today);
    SameKeysKeepConsistent(before, ledger.invoices, ledger.payments, ledger.lastInvoiceId);
    listed := OverdueListed(ledger.invoices, today);
  }
}
