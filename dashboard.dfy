/**
  The dashboard figures (construction/views.py, get_dashboard_stats), as
  functions over the stored rows with today as a parameter, and the method
  that accumulates them the way the view does.
 */
module Dashboard {
  import opened Seqs
  import opened Models
  import opened InvoiceViews

  predicate IsPaid(inv: Invoice) { inv.status == Paid }

  predicate IsUnpaid(inv: Invoice) { inv.status != Paid }

  /** total_revenue: the total of every PAID invoice, 0 when there is none. See RevenueAddsUp and DashboardStats. */
  function TotalRevenue(invoices: seq<Invoice>): (r: Money)
    ensures Filter(invoices, IsPaid) == [] ==> r == 0.0
  {
    Sum(Filter(invoices, IsPaid), TotalAmount)
  }

  /**
    pending_revenue: what is still owed on every invoice that is not PAID, 0
    when there is none. See RevenueAddsUp, PendingRevenueNonNegative, SumPending
    and DashboardStats.
   */
  function PendingRevenue(invoices: seq<Invoice>): (r: Money)
    ensures Filter(invoices, IsUnpaid) == [] ==> r == 0.0
  {
    Sum(Filter(invoices, IsUnpaid), BalanceDue)
  }

  function AmountPaid(inv: Invoice): Money { inv.amountPaid }

  /** Realised and pending revenue together are everything invoiced less what was paid on invoices that are not PAID. */
  lemma {:induction false} RevenueAddsUp(invoices: seq<Invoice>)
    ensures TotalRevenue(invoices) + PendingRevenue(invoices)
         == Sum(invoices, TotalAmount) - Sum(Filter(invoices, IsUnpaid), AmountPaid)
  {
    SumSplit(invoices, IsPaid, IsUnpaid, TotalAmount);
    SumDifference(Filter(invoices, IsUnpaid), TotalAmount, AmountPaid, BalanceDue);
  }

  /** Pending revenue is never negative while no unpaid invoice is overpaid. */
  lemma {:induction false} PendingRevenueNonNegative(invoices: seq<Invoice>)
    requires forall i :: 0 <= i < |invoices| && IsUnpaid(invoices[i]) ==> invoices[i].amountPaid <= TotalAmount(invoices[i])
    ensures PendingRevenue(invoices) >= 0.0
  {
    var unpaid := Filter(invoices, IsUnpaid);
    forall i | 0 <= i < |unpaid| ensures BalanceDue(unpaid[i]) >= 0.0 {
      var k :| 0 <= k < |invoices| && invoices[k] == unpaid[i];
    }
    SumNonNegative(unpaid, BalanceDue);
  }

  /** round((part / whole) * 100, 2) if whole else 0, before the rounding. */
  function Percentage(part: nat, whole: nat): (r: real)
    ensures whole == 0 ==> r == 0.0
    ensures whole > 0 ==> r * whole as real == 100.0 * part as real
    ensures part <= whole ==> 0.0 <= r <= 100.0
  {
    if whole == 0 then 0.0 else (part as real / whole as real) * 100.0
  }

  /** worker_availability: the share of workers marked available, as a percentage. */
  function WorkerAvailability(workers: seq<Worker>): (r: real)
    ensures 0.0 <= r <= 100.0
    ensures workers == [] ==> r == 0.0
  {
    Percentage(Count(workers, IsAvailable), |workers|)
  }

  predicate IsCompleted(j: Job) { j.status == Completed }

  predicate IsInProgress(j: Job) { j.status == InProgress }

  predicate IsScheduledOrConfirmed(j: Job) { j.status == Scheduled || j.status == Confirmed }

  predicate IsPendingEstimate(e: Estimate) { e.status == Pending }

  predicate IsAcceptedEstimate(e: Estimate) { e.status == Accepted }

  predicate IsAvailable(w: Worker) { w.isAvailable }

  /** customer_satisfaction: the share of jobs that are COMPLETED, as a percentage. */
  function CustomerSatisfaction(jobs: seq<Job>): (r: real)
    ensures 0.0 <= r <= 100.0
    ensures jobs == [] ==> r == 0.0
  {
    Percentage(Count(jobs, IsCompleted), |jobs|)
  }

  function Duration(j: Job): real { (j.scheduledEnd - j.scheduledStart) as real }

  /** average_job_duration: the mean planned length in whole days (timedelta.days floors), 0 with no jobs. */
  function AverageJobDuration(jobs: seq<Job>): int
  {
    if jobs == [] then 0 else (Sum(jobs, Duration) / |jobs| as real).Floor
  }

  /** The average lies within the shortest and longest planned lengths. */
  lemma {:induction false} AverageJobDurationBounds(jobs: seq<Job>, lo: int, hi: int)
    requires jobs != []
    requires forall i :: 0 <= i < |jobs| ==> lo <= jobs[i].scheduledEnd - jobs[i].scheduledStart <= hi
    ensures lo <= AverageJobDuration(jobs) <= hi
  {
    SumBounds(jobs, Duration, lo as real, hi as real);
    MeanBetween(Sum(jobs, Duration), |jobs| as real, lo as real, hi as real);
  }

  /** A total between lo * n and hi * n, shared among n > 0, gives each a share between lo and hi. */
  lemma MeanBetween(total: real, n: real, lo: real, hi: real)
    requires n > 0.0 && lo * n <= total <= hi * n
    ensures lo <= total / n <= hi
  {
    var mean := total / n;
    assert (mean - lo) * n == total - lo * n;
    assert (hi - mean) * n == hi * n - total;
    NonNegativeFactor(mean - lo, n);
    NonNegativeFactor(hi - mean, n);
  }

  lemma NonNegativeFactor(x: real, n: real)
    requires n > 0.0 && x * n >= 0.0
    ensures x >= 0.0
  {
  }

  /**
    material_spend: quantity times unit cost summed over every material, 0 when
    there is none. See Models.MaterialSpendSplits and DashboardStats.
   */
  function MaterialSpend(materials: seq<Material>): (r: Money)
    ensures materials == [] ==> r == 0.0
  {
    Sum(materials, TotalCost)
  }

  /** overdue_invoices: the rows the overdue query selects. */
  function OverdueCount(invoices: seq<Invoice>, today: Day): nat
  {
    Count(invoices, (inv: Invoice) => OverdueQuery(inv, today))
  }

  /** The overdue count is the number of invoices whose is_overdue property holds. */
  lemma {:induction false} OverdueCountMatchesProperty(invoices: seq<Invoice>, today: Day)
    ensures OverdueCount(invoices, today) == Count(invoices, (inv: Invoice) => IsOverdue(inv, today))
  {
    CountSame(invoices, (inv: Invoice) => OverdueQuery(inv, today), invoices, (inv: Invoice) => IsOverdue(inv, today));
  }

  /** One entry of recent_activity; the ISO timestamp is kept as the instant it spells. */
  datatype Activity =
    | JobEntry(title: string, jobStatus: JobStatus, timestamp: int)
    | InvoiceEntry(number: string, invoiceStatus: InvoiceStatus, timestamp: int)

  function JobUpdated(j: Job): int { j.updatedAt }

  function InvoiceUpdated(inv: Invoice): int { inv.updatedAt }

  function EntryTime(a: Activity): int { a.timestamp }

  function JobActivity(j: Job): Activity { JobEntry(j.title, j.status, j.updatedAt) }

  function InvoiceActivity(inv: Invoice): Activity { InvoiceEntry(inv.number, inv.status, inv.updatedAt) }

  /** jobs.order_by('-updated_at')[:5]. */
  function LatestJobs(jobs: seq<Job>): seq<Job>
  {
    Take(SortDesc(jobs, JobUpdated), 5)
  }

  /** invoices.order_by('-updated_at')[:5]. */
  function LatestInvoices(invoices: seq<Invoice>): seq<Invoice>
  {
    Take(SortDesc(invoices, InvoiceUpdated), 5)
  }

  /** One entry per job, in order. */
  function JobEntries(lj: seq<Job>): (r: seq<Activity>)
    ensures |r| == |lj| && forall m :: 0 <= m < |lj| ==> r[m] == JobActivity(lj[m])
  {
    seq(|lj|, i requires 0 <= i < |lj| => JobActivity(lj[i]))
  }

  /** One entry per invoice, in order. */
  function InvoiceEntries(li: seq<Invoice>): (r: seq<Activity>)
    ensures |r| == |li| && forall m :: 0 <= m < |li| ==> r[m] == InvoiceActivity(li[m])
  {
    seq(|li|, i requires 0 <= i < |li| => InvoiceActivity(li[i]))
  }

  /** The entries appended for the given jobs, then for the given invoices. */
  function Merged(lj: seq<Job>, li: seq<Invoice>): (r: seq<Activity>)
    ensures |r| == |lj| + |li|
    ensures forall m :: 0 <= m < |lj| ==> r[m] == JobActivity(lj[m])
    ensures forall m :: |lj| <= m < |r| ==> r[m] == InvoiceActivity(li[m - |lj|])
  {
    JobEntries(lj) + InvoiceEntries(li)
  }

  /** recent_activity: the merged entries sorted newest first, cut to six. */
  function RecentActivity(jobs: seq<Job>, invoices: seq<Invoice>): seq<Activity>
  {
    Take(SortDesc(Merged(LatestJobs(jobs), LatestInvoices(invoices)), EntryTime), 6)
  }

  function Min(a: int, b: int): int { if a < b then a else b }

  /** The feed is newest first and holds min(6, min(5, jobs) + min(5, invoices)) entries. */
  lemma {:induction false} RecentActivityShape(jobs: seq<Job>, invoices: seq<Invoice>)
    ensures SortedDesc(RecentActivity(jobs, invoices), EntryTime)
    ensures |RecentActivity(jobs, invoices)| == Min(6, Min(5, |jobs|) + Min(5, |invoices|))
  {
    TakeSortedIsTop(Merged(LatestJobs(jobs), LatestInvoices(invoices)), EntryTime, 6);
  }

  /** Every entry of the feed describes one of the stored jobs or invoices. */
  lemma {:induction false} RecentActivityFromInputs(jobs: seq<Job>, invoices: seq<Invoice>)
    ensures forall a :: a in RecentActivity(jobs, invoices) ==>
      (exists j :: j in jobs && a == JobActivity(j)) || (exists inv :: inv in invoices && a == InvoiceActivity(inv))
  {
    var lj, li := LatestJobs(jobs), LatestInvoices(invoices);
    var merged := Merged(lj, li);
    TakeSortedIsTop(jobs, JobUpdated, 5);
    TakeSortedIsTop(invoices, InvoiceUpdated, 5);
    TakeSortedIsTop(merged, EntryTime, 6);
    forall a | a in merged
      ensures (exists j :: j in jobs && a == JobActivity(j)) || (exists inv :: inv in invoices && a == InvoiceActivity(inv))
    {
      var m :| 0 <= m < |merged| && merged[m] == a;
      if m < |lj| {
        assert lj[m] in jobs;
      } else {
        assert li[m - |lj|] in invoices;
      }
    }
  }

  /** The jobs shown are the most recently updated: a job left out was updated no later than any job shown. */
  lemma {:induction false} LatestJobsAreNewest(jobs: seq<Job>)
    ensures var sorted := SortDesc(jobs, JobUpdated);
      && multiset(sorted) == multiset(jobs)
      && LatestJobs(jobs) == sorted[..|LatestJobs(jobs)|]
      && forall i, m :: 0 <= i < |LatestJobs(jobs)| <= m < |sorted| ==> LatestJobs(jobs)[i].updatedAt >= sorted[m].updatedAt
  {
    TakeSortedIsTop(jobs, JobUpdated, 5);
  }

  datatype Stats = Stats(
    activeJobs: nat, scheduledJobs: nat, completedJobs: nat,
    pendingEstimates: nat, acceptedEstimates: nat,
    paidInvoices: nat, overdueInvoices: nat,
    totalRevenue: Money, pendingRevenue: Money,
    workerAvailability: real, workerTotal: nat, workerAvailable: nat,
    materialSpend: Money, averageJobDuration: int, customerSatisfaction: real,
    recentActivity: seq<Activity>)

  /** The pending_revenue loop: what is owed on each invoice that is not PAID, added up. */
  method SumPending(invoices: seq<Invoice>) returns (pending: Money)
    ensures pending == PendingRevenue(invoices)
  {
    var unpaid := Filter(invoices, IsUnpaid);
    pending := 0.0;
    for i := 0 to |unpaid|
      invariant pending == Sum(unpaid[..i], BalanceDue)
    {
      assert unpaid[..i + 1] == unpaid[..i] + [unpaid[i]];
      SumAppend(unpaid[..i], [unpaid[i]], BalanceDue);
      pending := pending + (TotalAmount(unpaid[i]) - unpaid[i].amountPaid);
    }
    assert unpaid[..|unpaid|] == unpaid;
  }

  /** The recent_activity loops: an entry per latest job, then per latest invoice, sorted and cut to six. */
  method CollectActivity(jobs: seq<Job>, invoices: seq<Invoice>) returns (feed: seq<Activity>)
    ensures feed == RecentActivity(jobs, invoices)
  {
    var lj := LatestJobs(jobs);
    var activity := AppendJobEntries([], lj);
    assert activity == JobEntries(lj);
    var li := LatestInvoices(invoices);
    activity := AppendInvoiceEntries(activity, li);
    assert activity == Merged(lj, li);
    feed := Take(SortDesc(activity, EntryTime), 6);
  }

  /** The loop over the latest jobs: one entry appended per job. */
  method AppendJobEntries(prefix: seq<Activity>, lj: seq<Job>) returns (activity: seq<Activity>)
    ensures activity == prefix + JobEntries(lj)
  {
    activity := prefix;
    for i := 0 to |lj|
      invariant |activity| == |prefix| + i
      invariant activity[..|prefix|] == prefix
      invariant forall k :: 0 <= k < i ==> activity[|prefix| + k] == JobActivity(lj[k])
    {
      activity := activity + [JobEntry(lj[i].title, lj[i].status, lj[i].updatedAt)];
    }
  }

  /** The loop over the latest invoices: one entry appended per invoice. */
  method AppendInvoiceEntries(prefix: seq<Activity>, li: seq<Invoice>) returns (activity: seq<Activity>)
    ensures activity == prefix + InvoiceEntries(li)
  {
    activity := prefix;
    for i := 0 to |li|
      invariant |activity| == |prefix| + i
      invariant activity[..|prefix|] == prefix
      invariant forall k :: 0 <= k < i ==> activity[|prefix| + k] == InvoiceActivity(li[k])
    {
      activity := activity + [InvoiceEntry(li[i].number, li[i].status, li[i].updatedAt)];
    }
  }

  /** get_dashboard_stats: status counts, revenue, ratios and the activity feed over the stored rows. */
  method DashboardStats(jobs: seq<Job>, invoices: seq<Invoice>, workers: seq<Worker>,
                        materials: seq<Material>, estimates: seq<Estimate>, today: Day)
    returns (s: Stats)
    ensures s.activeJobs == Count(jobs, IsInProgress)
    ensures s.scheduledJobs == Count(jobs, IsScheduledOrConfirmed)
    ensures s.completedJobs == Count(jobs, IsCompleted)
    ensures s.pendingEstimates == Count(estimates, IsPendingEstimate)
    ensures s.acceptedEstimates == Count(estimates, IsAcceptedEstimate)
    ensures s.paidInvoices == Count(invoices, IsPaid)
    ensures s.overdueInvoices == OverdueCount(invoices, today)
    ensures s.totalRevenue == TotalRevenue(invoices)
    ensures s.pendingRevenue == PendingRevenue(invoices)
    ensures s.workerAvailability == WorkerAvailability(workers)
    ensures s.workerTotal == |workers| && s.workerAvailable == Count(workers, IsAvailable)
    ensures s.workerAvailable <= s.workerTotal
    ensures s.materialSpend == MaterialSpend(materials)
    ensures s.averageJobDuration == AverageJobDuration(jobs)
    ensures s.customerSatisfaction == CustomerSatisfaction(jobs)
    ensures s.recentActivity == RecentActivity(jobs, invoices)
  {
    var pending := SumPending(invoices);
    var feed := CollectActivity(jobs, invoices);
    s := Stats(
      Count(jobs, IsInProgress), Count(jobs, IsScheduledOrConfirmed), Count(jobs, IsCompleted),
      Count(estimates, IsPendingEstimate), Count(estimates, IsAcceptedEstimate),
      Count(invoices, IsPaid), OverdueCount(invoices, today),
      TotalRevenue(invoices), pending,
      WorkerAvailability(workers), |workers|, Count(workers, IsAvailable),
      MaterialSpend(materials), AverageJobDuration(jobs), CustomerSatisfaction(jobs),
      feed);
  }
}
