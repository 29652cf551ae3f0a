/**
  The job actions and job lists of the job view set (construction/views.py,
  JobViewSet): confirm, start and complete rewrite a stored job, and the
  upcoming and needs-confirmation lists filter the jobs by date and status.
 */
module JobViews {
  import opened Wrappers
  import opened Seqs
  import opened Models

  datatype JobAction = ConfirmJob | StartJob | CompleteJob

  /**
    What an action does to the job it is posted to, before job.save() sets
    updated_at to now: confirm sets CONFIRMED and confirmation_date, start
    sets IN_PROGRESS and actual_start_date, complete sets COMPLETED and
    actual_end_date, each to today.
   */
  function Act(j: Job, action: JobAction, today: Day, now: int): Job
  {
    match action
    case ConfirmJob => j.(status := Confirmed, confirmationDate := Some(today), updatedAt := now)
    case StartJob => j.(status := InProgress, actualStart := Some(today), updatedAt := now)
    case CompleteJob => j.(status := Completed, actualEnd := Some(today), updatedAt := now)
  }

  /**
    No action looks at the status it overwrites: two jobs that differ only in
    status come out of an action equal, and the job it yields no longer needs
    confirmation.
   */
  lemma ActIgnoresStatus(j: Job, k: Job, action: JobAction, today: Day, now: int)
    requires k == j.(status := k.status)
    ensures Act(j, action, today, now) == Act(k, action, today, now)
    ensures !NeedsConfirmation(Act(j, action, today, now), today)
  {
  }

  function JobId(j: Job): int { j.id }

  function ScheduledStart(j: Job): int { j.scheduledStart }

  /** The jobs the needs_confirmation filter selects, in storage order. */
  function NeedsConfirmationQuery(jobs: seq<Job>, today: Day): seq<Job>
  {
    Filter(jobs, (j: Job) => today + 1 <= j.scheduledStart <= today + 5 && j.status == Scheduled)
  }

  /** The jobs the upcoming filter selects, in storage order. */
  function UpcomingQuery(jobs: seq<Job>, today: Day): seq<Job>
  {
    Filter(jobs, (j: Job) => j.scheduledStart >= today && (j.status == Scheduled || j.status == Confirmed))
  }

  /**
    JobViewSet.needs_confirmation: status SCHEDULED and a start between
    tomorrow and five days out, in Job's ordering ['scheduled_start_date'].
   */
  function NeedsConfirmationList(jobs: seq<Job>, today: Day): seq<Job>
  {
    SortAsc(NeedsConfirmationQuery(jobs, today), ScheduledStart)
  }

  /**
    JobViewSet.upcoming: status SCHEDULED or CONFIRMED and a start no earlier
    than today, in Job's ordering ['scheduled_start_date'].
   */
  function UpcomingList(jobs: seq<Job>, today: Day): seq<Job>
  {
    SortAsc(UpcomingQuery(jobs, today), ScheduledStart)
  }

  /**
    The needs-confirmation list is exactly the jobs whose needs_confirmation
    property holds, earliest start first, and each of them is also upcoming.
   */
  lemma {:induction false} NeedsConfirmationListAgrees(jobs: seq<Job>, today: Day)
    ensures NeedsConfirmationList(jobs, today) ==
      SortAsc(Filter(jobs, (j: Job) => NeedsConfirmation(j, today)), ScheduledStart)
    ensures SortedAsc(NeedsConfirmationList(jobs, today), ScheduledStart)
    ensures forall x :: x in NeedsConfirmationList(jobs, today) ==> x in UpcomingList(jobs, today)
  {
    NeedsConfirmationQueryAgrees(jobs, today);
    NeedsConfirmationIsUpcoming(jobs, today);
    SortAscMembers(NeedsConfirmationQuery(jobs, today), ScheduledStart);
    SortAscMembers(UpcomingQuery(jobs, today), ScheduledStart);
  }

  lemma NeedsConfirmationQueryAgrees(jobs: seq<Job>, today: Day)
    ensures NeedsConfirmationQuery(jobs, today) == Filter(jobs, (j: Job) => NeedsConfirmation(j, today))
  {
    FilterSame(jobs, (j: Job) => today + 1 <= j.scheduledStart <= today + 5 && j.status == Scheduled,
               (j: Job) => NeedsConfirmation(j, today));
  }

  lemma NeedsConfirmationIsUpcoming(jobs: seq<Job>, today: Day)
    ensures forall x :: x in NeedsConfirmationQuery(jobs, today) ==> x in UpcomingQuery(jobs, today)
  {
    var nc := NeedsConfirmationQuery(jobs, today);
    forall x | x in nc ensures x in UpcomingQuery(jobs, today) {
      var i :| 0 <= i < |nc| && nc[i] == x;
      var k :| 0 <= k < |jobs| && jobs[k] == x;
    }
  }

  class JobBoard {
    var jobs: seq<Job>

    /** Job ids are unique, as primary keys are. */
    ghost predicate Valid()
      reads this
    {
      forall i, j :: 0 <= i < j < |jobs| ==> jobs[i].id != jobs[j].id
    }

    constructor (stored: seq<Job>)
      requires forall i, j :: 0 <= i < j < |stored| ==> stored[i].id != stored[j].id
      ensures Valid() && jobs == stored
    {
      jobs := stored;
    }

    /** JobViewSet.confirm: 404 for an unknown id, otherwise the job is CONFIRMED today. */
    method Confirm(id: nat, today: Day, now: int) returns (r: Option<Job>)
      requires Valid()
      modifies this
      ensures Valid()
      ensures FindKey(old(jobs), JobId, id).None? ==> r.None? && jobs == old(jobs)
      ensures FindKey(old(jobs), JobId, id).Some? ==>
        var k := FindKey(old(jobs), JobId, id).value;
        && jobs == old(jobs)[k := Act(old(jobs)[k], ConfirmJob, today, now)]
        && r == Some(jobs[k])
    {
      var found := FindKey(jobs, JobId, id);
      if found.None? {
        return None;
      }
      var k := found.value;
      var job := jobs[k];
      job := job.(status := Confirmed);
      job := job.(confirmationDate := Some(today));
      job := job.(updatedAt := now);
      jobs := jobs[k := job];
      r := Some(job);
    }

    /** JobViewSet.start: 404 for an unknown id, otherwise the job is IN_PROGRESS from today. */
    method Start(id: nat, today: Day, now: int) returns (r: Option<Job>)
      requires Valid()
      modifies this
      ensures Valid()
      ensures FindKey(old(jobs), JobId, id).None? ==> r.None? && jobs == old(jobs)
      ensures FindKey(old(jobs), JobId, id).Some? ==>
        var k := FindKey(old(jobs), JobId, id).value;
        && jobs == old(jobs)[k := Act(old(jobs)[k], StartJob, today, now)]
        && r == Some(jobs[k])
    {
      var found := FindKey(jobs, JobId, id);
      if found.None? {
        return None;
      }
      var k := found.value;
      var job := jobs[k];
      job := job.(status := InProgress);
      job := job.(actualStart := Some(today));
      job := job.(updatedAt := now);
      jobs := jobs[k := job];
      r := Some(job);
    }

    /** JobViewSet.complete: 404 for an unknown id, otherwise the job is COMPLETED today. */
    method Complete(id: nat, today: Day, now: int) returns (r: Option<Job>)
      requires Valid()
      modifies this
      ensures Valid()
      ensures FindKey(old(jobs), JobId, id).None? ==> r.None? && jobs == old(jobs)
      ensures FindKey(old(jobs), JobId, id).Some? ==>
        var k := FindKey(old(jobs), JobId, id).value;
        && jobs == old(jobs)[k := Act(old(jobs)[k], CompleteJob, today, now)]
        && r == Some(jobs[k])
    {
      var found := FindKey(jobs, JobId, id);
      if found.None? {
        return None;
      }
      var k := found.value;
      var job := jobs[k];
      job := job.(status := Completed);
      job := job.(actualEnd := Some(today));
      job := job.(updatedAt := now);
      jobs := jobs[k := job];
      r := Some(job);
    }
  }
}
