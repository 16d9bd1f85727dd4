/** What the print spooler does with jobs, and the list surgery with which it does it. */
module Spool {
  import opened Options
  import opened Sequences
  import opened JobLists

  /** A job number and the request it was made for. */
  datatype Ticket = Ticket(jobid: int, usernm: string, jobnm: string, plainText: bool)

  /** How a job left the spooler. */
  datatype End = Printed | Cancelled

  datatype Retired = Retired(job: Ticket, end: End)

  /** Jobs in the order they were queued: those that have left, the one at the printer, those in the
      list. */
  datatype Jobs = Jobs(retired: seq<Retired>, atPrinter: Option<Ticket>, queued: seq<Ticket>)

  /** Everything that can go wrong with one attempt to print, in the order it is tried. */
  datatype Attempt = Attempt(opens: bool, hasStatus: bool, connects: bool, headersSent: bool, textMarkSent: bool,
                             fileSent: bool, fileRead: bool, accepted: bool)

  predicate IsCancelled(a: Attempt) {
    !a.opens || !a.hasStatus
  }

  predicate IsPrinted(a: Attempt, job: Ticket) {
    && !IsCancelled(a) && a.connects && a.headersSent && (job.plainText ==> a.textMarkSent)
    && a.fileSent && a.fileRead && a.accepted
  }

  // ---------- the three changes ----------

  function Submitted(s: Jobs, job: Ticket): Jobs {
    s.(queued := s.queued + [job])
  }

  function Taken(s: Jobs): Jobs
    requires s.queued != [] && s.atPrinter == None
  {
    s.(atPrinter := Some(s.queued[0]), queued := s.queued[1..])
  }

  function Settled(s: Jobs, end: Option<End>): Jobs
    requires s.atPrinter.Some?
  {
    match end
    case Some(e) => s.(retired := s.retired + [Retired(s.atPrinter.value, e)], atPrinter := None)
    case None => s.(queued := [s.atPrinter.value] + s.queued, atPrinter := None)
  }

  function EndOf(a: Attempt, job: Ticket): Option<End> {
    if IsCancelled(a) then Some(Cancelled) else if IsPrinted(a, job) then Some(Printed) else None
  }

  // ---------- nothing is lost or overtaken ----------

  function Tickets(retired: seq<Retired>): (r: seq<Ticket>)
    ensures |r| == |retired| && forall i :: 0 <= i < |r| ==> r[i] == retired[i].job
  {
    if retired == [] then [] else Tickets(retired[..|retired| - 1]) + [retired[|retired| - 1].job]
  }

  function AtPrinter(s: Jobs): seq<Ticket> {
    if s.atPrinter.Some? then [s.atPrinter.value] else []
  }

  /** All jobs that were ever queued, in order. */
  function All(s: Jobs): seq<Ticket> {
    Tickets(s.retired) + AtPrinter(s) + s.queued
  }

  lemma SubmitConserves(s: Jobs, job: Ticket)
    ensures All(Submitted(s, job)) == All(s) + [job]
  {
  }

  lemma TakeConserves(s: Jobs)
    requires s.queued != [] && s.atPrinter == None
    ensures All(Taken(s)) == All(s)
  {
    assert s.queued == [s.queued[0]] + s.queued[1..];
  }

  lemma SettleConserves(s: Jobs, end: Option<End>)
    requires s.atPrinter.Some?
    ensures All(Settled(s, end)) == All(s)
  {
    if end.Some? {
      var r := Settled(s, end).retired;
      assert r[..|r| - 1] == s.retired;
    }
  }

  // ---------- the list ----------

  class Spooler {
    var jobhead: Job?<Ticket>
    var jobtail: Job?<Ticket>
    /** The job that the printer thread holds. */
    var jp: Job?<Ticket>
    var retired: seq<Retired>
    ghost var jobs: seq<Job<Ticket>>

    ghost predicate Valid()
      reads this, jobs
    {
      Linked(jobs, jobhead, jobtail) && (jp != null ==> jp !in jobs)
    }

    ghost function State(): Jobs
      reads this
    {
      Jobs(retired, if jp == null then None else Some(jp.entry), Entries(jobs))
    }

    constructor ()
      ensures Valid() && State() == Jobs([], None, []) && jobs == []
    {
      jobhead, jobtail, jp, retired, jobs := null, null, null, [], [];
    }

    method AddJob(req: Ticket)
      requires Valid()
      modifies this, jobs
      ensures Valid() && State() == Submitted(old(State()), req)
      ensures |jobs| == |old(jobs)| + 1 && old(jobs) < jobs && fresh(jobs[|old(jobs)|]) && jp == old(jp)
    {
      var job := new Job(req);
      job.prev := jobtail;
      if jobtail == null {
        jobhead := job;
      } else {
        jobtail.next := job;
      }
      jobtail := job;
      ghost var was := jobs;
      jobs := jobs + [job];
      forall i | 0 <= i < |jobs| ensures LinkedAt(jobs, i) {
        if i < |was| { assert old(LinkedAt(was, i)); }
      }
      assert Entries(jobs) == Entries(was) + [req];
    }

    method ReplaceJob(job: Job<Ticket>)
      requires Valid() && job !in jobs
      modifies this`jobhead, this`jobtail, this`jobs, job, jobs
      ensures Linked(jobs, jobhead, jobtail) && jobs == [job] + old(jobs)
    {
      job.prev := null;
      job.next := jobhead;
      if jobhead == null {
        jobtail := job;
      } else {
        jobhead.prev := job;
      }
      jobhead := job;
      ghost var was := jobs;
      jobs := [job] + jobs;
      forall i | 0 <= i < |jobs| ensures LinkedAt(jobs, i) {
        if i > 0 { assert old(LinkedAt(was, i - 1)); }
      }
    }

    method RemoveJob(target: Job<Ticket>, ghost k: nat)
      requires Valid() && k < |jobs| && jobs[k] == target
      modifies this`jobhead, this`jobtail, this`jobs, jobs
      ensures Linked(jobs, jobhead, jobtail) && jobs == Without(old(jobs), k)
    {
      assert LinkedAt(jobs, k);
      if target.next != null {
        target.next.prev := target.prev;
      } else {
        jobtail := target.prev;
      }
      if target.prev != null {
        target.prev.next := target.next;
      } else {
        jobhead := target.next;
      }
      ghost var was := jobs;
      jobs := Without(jobs, k);
      forall i | 0 <= i < |jobs| ensures LinkedAt(jobs, i) {
        assert old(LinkedAt(was, if i < k then i else i + 1));
      }
    }

    /** The printer thread takes the first job, or finds none and has to wait. */
    method TakeJob() returns (taken: bool)
      requires Valid() && jp == null
      modifies this, jobs
      ensures Valid() && (taken <==> |old(jobs)| > 0)
      ensures State() == if taken then Taken(old(State())) else old(State())
    {
      if jobhead == null {
        return false;
      }
      var first := jobhead;
      ghost var was := Entries(jobs);
      RemoveJob(first, 0);
      jp := first;
      assert Entries(jobs) == was[1..];
      return true;
    }

    /** The printer thread is through with its job: it is retired, or goes back to the head. */
    method SettleJob(a: Attempt)
      requires Valid() && jp != null
      modifies this, jp, jobs
      ensures Valid() && State() == Settled(old(State()), EndOf(a, old(jp.entry)))
      ensures jp == null
      ensures !a.opens || !a.hasStatus ==>
        retired == old(retired) + [Retired(old(jp.entry), Cancelled)] && Entries(jobs) == old(Entries(jobs))
      ensures a.opens && a.hasStatus && a.connects && a.headersSent
              && (old(jp.entry).plainText ==> a.textMarkSent) && a.fileSent && a.fileRead && a.accepted ==>
        retired == old(retired) + [Retired(old(jp.entry), Printed)] && Entries(jobs) == old(Entries(jobs))
      ensures a.opens && a.hasStatus
              && (|| !a.connects || !a.headersSent || (old(jp.entry).plainText && !a.textMarkSent)
                  || !a.fileSent || !a.fileRead || !a.accepted) ==>
        retired == old(retired) && Entries(jobs) == [old(jp.entry)] + old(Entries(jobs))
    {
      var job := jp;
      jp := null;
      if !a.opens {
        retired := retired + [Retired(job.entry, Cancelled)];
        return;
      }
      if !a.hasStatus {
        retired := retired + [Retired(job.entry, Cancelled)];
        return;
      }
      var deferred := true;
      if a.connects && a.headersSent {
        if !job.entry.plainText || a.textMarkSent {
          if a.fileSent && a.fileRead {
            if a.accepted {
              retired := retired + [Retired(job.entry, Printed)];
              deferred := false;
            }
          }
        }
      }
      if deferred {
        ghost var was := Entries(jobs);
        ReplaceJob(job);
        assert Entries(jobs) == [job.entry] + was;
      }
    }
  }
}
