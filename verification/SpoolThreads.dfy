/** The spooler as a program of many threads: any number of clients that queue a job each, and the
    printer thread, around one mutex and one condition variable. Work on the list under the mutex is
    one step; locking, unlocking, waiting and signalling are steps of their own. */
module SpoolThreads {
  import opened Options
  import opened Spool

  /** A client is about to lock, has locked, has queued its job, or has unlocked and not yet signalled. */
  datatype ClientPc = Locking | Linking | Unlocking | Signalling

  datatype Client = Client(pc: ClientPc, job: Ticket)

  /** `Waking` is a wait that has been signalled and has to lock again; `Deferring` a job that goes
      back to the list. */
  datatype PrinterPc =
    | TakeLock | Checking | Asleep | Waking | TakeUnlock | Printing | DeferLock | Deferring | DeferUnlock

  datatype Holder = ByPrinter | ByClient(id: nat)

  /** An attempt to print a job. */
  datatype Try = Try(job: Ticket, attempt: Attempt)

  /** `linked` is the jobs in the order they were queued, `tried` the attempts: history. */
  datatype Sys = Sys(jobs: Jobs, lock: Option<Holder>, clients: map<nat, Client>, printer: PrinterPc,
                     linked: seq<Ticket>, tried: seq<Try>)

  /** `Spurious` is a wait that ends without a signal, which POSIX allows. */
  datatype Event = Arrive(id: nat, job: Ticket) | ClientStep(id: nat) | PrinterStep(attempt: Attempt) | Spurious

  const START: Sys := Sys(Jobs([], None, []), None, map[], TakeLock, [], [])

  // ---------- steps ----------

  function ClientGoes(s: Sys, id: nat, c: Client): Option<Sys> {
    match c.pc
    case Locking =>
      if s.lock.Some? then None
      else Some(s.(lock := Some(ByClient(id)), clients := s.clients[id := c.(pc := Linking)]))
    case Linking =>
      Some(s.(jobs := Submitted(s.jobs, c.job), linked := s.linked + [c.job],
              clients := s.clients[id := c.(pc := Unlocking)]))
    case Unlocking => Some(s.(lock := None, clients := s.clients[id := c.(pc := Signalling)]))
    case Signalling =>
      Some(s.(printer := if s.printer == Asleep then Waking else s.printer, clients := s.clients - {id}))
  }

  function PrinterLocks(s: Sys, pc: PrinterPc): Option<Sys> {
    if s.lock.Some? then None else Some(s.(lock := Some(ByPrinter), printer := pc))
  }

  function PrinterGoes(s: Sys, a: Attempt): Option<Sys> {
    match s.printer
    case TakeLock => PrinterLocks(s, Checking)
    case Checking =>
      if s.jobs.atPrinter.Some? then None
      else if s.jobs.queued == [] then Some(s.(printer := Asleep, lock := None))
      else Some(s.(jobs := Taken(s.jobs), printer := TakeUnlock))
    case Asleep => None
    case Waking => PrinterLocks(s, Checking)
    case TakeUnlock => Some(s.(lock := None, printer := Printing))
    case Printing =>
      if s.jobs.atPrinter == None then None
      else
        var job := s.jobs.atPrinter.value;
        var tried := s.tried + [Try(job, a)];
        if EndOf(a, job) == None then Some(s.(tried := tried, printer := DeferLock))
        else Some(s.(tried := tried, jobs := Settled(s.jobs, EndOf(a, job)), printer := TakeLock))
    case DeferLock => PrinterLocks(s, Deferring)
    case Deferring =>
      if s.jobs.atPrinter == None then None
      else Some(s.(jobs := Settled(s.jobs, None), printer := DeferUnlock))
    case DeferUnlock => Some(s.(lock := None, printer := TakeLock))
  }

  function Step(s: Sys, e: Event): Option<Sys> {
    match e
    case Arrive(id, job) => if id in s.clients then None else Some(s.(clients := s.clients[id := Client(Locking, job)]))
    case ClientStep(id) => if id in s.clients then ClientGoes(s, id, s.clients[id]) else None
    case PrinterStep(a) => PrinterGoes(s, a)
    case Spurious => if s.printer == Asleep then Some(s.(printer := Waking)) else None
  }

  function Run(s: Sys, events: seq<Event>): Option<Sys>
    decreases |events|
  {
    if events == [] then Some(s)
    else
      var r := Step(s, events[0]);
      if r.Some? then Run(r.value, events[1..]) else None
  }

  // ---------- what every step keeps ----------

  predicate ClientLocks(pc: ClientPc) {
    pc == Linking || pc == Unlocking
  }

  predicate PrinterHolds(pc: PrinterPc) {
    pc in {Checking, TakeUnlock, Deferring, DeferUnlock}
  }

  predicate HasJob(pc: PrinterPc) {
    pc in {TakeUnlock, Printing, DeferLock, Deferring}
  }

  /** The mutex is held by the one thread that is between its lock and its unlock. */
  predicate LockIsRight(s: Sys) {
    && (s.lock == Some(ByPrinter) <==> PrinterHolds(s.printer))
    && (forall id :: id in s.clients ==> (s.lock == Some(ByClient(id)) <==> ClientLocks(s.clients[id].pc)))
    && (s.lock.Some? && s.lock.value.ByClient? ==> s.lock.value.id in s.clients)
  }

  /** A client that will signal. */
  predicate WillSignal(s: Sys, id: nat) {
    id in s.clients && (s.clients[id].pc == Unlocking || s.clients[id].pc == Signalling)
  }

  /** The printer thread does not sleep on a queued job unless it is about to be woken. */
  predicate NoLostWakeup(s: Sys) {
    s.printer == Asleep && s.jobs.queued != [] ==> exists id :: id in s.clients && WillSignal(s, id)
  }

  predicate Inv(s: Sys) {
    && LockIsRight(s) && NoLostWakeup(s)
    && (s.jobs.atPrinter.Some? <==> HasJob(s.printer))
    && All(s.jobs) == s.linked
  }

  lemma ClientKeeps(s: Sys, id: nat)
    requires Inv(s) && id in s.clients && Step(s, ClientStep(id)).Some?
    ensures Inv(Step(s, ClientStep(id)).value)
  {
    hide All;
    SubmitConserves(s.jobs, s.clients[id].job);
    var s' := Step(s, ClientStep(id)).value;
    if s'.printer == Asleep && s'.jobs.queued != [] {
      if s.clients[id].pc == Locking {
        var u :| u in s.clients && WillSignal(s, u);
        assert WillSignal(s', u);
      } else {
        assert WillSignal(s', id);
      }
    }
  }

  lemma PrinterKeeps(s: Sys, a: Attempt)
    requires Inv(s) && Step(s, PrinterStep(a)).Some?
    ensures Inv(Step(s, PrinterStep(a)).value)
  {
    hide All;
    if s.jobs.queued != [] && s.jobs.atPrinter == None {
      TakeConserves(s.jobs);
    }
    if s.jobs.atPrinter.Some? {
      SettleConserves(s.jobs, None);
      SettleConserves(s.jobs, EndOf(a, s.jobs.atPrinter.value));
    }
  }

  lemma StepKeeps(s: Sys, e: Event)
    requires Inv(s) && Step(s, e).Some?
    ensures Inv(Step(s, e).value)
  {
    hide All;
    match e
    case ClientStep(id) => ClientKeeps(s, id);
    case PrinterStep(a) => PrinterKeeps(s, a);
    case Arrive(id, job) =>
      var s' := Step(s, e).value;
      if s.printer == Asleep && s.jobs.queued != [] {
        var u :| u in s.clients && WillSignal(s, u);
        assert WillSignal(s', u);
      }
    case Spurious =>
  }

  lemma StartIsGood()
    ensures Inv(START)
  {
    assert All(START.jobs) == [];
  }

  lemma {:induction false} RunKeeps(s: Sys, events: seq<Event>)
    requires Inv(s) && Run(s, events).Some?
    ensures Inv(Run(s, events).value)
    decreases |events|
  {
    hide Step, Inv;
    if events != [] {
      StepKeeps(s, events[0]);
      RunKeeps(Step(s, events[0]).value, events[1..]);
    }
  }

  /** In every run, the jobs that have left, then the one at the printer, then the list are the jobs in
      the order they were queued, whatever was printed, cancelled or put back meanwhile. */
  lemma JobsStayInOrder(events: seq<Event>)
    requires Run(START, events).Some?
    ensures var s := Run(START, events).value;
            Tickets(s.jobs.retired) + AtPrinter(s.jobs) + s.jobs.queued == s.linked
  {
    hide Run;
    RunKeeps(START, events);
  }

  // ---------- why a job left ----------

  /** `at` is the attempts that retired a job, one for each, in order. */
  predicate Ends(retired: seq<Retired>, tried: seq<Try>, at: seq<nat>) {
    && |at| == |retired| && (forall i, j :: 0 <= i < j < |at| ==> at[i] < at[j])
    && forall i :: 0 <= i < |at| ==> EndedBy(retired[i], tried, at[i])
  }

  predicate EndedBy(r: Retired, tried: seq<Try>, k: nat) {
    k < |tried| && r.job == tried[k].job && EndOf(tried[k].attempt, tried[k].job) == Some(r.end)
  }

  /** Every other attempt ended nothing, and the next one is for the same job. */
  predicate Retries(tried: seq<Try>, at: seq<nat>) {
    && (forall k :: 0 <= k < |tried| && k !in at ==> EndOf(tried[k].attempt, tried[k].job) == None)
    && forall k :: 0 <= k < |tried| - 1 && k !in at ==> tried[k + 1].job == tried[k].job
  }

  /** A job whose last attempt ended nothing. */
  predicate Pending(tried: seq<Try>, at: seq<nat>) {
    tried != [] && |tried| - 1 !in at
  }

  predicate IsNext(jobs: Jobs, job: Ticket) {
    if jobs.atPrinter.Some? then jobs.atPrinter.value == job else jobs.queued != [] && jobs.queued[0] == job
  }

  predicate Earned(s: Sys, at: seq<nat>) {
    && Ends(s.jobs.retired, s.tried, at) && Retries(s.tried, at)
    && (Pending(s.tried, at) ==> IsNext(s.jobs, s.tried[|s.tried| - 1].job))
  }

  lemma OneMoreEnds(retired: seq<Retired>, tried: seq<Try>, at: seq<nat>, t: Try, e: End)
    requires Ends(retired, tried, at) && EndOf(t.attempt, t.job) == Some(e)
    ensures Ends(retired + [Retired(t.job, e)], tried + [t], at + [|tried|])
  {
    hide EndOf;
    var all, at' := retired + [Retired(t.job, e)], at + [|tried|];
    forall i | 0 <= i < |at'| ensures EndedBy(all[i], tried + [t], at'[i]) {
      if i < |at| { assert EndedBy(retired[i], tried, at[i]); }
    }
    forall i, j | 0 <= i < j < |at'| ensures at'[i] < at'[j] {
      assert EndedBy(retired[i], tried, at[i]);
    }
  }

  lemma OneMoreTry(retired: seq<Retired>, tried: seq<Try>, at: seq<nat>, t: Try)
    requires Ends(retired, tried, at)
    ensures Ends(retired, tried + [t], at)
  {
    hide EndOf;
    forall i | 0 <= i < |at| ensures EndedBy(retired[i], tried + [t], at[i]) {
      assert EndedBy(retired[i], tried, at[i]);
    }
  }

  lemma TryRetries(tried: seq<Try>, at: seq<nat>, t: Try, at': seq<nat>)
    requires Retries(tried, at) && (Pending(tried, at) ==> tried[|tried| - 1].job == t.job)
    requires at' == if EndOf(t.attempt, t.job) == None then at else at + [|tried|]
    ensures Retries(tried + [t], at')
  {
    hide EndOf;
    forall k | 0 <= k < |tried| + 1 && k !in at'
      ensures EndOf((tried + [t])[k].attempt, (tried + [t])[k].job) == None
      ensures k < |tried| ==> (tried + [t])[k + 1].job == (tried + [t])[k].job
    {
      if k < |tried| { assert k !in at; }
    }
  }

  lemma PrintingEarns(s: Sys, a: Attempt, at: seq<nat>) returns (at': seq<nat>)
    requires Inv(s) && s.printer == Printing && Earned(s, at) && Step(s, PrinterStep(a)).Some?
    ensures Earned(Step(s, PrinterStep(a)).value, at')
  {
    hide LockIsRight, NoLostWakeup, All, EndOf, Ends, Retries;
    var t := Try(s.jobs.atPrinter.value, a);
    at' := if EndOf(a, t.job) == None then at else at + [|s.tried|];
    TryRetries(s.tried, at, t, at');
    if EndOf(a, t.job) == None {
      OneMoreTry(s.jobs.retired, s.tried, at, t);
    } else {
      OneMoreEnds(s.jobs.retired, s.tried, at, t, EndOf(a, t.job).value);
    }
  }

  lemma StepEarns(s: Sys, e: Event, at: seq<nat>) returns (at': seq<nat>)
    requires Inv(s) && Earned(s, at) && Step(s, e).Some?
    ensures Earned(Step(s, e).value, at')
  {
    hide LockIsRight, NoLostWakeup, EndOf, All, Ends, Retries, Pending;
    if e.PrinterStep? && s.printer == Printing {
      at' := PrintingEarns(s, e.attempt, at);
    } else {
      at' := at;
    }
  }

  lemma {:induction false} RunEarns(s: Sys, events: seq<Event>, at: seq<nat>) returns (at': seq<nat>)
    requires Inv(s) && Earned(s, at) && Run(s, events).Some?
    ensures Earned(Run(s, events).value, at')
    decreases |events|
  {
    hide Step, Inv, Earned;
    at' := at;
    if events != [] {
      StepKeeps(s, events[0]);
      at' := StepEarns(s, events[0], at);
      at' := RunEarns(Step(s, events[0]).value, events[1..], at');
    }
  }

  /** In every run each job that left was retired by one attempt: as cancelled by one that found its file
      gone or without a status, as printed by one that the printer accepted after every send before it.
      Any other attempt loses nothing: the next attempt is for the same job, which until then is at the
      printer or first in the list. */
  lemma OnlyEarnedEnds(events: seq<Event>) returns (at: seq<nat>)
    requires Run(START, events).Some?
    ensures var s := Run(START, events).value;
            && |at| == |s.jobs.retired| && (forall i, j :: 0 <= i < j < |at| ==> at[i] < at[j])
            && (forall i :: 0 <= i < |at| ==> at[i] < |s.tried| && s.tried[at[i]].job == s.jobs.retired[i].job)
    ensures var s := Run(START, events).value;
            forall i :: 0 <= i < |at| ==>
              var a := s.tried[at[i]].attempt;
              if s.jobs.retired[i].end == Cancelled then !a.opens || !a.hasStatus
              else
                && a.opens && a.hasStatus && a.connects && a.headersSent
                && (s.jobs.retired[i].job.plainText ==> a.textMarkSent) && a.fileSent && a.fileRead && a.accepted
    ensures var s := Run(START, events).value;
            forall k :: 0 <= k < |s.tried| && k !in at ==>
              var a := s.tried[k].attempt;
              && a.opens && a.hasStatus
              && (|| !a.connects || !a.headersSent || (s.tried[k].job.plainText && !a.textMarkSent)
                  || !a.fileSent || !a.fileRead || !a.accepted)
    ensures var s := Run(START, events).value;
            && (forall k :: 0 <= k < |s.tried| - 1 && k !in at ==> s.tried[k + 1].job == s.tried[k].job)
            && (s.tried != [] && |s.tried| - 1 !in at ==>
                  var job := s.tried[|s.tried| - 1].job;
                  if s.jobs.atPrinter.Some? then s.jobs.atPrinter == Some(job) else [job] <= s.jobs.queued)
  {
    hide Run;
    StartIsGood();
    at := RunEarns(START, events, []);
    var s := Run(START, events).value;
    forall i | 0 <= i < |at| ensures EndedBy(s.jobs.retired[i], s.tried, at[i]) {}
  }

  /** An attempt is made where the printer thread works on its job outside the lock, and nowhere else. */
  lemma TriedOf(s: Sys, e: Event)
    requires Step(s, e).Some?
    ensures Step(s, e).value.tried ==
            if e.PrinterStep? && s.printer == Printing && s.jobs.atPrinter.Some?
            then s.tried + [Try(s.jobs.atPrinter.value, e.attempt)] else s.tried
  {
  }

  lemma LinkedOf(s: Sys, e: Event)
    requires Step(s, e).Some?
    ensures Step(s, e).value.linked ==
            if e.ClientStep? && s.clients[e.id].pc == Linking then s.linked + [s.clients[e.id].job] else s.linked
  {
  }

  /** One thread at a time works on the list. */
  lemma OneAtATime(events: seq<Event>, id: nat, other: nat)
    requires Run(START, events).Some?
    ensures var s := Run(START, events).value;
            && (id in s.clients && ClientLocks(s.clients[id].pc) ==> !PrinterHolds(s.printer))
            && (id in s.clients && other in s.clients && ClientLocks(s.clients[id].pc) && ClientLocks(s.clients[other].pc) ==>
                  id == other)
  {
    hide Run;
    RunKeeps(START, events);
  }

  /** A thread that can go on, other than by a new client or a spurious wakeup. */
  predicate CanGo(s: Sys, e: Event) {
    (e.ClientStep? || e.PrinterStep?) && Step(s, e).Some?
  }

  predicate AllWait(s: Sys) {
    s.printer == Asleep && s.clients == map[] && s.jobs.queued == []
  }

  lemma SomeoneGoes(s: Sys)
    requires Inv(s) && !AllWait(s)
    ensures exists e :: CanGo(s, e)
  {
    hide All;
    if s.lock.Some? && s.lock.value.ByClient? {
      assert CanGo(s, ClientStep(s.lock.value.id));
    } else if s.printer != Asleep {
      assert CanGo(s, PrinterStep(Attempt(false, false, false, false, false, false, false, false)));
    } else {
      var id :| id in s.clients;
      assert CanGo(s, ClientStep(id));
    }
  }

  /** No signal is lost and nothing deadlocks: when no thread can go on, every job that was ever queued
      has been printed or cancelled, in order, and the printer thread waits for the next. */
  lemma StuckMeansDone(events: seq<Event>)
    requires Run(START, events).Some? && forall e :: !CanGo(Run(START, events).value, e)
    ensures var s := Run(START, events).value;
            s.printer == Asleep && s.clients == map[] && Tickets(s.jobs.retired) == s.linked
  {
    hide Run, All, CanGo, LockIsRight, NoLostWakeup;
    StartIsGood();
    RunKeeps(START, events);
    var s := Run(START, events).value;
    if !AllWait(s) { SomeoneGoes(s); }
    NothingLeft(s);
  }

  lemma NothingLeft(s: Sys)
    requires All(s.jobs) == s.linked && s.jobs.atPrinter == None && s.jobs.queued == []
    ensures Tickets(s.jobs.retired) == s.linked
  {
  }
}
