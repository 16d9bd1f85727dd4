/** What the value of a semaphore is: what its creator set it to, the amounts of all operations that went
    through since, and what the kernel gave back for processes that exited. */
module SemaphValues {
  import opened Options
  import opened Semaph

  /** Kept beside a run: the value the live set was last given, the sum of the amounts that went through
      since, what exits gave back, and the sum of the amounts of each process. */
  datatype Ledger = Ledger(initial: Option<nat>, ops: int, given: int, mine: map<nat, int>)

  const Empty: Ledger := Ledger(None, 0, 0, map[])

  function Total(l: Ledger): int {
    (if l.initial.Some? then l.initial.value else 0) + l.ops + l.given
  }

  function Mine(l: Ledger, p: nat): int {
    if p in l.mine then l.mine[p] else 0
  }

  /** A process is gone: its own amounts are taken back, but the value is never taken below zero. */
  function Exited(l: Ledger, p: nat): Ledger {
    var back := if Total(l) - Mine(l, p) >= 0 then -Mine(l, p) else -Total(l);
    l.(given := l.given + back, mine := l.mine - {p})
  }

  /** The ledger after a move from `s` to `s'`. An operation went through if its process is still there. */
  function Booked(l: Ledger, s: Sys, m: Move, s': Sys): Ledger {
    match m
    case Appear(_) => l
    case Start(_, _) => l
    case Crash(p) => Exited(l, p)
    case Run(p) =>
      if p !in s.procs then l
      else if p !in s'.procs then Exited(l, p)
      else if s.live.Some? != s'.live.Some? then Empty
      else
        var x := s.procs[p];
        if x.pc == SetValue && x.call.Create? then Ledger(Some(x.call.initval), 0, 0, map[])
        else if x.pc == Change && x.call.Op? then
          l.(ops := l.ops + x.call.amount, mine := l.mine[p := Mine(l, p) + x.call.amount])
        else l
  }

  function LedgerOf(states: seq<Sys>, moves: seq<Move>, i: nat): Ledger
    requires i <= |moves| && |states| == |moves| + 1
  {
    if i == 0 then Empty
    else Booked(LedgerOf(states, moves, i - 1), states[i - 1], moves[i - 1], states[i])
  }

  /** The value is what the ledger adds up to, and what the kernel will give back for a process is what the
      process took. */
  ghost predicate Agrees(l: Ledger, s: Sys) {
    && (s.live.Some? ==> s.live.value.value == Total(l) >= 0)
    && (s.live.None? ==> l == Empty)
    && (forall p :: p in s.procs ==> s.procs[p].undo0 == -Mine(l, p))
    && (forall p :: p in l.mine ==> p in s.procs)
  }

  // ---------- the steps ----------

  lemma DieBooks(l: Ledger, s: Sys, p: nat)
    requires Agrees(l, s) && p in s.procs
    ensures Agrees(Exited(l, p), Die(s, p))
  {
    if s.live.None? {
      assert Exited(Empty, p).mine == map[];
      assert Exited(Empty, p) == Empty;
    }
  }

  lemma CreateBooks(l: Ledger, s: Sys, p: nat)
    requires Agrees(l, s) && p in s.procs && CreatePc(s.procs[p].pc) && Step(s, p).Next?
    ensures Agrees(Booked(l, s, Run(p), Step(s, p).s), Step(s, p).s)
  {
  }

  lemma OpenBooks(l: Ledger, s: Sys, p: nat)
    requires Agrees(l, s) && p in s.procs && (s.procs[p].pc == GetOpen || s.procs[p].pc == Join) && Step(s, p).Next?
    ensures Agrees(Booked(l, s, Run(p), Step(s, p).s), Step(s, p).s)
  {
    hide Die;
    DieBooks(l, s, p);
    Gone(s, p);
  }

  lemma Gone(s: Sys, p: nat)
    requires p in s.procs
    ensures p !in Die(s, p).procs
  {
  }

  lemma CloseBooks(l: Ledger, s: Sys, p: nat)
    requires Agrees(l, s) && p in s.procs && ClosePc(s.procs[p].pc) && Step(s, p).Next?
    ensures Agrees(Booked(l, s, Run(p), Step(s, p).s), Step(s, p).s)
  {
    hide Die;
    DieBooks(l, s, p);
    Gone(s, p);
  }

  lemma OpBooks(l: Ledger, s: Sys, p: nat)
    requires Agrees(l, s) && p in s.procs && s.procs[p].pc == Change && Step(s, p).Next?
    ensures Agrees(Booked(l, s, Run(p), Step(s, p).s), Step(s, p).s)
  {
    hide Die;
    DieBooks(l, s, p);
    Gone(s, p);
  }

  lemma MoveBooks(l: Ledger, s: Sys, m: Move, s': Sys)
    requires Agrees(l, s) && Moves(s, m, s')
    ensures Agrees(Booked(l, s, m, s'), s')
  {
    match m
    case Appear(p) =>
    case Start(p, call) =>
    case Crash(p) => DieBooks(l, s, p);
    case Run(p) =>
      hide Step, Booked, Agrees;
      var pc := s.procs[p].pc;
      if CreatePc(pc) { CreateBooks(l, s, p); }
      else if ClosePc(pc) { CloseBooks(l, s, p); }
      else if pc == Change { OpBooks(l, s, p); }
      else { OpenBooks(l, s, p); }
  }

  /** Over every run: the value of the live set is what it was set to, plus the amounts of the operations that
      went through since, plus what exits gave back, and it is never negative; and what the kernel holds for
      each process is what that process took. */
  lemma {:induction false} ValueAddsUp(states: seq<Sys>, moves: seq<Move>, i: nat)
    requires IsRun(states, moves) && i < |states|
    ensures Agrees(LedgerOf(states, moves, i), states[i])
  {
    hide Agrees, Moves, Booked;
    if i == 0 {
      StartsEmpty();
    } else {
      ValueAddsUp(states, moves, i - 1);
      assert Moves(states[i - 1], moves[i - 1], states[i]);
      MoveBooks(LedgerOf(states, moves, i - 1), states[i - 1], moves[i - 1], states[i]);
    }
  }

  lemma StartsEmpty()
    ensures Agrees(Empty, Initial())
  {
  }

  // ---------- the value of an initialised set ----------

  /** Past the step that sets the value, or with the set initialised, the ledger starts from a creator's value. */
  ghost predicate Given(l: Ledger, s: Sys) {
    && (s.live.Some? && s.live.value.ready ==> l.initial.Some?)
    && (forall p :: p in s.procs && s.procs[p].pc == SetCount ==> l.initial.Some?)
  }

  lemma MoveGives(l: Ledger, s: Sys, m: Move, s': Sys)
    requires Inv(s) && Given(l, s) && Moves(s, m, s') && (m.Run? ==> !SeesFull(s, m.p))
    ensures Given(Booked(l, s, m, s'), s')
  {
    hide Inv, Given, Step, Booked, SeesFull;
    match m
    case Appear(p) => StillGives(l, s, m, s');
    case Start(p, call) => StillGives(l, s, m, s');
    case Crash(p) => StillGives(l, s, m, s');
    case Run(p) => RunGives(l, s, p, s');
  }

  lemma StillGives(l: Ledger, s: Sys, m: Move, s': Sys)
    requires Given(l, s) && Moves(s, m, s') && !m.Run?
    ensures Given(Booked(l, s, m, s'), s')
  {
    hide Step;
  }

  /** While there is no set, or another process is in its critical section, no process sets its counter. */
  lemma NobodySets(s: Sys, p: nat)
    requires Inv(s) && p in s.procs
    ensures s.live.None? || Critical(s.procs[p].pc) ==>
      forall q :: q in s.procs && s.procs[q].pc == SetCount ==> q == p && s.live.Some?
  {
    hide CountHolds, UndoHolds, Ready;
    forall q | q in s.procs && s.procs[q].pc == SetCount && (s.live.None? || Critical(s.procs[p].pc))
      ensures q == p && s.live.Some?
    {
      SectionHasSet(s, q);
      if q != p { OnlyOne(s, q); }
    }
  }

  lemma CreateGives(l: Ledger, s: Sys, p: nat)
    requires Given(l, s) && p in s.procs && CreatePc(s.procs[p].pc) && Step(s, p).Next?
    requires s.live.None? || Critical(s.procs[p].pc) ==>
      forall q :: q in s.procs && s.procs[q].pc == SetCount ==> q == p && s.live.Some?
    ensures Given(Booked(l, s, Run(p), Step(s, p).s), Step(s, p).s)
  {
    match s.procs[p].pc {
      case GetCreate => case Lock => case ReadCount => case SetValue => case SetCount => case EndCreate => case _ =>
    }
  }

  lemma CloseGives(l: Ledger, s: Sys, p: nat)
    requires Given(l, s) && p in s.procs && ClosePc(s.procs[p].pc) && Step(s, p).Next?
    requires s.live.None? || Critical(s.procs[p].pc) ==>
      forall q :: q in s.procs && s.procs[q].pc == SetCount ==> q == p && s.live.Some?
    ensures Given(Booked(l, s, Run(p), Step(s, p).s), Step(s, p).s)
  {
  }

  lemma OtherGives(l: Ledger, s: Sys, p: nat)
    requires Given(l, s) && p in s.procs && !CreatePc(s.procs[p].pc) && !ClosePc(s.procs[p].pc)
    requires s.procs[p].pc != Idle && Step(s, p).Next?
    ensures Given(Booked(l, s, Run(p), Step(s, p).s), Step(s, p).s)
  {
  }

  lemma RunGives(l: Ledger, s: Sys, p: nat, s': Sys)
    requires Inv(s) && Given(l, s) && p in s.procs && s.procs[p].pc != Idle && Step(s, p) == Next(s')
    ensures Given(Booked(l, s, Run(p), s'), s')
  {
    hide Inv, Given, Step, Booked;
    NobodySets(s, p);
    if CreatePc(s.procs[p].pc) { CreateGives(l, s, p); }
    else if ClosePc(s.procs[p].pc) { CloseGives(l, s, p); }
    else { OtherGives(l, s, p); }
  }

  /** The value of an initialised set starts from the value its creator asked for. */
  lemma {:induction false} StartsAsCreated(states: seq<Sys>, moves: seq<Move>, i: nat)
    requires IsRun(states, moves) && NeverFull(states, moves) && i < |states|
    ensures Given(LedgerOf(states, moves, i), states[i])
  {
    hide Given, Inv, Moves, Booked, SeesFull;
    if i == 0 {
      NothingGiven();
    } else {
      StartsAsCreated(states, moves, i - 1);
      RunKeeps(states, moves, i - 1);
      assert Moves(states[i - 1], moves[i - 1], states[i]);
      RunsIn(states[i - 1], moves[i - 1], states[i]);
      MoveGives(LedgerOf(states, moves, i - 1), states[i - 1], moves[i - 1], states[i]);
    }
  }

  lemma NothingGiven()
    ensures Given(Empty, Initial())
  {
  }

  // ---------- waits and signals ----------

  /** Move `j` is an operation that went through. */
  predicate Through(states: seq<Sys>, moves: seq<Move>, j: nat)
    requires j < |moves| && |states| == |moves| + 1
  {
    && moves[j].Run? && moves[j].p in states[j].procs && moves[j].p in states[j + 1].procs
    && states[j].procs[moves[j].p].pc == Change && states[j].procs[moves[j].p].call.Op?
  }

  /** How many operations with this amount went through between two states. */
  function Count(states: seq<Sys>, moves: seq<Move>, k: nat, i: nat, amount: int): nat
    requires k <= i <= |moves| && |states| == |moves| + 1
    decreases i
  {
    if k == i then 0 else
    Count(states, moves, k, i - 1, amount)
    + if Through(states, moves, i - 1) && states[i - 1].procs[moves[i - 1].p].call.amount == amount then 1 else 0
  }

  /** Move `j` neither ends a process nor makes, sets or removes the set, and changes it only by one. */
  predicate Steady(states: seq<Sys>, moves: seq<Move>, j: nat)
    requires j < |moves| && |states| == |moves| + 1
  {
    && states[j].live.Some? && states[j + 1].live.Some?
    && (forall p :: p in states[j].procs ==> p in states[j + 1].procs)
    && (moves[j].Run? && moves[j].p in states[j].procs ==>
          var x := states[j].procs[moves[j].p];
          x.pc != SetValue && (x.pc == Change && x.call.Op? ==> x.call.amount == 1 || x.call.amount == -1))
  }

  lemma OneChange(states: seq<Sys>, moves: seq<Move>, j: nat)
    requires IsRun(states, moves) && j < |moves| && Steady(states, moves, j)
    ensures states[j + 1].live.value.value == states[j].live.value.value
      + (if Through(states, moves, j) then states[j].procs[moves[j].p].call.amount else 0)
  {
    ValueAddsUp(states, moves, j);
    ValueAddsUp(states, moves, j + 1);
    hide IsRun;
    assert LedgerOf(states, moves, j + 1) == Booked(LedgerOf(states, moves, j), states[j], moves[j], states[j + 1]);
    CrashEnds(states, moves, j);
  }

  lemma CrashEnds(states: seq<Sys>, moves: seq<Move>, j: nat)
    requires IsRun(states, moves) && j < |moves| && Steady(states, moves, j)
    ensures !moves[j].Crash?
  {
    assert Moves(states[j], moves[j], states[j + 1]);
  }

  /** While no process exits and the set stays, waits and signals are the only things that count: the value
      falls by one for each wait and rises by one for each signal. So never more waits went through than there
      were signals and the value to begin with: with a value of one, at most one more. */
  lemma {:induction false} WaitsAndSignals(states: seq<Sys>, moves: seq<Move>, k: nat, i: nat)
    requires IsRun(states, moves) && k <= i <= |moves| && states[k].live.Some?
    requires forall j :: k <= j < i ==> Steady(states, moves, j)
    ensures states[i].live.Some?
    ensures states[i].live.value.value
         == states[k].live.value.value + Count(states, moves, k, i, 1) - Count(states, moves, k, i, -1)
    ensures Count(states, moves, k, i, -1) <= states[k].live.value.value + Count(states, moves, k, i, 1)
    decreases i
  {
    hide IsRun, Steady, Through;
    RunSize(states, moves);
    NotNegative(states, moves, i);
    if k < i {
      WaitsAndSignals(states, moves, k, i - 1);
      assert Steady(states, moves, i - 1);
      OneChange(states, moves, i - 1);
      ByOne(states, moves, i - 1);
    }
  }

  lemma RunSize(states: seq<Sys>, moves: seq<Move>)
    requires IsRun(states, moves)
    ensures |states| == |moves| + 1
  {
  }

  lemma ByOne(states: seq<Sys>, moves: seq<Move>, j: nat)
    requires j < |moves| && |states| == |moves| + 1 && Steady(states, moves, j)
    ensures states[j + 1].live.Some?
    ensures Through(states, moves, j) ==>
      var amount := states[j].procs[moves[j].p].call.amount; amount == 1 || amount == -1
  {
  }

  lemma NotNegative(states: seq<Sys>, moves: seq<Move>, i: nat)
    requires IsRun(states, moves) && i < |states|
    ensures states[i].live.Some? ==> states[i].live.value.value >= 0
  {
    hide IsRun;
    ValueAddsUp(states, moves, i);
  }

  // ---------- who waits ----------

  lemma CreateWaits(s: Sys, p: nat)
    requires Inv(s) && p in s.procs && CreatePc(s.procs[p].pc) && !SeesFull(s, p)
    ensures var x := s.procs[p];
      Step(s, p) == Wait <==>
        && s.live.Some? && s.live.value.id == x.id
        && ((x.pc == Lock && s.live.value.lock == 1) || (x.pc == EndCreate && |s.shares| == 10000))
  {
    hide LockHolds;
    assert Ready(s, p);
    if s.live.Some? { LockMeansOne(s); }
    if Critical(s.procs[p].pc) { SectionHasSet(s, p); }
  }

  lemma CloseWaits(s: Sys, p: nat)
    requires Inv(s) && p in s.procs && ClosePc(s.procs[p].pc)
    ensures var x := s.procs[p];
      Step(s, p) == Wait <==>
        s.live.Some? && s.live.value.id == x.id && x.pc == CloseLock && s.live.value.lock == 1
  {
    hide LockHolds, CountHolds;
    assert Ready(s, p);
    if s.live.Some? { LockMeansOne(s); }
    if Critical(s.procs[p].pc) { SectionHasSet(s, p); }
  }

  lemma JoinWaits(s: Sys, p: nat)
    requires Inv(s) && p in s.procs && (s.procs[p].pc == GetOpen || s.procs[p].pc == Join || s.procs[p].pc == Change)
    ensures var x := s.procs[p];
      Step(s, p) == Wait <==>
        && s.live.Some? && s.live.value.id == x.id
        && (|| (x.pc == Join && (!s.live.value.ready || |s.shares| == 10000))
            || (x.pc == Change && x.call.amount != 0 && s.live.value.value + x.call.amount < 0))
  {
    hide LockHolds;
    assert Ready(s, p);
  }

  /** A process in a call blocks if and only if: it wants the lock and another process is in its critical
      section; or all opens are taken, or the set is not initialised, and it opens the set; or its operation
      would take the value below zero. */
  lemma WhoWaits(s: Sys, p: nat)
    requires Inv(s) && p in s.procs && s.procs[p].pc != Idle && !SeesFull(s, p)
    ensures var x := s.procs[p];
      Step(s, p) == Wait <==>
        && s.live.Some? && s.live.value.id == x.id
        && (|| ((x.pc == Lock || x.pc == CloseLock) && exists q :: InSection(s, q))
            || (x.pc == Join && (!s.live.value.ready || |s.shares| == 10000))
            || (x.pc == EndCreate && |s.shares| == 10000)
            || (x.pc == Change && x.call.amount != 0 && s.live.value.value + x.call.amount < 0))
  {
    hide Inv, Step;
    OpOnly(s, p);
    if s.live.Some? { LockMeansOne(s); }
    if CreatePc(s.procs[p].pc) { CreateWaits(s, p); }
    else if ClosePc(s.procs[p].pc) { CloseWaits(s, p); }
    else { JoinWaits(s, p); }
  }

  lemma OpOnly(s: Sys, p: nat)
    requires Inv(s) && p in s.procs
    ensures s.procs[p].pc == Change ==> s.procs[p].call.Op?
  {
    hide LockHolds, CountHolds;
    assert Ready(s, p);
  }

  /** A close removes the set if and only if nobody has it open any more. */
  lemma LastCloses(s: Sys, p: nat)
    requires Inv(s) && p in s.procs && s.procs[p].pc == CloseRead
    ensures Step(s, p).Next? && p in Step(s, p).s.procs
    ensures Step(s, p).s.procs[p].pc == Remove <==> s.shares == multiset{}
  {
    hide LockHolds;
    assert Ready(s, p);
    SectionHasSet(s, p);
  }
}
