/** Every run of any number of threads, in both versions of the reference-counted hash table. */
module FooRuns {
  import opened Options
  import opened FooTable
  import opened FooSystem
  import opened FooProtocol
  import opened FooQuietSteps
  import opened FooLockSteps
  import opened FooHeapMoves
  import opened FooSteps
  import opened FooWrites
  import opened FooObjects
  import opened FooCuts

  // ---------- one step ----------

  predicate Waits(pc: Pc) {
    HashLockPc(pc) || ObjLockPc(pc)
  }

  /** No step of any thread touches freed memory, follows a null pointer, unlocks a mutex the thread
      does not have, or destroys one that another thread has or awaits; only a lock can make a thread
      wait. */
  lemma StepGood(s: Sys, t: nat, ptr: nat)
    requires Inv(s) && Shaped(s) && t in s.threads && ptr !in s.objs
    ensures !Step(s, t, ptr).Fault?
    ensures !Waits(s.threads[t].pc) ==> Step(s, t, ptr).Next?
    ensures Step(s, t, ptr).Next? ==> GoodStep(s, Step(s, t, ptr).s, t)
  {
    hide Inv, GoodStep, Step;
    var pc := s.threads[t].pc;
    if LockPc(pc) {
      LockKeeps(s, t, ptr);
    } else if AllocPc(pc) {
      AllocGood(s, t, ptr);
    } else if Cutting(pc) || pc == Destroy || pc == Free {
      CutGood(s, t, ptr);
    } else {
      CountGood(s, t, ptr);
    }
  }

  lemma AllocGood(s: Sys, t: nat, ptr: nat)
    requires Inv(s) && Shaped(s) && t in s.threads && ptr !in s.objs
    requires AllocPc(s.threads[t].pc) && !LockPc(s.threads[t].pc)
    ensures Step(s, t, ptr).Next? && GoodStep(s, Step(s, t, ptr).s, t)
  {
    hide Inv, GoodStep, Step;
    if s.threads[t].pc == AllocLink { LinkKeeps(s, t, ptr); }
    else if s.threads[t].pc == AllocHead { HeadKeeps(s, t, ptr); }
    else if ptr == 0 { FailKeeps(s, t); }
    else { FreshKeeps(s, t, ptr); }
  }

  lemma CutGood(s: Sys, t: nat, ptr: nat)
    requires Inv(s) && Shaped(s) && t in s.threads
    requires var pc := s.threads[t].pc; Cutting(pc) || pc == Destroy || pc == Free
    ensures Step(s, t, ptr).Next? && GoodStep(s, Step(s, t, ptr).s, t)
  {
    hide Inv, GoodStep, Step;
    if s.threads[t].pc == CutWrite { CutWriteKeeps(s, t, ptr); }
    else if s.threads[t].pc == Destroy { DestroyKeeps(s, t, ptr); }
    else if s.threads[t].pc == Free { FreeKeeps(s, t, ptr); }
    else { SeekKeeps(s, t, ptr); }
  }

  lemma CountGood(s: Sys, t: nat, ptr: nat)
    requires Inv(s) && Shaped(s) && t in s.threads
    requires var pc := s.threads[t].pc;
      !LockPc(pc) && !AllocPc(pc) && !Cutting(pc) && pc != Destroy && pc != Free
    ensures Step(s, t, ptr).Next? && GoodStep(s, Step(s, t, ptr).s, t)
  {
    hide Inv, GoodStep, Step;
    match s.threads[t].pc {
      case FindHead => FindKeeps(s, t, ptr);
      case FindNext => FindKeeps(s, t, ptr);
      case FindTest => if s.threads[t].fp == 0 { MissKeeps(s, t, ptr); } else { FindKeeps(s, t, ptr); }
      case HoldRead => HoldReadKeeps(s, t, ptr);
      case HoldWrite => HoldWriteKeeps(s, t, ptr);
      case DecWrite => if s.threads[t].val == 1 { EmptiedKeeps(s, t, ptr); } else { DecKeeps(s, t, ptr); }
      case _ => LookKeeps(s, t, ptr);
    }
  }

  lemma GoodStepKeeps(s: Sys, s': Sys, q: nat)
    requires Inv(s) && GoodStep(s, s', q)
    ensures Inv(s')
  {
    hide Ready, Heap, HashLock, ObjLocks, History;
    forall p | p in s'.threads ensures Shaped(s') && Ready(s', p, s'.threads[p]) {
      if p != q { ReadyKept(s, s', q, p); }
    }
  }

  // ---------- starting a call, giving a reference away ----------

  lemma EntryLocks(d: Design, x: Local)
    requires x.pc == Entry(d, x.op)
    ensures !HoldsHash(d, x) && !HoldsObj(d, x)
  {
  }

  lemma BeginLocks(s: Sys, t: nat, op: Op)
    requires HashLock(s) && ObjLocks(s) && t !in s.threads
    ensures HashLock(Begin(s, t, op)) && ObjLocks(Begin(s, t, op))
  {
    hide HoldsHash, HoldsObj, Entry;
    var s' := Begin(s, t, op);
    EntryLocks(s.design, s'.threads[t]);
    forall o, p | o in s'.objs && p in s'.threads ensures LockOf(s', o, p) {
      assert p != t ==> LockOf(s, o, p);
    }
  }

  lemma BeginHeap(s: Sys, t: nat, op: Op)
    requires Heap(s) && HashLock(s) && t !in s.threads
    ensures Heap(Begin(s, t, op))
  {
    hide HashOf;
    var s' := Begin(s, t, op);
    forall h | 0 <= h < NHASH ensures ChainHeld(s', h) {
      HeapAt(s, h);
    }
    forall o | o in s'.objs ensures ObjHeld(s', o) {
      HeapObj(s, o);
    }
  }

  lemma BeginReady(s: Sys, t: nat, op: Op)
    requires Heap(s) && Shaped(s) && MayStart(s, t, op)
    ensures Ready(s, t, Begin(s, t, op).threads[t])
  {
    hide ChainHeld, ObjHeld, HashOf;
  }

  lemma BeginInv(s: Sys, t: nat, op: Op)
    requires Inv(s) && MayStart(s, t, op)
    ensures Inv(Begin(s, t, op))
  {
    hide Ready, Heap, HashLock, ObjLocks;
    var s' := Begin(s, t, op);
    Parts(s);
    BeginLocks(s, t, op);
    BeginHeap(s, t, op);
    BeginReady(s, t, op);
    SameHistory(s, s');
    forall p | p in s'.threads ensures Shaped(s') && Ready(s', p, s'.threads[p]) {
      ReadyIgnoresThreads(s, s', p, s'.threads[p]);
    }
  }

  lemma GivenHeap(s: Sys, t: nat, o: nat, u: nat)
    requires Heap(s) && MayGive(s, t, o)
    ensures Heap(Given(s, t, o, u))
  {
    hide HashOf;
    var s' := Given(s, t, o, u);
    forall h | 0 <= h < NHASH ensures ChainHeld(s', h) {
      HeapAt(s, h);
    }
    forall p | p in s'.objs ensures ObjHeld(s', p) {
      HeapObj(s, p);
      SameZeroed(s, s', p);
    }
  }

  lemma GivenCount(s: Sys, t: nat, o: nat, u: nat, r: nat)
    requires Shaped(s) && MayGive(s, t, o) && r in s.objs && r in s.tbl.refs
    ensures CountKept(s, Given(s, t, o, u), r)
  {
  }

  lemma GivenOwns(s: Sys, t: nat, o: nat, u: nat, r: nat, p: nat)
    requires Shaped(s) && MayGive(s, t, o) && p != t && Owns(s, p, r)
    ensures Owns(Given(s, t, o, u), p, r)
  {
  }

  lemma GivenFrame(s: Sys, t: nat, o: nat, u: nat)
    requires Heap(s) && HashLock(s) && MayGive(s, t, o)
    ensures Frame(s, Given(s, t, o, u), t)
  {
    hide HashOf, ChainHeld, ObjHeld, Guards, CountKept;
    var s' := Given(s, t, o, u);
    forall r, p | p != t && Owns(s, p, r) ensures Owns(s', p, r) && s'.objs[r].id == s.objs[r].id {
      GivenOwns(s, t, o, u, r, p);
    }
    forall r | r in s.objs && r in s.tbl.refs ensures CountKept(s, s', r) {
      GivenCount(s, t, o, u, r);
    }
    forall r | r in s.objs && r in s.hand && s.hand[r] != t ensures SameObj(s, s', r) {
    }
  }

  lemma GivenInv(s: Sys, t: nat, o: nat, u: nat)
    requires Inv(s) && MayGive(s, t, o)
    ensures Inv(Given(s, t, o, u))
  {
    hide Ready, Heap, HashLock, ObjLocks, History;
    var s' := Given(s, t, o, u);
    Parts(s);
    GivenHeap(s, t, o, u);
    GivenFrame(s, t, o, u);
    GivenLocks(s, t, o, u);
    GivenApplies(s, t, o, u);
    HistoryStep(s, s', Event(t, Give(o, u), 0));
    forall p | p in s'.threads ensures Shaped(s') && Ready(s', p, s'.threads[p]) {
      ReadyKept(s, s', t, p);
    }
  }

  lemma GivenApplies(s: Sys, t: nat, o: nat, u: nat)
    requires Heap(s) && MayGive(s, t, o)
    ensures Apply(s.tbl, Event(t, Give(o, u), 0)) == Some(Given(s, t, o, u).tbl)
  {
    hide HashOf, ChainHeld, ObjHeld;
  }

  lemma GivenLocks(s: Sys, t: nat, o: nat, u: nat)
    requires HashLock(s) && ObjLocks(s) && MayGive(s, t, o)
    ensures HashLock(Given(s, t, o, u)) && ObjLocks(Given(s, t, o, u))
  {
    hide HoldsHash, HoldsObj;
    var s' := Given(s, t, o, u);
    forall r, p | r in s'.objs && p in s'.threads ensures LockOf(s', r, p) {
      assert LockOf(s, r, p);
    }
  }

  // ---------- runs ----------

  /** What happens next. `ptr` is what malloc would return: 0, or memory that is not in use. */
  datatype Move = Start(t: nat, op: Op) | Pass(t: nat, o: nat, to: nat) | Run(t: nat, ptr: nat)

  predicate Moves(s: Sys, m: Move, s': Sys) {
    && Shaped(s)
    && match m
       case Start(t, op) => MayStart(s, t, op) && s' == Begin(s, t, op)
       case Pass(t, o, to) => MayGive(s, t, o) && s' == Given(s, t, o, to)
       case Run(t, ptr) => t in s.threads && ptr !in s.objs && Step(s, t, ptr) == Outcome.Next(s')
  }

  ghost predicate IsRun(d: Design, states: seq<Sys>, moves: seq<Move>) {
    && |states| == |moves| + 1 && states[0] == Initial(d)
    && forall i :: 0 <= i < |moves| ==> Moves(states[i], moves[i], states[i + 1])
  }

  lemma InitialInv(d: Design)
    ensures Inv(Initial(d))
  {
  }

  lemma MovesKeep(s: Sys, m: Move, s': Sys)
    requires Inv(s) && Moves(s, m, s')
    ensures Inv(s')
  {
    hide Inv, Step, GoodStep, Begin, MayStart, MayGive;
    match m
    case Start(t, op) => BeginInv(s, t, op);
    case Pass(t, o, to) => GivenInv(s, t, o, to);
    case Run(t, ptr) =>
      StepGood(s, t, ptr);
      GoodStepKeeps(s, s', t);
  }

  /** Every state of every run of both versions satisfies the invariant. */
  lemma {:induction false} RunKeeps(d: Design, states: seq<Sys>, moves: seq<Move>, i: nat)
    requires IsRun(d, states, moves) && i < |states|
    ensures Inv(states[i])
  {
    hide Inv, Moves;
    if i == 0 {
      InitialInv(d);
    } else {
      RunKeeps(d, states, moves, i - 1);
      assert Moves(states[i - 1], moves[i - 1], states[i]);
      MovesKeep(states[i - 1], moves[i - 1], states[i]);
    }
  }

  // ---------- counts, chains and references ----------

  /** The first `n` objects reached by following pointers from `ptr`. */
  function Trail(s: Sys, ptr: nat, n: nat): seq<nat>
    decreases n
  {
    if n == 0 || ptr == 0 || ptr !in s.objs then [] else [ptr] + Trail(s, s.objs[ptr].next, n - 1)
  }

  lemma {:induction false} TrailFrom(s: Sys, h: nat, k: nat, n: nat)
    requires Heap(s) && Shaped(s) && h < NHASH && k <= |s.tbl.chains[h]| <= k + n
    ensures Trail(s, Node(s.tbl.chains[h], k), n) == s.tbl.chains[h][k..]
    decreases n
  {
    hide Heap;
    if k < |s.tbl.chains[h]| {
      OnChain(s, h, k);
      TrailFrom(s, h, k + 1, n - 1);
      assert s.tbl.chains[h][k..] == [s.tbl.chains[h][k]] + s.tbl.chains[h][k + 1..];
    }
  }

  /** At every moment the pointers from a table entry lead through exactly the published objects with
      that hash value, each once. */
  lemma ChainsHoldThePublished(s: Sys, h: nat, n: nat)
    requires Inv(s) && Shaped(s) && h < NHASH && |s.tbl.chains[h]| <= n
    ensures Trail(s, s.heads[h], n) == s.tbl.chains[h]
    ensures forall o :: o in s.tbl.refs && o in s.objs && HashOf(s.objs[o].id) == h <==> o in s.tbl.chains[h]
  {
    hide Ready, HashLock, ObjLocks, History, HashOf, Zeroed;
    Parts(s);
    ChainIds(s, h);
    TrailFrom(s, h, 0, n);
    forall o ensures o in s.tbl.refs && o in s.objs && HashOf(s.objs[o].id) == h <==> o in s.tbl.chains[h] {
      if o in s.tbl.refs { HeapPublished(s, o); }
      if o in s.tbl.chains[h] {
        var k :| 0 <= k < |s.tbl.chains[h]| && s.tbl.chains[h][k] == o;
        OnChain(s, h, k);
      }
    }
  }

  /** The count of a published object is the number of references threads hold to it; in the version
      with one lock it is less only while a release that found the last one unlinks the object. */
  lemma CountsAreReferences(s: Sys, o: nat)
    requires Inv(s) && o in s.tbl.refs
    ensures o in s.objs && |s.tbl.refs[o]| > 0
    ensures s.objs[o].count != |s.tbl.refs[o]| ==>
      && s.design.OneLock? && s.hashlock.Some? && s.hashlock.value in s.threads
      && s.threads[s.hashlock.value].op == Rele(o) && s.objs[o].count == 0
      && s.tbl.refs[o] == multiset{s.hashlock.value}
  {
    hide Ready, HashLock, ObjLocks, History, HashOf;
    Parts(s);
    HeapPublished(s, o);
    if Zeroed(s, o) {
      var t := s.hashlock.value;
      ReadyOf(s, t);
      CuttingThere(s, t, s.threads[t]);
      assert s.tbl.refs[o] == multiset{t} + (s.tbl.refs[o] - multiset{t});
    }
  }

  // ---------- both versions implement the table ----------

  /** The call has taken effect, or the object is being taken apart after it did. */
  predicate DonePc(pc: Pc) {
    || pc == AllocLockObj || pc == AllocUnlock || pc == AllocUnlockObj || pc == FindUnlock || pc == HoldUnlockObj
    || pc == HoldUnlock || pc == DecUnlockObj || pc == DecUnlock || pc == CutUnlock || pc == CutUnlockObj
    || pc == Destroy || pc == Free
  }

  predicate StepLogs(s: Sys, t: nat, s': Sys)
    requires t in s.threads
  {
    var holds :=
      var done := DonePc(s.threads[t].pc);
      && (s'.threads == s.threads - {t} || (t in s'.threads && s'.threads == s.threads[t := s'.threads[t]]))
      && if s'.log == s.log then (if t in s'.threads then DonePc(s'.threads[t].pc) == done else done)
         else !done && (t in s'.threads ==> DonePc(s'.threads[t].pc))
              && |s'.log| == |s.log| + 1 && s'.log[..|s.log|] == s.log && s'.log[|s.log|].t == t;
    holds
  }

  lemma AllocLogs(s: Sys, t: nat, x: Local, ptr: nat)
    requires Shaped(s) && t in s.threads && x == s.threads[t] && AllocStep(s, t, x, ptr).Next?
    ensures StepLogs(s, t, AllocStep(s, t, x, ptr).s)
  {
    hide HashOf, Apply;
    match x.pc {
      case AllocNew => case AllocLock => case AllocLink => case AllocHead => case AllocLockObj =>
      case AllocUnlock => case AllocUnlockObj => case _ =>
    }
  }

  lemma FindLogs(s: Sys, t: nat, x: Local)
    requires Shaped(s) && t in s.threads && x == s.threads[t] && FindStep(s, t, x).Next?
    ensures StepLogs(s, t, FindStep(s, t, x).s)
  {
    hide HashOf, Apply;
    match x.pc {
      case FindLock => case FindHead => case FindTest => case FindNext => case FindUnlock => case _ =>
    }
  }

  lemma HoldLogs(s: Sys, t: nat, x: Local)
    requires Shaped(s) && t in s.threads && x == s.threads[t] && HoldStep(s, t, x).Next?
    ensures StepLogs(s, t, HoldStep(s, t, x).s)
  {
    hide Apply;
    match x.pc {
      case HoldLockObj => case HoldLock => case HoldRead => case HoldWrite => case HoldUnlockObj =>
      case HoldUnlock => case _ =>
    }
  }

  predicate CountPc(pc: Pc) {
    pc == DecRead || pc == DecWrite || pc == DecUnlockObj || pc == DecUnlock
  }

  lemma CountLogs(s: Sys, t: nat, x: Local)
    requires Shaped(s) && t in s.threads && x == s.threads[t] && CountPc(x.pc) && ReleStep(s, t, x).Next?
    ensures StepLogs(s, t, ReleStep(s, t, x).s)
  {
    hide Apply;
    match x.pc {
      case DecRead => case DecWrite => case DecUnlockObj => case DecUnlock => case _ =>
    }
  }

  lemma ReleLogs(s: Sys, t: nat, x: Local)
    requires Shaped(s) && t in s.threads && x == s.threads[t] && !CountPc(x.pc) && ReleStep(s, t, x).Next?
    ensures StepLogs(s, t, ReleStep(s, t, x).s)
  {
    hide Apply;
    match x.pc {
      case ReleLockObj => case ReleRead => case ReleDrop => case ReleLock => case ReleRelock =>
      case ReleRecheck => case _ =>
    }
  }

  lemma CutLogs(s: Sys, t: nat, x: Local)
    requires Shaped(s) && t in s.threads && x == s.threads[t] && CutStep(s, t, x).Next?
    ensures StepLogs(s, t, CutStep(s, t, x).s)
  {
    hide HashOf, Apply, Awaited;
    match x.pc {
      case CutHead => case CutScan => case CutNext => case CutWrite => case CutUnlock => case CutUnlockObj =>
      case Destroy => case Free => case _ =>
    }
  }

  lemma NextLogs(s: Sys, t: nat, ptr: nat)
    requires Shaped(s) && t in s.threads && Step(s, t, ptr).Next?
    ensures StepLogs(s, t, Step(s, t, ptr).s)
  {
    hide StepLogs, AllocStep, FindStep, HoldStep, ReleStep, CutStep;
    var x := s.threads[t];
    if AllocPc(x.pc) { AllocLogs(s, t, x, ptr); }
    else if FindPc(x.pc) { FindLogs(s, t, x); }
    else if HoldPc(x.pc) { HoldLogs(s, t, x); }
    else if CutPc(x.pc) { CutLogs(s, t, x); }
    else if CountPc(x.pc) { CountLogs(s, t, x); }
    else { ReleLogs(s, t, x); }
  }

  /** The calls and gifts of thread `t` among the first moves of a run. */
  function Begun(moves: seq<Move>, t: nat): nat {
    if moves == [] then 0 else
    var m := moves[|moves| - 1];
    Begun(moves[..|moves| - 1], t) + if !m.Run? && m.t == t then 1 else 0
  }

  function EventsOf(log: seq<Event>, t: nat): nat {
    if log == [] then 0 else EventsOf(log[..|log| - 1], t) + if log[|log| - 1].t == t then 1 else 0
  }

  /** Calls of `t` that have not taken effect yet. */
  function Pending(s: Sys, t: nat): nat {
    if t in s.threads && !DonePc(s.threads[t].pc) then 1 else 0
  }

  /** Each call takes effect exactly once: of the calls a thread began, all but the one in progress
      that is still to take effect are in the log, once. */
  lemma {:induction false} EffectsOnce(d: Design, states: seq<Sys>, moves: seq<Move>, i: nat, t: nat)
    requires IsRun(d, states, moves) && i < |states|
    ensures EventsOf(states[i].log, t) + Pending(states[i], t) == Begun(moves[..i], t)
  {
    hide Moves;
    if i > 0 {
      EffectsOnce(d, states, moves, i - 1, t);
      assert Moves(states[i - 1], moves[i - 1], states[i]);
      assert moves[..i][..i - 1] == moves[..i - 1];
      EffectsStep(states[i - 1], moves[i - 1], states[i], t);
    } else {
      assert moves[..0] == [];
    }
  }

  lemma EffectsStep(s: Sys, m: Move, s': Sys, t: nat)
    requires Moves(s, m, s')
    ensures EventsOf(s'.log, t) + Pending(s', t)
         == EventsOf(s.log, t) + Pending(s, t) + if !m.Run? && m.t == t then 1 else 0
  {
    hide Step, Holding;
    match m {
      case Start(u, op) =>
      case Pass(u, o, to) => assert s'.log[..|s.log|] == s.log;
      case Run(u, ptr) => NextLogs(s, u, ptr);
    }
  }

  lemma DoneCut(s: Sys, t: nat, x: Local)
    requires Shaped(s) && CutPc(x.pc) && ReadyCut(s, t, x) && DonePc(x.pc)
    ensures Logged(s, t, x)
  {
    hide HashOf, Mine, LastRelease, Logged, CutAt, ScanAt;
  }

  lemma DoneRele(s: Sys, t: nat, x: Local)
    requires Shaped(s) && ReadyRele(s, t, x) && (x.pc == DecUnlockObj || x.pc == DecUnlock)
    ensures Logged(s, t, x)
  {
    hide Owns, Kept, Logged;
  }

  lemma ReadyDone(s: Sys, t: nat, x: Local)
    requires Shaped(s) && Ready(s, t, x) && DonePc(x.pc)
    ensures Logged(s, t, x)
  {
    hide ReadyCut, ReadyRele, Reached, Mine, Owns, Kept, Logged, HashOf, Searched;
    if CutPc(x.pc) { DoneCut(s, t, x); }
    else if x.pc == DecUnlockObj || x.pc == DecUnlock { DoneRele(s, t, x); }
  }

  /** Both versions implement the table: the log of a run is a sequence of calls the table allows,
      with the results it gives, and a call past its effect is in the log with the result it
      returns. */
  lemma ImplementsTable(d: Design, states: seq<Sys>, moves: seq<Move>, i: nat)
    requires IsRun(d, states, moves) && i < |states|
    ensures Replay(states[i].log) == Some(states[i].tbl)
    ensures forall t :: t in states[i].threads && DonePc(states[i].threads[t].pc) ==>
      Logged(states[i], t, states[i].threads[t])
  {
    hide Heap, HashLock, ObjLocks, Ready, Moves, Logged;
    RunKeeps(d, states, moves, i);
    forall t | t in states[i].threads && DonePc(states[i].threads[t].pc)
      ensures Logged(states[i], t, states[i].threads[t])
    {
      ReadyOf(states[i], t);
      ReadyDone(states[i], t, states[i].threads[t]);
    }
  }

  // ---------- no deadlock ----------

  predicate CanStep(s: Sys, t: nat, ptr: nat)
    requires Shaped(s)
  {
    t in s.threads && Step(s, t, ptr).Next?
  }

  /** A thread that has an object's lock never waits. */
  lemma HolderRuns(s: Sys, u: nat, ptr: nat)
    requires Inv(s) && Shaped(s) && u in s.threads && HoldsObj(s.design, s.threads[u]) && ptr !in s.objs
    ensures CanStep(s, u, ptr)
  {
    hide Inv, Step;
    StepGood(s, u, ptr);
  }

  lemma TableHolder(s: Sys, u: nat)
    requires Inv(s) && u in s.threads && s.hashlock == Some(u)
    ensures !HashLockPc(s.threads[u].pc)
  {
    hide Heap, Ready, ObjLocks, History;
    assert HoldsHash(s.design, s.threads[u]);
  }

  /** While a thread waits for the lock of an object, that thread or the holder can go on. */
  lemma ObjWaiter(s: Sys, u: nat, ptr: nat)
    requires Inv(s) && Shaped(s) && u in s.threads && ObjLockPc(s.threads[u].pc) && ptr !in s.objs
    ensures exists t :: CanStep(s, t, ptr)
  {
    hide Heap, Ready, HashLock, History, HoldsObj, HoldsHash, Step;
    LockKeeps(s, u, ptr);
    var o := s.threads[u].fp;
    if s.objs[o].lock == None {
      assert CanStep(s, u, ptr);
    } else {
      var w := s.objs[o].lock.value;
      assert LockOf(s, o, w);
      HolderRuns(s, w, ptr);
    }
  }

  /** While any thread is in a call, some thread can take a step: the order, the table lock before
      the lock of an object, admits no deadlock. */
  lemma NoDeadlock(s: Sys, ptr: nat)
    requires Inv(s) && Shaped(s) && s.threads != map[] && ptr !in s.objs
    ensures exists t :: CanStep(s, t, ptr)
  {
    hide Inv, Step;
    var t :| t in s.threads;
    var pc := s.threads[t].pc;
    if !Waits(pc) {
      StepGood(s, t, ptr);
      assert CanStep(s, t, ptr);
    } else if ObjLockPc(pc) {
      ObjWaiter(s, t, ptr);
    } else {
      LockKeeps(s, t, ptr);
      if s.hashlock == None {
        assert CanStep(s, t, ptr);
      } else {
        HashHolderIn(s);
        var u := s.hashlock.value;
        TableHolder(s, u);
        if ObjLockPc(s.threads[u].pc) {
          ObjWaiter(s, u, ptr);
        } else {
          StepGood(s, u, ptr);
          assert CanStep(s, u, ptr);
        }
      }
    }
  }

  lemma HashHolderIn(s: Sys)
    requires Inv(s)
    ensures s.hashlock.Some? ==> s.hashlock.value in s.threads
  {
  }
}
