/** The steps that read and move on. */
module FooSteps {
  import opened Options
  import opened FooTable
  import opened FooSystem
  import opened FooProtocol
  import opened FooQuietSteps
  import opened FooLockSteps
  import opened FooHeapMoves

  predicate MovesTo(s: Sys, q: nat, ptr: nat, y: Local)
    requires Shaped(s) && q in s.threads
  {
    var holds :=
      Step(s, q, ptr) == Outcome.Next(Put(s, q, y));
    holds
  }

  /** A step on the same object under the same locks. */
  predicate Follows(d: Design, x: Local, y: Local) {
    var holds :=
      && y.op == x.op && y.fp == x.fp && y.both == x.both
      && (|| (x.pc == HoldRead && y.pc == HoldWrite)
          || (x.pc == ReleRead && y.pc == ReleDrop && d.DropAndRecheck? && !x.both)
          || (x.pc == ReleRead && y.pc == DecRead && d.DropAndRecheck? && !x.both)
          || (x.pc == ReleRecheck && y.pc == DecRead && d.DropAndRecheck? && x.both)
          || (x.pc == ReleRecheck && y.pc == CutHead && d.DropAndRecheck? && x.both)
          || (x.pc == DecRead && y.pc == DecWrite)
          || (Cutting(x.pc) && Cutting(y.pc)));
    holds
  }

  lemma FollowsSteady(s: Sys, q: nat, y: Local)
    requires q in s.threads && Follows(s.design, s.threads[q], y)
    ensures SameLocks(s.design, s.threads[q], y) && Steady(s, Put(s, q, y), q)
  {
  }

  lemma MoveKeeps(s: Sys, q: nat, ptr: nat, y: Local)
    requires Inv(s) && Shaped(s) && q in s.threads && MovesTo(s, q, ptr, y)
    requires Follows(s.design, s.threads[q], y) && Ready(s, q, y)
    ensures Step(s, q, ptr).Next? && GoodStep(s, Step(s, q, ptr).s, q)
  {
    hide Inv, Ready, SameLocks, GoodStep, Step, Steady, Follows;
    FollowsSteady(s, q, y);
    PutKeeps(s, q, y);
  }

  // ---------- counting up ----------

  lemma ReachedThere(s: Sys, q: nat, x: Local)
    requires Shaped(s) && Ready(s, q, x) && (x.pc == HoldRead || x.pc == HoldWrite)
    ensures ReadyHold(s, q, x) && Reached(s, q, x) && x.fp in s.objs && x.fp in s.tbl.refs && (x.op.Find? || x.op.Hold?)
    ensures x.pc == HoldWrite ==> x.val == s.objs[x.fp].count
  {
    hide HashOf, Searched;
  }

  lemma HoldReadReady(s: Sys, q: nat, x: Local)
    requires Shaped(s) && ReadyHold(s, q, x) && x.pc == HoldRead && x.fp in s.objs
    ensures Ready(s, q, x.(val := s.objs[x.fp].count, pc := HoldWrite))
  {
    hide HashOf, Searched, Owns;
  }

  lemma HoldReadShape(s: Sys, q: nat, ptr: nat)
    requires Shaped(s) && q in s.threads && s.threads[q].pc == HoldRead && s.threads[q].fp in s.objs
    ensures MovesTo(s, q, ptr, s.threads[q].(val := s.objs[s.threads[q].fp].count, pc := HoldWrite))
  {
  }

  lemma HoldReadKeeps(s: Sys, q: nat, ptr: nat)
    requires Inv(s) && Shaped(s) && q in s.threads && s.threads[q].pc == HoldRead
    ensures Step(s, q, ptr).Next? && GoodStep(s, Step(s, q, ptr).s, q)
  {
    hide Inv, GoodStep, Ready, ReadyHold, Reached, Step;
    var x := s.threads[q];
    ReadyOf(s, q);
    ReachedThere(s, q, x);
    HoldReadReady(s, q, x);
    HoldReadShape(s, q, ptr);
    MoveKeeps(s, q, ptr, x.(val := s.objs[x.fp].count, pc := HoldWrite));
  }

  // ---------- counting down ----------

  lemma ReleasingThere(s: Sys, q: nat, x: Local)
    requires Shaped(s) && Ready(s, q, x)
    requires x.pc == ReleRead || x.pc == ReleRecheck || x.pc == DecRead || x.pc == DecWrite
    ensures Releasing(s, q, x) && Programmed(s.design, x) && x.fp in s.objs && x.fp in s.tbl.refs && q in s.tbl.refs[x.fp]
    ensures x.op == Rele(x.fp)
    ensures x.pc == ReleRead ==> s.design.DropAndRecheck? && !x.both
    ensures x.pc == ReleRecheck ==> s.design.DropAndRecheck? && x.both
    ensures x.pc == DecRead || x.pc == DecWrite ==>
      (s.design.DropAndRecheck? ==> s.objs[x.fp].count != 1) && (s.design.OneLock? ==> !x.both)
    ensures x.pc == DecWrite ==> x.val == s.objs[x.fp].count
  {
    hide HashOf;
  }

  lemma CountIsReferences(s: Sys, o: nat)
    requires Heap(s) && o in s.tbl.refs && !Zeroed(s, o)
    ensures o in s.objs && s.objs[o].count == |s.tbl.refs[o]| && |s.tbl.refs[o]| > 0
  {
    hide HashOf;
    HeapPublished(s, o);
  }

  /** The registers after a release looked at the count. */
  function Looked(x: Local, count: int): Local
    requires x.pc == ReleRead || x.pc == ReleRecheck || x.pc == DecRead
  {
    if x.pc == ReleRead then x.(pc := if count == 1 then ReleDrop else DecRead)
    else if x.pc == ReleRecheck then x.(pc := if count != 1 then DecRead else CutHead)
    else x.(val := count, pc := DecWrite)
  }

  lemma LookShape(s: Sys, q: nat, ptr: nat)
    requires Shaped(s) && q in s.threads && s.threads[q].fp in s.objs
    requires var pc := s.threads[q].pc; pc == ReleRead || pc == ReleRecheck || pc == DecRead
    ensures MovesTo(s, q, ptr, Looked(s.threads[q], s.objs[s.threads[q].fp].count))
  {
  }

  lemma LookReady(s: Sys, q: nat, x: Local)
    requires Shaped(s) && Releasing(s, q, x) && (x.pc == ReleRead || x.pc == ReleRecheck || x.pc == DecRead)
    requires x.pc == ReleRead ==> s.design.DropAndRecheck? && !x.both
    requires x.pc == ReleRecheck ==> s.design.DropAndRecheck? && x.both && s.objs[x.fp].count == |s.tbl.refs[x.fp]|
    requires x.pc == DecRead ==> (s.design.DropAndRecheck? ==> s.objs[x.fp].count != 1) && (s.design.OneLock? ==> !x.both)
    ensures Ready(s, q, Looked(x, s.objs[x.fp].count))
  {
    hide HashOf;
  }

  lemma LookKeeps(s: Sys, q: nat, ptr: nat)
    requires Inv(s) && Shaped(s) && q in s.threads
    requires var pc := s.threads[q].pc; pc == ReleRead || pc == ReleRecheck || pc == DecRead
    ensures Step(s, q, ptr).Next? && GoodStep(s, Step(s, q, ptr).s, q)
  {
    hide Inv, GoodStep, Ready, Releasing, Step, Heap, Programmed;
    var x := s.threads[q];
    Parts(s);
    ReadyOf(s, q);
    ReleasingThere(s, q, x);
    if x.pc == ReleRecheck { CountIsReferences(s, x.fp); }
    LookReady(s, q, x);
    LookShape(s, q, ptr);
    MoveKeeps(s, q, ptr, Looked(x, s.objs[x.fp].count));
  }

  // ---------- looking for the pointer to change ----------

  lemma CuttingThere(s: Sys, q: nat, x: Local)
    requires Shaped(s) && Ready(s, q, x) && Cutting(x.pc)
    ensures LastRelease(s, q, x) && x.fp in s.objs && x.fp in s.tbl.refs && ReadyCut(s, q, x)
  {
    hide HashOf;
  }

  lemma LastMoves(s: Sys, q: nat, x: Local, y: Local)
    requires LastRelease(s, q, x) && y.done == x.done && y.op == x.op && y.fp == x.fp
    ensures LastRelease(s, q, y)
  {
  }

  /** The registers after one step along the chain towards the object. */
  function Sought(s: Sys, x: Local): Local
    requires Shaped(s) && x.fp in s.objs && (x.pc == CutScan ==> x.prev in s.objs)
  {
    var h := HashOf(s.objs[x.fp].id);
    if x.pc == CutHead then
      if s.heads[h] == x.fp then x.(prev := 0, k := 0, pc := CutNext) else x.(prev := s.heads[h], k := 0, pc := CutScan)
    else if x.pc == CutScan then
      if s.objs[x.prev].next == x.fp then x.(k := x.k + 1, pc := CutNext)
      else x.(prev := s.objs[x.prev].next, k := x.k + 1, pc := CutScan)
    else x.(nxt := s.objs[x.fp].next, pc := CutWrite)
  }

  lemma SeekShape(s: Sys, q: nat, ptr: nat)
    requires Shaped(s) && q in s.threads && s.threads[q].fp in s.objs
    requires Cutting(s.threads[q].pc) && s.threads[q].pc != CutWrite
    requires s.threads[q].pc == CutScan ==> s.threads[q].prev in s.objs
    ensures MovesTo(s, q, ptr, Sought(s, s.threads[q]))
  {
    hide HashOf;
  }

  lemma HeadFound(s: Sys, x: Local)
    requires Heap(s) && Shaped(s) && x.fp in s.objs && x.fp in s.tbl.refs && x.pc == CutHead
    ensures var y := Sought(s, x);
      if y.pc == CutNext then CutAt(s, y) else y.pc == CutScan && ScanAt(s, y)
  {
    hide Heap, HashOf;
    var h := HashOf(s.objs[x.fp].id);
    HeapPublished(s, x.fp);
    HeapAt(s, h);
    var chain := s.tbl.chains[h];
    var j :| 0 <= j < |chain| && chain[j] == x.fp;
  }

  lemma ScanOn(s: Sys, x: Local)
    requires Heap(s) && Shaped(s) && x.pc == CutScan && ScanAt(s, x)
    ensures x.prev in s.objs
    ensures var y := Sought(s, x);
      if y.pc == CutNext then CutAt(s, y) else y.pc == CutScan && ScanAt(s, y)
  {
    hide Heap, HashOf;
    HeapAt(s, HashOf(s.objs[x.fp].id));
    var chain := s.tbl.chains[HashOf(s.objs[x.fp].id)];
    var j :| x.k < j < |chain| && chain[j] == x.fp;
    assert s.objs[x.prev].next == chain[x.k + 1];
  }

  lemma SoughtRegisters(s: Sys, x: Local)
    requires Shaped(s) && x.fp in s.objs && (x.pc == CutScan ==> x.prev in s.objs)
    ensures var y := Sought(s, x); y.done == x.done && y.op == x.op && y.fp == x.fp
  {
    hide HashOf;
  }

  lemma CutHeadReady(s: Sys, q: nat, x: Local)
    requires Heap(s) && Shaped(s) && ReadyCut(s, q, x) && x.pc == CutHead && x.fp in s.objs && x.fp in s.tbl.refs
    ensures Ready(s, q, Sought(s, x))
  {
    hide Heap, LastRelease, CutAt, ScanAt, Sought;
    HeadFound(s, x);
    SoughtRegisters(s, x);
    LastMoves(s, q, x, Sought(s, x));
  }

  lemma CutScanReady(s: Sys, q: nat, x: Local)
    requires Heap(s) && Shaped(s) && ReadyCut(s, q, x) && x.pc == CutScan && x.fp in s.objs
    ensures x.prev in s.objs && Ready(s, q, Sought(s, x))
  {
    hide Heap, LastRelease, CutAt, ScanAt, Sought;
    ScanOn(s, x);
    SoughtRegisters(s, x);
    LastMoves(s, q, x, Sought(s, x));
  }

  lemma CutNextReady(s: Sys, q: nat, x: Local)
    requires Shaped(s) && ReadyCut(s, q, x) && x.pc == CutNext && x.fp in s.objs
    ensures Ready(s, q, Sought(s, x))
  {
    hide HashOf, LastRelease;
    LastMoves(s, q, x, Sought(s, x));
  }

  lemma SeekKeeps(s: Sys, q: nat, ptr: nat)
    requires Inv(s) && Shaped(s) && q in s.threads && Cutting(s.threads[q].pc) && s.threads[q].pc != CutWrite
    ensures Step(s, q, ptr).Next? && GoodStep(s, Step(s, q, ptr).s, q)
  {
    hide Inv, GoodStep, Heap, LastRelease, ReadyCut, Ready, Step, HashOf;
    var x := s.threads[q];
    Parts(s);
    ReadyOf(s, q);
    CuttingThere(s, q, x);
    if x.pc == CutHead { CutHeadReady(s, q, x); }
    else if x.pc == CutScan { CutScanReady(s, q, x); }
    else { CutNextReady(s, q, x); }
    SeekShape(s, q, ptr);
    MoveKeeps(s, q, ptr, Sought(s, x));
  }

  // ---------- the search ----------

  function Walked(s: Sys, x: Local): Local
    requires Shaped(s) && x.op.Find? && (x.pc != FindHead ==> x.fp in s.objs)
  {
    if x.pc == FindHead then x.(fp := s.heads[HashOf(x.op.id)], k := 0, pc := FindTest)
    else if x.pc == FindNext then x.(fp := s.objs[x.fp].next, k := x.k + 1, pc := FindTest)
    else x.(pc := if s.objs[x.fp].id != x.op.id then FindNext else if s.design.OneLock? then HoldRead else HoldLockObj)
  }

  predicate FindWalks(x: Local) {
    x.pc == FindHead || x.pc == FindNext || (x.pc == FindTest && x.fp != 0)
  }

  lemma FindShape(s: Sys, q: nat, ptr: nat)
    requires Shaped(s) && q in s.threads && FindWalks(s.threads[q]) && s.threads[q].op.Find?
    requires s.threads[q].pc != FindHead ==> s.threads[q].fp in s.objs
    ensures MovesTo(s, q, ptr, Walked(s, s.threads[q]))
  {
    hide HashOf;
  }

  lemma FindReady(s: Sys, q: nat, x: Local)
    requires Heap(s) && Shaped(s) && Ready(s, q, x) && FindWalks(x)
    ensures x.op.Find? && (x.pc != FindHead ==> x.fp in s.objs) && Ready(s, q, Walked(s, x))
  {
    hide Heap, HashOf, ReadyHold, Searched;
    assert ReadyFind(s, q, x);
    if x.pc == FindHead { FindStarts(s, q, x); }
    else if x.pc == FindNext { FindGoesOn(s, q, x); }
    else { FindTests(s, q, x); }
  }

  lemma FindKeeps(s: Sys, q: nat, ptr: nat)
    requires Inv(s) && Shaped(s) && q in s.threads && FindWalks(s.threads[q])
    ensures Step(s, q, ptr).Next? && GoodStep(s, Step(s, q, ptr).s, q)
  {
    hide Inv, GoodStep, Heap, Ready, Step, Walked, SameLocks, Steady;
    Parts(s);
    ReadyOf(s, q);
    FindReady(s, q, s.threads[q]);
    FindShape(s, q, ptr);
    WalkedSteady(s, q);
    PutKeeps(s, q, Walked(s, s.threads[q]));
  }

  lemma WalkedSteady(s: Sys, q: nat)
    requires Shaped(s) && q in s.threads && FindWalks(s.threads[q]) && s.threads[q].op.Find?
    requires s.threads[q].pc != FindHead ==> s.threads[q].fp in s.objs
    ensures var y := Walked(s, s.threads[q]); SameLocks(s.design, s.threads[q], y) && Steady(s, Put(s, q, y), q)
  {
    hide HashOf;
  }
}
