/** Steps that write the files. */
module DbWriteSteps {
  import opened Options
  import opened Sequences
  import opened Decimal
  import opened DbFormat
  import opened DbLists
  import opened Database
  import opened DbRuns
  import opened DbProcesses
  import opened DbProtocol
  import opened DbQuietSteps
  import opened DbLogSteps
  import opened DbListMoves

  /** The write lock on its chain is the one lock the writer of a chain has in the hash table. */
  lemma OwnChain(s: Sys, q: nat)
    requires LocksHold(s) && q in s.procs && s.procs[q].pc != Locking && !s.procs[q].op.FetchCall?
    ensures s.locks[Chain(s.procs[q])] == Exclusive(q)
    ensures forall l :: 0 <= l <= NHASH && s.locks[l] == Exclusive(q) ==> l == FREE || l == Chain(s.procs[q])
  {
    hide Bucket;
    var x := s.procs[q];
    assert LockHeld(s, Chain(x));
    forall l | 0 <= l <= NHASH && s.locks[l] == Exclusive(q) ensures l == FREE || l == Chain(x) {
      assert LockHeld(s, l);
    }
  }

  lemma NothingInHand(s: Sys, q: nat)
    requires ListsHold(s) && q in s.procs
    requires forall r :: r != 0 ==> !InHand(s.procs[q], r)
    ensures forall r :: r in s.place ==> s.place[r] != Hand(q)
  {
    forall r | r in s.place ensures s.place[r] != Hand(q) {
      assert RecordHeld(s, r);
    }
  }

  lemma OnlyInHand(s: Sys, q: nat)
    requires ListsHold(s) && q in s.procs
    ensures forall r :: r in s.place && s.place[r] == Hand(q) ==> InHand(s.procs[q], r) && r != 0
  {
    forall r | r in s.place && s.place[r] == Hand(q) ensures InHand(s.procs[q], r) && r != 0 {
      assert RecordHeld(s, r);
    }
  }

  /** The record of another live key is another record. */
  lemma OtherKey(s: Sys, key: string, r: nat)
    requires ListsHold(s) && key in s.loc && r in s.recs && s.loc[key] == r
    ensures s.recs[r].key == key && r in s.place && s.place[r] == On(ChainOf(key))
  {
    assert KeyHeld(s, key);
  }

  /** A step of the writer `q` of chain `c` that changes one record, on its chain or in its hands. */
  lemma OneRecordFrame(s: Sys, s': Sys, q: nat, r: nat)
    requires Shaped(s) && q in s.procs && q in s'.procs && r in s.recs && r in s.place
    requires r in s'.recs && s' == s.(recs := s.recs[r := s'.recs[r]], procs := s.procs[q := s'.procs[q]])
    requires s.place[r] == Hand(q) || (s.place[r].On? && Writes(s.procs[q], s.place[r].l))
    ensures Frame(s, s', q)
  {
    hide Writes, ChainOf;
  }

  /** Changing a record that is no key's record, or only its pointer, keeps the agreement. */
  lemma OneRecordAgreement(s: Sys, s': Sys, q: nat, r: nat)
    requires ListsHold(s) && Agreement(s) && q in s.procs && q in s'.procs && r in s.recs
    requires r in s'.recs && s' == s.(recs := s.recs[r := s'.recs[r]], procs := s.procs[q := s'.procs[q]])
    requires s'.procs[q].gone == s.procs[q].gone && s'.procs[q].op == s.procs[q].op
    requires (r in s.place && s.place[r].Hand?) || s'.recs[r].data == s.recs[r].data
    ensures Agreement(s')
  {
    hide ChainOf;
    forall key | !Torn(s', key) ensures Agrees(s', key) {
      assert !Torn(s, key) && Agrees(s, key);
      if key in s.loc && s.loc[key] == r { OtherKey(s, key, r); }
    }
  }

  // ---------- deleting ----------

  lemma DelDataAgreement(s: Sys, s': Sys, q: nat)
    requires ListsHold(s) && Agreement(s) && q in s.procs && s.procs[q].cur in s.recs
    requires s.locks[Chain(s.procs[q])] == Exclusive(q) && s.recs[s.procs[q].cur].key == Key(s.procs[q])
    requires q in s'.procs && s'.procs[q].gone && s'.procs[q].op == s.procs[q].op
    requires s' == s.(recs := s'.recs, procs := s.procs[q := s'.procs[q]])
    requires s.procs[q].cur in s'.recs && s'.recs == s.recs[s.procs[q].cur := s'.recs[s.procs[q].cur]]
    ensures Agreement(s')
  {
    hide Bucket;
    var x := s.procs[q];
    forall key | !Torn(s', key) ensures Agrees(s', key) {
      assert key != Key(x);
      assert !Torn(s, key) && Agrees(s, key);
      if key in s.loc && s.loc[key] == x.cur { OtherKey(s, key, x.cur); }
    }
  }

  lemma InDelete(s: Sys, q: nat)
    requires Inv(s) && q in s.procs && (s.procs[q].pc == DelData || s.procs[q].pc == DelRead || s.procs[q].pc == DelIdx)
    ensures var x := s.procs[q];
      && Located(s, x) && Removes(x) && !x.op.FetchCall? && Writes(x, Chain(x)) && Writes(x, FREE)
      && x.cur in s.place && s.place[x.cur] == On(Chain(x))
      && (x.pc == DelData ==> !x.gone && Key(x) in s.abs)
      && (x.pc == DelIdx ==> x.free == s.heads[FREE])
  {
    hide ListsHold, LocksHold, Agreement, History, ChainOf, GoodCall;
    var x := s.procs[q];
    assert Ready(s, q, x);
    ListPlaces(s, Chain(x));
    if x.pc == DelData { KeyAgrees(s, q); }
  }

  lemma ListPlaces(s: Sys, l: nat)
    requires ListsHold(s) && l <= NHASH
    ensures forall k :: 0 <= k < |s.lists[l]| ==> s.lists[l][k] in s.place && s.place[s.lists[l][k]] == On(l) && s.lists[l][k] != 0
  {
    assert ListPlaced(s, l);
  }

  lemma DelDataShape(s: Sys, q: nat)
    requires Shaped(s) && q in s.procs && s.procs[q].pc == DelData && s.procs[q].cur in s.recs
    ensures var x := s.procs[q];
      var rec := s.recs[x.cur].(data := Spaces(x.len));
      DeleteStep(s, q) == Option.Some(Put(s.(recs := s.recs[x.cur := rec]), q, x.(gone := true, pc := DelRead)))
  {
    hide ChainOf;
  }

  lemma DelDataKeeps(s: Sys, q: nat)
    requires Inv(s) && q in s.procs && s.procs[q].pc == DelData
    ensures DeleteStep(s, q).Some? && GoodStep(s, DeleteStep(s, q).value, q)
  {
    hide Inv, ListsHold, LocksHold, Agreement, AfterAll, Replies, Frame, ChainOf, GoodCall, Ready, Writes, DeleteStep, Removes;
    var x := s.procs[q];
    InCall(s, q);
    InDelete(s, q);
    LocksOf(s);
    AgreementOf(s);
    OwnChain(s, q);
    DelDataShape(s, q);
    var rec := s.recs[x.cur].(data := Spaces(x.len));
    var s1 := s.(recs := s.recs[x.cur := rec]);
    var s' := DeleteStep(s, q).value;
    ListsRecord(s, x.cur, rec);
    NothingInHand(s, q);
    ListsPut(s1, q, s'.procs[q]);
    LocksSame(s, s', q);
    OneRecordFrame(s, s', q, x.cur);
    DelDataAgreement(s, s', q);
    DelDataReady(s, s', q, x);
  }

  lemma DelDataReady(s: Sys, s': Sys, q: nat, x: Local)
    requires Shaped(s) && Ready(s, q, x) && x.pc == DelData && Located(s, x) && Removes(x) && Key(x) in s.abs
    requires s' == s.(recs := s.recs[x.cur := s.recs[x.cur].(data := Spaces(x.len))], procs := s'.procs)
    ensures Ready(s', q, x.(gone := true, pc := DelRead))
  {
    hide ChainOf, GoodCall;
  }

  lemma AgreementOf(s: Sys)
    requires Inv(s)
    ensures Agreement(s) && History(s)
  {
  }

  lemma DelReadKeeps(s: Sys, q: nat)
    requires Inv(s) && q in s.procs && s.procs[q].pc == DelRead
    ensures DeleteStep(s, q).Some? && GoodStep(s, DeleteStep(s, q).value, q)
  {
    hide Inv, ListsHold, LocksHold, Agreement, History, Frame, ChainOf, GoodCall, GoodStep, Ready;
    InCall(s, q);
    InDelete(s, q);
    var x := s.procs[q];
    DelReadReady(s, q, x, x.(free := s.heads[FREE], pc := DelIdx));
    PlainKeeps(s, DeleteStep(s, q), q);
  }

  lemma DelReadReady(s: Sys, q: nat, x: Local, y: Local)
    requires Shaped(s) && Ready(s, q, x) && x.pc == DelRead && y == x.(free := s.heads[FREE], pc := DelIdx)
    ensures Ready(s, q, y) && Plain(x, y)
  {
    hide ChainOf, GoodCall;
  }

  lemma CutAtSamePlace(list: seq<nat>, k: nat)
    requires k < |list|
    ensures Node(Without(list, k), k) == Node(list, k + 1) && Prev(Without(list, k), k) == Prev(list, k)
    ensures |Without(list, k)| == |list| - 1
  {
  }

  lemma BendReady(s: Sys, q: nat, x: Local, y: Local)
    requires Shaped(s) && ListsHold(s) && !Bent(s, Chain(x))
    requires Ready(s, q, x) && x.pc == DelIdx && y == x.(pc := DelFree)
    requires x.cur != 0 && x.cur in s.recs
    ensures Ready(Bend(s, q, y, x.free), q, y)
  {
    hide ListsHold, Bucket, GoodCall, Bent, Without, Prev, Node, Logged;
    CutAtSamePlace(s.lists[Chain(x)], x.k);
    NextNode(s, Chain(x), x.k);
  }

  lemma BendFrame(s: Sys, q: nat, y: Local, free: nat)
    requires Shaped(s) && q in s.procs && y.cur in s.recs && y.op == s.procs[q].op
    requires Writes(s.procs[q], Chain(y)) && y.cur in s.place && s.place[y.cur] == On(Chain(y))
    ensures Frame(s, Bend(s, q, y, free), q)
  {
    hide Writes, Bucket;
  }

  lemma BendAgreement(s: Sys, q: nat, y: Local, free: nat)
    requires ListsHold(s) && Agreement(s) && q in s.procs && y.cur in s.recs && y.op == s.procs[q].op
    requires s.locks[Chain(y)] == Exclusive(q) && y.gone && s.procs[q].gone
    ensures Agreement(Bend(s, q, y, free))
  {
    hide Bucket;
    var s' := Bend(s, q, y, free);
    forall key | !Torn(s', key) ensures Agrees(s', key) {
      assert key != Key(y);
      assert !Torn(s, key) && Agrees(s, key);
    }
  }

  lemma DelIdxShape(s: Sys, q: nat)
    requires Shaped(s) && q in s.procs && s.procs[q].pc == DelIdx && s.procs[q].cur in s.recs
    ensures DeleteStep(s, q) == Option.Some(Bend(s, q, s.procs[q].(pc := DelFree), s.procs[q].free))
  {
    hide ChainOf;
  }

  lemma BendKeeps(s: Sys, q: nat, y: Local)
    requires Inv(s) && q in s.procs && s.procs[q].pc == DelIdx && y == s.procs[q].(pc := DelFree)
    ensures y.cur in s.recs && GoodStep(s, Bend(s, q, y, y.free), q)
  {
    hide Inv, ListsHold, LocksHold, Agreement, AfterAll, Replies, Frame, ChainOf, GoodCall, Ready, Writes, Removes, Bent;
    InCall(s, q);
    InDelete(s, q);
    LocksOf(s);
    AgreementOf(s);
    OwnChain(s, q);
    NothingInHand(s, q);
    ListPlaces(s, Chain(y));
    GoneInDelete(s, q);
    ListsBend(s, q, y, y.free);
    LocksSame(s, Bend(s, q, y, y.free), q);
    BendFrame(s, q, y, y.free);
    BendAgreement(s, q, y, y.free);
    BendReady(s, q, s.procs[q], y);
  }

  lemma DelIdxKeeps(s: Sys, q: nat)
    requires Inv(s) && q in s.procs && s.procs[q].pc == DelIdx
    ensures DeleteStep(s, q).Some? && GoodStep(s, DeleteStep(s, q).value, q)
  {
    hide Inv, GoodStep, Bend, DeleteStep;
    InCall(s, q);
    BendKeeps(s, q, s.procs[q].(pc := DelFree));
    DelIdxShape(s, q);
  }

  lemma GoneInDelete(s: Sys, q: nat)
    requires Inv(s) && q in s.procs
    requires var pc := s.procs[q].pc; pc == DelRead || pc == DelIdx || Tearing(pc)
    ensures s.procs[q].gone && Key(s.procs[q]) in s.abs && Startable(s.procs[q].op) && Removes(s.procs[q])
    ensures s.procs[q].since <= |s.log|
  {
    hide ListsHold, LocksHold, Agreement, History, ChainOf, GoodCall;
    assert Ready(s, q, s.procs[q]);
  }

  lemma InTearing(s: Sys, q: nat)
    requires Inv(s) && q in s.procs && Tearing(s.procs[q].pc)
    ensures var x := s.procs[q];
      && Bypassing(s, x) && !x.op.FetchCall? && Writes(x, Chain(x)) && Writes(x, FREE)
      && (x.pc == DelFree ==> Holding(s, q, x) && Blank(s.recs[x.cur].key) && s.recs[x.cur].next == s.heads[FREE])
      && (x.pc == DelLink ==> s.place[x.cur] == On(FREE))
  {
    hide ListsHold, LocksHold, Agreement, History, ChainOf, GoodCall;
    assert Ready(s, q, s.procs[q]);
  }

  lemma DelFreeShape(s: Sys, q: nat)
    requires Shaped(s) && q in s.procs && s.procs[q].pc == DelFree && s.procs[q].cur in s.recs
    ensures DeleteStep(s, q)
         == Option.Some(Put(PushOn(s, FREE, s.procs[q].cur), q, s.procs[q].(pc := DelLink)))
  {
    hide ChainOf;
  }

  /** Pushing a record `q` has in its hands onto a list `q` holds. */
  lemma PushFrame(s: Sys, s': Sys, q: nat, l: nat, r: nat)
    requires Shaped(s) && q in s.procs && q in s'.procs && l <= NHASH && r in s.recs
    requires s' == Put(PushOn(s, l, r), q, s'.procs[q])
    requires Writes(s.procs[q], l) && r in s.place && s.place[r] == Hand(q)
    requires l != FREE ==> l == ChainOf(s.recs[r].key)
    ensures Frame(s, s', q)
  {
    hide Writes, Bucket;
  }

  lemma DelFreeAgreement(s: Sys, s': Sys, q: nat)
    requires Agreement(s) && q in s.procs && q in s'.procs && s.procs[q].cur in s.recs
    requires s' == Put(PushOn(s, FREE, s.procs[q].cur), q, s'.procs[q])
    requires s'.procs[q].gone == s.procs[q].gone && s'.procs[q].op == s.procs[q].op
    ensures Agreement(s')
  {
    hide ChainOf;
    forall key | !Torn(s', key) ensures Agrees(s', key) {
      assert !Torn(s, key) && Agrees(s, key);
    }
  }

  lemma DelFreeReady(s: Sys, s': Sys, q: nat, x: Local)
    requires Shaped(s) && Ready(s, q, x) && x.pc == DelFree && x.cur in s.recs
    requires s' == PushOn(s, FREE, x.cur).(procs := s'.procs)
    ensures Ready(s', q, x.(pc := DelLink))
  {
    hide Bucket, GoodCall, Blank;
  }

  lemma DelFreeKeeps(s: Sys, q: nat)
    requires Inv(s) && q in s.procs && s.procs[q].pc == DelFree
    ensures DeleteStep(s, q).Some? && GoodStep(s, DeleteStep(s, q).value, q)
  {
    hide Inv, ListsHold, LocksHold, Agreement, AfterAll, Replies, Frame, ChainOf, GoodCall, Ready, Writes, DeleteStep, Blank;
    var x := s.procs[q];
    InCall(s, q);
    InTearing(s, q);
    LocksOf(s);
    AgreementOf(s);
    DelFreeShape(s, q);
    var s' := DeleteStep(s, q).value;
    ListsPush(s, FREE, x.cur);
    OnlyInHand(PushOn(s, FREE, x.cur), q);
    ListsPut(PushOn(s, FREE, x.cur), q, s'.procs[q]);
    LocksSame(s, s', q);
    PushFrame(s, s', q, FREE, x.cur);
    DelFreeAgreement(s, s', q);
    DelFreeReady(s, s', q, x);
  }

  // ---------- bypassing the deleted record ----------

  lemma RelinkFrame(s: Sys, q: nat, y: Local)
    requires Shaped(s) && q in s.procs && y.op == s.procs[q].op && Writes(s.procs[q], Chain(y))
    requires y.prev != 0 ==> y.prev in s.recs && y.prev in s.place && s.place[y.prev] == On(Chain(y))
    ensures Frame(s, Straighten(s, q, y), q)
  {
    hide Writes, Bucket;
  }

  lemma StraightenFrame(s: Sys, s': Sys, q: nat, y: Local)
    requires ListsHold(s) && q in s.procs && Bypassing(s, y) && y.op == s.procs[q].op && Writes(s.procs[q], Chain(y))
    requires Shaped(s) && (y.prev != 0 ==> y.prev in s.recs)
    requires s' == Straighten(s, q, y).(log := s'.log, abs := s'.abs) && s.log <= s'.log
    requires s'.abs == s.abs || s'.abs == s.abs - {Key(y)}
    ensures Frame(s, s', q)
  {
    hide Writes, Bucket, Frame, ListsHold;
    ListPlaces(s, Chain(y));
    RelinkFrame(s, q, y);
    FrameLog(s, Straighten(s, q, y), s', q);
  }

  lemma StraightenAgreement(s: Sys, s': Sys, q: nat, y: Local)
    requires Agreement(s) && q in s.procs && y.op == s.procs[q].op && s.procs[q].gone && Key(y) !in s.loc
    requires s.locks[Chain(y)] == Exclusive(q) && (y.prev != 0 ==> y.prev in s.recs)
    requires s' == Straighten(s, q, y).(log := s'.log, abs := s'.abs)
    requires (y.gone && s'.abs == s.abs) || s'.abs == s.abs - {Key(y)}
    ensures Agreement(s')
  {
    hide Bucket;
    forall key | !Torn(s', key) ensures Agrees(s', key) {
      if key != Key(y) {
        assert !Torn(s, key) && Agrees(s, key);
      }
    }
  }

  /** The registers after the deleted record was bypassed. */
  function Bypassed(s: Sys, x: Local): Local {
    if x.op.DeleteCall? then x.(pc := DelUnlock, gone := false, ans := Code(0), at := |s.log|) else x.(pc := DelUnlock)
  }

  lemma LinkedAgain(s: Sys, s': Sys, q: nat, x: Local, y: Local)
    requires Shaped(s) && Shaped(s') && x.pc == DelLink && Ready(s, q, x)
    requires y.prev == x.prev && (x.prev != 0 ==> x.prev in s.recs)
    requires s' == Straighten(s, q, y).(log := s'.log, abs := s'.abs) && y == Bypassed(s, x)
    requires if x.op.DeleteCall? then s'.log == s.log + [Event(q, x.op, Code(0))]
             else s'.log == s.log && s'.abs == s.abs
    ensures Ready(s', q, y)
  {
    hide Bucket, GoodCall, Blank;
  }

  lemma DelLinkShape(s: Sys, q: nat)
    requires Shaped(s) && q in s.procs && s.procs[q].pc == DelLink && s.procs[q].cur in s.recs
    requires s.procs[q].prev != 0 ==> s.procs[q].prev in s.recs
    ensures var x := s.procs[q];
      var y := if x.op.DeleteCall? then x.(pc := DelUnlock, gone := false, ans := Code(0), at := |s.log|)
               else x.(pc := DelUnlock);
      DeleteStep(s, q) == Option.Some(
        if x.op.DeleteCall?
        then Straighten(s, q, y).(log := s.log + [Event(q, x.op, Code(0))], abs := s.abs - {Key(x)})
        else Straighten(s, q, y).(log := s.log, abs := s.abs))
  {
    hide ChainOf;
  }

  lemma PrevThere(s: Sys, x: Local)
    requires ListsHold(s) && Bypassing(s, x)
    ensures x.prev != 0 ==> x.prev in s.recs
  {
    hide ChainOf;
    PlacedAt(s, Chain(x));
  }

  lemma BentByMe(s: Sys, q: nat)
    requires LocksHold(s) && q in s.procs && Tearing(s.procs[q].pc) && s.locks[Chain(s.procs[q])] == Exclusive(q)
    ensures Bent(s, Chain(s.procs[q]))
  {
    hide Bucket;
  }

  lemma DelLinkHistory(s: Sys, s': Sys, q: nat, x: Local)
    requires History(s) && x.op.DeleteCall? && Key(x) in s.abs
    requires s'.log == s.log + [Event(q, x.op, Code(0))] && s'.abs == s.abs - {Key(x)}
    ensures History(s')
  {
    hide AfterAll, Replies, History;
    LogHistory(s, s', Event(q, x.op, Code(0)));
  }

  lemma DelLinkLists(s: Sys, s': Sys, q: nat, y: Local)
    requires Inv(s) && q in s.procs && s.procs[q].pc == DelLink && y == Bypassed(s, s.procs[q])
    requires y.prev != 0 ==> y.prev in s.recs
    requires s' == Straighten(s, q, y).(log := s'.log, abs := s'.abs)
    ensures ListsHold(s') && LocksHold(s')
  {
    hide Inv, ListsHold, LocksHold, Agreement, History, ChainOf, GoodCall, Ready, Writes, Blank, Bent, Straighten;
    InCall(s, q);
    InTearing(s, q);
    LocksOf(s);
    OwnChain(s, q);
    NothingInHand(s, q);
    BentByMe(s, q);
    SameBypass(s, s.procs[q], y);
    ListsStraighten(s, q, y);
    ListsIgnoreLog(Straighten(s, q, y), s');
    StraightenLocks(s, q, y);
    LocksIgnoreLog(Straighten(s, q, y), s');
  }

  lemma StraightenLocks(s: Sys, q: nat, y: Local)
    requires Shaped(s) && LocksHold(s) && q in s.procs && SameRights(s.procs[q], y)
    requires y.prev != 0 ==> y.prev in s.recs
    ensures LocksHold(Straighten(s, q, y))
  {
    hide LocksHold, SameRights;
    LocksSame(s, Straighten(s, q, y), q);
  }

  lemma SameBypass(s: Sys, x: Local, y: Local)
    requires Shaped(s) && Bypassing(s, x) && y == Bypassed(s, x)
    ensures Bypassing(s, y)
  {
    hide ChainOf;
  }

  lemma DelLinkDone(s: Sys, s': Sys, q: nat, y: Local)
    requires Inv(s) && q in s.procs && s.procs[q].pc == DelLink && y == Bypassed(s, s.procs[q])
    requires y.prev != 0 ==> y.prev in s.recs
    requires s' == Straighten(s, q, y).(log := s'.log, abs := s'.abs)
    requires if y.op.DeleteCall? then s'.log == s.log + [Event(q, y.op, Code(0))] && s'.abs == s.abs - {Key(y)}
             else s'.log == s.log && s'.abs == s.abs
    ensures GoodStep(s, s', q)
  {
    hide Inv, ListsHold, LocksHold, Agreement, History, Frame, ChainOf, GoodCall, Ready, Writes, Blank;
    var x := s.procs[q];
    InTearing(s, q);
    GoneInDelete(s, q);
    LocksOf(s);
    AgreementOf(s);
    OwnChain(s, q);
    InCall(s, q);
    SameBypass(s, x, y);
    DelLinkLists(s, s', q, y);
    StraightenFrame(s, s', q, y);
    StraightenAgreement(s, s', q, y);
    if x.op.DeleteCall? { DelLinkHistory(s, s', q, x); } else { SameHistory(s, s'); }
    LinkedAgain(s, s', q, x, y);
  }

  lemma SameHistory(s: Sys, s': Sys)
    requires History(s) && s'.log == s.log && s'.abs == s.abs
    ensures History(s')
  {
  }

  lemma DelLinkKeeps(s: Sys, q: nat)
    requires Inv(s) && q in s.procs && s.procs[q].pc == DelLink
    ensures DeleteStep(s, q).Some? && GoodStep(s, DeleteStep(s, q).value, q)
  {
    hide Inv, ListsHold, ChainOf, GoodStep, DeleteStep, Straighten, Bypassing;
    InCall(s, q);
    InTearing(s, q);
    PrevThere(s, s.procs[q]);
    BypassThere(s, s.procs[q]);
    DelLinkShape(s, q);
    DelLinkDone(s, DeleteStep(s, q).value, q, Bypassed(s, s.procs[q]));
  }

  lemma BypassThere(s: Sys, x: Local)
    requires Shaped(s) && Bypassing(s, x)
    ensures x.cur in s.recs
  {
  }
}
