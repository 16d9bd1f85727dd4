/** What every step of every process keeps: the lists, the locks, and the agreement between the files
    and the table of the calls that took effect. */
// Large predicates name their value before they return it, here and in other modules: the verifier then
// keeps them closed in contracts and unfolds them where a proof needs what they say.
module DbProtocol {
  import opened DbFormat
  import opened DbLists
  import opened Database
  import opened DbRuns
  import opened DbProcesses

  // ---------- the lists ----------

  /** The record whose pointer leads to position `k`; 0 for the list head. */
  function Prev(list: seq<nat>, k: nat): nat
    requires k <= |list|
  {
    if k == 0 then 0 else list[k - 1]
  }

  /** The record at position `k`; 0 at the end. */
  function Node(list: seq<nat>, k: nat): nat {
    if k < |list| then list[k] else 0
  }

  /** The pointer that leads to position `k` of list `l`, as it stands in the file. */
  function LinkValue(s: Sys, l: nat, k: nat): nat
    requires Shaped(s) && l <= NHASH && k <= |s.lists[l]|
    requires k > 0 ==> s.lists[l][k - 1] in s.recs
  {
    if k == 0 then s.heads[l] else s.recs[s.lists[l][k - 1]].next
  }

  predicate Tearing(pc: Pc) {
    pc == DelFree || pc == DelLink
  }

  /** List `l` is a chain whose write-lock holder has rewritten the record it deletes and not yet
      bypassed it. */
  predicate Bent(s: Sys, l: nat)
    requires l < |s.locks|
  {
    && FREE < l <= NHASH && s.locks[l].Exclusive? && s.locks[l].owner in s.procs
    && Tearing(s.procs[s.locks[l].owner].pc)
  }

  predicate ListPlaced(s: Sys, l: nat)
    requires Shaped(s) && l <= NHASH
  {
    var list := s.lists[l];
    && (forall k :: 0 <= k < |list| ==> list[k] != 0 && list[k] in s.recs && list[k] in s.place && s.place[list[k]] == On(l))
    && (forall j, k :: 0 <= j < k < |list| ==> list[j] != list[k])
  }

  /** Every pointer of list `l` leads to the next record, except the one that still leads to the
      record being deleted. */
  predicate ListLinked(s: Sys, l: nat)
    requires Shaped(s) && l <= NHASH
  {
    && (forall k :: 0 <= k < |s.lists[l]| ==> s.lists[l][k] in s.recs)
    && forall k :: 0 <= k <= |s.lists[l]| ==>
      LinkValue(s, l, k) ==
        if Bent(s, l) && s.procs[s.locks[l].owner].k == k then s.procs[s.locks[l].owner].cur
        else Node(s.lists[l], k)
  }

  /** A process that has a record in its hands is about to put it on a list. */
  predicate InHand(x: Local, r: nat) {
    && x.cur == r
    && (x.pc == DelFree || x.pc == FreeUnlock || x.pc == FillDat || x.pc == FillIdx || x.pc == IdxUnlock || x.pc == LinkHead)
  }

  predicate RecordHeld(s: Sys, r: nat)
    requires Shaped(s) && r in s.recs
  {
    var holds :=
      && r != 0 && r in s.place
      && match s.place[r]
         case Lost => true
         case Hand(p) => p in s.procs && InHand(s.procs[p], r)
         case On(l) =>
           && l <= NHASH && r in s.lists[l]
           && (l == FREE ==> Blank(s.recs[r].key))
           && (l != FREE ==> ChainOf(s.recs[r].key) == l && s.recs[r].key in s.loc && s.loc[s.recs[r].key] == r);
    holds
  }

  predicate KeyHeld(s: Sys, key: string)
    requires key in s.loc
  {
    var r := s.loc[key];
    r in s.recs && s.recs[r].key == key && r in s.place && s.place[r] == On(ChainOf(key))
  }

  ghost predicate ListsHold(s: Sys) {
    var holds :=
      && Shaped(s)
      && (forall l :: 0 <= l <= NHASH ==> ListPlaced(s, l))
      && (forall l :: 0 <= l <= NHASH ==> ListLinked(s, l))
      && (forall r :: r in s.recs ==> RecordHeld(s, r))
      && (forall r :: r in s.place ==> r in s.recs)
      && (forall key :: key in s.loc ==> KeyHeld(s, key));
    holds
  }

  // ---------- the locks ----------

  predicate LockHeld(s: Sys, l: nat)
    requires l < |s.locks|
  {
    match s.locks[l]
    case Exclusive(o) =>
      && o in s.procs && Writes(s.procs[o], l)
      && (forall q :: q in s.procs && q != o ==> !Writes(s.procs[q], l) && !Reads(s.procs[q], l))
    case Shared(readers) =>
      && (forall q :: q in readers ==> q in s.procs)
      && (forall q :: q in s.procs ==> !Writes(s.procs[q], l) && (Reads(s.procs[q], l) <==> q in readers))
  }

  ghost predicate LocksHold(s: Sys) {
    var holds :=
      Shaped(s) && forall l :: 0 <= l < LOCKS ==> LockHeld(s, l);
    holds
  }

  // ---------- the table ----------

  /** The writer of the key's chain is between its first change to the record of that key and the
      point where its call takes effect. */
  predicate Torn(s: Sys, key: string)
    requires Shaped(s)
  {
    var l := ChainOf(key);
    && s.locks[l].Exclusive? && s.locks[l].owner in s.procs
    && s.procs[s.locks[l].owner].gone && Key(s.procs[s.locks[l].owner]) == key
  }

  predicate Agrees(s: Sys, key: string) {
    && (key in s.loc <==> key in s.abs)
    && (key in s.loc ==> s.loc[key] in s.recs && s.abs[key] == s.recs[s.loc[key]].data)
  }

  ghost predicate Agreement(s: Sys) {
    var holds :=
      Shaped(s) && forall key :: !Torn(s, key) ==> Agrees(s, key);
    holds
  }

  /** The log is a run of the table, one call at a time, with the answers the table gives. */
  ghost predicate History(s: Sys) {
    var holds :=
      s.abs == AfterAll(map[], Calls(s.log)) && Answers(s.log) == Replies(map[], Calls(s.log));
    holds
  }

  // ---------- the processes ----------

  predicate Removes(x: Local) {
    x.op.DeleteCall? || (x.op.StoreCall? && x.op.flag != DB_INSERT)
  }

  predicate Inserts(x: Local) {
    x.op.StoreCall? && if x.gone then x.op.flag != DB_INSERT else x.op.flag != DB_REPLACE
  }

  predicate Logged(s: Sys, p: nat, x: Local) {
    x.since <= x.at < |s.log| && s.log[x.at] == Event(p, x.op, x.ans)
  }

  predicate At(s: Sys, x: Local, l: nat)
    requires Shaped(s) && l <= NHASH
  {
    x.k < |s.lists[l]| && x.cur == s.lists[l][x.k] && x.prev == Prev(s.lists[l], x.k) && x.cur in s.recs
  }

  predicate NoneBefore(s: Sys, l: nat, k: nat, key: string)
    requires Shaped(s) && l <= NHASH
  {
    forall j :: 0 <= j < k && j < |s.lists[l]| ==> s.lists[l][j] in s.recs && s.recs[s.lists[l][j]].key != key
  }

  predicate Located(s: Sys, x: Local)
    requires Shaped(s)
  {
    var holds :=
      && At(s, x, Chain(x)) && s.recs[x.cur].key == Key(x) && x.val == s.recs[x.cur].next
      && Key(x) in s.loc && s.loc[Key(x)] == x.cur;
    holds
  }

  /** The chain no longer counts the record at `cur`, and `val` is where its successor is. */
  predicate Bypassing(s: Sys, x: Local)
    requires Shaped(s)
  {
    var holds :=
      var list := s.lists[Chain(x)];
      && Key(x) !in s.loc
      && x.k <= |list| && x.prev == Prev(list, x.k) && x.val == Node(list, x.k)
      && x.cur != 0 && x.cur in s.recs && x.cur in s.place;
    holds
  }

  predicate Inserting(s: Sys, x: Local)
    requires Shaped(s)
  {
    var holds :=
      Inserts(x) && Key(x) !in s.loc && x.head == s.heads[Chain(x)];
    holds
  }

  predicate Holding(s: Sys, p: nat, x: Local) {
    x.cur != 0 && x.cur in s.recs && x.cur in s.place && s.place[x.cur] == Hand(p)
  }

  /** What a process relies on before its next step. */
  predicate Ready(s: Sys, p: nat, x: Local)
    requires Shaped(s)
  {
    var ready :=
      && Startable(x.op)
      && x.since <= |s.log|
      && (x.gone ==> x.op.StoreCall? || x.op.DeleteCall?) && (x.gone ==> Key(x) in s.abs)
      && match x.pc
      case Locking => !x.gone
      case ReadHead => !x.gone
      case Walking => !x.gone && At(s, x, Chain(x)) && NoneBefore(s, Chain(x), x.k, Key(x))
      case Found => !x.gone && Located(s, x) && x.len == |s.recs[x.cur].data|
      case NotFound => !x.gone && Key(x) !in s.loc
      case Overwriting =>
        !x.gone && Located(s, x) && x.op.StoreCall? && x.op.flag != DB_INSERT
      case DelLock => !x.gone && Located(s, x) && Removes(x)
      case DelData => !x.gone && Located(s, x) && Removes(x)
      case DelRead => x.gone && Located(s, x) && Removes(x)
      case DelIdx => x.gone && Located(s, x) && Removes(x) && x.free == s.heads[FREE]
      case DelFree =>
        && x.gone && Removes(x) && Bypassing(s, x) && Holding(s, p, x)
        && Blank(s.recs[x.cur].key) && s.recs[x.cur].next == x.free == s.heads[FREE]
      case DelLink => x.gone && Removes(x) && Bypassing(s, x) && s.place[x.cur] == On(FREE)
      case DelUnlock =>
        && Removes(x) && Key(x) !in s.loc
        && if x.op.DeleteCall? then !x.gone && Logged(s, p, x) else x.gone
      case InsHead => Inserts(x) && Key(x) !in s.loc
      case FreeLock => !x.gone && Inserting(s, x)
      case FreeHead => !x.gone && Inserting(s, x)
      case FreeWalk => !x.gone && Inserting(s, x) && At(s, x, FREE)
      case FreeTake => !x.gone && Inserting(s, x) && At(s, x, FREE) && x.val == s.recs[x.cur].next
      case FreeUnlock => !x.gone && Inserting(s, x) && (x.cur != 0 ==> Holding(s, p, x))
      case FillDat => !x.gone && Inserting(s, x) && Holding(s, p, x)
      case FillIdx => !x.gone && Inserting(s, x) && Holding(s, p, x) && s.recs[x.cur].data == x.op.data
      case DatLock => Inserting(s, x)
      case DatWrite => Inserting(s, x)
      case DatUnlock => Inserting(s, x)
      case IdxLock => Inserting(s, x)
      case IdxWrite => Inserting(s, x)
      case IdxUnlock => Inserting(s, x) && Holding(s, p, x) && s.recs[x.cur] == Rec(x.head, Key(x), x.op.data)
      case LinkHead => Inserting(s, x) && Holding(s, p, x) && s.recs[x.cur] == Rec(x.head, Key(x), x.op.data)
      case Unlocking => !x.gone && Logged(s, p, x)
      case Ending => !x.gone;
    ready
  }

  ghost predicate Inv(s: Sys) {
    var holds :=
      && Shaped(s) && ListsHold(s) && LocksHold(s) && Agreement(s) && History(s)
      && forall p :: p in s.procs ==> Ready(s, p, s.procs[p]);
    holds
  }

  // ---------- what other processes see of a step ----------

  predicate ListKept(s: Sys, s': Sys, l: nat)
    requires Shaped(s) && Shaped(s') && l <= NHASH
  {
    s'.lists[l] == s.lists[l] && s'.heads[l] == s.heads[l]
  }

  predicate RecordKept(s: Sys, s': Sys, r: nat)
    requires r in s.recs && r in s.place
  {
    r in s'.recs && s'.recs[r] == s.recs[r] && r in s'.place && s'.place[r] == s.place[r]
  }

  predicate KeyKept(s: Sys, s': Sys, key: string) {
    && (key in s'.loc <==> key in s.loc) && (key in s.loc ==> s'.loc[key] == s.loc[key])
    && (key in s'.abs <==> key in s.abs) && (key in s.abs ==> s'.abs[key] == s.abs[key])
  }

  /** A step of process `q` leaves alone every list it holds no write lock on, every record on those
      lists and every record in another process's hands. */
  ghost predicate Frame(s: Sys, s': Sys, q: nat)
    requires q in s.procs
  {
    var holds :=
      && Shaped(s) && Shaped(s')
      && (forall p :: p in s'.procs ==> p in s.procs)
      && (forall p :: p in s.procs && p != q ==> p in s'.procs && s'.procs[p] == s.procs[p])
      && (forall l :: 0 <= l <= NHASH && !Writes(s.procs[q], l) ==> ListKept(s, s', l))
      && (forall r :: r in s.recs && r in s.place && s.place[r].On? && !Writes(s.procs[q], s.place[r].l) ==> RecordKept(s, s', r))
      && (forall r :: r in s.recs && r in s.place && s.place[r].Hand? && s.place[r].p != q ==> RecordKept(s, s', r))
      && (forall key :: !Writes(s.procs[q], ChainOf(key)) ==> KeyKept(s, s', key))
      && s.log <= s'.log;
    holds
  }

  /** A step of `q` that other processes can live with, and after which `q` itself can go on. */
  ghost predicate GoodStep(s: Sys, s': Sys, q: nat)
    requires q in s.procs
  {
    var holds :=
      && Frame(s, s', q) && ListsHold(s') && LocksHold(s') && Agreement(s') && History(s')
      && (q in s'.procs ==> Ready(s', q, s'.procs[q]));
    holds
  }

  lemma LocksApart(s: Sys, p: nat, q: nat, l: nat)
    requires LocksHold(s) && p in s.procs && q in s.procs && p != q && l < LOCKS
    requires Writes(s.procs[p], l) || Reads(s.procs[p], l)
    ensures !Writes(s.procs[q], l)
  {
    assert LockHeld(s, l);
  }

  /** Position `p` of another list, seen before and after a step of `q`. */
  lemma AtKept(s: Sys, s': Sys, q: nat, x: Local, l: nat)
    requires ListsHold(s) && q in s.procs && Frame(s, s', q) && l <= NHASH && !Writes(s.procs[q], l)
    requires At(s, x, l)
    ensures At(s', x, l) && s'.recs[x.cur] == s.recs[x.cur]
  {
    hide Blank, ChainOf;
    assert ListKept(s, s', l) && ListPlaced(s, l);
    assert RecordKept(s, s', x.cur);
  }

  lemma NoneBeforeKept(s: Sys, s': Sys, q: nat, l: nat, k: nat, key: string)
    requires ListsHold(s) && q in s.procs && Frame(s, s', q) && l <= NHASH && !Writes(s.procs[q], l)
    requires NoneBefore(s, l, k, key)
    ensures NoneBefore(s', l, k, key)
  {
    hide Blank, ChainOf;
    assert ListKept(s, s', l) && ListPlaced(s, l);
    forall j | 0 <= j < k && j < |s.lists[l]|
      ensures s'.lists[l][j] in s'.recs && s'.recs[s'.lists[l][j]].key != key
    {
      assert RecordKept(s, s', s.lists[l][j]);
    }
  }

  lemma LocatedKept(s: Sys, s': Sys, q: nat, x: Local)
    requires ListsHold(s) && q in s.procs && Frame(s, s', q) && !Writes(s.procs[q], Chain(x)) && Located(s, x)
    ensures Located(s', x) && s'.recs[x.cur] == s.recs[x.cur]
  {
    AtKept(s, s', q, x, Chain(x));
    assert KeyKept(s, s', Key(x));
  }

  lemma HoldingKept(s: Sys, s': Sys, q: nat, p: nat, x: Local)
    requires q in s.procs && Frame(s, s', q) && p != q && Holding(s, p, x)
    ensures Holding(s', p, x) && s'.recs[x.cur] == s.recs[x.cur]
  {
    assert RecordKept(s, s', x.cur);
  }

  lemma ChainKept(s: Sys, s': Sys, q: nat, x: Local)
    requires q in s.procs && Frame(s, s', q) && !Writes(s.procs[q], Chain(x))
    ensures ListKept(s, s', Chain(x)) && KeyKept(s, s', Key(x))
    ensures Inserting(s, x) ==> Inserting(s', x)
  {
  }

  lemma FreeKept(s: Sys, s': Sys, q: nat)
    requires q in s.procs && Frame(s, s', q) && !Writes(s.procs[q], FREE)
    ensures ListKept(s, s', FREE)
  {
  }

  /** A record that is on the chain of `x` or on the free list `x` holds stays as it is. */
  lemma TornRecordKept(s: Sys, s': Sys, q: nat, p: nat, x: Local)
    requires ListsHold(s) && q in s.procs && p != q && Frame(s, s', q)
    requires !Writes(s.procs[q], FREE) && Bypassing(s, x)
    requires !Writes(s.procs[q], Chain(x)) && (s.place[x.cur] == Hand(p) || s.place[x.cur] == On(FREE))
    ensures Bypassing(s', x) && s'.recs[x.cur] == s.recs[x.cur] && s'.place[x.cur] == s.place[x.cur]
  {
    hide Blank, ChainOf;
    ChainKept(s, s', q, x);
    assert RecordKept(s, s', x.cur);
  }

  lemma ReadyKeptSearching(s: Sys, s': Sys, q: nat, p: nat)
    requires ListsHold(s) && LocksHold(s) && q in s.procs && Frame(s, s', q) && p in s.procs && p != q
    requires Ready(s, p, s.procs[p]) && !HoldsFreeList(s.procs[p].pc) && !InsertPc(s.procs[p].pc)
    requires s.procs[p].pc !in {Found, Overwriting, DelLock}
    ensures Ready(s', p, s.procs[p])
  {
    hide Blank, ChainOf, ListsHold, LocksHold, GoodCall, Frame, At, Located, Bypassing, Inserting, Holding, NoneBefore;
    var x := s.procs[p];
    LogKept(s, s', q, p, x);
    if x.pc != Locking {
      LocksApart(s, p, q, Chain(x));
      ChainKept(s, s', q, x);
      if x.pc == Walking {
        AtKept(s, s', q, x, Chain(x));
        NoneBeforeKept(s, s', q, Chain(x), x.k, Key(x));
      }
    }
  }

  lemma ReadyKeptLocated(s: Sys, s': Sys, q: nat, p: nat)
    requires ListsHold(s) && LocksHold(s) && q in s.procs && Frame(s, s', q) && p in s.procs && p != q
    requires Ready(s, p, s.procs[p]) && s.procs[p].pc in {Found, Overwriting, DelLock}
    ensures Ready(s', p, s.procs[p])
  {
    hide Blank, ChainOf, ListsHold, LocksHold, GoodCall, Frame, At, Located, Bypassing, Inserting, Holding, NoneBefore;
    var x := s.procs[p];
    LogKept(s, s', q, p, x);
    LocksApart(s, p, q, Chain(x));
    LocatedKept(s, s', q, x);
  }

  lemma ReadyKeptBlanking(s: Sys, s': Sys, q: nat, p: nat)
    requires ListsHold(s) && LocksHold(s) && q in s.procs && Frame(s, s', q) && p in s.procs && p != q
    requires Ready(s, p, s.procs[p]) && (s.procs[p].pc == DelData || s.procs[p].pc == DelRead || s.procs[p].pc == DelIdx)
    ensures Ready(s', p, s.procs[p])
  {
    hide Blank, ChainOf, ListsHold, LocksHold, GoodCall, Frame, At, Located, Bypassing, Inserting, Holding, NoneBefore;
    var x := s.procs[p];
    LogKept(s, s', q, p, x);
    LocksApart(s, p, q, Chain(x));
    ChainKept(s, s', q, x);
    LocksApart(s, p, q, FREE);
    FreeKept(s, s', q);
    LocatedKept(s, s', q, x);
  }

  lemma ReadyKeptTearing(s: Sys, s': Sys, q: nat, p: nat)
    requires ListsHold(s) && LocksHold(s) && q in s.procs && Frame(s, s', q) && p in s.procs && p != q
    requires Ready(s, p, s.procs[p]) && (Tearing(s.procs[p].pc) || s.procs[p].pc == DelUnlock)
    ensures Ready(s', p, s.procs[p])
  {
    hide Blank, ChainOf, ListsHold, LocksHold, GoodCall, Frame, At, Located, Inserting, NoneBefore, Prev, Node;
    var x := s.procs[p];
    LogKept(s, s', q, p, x);
    LocksApart(s, p, q, Chain(x));
    ChainKept(s, s', q, x);
    LocksApart(s, p, q, FREE);
    FreeKept(s, s', q);
    if x.pc == DelFree {
      HoldingKept(s, s', q, p, x);
    }
    if x.pc != DelUnlock {
      TornRecordKept(s, s', q, p, x);
    }
  }

  lemma ReadyKeptReusing(s: Sys, s': Sys, q: nat, p: nat)
    requires ListsHold(s) && LocksHold(s) && q in s.procs && Frame(s, s', q) && p in s.procs && p != q
    requires Ready(s, p, s.procs[p]) && HoldsFreeList(s.procs[p].pc) && InsertPc(s.procs[p].pc)
    ensures Ready(s', p, s.procs[p])
  {
    hide Blank, ChainOf, ListsHold, LocksHold, GoodCall, Frame, At, Located, Bypassing, Inserting, Holding, NoneBefore;
    var x := s.procs[p];
    LogKept(s, s', q, p, x);
    LocksApart(s, p, q, Chain(x));
    ChainKept(s, s', q, x);
    LocksApart(s, p, q, FREE);
    FreeKept(s, s', q);
    if x.pc == FreeWalk || x.pc == FreeTake {
      AtKept(s, s', q, x, FREE);
    } else if x.pc == FreeUnlock && x.cur != 0 {
      HoldingKept(s, s', q, p, x);
    }
  }

  lemma ReadyKeptInserting(s: Sys, s': Sys, q: nat, p: nat)
    requires ListsHold(s) && LocksHold(s) && q in s.procs && Frame(s, s', q) && p in s.procs && p != q
    requires Ready(s, p, s.procs[p]) && !HoldsFreeList(s.procs[p].pc) && InsertPc(s.procs[p].pc)
    ensures Ready(s', p, s.procs[p])
  {
    hide Blank, ChainOf, ListsHold, LocksHold, GoodCall, Frame, At, Located, Bypassing, Inserting, Holding, NoneBefore;
    var x := s.procs[p];
    LogKept(s, s', q, p, x);
    LocksApart(s, p, q, Chain(x));
    ChainKept(s, s', q, x);
    if x.pc == FillDat || x.pc == FillIdx || x.pc == IdxUnlock || x.pc == LinkHead {
      HoldingKept(s, s', q, p, x);
    }
  }

  /** What another process relies on survives a step of `q`. */
  lemma ReadyKept(s: Sys, s': Sys, q: nat, p: nat)
    requires ListsHold(s) && LocksHold(s) && q in s.procs && Frame(s, s', q) && p in s.procs && p != q
    requires Ready(s, p, s.procs[p])
    ensures Ready(s', p, s.procs[p])
  {
    hide Ready, ListsHold, LocksHold, Frame;
    var pc := s.procs[p].pc;
    if HoldsFreeList(pc) {
      if InsertPc(pc) { ReadyKeptReusing(s, s', q, p); }
      else if Tearing(pc) || pc == DelUnlock { ReadyKeptTearing(s, s', q, p); }
      else { ReadyKeptBlanking(s, s', q, p); }
    } else {
      if InsertPc(pc) {
        ReadyKeptInserting(s, s', q, p);
      } else if pc in {Found, Overwriting, DelLock} {
        ReadyKeptLocated(s, s', q, p);
      } else {
        ReadyKeptSearching(s, s', q, p);
      }
    }
  }

  lemma LogKept(s: Sys, s': Sys, q: nat, p: nat, x: Local)
    requires q in s.procs && Frame(s, s', q)
    ensures |s.log| <= |s'.log| && (Logged(s, p, x) ==> Logged(s', p, x))
  {
  }
}
