/** What one write does to the lists, whoever makes it. */
module DbListMoves {
  import opened Sequences
  import opened Decimal
  import opened DbFormat
  import opened DbLists
  import opened Database
  import opened DbRuns
  import opened DbProcesses
  import opened DbProtocol

  /** The process that bends list `l` is the same, at the same place, in both states. */
  predicate SameBend(s: Sys, s': Sys, l: nat)
    requires l < |s.locks| && l < |s'.locks|
  {
    && Bent(s', l) == Bent(s, l)
    && (Bent(s, l) ==>
          && s'.locks[l] == s.locks[l]
          && s'.procs[s'.locks[l].owner].k == s.procs[s.locks[l].owner].k
          && s'.procs[s'.locks[l].owner].cur == s.procs[s.locks[l].owner].cur)
  }

  /** A list whose members, head and pointers did not change is as it was. */
  lemma SameList(s: Sys, s': Sys, l: nat)
    requires Shaped(s) && Shaped(s') && l <= NHASH && ListPlaced(s, l) && ListLinked(s, l)
    requires s'.lists[l] == s.lists[l] && s'.heads[l] == s.heads[l] && SameBend(s, s', l)
    requires forall k :: 0 <= k < |s.lists[l]| ==>
      var r := s.lists[l][k];
      r in s'.recs && s'.recs[r].next == s.recs[r].next && r in s'.place && s'.place[r] == On(l)
    ensures ListPlaced(s', l) && ListLinked(s', l)
  {
    hide Bent;
    forall k | 0 <= k <= |s.lists[l]| ensures LinkValue(s', l, k) == LinkValue(s, l, k) {
    }
  }

  lemma PlacedAt(s: Sys, l: nat)
    requires ListsHold(s) && l <= NHASH
    ensures ListPlaced(s, l) && ListLinked(s, l)
  {
  }

  // ---------- moving a process, changing data ----------

  lemma ListsPut(s: Sys, q: nat, y: Local)
    requires ListsHold(s) && q in s.procs && Tearing(s.procs[q].pc) == Tearing(y.pc)
    requires Tearing(y.pc) ==> y.k == s.procs[q].k && y.cur == s.procs[q].cur
    requires forall r :: r in s.place && s.place[r] == Hand(q) ==> InHand(y, r)
    ensures ListsHold(Put(s, q, y))
  {
    hide Blank, ChainOf;
    var s' := Put(s, q, y);
    forall l | 0 <= l <= NHASH ensures ListPlaced(s', l) && ListLinked(s', l) {
      PlacedAt(s, l);
      SameList(s, s', l);
    }
    forall r | r in s'.recs ensures RecordHeld(s', r) {
      assert RecordHeld(s, r);
    }
    forall key | key in s'.loc ensures KeyHeld(s', key) {
      assert KeyHeld(s, key);
    }
  }

  lemma ListsRecord(s: Sys, r: nat, rec: Rec)
    requires ListsHold(s) && r in s.recs
    requires r in s.place && (s.place[r].Hand? || (rec.key == s.recs[r].key && rec.next == s.recs[r].next))
    ensures ListsHold(s.(recs := s.recs[r := rec]))
  {
    hide Blank, ChainOf;
    var s' := s.(recs := s.recs[r := rec]);
    forall l | 0 <= l <= NHASH ensures ListPlaced(s', l) && ListLinked(s', l) {
      PlacedAt(s, l);
      SameList(s, s', l);
    }
    forall m | m in s'.recs ensures RecordHeld(s', m) {
      assert RecordHeld(s, m);
    }
    forall key | key in s'.loc ensures KeyHeld(s', key) {
      assert KeyHeld(s, key);
    }
  }

  /** A new record in the hands of a process. */
  lemma ListsNew(s: Sys, q: nat, r: nat, rec: Rec)
    requires ListsHold(s) && q in s.procs && r !in s.recs && r != 0 && InHand(s.procs[q], r)
    ensures ListsHold(s.(recs := s.recs[r := rec], place := s.place[r := Hand(q)]))
  {
    hide Blank, ChainOf;
    var s' := s.(recs := s.recs[r := rec], place := s.place[r := Hand(q)]);
    forall l | 0 <= l <= NHASH ensures ListPlaced(s', l) && ListLinked(s', l) {
      PlacedAt(s, l);
      SameList(s, s', l);
    }
    forall m | m in s'.recs ensures RecordHeld(s', m) {
      assert m != r ==> RecordHeld(s, m);
    }
    forall key | key in s'.loc ensures KeyHeld(s', key) {
      assert KeyHeld(s, key);
    }
  }

  // ---------- cutting a record out of the free list ----------

  /** Position `k` of list `l` bypassed: the list itself. */
  lemma CutLinks(s: Sys, s': Sys, l: nat, k: nat)
    requires Shaped(s) && Shaped(s') && l <= NHASH && ListPlaced(s, l) && ListLinked(s, l) && !Bent(s, l) && !Bent(s', l)
    requires k < |s.lists[l]| && s'.lists[l] == Without(s.lists[l], k)
    requires s'.heads[l] == if k == 0 then s.recs[s.lists[l][k]].next else s.heads[l]
    requires forall j :: 0 <= j < |s.lists[l]| && j != k ==>
      var r := s.lists[l][j];
      && r in s'.recs && r in s'.place && s'.place[r] == On(l)
      && s'.recs[r].next == if j + 1 == k then s.recs[s.lists[l][k]].next else s.recs[r].next
    ensures ListPlaced(s', l) && ListLinked(s', l)
  {
    hide Bent;
    var list, list' := s.lists[l], s'.lists[l];
    forall j | 0 <= j <= |list'| ensures LinkValue(s', l, j) == Node(list', j) {
      if j > 0 {
        var j0 := if j - 1 < k then j - 1 else j;
        assert list'[j - 1] == list[j0];
        assert LinkValue(s, l, j0 + 1) == s.recs[list[j0]].next == Node(list, j0 + 1);
      }
      assert k + 1 <= |list| && LinkValue(s, l, k + 1) == s.recs[list[k]].next == Node(list, k + 1);
      assert LinkValue(s, l, 0) == s.heads[l];
    }
  }

  lemma WithoutHas(list: seq<nat>, k: nat, r: nat)
    requires k < |list| && r in list && r != list[k]
    ensures r in Without(list, k)
  {
    WithoutKeeps(list, k, r);
  }

  /** The state after process `q` took the record at position `k` off the free list. */
  function CutFree(s: Sys, q: nat, k: nat): Sys
    requires Shaped(s) && k < |s.lists[FREE]| && (forall j :: 0 <= j <= k ==> s.lists[FREE][j] in s.recs)
  {
    var r := s.lists[FREE][k];
    WriteLink(s, FREE, Prev(s.lists[FREE], k), s.recs[r].next)
      .(lists := CutList(s, FREE, k), place := s.place[r := Hand(q)])
  }

  lemma ListsCutFree(s: Sys, q: nat, k: nat)
    requires ListsHold(s) && q in s.procs && k < |s.lists[FREE]| && InHand(s.procs[q], s.lists[FREE][k])
    ensures forall j :: 0 <= j <= k ==> s.lists[FREE][j] in s.recs
    ensures ListsHold(CutFree(s, q, k))
  {
    hide Blank, ChainOf;
    PlacedAt(s, FREE);
    var r := s.lists[FREE][k];
    var s' := CutFree(s, q, k);
    forall l | 0 <= l <= NHASH ensures ListPlaced(s', l) && ListLinked(s', l) {
      PlacedAt(s, l);
      if l == FREE { CutLinks(s, s', FREE, k); } else { SameList(s, s', l); }
    }
    forall m | m in s'.recs ensures RecordHeld(s', m) {
      assert RecordHeld(s, m);
      if m != r && m in s.lists[FREE] { WithoutHas(s.lists[FREE], k, m); }
    }
    forall key | key in s'.loc ensures KeyHeld(s', key) {
      assert KeyHeld(s, key);
    }
  }

  // ---------- putting a record at the front of a list ----------

  function PushOn(s: Sys, l: nat, r: nat): Sys
    requires Shaped(s) && l <= NHASH && r in s.recs
  {
    s.(heads := s.heads[l := r], lists := s.lists[l := [r] + s.lists[l]], place := s.place[r := On(l)],
       loc := if l == FREE then s.loc else s.loc[s.recs[r].key := r])
  }

  lemma PushLinks(s: Sys, l: nat, r: nat)
    requires ListsHold(s) && l <= NHASH && !Bent(s, l) && r in s.recs && r != 0
    requires r in s.place && s.place[r].Hand? && s.recs[r].next == s.heads[l]
    ensures ListPlaced(PushOn(s, l, r), l) && ListLinked(PushOn(s, l, r), l)
  {
    hide Blank, ChainOf, Bent;
    PlacedAt(s, l);
    var s' := PushOn(s, l, r);
    var list, list' := s.lists[l], s'.lists[l];
    assert Bent(s', l) == Bent(s, l) by { BentPush(s, l, r); }
    forall k | 0 <= k <= |list'| ensures LinkValue(s', l, k) == Node(list', k) {
      if k > 0 {
        assert LinkValue(s, l, k - 1) == Node(list, k - 1) == Node(list', k);
        assert k > 1 ==> list'[k - 1] == list[k - 2];
      }
    }
    forall j, k | 0 <= j < k < |list'| ensures list'[j] != list'[k] {
      assert list'[k] == list[k - 1];
    }
  }

  lemma BentPush(s: Sys, l: nat, r: nat)
    requires Shaped(s) && l <= NHASH && r in s.recs
    ensures forall m :: 0 <= m < LOCKS ==> Bent(PushOn(s, l, r), m) == Bent(s, m) && SameBend(s, PushOn(s, l, r), m)
  {
  }

  lemma PushHolds(s: Sys, l: nat, r: nat, m: nat)
    requires ListsHold(s) && l <= NHASH && r in s.recs && r != 0 && r in s.place && s.place[r].Hand?
    requires if l == FREE then Blank(s.recs[r].key)
             else l == ChainOf(s.recs[r].key) && s.recs[r].key !in s.loc
    requires m in s.recs
    ensures RecordHeld(PushOn(s, l, r), m)
  {
    hide Blank, Bucket, SameBend, Bent, ListPlaced, ListLinked;
    assert RecordHeld(s, m);
    PushedHas(s.lists[l], r, m);
  }

  lemma ListsPush(s: Sys, l: nat, r: nat)
    requires ListsHold(s) && l <= NHASH && !Bent(s, l) && r in s.recs && r != 0
    requires r in s.place && s.place[r].Hand? && s.recs[r].next == s.heads[l]
    requires if l == FREE then Blank(s.recs[r].key)
             else l == ChainOf(s.recs[r].key) && s.recs[r].key !in s.loc
    ensures ListsHold(PushOn(s, l, r))
  {
    hide Blank, Bucket, SameBend, Bent;
    var s' := PushOn(s, l, r);
    BentPush(s, l, r);
    forall m | 0 <= m <= NHASH ensures ListPlaced(s', m) && ListLinked(s', m) {
      PlacedAt(s, m);
      if m == l { PushLinks(s, l, r); } else { SameList(s, s', m); }
    }
    forall m | m in s'.recs ensures RecordHeld(s', m) {
      PushHolds(s, l, r, m);
    }
    forall key | key in s'.loc ensures KeyHeld(s', key) {
      assert key in s.loc ==> KeyHeld(s, key);
    }
  }

  lemma PushedHas(list: seq<nat>, r: nat, m: nat)
    ensures m in [r] + list <==> m == r || m in list
  {
  }

  // ---------- deleting a record from its chain ----------

  /** The state after `q` rewrote the record at position `k` of its chain, which nothing bypasses yet. */
  function Bend(s: Sys, q: nat, y: Local, free: nat): Sys
    requires Shaped(s) && y.cur in s.recs
  {
    Put(s, q, y).(recs := s.recs[y.cur := Rec(free, Spaces(|Key(y)|), s.recs[y.cur].data)],
                  lists := CutList(s, Chain(y), y.k), place := s.place[y.cur := Hand(q)], loc := s.loc - {Key(y)})
  }

  /** A link of a list from which a record was taken. */
  lemma BentValue(s: Sys, q: nat, y: Local, free: nat, j: nat)
    requires Shaped(s) && At(s, y, Chain(y)) && !Bent(s, Chain(y)) && j < |s.lists[Chain(y)]|
    requires ListPlaced(s, Chain(y)) && ListLinked(s, Chain(y))
    ensures var s' := Bend(s, q, y, free);
            && (j > 0 ==> s'.lists[Chain(y)][j - 1] in s'.recs)
            && LinkValue(s', Chain(y), j) == if j == y.k then y.cur else Node(s'.lists[Chain(y)], j)
  {
    hide Blank, Bucket, Bent;
    var list, j0 := s.lists[Chain(y)], if j <= y.k then j else j + 1;
    assert LinkValue(s, Chain(y), j0) == Node(list, j0);
    if j > 0 { assert list[j0 - 1] != list[y.k]; }
  }

  lemma BendLinks(s: Sys, q: nat, y: Local, free: nat)
    requires ListsHold(s) && y.pc == DelFree && At(s, y, Chain(y)) && !Bent(s, Chain(y))
    requires s.locks[Chain(y)] == Exclusive(q)
    ensures ListPlaced(Bend(s, q, y, free), Chain(y)) && ListLinked(Bend(s, q, y, free), Chain(y))
  {
    hide Blank, Bucket;
    var c, k := Chain(y), y.k;
    PlacedAt(s, c);
    var s' := Bend(s, q, y, free);
    var list, list' := s.lists[c], s'.lists[c];
    assert Bent(s', c) && s'.procs[q] == y;
    forall j | 0 <= j <= |list'| ensures LinkValue(s', c, j) == if j == k then y.cur else Node(list', j) {
      BentValue(s, q, y, free, j);
    }
  }

  lemma ListsBend(s: Sys, q: nat, y: Local, free: nat)
    requires ListsHold(s) && y.pc == DelFree && At(s, y, Chain(y)) && q in s.procs && !Tearing(s.procs[q].pc)
    requires !Bent(s, Chain(y)) && s.locks[Chain(y)] == Exclusive(q)
    requires forall l :: 0 <= l <= NHASH && s.locks[l] == Exclusive(q) ==> l == FREE || l == Chain(y)
    requires s.recs[y.cur].key == Key(y)
    requires forall r :: r in s.place ==> s.place[r] != Hand(q)
    ensures ListsHold(Bend(s, q, y, free))
  {
    hide Blank, Bucket;
    var s' := Bend(s, q, y, free);
    var c := Chain(y);
    PlacedAt(s, c);
    forall l | 0 <= l <= NHASH ensures ListPlaced(s', l) && ListLinked(s', l) {
      PlacedAt(s, l);
      if l == c { BendLinks(s, q, y, free); } else { SameList(s, s', l); }
    }
    forall m | m in s'.recs ensures RecordHeld(s', m) {
      assert RecordHeld(s, m);
      if m != y.cur && m in s.lists[c] { WithoutHas(s.lists[c], y.k, m); }
    }
    forall key | key in s'.loc ensures KeyHeld(s', key) {
      assert KeyHeld(s, key);
    }
  }

  /** The state after `q` wrote the pointer that bypasses the deleted record. */
  function Straighten(s: Sys, q: nat, y: Local): Sys
    requires Shaped(s) && (y.prev != 0 ==> y.prev in s.recs)
  {
    Put(WriteLink(s, Chain(y), y.prev, y.val), q, y)
  }

  lemma StraightenLinks(s: Sys, q: nat, y: Local)
    requires ListsHold(s) && q in s.procs && Bypassing(s, y) && !Tearing(y.pc)
    requires Bent(s, Chain(y)) && s.locks[Chain(y)] == Exclusive(q) && s.procs[q].k == y.k
    ensures y.prev != 0 ==> y.prev in s.recs
    ensures ListPlaced(Straighten(s, q, y), Chain(y)) && ListLinked(Straighten(s, q, y), Chain(y))
  {
    hide Blank, Bucket;
    var c, k := Chain(y), y.k;
    PlacedAt(s, c);
    var s' := Straighten(s, q, y);
    var list := s.lists[c];
    assert !Bent(s', c);
    forall j | 0 <= j <= |list| ensures LinkValue(s', c, j) == Node(list, j) {
      assert j != k ==> LinkValue(s, c, j) == Node(list, j);
      if j > 0 && k > 0 && j != k { assert list[j - 1] != list[k - 1]; }
    }
  }

  lemma StraightenElsewhere(s: Sys, q: nat, y: Local, l: nat)
    requires ListsHold(s) && q in s.procs && Bypassing(s, y) && l <= NHASH && l != Chain(y)
    requires !(l > FREE && s.locks[l] == Exclusive(q)) && (y.prev != 0 ==> y.prev in s.recs)
    ensures ListPlaced(Straighten(s, q, y), l) && ListLinked(Straighten(s, q, y), l)
  {
    hide Blank, Bucket;
    PlacedAt(s, Chain(y));
    PlacedAt(s, l);
    SameList(s, Straighten(s, q, y), l);
  }

  lemma StraightenRecords(s: Sys, q: nat, y: Local)
    requires ListsHold(s) && q in s.procs && (y.prev != 0 ==> y.prev in s.recs)
    requires forall r :: r in s.place ==> s.place[r] != Hand(q)
    ensures forall m :: m in Straighten(s, q, y).recs ==> RecordHeld(Straighten(s, q, y), m)
    ensures forall key :: key in s.loc ==> KeyHeld(Straighten(s, q, y), key)
  {
    hide Blank, ChainOf, ListPlaced, ListLinked;
    var s' := Straighten(s, q, y);
    forall m | m in s'.recs ensures RecordHeld(s', m) {
      assert RecordHeld(s, m);
    }
    forall key | key in s.loc ensures KeyHeld(s', key) {
      assert KeyHeld(s, key);
    }
  }

  lemma ListsStraighten(s: Sys, q: nat, y: Local)
    requires ListsHold(s) && q in s.procs && Bypassing(s, y) && !Tearing(y.pc)
    requires Bent(s, Chain(y)) && s.locks[Chain(y)] == Exclusive(q) && s.procs[q].k == y.k
    requires forall l :: 0 <= l <= NHASH && s.locks[l] == Exclusive(q) ==> l == FREE || l == Chain(y)
    requires forall r :: r in s.place ==> s.place[r] != Hand(q)
    ensures y.prev != 0 ==> y.prev in s.recs
    ensures ListsHold(Straighten(s, q, y))
  {
    hide ListPlaced, ListLinked, RecordHeld, KeyHeld, Bent, ChainOf, Bypassing;
    StraightenLinks(s, q, y);
    StraightenRecords(s, q, y);
    forall l | 0 <= l <= NHASH
      ensures ListPlaced(Straighten(s, q, y), l) && ListLinked(Straighten(s, q, y), l)
    {
      if l != Chain(y) { StraightenElsewhere(s, q, y, l); }
    }
  }
}
