/** The library's handle and its operations, step by step on the two file images. */
module Database {
  import opened Options
  import opened CStrings
  import opened Hashing
  import opened Sequences
  import opened Decimal
  import opened DbFormat
  import opened DbImage
  import opened DbLists
  import opened DbHeap
  import opened DbMoves

  const DB_INSERT: int := 1
  const DB_REPLACE: int := 2
  const DB_STORE: int := 3

  predicate StoreFlag(flag: int) {
    flag == DB_INSERT || flag == DB_REPLACE || flag == DB_STORE
  }

  /** What `db_store` must return on a table with content `m`. */
  function StoreCode(m: map<string, string>, key: string, flag: int): int {
    if !StoreFlag(flag) then -1
    else if key in m then (if flag == DB_INSERT then 1 else 0)
    else if flag == DB_REPLACE then -1 else 0
  }

  function StoreView(m: map<string, string>, key: string, data: string, flag: int): map<string, string> {
    if StoreCode(m, key, flag) == 0 then m[key := data] else m
  }

  /** What is left of the map when a store with a valid flag ended the process. */
  ghost function StoreHalted(m: map<string, string>, key: string, data: string): map<string, string> {
    if DataText(data) && !Closed(m, key) then m - {key} else m
  }

  /** A store of this key and data length needs no more room: the old data has that length, or the key is new
      and a deleted record has both lengths. */
  ghost predicate Spare(m: map<string, string>, h: Heap, g: Shape, key: string, len: nat) {
    if key in m then |m[key]| == len else DeletedFits(h, g, |key|, len)
  }

  /** The store has to append: no record with this key, and no free record of the same lengths, can
      take the data in place. */
  ghost predicate MustAppend(h: Heap, g: Shape, key: string, data: string, flag: int)
    requires key in g.loc ==> g.loc[key] < |h.recs|
  {
    if key in g.loc then flag != DB_INSERT && |data| != |DataOf(h.recs, g, key)|
    else flag != DB_REPLACE && !HasFree(h, g, |key|, |data| + 1)
  }

  /** A record for this key and data can be appended: its text is not too long or short, and its
      offset fits the pointer field. */
  predicate CanAppend(h: Heap, key: string, data: string) {
    FitsIndex(h, key, data) && |RenderIdx(h)| <= PTR_MAX
  }

  /** The limits in figures: what `_db_writeidx` would print is 6 to 1024 bytes, at an offset of at most seven
      digits. */
  lemma AppendLimits(h: Heap, key: string, data: string)
    ensures CanAppend(h, key, data) <==>
      6 <= |key| + |Dec(|RenderDat(h.recs)|)| + |Dec(|data| + 1)| + 3 <= 1024 && |RenderIdx(h)| <= 9999999
  {
    hide Dec, RenderIdx, RenderDat;
  }

  /** `_db_hash`: the running sum wraps like an unsigned long. */
  method Hash(key: string) returns (b: nat)
    ensures b == Bucket(key)
    ensures b < 137
  {
    var hval := 0;
    var i := 1;
    while i <= |key|
      invariant 1 <= i <= |key| + 1
      invariant hval == HashSum(key[..i - 1]) % ULONG
    {
      assert key[..i][..i - 1] == key[..i - 1];
      ModAdd(HashSum(key[..i - 1]), SignedChar(key[i - 1]) * i);
      hval := (hval + SignedChar(key[i - 1]) * i) % ULONG;
      i := i + 1;
    }
    assert key[..|key|] == key;
    b := hval % NHASH;
  }

  lemma ModAdd(a: int, b: int)
    ensures (a % ULONG + b) % ULONG == (a + b) % ULONG
  {
  }

  /** Fill a buffer with blanks, one character at a time. */
  method BlankOut(n: nat) returns (r: string)
    ensures r == Spaces(n)
  {
    r := "";
    while |r| < n
      invariant |r| <= n && forall k :: 0 <= k < |r| ==> r[k] == ' '
    {
      r := r + [' '];
    }
  }

  method SplitRange(next: int, len: nat, key: string, rest: string) returns (r: Exit<IdxFields>)
    ensures r == ParseRange(next, len, key, rest)
  {
    var ptr2 := Strchr(rest, SEP);
    if ptr2 == |rest| { return Halted; }
    var last := rest[ptr2 + 1..];
    if SEP in last { return Halted; }
    var datoff := Atol(rest[..ptr2]);
    if datoff < 0 { return Halted; }
    var datlen := Atol(last);
    if datlen <= 0 || datlen > DATLEN_MAX { return Halted; }
    return Done(IdxFields(next, len, key, datoff, datlen));
  }

  /** Cut the text of an index record at its separators. */
  method SplitText(next: int, text: string) returns (r: Exit<IdxFields>)
    requires text != ""
    ensures r == ParseText(next, text)
  {
    hide ParseRange, CString, Strchr;
    var len := |text|;
    if text[len - 1] != '\n' { return Halted; }
    var body := CString(text[..len - 1]);
    var ptr1 := Strchr(body, SEP);
    if ptr1 == |body| { return Halted; }
    r := SplitRange(next, len, body[..ptr1], body[ptr1 + 1..]);
  }

  /** The header `db_open` writes: one null pointer for the free list, one for each chain. */
  method EmptyIndex() returns (hash: string)
    ensures hash == Header(seq(NHASH + 1, _ => 0))
    ensures |hash| == 967 && hash[966] == '\n' && forall i :: 0 <= i < 138 ==> hash[7 * i..7 * i + 7] == "      0"
  {
    hide Header;
    var asciiptr := Pad(PTR_SZ, 0);
    assert asciiptr == "      0";
    hash := "";
    for i := 0 to NHASH + 1
      invariant hash == Concat(seq(i, _ => asciiptr))
      invariant |hash| == 7 * i && forall j :: 0 <= j < i ==> hash[7 * j..7 * j + 7] == asciiptr
    {
      AppendPart(seq(i, _ => asciiptr), asciiptr);
      assert seq(i + 1, _ => asciiptr) == seq(i, _ => asciiptr) + [asciiptr];
      hash := hash + asciiptr;
    }
    assert HeadParts(seq(NHASH + 1, _ => 0)) == seq(NHASH + 1, _ => asciiptr);
    hash := hash + "\n";
    HeaderIs(seq(NHASH + 1, _ => 0));
  }

  lemma HeaderIs(heads: seq<nat>)
    ensures Header(heads) == Concat(HeadParts(heads)) + "\n"
  {
  }

  lemma EmptyHolds(h: Heap, g: Shape)
    requires h == Heap(seq(NHASH + 1, _ => 0), [])
    requires g == Shape([], seq(NHASH + 1, _ => []), [], map[])
    ensures Holds(Header(h.heads), "", h, g) && NoLimbo(g) && Fronted(h.recs, g) && |Header(h.heads)| == BASE
  {
    hide Pad;
    HeaderShape(h.heads);
    assert Concat(IdxParts(h.recs)) == "" && RenderDat(h.recs) == "";
    assert Header(h.heads) + "" == Header(h.heads);
  }

  class Db {
    // the two files, and the file offset of the index descriptor
    var idx: string
    var dat: string
    var idxpos: nat
    // the handle
    var idxbuf: string
    var datbuf: string
    var idxoff: nat
    var idxlen: nat
    var datoff: nat
    var datlen: nat
    var ptrval: int
    var ptroff: nat
    var chainoff: nat
    // what the files hold
    ghost var h: Heap
    ghost var g: Shape

    ghost predicate Synced()
      reads this
    {
      Holds(idx, dat, h, g)
    }

    ghost predicate Valid()
      reads this
    {
      Synced() && NoLimbo(g) && Fronted(h.recs, g)
    }

    ghost function Contents(): map<string, string>
      requires Valid()
      reads this
    {
      View(h.recs, g)
    }

    /** After the process ended: the files hold the heap and, at their ends, perhaps data or an index
        record that no pointer leads to. */
    ghost predicate Left()
      reads this
    {
      && Holds(RenderIdx(h), RenderDat(h.recs), h, g) && NoLimbo(g)
      && RenderIdx(h) <= idx && RenderDat(h.recs) <= dat
    }

    ghost function Survivors(): map<string, string>
      requires Left()
      reads this
    {
      View(h.recs, g)
    }

    lemma ValidIsLeft()
      requires Valid()
      ensures Left() && Survivors() == Contents()
    {
      hide Inv, NoLimbo, RenderIdx, RenderDat, View;
    }

    /** `db_open` of a new database: a header of null pointers, and an empty data file. */
    constructor Create()
      ensures Valid() && Contents() == map[]
      ensures idxpos == BASE && |idx| == BASE && dat == ""
      ensures |idx| == 967 && idx[966] == '\n' && forall i :: 0 <= i < 138 ==> idx[7 * i..7 * i + 7] == "      0"
    {
      idxbuf, datbuf, dat := "", "", "";
      idxoff, idxlen, datoff, datlen, ptrval, ptroff, chainoff := 0, 0, 0, 0, 0, 0, 0;
      idx, idxpos := "", 0;
      h := Heap(seq(NHASH + 1, _ => 0), []);
      g := Shape([], seq(NHASH + 1, _ => []), [], map[]);
      new;
      idx := EmptyIndex();
      EmptyHolds(h, g);
      Rewind();
    }

    // ---------- pointer fields ----------

    method ReadPtr(offset: nat) returns (r: Exit<int>)
      modifies `idxpos
      ensures r == if offset + PTR_SZ <= |idx| then Done(Atol(idx[offset..offset + PTR_SZ])) else Halted
    {
      idxpos := offset;
      if offset + PTR_SZ > |idx| { return Halted; }
      idxpos := offset + PTR_SZ;
      return Done(Atol(idx[offset..offset + PTR_SZ]));
    }

    method WritePtr(offset: nat, p: int) returns (r: Exit<()>)
      requires offset <= |idx|
      modifies `idx, `idxpos
      ensures r.Halted? <==> p < 0 || p > PTR_MAX
      ensures idx == if r.Halted? then old(idx) else Pwrite(old(idx), offset, Pad(PTR_SZ, p))
    {
      if p < 0 || p > PTR_MAX { return Halted; }
      var asciiptr := Pad(PTR_SZ, p);
      idx := Pwrite(idx, offset, asciiptr);
      idxpos := offset + |asciiptr|;
      return Done(());
    }

    // ---------- index records ----------

    /** The handle describes the index record with these fields. */
    predicate Describes(f: IdxFields)
      reads this
    {
      ptrval == f.next && idxlen == f.len && idxbuf == f.key && datoff == f.datoff && datlen == f.datlen
    }

    method ReadText(at: nat) returns (r: Exit<(int, string)>)
      modifies `idxpos
      ensures r == IdxText(idx, at)
      ensures r.Done? ==> idxpos == at + PTR_SZ + IDXLEN_SZ + |r.value.1|
    {
      idxpos := at;
      var start := at + PTR_SZ + IDXLEN_SZ;
      if start > |idx| { return Halted; }
      var len := Atol(idx[at + PTR_SZ..start]);
      if len < IDXLEN_MIN || len > IDXLEN_MAX { return Halted; }
      if start + len > |idx| { return Halted; }
      idxpos := start + len;
      return Done((Atol(idx[at..at + PTR_SZ]), idx[start..start + len]));
    }

    /** Read the index record at `offset`, or at the current file offset when `offset` is 0; -1 is
        the end of the file. */
    method ReadIdx(offset: nat) returns (r: Exit<int>)
      modifies `idxpos, `idxoff, `ptrval, `idxlen, `idxbuf, `datoff, `datlen
      ensures idxoff == if offset == 0 then old(idxpos) else offset
      ensures offset == 0 && idxoff >= |idx| ==> r == Done(-1) && idxpos == old(idxpos)
      ensures !(offset == 0 && idxoff >= |idx|) && ParseIdx(idx, idxoff).Halted? ==> r == Halted
      ensures !(offset == 0 && idxoff >= |idx|) && ParseIdx(idx, idxoff).Done? ==>
        && r == Done(ptrval) && Describes(ParseIdx(idx, idxoff).value)
        && idxpos == idxoff + PTR_SZ + IDXLEN_SZ + idxlen
    {
      hide IdxText, ParseText;
      idxoff := if offset == 0 then idxpos else offset;
      if idxoff >= |idx| && offset == 0 { return Done(-1); }
      var t :- ReadText(idxoff);
      var f :- SplitText(t.0, t.1);
      ptrval, idxlen, idxbuf, datoff, datlen := f.next, f.len, f.key, f.datoff, f.datlen;
      return Done(ptrval);
    }

    /** `ReadIdx` at a record that some pointer leads to. */
    method ReadListed(offset: nat, ghost i: nat) returns (r: Exit<int>)
      requires Synced() && i < |h.recs| && |g.offs| == |h.recs| && offset == g.offs[i]
      modifies `idxpos, `idxoff, `ptrval, `idxlen, `idxbuf, `datoff, `datlen
      ensures r == if SEP in h.recs[i].key then Halted else Done(h.recs[i].next)
      ensures r.Done? ==> HandleAt(i)
    {
      ReadRecord(h, i);
      OffsetsPositive(h, g, i);
      r := ReadIdx(offset);
    }

    /** Write an index record with the current `datoff` and `datlen`. */
    method WriteIdx(key: string, offset: nat, append: bool, p: int) returns (r: Exit<()>)
      requires offset <= |idx|
      modifies `idx, `idxpos, `idxoff, `idxbuf, `ptrval
      ensures r.Halted? <==>
        p < 0 || p > PTR_MAX || !(IDXLEN_MIN <= |RecText(key, datoff, datlen)| <= IDXLEN_MAX)
      ensures r.Halted? ==> idx == old(idx)
      ensures r.Done? ==>
        && idxoff == (if append then |old(idx)| else offset)
        && idx == Pwrite(old(idx), idxoff, RecBytes(p, key, datoff, datlen))
    {
      ptrval := p;
      if p < 0 || p > PTR_MAX { return Halted; }
      idxbuf := RecText(key, datoff, datlen);
      var len := |idxbuf|;
      if len < IDXLEN_MIN || len > IDXLEN_MAX { return Halted; }
      var asciiptrlen := Pad(PTR_SZ, p) + Pad(IDXLEN_SZ, len);
      idxoff := if append then |idx| else offset;
      idx := Pwrite(idx, idxoff, asciiptrlen + idxbuf);
      idxpos := idxoff + |asciiptrlen + idxbuf|;
      return Done(());
    }

    // ---------- data records ----------

    method ReadDat() returns (r: Exit<string>)
      modifies `datbuf
      ensures datlen > 0 && datoff + datlen <= |dat| && dat[datoff + datlen - 1] == '\n' ==>
        r == Done(dat[datoff..datoff + datlen - 1])
    {
      if datlen == 0 || datoff + datlen > |dat| { return Halted; }
      datbuf := dat[datoff..datoff + datlen];
      if datbuf[datlen - 1] != '\n' { return Halted; }
      datbuf := datbuf[..datlen - 1];
      assert datbuf == dat[datoff..datoff + datlen - 1];
      return Done(datbuf);
    }

    method WriteDat(data: string, offset: nat, append: bool)
      requires offset <= |dat|
      modifies `dat, `datoff, `datlen
      ensures datoff == (if append then |old(dat)| else offset) && datlen == |data| + 1
      ensures dat == Pwrite(old(dat), datoff, DatBytes(data))
    {
      datoff := if append then |dat| else offset;
      datlen := |data| + 1;
      dat := Pwrite(dat, datoff, data + "\n");
    }

    // ---------- finding ----------

    ghost predicate HandleAt(i: nat)
      requires i < |h.recs|
      reads this
    {
      && |g.offs| == |h.recs| && idxoff == g.offs[i] && idxbuf == h.recs[i].key && ptrval == h.recs[i].next
      && datoff == DatOff(h.recs, i) && datlen == |h.recs[i].data| + 1
    }

    /** Walk the chain of a key. On success the handle describes the record and `ptroff` is the
        offset of the pointer that leads to it; `k` is its position on the chain. A key with a
        separator on the chain ends the process, whatever key is looked for. */
    method FindAndLock(key: string) returns (r: Exit<int>, ghost k: nat)
      requires Valid()
      modifies `chainoff, `ptroff, `idxpos, `idxoff, `ptrval, `idxlen, `idxbuf, `datoff, `datlen
      ensures Valid()
      ensures r == if Closed(Contents(), key) then Halted else if key in g.loc then Done(0) else Done(-1)
      ensures chainoff == PTR_SZ * ChainOf(key)
      ensures var list := g.lists[ChainOf(key)];
        r == Done(0) ==>
          && k < |list| && list[k] == g.loc[key] < |h.recs| && HandleAt(list[k]) && idxbuf == key
          && ptroff == PtrOff(g, ChainOf(key), k)
    {
      hide Holds, NoLimbo, Fronted, Closed, Foul, NotBefore, RenderIdx, RenderDat, DatOff, IdxOff, Bucket, View;
      var bucket := Hash(key);
      chainoff := bucket * PTR_SZ + PTR_SZ;
      ptroff := chainoff;
      r, k := Walk(key, ChainOf(key));
      WalkDecides(key, r, k);
    }

    /** What the walk of a chain says of the map. */
    lemma WalkDecides(key: string, r: Exit<int>, k: nat)
      requires Valid() && Sized(h, g) && forall j :: 0 <= j < |g.lists[ChainOf(key)]| ==> g.lists[ChainOf(key)][j] < |h.recs|
      requires r == Halted || r == Done(0) || r == Done(-1)
      requires var list := g.lists[ChainOf(key)];
        match r
        case Halted => Foul(h.recs, list)
        case Done(v) =>
          && !Foul(h.recs, list)
          && if v == 0 then k < |list| && h.recs[list[k]].key == key else NotBefore(h.recs, list, |list|, key)
      ensures r == if Closed(Contents(), key) then Halted else if key in g.loc then Done(0) else Done(-1)
      ensures r == Done(0) ==> key in g.loc && g.lists[ChainOf(key)][k] == g.loc[key]
    {
      assert Placed(h, g);
      hide Placed, Holds, NoLimbo, Fronted, Closed, Foul, Bucket, View;
      ClosedIsFoul(h, g, key);
      if r.Done? && key in g.loc { KeyOnChain(h, g, key); }
      if r == Done(0) { RecordOnChain(h, g, ChainOf(key), k); }
    }

    /** The loop of `_db_find_and_lock`, from the pointer at `ptroff`. */
    method Walk(key: string, ghost l: nat) returns (r: Exit<int>, ghost k: nat)
      requires Valid() && l <= NHASH && ptroff == PTR_SZ * l
      modifies `ptroff, `idxpos, `idxoff, `ptrval, `idxlen, `idxbuf, `datoff, `datlen
      ensures Valid()
      ensures r == Halted || r == Done(0) || r == Done(-1)
      ensures Sized(h, g) && forall j :: 0 <= j < |g.lists[l]| ==> g.lists[l][j] < |h.recs|
      ensures r.Halted? <==> Foul(h.recs, g.lists[l])
      ensures var list := g.lists[l];
        r.Done? ==> if r == Done(0) then
          && k < |list| && list[k] < |h.recs| && HandleAt(list[k]) && h.recs[list[k]].key == key
          && |g.offs| == |h.recs|
          && (forall j :: 0 <= j < |list| ==> list[j] < |g.offs|) && ptroff == PtrOff(g, l, k)
        else NotBefore(h.recs, list, |list|, key)
    {
      hide Inv, NoLimbo, Fronted, RenderIdx, RenderDat, Atol, DatOff, Ref, PtrOff;
      Walkable(h, g, l);
      OthersReadable(l);
      ghost var list := g.lists[l];
      assert idx == RenderIdx(h);
      hide Holds;
      k := 0;
      var first := ReadPtr(ptroff);
      var offset: nat := first.value;
      while offset != 0
        invariant Valid()
        invariant k <= |list| && offset == Ref(g.offs, list, k) && ptroff == PtrOff(g, l, k)
        invariant NotBefore(h.recs, list, k, key) && (k > 0 ==> !Foul(h.recs, list))
        decreases |list| - k
      {
        assert Position(h, g, l, k);
        var nextoffset :- ReadListed(offset, list[k]);
        if idxbuf == key { return Done(0), k; }
        ptroff := offset;
        offset := nextoffset;
        k := k + 1;
      }
      assert Position(h, g, l, k);
      return Done(-1), k;
    }

    lemma OthersReadable(l: nat)
      requires Valid() && l <= NHASH
      ensures Sized(h, g)
      ensures forall k :: 0 <= k < |g.lists[l]| && (k > 0 || l == FREE) ==>
        g.lists[l][k] < |h.recs| && SEP !in h.recs[g.lists[l][k]].key
    {
      assert Placed(h, g);
      hide Placed, Fronted;
      KeysInRange(h, g);
      forall k | 0 <= k < |g.lists[l]| && (k > 0 || l == FREE)
        ensures g.lists[l][k] < |h.recs| && SEP !in h.recs[g.lists[l][k]].key
      {
        OnlyFirst(h, g, l, k);
      }
    }

    // ---------- fetching and deleting ----------

    /** `db_fetch`: the files, and so the map, are not touched. */
    method Fetch(key: string) returns (r: Exit<Option<string>>)
      requires Valid()
      modifies `chainoff, `ptroff, `idxpos, `idxoff, `ptrval, `idxlen, `idxbuf, `datoff, `datlen, `datbuf
      ensures Valid()
      ensures r == if Closed(Contents(), key) then Halted
                   else Done(if key in Contents() then Some(Contents()[key]) else None)
    {
      hide Inv, NoLimbo, Fronted, Closed, RenderIdx, RenderDat, DatOff, IdxOff, Atol, Bucket, PtrOff;
      ghost var k;
      var found: Exit<int>;
      found, k := FindAndLock(key);
      if found.Halted? { return Halted; }
      if found.value < 0 { return Done(None); }
      ReadData(h.recs, g.loc[key]);
      r := FetchFound();
    }

    method FetchFound() returns (r: Exit<Option<string>>)
      modifies `datbuf
      ensures datlen > 0 && datoff + datlen <= |dat| && dat[datoff + datlen - 1] == '\n' ==>
        r == Done(Some(dat[datoff..datoff + datlen - 1]))
    {
      var data :- ReadDat();
      return Done(Some(data));
    }

    /** `_db_dodelete`, for the record the handle describes: blank its data, blank and relink its
        index record to the front of the free list, and bypass it on its chain. */
    method DoDelete(ghost freeptr: nat)
      requires datlen > 0 && datoff <= |dat| && idxoff <= |idx| && ptroff <= |idx|
      requires PtrAt(idx, 0, freeptr) && freeptr <= PTR_MAX && idxoff <= PTR_MAX && 0 <= ptrval <= PTR_MAX
      requires IDXLEN_MIN <= |RecText(Spaces(|idxbuf|), datoff, datlen)| <= IDXLEN_MAX
      modifies `datbuf, `dat, `datoff, `datlen, `idxpos, `idx, `idxoff, `idxbuf, `ptrval
      ensures dat == Pwrite(old(dat), old(datoff), DatBytes(Spaces(old(datlen) - 1)))
      ensures
        var idx1 := Pwrite(old(idx), old(idxoff), RecBytes(freeptr, Spaces(|old(idxbuf)|), old(datoff), old(datlen)));
        var idx2 := Pwrite(idx1, 0, Pad(PTR_SZ, old(idxoff)));
        ptroff <= |idx2| && idx == Pwrite(idx2, ptroff, Pad(PTR_SZ, old(ptrval)))
    {
      hide Atol, RecText, RecBytes, Pad;
      datbuf := BlankOut(datlen - 1);
      var blankkey := BlankOut(|idxbuf|);
      WriteDat(datbuf, datoff, false);
      var head := ReadPtr(0);
      var saveptr := ptrval;
      var w := WriteIdx(blankkey, idxoff, false, head.value);
      w := WritePtr(0, idxoff);
      w := WritePtr(ptroff, saveptr);
    }

    /** What `_db_dodelete` does to the lists: the record leaves its chain and joins the free list. */
    method RemoveFound(ghost l: nat, ghost k: nat)
      requires Valid() && FREE < l && OnList(h, g, l, k)
      requires HandleAt(g.lists[l][k]) && ptroff == PtrOff(g, l, k)
      modifies `datbuf, `dat, `datoff, `datlen, `idxpos, `idx, `idxoff, `idxbuf, `ptrval, `h, `g
      ensures Valid() && |idx| == |old(idx)| && |dat| == |old(dat)|
      ensures h == DeletedHeap(old(h), old(g), l, k) && g == DeletedShape(old(h), old(g), l, k)
    {
      hide Holds, NoLimbo, Fronted, RenderIdx, RenderDat, DatOff, RecText, RecBytes, Pad, Pwrite, DeletedHeap, DeletedShape, Bucket, PtrAt;
      RemoveKeeps(l, k);
      DoDelete(h.heads[FREE]);
      h, g := DeletedHeap(h, g, l, k), DeletedShape(h, g, l, k);
    }

    /** The writes of `DoDelete` turn the files of the heap into those of the heap without the record. */
    lemma RemoveKeeps(l: nat, k: nat)
      requires Valid() && FREE < l && OnList(h, g, l, k)
      requires HandleAt(g.lists[l][k]) && ptroff == PtrOff(g, l, k)
      ensures datlen > 0 && datoff <= |dat| && idxoff <= |idx| && ptroff <= |idx|
      ensures PtrAt(idx, 0, h.heads[FREE]) && h.heads[FREE] <= PTR_MAX && idxoff <= PTR_MAX && 0 <= ptrval <= PTR_MAX
      ensures IDXLEN_MIN <= |RecText(Spaces(|idxbuf|), datoff, datlen)| <= IDXLEN_MAX
      ensures
        var h', g' := DeletedHeap(h, g, l, k), DeletedShape(h, g, l, k);
        var dat' := Pwrite(dat, datoff, DatBytes(Spaces(datlen - 1)));
        var idx1 := Pwrite(idx, idxoff, RecBytes(h.heads[FREE], Spaces(|idxbuf|), datoff, datlen));
        var idx2 := Pwrite(idx1, 0, Pad(PTR_SZ, idxoff));
        && ptroff <= |idx2| && Holds(Pwrite(idx2, ptroff, Pad(PTR_SZ, ptrval)), dat', h', g')
        && NoLimbo(g') && Fronted(h'.recs, g')
        && |Pwrite(idx2, ptroff, Pad(PTR_SZ, ptrval))| == |idx| && |dat'| == |dat|
    {
      ImageFacts();
      hide Inv, NoLimbo, Fronted, RenderIdx, RenderDat, DatOff, RecText, RecBytes, Pad, Pwrite, DeletedHeap, DeletedShape, Good, Bucket, PtrAt, IdxOff;
      DeleteBytes(h, g, l, k);
      DeleteKeeps(h, g, l, k);
      DeletedIsFronted(l, k);
      DeleteSizes(h, g, l, k);
      LinkInFile(h, g, l, k);
      ReadHead(h, FREE);
    }

    lemma DeletedIsFronted(l: nat, k: nat)
      requires Valid() && FREE < l && OnList(h, g, l, k)
      ensures Fronted(DeletedHeap(h, g, l, k).recs, DeletedShape(h, g, l, k))
    {
      assert Placed(h, g);
      hide Placed, Fronted, DeletedHeap, DeletedShape;
      DeleteFronted(h, g, l, k);
    }

    /** `db_delete` removes exactly the key, and says whether it was there. */
    method Delete(key: string) returns (r: Exit<int>)
      requires Valid()
      modifies this
      ensures Valid()
      ensures r == if Closed(old(Contents()), key) then Halted
                   else Done(if key in old(Contents()) then 0 else -1)
      ensures Contents() == if r.Done? then old(Contents()) - {key} else old(Contents())
      ensures |idx| == |old(idx)| && |dat| == |old(dat)|
      ensures r == Done(0) ==> DeletedFits(h, g, |key|, |old(Contents())[key]|)
    {
      hide Inv, NoLimbo, Fronted, Closed, RenderIdx, RenderDat, DatOff, IdxOff, Atol, Bucket, DeletedHeap, DeletedShape, DeletedFits;
      ghost var k;
      var found: Exit<int>;
      found, k := FindAndLock(key);
      if found.Halted? { return Halted; }
      if found.value < 0 { return Done(-1); }
      ValidOnList(ChainOf(key), k);
      ghost var m := Contents();
      DeletedIsFree(ChainOf(key), k);
      RemoveFound(ChainOf(key), k);
      assert Contents() == m - {key};
      return Done(0);
    }

    lemma DeletedIsFree(l: nat, k: nat)
      requires Valid() && FREE < l && OnList(h, g, l, k)
      ensures var r := h.recs[g.lists[l][k]];
        DeletedFits(DeletedHeap(h, g, l, k), DeletedShape(h, g, l, k), |r.key|, |r.data|)
    {
      var i, h', g' := g.lists[l][k], DeletedHeap(h, g, l, k), DeletedShape(h, g, l, k);
      assert |h'.recs| == |g'.own| && g'.own[i] == 0;
      assert |h'.recs[i].key| == |h.recs[i].key| && |h'.recs[i].data| == |h.recs[i].data|;
    }

    lemma ValidOnList(l: nat, k: nat)
      requires Valid() && FREE < l <= NHASH && k < |g.lists[l]|
      ensures OnList(h, g, l, k)
      ensures h.recs[g.lists[l][k]].key in g.loc && g.loc[h.recs[g.lists[l][k]].key] == g.lists[l][k]
      ensures forall key :: key in g.loc ==> g.loc[key] < |h.recs|
      ensures (forall key :: key in DeletedShape(h, g, l, k).loc ==>
        DeletedShape(h, g, l, k).loc[key] < |DeletedHeap(h, g, l, k).recs|)
      ensures View(DeletedHeap(h, g, l, k).recs, DeletedShape(h, g, l, k))
           == View(h.recs, g) - {h.recs[g.lists[l][k]].key}
    {
      assert Placed(h, g);
      hide Holds, NoLimbo, Fronted;
      ListFacts(h, g, l);
      RecordOnChain(h, g, l, k);
      DeleteLists(h, g, l, k);
    }

    // ---------- storing ----------

    /** `_db_findfree`: take a free record of exactly these lengths off the free list, if there is one. */
    method FindFree(keylen: nat, len: nat) returns (rc: int, ghost i: nat)
      requires Valid()
      modifies `idxpos, `idxoff, `ptrval, `idxlen, `idxbuf, `datoff, `datlen, `idx, `h, `g
      ensures rc == 0 || rc == -1
      ensures rc == 0 <==> HasFree(old(h), old(g), keylen, len)
      ensures rc == -1 ==> idx == old(idx) && h == old(h) && g == old(g)
      ensures rc == 0 ==>
        && Synced() && InHand(g, i) && Fronted(h.recs, g) && i < |h.recs| && g.offs[i] <= PTR_MAX
        && idxoff == g.offs[i] && datoff == DatOff(h.recs, i)
        && |h.recs[i].key| == keylen && |h.recs[i].data| + 1 == len
        && g.loc == old(g.loc) && |h.heads| == |old(h.heads)| == NHASH + 1 && h.heads[1..] == old(h.heads)[1..]
        && (forall key :: key in g.loc ==> g.loc[key] < |h.recs| && g.loc[key] < |old(h.recs)|)
        && View(h.recs, g) == View(old(h.recs), old(g)) && |idx| == |old(idx)|
    {
      hide Inv, RenderIdx, RenderDat, Atol, DatOff, NoLimbo, Fronted, Pwrite, Pad, View, FreeMatch;
      var saveoffset: nat;
      var offset: nat;
      ghost var k;
      offset, saveoffset, k := WalkFree(keylen, len);
      if offset == 0 {
        rc, i := -1, 0;
      } else {
        i := g.lists[FREE][k];
        TakeFree(h, g, k);
        TakeFreeBytes(h, g, k);
        TakenIsFronted(k);
        assert FreeMatch(h, g, i, keylen, len);
        var w := WritePtr(saveoffset, ptrval);
        h, g := TakenHeap(h, g, k), TakenShape(h, g, k);
        rc := 0;
      }
    }

    lemma TakenIsFronted(k: nat)
      requires Valid() && OnList(h, g, FREE, k)
      ensures Fronted(TakenHeap(h, g, k).recs, TakenShape(h, g, k))
    {
      assert Placed(h, g);
      hide Placed, Fronted, TakenHeap, TakenShape;
      TakeFreeFronted(h, g, k);
    }

    method WalkFree(keylen: nat, len: nat) returns (offset: nat, saveoffset: nat, ghost k: nat)
      requires Valid()
      modifies `idxpos, `idxoff, `ptrval, `idxlen, `idxbuf, `datoff, `datlen
      ensures Valid()
      ensures offset == 0 ==> !HasFree(h, g, keylen, len)
      ensures offset != 0 ==>
        && OnList(h, g, FREE, k) && HandleAt(g.lists[FREE][k])
        && saveoffset == PtrOff(g, FREE, k)
        && |h.recs[g.lists[FREE][k]].key| == keylen && |h.recs[g.lists[FREE][k]].data| + 1 == len
    {
      hide Inv, NoLimbo, Fronted, RenderIdx, RenderDat, Atol, DatOff, Ref, PtrOff;
      Walkable(h, g, FREE);
      OthersReadable(FREE);
      ghost var list := g.lists[FREE];
      assert idx == RenderIdx(h);
      hide Holds;
      k := 0;
      saveoffset := 0;
      var first := ReadPtr(saveoffset);
      offset := first.value;
      while offset != 0
        invariant Valid()
        invariant k <= |list| && offset == Ref(g.offs, list, k) && saveoffset == PtrOff(g, FREE, k)
        invariant NoFit(h.recs, list, k, keylen, len)
        decreases |list| - k
      {
        assert Position(h, g, FREE, k);
        var nextoffset := ReadListed(offset, list[k]);
        if |idxbuf| == keylen && datlen == len { return; }
        saveoffset := offset;
        offset := nextoffset.value;
        k := k + 1;
      }
      assert Position(h, g, FREE, k);
      FreeListDone(keylen, len);
    }

    lemma FreeListDone(keylen: nat, len: nat)
      requires Valid() && forall j :: 0 <= j < |g.lists[FREE]| ==> g.lists[FREE][j] < |h.recs|
      requires NoFit(h.recs, g.lists[FREE], |g.lists[FREE]|, keylen, len)
      ensures !HasFree(h, g, keylen, len)
    {
      assert Placed(h, g);
      hide Holds, NoLimbo, Fronted, Inv, Placed;
      FreeListComplete(h, g, keylen, len);
    }

    lemma AtEnd(image: string, b: string)
      ensures Pwrite(image, |image|, b) == image + b && image <= image + b
    {
    }

    /** The three writes that add a record at the ends of both files and link it. */
    method AppendRecord(key: string, data: string, head: nat) returns (r: Exit<()>)
      requires chainoff <= |idx|
      modifies `dat, `datoff, `datlen, `idx, `idxpos, `idxoff, `idxbuf, `ptrval
      ensures r.Done? <==>
        && head <= PTR_MAX && |old(idx)| <= PTR_MAX
        && IDXLEN_MIN <= |RecText(key, |old(dat)|, |data| + 1)| <= IDXLEN_MAX
      ensures r.Done? ==>
        && dat == old(dat) + DatBytes(data)
        && idx == Pwrite(old(idx) + RecBytes(head, key, |old(dat)|, |data| + 1), chainoff, Pad(PTR_SZ, |old(idx)|))
      ensures r.Halted? ==> old(idx) <= idx && old(dat) <= dat
    {
      hide RecText, RecBytes, Pad, Pwrite, DatBytes;
      AtEnd(dat, DatBytes(data));
      AtEnd(idx, RecBytes(head, key, |dat|, |data| + 1));
      WriteDat(data, 0, true);
      var _ :- WriteIdx(key, 0, true, head);
      r := WritePtr(chainoff, idxoff);
    }

    /** The three writes that fill a record taken off the free list and link it. */
    method FillRecord(key: string, data: string, head: nat)
      requires datoff <= |dat| && idxoff <= |idx| && idxoff <= PTR_MAX && chainoff <= |idx| && head <= PTR_MAX
      requires IDXLEN_MIN <= |RecText(key, datoff, |data| + 1)| <= IDXLEN_MAX
      modifies `dat, `datoff, `datlen, `idx, `idxpos, `idxoff, `idxbuf, `ptrval
      ensures dat == Pwrite(old(dat), old(datoff), DatBytes(data))
      ensures var idx1 := Pwrite(old(idx), old(idxoff), RecBytes(head, key, old(datoff), |data| + 1));
        chainoff <= |idx1| && idx == Pwrite(idx1, chainoff, Pad(PTR_SZ, old(idxoff)))
    {
      hide RecText, RecBytes, Pad;
      WriteDat(data, datoff, false);
      var w := WriteIdx(key, idxoff, false, head);
      w := WritePtr(chainoff, idxoff);
    }

    method InsertAtEnd(key: string, data: string, head: nat) returns (r: Exit<()>)
      requires Valid() && Text(key) && DataText(data) && key !in g.loc && !Closed(Contents(), key)
      requires chainoff == PTR_SZ * ChainOf(key) && |h.heads| == NHASH + 1 && head == h.heads[ChainOf(key)]
      modifies `dat, `datoff, `datlen, `idx, `idxpos, `idxoff, `idxbuf, `ptrval, `h, `g
      ensures r.Done? <==> CanAppend(old(h), key, data)
      ensures r.Done? ==> Valid() && Contents() == old(Contents())[key := data]
      ensures r.Done? ==> |idx| <= |old(idx)| + RECORD_MAX && |dat| == |old(dat)| + |data| + 1
      ensures r.Halted? ==> Left() && Survivors() == old(Contents())
    {
      hide Inv, NoLimbo, Fronted, Closed, RenderIdx, RenderDat, RecText, RecBytes, Pad, Pwrite, AppendedHeap, AppendedShape, View, Bucket;
      HeadFits(ChainOf(key));
      if CanAppend(h, key, data) {
        AppendKeeps(key, data);
        AppendedIsFronted(key, data);
      }
      r := AppendRecord(key, data, head);
      if r.Done? {
        h, g := AppendedHeap(h, key, data), AppendedShape(h, g, key, data);
      }
    }

    lemma HeadFits(l: nat)
      requires Valid() && l <= NHASH
      ensures |h.heads| == NHASH + 1 && h.heads[l] <= PTR_MAX && PTR_SZ * l <= |idx|
      ensures PtrAt(idx, PTR_SZ * l, h.heads[l])
    {
      hide RenderIdx, RenderDat, Placed, GoodRecs, NoLimbo, Fronted, PtrAt;
      SetHead(h, l, 0);
      ReadHead(h, l);
    }

    lemma AppendedIsFronted(key: string, data: string)
      requires Valid() && !Closed(Contents(), key)
      ensures Sized(h, g) && Fronted(AppendedHeap(h, key, data).recs, AppendedShape(h, g, key, data))
    {
      assert Placed(h, g);
      hide Placed, Fronted, Closed, Foul, AppendedHeap, AppendedShape, Bucket;
      ClosedIsFoul(h, g, key);
      AppendFronted(h, g, key, data);
    }

    lemma AppendKeeps(key: string, data: string)
      requires Valid() && Text(key) && DataText(data) && key !in g.loc && CanAppend(h, key, data)
      requires |h.heads| == NHASH + 1
      ensures Sized(h, g)
      ensures var l, h', g' := ChainOf(key), AppendedHeap(h, key, data), AppendedShape(h, g, key, data);
        var w1 := idx + RecBytes(h.heads[l], key, |dat|, |data| + 1);
        && PTR_SZ * l <= |w1| && Inv(h', g') && NoLimbo(g')
        && (forall k :: k in g'.loc ==> g'.loc[k] < |h'.recs|)
        && (forall k :: k in g.loc ==> g.loc[k] < |h.recs|)
        && View(h'.recs, g') == View(h.recs, g)[key := data]
        && RenderDat(h'.recs) == dat + DatBytes(data)
        && Pwrite(w1, PTR_SZ * l, Pad(PTR_SZ, |idx|)) == RenderIdx(h')
        && |RenderIdx(h')| <= |idx| + RECORD_MAX
    {
      hide RenderIdx, RenderDat, Placed, Fronted, Good, RecText, RecBytes, Pad, Pwrite, IdxOff;
      KeysInRange(h, g);
      AppendLists(h, g, key, data);
      AppendBytes(h, g, key, data);
    }

    method InsertInFree(key: string, data: string, head: nat, ghost i: nat)
      requires Synced() && InHand(g, i) && i < |h.recs| && Text(key) && DataText(data) && key !in g.loc
      requires |key| == |h.recs[i].key| && |data| == |h.recs[i].data| && g.offs[i] <= PTR_MAX
      requires idxoff == g.offs[i] && datoff == DatOff(h.recs, i)
      requires chainoff == PTR_SZ * ChainOf(key) && |h.heads| == NHASH + 1 && head == h.heads[ChainOf(key)]
      requires forall k :: k in g.loc ==> g.loc[k] < |h.recs|
      requires Fronted(h.recs, g) && !Closed(View(h.recs, g), key)
      modifies `dat, `datoff, `datlen, `idx, `idxpos, `idxoff, `idxbuf, `ptrval, `h, `g
      ensures Valid() && Contents() == View(old(h.recs), old(g))[key := data]
      ensures |idx| == |old(idx)| && |dat| == |old(dat)|
    {
      hide Holds, NoLimbo, Fronted, Closed, RenderIdx, RenderDat, RecText, RecBytes, Pad, Pwrite, FilledHeap, FilledShape, View, Bucket, DatOff;
      FillKeeps(i, key, data);
      FilledIsFronted(i, key, data);
      FillRecord(key, data, head);
      h, g := FilledHeap(h, g, i, key, data), FilledShape(h, g, i, key, data);
    }

    lemma FilledIsFronted(i: nat, key: string, data: string)
      requires Synced() && InHand(g, i) && i < |h.recs| && Fronted(h.recs, g)
      requires forall k :: k in g.loc ==> g.loc[k] < |h.recs|
      requires !Closed(View(h.recs, g), key)
      ensures Sized(h, g) && Fronted(FilledHeap(h, g, i, key, data).recs, FilledShape(h, g, i, key, data))
    {
      assert Placed(h, g);
      hide Placed, Fronted, Closed, Foul, FilledHeap, FilledShape, Bucket;
      ClosedIsFoul(h, g, key);
      FillFronted(h, g, i, key, data);
    }

    lemma FillKeeps(i: nat, key: string, data: string)
      requires Synced() && InHand(g, i) && i < |h.recs| && Text(key) && DataText(data) && key !in g.loc
      requires |key| == |h.recs[i].key| && |data| == |h.recs[i].data| && g.offs[i] <= PTR_MAX
      requires |h.heads| == NHASH + 1
      ensures Sized(h, g) && PTR_SZ * ChainOf(key) <= |idx|
      ensures var l, h', g' := ChainOf(key), FilledHeap(h, g, i, key, data), FilledShape(h, g, i, key, data);
        && NoLimbo(g')
        && (forall k :: k in g'.loc ==> g'.loc[k] < |h'.recs|)
        && (forall k :: k in g.loc ==> g.loc[k] < |h.recs|)
        && View(h'.recs, g') == View(h.recs, g)[key := data]
        && h.heads[l] <= PTR_MAX && g.offs[i] <= |idx| && DatOff(h.recs, i) <= |dat|
        && IDXLEN_MIN <= |RecText(key, DatOff(h.recs, i), |data| + 1)| <= IDXLEN_MAX
        && var w1 := Pwrite(idx, g.offs[i], RecBytes(h.heads[l], key, DatOff(h.recs, i), |data| + 1));
           && PTR_SZ * l <= |w1|
           && var idx', dat' := Pwrite(w1, PTR_SZ * l, Pad(PTR_SZ, g.offs[i])), Pwrite(dat, DatOff(h.recs, i), DatBytes(data));
              Holds(idx', dat', h', g') && |idx'| == |idx| && |dat'| == |dat|
    {
      hide RenderIdx, RenderDat, Placed, Good, RecText, RecBytes, Pad, Pwrite, IdxOff, DatOff;
      KeysInRange(h, g);
      FillLists(h, g, i, key, data);
      FillBytes(h, g, i, key, data);
      FillSizes(h, g, i, key, data);
      SetHead(h, ChainOf(key), 0);
    }

    /** `db_store`, for any key. It ends the process exactly when the data has a bad length, when the
        chain holds a key with a separator, or when a record has to be appended and cannot be; then the
        files keep the map, but for the key if its old record was already deleted. Otherwise it returns
        the code and leaves the map the flag calls for. */
    method Store(key: string, data: string, flag: int) returns (r: Exit<int>)
      requires Valid() && Text(key) && Text(data)
      modifies this
      ensures r.Halted? <==>
        && StoreFlag(flag)
        && (|| !DataText(data) || Closed(old(Contents()), key)
            || (MustAppend(old(h), old(g), key, data, flag) && !CanAppend(old(h), key, data)))
      ensures r.Done? ==> Valid()
      ensures r.Done? ==> r.value == StoreCode(old(Contents()), key, flag)
      ensures r.Done? ==> Contents() == StoreView(old(Contents()), key, data, flag)
      ensures r.Done? ==> |idx| <= |old(idx)| + RECORD_MAX && |dat| <= |old(dat)| + DATLEN_MAX
      ensures r.Halted? ==> Left()
      ensures r.Halted? ==>
        Survivors() == StoreHalted(old(Contents()), key, data)
      ensures flag < 1 || flag > 3 ==> r == Done(-1) && dat == old(dat)
      ensures 1 <= flag <= 3 && (|data| == 0 || |data| > 1023) ==> r.Halted?
      ensures r == Done(0) ==>
        |dat| - |old(dat)| == if Spare(old(Contents()), old(h), old(g), key, |data|) then 0 else |data| + 1
    {
      hide Inv, NoLimbo, Fronted, Closed, RenderIdx, RenderDat, Atol, DatOff, IdxOff, Bucket, PtrOff, HasFree, CanAppend, DeletedFits;
      ValidIsLeft();
      if flag != DB_INSERT && flag != DB_REPLACE && flag != DB_STORE { return Done(-1); }
      var len := |data| + 1;
      if len < DATLEN_MIN || len > DATLEN_MAX { return Halted; }
      ghost var k;
      var found: Exit<int>;
      found, k := FindAndLock(key);
      ValidIsLeft();
      if found.Halted? { return Halted; }
      if found.value < 0 {
        if flag == DB_REPLACE { return Done(-1); }
        r := StoreNew(key, data);
      } else {
        if flag == DB_INSERT { return Done(1); }
        ValidOnList(ChainOf(key), k);
        r := StoreOver(key, data, k);
      }
    }

    /** `db_store` from "record not found" on. */
    method StoreNew(key: string, data: string) returns (r: Exit<int>)
      requires Valid() && Text(key) && DataText(data) && key !in g.loc && !Closed(Contents(), key)
      requires chainoff == PTR_SZ * ChainOf(key)
      modifies this
      ensures r.Done? ==> r.value == 0 && Valid() && Contents() == old(Contents())[key := data]
      ensures r.Done? ==> |idx| <= |old(idx)| + RECORD_MAX && |dat| <= |old(dat)| + DATLEN_MAX
      ensures r.Done? ==> |dat| == |old(dat)| + if DeletedFits(old(h), old(g), |key|, |data|) then 0 else |data| + 1
      ensures r.Halted? <==> !HasFree(old(h), old(g), |key|, |data| + 1) && !CanAppend(old(h), key, data)
      ensures r.Halted? ==> Left() && Survivors() == old(Contents())
    {
      hide Inv, NoLimbo, Fronted, Closed, RenderIdx, RenderDat, Atol, DatOff, IdxOff, Bucket, PtrOff, HasFree, CanAppend, View, DeletedFits;
      SizesAgree();
      FreeIsDeleted(h, g, |key|, |data|);
      HeadFits(ChainOf(key));
      var head := ReadPtr(chainoff);
      var rc;
      ghost var i;
      rc, i := FindFree(|key|, |data| + 1);
      if rc < 0 {
        var _ :- InsertAtEnd(key, data, head.value);
      } else {
        assert h.heads[ChainOf(key)] == h.heads[1..][ChainOf(key) - 1];
        InsertInFree(key, data, head.value, i);
      }
      r := Done(0);
    }

    /** `db_store` from "record found" on; the record is at position `k` of its chain. */
    method StoreOver(key: string, data: string, ghost k: nat) returns (r: Exit<int>)
      requires Valid() && Text(key) && DataText(data) && key in g.loc && !Closed(Contents(), key)
      requires OnList(h, g, ChainOf(key), k) && g.lists[ChainOf(key)][k] == g.loc[key]
      requires chainoff == PTR_SZ * ChainOf(key) && ptroff == PtrOff(g, ChainOf(key), k)
      requires HandleAt(g.loc[key]) && idxbuf == key
      modifies this
      ensures r.Done? ==> r.value == 0 && Valid() && Contents() == old(Contents())[key := data]
      ensures r.Done? ==> |idx| <= |old(idx)| + RECORD_MAX && |dat| <= |old(dat)| + DATLEN_MAX
      ensures r.Done? ==> |dat| == |old(dat)| + if |data| == |old(Contents())[key]| then 0 else |data| + 1
      ensures r.Halted? <==> |data| != |DataOf(old(h.recs), old(g), key)| && !CanAppend(old(h), key, data)
      ensures r.Halted? ==> Left() && Survivors() == old(Contents()) - {key}
    {
      hide Inv, NoLimbo, Fronted, Closed, RenderIdx, RenderDat, Atol, DatOff, IdxOff, Bucket, PtrOff, CanAppend, DeletedHeap, DeletedShape;
      if |data| + 1 != datlen {
        ValidOnList(ChainOf(key), k);
        ghost var m := Contents();
        CanStillAppend(ChainOf(key), k, key, data);
        RemoveFound(ChainOf(key), k);
        assert Contents() == m - {key};
        FewerKeys(m, key);
        HeadFits(ChainOf(key));
        var head := ReadPtr(chainoff);
        var _ :- InsertAtEnd(key, data, head.value);
        assert Contents() == (m - {key})[key := data] == m[key := data];
      } else {
        OverwriteKeeps(key, data);
        WriteDat(data, datoff, false);
        h := h.(recs := h.recs[g.loc[key] := h.recs[g.loc[key]].(data := data)]);
      }
      r := Done(0);
    }

    lemma SizesAgree()
      requires Valid()
      ensures |h.recs| == |g.own|
    {
    }

    lemma FewerKeys(m: map<string, string>, key: string)
      requires !Closed(m, key)
      ensures !Closed(m - {key}, key)
    {
    }

    lemma CanStillAppend(l: nat, k: nat, key: string, data: string)
      requires Valid() && FREE < l && OnList(h, g, l, k)
      ensures CanAppend(DeletedHeap(h, g, l, k), key, data) == CanAppend(h, key, data)
    {
      hide NoLimbo, Fronted, Placed, RenderIdx, RenderDat, IdxOff, DatOff, Good, RecText, DeletedHeap;
      DeleteSizes(h, g, l, k);
    }

    lemma OverwrittenIsFronted(recs: seq<Rec>, i: nat, data: string)
      requires Fronted(recs, g) && i < |recs|
      ensures Fronted(recs[i := recs[i].(data := data)], g)
    {
    }

    lemma OverwriteKeeps(key: string, data: string)
      requires Valid() && key in g.loc && g.loc[key] < |h.recs| && DataText(data)
      requires |data| == |h.recs[g.loc[key]].data|
      ensures var i := g.loc[key];
        var h' := h.(recs := h.recs[i := h.recs[i].(data := data)]);
        && Inv(h', g) && Fronted(h'.recs, g) && RenderIdx(h') == idx && DatOff(h.recs, i) <= |dat|
        && (forall k :: k in g.loc ==> g.loc[k] < |h.recs|)
        && View(h'.recs, g) == View(h.recs, g)[key := data]
        && Pwrite(dat, DatOff(h.recs, i), DatBytes(data)) == RenderDat(h'.recs)
        && |RenderDat(h'.recs)| == |dat|
    {
      OverwrittenIsFronted(h.recs, g.loc[key], data);
      hide NoLimbo, Fronted, Placed, RenderIdx, RenderDat, IdxOff, DatOff, Pwrite, GoodRecs;
      KeysInRange(h, g);
      Overwrite(h, g, key, data);
      WriteDataOnly(h, g, g.loc[key], data);
      SameFileSizes(h, h.(recs := h.recs[g.loc[key] := h.recs[g.loc[key]].(data := data)]));
    }

    // ---------- reading every record ----------

    method Rewind()
      modifies `idxoff, `idxpos
      ensures idxpos == BASE
    {
      idxoff := (NHASH + 1) * PTR_SZ + 1;
      idxpos := idxoff;
    }

    /** The index descriptor stands at the start of record `c`, or at the end of the file. */
    ghost predicate Cursor(c: nat)
      reads this
    {
      c <= |h.recs| && idxpos == IdxOff(h.recs, c)
    }

    lemma CursorAtStart()
      requires Valid() && idxpos == BASE
      ensures Cursor(0)
    {
    }

    lemma ImageFacts()
      requires Valid()
      ensures Good(h) && idx == RenderIdx(h) && dat == RenderDat(h.recs) && |g.offs| == |h.recs|
      ensures forall i :: 0 <= i < |h.recs| ==> g.offs[i] == IdxOff(h.recs, i)
    {
    }

    /** One `_db_readidx(db, 0)` of `db_nextrec`. */
    method ReadSequential(ghost c: nat) returns (r: Exit<int>)
      requires Valid() && Cursor(c)
      modifies `idxpos, `idxoff, `ptrval, `idxlen, `idxbuf, `datoff, `datlen
      ensures Valid()
      ensures c == |h.recs| ==> r == Done(-1) && Cursor(c)
      ensures c < |h.recs| ==> if SEP in h.recs[c].key then r == Halted
                               else r.Done? && r.value >= 0 && HandleAt(c) && Cursor(c + 1)
    {
      hide Inv, Holds, RenderDat, DatOff, Atol, Good, RenderIdx, NoLimbo, Fronted, IdxOff, ParseIdx, TextAt;
      ImageFacts();
      SequentialRead(h, c);
      IdxOffPositive(h.recs, c);
      r := ReadIdx(0);
    }

    /** `db_nextrec`: the next record in file order whose key is not all blank, starting at record
        `c`; `c'` is where it leaves off. A record whose key has a separator ends the process. */
    method NextRec(ghost c: nat) returns (r: Exit<Option<(string, string)>>, ghost c': nat)
      requires Valid() && Cursor(c)
      modifies `idxpos, `idxoff, `ptrval, `idxlen, `idxbuf, `datoff, `datlen, `datbuf
      ensures Valid() && c <= c'
      ensures r.Halted? <==> Listing(h.recs, c) != [] && SEP in Listing(h.recs, c)[0].0
      ensures r.Done? ==> Cursor(c')
      ensures r == Done(None) ==> Listing(h.recs, c) == [] && c' == |h.recs|
      ensures r.Done? && r.value.Some? ==>
        Listing(h.recs, c) == [r.value.value] + Listing(h.recs, c') && c < c'
      ensures r.Done? && r.value.Some? ==>
        && (exists k :: 0 <= k < |r.value.value.0| && r.value.value.0[k] != ' ')
        && c < c' <= |h.recs| && r.value.value == (h.recs[c' - 1].key, h.recs[c' - 1].data)
      ensures r.Done? ==>
        forall i, k :: c <= i < (if r.value.Some? then c' - 1 else c') && i < |h.recs| && 0 <= k < |h.recs[i].key| ==>
          h.recs[i].key[k] == ' '
    {
      hide Inv, NoLimbo, Fronted, RenderDat, DatOff, RenderIdx, IdxOff, Atol;
      c' := c;
      while true
        invariant Valid() && Cursor(c') && c <= c'
        invariant Listing(h.recs, c) == Listing(h.recs, c')
        invariant forall i, k :: c <= i < c' && i < |h.recs| && 0 <= k < |h.recs[i].key| ==> h.recs[i].key[k] == ' '
        decreases |h.recs| - c'
      {
        var next :- ReadSequential(c');
        if next < 0 { return Done(None), c'; }
        c' := c' + 1;
        var blank := AllBlank(idxbuf);
        if !blank { break; }
      }
      ReadData(h.recs, c' - 1);
      var data := ReadDat();
      r := Done(Some((idxbuf, data.value)));
    }
  }

  lemma IdxOffPositive(recs: seq<Rec>, c: nat)
    requires c <= |recs|
    ensures IdxOff(recs, c) >= BASE > 0
  {
  }

  /** The scan of `db_nextrec` over a key. */
  method AllBlank(key: string) returns (b: bool)
    ensures b <==> forall k :: 0 <= k < |key| ==> key[k] == ' '
    ensures b == Blank(key)
  {
    var i := 0;
    while i < |key| && key[i] == ' '
      invariant i <= |key| && forall k :: 0 <= k < i ==> key[k] == ' '
    {
      i := i + 1;
    }
    b := i == |key|;
  }

  /** The records from number `c` on whose key is not blank, with their data, in file order. */
  function Listing(recs: seq<Rec>, c: nat): seq<(string, string)>
    decreases |recs| - c
  {
    if c >= |recs| then []
    else if Blank(recs[c].key) then Listing(recs, c + 1)
    else [(recs[c].key, recs[c].data)] + Listing(recs, c + 1)
  }
}
