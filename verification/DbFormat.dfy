/** The text format of the index file: fixed-width pointer fields, a hash table of pointers,
    then variable-length records; and the data file beside it. */
module DbFormat {
  import opened CStrings
  import opened Decimal

  const PTR_SZ: nat := 7
  const IDXLEN_SZ: nat := 4
  const PTR_MAX: nat := 9999999
  const NHASH: nat := 137
  const IDXLEN_MIN: nat := 6
  const IDXLEN_MAX: nat := 1024
  const DATLEN_MIN: nat := 2
  const DATLEN_MAX: nat := 1024
  const SEP: char := ':'
  /** First byte after the free-list pointer, the hash table and its newline. */
  const BASE: nat := (NHASH + 1) * PTR_SZ + 1

  /** A library call either returns, or ends the process in `err_dump`/`err_quit`. */
  datatype Exit<+T> = Done(value: T) | Halted {
    predicate IsFailure() { Halted? }

    function PropagateFailure<U>(): Exit<U>
      requires Halted?
    {
      Halted
    }

    function Extract(): T
      requires Done?
    {
      value
    }
  }

  // ---------- C strings and file images ----------

  /** `strchr`: index of the first `c`, or the length when there is none. */
  function Strchr(s: string, c: char): (k: nat)
    ensures k <= |s| && forall j :: 0 <= j < k ==> s[j] != c
    ensures k < |s| ==> s[k] == c
    ensures k < |s| <==> c in s
  {
    if s == [] || s[0] == c then 0 else 1 + Strchr(s[1..], c)
  }

  /** `lseek` to `off`, then `write`: bytes past the end extend the file. */
  function Pwrite(image: string, off: nat, b: string): (r: string)
    requires off <= |image|
    ensures |r| == if off + |b| < |image| then |image| else off + |b|
  {
    image[..off] + b + (if off + |b| < |image| then image[off + |b|..] else "")
  }

  predicate HasAt(image: string, off: nat, b: string) {
    off + |b| <= |image| && image[off..off + |b|] == b
  }

  // ---------- one index record ----------

  /** What `_db_writeidx` prints after the two fixed-width fields. */
  function RecText(key: string, datoff: nat, datlen: nat): string {
    key + [SEP] + Dec(datoff) + [SEP] + Dec(datlen) + "\n"
  }

  function RecBytes(next: nat, key: string, datoff: nat, datlen: nat): string {
    Pad(PTR_SZ, next) + Pad(IDXLEN_SZ, |RecText(key, datoff, datlen)|) + RecText(key, datoff, datlen)
  }

  /** A record: seven columns for the pointer, four for the length of the text, and the text. */
  lemma RecordLooks()
    ensures RecBytes(0, "Alpha", 0, 6) == "      0  10Alpha:0:6\n"
  {
    assert Dec(0) == "0" && Dec(6) == "6" && Dec(10) == Dec(1) + "0" && Dec(1) == "1";
    assert RecText("Alpha", 0, 6) == "Alpha:0:6\n";
    assert Spaces(6) == "      " && Spaces(2) == "  ";
  }

  /** What `_db_readidx` leaves in the handle. */
  datatype IdxFields = IdxFields(next: int, len: nat, key: string, datoff: int, datlen: int)

  /** `_db_readidx` after the first separator: data offset and length. */
  function ParseRange(next: int, len: nat, key: string, rest: string): (r: Exit<IdxFields>)
    ensures r.Done? ==> r.value.next == next && r.value.len == len && r.value.datoff >= 0 && r.value.datlen > 0
  {
    var p2 := Strchr(rest, SEP);
    if p2 == |rest| then Halted else
    var last := rest[p2 + 1..];
    if SEP in last then Halted else
    if Atol(rest[..p2]) < 0 then Halted else
    if Atol(last) <= 0 || Atol(last) > DATLEN_MAX then Halted else
    Done(IdxFields(next, len, key, Atol(rest[..p2]), Atol(last)))
  }

  /** `_db_readidx` from the separators on: `text` is the variable-length part just read. */
  function ParseText(next: int, text: string): (r: Exit<IdxFields>)
    ensures r.Done? ==> r.value.next == next && r.value.len == |text| && r.value.datoff >= 0 && r.value.datlen > 0
  {
    if text == "" || text[|text| - 1] != '\n' then Halted else
    var body := CString(text[..|text| - 1]);
    var p1 := Strchr(body, SEP);
    if p1 == |body| then Halted else
    ParseRange(next, |text|, body[..p1], body[p1 + 1..])
  }

  /** The two reads of `_db_readidx`: chain pointer and length, then that many bytes of text. */
  function IdxText(image: string, off: nat): (r: Exit<(int, string)>)
    ensures r.Done? ==> r.value.1 != ""
  {
    if off + PTR_SZ + IDXLEN_SZ > |image| then Halted else
    var start := off + PTR_SZ + IDXLEN_SZ;
    var len := Atol(image[off + PTR_SZ..start]);
    if len < IDXLEN_MIN || len > IDXLEN_MAX || start + len > |image| then Halted else
    Done((Atol(image[off..off + PTR_SZ]), image[start..start + len]))
  }

  /** `_db_readidx` on an index image, for a record known to start before the end of file. */
  function ParseIdx(image: string, off: nat): Exit<IdxFields> {
    var (next, text) :- IdxText(image, off);
    ParseText(next, text)
  }

  lemma {:induction false} StrchrAfter(a: string, c: char, b: string)
    requires c !in a
    ensures Strchr(a + [c] + b, c) == |a|
  {
    if a != [] {
      assert (a + [c] + b)[1..] == a[1..] + [c] + b;
      assert a[0] in a;
      StrchrAfter(a[1..], c, b);
    }
  }

  lemma DigitsAreClean(s: string)
    requires AllDigits(s)
    ensures SEP !in s && Text(s)
  {
  }

  lemma ParseGoodRange(next: int, len: nat, key: string, datoff: nat, datlen: nat)
    requires 0 < datlen <= DATLEN_MAX
    ensures ParseRange(next, len, key, Dec(datoff) + [SEP] + Dec(datlen))
         == Done(IdxFields(next, len, key, datoff, datlen))
  {
    var a, b := Dec(datoff), Dec(datlen);
    var rest := a + [SEP] + b;
    DigitsAreClean(a);
    DigitsAreClean(b);
    StrchrAfter(a, SEP, b);
    assert rest[..|a|] == a && rest[|a| + 1..] == b;
    AtolOfDec(datoff);
    AtolOfDec(datlen);
    hide Atol, Dec, Strchr;
  }

  lemma ParseGoodText(next: int, key: string, datoff: nat, datlen: nat)
    requires Text(key) && SEP !in key && 0 < datlen <= DATLEN_MAX
    ensures ParseText(next, RecText(key, datoff, datlen))
         == Done(IdxFields(next, |RecText(key, datoff, datlen)|, key, datoff, datlen))
  {
    hide Dec, ParseRange;
    var text := RecText(key, datoff, datlen);
    var rest := Dec(datoff) + [SEP] + Dec(datlen);
    DigitsAreClean(Dec(datoff));
    DigitsAreClean(Dec(datlen));
    var body := text[..|text| - 1];
    assert body == key + [SEP] + rest;
    CStringIs(body, body);
    StrchrAfter(key, SEP, rest);
    assert body[..|key|] == key && body[|key| + 1..] == rest;
    ParseGoodRange(next, |text|, key, datoff, datlen);
  }

  lemma SecondSeparator(a: string, b: string)
    requires SEP in b
    ensures var s := a + [SEP] + b; Strchr(s, SEP) < |s| && SEP in s[Strchr(s, SEP) + 1..]
  {
    var s := a + [SEP] + b;
    var q := Strchr(s, SEP);
    assert s[|a|] == SEP;
    var j :| 0 <= j < |b| && b[j] == SEP;
    assert s[|a| + 1 + j] == SEP;
    assert s[q + 1..][|a| + j - q] == SEP;
  }

  lemma TooManySeparators(k1: string, k2: string, t: string)
    requires Text(k1) && Text(k2) && Text(t) && SEP !in k1 && SEP in t
    ensures ParseText(0, k1 + [SEP] + (k2 + [SEP] + t) + "\n").Halted?
  {
    var body := k1 + [SEP] + (k2 + [SEP] + t);
    assert (body + "\n")[..|body|] == body;
    CStringIs(body, body);
    StrchrAfter(k1, SEP, k2 + [SEP] + t);
    assert body[|k1| + 1..] == k2 + [SEP] + t;
    SecondSeparator(k2, t);
  }

  /** A key with a separator in it makes the record unreadable. */
  lemma ParseBadText(next: int, key: string, datoff: nat, datlen: nat)
    requires Text(key) && SEP in key
    ensures ParseText(next, RecText(key, datoff, datlen)) == Halted
  {
    var a, b := Dec(datoff), Dec(datlen);
    DigitsAreClean(a);
    DigitsAreClean(b);
    var p := Strchr(key, SEP);
    var k1, k2 := key[..p], key[p + 1..];
    var t := a + [SEP] + b;
    assert t[|a|] == SEP;
    assert RecText(key, datoff, datlen) == k1 + [SEP] + (k2 + [SEP] + t) + "\n";
    TooManySeparators(k1, k2, t);
  }

  lemma RecBytesParts(next: nat, key: string, datoff: nat, datlen: nat)
    requires next <= PTR_MAX && |RecText(key, datoff, datlen)| <= IDXLEN_MAX
    ensures var b := RecBytes(next, key, datoff, datlen);
      && |b| == PTR_SZ + IDXLEN_SZ + |RecText(key, datoff, datlen)|
      && b[..PTR_SZ] == Pad(PTR_SZ, next)
      && b[PTR_SZ..PTR_SZ + IDXLEN_SZ] == Pad(IDXLEN_SZ, |RecText(key, datoff, datlen)|)
      && b[PTR_SZ + IDXLEN_SZ..] == RecText(key, datoff, datlen)
  {
    PtrWidth(next);
    LenWidth(|RecText(key, datoff, datlen)|);
  }

  lemma PtrWidth(p: nat)
    requires p <= PTR_MAX
    ensures |Pad(PTR_SZ, p)| == PTR_SZ
  {
    assert Pow10(7) == 10000000 by {
      assert Pow10(3) == 1000;
      assert Pow10(5) == 100000;
    }
    PadWidth(PTR_SZ, p);
  }

  lemma LenWidth(len: nat)
    requires len <= IDXLEN_MAX
    ensures |Pad(IDXLEN_SZ, len)| == IDXLEN_SZ
  {
    assert Pow10(4) == 10000;
    PadWidth(IDXLEN_SZ, len);
  }

  lemma SubSlice(s: string, a: nat, b: nat, c: nat, d: nat)
    requires a <= b <= |s| && c <= d <= b - a
    ensures s[a..b][c..d] == s[a + c..a + d]
  {
    var t, u := s[a..b][c..d], s[a + c..a + d];
    assert forall k :: 0 <= k < |t| ==> t[k] == u[k];
    assert t == u;
  }

  lemma ReadBackText(image: string, off: nat, next: nat, key: string, datoff: nat, datlen: nat)
    requires next <= PTR_MAX && IDXLEN_MIN <= |RecText(key, datoff, datlen)| <= IDXLEN_MAX
    requires HasAt(image, off, RecBytes(next, key, datoff, datlen))
    ensures IdxText(image, off) == Done((next, RecText(key, datoff, datlen)))
  {
    var b := RecBytes(next, key, datoff, datlen);
    var text := RecText(key, datoff, datlen);
    RecBytesParts(next, key, datoff, datlen);
    var start := off + PTR_SZ + IDXLEN_SZ;
    SubSlice(image, off, off + |b|, 0, PTR_SZ);
    SubSlice(image, off, off + |b|, PTR_SZ, PTR_SZ + IDXLEN_SZ);
    SubSlice(image, off, off + |b|, PTR_SZ + IDXLEN_SZ, |b|);
    AtolOfPad(PTR_SZ, next);
    AtolOfPad(IDXLEN_SZ, |text|);
  }

  /** Round trip of the record codec, anywhere in a file: `_db_readidx` recovers exactly what
      `_db_writeidx` printed if the key has no separator, and ends the process if it has one. */
  lemma ReadBackRecord(image: string, off: nat, next: nat, key: string, datoff: nat, datlen: nat)
    requires Text(key) && next <= PTR_MAX && 0 < datlen <= DATLEN_MAX
    requires IDXLEN_MIN <= |RecText(key, datoff, datlen)| <= IDXLEN_MAX
    requires HasAt(image, off, RecBytes(next, key, datoff, datlen))
    ensures ParseIdx(image, off)
         == if SEP in key then Halted
            else Done(IdxFields(next, |RecText(key, datoff, datlen)|, key, datoff, datlen))
  {
    ReadBackText(image, off, next, key, datoff, datlen);
    if SEP in key {
      ParseBadText(next, key, datoff, datlen);
    } else {
      ParseGoodText(next, key, datoff, datlen);
    }
  }
}
