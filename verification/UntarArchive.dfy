/** What the untar stream makes of a whole archive. */
module UntarArchive {
  import opened Options
  import opened CStrings
  import opened Sequences
  import opened TarNumbers
  import opened Untar

  // ---------- calls on any input ----------

  /** The calls of `on_write` hand out each member in whole blocks and a last part: a call that does
      not start a member goes on from the one before it, and one that does not end a member is gone on
      from by the next call, or will be by the machine. */
  predicate Orderly(m: Machine) {
    && (m.status == Content ==> m.info.bytesLeft <= m.info.size)
    && (m.status == Content && m.info.bytesLeft < m.info.size ==>
          m.written != [] && GoesOn(m.written[|m.written| - 1].info, m.info))
    && (forall i :: 0 <= i < |m.written| ==> WholeCall(m.written[i]) && Started(m.written, i))
    && (forall i :: 0 <= i < |m.written| - 1 ==> Continued(m.written[i].info, m.written[i + 1].info))
    && (m.written != [] ==> Unfinished(m.written[|m.written| - 1].info) ==>
          m.status == Content && GoesOn(m.written[|m.written| - 1].info, m.info))
  }

  predicate GoesOn(before: TarInfo, info: TarInfo) {
    before == info.(bytesLeft := info.bytesLeft + BLOCK_SIZE)
  }

  predicate Unfinished(info: TarInfo) {
    info.bytesLeft > BLOCK_SIZE
  }

  predicate Continued(before: TarInfo, info: TarInfo) {
    Unfinished(before) ==> GoesOn(before, info)
  }

  predicate WholeCall(w: Write) {
    && w.info.bytesLeft <= w.info.size
    && |w.content| == if w.info.bytesLeft > BLOCK_SIZE then BLOCK_SIZE else w.info.bytesLeft
  }

  predicate Started(written: seq<Write>, i: nat)
    requires i < |written|
  {
    written[i].info.bytesLeft < written[i].info.size ==> i > 0 && GoesOn(written[i - 1].info, written[i].info)
  }

  lemma ContentIsOrderly(m: Machine, block: string)
    requires |block| == BLOCK_SIZE && Orderly(m) && m.status == Content
    ensures Orderly(Step(m, block))
  {
    var w := Step(m, block).written;
    assert w[..|w| - 1] == m.written;
  }

  lemma StepIsOrderly(m: Machine, block: string)
    requires |block| == BLOCK_SIZE && Orderly(m)
    ensures Orderly(Step(m, block))
  {
    hide Ascii, Base8, CString;
    if m.status == Content {
      ContentIsOrderly(m, block);
    } else {
      assert Step(m, block).written == m.written;
    }
  }

  lemma {:induction false} AnyInputIsOrderly(m: Machine, s: string)
    requires Orderly(m)
    ensures Orderly(Fed(m, s).0)
    decreases |s|
  {
    hide Step, Orderly;
    if |s| >= BLOCK_SIZE && !m.Eof() {
      StepIsOrderly(m, s[..BLOCK_SIZE]);
      AnyInputIsOrderly(Step(m, s[..BLOCK_SIZE]), s[BLOCK_SIZE..]);
    }
  }

  // ---------- archives ----------

  /** The sizes that are read exactly. */
  predicate RightSize(n: nat) {
    n < 587202560 || n == 590671565
  }

  ghost predicate HeaderBlock(block: string, kind: char, size: nat) {
    && |block| == 512 && block[257..262] == "ustar" && block[156] == kind
    && NumberField(block[124..136], size) && RightSize(size)
  }

  /** A block that opens nothing where a header is expected: not all zeros, and neither the header of a
      regular file nor that of a long name. Directories and links are such blocks. */
  predicate OtherBlock(block: string) {
    && |block| == 512 && (exists i :: 0 <= i < 512 && block[i] != '\0')
    && (block[257..262] == "ustar" ==> block[156] != '0' && block[156] != 'L')
  }

  predicate OtherBlocks(blocks: seq<string>) {
    forall i :: 0 <= i < |blocks| ==> OtherBlock(blocks[i])
  }

  /** A string in a header field, ended by a NUL within the field. */
  predicate StringField(block: string, at: nat, width: nat, s: string)
    requires at + width <= |block|
  {
    |s| < width && '\0' !in s && block[at..at + |s|] == s && block[at + |s|] == '\0'
  }

  /** Blocks that start with `size` bytes. */
  predicate Blocks(data: string, size: nat) {
    |data| % 512 == 0 && size <= |data| < size + 512
  }

  /** A GNU long name: a header, and blocks that hold the name, ended by a NUL or not, and then NULs;
      `others` stand between it and the header of the file. */
  datatype LongNameEntry = LongNameEntry(header: string, size: nat, data: string, others: seq<string>)

  ghost predicate GoodLongName(long: LongNameEntry, name: string) {
    && HeaderBlock(long.header, 'L', long.size) && 0 < long.size && NameBlocks(long.data, long.size, name)
    && OtherBlocks(long.others)
  }

  predicate NameBlocks(data: string, size: nat, name: string) {
    && (size == |name| || size == |name| + 1) && Blocks(data, size)
    && name <= data && forall i :: |name| <= i < |data| ==> data[i] == NUL
  }

  /** A regular file in an archive, and the blocks that stand for it; `others` are those in front of it. */
  datatype Member = Member(name: string, content: string, gname: string, others: seq<string>,
                           long: Option<LongNameEntry>, header: string, data: string)

  ghost predicate GoodMember(m: Member) {
    && m.content != [] && HeaderBlock(m.header, '0', |m.content|) && '\0' !in m.name
    && StringField(m.header, 297, 32, m.gname) && OtherBlocks(m.others)
    && Blocks(m.data, |m.content|) && m.content <= m.data
    && match m.long
       case None => StringField(m.header, 0, 100, m.name)
       case Some(long) => GoodLongName(long, m.name)
  }

  function Bytes(m: Member): string {
    Concat(m.others)
    + (match m.long
       case None => m.header + m.data
       case Some(long) => long.header + long.data + (Concat(long.others) + (m.header + m.data)))
  }

  /** The members, other blocks after them, and two blocks of zeros. */
  function Archive(members: seq<Member>, others: seq<string>): string {
    if members == [] then Concat(others) + seq(1024, _ => '\0')
    else Bytes(members[0]) + Archive(members[1..], others)
  }

  function Concatenated(calls: seq<Write>): string {
    if calls == [] then "" else calls[0].content + Concatenated(calls[1..])
  }

  /** The calls hand out the member: its name in each, its bytes in all, and its end only in the last. */
  predicate Delivers(calls: seq<Write>, m: Member) {
    && calls != [] && Concatenated(calls) == m.content
    && (forall i :: 0 <= i < |calls| ==>
          calls[i].info.name == m.name && calls[i].info.gname == m.gname && calls[i].info.size == |m.content|)
    && forall i :: 0 <= i < |calls| ==> (calls[i].info.bytesLeft == |calls[i].content| <==> i == |calls| - 1)
  }

  /** The time in each call is the header's octal numeral, read as a decimal one and cut off at the
      largest unsigned int. */
  ghost predicate Timed(calls: seq<Write>, m: Member) {
    && |m.header| == 512
    && forall i, t: nat :: 0 <= i < |calls| && NumberField(m.header[136..148], t) ==>
         calls[i].info.mtime == if AsDecimal(t) > 4294967295 then 4294967295 else AsDecimal(t)
  }

  // ---------- blocks that are passed over ----------

  /** Before a member: as at the start, but for the calls so far. */
  function Between(written: seq<Write>): Machine {
    Machine(Header, 0, NO_INFO, written)
  }

  lemma FedBlock(m: Machine, block: string, rest: string)
    requires |block| == BLOCK_SIZE && !m.Eof()
    ensures Fed(m, block + rest) == Fed(Step(m, block), rest)
  {
    assert (block + rest)[..BLOCK_SIZE] == block && (block + rest)[BLOCK_SIZE..] == rest;
  }

  lemma NothingFed(m: Machine)
    ensures Fed(m, "") == (m, "")
  {
  }

  predicate AtHeader(m: Machine) {
    (m.status == Header || m.status == LongNameHeader) && m.endCount == 0
  }

  /** Two states that differ at most in the size read last. */
  predicate AlikeButSize(m: Machine, n: Machine) {
    n == m.(info := m.info.(size := n.info.size, bytesLeft := n.info.bytesLeft))
  }

  lemma OtherStep(m: Machine, block: string)
    requires AtHeader(m) && OtherBlock(block)
    ensures AlikeButSize(m, Step(m, block))
  {
    hide Ascii, Base8;
  }

  lemma {:induction false} OthersPassed(m: Machine, blocks: seq<string>, rest: string) returns (m': Machine)
    requires AtHeader(m) && OtherBlocks(blocks)
    ensures AlikeButSize(m, m') && Fed(m, Concat(blocks) + rest) == Fed(m', rest)
    decreases |blocks|
  {
    hide Fed, Step, OtherBlock;
    m' := m;
    if blocks == [] {
      assert Concat(blocks) + rest == rest;
    } else {
      ConcatFront(blocks);
      OtherStep(m, blocks[0]);
      OtherIsBlock(blocks[0]);
      var more := Concat(blocks[1..]) + rest;
      assert Concat(blocks) + rest == blocks[0] + more;
      FedBlock(m, blocks[0], more);
      m' := OthersPassed(Step(m, blocks[0]), blocks[1..], rest);
    }
  }

  lemma OtherIsBlock(block: string)
    requires OtherBlock(block)
    ensures |block| == BLOCK_SIZE
  {
  }

  /** An entry of another kind without data, or a block that is no header, leaves no trace between
      members. */
  lemma OtherKindPassed(written: seq<Write>, block: string, rest: string)
    requires |block| == 512 && exists i :: 0 <= i < 512 && block[i] != '\0'
    requires block[257..262] == "ustar" ==> block[156] != '0' && block[156] != 'L' && NumberField(block[124..136], 0)
    ensures Fed(Between(written), block + rest) == Fed(Between(written), rest)
  {
    hide Fed, Ascii, Base8;
    FedBlock(Between(written), block, rest);
    if block[257..262] == "ustar" { SizeIsExact(block[124..136], 0); }
  }

  // ---------- one member ----------

  function InfoOf(m: Member): TarInfo
    requires |m.header| == BLOCK_SIZE
  {
    TarInfo(m.name, |m.content|, |m.content|, Ascii(MtimeField(m.header)), m.gname)
  }

  function Calls(info: TarInfo, data: string): seq<Write>
    requires 0 < info.bytesLeft && Blocks(data, info.bytesLeft)
    decreases |data|
  {
    if info.bytesLeft > BLOCK_SIZE then
      [Write(info, data[..BLOCK_SIZE])] +
      Calls(info.(bytesLeft := info.bytesLeft - BLOCK_SIZE), data[BLOCK_SIZE..])
    else
      [Write(info, data[..info.bytesLeft])]
  }

  lemma {:induction false} ContentFed(m: Machine, data: string, rest: string)
    requires m.status == Content && !m.Eof() && 0 < m.info.bytesLeft && Blocks(data, m.info.bytesLeft)
    ensures Fed(m, data + rest) ==
            Fed(m.(status := Header, info := NO_INFO, written := m.written + Calls(m.info, data)), rest)
    decreases |data|
  {
    hide Fed;
    var block, more := data[..BLOCK_SIZE], data[BLOCK_SIZE..];
    assert data + rest == block + (more + rest);
    FedBlock(m, block, more + rest);
    var w := m.written + [Write(m.info, block)];
    if m.info.bytesLeft > BLOCK_SIZE {
      var next := m.(info := m.info.(bytesLeft := m.info.bytesLeft - BLOCK_SIZE), written := w);
      ContentFed(next, more, rest);
      assert next.written + Calls(next.info, more) == m.written + Calls(m.info, data);
    } else {
      assert data == block && more + rest == rest;
    }
  }

  lemma {:induction false} LongNameFed(m: Machine, data: string, name: string, rest: string)
    requires m.status == LongName && !m.Eof() && 0 < m.info.bytesLeft && Text(name)
    requires NameBlocks(data, m.info.bytesLeft, name)
    ensures Fed(m, data + rest) ==
            Fed(m.(status := LongNameHeader, info := m.info.(name := m.info.name + name, bytesLeft := 0)), rest)
    decreases |data|
  {
    hide Fed;
    var block, more := data[..BLOCK_SIZE], data[BLOCK_SIZE..];
    assert data + rest == block + (more + rest);
    FedBlock(m, block, more + rest);
    if m.info.bytesLeft > BLOCK_SIZE {
      var next := m.(info := m.info.(name := m.info.name + block, bytesLeft := m.info.bytesLeft - BLOCK_SIZE));
      assert name == block + name[BLOCK_SIZE..];
      assert forall c :: c in name[BLOCK_SIZE..] ==> c in name;
      LongNameFed(next, more, name[BLOCK_SIZE..], rest);
      assert next.info.name + name[BLOCK_SIZE..] == m.info.name + name;
    } else {
      assert data == block && more + rest == rest;
      CStringIs(block, name);
    }
  }

  lemma FieldIs(block: string, at: nat, width: nat, s: string)
    requires at + width <= |block| && StringField(block, at, width, s)
    ensures CString(block[at..]) == s
  {
    assert s <= block[at..];
    CStringIs(block[at..], s);
  }

  lemma HeaderStep(m: Machine, block: string, kind: char, size: nat)
    requires HeaderBlock(block, kind, size) && (m.status == Header || m.status == LongNameHeader)
    ensures Step(m, block) == Headed(m, block) && Base8(Ascii(SizeField(block))) == size
  {
    hide Ascii, Base8, CString;
    SizeIsExact(SizeField(block), size);
    assert block[MAGIC_AT] == block[MAGIC_AT..MAGIC_AT + 5][0] == 'u';
  }

  /** The header of a regular file opens it, under its own name or the long one read before. */
  lemma FileOpens(m: Machine, f: Member, rest: string)
    requires GoodMember(f) && !m.Eof()
    requires if f.long == None then m.status == Header else m.status == LongNameHeader && m.info.name == f.name
    ensures Fed(m, f.header + rest) == Fed(m.(status := Content, info := InfoOf(f)), rest)
  {
    hide Fed, Ascii, Base8, CString;
    HeaderStep(m, f.header, REGTYPE, |f.content|);
    FieldIs(f.header, 297, 32, f.gname);
    if f.long == None {
      FieldIs(f.header, 0, 100, f.name);
      assert f.header[0..] == f.header;
    }
    FedBlock(m, f.header, rest);
  }

  lemma LongNameRead(m: Machine, f: Member, rest: string) returns (m': Machine)
    requires GoodMember(f) && f.long.Some? && !m.Eof() && m.status == Header
    ensures m' == m.(status := LongNameHeader, info := m.info.(name := f.name, size := f.long.value.size, bytesLeft := 0))
    ensures Fed(m, f.long.value.header + f.long.value.data + rest) == Fed(m', rest)
  {
    hide Fed, Ascii, Base8, CString;
    var long := f.long.value;
    HeaderStep(m, long.header, LFTYPE, long.size);
    assert long.header + long.data + rest == long.header + (long.data + rest);
    FedBlock(m, long.header, long.data + rest);
    var next := m.(status := LongName, info := m.info.(name := "", size := long.size, bytesLeft := long.size));
    LongNameFed(next, long.data, f.name, rest);
    assert "" + f.name == f.name;
    m' := m.(status := LongNameHeader, info := m.info.(name := f.name, size := long.size, bytesLeft := 0));
  }

  /** A file of size zero takes the next block, whatever it is, for its content: the header of the member
      that follows is lost. */
  lemma EmptyTakesNext(written: seq<Write>, header: string, next: string, rest: string) returns (info: TarInfo)
    requires HeaderBlock(header, '0', 0) && |next| == 512
    ensures info.size == 0
    ensures Fed(Between(written), header + next + rest) == Fed(Between(written + [Write(info, "")]), rest)
  {
    hide Fed, Ascii, Base8, CString;
    var m := Between(written);
    HeaderStep(m, header, REGTYPE, 0);
    assert header + next + rest == header + (next + rest);
    FedBlock(m, header, next + rest);
    info := Step(m, header).info;
    FedBlock(Step(m, header), next, rest);
  }

  predicate Shaped(f: Member) {
    |f.header| == 512 && f.content != [] && Blocks(f.data, |f.content|)
  }

  function CallsFor(f: Member): seq<Write> {
    if Shaped(f) then Calls(InfoOf(f), f.data) else []
  }

  /** The blocks before the header of a file, and its long name if it has one. */
  lemma MemberStart(m: Machine, f: Member, rest: string) returns (ready: Machine)
    requires GoodMember(f) && AtHeader(m) && m.status == Header
    ensures Fed(m, Bytes(f) + rest) == Fed(ready, f.header + (f.data + rest))
    ensures ready.written == m.written && AtHeader(ready)
    ensures if f.long == None then ready.status == Header else ready.status == LongNameHeader && ready.info.name == f.name
  {
    hide Fed;
    var tail := f.header + (f.data + rest);
    if f.long.Some? {
      var long := f.long.value;
      var named := Concat(long.others) + tail;
      assert Bytes(f) + rest == Concat(f.others) + (long.header + long.data + named);
      ready := OthersPassed(m, f.others, long.header + long.data + named);
      ready := LongNameRead(ready, f, named);
      ready := OthersPassed(ready, long.others, tail);
    } else {
      assert Bytes(f) + rest == Concat(f.others) + tail;
      ready := OthersPassed(m, f.others, tail);
    }
  }

  lemma MemberFed(m: Machine, f: Member, rest: string)
    requires GoodMember(f) && AtHeader(m) && m.status == Header
    ensures Fed(m, Bytes(f) + rest) == Fed(Between(m.written + CallsFor(f)), rest)
  {
    hide Fed, InfoOf, Calls, Bytes;
    var ready := MemberStart(m, f, rest);
    FileOpens(ready, f, f.data + rest);
    InfoLeft(f);
    ContentFed(ready.(status := Content, info := InfoOf(f)), f.data, rest);
  }

  lemma InfoLeft(f: Member)
    requires |f.header| == BLOCK_SIZE
    ensures InfoOf(f).bytesLeft == |f.content|
  {
  }

  lemma {:induction false} CallsDeliver(info: TarInfo, data: string)
    requires 0 < info.bytesLeft && Blocks(data, info.bytesLeft)
    ensures var calls := Calls(info, data);
            && calls != [] && Concatenated(calls) == data[..info.bytesLeft]
            && (forall i :: 0 <= i < |calls| ==> calls[i].info.(bytesLeft := info.bytesLeft) == info)
            && forall i :: 0 <= i < |calls| ==>
                 (calls[i].info.bytesLeft == |calls[i].content| <==> i == |calls| - 1)
    decreases |data|
  {
    if info.bytesLeft > BLOCK_SIZE {
      var next := info.(bytesLeft := info.bytesLeft - BLOCK_SIZE);
      var calls, more := Calls(info, data), Calls(next, data[BLOCK_SIZE..]);
      CallsDeliver(next, data[BLOCK_SIZE..]);
      assert calls[1..] == more && calls[0] == Write(info, data[..BLOCK_SIZE]);
      assert data[..info.bytesLeft] == data[..BLOCK_SIZE] + data[BLOCK_SIZE..][..next.bytesLeft];
      forall i | 0 <= i < |calls|
        ensures calls[i].info.(bytesLeft := info.bytesLeft) == info
        ensures calls[i].info.bytesLeft == |calls[i].content| <==> i == |calls| - 1
      {
        if i > 0 {
          assert calls[i] == more[i - 1];
          assert more[i - 1].info.(bytesLeft := next.bytesLeft) == next;
        }
      }
    } else {
      assert Calls(info, data)[1..] == [];
    }
  }

  lemma MemberDelivered(f: Member)
    requires GoodMember(f)
    ensures Delivers(CallsFor(f), f) && Timed(CallsFor(f), f)
  {
    hide Ascii, NumberField, AsDecimal, Holds;
    var info := InfoOf(f);
    CallsDeliver(info, f.data);
    var calls := Calls(info, f.data);
    forall i | 0 <= i < |calls|
      ensures calls[i].info.name == f.name && calls[i].info.gname == f.gname && calls[i].info.size == |f.content|
      ensures calls[i].info.mtime == Ascii(MtimeField(f.header))
    {
      assert calls[i].info.(bytesLeft := info.bytesLeft) == info;
    }
    forall t | NumberField(f.header[136..148], t)
      ensures Ascii(f.header[136..148]) == if AsDecimal(t) > 4294967295 then 4294967295 else AsDecimal(t)
    {
      FieldReads(f.header[136..148], t);
    }
  }

  // ---------- whole archives ----------

  function CallsOf(members: seq<Member>): (r: seq<seq<Write>>)
    ensures |r| == |members| && forall i :: 0 <= i < |r| ==> r[i] == CallsFor(members[i])
  {
    if members == [] then [] else [CallsFor(members[0])] + CallsOf(members[1..])
  }

  ghost predicate GoodMembers(members: seq<Member>) {
    forall i :: 0 <= i < |members| ==> GoodMember(members[i])
  }

  lemma {:induction false} ArchiveFed(m: Machine, members: seq<Member>, others: seq<string>, rest: string)
    returns (m': Machine)
    requires GoodMembers(members) && OtherBlocks(others) && AtHeader(m) && m.status == Header
    ensures m'.status == Header && AtHeader(m') && m'.written == m.written + Concat(CallsOf(members))
    ensures Fed(m, Archive(members, others) + rest) == Fed(m', seq(1024, _ => '\0') + rest)
    decreases |members|
  {
    hide Fed, GoodMember, CallsFor, OtherBlock;
    if members == [] {
      assert m.written + Concat(CallsOf(members)) == m.written;
      assert Archive(members, others) + rest == Concat(others) + (seq(1024, _ => '\0') + rest);
      m' := OthersPassed(m, others, seq(1024, _ => '\0') + rest);
    } else {
      var f, more := members[0], members[1..];
      assert Archive(members, others) + rest == Bytes(f) + (Archive(more, others) + rest);
      MemberFed(m, f, Archive(more, others) + rest);
      m' := ArchiveFed(Between(m.written + CallsFor(f)), more, others, rest);
      assert CallsOf(members)[1..] == CallsOf(more);
      ConcatFront(CallsOf(members));
      assert m.written + CallsFor(f) + Concat(CallsOf(more)) == m.written + Concat(CallsOf(members));
    }
  }

  lemma EndFed(m: Machine, rest: string)
    requires AtHeader(m)
    ensures Fed(m, seq(1024, _ => '\0') + rest).0 == m.(endCount := 2)
    ensures Fed(m, seq(512, _ => '\0')).0 == m.(endCount := 1) && !m.(endCount := 1).Eof()
  {
    hide Fed;
    var zero := seq(BLOCK_SIZE, _ => NUL);
    assert zero + "" == seq(512, _ => '\0');
    FedBlock(m, zero, "");
    NothingFed(m.(endCount := 1));
    assert seq(1024, _ => '\0') + rest == zero + (zero + rest);
    FedBlock(m, zero, zero + rest);
    FedBlock(m.(endCount := 1), zero, rest);
    EofStays(m.(endCount := END_COUNT), rest);
  }

  /** However an archive is cut into pieces, and whatever follows it, the stream hands out its members
      one after the other, each whole, and is then at the end. Blocks of other kinds before, between and
      after the members make no difference. */
  lemma ArchiveUnpacked(members: seq<Member>, others: seq<string>, rest: string, pieces: seq<string>)
    returns (calls: seq<seq<Write>>)
    requires GoodMembers(members) && OtherBlocks(others) && Concat(pieces) == Archive(members, others) + rest
    ensures var m := FedAll(START, "", pieces).0; m.Eof() && m.written == Concat(calls)
    ensures |calls| == |members|
    ensures forall i :: 0 <= i < |calls| ==> Delivers(calls[i], members[i]) && Timed(calls[i], members[i])
  {
    hide Fed, FedAll, Concat, GoodMember, Delivers, Timed, CallsFor, Archive, OtherBlocks;
    FedInPieces(START, "", pieces);
    assert "" + Concat(pieces) == Archive(members, others) + rest;
    var last := ArchiveFed(START, members, others, rest);
    calls := CallsOf(members);
    assert [] + Concat(calls) == Concat(calls);
    EndFed(last, rest);
    forall i | 0 <= i < |calls| ensures Delivers(calls[i], members[i]) && Timed(calls[i], members[i]) {
      MemberDelivered(members[i]);
    }
  }

  // ---------- archives of plain files ----------

  function Nuls(n: nat): (s: string)
    ensures |s| == n && forall i :: 0 <= i < n ==> s[i] == NUL
  {
    if n == 0 then "" else [NUL] + Nuls(n - 1)
  }

  function ZeroDigits(n: nat): (s: string)
    ensures |s| == n && forall i :: 0 <= i < n ==> s[i] == '0'
  {
    if n == 0 then "" else ['0'] + ZeroDigits(n - 1)
  }

  lemma {:induction false} OctalFits(n: nat, k: nat)
    requires n < Pow8(k)
    ensures |Octal(n)| <= k
  {
    if n > 0 { OctalFits(n / 8, k - 1); }
  }

  function SizeText(n: nat): (s: string)
    requires |Octal(n)| <= 11
    ensures |s| == 12
  {
    ZeroDigits(11 - |Octal(n)|) + Octal(n) + [NUL]
  }

  lemma SizeTextHolds(n: nat)
    requires |Octal(n)| <= 11
    ensures NumberField(SizeText(n), n)
  {
    var a, b := 11 - |Octal(n)|, |Octal(n)|;
    assert SizeText(n)[a..a + b] == Octal(n);
    assert Holds(SizeText(n), n, a, b);
  }

  /** The header `tar` writes for a regular file, but for what the program does not read. */
  function PlainHeader(name: string, size: string): (s: string)
    requires |name| < 100 && |size| == 12
    ensures |s| == BLOCK_SIZE
  {
    name + Nuls(124 - |name|) + size + Nuls(20) + (['0'] + Nuls(100)) + ("ustar" + Nuls(250))
  }

  lemma Parts(a: string, b: string, c: string, d: string, e: string)
    requires |a| == 124 && |b| == 12 && |c| == 20 && |d| == 101 && |e| == 255
    ensures var s := a + b + c + d + e;
            |s| == 512 && s[..124] == a && s[124..136] == b && s[156..257] == d && s[257..] == e
  {
  }

  lemma PlainHeaderFields(name: string, size: string)
    requires |name| < 100 && |size| == 12
    ensures var s := PlainHeader(name, size);
            && s[..|name|] == name && s[|name|] == '\0' && s[124..136] == size && s[156] == '0'
            && s[257..262] == "ustar" && s[297] == '\0'
  {
    var start, kind, last := name + Nuls(124 - |name|), ['0'] + Nuls(100), "ustar" + Nuls(250);
    var s := PlainHeader(name, size);
    Parts(start, size, Nuls(20), kind, last);
    assert s[..124][..|name|] == name && s[..124][|name|] == '\0';
    assert s[156..257][0] == '0';
    assert s[257..][..5] == "ustar" && s[257..][40] == '\0';
  }

  datatype PlainFile = PlainFile(name: string, content: string)

  predicate GoodFile(f: PlainFile) {
    Text(f.name) && |f.name| < 100 && f.content != [] && RightSize(|f.content|)
  }

  lemma SizeFits(f: PlainFile)
    requires GoodFile(f)
    ensures |Octal(|f.content|)| <= 11
  {
    assert Pow8(3) == 512 && Pow8(6) == 262144 && Pow8(9) == 134217728 && Pow8(10) == 1073741824;
    OctalFits(|f.content|, 10);
  }

  function Packed(f: PlainFile): Member
    requires GoodFile(f)
  {
    SizeFits(f);
    var n := |f.content|;
    Member(f.name, f.content, "", [], None, PlainHeader(f.name, SizeText(n)),
           f.content + Nuls((512 - n % 512) % 512))
  }

  lemma PackedIsGood(f: PlainFile)
    requires GoodFile(f)
    ensures GoodMember(Packed(f))
  {
    hide PlainHeader, SizeText, NumberField, Nuls, Octal, HasMagic, SizeField;
    SizeFits(f);
    var size := SizeText(|f.content|);
    SizeTextHolds(|f.content|);
    PlainHeaderFields(f.name, size);
    assert PlainHeader(f.name, size)[297..297] == "";
    assert PlainHeader(f.name, size)[0..|f.name|] == f.name;
  }

  function PackedAll(files: seq<PlainFile>): (r: seq<Member>)
    requires forall i :: 0 <= i < |files| ==> GoodFile(files[i])
    ensures |r| == |files| && forall i :: 0 <= i < |r| ==> r[i] == Packed(files[i])
  {
    if files == [] then [] else [Packed(files[0])] + PackedAll(files[1..])
  }

  /** What the calls of `on_write` for one member append to its file. */
  predicate Appends(calls: seq<Write>, f: PlainFile) {
    (forall i :: 0 <= i < |calls| ==> calls[i].info.name == f.name) && Concatenated(calls) == f.content
  }

  /** Files that are packed one after the other come back as they were. */
  lemma PackedFilesReturn(files: seq<PlainFile>, pieces: seq<string>) returns (calls: seq<seq<Write>>)
    requires (forall i :: 0 <= i < |files| ==> GoodFile(files[i])) && Concat(pieces) == Archive(PackedAll(files), [])
    ensures var m := FedAll(START, "", pieces).0; m.Eof() && m.written == Concat(calls)
    ensures |calls| == |files| && forall i :: 0 <= i < |calls| ==> Appends(calls[i], files[i])
  {
    hide GoodMember, Archive, Concat, FedAll;
    var members := PackedAll(files);
    forall i | 0 <= i < |members| ensures GoodMember(members[i]) {
      PackedIsGood(files[i]);
    }
    assert Archive(members, []) + "" == Archive(members, []);
    calls := ArchiveUnpacked(members, [], "", pieces);
    forall i | 0 <= i < |calls| ensures Appends(calls[i], files[i]) {
      assert Delivers(calls[i], members[i]);
    }
  }
}
