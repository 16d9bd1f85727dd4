/** The streaming untar: a buffer that is fed any pieces of an archive, and a machine that takes blocks
    from it. */
module Untar {
  import opened CStrings
  import opened Sequences
  import opened TarNumbers

  const BLOCK_SIZE: nat := 512
  const END_COUNT: nat := 2
  const MAGIC_AT: nat := 257
  const TMAGIC: string := "ustar"
  const REGTYPE: char := '0'
  const LFTYPE: char := 'L'

  datatype TarInfo = TarInfo(name: string, size: nat, bytesLeft: nat, mtime: nat, gname: string)

  const NO_INFO: TarInfo := TarInfo("", 0, 0, 0, "")

  datatype Status = Header | Content | LongName | LongNameHeader

  /** One call of `on_write`. */
  datatype Write = Write(info: TarInfo, content: string)

  /** The state of the stream but for its buffer, and the calls of `on_write` so far. */
  datatype Machine = Machine(status: Status, endCount: nat, info: TarInfo, written: seq<Write>) {
    predicate Eof() {
      endCount == END_COUNT
    }
  }

  const START: Machine := Machine(Header, 0, NO_INFO, [])

  // ---------- what the machine does ----------

  function SizeField(block: string): (s: string)
    requires |block| == BLOCK_SIZE
  {
    block[124..136]
  }

  function MtimeField(block: string): (s: string)
    requires |block| == BLOCK_SIZE
  {
    block[136..148]
  }

  predicate HasMagic(block: string)
    requires |block| == BLOCK_SIZE
  {
    block[MAGIC_AT..MAGIC_AT + 5] == TMAGIC
  }

  predicate IsZero(block: string) {
    forall i :: 0 <= i < |block| ==> block[i] == NUL
  }

  /** A header block is read. One that is not a header, or not of a kind the program handles, is passed
      over, but in the second case it has already set the size. */
  function Headed(m: Machine, block: string): Machine
    requires |block| == BLOCK_SIZE
  {
    if !HasMagic(block) then m
    else
      var size := Base8(Ascii(SizeField(block)));
      var info := m.info.(size := size, bytesLeft := size);
      if block[156] == REGTYPE then
        var name := if m.status == Header then CString(block) else info.name;
        var info := TarInfo(name, size, size, Ascii(MtimeField(block)), CString(block[297..]));
        m.(status := Content, info := info)
      else if block[156] == LFTYPE then
        m.(status := LongName, info := info.(name := ""))
      else
        m.(info := info)
  }

  function Step(m: Machine, block: string): Machine
    requires |block| == BLOCK_SIZE
  {
    var info := m.info;
    match m.status
    case Content =>
      if info.bytesLeft > BLOCK_SIZE then
        m.(info := info.(bytesLeft := info.bytesLeft - BLOCK_SIZE), written := m.written + [Write(info, block)])
      else
        m.(info := NO_INFO, status := Header, written := m.written + [Write(info, block[..info.bytesLeft])])
    case LongName =>
      if info.bytesLeft > BLOCK_SIZE then
        m.(info := info.(name := info.name + block, bytesLeft := info.bytesLeft - BLOCK_SIZE))
      else
        m.(info := info.(name := info.name + CString(block), bytesLeft := 0), status := LongNameHeader)
    case _ =>
      if IsZero(block) then m.(endCount := m.endCount + 1) else Headed(m, block)
  }

  /** A buffer is worked off: whole blocks are taken until there is none, or until one has been dropped
      after the end of the archive. The result is the machine and what is left in the buffer. */
  function Fed(m: Machine, s: string): (r: (Machine, string))
    ensures !r.0.Eof() ==> |r.1| < BLOCK_SIZE
    decreases |s|
  {
    if |s| < BLOCK_SIZE then (m, s)
    else if m.Eof() then (m, s[BLOCK_SIZE..])
    else Fed(Step(m, s[..BLOCK_SIZE]), s[BLOCK_SIZE..])
  }

  // ---------- the stream ----------

  method AllZero(buf: string, size: nat) returns (zero: bool)
    requires size == |buf|
    ensures zero <==> IsZero(buf)
  {
    for i := 0 to size
      invariant IsZero(buf[..i])
    {
      if buf[i] != NUL {
        return false;
      }
    }
    assert buf[..size] == buf;
    return true;
  }

  class BufferedStream {
    var buf: string

    constructor ()
      ensures buf == ""
    {
      buf := "";
    }

    method Append(s: string)
      modifies this
      ensures buf == old(buf) + s
    {
      buf := buf + s;
    }

    method ShiftAll() returns (r: string)
      modifies this
      ensures r == old(buf) && buf == ""
    {
      r := Shift(|buf|);
    }

    /** Nothing is taken when there is less than asked for. */
    method Shift(n: nat) returns (r: string)
      modifies this
      ensures r + buf == old(buf) && |r| == if n <= |old(buf)| then n else 0
    {
      if n > |buf| {
        return "";
      }
      r := buf[..n];
      buf := buf[n..];
    }

    method Unshift(s: string)
      modifies this
      ensures buf == s + old(buf)
    {
      buf := s + buf;
    }

    method Clear()
      modifies this
      ensures buf == ""
    {
      buf := "";
    }
  }

  class UntarStream {
    const base: BufferedStream
    var status: Status
    var endCount: nat
    var info: TarInfo
    /** The calls of `on_write` so far. */
    var written: seq<Write>

    constructor ()
      ensures State() == START && base.buf == "" && fresh(base)
    {
      base := new BufferedStream();
      status, endCount, info, written := Header, 0, NO_INFO, [];
    }

    function State(): Machine
      reads this
    {
      Machine(status, endCount, info, written)
    }

    method Eof() returns (eof: bool)
      ensures eof == State().Eof()
    {
      eof := endCount == END_COUNT;
    }

    method OnWrite(info: TarInfo, content: string)
      modifies this`written
      ensures written == old(written) + [Write(info, content)]
    {
      written := written + [Write(info, content)];
    }

    method SetTarInfo(block: string) returns (ok: bool)
      requires |block| == BLOCK_SIZE && (status == Header || status == LongNameHeader)
      modifies this
      ensures State() == Headed(old(State()), block)
      ensures ok <==> HasMagic(block) && (block[156] == REGTYPE || block[156] == LFTYPE)
    {
      if block[MAGIC_AT..MAGIC_AT + 5] != TMAGIC {
        return false;
      }
      var number := Ascii2Uint(SizeField(block));
      var size := Base8To10(number);
      info := info.(size := size);
      info := info.(bytesLeft := info.size);
      if block[156] == REGTYPE {
        if status == Header {
          info := info.(name := CString(block));
        }
        var mtime := Ascii2Uint(MtimeField(block));
        info := info.(mtime := mtime);
        info := info.(gname := CString(block[297..]));
        status := Content;
      } else if block[156] == LFTYPE {
        info := info.(name := "");
        status := LongName;
      } else {
        return false;
      }
      return true;
    }

    /** One block that was taken before the end of the archive. */
    method TakeBlock(block: string)
      requires |block| == BLOCK_SIZE
      modifies this
      ensures State() == Step(old(State()), block)
    {
      if status == Header || status == LongNameHeader {
        var zero := block[MAGIC_AT] == NUL;
        if zero {
          zero := AllZero(block, BLOCK_SIZE);
        }
        if zero {
          endCount := endCount + 1;
        } else {
          var _ := SetTarInfo(block);
        }
      } else if status == Content {
        if info.bytesLeft > BLOCK_SIZE {
          OnWrite(info, block);
          info := info.(bytesLeft := info.bytesLeft - BLOCK_SIZE);
        } else {
          OnWrite(info, block[..info.bytesLeft]);
          info := NO_INFO;
          status := Header;
        }
      } else {
        if info.bytesLeft > BLOCK_SIZE {
          info := info.(name := info.name + block);
          info := info.(bytesLeft := info.bytesLeft - BLOCK_SIZE);
        } else {
          info := info.(name := info.name + CString(block));
          info := info.(bytesLeft := 0);
          status := LongNameHeader;
        }
      }
    }

    method Feed(s: string)
      modifies this, base
      ensures (State(), base.buf) == Fed(old(State()), old(base.buf) + s)
    {
      hide Step;
      base.Append(s);
      ghost var all := base.buf;
      var block := base.Shift(BLOCK_SIZE);
      while |block| != 0
        invariant |block| == 0 || |block| == BLOCK_SIZE
        invariant |block| == 0 ==> |base.buf| < BLOCK_SIZE
        invariant Fed(State(), block + base.buf) == Fed(old(State()), all)
        decreases |block + base.buf|
      {
        assert (block + base.buf)[..BLOCK_SIZE] == block && (block + base.buf)[BLOCK_SIZE..] == base.buf;
        var eof := Eof();
        if eof {
          return;
        }
        TakeBlock(block);
        block := base.Shift(BLOCK_SIZE);
      }
      assert block + base.buf == base.buf;
    }
  }

  // ---------- pieces do not matter ----------

  function FedAll(m: Machine, buf: string, pieces: seq<string>): (Machine, string)
    decreases |pieces|
  {
    if pieces == [] then (m, buf)
    else
      var r := Fed(m, buf + pieces[0]);
      FedAll(r.0, r.1, pieces[1..])
  }

  lemma EofStays(m: Machine, s: string)
    requires m.Eof()
    ensures Fed(m, s).0 == m
  {
  }

  /** Two pieces give what one gives: the same state and calls, and before the end of the archive the
      same bytes left over. */
  lemma {:induction false} FedTwice(m: Machine, a: string, b: string)
    ensures var (m1, rest) := Fed(m, a); Fed(m1, rest + b).0 == Fed(m, a + b).0
    ensures var (m1, rest) := Fed(m, a); !Fed(m, a + b).0.Eof() ==> Fed(m1, rest + b).1 == Fed(m, a + b).1
    decreases |a|
  {
    hide Step;
    if |a| >= BLOCK_SIZE {
      if m.Eof() {
        EofStays(m, a[BLOCK_SIZE..] + b);
        EofStays(m, a + b);
      } else {
        assert (a + b)[..BLOCK_SIZE] == a[..BLOCK_SIZE] && (a + b)[BLOCK_SIZE..] == a[BLOCK_SIZE..] + b;
        FedTwice(Step(m, a[..BLOCK_SIZE]), a[BLOCK_SIZE..], b);
      }
    }
  }

  lemma {:induction false} FedInPieces(m: Machine, buf: string, pieces: seq<string>)
    requires |buf| < BLOCK_SIZE
    ensures FedAll(m, buf, pieces).0 == Fed(m, buf + Concat(pieces)).0
    ensures !Fed(m, buf + Concat(pieces)).0.Eof() ==> FedAll(m, buf, pieces).1 == Fed(m, buf + Concat(pieces)).1
    decreases |pieces|
  {
    hide Step;
    if pieces == [] {
      assert buf + Concat(pieces) == buf;
    } else {
      var r := Fed(m, buf + pieces[0]);
      ConcatFront(pieces);
      FedTwice(m, buf + pieces[0], Concat(pieces[1..]));
      assert (buf + pieces[0]) + Concat(pieces[1..]) == buf + Concat(pieces);
      if r.0.Eof() {
        EofStaysInPieces(r.0, r.1, pieces[1..]);
        EofStays(r.0, r.1 + Concat(pieces[1..]));
      } else {
        FedInPieces(r.0, r.1, pieces[1..]);
      }
    }
  }

  lemma {:induction false} EofStaysInPieces(m: Machine, buf: string, pieces: seq<string>)
    requires m.Eof()
    ensures FedAll(m, buf, pieces).0 == m
    decreases |pieces|
  {
    if pieces != [] {
      EofStays(m, buf + pieces[0]);
      EofStaysInPieces(m, Fed(m, buf + pieces[0]).1, pieces[1..]);
    }
  }

  /** A caller's loop that feeds a new stream one piece after the other. */
  method FeedPieces(pieces: seq<string>) returns (stream: UntarStream)
    ensures fresh(stream) && stream.State() == Fed(START, Concat(pieces)).0
  {
    hide Fed, Concat;
    stream := new UntarStream();
    for i := 0 to |pieces|
      invariant fresh(stream) && fresh(stream.base)
      invariant FedAll(stream.State(), stream.base.buf, pieces[i..]) == FedAll(START, "", pieces)
    {
      assert pieces[i..][1..] == pieces[i + 1..];
      stream.Feed(pieces[i]);
    }
    FedInPieces(START, "", pieces);
    assert "" + Concat(pieces) == Concat(pieces);
  }
}
