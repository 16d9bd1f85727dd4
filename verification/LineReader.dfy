/** The buffered line reader: one byte at a time is taken from a buffer that is filled with whatever
    `read` gives. */
module LineReader {
  import opened CStrings
  import opened Sequences

  const MAXLINE: nat := 4096
  const NEWLINE: char := '\n'

  /** What one call of `read` does: give at most so many bytes, be interrupted by a signal, or fail. */
  datatype Answer = Gives(most: nat) | Interrupted | Fails

  /** An open file: the bytes still to come, and what the next calls of `read` will do. */
  class Descriptor {
    var unread: string
    var answers: seq<Answer>

    constructor (bytes: string, answers: seq<Answer>)
      ensures unread == bytes && this.answers == answers
    {
      unread, this.answers := bytes, answers;
    }

    /** At least one byte is given unless there are none left. */
    method Read(buf: array<char>) returns (n: int, interrupted: bool)
      requires buf.Length > 0
      modifies this, buf
      ensures -1 <= n <= buf.Length && (interrupted ==> n == -1) && (n == 0 ==> unread == [])
      ensures n >= 0 ==> old(unread) == buf[..n] + unread
      ensures n < 0 ==> unread == old(unread) && |answers| < |old(answers)|
    {
      var answer := Gives(buf.Length);
      if answers != [] {
        answer, answers := answers[0], answers[1..];
      }
      match answer
      case Interrupted => return -1, true;
      case Fails => return -1, false;
      case Gives(most) =>
        var count := if most == 0 then 1 else most;
        count := if count < buf.Length then count else buf.Length;
        count := if count < |unread| then count else |unread|;
        for i := 0 to count
          invariant unread == old(unread)
          invariant forall j :: 0 <= j < i ==> buf[j] == unread[j]
        {
          buf[i] := unread[i];
        }
        assert unread[..count] == buf[..count];
        unread := unread[count..];
        return count, false;
    }
  }

  // ---------- lines ----------

  /** How much of `s` the next call stores, if it may store `room` bytes: up to and with a newline. */
  function LineLength(s: string, room: nat): (n: nat)
    ensures n <= |s| && n <= room
  {
    if s == [] || room == 0 then 0 else if s[0] == NEWLINE then 1 else 1 + LineLength(s[1..], room - 1)
  }

  function Line(s: string, room: nat): string {
    s[..LineLength(s, room)]
  }

  predicate EndsLine(s: string) {
    s != [] && s[|s| - 1] == NEWLINE
  }

  /** A newline is only ever the last byte of a line, and a line without one ends where the bytes or
      the room end. */
  lemma {:induction false} LineEnds(s: string, room: nat)
    ensures var line := Line(s, room);
            && (forall i :: 0 <= i < |line| - 1 ==> line[i] != NEWLINE)
            && (EndsLine(line) || |line| == |s| || |line| == room)
  {
    if s != [] && room > 0 && s[0] != NEWLINE {
      LineEnds(s[1..], room - 1);
      var line, more := Line(s, room), Line(s[1..], room - 1);
      assert line == [s[0]] + more;
      assert EndsLine(more) ==> line[|line| - 1] == more[|more| - 1];
      assert forall i :: 1 <= i < |line| ==> line[i] == more[i - 1];
    }
  }

  /** A line is what has been stored and then the line after that. */
  lemma {:induction false} LineFrom(s: string, room: nat, n: nat)
    requires n <= |s| && n <= room && forall i :: 0 <= i < n ==> s[i] != NEWLINE
    ensures LineLength(s, room) == n + LineLength(s[n..], room - n)
  {
    if n > 0 {
      LineFrom(s[1..], room - 1, n - 1);
      assert s[1..][n - 1..] == s[n..];
    } else {
      assert s[0..] == s;
    }
  }

  /** What successive calls store, each with its own room. */
  function Lines(s: string, rooms: seq<nat>): (r: seq<string>)
    ensures |r| == |rooms|
  {
    if rooms == [] then []
    else
      var before := Lines(s, rooms[..|rooms| - 1]);
      var n := |Concat(before)|;
      before + [if n <= |s| then Line(s[n..], rooms[|rooms| - 1]) else []]
  }

  lemma OneMore(stored: seq<string>, line: string)
    ensures Concat(stored + [line]) == Concat(stored) + line
  {
    assert (stored + [line])[..|stored|] == stored;
  }

  /** The lines are, joined, the start of the stream, and nothing of a line is after its newline. */
  lemma {:induction false} LinesAreTheStream(s: string, rooms: seq<nat>)
    ensures Concat(Lines(s, rooms)) <= s
    ensures forall i, k :: 0 <= i < |rooms| && 0 <= k < |Lines(s, rooms)[i]| - 1 ==> Lines(s, rooms)[i][k] != NEWLINE
  {
    hide Concat;
    if rooms == [] {
      assert Lines(s, rooms) == [];
      NothingJoined();
    } else {
      var k := |rooms| - 1;
      var before := Lines(s, rooms[..k]);
      LinesAreTheStream(s, rooms[..k]);
      var rest := s[|Concat(before)|..];
      LineEnds(rest, rooms[k]);
      OneMore(before, Line(rest, rooms[k]));
      assert s == Concat(before) + rest;
    }
  }

  lemma NothingJoined()
    ensures Concat<char>([]) == []
  {
  }

  lemma LinesMore(s: string, rooms: seq<nat>, rest: string, room: nat)
    requires s == Concat(Lines(s, rooms)) + rest
    ensures Lines(s, rooms + [room]) == Lines(s, rooms) + [Line(rest, room)]
  {
    hide Concat, Line;
    assert (rooms + [room])[..|rooms|] == rooms;
    assert s[|Concat(Lines(s, rooms))|..] == rest;
  }

  /** With room for more than any line, the whole stream comes back: a call that stores nothing, or no
      newline, means that all of it has. */
  lemma LastLine(s: string, room: nat)
    requires room > |s| && !EndsLine(Line(s, room))
    ensures Line(s, room) == s
  {
    LineEnds(s, room);
  }

  /** What is decided once some bytes without a newline are stored. */
  lemma Stops(all: string, room: nat, stored: string, rest: string)
    requires all == stored + rest && |stored| <= room && forall i :: 0 <= i < |stored| ==> stored[i] != NEWLINE
    ensures stored <= Line(all, room) && !EndsLine(stored)
    ensures |stored| == room || rest == [] ==> Line(all, room) == stored
    ensures |stored| < room && rest != [] && rest[0] == NEWLINE ==> Line(all, room) == stored + [NEWLINE]
  {
    assert forall i :: 0 <= i < |stored| ==> all[i] == stored[i];
    LineFrom(all, room, |stored|);
    assert all[|stored|..] == rest;
  }

  // ---------- the reader ----------

  class Reader {
    const fd: Descriptor
    var readCnt: int
    var readPtr: nat
    const readBuf: array<char>

    ghost predicate Valid()
      reads this
    {
      readBuf.Length == MAXLINE && (readCnt > 0 ==> readPtr + readCnt <= MAXLINE)
    }

    /** The bytes of the stream that have not been handed out. */
    ghost function Pending(): string
      reads this, readBuf, fd
      requires Valid()
    {
      (if readCnt > 0 then readBuf[readPtr..readPtr + readCnt] else []) + fd.unread
    }

    constructor (fd: Descriptor)
      ensures Valid() && this.fd == fd && Pending() == fd.unread && fresh(readBuf)
    {
      this.fd, readCnt, readPtr, readBuf := fd, 0, 0, new char[MAXLINE];
    }

    /** Reads again as long as signals interrupt it. */
    method Fill()
      requires Valid() && readCnt <= 0
      modifies this, readBuf, fd
      ensures readPtr == old(readPtr) && readCnt <= MAXLINE
      ensures readCnt < 0 ==> fd.unread == old(fd.unread)
      ensures readCnt == 0 ==> fd.unread == old(fd.unread) == []
      ensures readCnt > 0 ==> old(fd.unread) == readBuf[..readCnt] + fd.unread
    {
      var interrupted := true;
      while interrupted
        invariant readPtr == old(readPtr) && readCnt <= MAXLINE
        invariant interrupted || readCnt < 0 ==> fd.unread == old(fd.unread)
        invariant !interrupted && readCnt >= 0 ==> old(fd.unread) == readBuf[..readCnt] + fd.unread
        invariant !interrupted && readCnt == 0 ==> fd.unread == []
        decreases if interrupted then 1 else 0, |fd.answers|
      {
        readCnt, interrupted := fd.Read(readBuf);
      }
    }

    /** The next byte of the buffer. */
    method TakeByte() returns (c: char)
      requires Valid() && readCnt > 0
      modifies this
      ensures Valid() && old(Pending()) == [c] + Pending()
    {
      ghost var before := Pending();
      c := readBuf[readPtr];
      readCnt := readCnt - 1;
      readPtr := readPtr + 1;
      assert before == [c] + Pending();
    }

    /** One byte, 0 at the end of the stream, or -1 for an error; being interrupted is none. */
    method MyRead() returns (rc: int, c: char)
      requires Valid()
      modifies this, readBuf, fd
      ensures Valid() && rc in {-1, 0, 1}
      ensures rc == 1 ==> old(Pending()) == [c] + Pending()
      ensures rc == 0 ==> old(Pending()) == Pending() == []
      ensures rc == -1 ==> old(Pending()) == Pending()
    {
      c := NUL;
      if readCnt <= 0 {
        Fill();
        if readCnt < 0 {
          return -1, c;
        }
        if readCnt == 0 {
          return 0, c;
        }
        readPtr := 0;
      }
      c := TakeByte();
      return 1, c;
    }

    /** Stores the next line and a NUL after it. The result is its length, or one more if the room ran
        out first; after an error the bytes read so far are lost. */
    method ReadLine(vptr: array<char>, maxlen: nat) returns (r: int, ghost stored: string)
      requires Valid() && 0 < vptr.Length && maxlen <= vptr.Length && vptr != readBuf
      modifies this, readBuf, fd, vptr
      ensures Valid() && -1 <= r && old(Pending()) == stored + Pending()
      ensures r >= 0 ==> stored == Line(old(Pending()), Room(maxlen))
      ensures r >= 0 ==> |stored| < vptr.Length && vptr[..|stored|] == stored && vptr[|stored|] == NUL
      ensures r >= 0 ==> r == |stored| || (r == |stored| + 1 && |stored| + 1 >= maxlen && !EndsLine(stored))
      ensures r == -1 ==> stored <= Line(old(Pending()), Room(maxlen))
      ensures stored == [] || |stored| < maxlen
      ensures forall i :: 0 <= i < |stored| - 1 ==> stored[i] != '\n'
      ensures r >= 0 ==>
        if stored != [] && stored[|stored| - 1] == '\n' then r == |stored|
        else if r == |stored| then Pending() == []
        else r == |stored| + 1 && |stored| == if maxlen == 0 then 0 else maxlen - 1
      ensures r >= 0 ==> vptr[|stored|] == '\0'
    {
      hide Line, LineLength, Pending, EndsLine;
      ghost var all, room := Pending(), Room(maxlen);
      stored := [];
      var ptr: nat, n: nat := 0, 1;
      assert all == [] + Pending();
      while n < maxlen
        invariant Valid() && n - 1 == ptr == |stored| <= room && all == stored + Pending()
        invariant vptr[..ptr] == stored && forall i :: 0 <= i < |stored| ==> stored[i] != NEWLINE
      {
        Stops(all, room, stored, Pending());
        var rc, c := MyRead();
        if rc == 1 {
          vptr[ptr] := c;
          ptr := ptr + 1;
          stored := stored + [c];
          if c == NEWLINE {
            break;
          }
        } else if rc == 0 {
          vptr[ptr] := NUL;
          return n - 1, stored;
        } else {
          return -1, stored;
        }
        n := n + 1;
      }
      if n >= maxlen {
        Stops(all, room, stored, Pending());
      }
      vptr[ptr] := NUL;
      r := n;
    }
  }

  /** How much a call may store. */
  function Room(maxlen: nat): nat {
    if maxlen == 0 then 0 else maxlen - 1
  }

  function Rooms(maxlens: seq<nat>): (r: seq<nat>)
    ensures |r| == |maxlens|
  {
    if maxlens == [] then [] else [Room(maxlens[0])] + Rooms(maxlens[1..])
  }

  lemma {:induction false} RoomsMore(maxlens: seq<nat>, m: nat)
    ensures Rooms(maxlens + [m]) == Rooms(maxlens) + [Room(m)]
  {
    if maxlens != [] {
      RoomsMore(maxlens[1..], m);
      assert (maxlens + [m])[1..] == maxlens[1..] + [m];
    }
  }

  /** One more call, which stored `line` and left `later` of `rest`. */
  lemma CallMore(all: string, maxlens: seq<nat>, stored: seq<string>, rest: string, m: nat, line: string, later: string)
    requires all == Concat(stored) + rest && rest == line + later
    ensures all == Concat(stored + [line]) + later
    ensures stored == Lines(all, Rooms(maxlens)) && line == Line(rest, Room(m)) ==>
      stored + [line] == Lines(all, Rooms(maxlens + [m]))
  {
    hide Lines, Line, Concat, Rooms, Room;
    OneMore(stored, line);
    RoomsMore(maxlens, m);
    if stored == Lines(all, Rooms(maxlens)) { LinesMore(all, Rooms(maxlens), rest, Room(m)); }
  }

  /** A caller's loop: one call after the other, going on after errors. What the calls stored and what
      is still to come are the stream, and without an error they stored its lines. */
  method ReadLines(reader: Reader, vptr: array<char>, maxlens: seq<nat>)
    returns (results: seq<int>, ghost stored: seq<string>)
    requires reader.Valid() && 0 < vptr.Length && vptr != reader.readBuf
    requires forall m :: m in maxlens ==> m <= vptr.Length
    modifies reader, reader.readBuf, reader.fd, vptr
    ensures reader.Valid() && |results| == |stored| == |maxlens|
    ensures old(reader.Pending()) == Concat(stored) + reader.Pending()
    ensures -1 !in results ==> stored == Lines(old(reader.Pending()), Rooms(maxlens))
  {
    hide Lines, Line, Concat, Rooms, Room, Reader.Pending;
    ghost var all := reader.Pending();
    results, stored := [], [];
    NothingJoined();
    NothingRead(all);
    for i := 0 to |maxlens|
      invariant reader.Valid() && |results| == |stored| == i && all == Concat(stored) + reader.Pending()
      invariant -1 !in results ==> stored == Lines(all, Rooms(maxlens[..i]))
    {
      ghost var rest := reader.Pending();
      assert maxlens[i] in maxlens;
      var r, line := reader.ReadLine(vptr, maxlens[i]);
      CallMore(all, maxlens[..i], stored, rest, maxlens[i], line, reader.Pending());
      assert maxlens[..i + 1] == maxlens[..i] + [maxlens[i]];
      results, stored := results + [r], stored + [line];
    }
    assert maxlens[..|maxlens|] == maxlens;
  }

  lemma NothingRead(all: string)
    ensures Lines(all, Rooms([])) == []
  {
  }
}
