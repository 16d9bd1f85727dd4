/** The tokenizer, which works in place: it moves one read pointer through a buffer and leaves the
    names and values it finds in the part already read, ended by NUL characters. */
module IniParser {
  import opened Options
  import opened CStrings
  import opened IniText

  /** Whether a C string comes before another, ASCII case apart if `noCase`. */
  function Before(noCase: bool, a: string, b: string): bool {
    if a == [] || b == [] then b != []
    else if Lowered(noCase, a[0]) != Lowered(noCase, b[0]) then Lowered(noCase, a[0]) < Lowered(noCase, b[0])
    else Before(noCase, a[1..], b[1..])
  }

  function Lowered(noCase: bool, c: char): char {
    if noCase then LowCase(c) else c
  }

  lemma BeforeStep(noCase: bool, a: char, s: string, b: char, t: string)
    ensures Before(noCase, [a] + s, [b] + t)
         == if Lowered(noCase, a) != Lowered(noCase, b) then Lowered(noCase, a) < Lowered(noCase, b)
            else Before(noCase, s, t)
  {
    assert ([a] + s)[1..] == s && ([b] + t)[1..] == t;
  }

  lemma BeforeEnds(noCase: bool, s: string, t: string)
    ensures s == [] || t == [] ==> Before(noCase, s, t) == (t != [])
  {
  }

  /** Two names are the same exactly when neither comes before the other. */
  lemma {:induction false} SameIsNeitherBefore(noCase: bool, a: string, b: string)
    ensures Same(noCase, a, b) <==> !Before(noCase, a, b) && !Before(noCase, b, a)
  {
    var fa, fb := Fold(noCase, a), Fold(noCase, b);
    if a != [] && b != [] {
      SameIsNeitherBefore(noCase, a[1..], b[1..]);
      assert Fold(noCase, a[1..]) == fa[1..] && Fold(noCase, b[1..]) == fb[1..];
      assert fa == [fa[0]] + fa[1..] && fb == [fb[0]] + fb[1..];
    }
  }

  lemma Members(s: string)
    ensures forall i :: 0 <= i < |s| ==> s[i] in s
  {
  }

  lemma NoLines()
    ensures Lines([], "\n") == []
  {
  }

  lemma {:induction false} LineAdded(lines: seq<string>, line: string)
    ensures Lines(lines + [line], "\n") == Lines(lines, "\n") + line + "\n"
    ensures Joined(lines + [line]) == Lines(lines, "\n") + line
  {
    if lines == [] {
      assert lines + [line] == [line];
    } else {
      LineAdded(lines[1..], line);
      var all := lines + [line];
      assert all[1..] == lines[1..] + [line] && all[0] == lines[0];
      var head, rest := lines[0] + "\n", Lines(lines[1..], "\n");
      assert head + (rest + line) == head + rest + line;
      assert head + (rest + line + "\n") == head + rest + line + "\n";
    }
  }

  lemma JoinedIs(lines: seq<string>)
    requires lines != []
    ensures Lines(lines, "\n") == Joined(lines) + "\n"
  {
    LineAdded(lines[..|lines| - 1], lines[|lines| - 1]);
    assert lines[..|lines| - 1] + [lines[|lines| - 1]] == lines;
  }

  lemma BlockStep(noCase: bool, s: string, tag: string)
    ensures var n := LineEnd(s);
      TagBlock(noCase, s, tag)
      == if Same(noCase, s[..n], tag) then Block([], AfterLine(s, n))
         else if n == |s| then Block([s], [])
         else var b := TagBlock(noCase, AfterLine(s, n), tag); Block([s[..n]] + b.lines, b.rest)
  {
  }

  /** What reading a value at the start of `t` finds: a tagged block, or the rest of the line. Nothing is
      found in an empty block with an empty tag; `rest` is the text that follows. */
  ghost predicate ValueIs(noCase: bool, multiLine: bool, t: string, found: bool, rest: string, value: string) {
    var v := TrimBlanks(t);
    var n := LineEnd(v);
    var line, after := TrimRight(v[..n]), AfterLine(v, n);
    if multiLine && TagMark(line) then
      && found == !(|line| == 3 && LineEnd(after) == 0)
      && (found ==>
            var b := TagBlock(noCase, after, line[3..]);
            rest == b.rest && (b.lines != [] ==> value == Joined(b.lines)))
    else found && rest == after && value == line
  }

  /** A key and the value after its '=' are the entry of the grammar. */
  lemma PairIs(noCase: bool, multiLine: bool, text: string, e: nat, found: bool, rest: string, value: string)
    requires 0 < e < |text| && ValueIs(noCase, multiLine, text[e + 1..], found, rest, value)
    ensures var f := KeyAt(noCase, multiLine, text, e);
      && found == !f.Nothing?
      && (found ==> f.rest == rest && f.key == TrimRight(text[..e]))
      && (f.KeyLine? ==> f.val == value)
      && (f.TagLine? && f.lines != [] ==> value == Joined(f.lines))
  {
    hide TrimRight, TrimBlanks, LineEnd, AfterLine, TagBlock, Joined, TagMark;
  }

  class Tokenizer {
    const buf: array<char>
    const noCase: bool
    const multiLine: bool
    /** The read pointer; the text from there on is not read yet. */
    var data: nat
    /** Where the current section name, key and value start; the section starts out empty. */
    var section: Option<nat>
    var key: nat
    var val: nat

    ghost predicate Valid()
      reads this, buf
    {
      && 0 < buf.Length && data < buf.Length && buf[buf.Length - 1] == NUL
      && forall i :: data <= i < buf.Length - 1 ==> buf[i] != NUL
    }

    ghost function Unread(): string
      reads this, buf
      requires Valid()
    {
      buf[data..buf.Length - 1]
    }

    function StringAt(p: nat): string
      reads buf
    {
      if p < buf.Length then CString(buf[p..]) else []
    }

    constructor (text: string, noCase: bool, multiLine: bool)
      requires Text(text)
      ensures Valid() && Unread() == text && section == None && fresh(buf) && data == 0
      ensures this.noCase == noCase && this.multiLine == multiLine
    {
      buf := new char[|text| + 1](i requires 0 <= i <= |text| => if i < |text| then text[i] else NUL);
      this.noCase, this.multiLine := noCase, multiLine;
      data, section, key, val := 0, None, 0, 0;
      new;
      assert forall i :: 0 <= i < |text| ==> buf[i] == text[i] && text[i] in text;
    }

    // ---------- moving the read pointer ----------

    method SkipSpaces()
      requires Valid()
      modifies this`data
      ensures Valid() && data >= old(data) && Unread() == TrimLeft(old(Unread()))
    {
      while buf[data] != NUL && IsSpace(buf[data])
        invariant Valid() && data >= old(data) && TrimLeft(Unread()) == TrimLeft(old(Unread()))
        decreases buf.Length - data
      {
        ghost var before := Unread();
        data := data + 1;
        assert Unread() == before[1..];
      }
    }

    method SkipBlanks()
      requires Valid()
      modifies this`data
      ensures Valid() && data >= old(data) && Unread() == TrimBlanks(old(Unread()))
    {
      while buf[data] != NUL && !IsNewLine(buf[data]) && IsSpace(buf[data])
        invariant Valid() && data >= old(data) && TrimBlanks(Unread()) == TrimBlanks(old(Unread()))
        decreases buf.Length - data
      {
        ghost var before := Unread();
        data := data + 1;
        assert Unread() == before[1..];
      }
    }

    method SkipLine()
      requires Valid()
      modifies this`data
      ensures Valid() && data == old(data) + LineEnd(old(Unread()))
      ensures Unread() == old(Unread())[LineEnd(old(Unread()))..]
    {
      while buf[data] != NUL && !IsNewLine(buf[data])
        invariant Valid() && data >= old(data)
        invariant Unread() == old(Unread())[data - old(data)..]
        invariant data - old(data) + LineEnd(Unread()) == LineEnd(old(Unread()))
        decreases buf.Length - data
      {
        ghost var before := Unread();
        data := data + 1;
        assert Unread() == before[1..];
      }
    }

    method SkipUntil(c: char)
      requires Valid()
      modifies this`data
      ensures Valid() && data == old(data) + Until(old(Unread()), c)
      ensures Unread() == old(Unread())[Until(old(Unread()), c)..]
    {
      while buf[data] != NUL && buf[data] != c && !IsNewLine(buf[data])
        invariant Valid() && data >= old(data)
        invariant Unread() == old(Unread())[data - old(data)..]
        invariant data - old(data) + Until(Unread(), c) == Until(old(Unread()), c)
        decreases buf.Length - data
      {
        ghost var before := Unread();
        data := data + 1;
        assert Unread() == before[1..];
      }
    }

    method SkipNewLine()
      requires Valid() && buf[data] != NUL
      modifies this`data
      ensures Valid() && data > old(data) && Unread() == IniText.SkipNewLine(old(Unread()))
    {
      ghost var before := Unread();
      data := data + if buf[data] == '\r' && buf[data + 1] == '\n' then 2 else 1;
      assert before[0] == buf[old(data)];
      assert |before| > 1 ==> before[1] == buf[old(data) + 1];
      assert Unread() == before[data - old(data)..];
    }

    // ---------- ending a string in the part already read ----------

    /** How much of `buf[start..end]` is left without the whitespace at its end. */
    method TrimmedEnd(start: nat, end: nat) returns (trail: nat)
      requires start <= end < buf.Length
      ensures start <= trail <= end && buf[start..trail] == TrimRight(buf[start..end])
    {
      ghost var text := buf[start..end];
      trail := end;
      while trail > start && IsSpace(buf[trail - 1])
        invariant start <= trail <= end && TrimRight(buf[start..trail]) == TrimRight(text)
      {
        ghost var before := buf[start..trail];
        assert before[..|before| - 1] == buf[start..trail - 1] && before[|before| - 1] == buf[trail - 1];
        trail := trail - 1;
      }
      ghost var cut := buf[start..trail];
      assert cut != [] ==> cut[|cut| - 1] == buf[trail - 1];
    }

    /** Ends the string that starts at `start` before the whitespace at the end of `buf[start..end]`. */
    method CutRight(start: nat, end: nat)
      requires Valid() && start <= end < buf.Length && (end < data || end == data == buf.Length - 1)
      requires forall i :: start <= i < end ==> buf[i] != NUL
      modifies buf
      ensures Valid() && Unread() == old(Unread())
      ensures StringAt(start) == TrimRight(old(buf[start..end]))
      ensures forall i :: 0 <= i < start ==> buf[i] == old(buf[i])
    {
      var trail := TrimmedEnd(start, end);
      ghost var cut := buf[start..trail];
      buf[trail] := NUL;
      assert buf[start..trail] == cut;
      EndedAt(start, trail);
    }

    lemma EndedAt(start: nat, end: nat)
      requires start <= end < buf.Length && buf[end] == NUL && forall i :: start <= i < end ==> buf[i] != NUL
      ensures StringAt(start) == buf[start..end]
    {
      ghost var s, t := buf[start..], buf[start..end];
      assert t == s[..|t|] && s[|t|] == buf[end];
      CStringIs(s, t);
    }

    // ---------- comparing strings ----------

    lemma StringStep(p: nat)
      requires p < buf.Length && buf[buf.Length - 1] == NUL
      ensures if buf[p] == NUL then StringAt(p) == []
              else p + 1 < buf.Length && StringAt(p) == [buf[p]] + StringAt(p + 1)
    {
      if buf[p] != NUL { assert buf[p..][1..] == buf[p + 1..]; }
    }

    /** Whether the string at `p` comes before the one at `q`. */
    method Less(p: nat, q: nat) returns (less: bool)
      requires p < buf.Length && q < buf.Length && buf[buf.Length - 1] == NUL
      ensures less == Before(noCase, StringAt(p), StringAt(q))
    {
      hide CString, Before, Lowered, StringAt;
      var l: nat, r: nat := p, q;
      while buf[l] != NUL && buf[r] != NUL
        invariant l < buf.Length && r < buf.Length
        invariant Before(noCase, StringAt(l), StringAt(r)) == Before(noCase, StringAt(p), StringAt(q))
        decreases buf.Length - l
      {
        var x, y := Lowered(noCase, buf[l]), Lowered(noCase, buf[r]);
        StringStep(l);
        StringStep(r);
        BeforeStep(noCase, buf[l], StringAt(l + 1), buf[r], StringAt(r + 1));
        if x != y {
          return x < y;
        }
        l, r := l + 1, r + 1;
      }
      StringStep(l);
      StringStep(r);
      BeforeEnds(noCase, StringAt(l), StringAt(r));
      less := buf[r] != NUL;
    }

    method SameStrings(p: nat, q: nat) returns (same: bool)
      requires p < buf.Length && q < buf.Length && buf[buf.Length - 1] == NUL
      ensures same == Same(noCase, StringAt(p), StringAt(q))
    {
      var before := Less(p, q);
      var after := Less(q, p);
      SameIsNeitherBefore(noCase, StringAt(p), StringAt(q));
      same := !before && !after;
    }

    // ---------- lines that are moved together ----------

    /** memmove to a lower place. */
    method MoveDown(to: nat, from: nat, len: nat)
      requires to <= from && from + len <= buf.Length
      modifies buf
      ensures buf[to..to + len] == old(buf[from..from + len])
      ensures forall i :: 0 <= i < to || from + len <= i < buf.Length ==> buf[i] == old(buf[i])
    {
      ghost var text := buf[from..from + len];
      var i := 0;
      while i < len
        invariant 0 <= i <= len
        invariant forall j :: 0 <= j < i ==> buf[to + j] == text[j]
        invariant forall j :: i <= j < len ==> buf[from + j] == text[j]
        invariant forall j :: 0 <= j < to || from + len <= j < buf.Length ==> buf[j] == old(buf[j])
      {
        buf[to + i] := buf[from + i];
        i := i + 1;
      }
    }

    /** What is left of `text` once its first `len` characters are read, up to the character under the
        read pointer, which is held in `last`. */
    ghost predicate Held(text: string, len: nat, last: char)
      reads this, buf
    {
      && len <= |text| && NUL !in text && data + |text| - len == buf.Length - 1 && buf[buf.Length - 1] == NUL
      && last == (if len < |text| then text[len] else NUL)
      && forall i :: data < i < buf.Length - 1 ==> buf[i] == text[len + i - data]
    }

    /** Reads the current line, moves it down to `line` if it is not there already, and ends it. The
        place to write to never passes the read pointer, so no byte is changed before it is read. */
    method MoveLine(line: nat) returns (last: char)
      requires Valid() && line <= data
      modifies buf, this`data
      ensures data == old(data) + LineEnd(old(Unread())) < buf.Length && buf[data] == NUL
      ensures Held(old(Unread()), LineEnd(old(Unread())), last)
      ensures line + LineEnd(old(Unread())) <= data && buf[line + LineEnd(old(Unread()))] == NUL
      ensures buf[line..line + LineEnd(old(Unread()))] == old(Unread())[..LineEnd(old(Unread()))]
      ensures StringAt(line) == old(Unread())[..LineEnd(old(Unread()))] && buf[buf.Length - 1] == NUL
      ensures forall i :: 0 <= i < line ==> buf[i] == old(buf[i])
    {
      hide LineEnd, CString, Held, Text;
      ghost var text := Unread();
      var cur := data;
      SkipLine();
      var len := data - cur;
      TextEnds(text, cur, len);
      last := PutDown(line, cur, len);
      StringIs(line, text[..len]);
      HeldNow(text, len, last);
    }

    /** The line at `buf[cur..data]` put in its place and ended; the character after it is held. */
    method PutDown(line: nat, cur: nat, len: nat) returns (last: char)
      requires line <= cur && cur + len == data < buf.Length
      modifies buf
      ensures last == old(buf[data]) && buf[data] == NUL && buf[line + len] == NUL
      ensures buf[line..line + len] == old(buf[cur..data]) && buf[data + 1..] == old(buf[data + 1..])
      ensures forall i :: 0 <= i < line ==> buf[i] == old(buf[i])
    {
      if line < cur {
        MoveDown(line, cur, len);
        buf[line + len] := NUL;
      }
      last := buf[data];
      buf[data] := NUL;
    }

    lemma TextEnds(text: string, cur: nat, len: nat)
      requires Valid() && len <= |text| && data == cur + len && text == buf[cur..buf.Length - 1]
      requires forall i :: cur <= i < buf.Length - 1 ==> buf[i] != NUL
      ensures buf[data..] == text[len..] + [NUL] && NUL !in text && NUL !in text[..len]
      ensures buf[cur..cur + len] == text[..len]
    {
    }

    lemma HeldNow(text: string, len: nat, last: char)
      requires data < buf.Length && len <= |text| && NUL !in text && last == (text[len..] + [NUL])[0]
      requires buf[data] == NUL && buf[data + 1..] == (text[len..] + [NUL])[1..]
      ensures Held(text, len, last)
    {
      var after := (text[len..] + [NUL])[1..];
      assert |after| == buf.Length - data - 1;
      assert forall i :: data < i < buf.Length ==> buf[i] == after[i - data - 1];
    }

    /** Puts the held character back and goes on with the next line. */
    method NextLine(last: char, ghost text: string, ghost len: nat)
      requires data < buf.Length && Held(text, len, last) && last != NUL
      modifies buf, this`data
      ensures Valid() && data > old(data) && Unread() == AfterLine(text, len)
      ensures forall i :: 0 <= i < old(data) ==> buf[i] == old(buf[i])
    {
      buf[data] := last;
      assert forall i :: data <= i < buf.Length - 1 ==> buf[i] == text[len + i - data] && text[len + i - data] in text;
      assert Unread() == text[len..];
      SkipNewLine();
    }

    lemma NoNul(n: nat)
      requires Valid() && n <= |Unread()|
      ensures NUL !in Unread()[..n]
    {
    }

    // ---------- tagged blocks ----------

    /** A string and the NUL that ends it, as bytes. */
    lemma StringBytes(p: nat)
      requires p < buf.Length && buf[buf.Length - 1] == NUL
      ensures p + |StringAt(p)| < buf.Length && buf[p + |StringAt(p)|] == NUL
      ensures StringAt(p) == buf[p..p + |StringAt(p)|] && NUL !in StringAt(p)
    {
      assert buf[p..][|buf[p..]| - 1] == NUL;
    }

    lemma StringIs(p: nat, s: string)
      requires p + |s| < buf.Length && buf[p..p + |s|] == s && NUL !in s && buf[p + |s|] == NUL
      ensures StringAt(p) == s
    {
      assert forall i :: p <= i < p + |s| ==> buf[i] == s[i - p] && s[i - p] in s;
      EndedAt(p, p + |s|);
    }

    /** The tag, whose length is `n`, is ended before `line`, or right there at the end of the text. */
    ghost predicate TagBefore(tag: nat, n: nat, line: nat)
      reads this
    {
      tag + n < line || tag + n == line == data == buf.Length - 1
    }

    /** The current line, moved down to `line` and compared with the tag. */
    method ReadTagLine(line: nat, tag: nat) returns (isTag: bool, last: char, len: nat)
      requires Valid() && line <= data && TagBefore(tag, |StringAt(tag)|, line)
      modifies buf, this`data
      ensures len == LineEnd(old(Unread())) && data == old(data) + len < buf.Length && Held(old(Unread()), len, last)
      ensures line + len <= data && buf[line + len] == buf[data] == NUL && buf[line..line + len] == old(Unread())[..len]
      ensures isTag == Same(noCase, old(Unread())[..len], old(StringAt(tag)))
      ensures StringAt(tag) == old(StringAt(tag))
      ensures forall i :: 0 <= i < line ==> buf[i] == old(buf[i])
    {
      hide LineEnd, CString, StringAt, Held;
      ghost var tagText := StringAt(tag);
      StringBytes(tag);
      var cur := data;
      last := MoveLine(line);
      len := data - cur;
      assert buf[tag + |tagText|] == NUL;
      StringIs(tag, tagText);
      isTag := SameStrings(line, tag);
    }

    /** Goes on with the next line, and writes a '\n' behind the one just read. */
    method JoinLine(end: nat, last: char, ghost text: string, ghost len: nat)
      requires data < buf.Length && Held(text, len, last) && last != NUL && end <= data
      modifies buf, this`data
      ensures Valid() && end < data && buf[end] == '\n' && Unread() == AfterLine(text, len)
      ensures forall i :: 0 <= i < end ==> buf[i] == old(buf[i])
    {
      hide AfterLine;
      NextLine(last, text, len);
      WriteBehind(end, '\n');
    }

    /** The same, with the tag still where it was. */
    method JoinTagLine(end: nat, last: char, tag: nat, ghost text: string, ghost len: nat)
      requires data < buf.Length && Held(text, len, last) && last != NUL && end <= data
      requires buf[buf.Length - 1] == NUL && tag + |StringAt(tag)| < end
      modifies buf, this`data
      ensures Valid() && end < data && buf[end] == '\n' && Unread() == AfterLine(text, len)
      ensures StringAt(tag) == old(StringAt(tag)) && forall i :: 0 <= i < end ==> buf[i] == old(buf[i])
    {
      hide AfterLine, CString, StringAt;
      ghost var tagText := StringAt(tag);
      StringBytes(tag);
      JoinLine(end, last, text, len);
      StringIs(tag, tagText);
    }

    /** One line of a tagged block: moved down to `line` and compared with the tag. A line that is not
        the tag is joined to the ones before by a single '\n', unless the text ends there. */
    method TakeLine(line: nat, tag: nat) returns (isTag: bool, last: char, len: nat)
      requires Valid() && line <= data && TagBefore(tag, |StringAt(tag)|, line)
      modifies buf, this`data
      ensures len == LineEnd(old(Unread())) && line + len <= data < buf.Length
      ensures isTag == Same(noCase, old(Unread())[..len], old(StringAt(tag)))
      ensures forall i :: 0 <= i < line ==> buf[i] == old(buf[i])
      ensures buf[line..line + len] == old(Unread())[..len]
      ensures isTag || last == NUL ==>
        Held(old(Unread()), len, last) && data == old(data) + len && buf[line + len] == buf[data] == NUL
      ensures !isTag && last != NUL ==>
        && Valid() && line + len < data && buf[line + len] == '\n' && len < |old(Unread())|
        && Unread() == AfterLine(old(Unread()), len)
      ensures !isTag && last == NUL ==> len == |old(Unread())|
      ensures !isTag && last != NUL ==> StringAt(tag) == old(StringAt(tag))
    {
      hide LineEnd, CString, StringAt, AfterLine, Same;
      ghost var text := Unread();
      isTag, last, len := ReadTagLine(line, tag);
      Members(text);
      if !isTag && last != NUL {
        ghost var so := buf[line..line + len];
        JoinTagLine(line + len, last, tag, text, len);
        assert buf[line..line + len] == so;
      }
    }

    /** A write to the part already read. */
    method WriteBehind(i: nat, c: char)
      requires Valid() && i < data
      modifies buf
      ensures Valid() && Unread() == old(Unread()) && buf[..] == old(buf[..])[i := c]
    {
      buf[i] := c;
    }

    lemma InBuffer()
      requires Valid()
      ensures data < buf.Length && buf[buf.Length - 1] == NUL
    {
    }

    /** What a block under construction looks like: `done` are its lines so far, written from `val` to
        `line`; the rest of the block is still unread. */
    ghost predicate Loading(line: nat, tag: nat, tagText: string, text: string, done: seq<string>)
      reads this, buf
    {
      && Valid() && val <= line <= data && TagBefore(tag, |tagText|, val) && (done == [] ==> data == val && Unread() == text)
      && (data == val ==> done == []) && StringAt(tag) == tagText
      && buf[val..line] == Lines(done, "\n") && NUL !in Lines(done, "\n")
      && TagBlock(noCase, text, tagText)
         == Block(done + TagBlock(noCase, Unread(), tagText).lines, TagBlock(noCase, Unread(), tagText).rest)
    }

    /** The end of a tagged block, whose tag was the line read last. */
    method FinishBlock(line: nat, last: char, ghost rest: string, ghost len: nat) returns (found: bool)
      requires 0 < val <= line <= data < buf.Length && buf[data] == NUL && Held(rest, len, last)
      requires line > val ==> forall i :: val <= i < line - 1 ==> buf[i] != NUL
      modifies buf, this`data
      ensures found <==> val != old(data)
      ensures found ==> Valid() && data >= old(data) && Unread() == AfterLine(rest, len)
      ensures found && line > val ==> StringAt(val) == old(buf[val..line - 1])
      ensures forall i :: 0 <= i < val - 1 ==> buf[i] == old(buf[i])
    {
      hide CString, StringAt, AfterLine;
      if val == data {
        return false;
      }
      found := true;
      ghost var value := if line > val then buf[val..line - 1] else [];
      buf[line - 1] := NUL;
      if last != NUL {
        NextLine(last, rest, len);
      } else {
        NothingAfter(rest, len);
      }
      assert line > val ==> buf[val..line - 1] == value && buf[line - 1] == NUL;
      if line > val { StringIs(val, value); }
    }

    lemma NothingAfter(rest: string, len: nat)
      requires data < buf.Length && Held(rest, len, NUL)
      ensures Valid() && Unread() == AfterLine(rest, len)
    {
      Members(rest);
    }

    lemma LoadingStarts(tag: nat)
      requires Valid() && val == data && TagBefore(tag, |StringAt(tag)|, data)
      ensures Loading(data, tag, StringAt(tag), Unread(), [])
    {
      hide TagBlock;
      NoLines();
      assert [] + TagBlock(noCase, Unread(), StringAt(tag)).lines == TagBlock(noCase, Unread(), StringAt(tag)).lines;
    }

    /** One more line was joined. */
    lemma LoadingGoesOn(line: nat, len: nat, tag: nat, tagText: string, text: string, done: seq<string>, rest: string)
      requires Valid() && val <= line && line + len < data && tag + |tagText| < val && StringAt(tag) == tagText
      requires len < |rest| && len == LineEnd(rest) && NUL !in rest && Unread() == AfterLine(rest, len)
      requires buf[val..line] == Lines(done, "\n") && NUL !in Lines(done, "\n")
      requires buf[line..line + len] == rest[..len] && buf[line + len] == '\n' && !Same(noCase, rest[..len], tagText)
      requires TagBlock(noCase, text, tagText)
            == Block(done + TagBlock(noCase, rest, tagText).lines, TagBlock(noCase, rest, tagText).rest)
      ensures Loading(line + len + 1, tag, tagText, text, done + [rest[..len]])
    {
      hide TagBlock, LineEnd, Lines, Joined, Same, AfterLine, StringAt, CString;
      LineAdded(done, rest[..len]);
      assert buf[val..line + len + 1] == buf[val..line] + buf[line..line + len] + [buf[line + len]];
      BlockStep(noCase, rest, tagText);
      var b := TagBlock(noCase, Unread(), tagText);
      assert done + [rest[..len]] + b.lines == done + ([rest[..len]] + b.lines);
    }

    /** One more line of a block under construction. */
    method LoadLine(line: nat, tag: nat, ghost tagText: string, ghost text: string, ghost done: seq<string>)
      returns (isTag: bool, last: char, len: nat)
      requires Loading(line, tag, tagText, text, done)
      modifies buf, this`data
      ensures len == LineEnd(old(Unread())) && isTag == Same(noCase, old(Unread())[..len], tagText)
      ensures line + len <= data < buf.Length && forall i :: 0 <= i < line ==> buf[i] == old(buf[i])
      ensures buf[val..line] == old(buf[val..line])
      ensures isTag || last == NUL ==>
        && Held(old(Unread()), len, last) && data == old(data) + len && buf[line + len] == buf[data] == NUL
        && buf[line..line + len] == old(Unread())[..len]
      ensures !isTag && last == NUL ==> len == |old(Unread())|
      ensures !isTag && last != NUL ==>
        Loading(line + len + 1, tag, tagText, text, done + [old(Unread())[..len]]) && data > old(data)
    {
      hide LineEnd, CString, StringAt, Lines, Joined, TagBlock, Same, AfterLine;
      ghost var rest, before := Unread(), buf[val..line];
      BlockStep(noCase, rest, tagText);
      NoNul(|rest|);
      isTag, last, len := TakeLine(line, tag);
      assert buf[val..line] == before;
      if !isTag && last != NUL {
        LoadingGoesOn(line, len, tag, tagText, text, done, rest);
      }
    }

    /** The lines of a tagged block, up to the tag or the end of the text, become one string. An empty
        block is the exception: its value is whatever stands in the text. */
    method LoadTagText(tag: nat) returns (found: bool)
      requires Valid() && 0 < data && TagBefore(tag, |StringAt(tag)|, data)
      modifies buf, this`data, this`val
      ensures found <==> !(old(StringAt(tag)) == [] && LineEnd(old(Unread())) == 0)
      ensures found ==> Valid() && data >= old(data) == val
      ensures found ==> Unread() == TagBlock(noCase, old(Unread()), old(StringAt(tag))).rest
      ensures var b := TagBlock(noCase, old(Unread()), old(StringAt(tag)));
        found && b.lines != [] ==> StringAt(val) == Joined(b.lines)
      ensures forall i :: 0 <= i < old(data) - 1 ==> buf[i] == old(buf[i])
    {
      hide LineEnd, CString, StringAt, Lines, Joined, TagBlock, Same, AfterLine;
      ghost var text, tagText, done := Unread(), StringAt(tag), [];
      val := data;
      var line: nat := data;
      LoadingStarts(tag);
      EmptyBlock(noCase, text);
      while true
        invariant old(data) == val && Loading(line, tag, tagText, text, done)
        invariant forall i :: 0 <= i < old(data) ==> buf[i] == old(buf[i])
        decreases buf.Length - data
      {
        ghost var rest := Unread();
        BlockStep(noCase, rest, tagText);
        NoNul(|rest|);
        var isTag, last, len := LoadLine(line, tag, tagText, text, done);
        if isTag {
          assert done + [] == done;
          SameLength(noCase, rest[..len], tagText);
          if done != [] { BlockText(line, done); }
          found := FinishBlock(line, last, rest, len);
          return;
        }
        if last == NUL {
          LastLineText(line, len, done, rest);
          found := true;
          return;
        }
        done := done + [rest[..len]];
        line := line + len + 1;
      }
    }

    /** The block ended with the text. */
    lemma LastLineText(line: nat, len: nat, done: seq<string>, rest: string)
      requires val <= line && line + len < buf.Length && len == |rest| && buf[line + len] == NUL && NUL !in rest
      requires buf[val..line] == Lines(done, "\n") && NUL !in Lines(done, "\n") && buf[line..line + len] == rest
      ensures StringAt(val) == Joined(done + [rest])
    {
      hide Lines, Joined, StringAt;
      LineAdded(done, rest);
      assert buf[val..line + len] == buf[val..line] + buf[line..line + len];
      StringIs(val, Lines(done, "\n") + rest);
    }

    // ---------- comments ----------

    /** Looks past blank lines for another comment line, counting the newlines. */
    method LookAhead() returns (cur: nat, newLines: nat)
      requires Valid()
      ensures data <= cur < buf.Length && buf[cur..buf.Length - 1] == TrimLeft(Unread()) && newLines <= cur - data
    {
      cur, newLines := data, 0;
      while IsSpace(buf[cur])
        invariant data <= cur < buf.Length && newLines <= cur - data
        invariant TrimLeft(buf[cur..buf.Length - 1]) == TrimLeft(Unread())
        decreases buf.Length - cur
      {
        ghost var so := buf[cur..buf.Length - 1];
        if IsNewLine(buf[cur]) {
          newLines := newLines + 1;
          if buf[cur] == '\r' && buf[cur + 1] == '\n' {
            assert buf[cur + 1..buf.Length - 1] == so[1..];
            assert buf[cur + 2..buf.Length - 1] == so[1..][1..];
            cur := cur + 2;
          } else {
            assert buf[cur + 1..buf.Length - 1] == so[1..];
            cur := cur + 1;
          }
        } else {
          assert buf[cur + 1..buf.Length - 1] == so[1..];
          cur := cur + 1;
        }
      }
    }

    /** Writes `n` newlines behind the read pointer. */
    method PutNewLines(line: nat, n: nat)
      requires Valid() && line + n <= data
      modifies buf
      ensures Valid() && Unread() == old(Unread()) && forall i :: 0 <= i < line ==> buf[i] == old(buf[i])
    {
      var k := 0;
      while k < n
        invariant 0 <= k <= n && Valid() && Unread() == old(Unread())
        invariant forall i :: 0 <= i < line ==> buf[i] == old(buf[i])
      {
        WriteBehind(line + k, '\n');
        k := k + 1;
      }
    }

    /** One comment line, joined to the ones before by a single '\n' unless the text ends there. */
    method TakeCommentLine(line: nat) returns (line': nat, ended: bool)
      requires Valid() && line <= data && data < buf.Length - 1
      modifies buf, this`data
      ensures Valid() && data > old(data) && line < line' && if ended then Unread() == [] else line' <= data
      ensures Unread() == AfterLine(old(Unread()), LineEnd(old(Unread())))
      ensures forall i :: 0 <= i < line ==> buf[i] == old(buf[i])
    {
      hide LineEnd, CString, StringAt, AfterLine, Valid;
      ghost var text := Unread();
      InBuffer();
      var cur := data;
      var last := MoveLine(line);
      var len := data - cur;
      line' := line + len + 1;
      ended := last == NUL;
      if ended {
        NothingAfter(text, len);
        AtEnd(text, len);
      } else {
        JoinLine(line + len, last, text, len);
      }
    }

    /** The comment lines at the read pointer become one string, with single '\n' characters between
        them; `blank` says that blank lines before another comment line belong to it. */
    method LoadComment(blank: bool) returns (found: bool)
      requires Valid() && (blank ==> IsComment(buf[data]))
      modifies buf, this`data
      ensures Valid() && data >= old(data) && (blank ==> data > old(data))
      ensures Unread() == if blank then CommentRest(old(Unread())) else FileRest(old(Unread()))
      ensures forall i :: 0 <= i < old(data) ==> buf[i] == old(buf[i])
    {
      hide LineEnd, CString, StringAt, AfterLine, CommentRest, FileRest, TrimLeft;
      ghost var text := Unread();
      var val, line: nat := data, data;
      CommentStarts(text);
      while true
        invariant Valid() && val == old(data) <= data && line <= data && val <= line && (data > val <==> line > val)
        invariant blank && data == val ==> IsComment(buf[data])
        invariant if blank then RestOf(Unread()) == RestOf(text) else FileRest(Unread()) == FileRest(text)
        invariant forall i :: 0 <= i < val ==> buf[i] == old(buf[i])
        decreases buf.Length - data
      {
        ghost var rest := Unread();
        CommentLine(rest);
        if IsComment(buf[data]) {
          var ended;
          line, ended := TakeCommentLine(line);
          assert RestOf(Unread()) == RestOf(rest) && FileRest(Unread()) == FileRest(rest);
          if ended {
            NoRest();
            return true;
          }
        } else {
          if !blank {
            break;
          }
          var cur, newLines := LookAhead();
          PassBlanks(rest);
          if !IsComment(buf[cur]) {
            break;
          }
          data := cur;
          assert Unread() == TrimLeft(rest);
          PutNewLines(line, newLines);
          line := line + newLines;
          assert RestOf(Unread()) == RestOf(rest);
        }
      }
      if val == data {
        return false;
      }
      WriteBehind(line - 1, NUL);
      found := true;
    }

    // ---------- entries ----------

    /** At a '[': the section name, if the line has a ']'. */
    method ReadSection() returns (ok: bool)
      requires Valid() && buf[data] == '['
      modifies buf, this`data, this`section
      ensures Valid() && data > old(data)
      ensures var u := TrimLeft(old(Unread())[1..]);
        var e := Until(u, ']');
        && ok == (e < |u| && u[e] == ']')
        && (if ok then Unread() == u[e + 1..][LineEnd(u[e + 1..])..] else Unread() == u[e..])
        && (ok ==> section.Some? && StringAt(section.value) == TrimRight(u[..e]) && section.value + e < data)
      ensures forall i :: 0 <= i < old(data) ==> buf[i] == old(buf[i])
    {
      hide CString, StringAt, TrimRight, TrimLeft, LineEnd, Until;
      PassOne();
      SkipSpaces();
      var start := data;
      ghost var u := Unread();
      NoNul(|u|);
      section := Some(start);
      SkipUntil(']');
      ok := buf[data] == ']';
      if ok {
        EndSection(start, u);
      }
    }

    method PassOne()
      requires Valid() && buf[data] != NUL
      modifies this`data
      ensures Valid() && data == old(data) + 1 && old(Unread()) != [] && Unread() == old(Unread())[1..]
    {
      ghost var text := Unread();
      data := data + 1;
      assert Unread() == text[1..];
    }

    lemma Slices(start: nat, mid: nat, end: nat, u: string)
      requires start <= mid <= end <= buf.Length && buf[start..end] == u && NUL !in u
      ensures mid - start <= |u| && buf[start..mid] == u[..mid - start] && buf[mid..end] == u[mid - start..]
      ensures forall i :: start <= i < end ==> buf[i] != NUL
    {
      Members(u);
      assert forall i :: start <= i < end ==> buf[i] == u[i - start];
    }

    /** At the ']' of a section line: ends the name and skips the rest of the line. */
    method EndSection(start: nat, ghost u: string)
      requires Valid() && start <= data && buf[data] == ']' && NUL !in u
      requires data - start <= |u| && buf[start..buf.Length - 1] == u
      modifies buf, this`data
      ensures Valid() && data > old(data)
      ensures var e := old(data) - start;
        && e < |u| && Unread() == u[e + 1..][LineEnd(u[e + 1..])..]
        && StringAt(start) == TrimRight(u[..e])
      ensures forall i :: 0 <= i < start ==> buf[i] == old(buf[i])
    {
      hide CString, StringAt, TrimRight, LineEnd;
      var end := data;
      Slices(start, end, buf.Length - 1, u);
      data := data + 1;
      Slices(start, data, buf.Length - 1, u);
      CutRight(start, end);
      SkipLine();
    }

    /** Past the end of a line, if it is not the end of the text. */
    method PassLineEnd(ghost line: string, ghost n: nat)
      requires Valid() && n <= |line| && Unread() == line[n..]
      modifies this`data
      ensures Valid() && data >= old(data) && Unread() == AfterLine(line, n)
      ensures data > old(data) || data == buf.Length - 1
    {
      if buf[data] != NUL {
        SkipNewLine();
      }
    }

    /** Whether a value starts with the mark of a multi-line entry. */
    method IsTagMark(p: nat) returns (mark: bool)
      requires p < buf.Length && buf[buf.Length - 1] == NUL
      ensures mark == TagMark(StringAt(p))
      ensures mark ==> StringAt(p + 3) == StringAt(p)[3..]
    {
      hide CString, StringAt, TagMark;
      MarkStarts(StringAt(p));
      StringStep(p);
      if buf[p] != '<' {
        return false;
      }
      StringStep(p + 1);
      if buf[p + 1] != '<' {
        return false;
      }
      StringStep(p + 2);
      mark := buf[p + 2] == '<';
      if mark {
        ThreeMore(buf[p], buf[p + 1], buf[p + 2], StringAt(p + 3));
      }
    }

    /** At the value of a key line: the text up to the end of the line. */
    method ReadLineValue()
      requires Valid()
      modifies buf, this`data, this`val
      ensures Valid() && data >= old(data) && val >= old(data)
      ensures var v := TrimBlanks(old(Unread())); var n := LineEnd(v);
        Unread() == AfterLine(v, n) && StringAt(val) == TrimRight(v[..n])
      ensures TagBefore(val, |StringAt(val)|, data)
      ensures forall i :: 0 <= i < old(data) ==> buf[i] == old(buf[i])
    {
      hide CString, StringAt, TrimRight, TrimBlanks, LineEnd, AfterLine;
      SkipBlanks();
      EndLineValue(Unread());
    }

    /** The rest of the line becomes a string. */
    method EndLineValue(ghost v: string)
      requires Valid() && Unread() == v
      modifies buf, this`data, this`val
      ensures Valid() && data >= old(data) == val
      ensures var n := LineEnd(v); Unread() == AfterLine(v, n) && StringAt(val) == TrimRight(v[..n])
      ensures TagBefore(val, |StringAt(val)|, data)
      ensures forall i :: 0 <= i < old(data) ==> buf[i] == old(buf[i])
    {
      hide CString, StringAt, TrimRight, LineEnd, AfterLine;
      NoNul(|v|);
      var start := data;
      val := start;
      SkipLine();
      var end := data;
      Slices(start, end, buf.Length - 1, v);
      PassLineEnd(v, end - start);
      CutRight(start, end);
    }

    /** At the value of a key line: the value, which may be a tagged block. */
    method ReadValue() returns (found: bool)
      requires Valid()
      modifies buf, this`data, this`val
      ensures found ==> Valid() && data >= old(data)
      ensures ValueIs(noCase, multiLine, old(Unread()), found, if found then Unread() else "",
                      if found then StringAt(val) else "")
      ensures forall i :: 0 <= i < old(data) ==> buf[i] == old(buf[i])
    {
      hide CString, StringAt, TrimRight, TrimBlanks, LineEnd, AfterLine, TagBlock, Joined, TagMark;
      ReadLineValue();
      found := true;
      if multiLine {
        var mark := IsTagMark(val);
        MarkStarts(StringAt(val));
        if mark { found := LoadTagText(val + 3); }
      }
    }

    /** At the '=' of a key line: ends the key and passes the '='. */
    method EndKey(start: nat, ghost text: string)
      requires Valid() && start < data && buf[data] == '=' && NUL !in text && buf[start..buf.Length - 1] == text
      modifies buf, this`data
      ensures Valid() && data == old(data) + 1 && old(data) - start < |text|
      ensures Unread() == text[old(data) - start + 1..] && StringAt(start) == TrimRight(text[..old(data) - start])
      ensures start + |StringAt(start)| < data < buf.Length && Ended(start, StringAt(start))
      ensures forall i :: 0 <= i < start ==> buf[i] == old(buf[i])
    {
      hide CString, StringAt, TrimRight;
      var end := data;
      Slices(start, end, buf.Length - 1, text);
      data := end + 1;
      Slices(start, data, buf.Length - 1, text);
      CutRight(start, end);
      StringBytes(start);
    }

    /** The bytes at `p` are this string and its NUL. */
    ghost predicate Ended(p: nat, s: string)
      reads this, buf
    {
      p + |s| < buf.Length && buf[p..p + |s|] == s && NUL !in s && buf[p + |s|] == NUL
    }

    /** At the '=' of a key line: ends the key and reads the value. */
    method ReadPair(start: nat, ghost text: string) returns (found: bool)
      requires Valid() && start < data && buf[data] == '=' && NUL !in text && buf[start..buf.Length - 1] == text
      modifies buf, this`data, this`val
      ensures old(data) - start < |text|
      ensures var f := KeyAt(noCase, multiLine, text, old(data) - start);
        && found == !f.Nothing?
        && (found ==> Valid() && data >= old(data) && Unread() == f.rest && StringAt(start) == f.key)
        && (f.KeyLine? ==> StringAt(val) == f.val)
        && (f.TagLine? && f.lines != [] ==> StringAt(val) == Joined(f.lines))
      ensures forall i :: 0 <= i < start ==> buf[i] == old(buf[i])
    {
      hide CString, StringAt, TrimRight, KeyAt, ValueIs, Joined, Valid, Unread;
      var end := data;
      EndKey(start, text);
      ghost var name, before := StringAt(start), buf[start..data];
      found := ReadValue();
      if found {
        assert buf[start..end + 1] == before;
        KeyStays(start, end + 1, name, before);
      }
      PairIs(noCase, multiLine, text, end - start, found, if found then Unread() else "",
             if found then StringAt(val) else "");
    }

    lemma KeyStays(start: nat, end: nat, name: string, before: string)
      requires start <= end <= buf.Length && buf[start..end] == before && |name| < |before|
      requires before[..|name|] == name && NUL !in name && before[|name|] == NUL
      ensures StringAt(start) == name
    {
      hide StringAt;
      assert buf[start..start + |name|] == before[..|name|] && buf[start + |name|] == before[|name|];
      StringIs(start, name);
    }

    /** At the start of a line that is not a comment nor a section line: its key and value, if it has
        them; otherwise the line is skipped. */
    method ReadKey() returns (found: bool, done: bool)
      requires Valid() && buf[data] != NUL && !IsNewLine(buf[data])
      modifies buf, this`data, this`key, this`val
      ensures !done ==> Valid() && data > old(data) && !found
      ensures found ==> Valid() && data >= old(data)
      ensures var t := old(Unread());
        var e := Until(t, '=');
        if e == |t| || t[e] != '=' then !done && Unread() == t[e..]
        else if e == 0 then !done && Unread() == t[LineEnd(t)..]
        else
          var f := KeyAt(noCase, multiLine, t, e);
          && done && found == !f.Nothing?
          && (found ==> Unread() == f.rest && StringAt(key) == f.key)
          && (f.KeyLine? ==> StringAt(val) == f.val)
          && (f.TagLine? && f.lines != [] ==> StringAt(val) == Joined(f.lines))
      ensures forall i :: 0 <= i < old(data) ==> buf[i] == old(buf[i])
    {
      hide CString, StringAt, LineEnd, KeyAt, Joined;
      ghost var text := Unread();
      NoNul(|text|);
      assert text[..|text|] == text && text[0] == buf[data];
      found, done := false, false;
      var start := data;
      key := start;
      SkipUntil('=');
      Slices(start, data, buf.Length - 1, text);
      if buf[data] == '=' {
        if data == start {
          NoLineEnd(text);
          SkipLine();
        } else {
          found := ReadPair(start, text);
          done := true;
        }
      }
    }

    /** The next entry of the text. When it is a section line, `section` leads to its name; when it is a
        key line, `key` and `val` lead to key and value. Nothing that was read before is changed. */
    method FindEntry() returns (found: bool, isKey: bool)
      requires Valid()
      modifies buf, this`data, this`section, this`key, this`val
      ensures var f := IniText.FindEntry(noCase, multiLine, old(Unread()));
        && found == !f.Nothing?
        && (found ==> Valid() && data >= old(data) && Unread() == f.rest && isKey == !f.SectionLine?)
        && (f.SectionLine? ==>
              section.Some? && StringAt(section.value) == f.name && section.value + |f.name| < data)
        && (f.KeyLine? ==> StringAt(key) == f.key && StringAt(val) == f.val && (!f.stray ==> section == old(section)))
        && (f.TagLine? ==>
              && StringAt(key) == f.key && (f.lines != [] ==> StringAt(val) == Joined(f.lines))
              && (!f.stray ==> section == old(section)))
      ensures forall i :: 0 <= i < old(data) ==> buf[i] == old(buf[i])
    {
      hide CString, StringAt, TrimRight, TrimLeft, TrimBlanks, LineEnd, AfterLine, TagBlock, Joined, IniText.FindEntry,
        CommentRest, Until, TagMark, KeyAt, Whole, Text, FindHere, IsComment, IsSpace, IsNewLine, Fold, Same, FileRest;
      ghost var text, strayed := Unread(), false;
      found, isKey := false, false;
      WholeStarts(noCase, multiLine, text);
      while buf[data] != NUL
        invariant Valid() && data >= old(data) && !found && !isKey && (!strayed ==> section == old(section))
        invariant Whole(noCase, multiLine, text, Unread(), strayed)
        invariant forall i :: 0 <= i < old(data) ==> buf[i] == old(buf[i])
        decreases buf.Length - data
      {
        WholeTrims(noCase, multiLine, text, Unread(), strayed);
        SkipSpaces();
        ghost var rest := Unread();
        if buf[data] == NUL {
          break;
        }
        assert rest[0] == buf[data];
        if IsComment(buf[data]) {
          WholeSkips(noCase, multiLine, text, rest, strayed);
          var comment := LoadComment(true);
        } else if buf[data] == '[' {
          WholeSection(noCase, multiLine, text, rest, strayed);
          found := ReadSection();
          if found {
            return;
          }
          strayed := true;
        } else {
          WholeKey(noCase, multiLine, text, rest, strayed);
          var done;
          found, done := ReadKey();
          if done {
            isKey := true;
            return;
          }
        }
      }
      assert Unread() == [];
      WholeEnds(noCase, multiLine, text, strayed);
    }

    lemma AtEnd(text: string, len: nat)
      requires data < buf.Length && Held(text, len, NUL)
      ensures data == buf.Length - 1
    {
      Members(text);
    }

    lemma BlockText(line: nat, done: seq<string>)
      requires val <= line <= buf.Length && done != []
      requires buf[val..line] == Lines(done, "\n") && NUL !in Lines(done, "\n")
      ensures val < line && buf[val..line - 1] == Joined(done)
      ensures forall i :: val <= i < line - 1 ==> buf[i] != NUL
    {
      hide Lines, Joined;
      JoinedIs(done);
      var so := buf[val..line];
      assert so[..|so| - 1] == Joined(done);
      assert forall i :: val <= i < line ==> buf[i] == so[i - val] && so[i - val] in so;
    }
  }

  lemma EmptyBlock(noCase: bool, text: string)
    ensures LineEnd(text) == 0 ==> TagBlock(noCase, text, []).lines == []
  {
  }

  lemma SameLength(noCase: bool, a: string, b: string)
    requires Same(noCase, a, b)
    ensures |a| == |b|
  {
  }

  /** The text after a comment, blank lines before it included, if there is one. */
  function RestOf(s: string): string {
    var next := TrimLeft(s);
    if next != [] && IsComment(next[0]) then CommentRest(next) else s
  }

  lemma CommentStarts(s: string)
    ensures s != [] && IsComment(s[0]) ==> RestOf(s) == CommentRest(s)
  {
  }

  lemma CommentLine(s: string)
    ensures var after := AfterLine(s, LineEnd(s));
      s != [] && IsComment(s[0]) ==> RestOf(s) == RestOf(after) && FileRest(s) == FileRest(after)
    ensures s == [] || !IsComment(s[0]) ==> FileRest(s) == s
  {
  }

  lemma PassBlanks(s: string)
    ensures var next := TrimLeft(s);
      if next != [] && IsComment(next[0])
      then RestOf(next) == RestOf(s) && (s == [] || !IsComment(s[0]) ==> |next| < |s|)
      else RestOf(s) == s
  {
    TrimTwice(s);
  }

  lemma MarkStarts(s: string)
    ensures TagMark(s) <==> |s| >= 3 && s[0] == '<' && s[1] == '<' && s[2] == '<'
  {
    if |s| >= 3 {
      assert s[..3] == [s[0], s[1], s[2]];
    }
  }

  lemma ThreeMore(a: char, b: char, c: char, s: string)
    ensures ([a] + ([b] + ([c] + s)))[..3] == [a, b, c] && ([a] + ([b] + ([c] + s)))[3..] == s
  {
  }

  lemma NoRest()
    ensures RestOf([]) == FileRest([]) == []
  {
  }

  lemma TrimTwice(s: string)
    ensures TrimLeft(TrimLeft(s)) == TrimLeft(s)
  {
  }

  lemma NoLineEnd(s: string)
    ensures s != [] && !IsNewLine(s[0]) ==> LineEnd(s) > 0
  {
  }

  // ---------- how the tokenizer comes to an entry ----------

  /** Reading on from `rest` finds what reading `text` finds. */
  predicate Whole(noCase: bool, multiLine: bool, text: string, rest: string, strayed: bool) {
    var f := FindEntry(noCase, multiLine, rest);
    FindEntry(noCase, multiLine, text) == if strayed then Strayed(f) else f
  }

  lemma WholeStarts(noCase: bool, multiLine: bool, text: string)
    ensures Whole(noCase, multiLine, text, text, false)
  {
  }

  lemma FindTrims(noCase: bool, multiLine: bool, s: string)
    ensures FindEntry(noCase, multiLine, TrimLeft(s)) == FindEntry(noCase, multiLine, s)
  {
    hide FindHere, TrimLeft;
    TrimTwice(s);
  }

  lemma WholeTrims(noCase: bool, multiLine: bool, text: string, rest: string, strayed: bool)
    requires Whole(noCase, multiLine, text, rest, strayed)
    ensures Whole(noCase, multiLine, text, TrimLeft(rest), strayed)
    ensures TrimLeft(TrimLeft(rest)) == TrimLeft(rest)
  {
    hide FindEntry, TrimLeft;
    TrimTwice(rest);
    FindTrims(noCase, multiLine, rest);
  }

  lemma WholeEnds(noCase: bool, multiLine: bool, text: string, strayed: bool)
    requires Whole(noCase, multiLine, text, [], strayed)
    ensures FindEntry(noCase, multiLine, text) == Nothing
  {
  }

  lemma AtEntry(noCase: bool, multiLine: bool, t: string)
    requires TrimLeft(t) == t && t != []
    ensures !IsSpace(t[0]) && FindEntry(noCase, multiLine, t) == FindHere(noCase, multiLine, t)
  {
    hide FindHere;
  }

  lemma AtComment(noCase: bool, multiLine: bool, t: string)
    requires t != [] && !IsSpace(t[0]) && IsComment(t[0])
    ensures FindHere(noCase, multiLine, t) == FindEntry(noCase, multiLine, CommentRest(t))
  {
    hide FindEntry, CommentRest;
  }

  lemma AtSection(noCase: bool, multiLine: bool, t: string)
    requires t != [] && t[0] == '['
    ensures var u := TrimLeft(t[1..]);
      var e := Until(u, ']');
      FindHere(noCase, multiLine, t)
      == if e == |u| || u[e] != ']' then Strayed(FindEntry(noCase, multiLine, u[e..]))
         else SectionLine(TrimRight(u[..e]), u[e + 1..][LineEnd(u[e + 1..])..])
  {
    hide FindEntry, TrimLeft, Until, TrimRight, LineEnd;
  }

  lemma AtKey(noCase: bool, multiLine: bool, t: string)
    requires t != [] && !IsSpace(t[0]) && !IsComment(t[0]) && t[0] != '['
    ensures var e := Until(t, '=');
      FindHere(noCase, multiLine, t)
      == if e == |t| || t[e] != '=' then FindEntry(noCase, multiLine, t[e..])
         else if e == 0 then FindEntry(noCase, multiLine, t[LineEnd(t)..])
         else KeyAt(noCase, multiLine, t, e)
  {
    hide FindEntry, Until, LineEnd, KeyAt;
  }

  lemma WholeSkips(noCase: bool, multiLine: bool, text: string, rest: string, strayed: bool)
    requires Whole(noCase, multiLine, text, rest, strayed) && TrimLeft(rest) == rest && rest != [] && IsComment(rest[0])
    ensures Whole(noCase, multiLine, text, CommentRest(rest), strayed)
  {
    hide FindEntry, FindHere, TrimLeft, CommentRest;
    AtEntry(noCase, multiLine, rest);
    AtComment(noCase, multiLine, rest);
  }

  lemma WholeSection(noCase: bool, multiLine: bool, text: string, rest: string, strayed: bool)
    requires Whole(noCase, multiLine, text, rest, strayed) && TrimLeft(rest) == rest && rest != [] && rest[0] == '['
    ensures var u := TrimLeft(rest[1..]);
      var e := Until(u, ']');
      if e < |u| && u[e] == ']' then
        FindEntry(noCase, multiLine, text)
        == SectionLine(TrimRight(u[..e]), u[e + 1..][LineEnd(u[e + 1..])..])
      else Whole(noCase, multiLine, text, u[e..], true)
  {
    hide FindEntry, FindHere, TrimLeft, Until, TrimRight, LineEnd;
    AtEntry(noCase, multiLine, rest);
    AtSection(noCase, multiLine, rest);
  }

  lemma WholeKey(noCase: bool, multiLine: bool, text: string, rest: string, strayed: bool)
    requires Whole(noCase, multiLine, text, rest, strayed) && TrimLeft(rest) == rest && rest != []
    requires !IsComment(rest[0]) && rest[0] != '['
    ensures !IsNewLine(rest[0])
    ensures var e := Until(rest, '=');
      if e == |rest| || rest[e] != '=' then Whole(noCase, multiLine, text, rest[e..], strayed)
      else if e == 0 then Whole(noCase, multiLine, text, rest[LineEnd(rest)..], strayed)
      else
        FindEntry(noCase, multiLine, text)
        == (if strayed then Strayed(KeyAt(noCase, multiLine, rest, e)) else KeyAt(noCase, multiLine, rest, e))
  {
    hide FindEntry, FindHere, TrimLeft, Until, KeyAt, LineEnd;
    AtEntry(noCase, multiLine, rest);
    AtKey(noCase, multiLine, rest);
  }
}
