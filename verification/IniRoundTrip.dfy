/** Reading an INI text gives the store that was written into it, however it is laid out; what the printer
    writes is one layout. */
module IniRoundTrip {
  import opened Options
  import opened IniText

  // ---------- names and values that can be written ----------

  predicate Visible(c: char) {
    c != ' ' && c != '\t' && c != '\r' && c != '\n'
  }

  predicate Trimmed(s: string) {
    s != [] ==> Visible(s[0]) && Visible(s[|s| - 1])
  }

  predicate Blank(s: string) {
    forall i :: 0 <= i < |s| ==> s[i] == ' ' || s[i] == '\t'
  }

  predicate GoodName(s: string) {
    s != [] && Trimmed(s) && OneLine(s) && ']' !in s
  }

  predicate GoodKey(s: string) {
    s != [] && Trimmed(s) && OneLine(s) && '=' !in s && s[0] != '[' && s[0] != ';' && s[0] != '#'
  }

  predicate GoodValue(noCase: bool, v: string) {
    && '\r' !in v
    && (if IsMultiLine(v) then forall line :: line in Split(v) ==> !Same(noCase, line, END_TAG) else !("<<<" <= v))
  }

  predicate GoodKeys(noCase: bool, keys: seq<(string, string)>) {
    && (forall e :: e in keys ==> GoodKey(e.0) && GoodValue(noCase, e.1))
    && DistinctKeys(noCase, keys)
  }

  predicate DistinctKeys(noCase: bool, keys: seq<(string, string)>) {
    forall i, j :: 0 <= i < j < |keys| ==> !Same(noCase, keys[i].0, keys[j].0)
  }

  /** No two sections and no two keys of a section have the same name; a section without a name comes
      first and has a key. */
  predicate Distinct(noCase: bool, ini: seq<Section>) {
    && (forall i :: 0 <= i < |ini| ==> DistinctKeys(noCase, ini[i].keys))
    && (forall i :: 0 <= i < |ini| ==> ini[i].name != [] || (i == 0 && ini[i].keys != []))
    && (forall i, j :: 0 <= i < j < |ini| ==> !Same(noCase, ini[i].name, ini[j].name))
  }

  predicate GoodIni(noCase: bool, ini: seq<Section>) {
    && Distinct(noCase, ini)
    && (forall i :: 0 <= i < |ini| ==> GoodKeys(noCase, ini[i].keys))
    && (forall i :: 0 <= i < |ini| ==> ini[i].name == [] || GoodName(ini[i].name))
  }

  // ---------- scanning known text ----------

  lemma {:induction false} UntilAt(s: string, c: char, n: nat)
    requires n < |s| && (s[n] == c || IsNewLine(s[n]))
    requires forall i :: 0 <= i < n ==> s[i] != c && !IsNewLine(s[i])
    ensures Until(s, c) == n
  {
    if n > 0 { UntilAt(s[1..], c, n - 1); }
  }

  lemma {:induction false} LineEndAt(s: string, n: nat)
    requires n <= |s| && (n < |s| ==> IsNewLine(s[n])) && forall i :: 0 <= i < n ==> !IsNewLine(s[i])
    ensures LineEnd(s) == n
  {
    if n > 0 { LineEndAt(s[1..], n - 1); }
  }

  lemma {:induction false} SpacesSkipped(ws: string, s: string)
    requires forall c :: c in ws ==> IsSpace(c)
    ensures TrimLeft(ws + s) == TrimLeft(s)
  {
    if ws == [] {
      assert ws + s == s;
    } else {
      assert (ws + s)[1..] == ws[1..] + s;
      SpacesSkipped(ws[1..], s);
    }
  }

  predicate LineEnding(s: string) {
    s == "\n" || s == "\r" || s == "\r\n"
  }

  lemma AfterEnding(nl: string, rest: string)
    requires LineEnding(nl) && (nl == "\r" ==> rest == [] || rest[0] != '\n')
    ensures SkipNewLine(nl + rest) == rest
  {
    assert (nl + rest)[|nl|..] == rest;
  }

  lemma Halves(a: string, b: string)
    ensures (a + b)[..|a|] == a && (a + b)[|a|..] == b
    ensures forall i :: 0 <= i < |a| ==> (a + b)[i] == a[i]
  {
  }

  lemma Assoc(a: string, b: string, c: string)
    ensures (a + b) + c == a + (b + c)
  {
  }

  lemma AfterPrinted(line: string, nl: string, rest: string)
    requires OneLine(line) && LineEnding(nl) && (nl == "\r" ==> rest == [] || rest[0] != '\n')
    ensures LineEnd(line + nl + rest) == |line| && (line + nl + rest)[..|line|] == line
    ensures AfterLine(line + nl + rest, |line|) == rest
  {
    hide SkipNewLine;
    var t := nl + rest;
    Assoc(line, nl, rest);
    Halves(line, t);
    LineEndAt(line + t, |line|);
    AfterEnding(nl, rest);
  }

  lemma FindSkips(noCase: bool, multiLine: bool, ws: string, s: string)
    requires forall c :: c in ws ==> IsSpace(c)
    ensures FindEntry(noCase, multiLine, ws + s) == FindEntry(noCase, multiLine, s)
  {
    SpacesSkipped(ws, s);
  }

  lemma LoadedSkips(noCase: bool, multiLine: bool, ws: string, s: string, ini: seq<Section>, name: string)
    requires forall c :: c in ws ==> IsSpace(c)
    ensures Loaded(noCase, multiLine, ws + s, ini, name) == Loaded(noCase, multiLine, s, ini, name)
  {
    FindSkips(noCase, multiLine, ws, s);
  }

  lemma {:induction false} BlanksSkipped(b: string, t: string)
    requires Blank(b) && t != [] && (Visible(t[0]) || IsNewLine(t[0]))
    ensures TrimBlanks(b + t) == t
  {
    if b == [] {
      assert b + t == t;
    } else {
      assert (b + t)[1..] == b[1..] + t;
      BlanksSkipped(b[1..], t);
    }
  }

  lemma {:induction false} BlanksCut(s: string, b: string)
    requires Trimmed(s) && Blank(b)
    ensures TrimRight(s + b) == s
  {
    if b == [] {
      assert s + b == s;
    } else {
      assert (s + b)[..|s + b| - 1] == s + b[..|b| - 1];
      BlanksCut(s, b[..|b| - 1]);
    }
  }

  lemma BlanksAreSpaces(b: string)
    requires Blank(b)
    ensures forall c :: c in b ==> IsSpace(c)
  {
  }

  // ---------- lines that add nothing ----------

  /** A line that is blank from position `k` on, a comment, without '=', or without anything before it. */
  predicate NoteFrom(line: string, k: nat) {
    && k <= |line| && Blank(line[..k])
    && (k == |line|
        || (Visible(line[k])
            && (line[k] == ';' || line[k] == '#' || line[k] == '=' || (line[k] != '[' && '=' !in line[k..]))))
  }

  ghost predicate Note(line: string) {
    '\n' !in line && '\r' !in line && exists k :: 0 <= k <= |line| && NoteFrom(line, k)
  }

  lemma CommentSkipped(noCase: bool, multiLine: bool, t: string, nl: string, s: string)
    requires OneLine(t) && t != [] && (t[0] == ';' || t[0] == '#') && (nl == "\n" || nl == "\r\n")
    ensures FindEntry(noCase, multiLine, t + (nl + s)) == FindEntry(noCase, multiLine, s)
  {
    Assoc(t, nl, s);
    AfterPrinted(t, nl, s);
    assert TrimLeft(t + (nl + s)) == t + (nl + s);
  }

  lemma NoEntry(noCase: bool, multiLine: bool, t: string, nl: string, s: string)
    requires OneLine(t) && t != [] && Visible(t[0]) && (nl == "\n" || nl == "\r\n")
    requires t[0] == '=' || (t[0] != ';' && t[0] != '#' && t[0] != '[' && '=' !in t)
    ensures FindEntry(noCase, multiLine, t + (nl + s)) == FindEntry(noCase, multiLine, s)
  {
    var all := t + (nl + s);
    Halves(t, nl + s);
    FindSkips(noCase, multiLine, nl, s);
    if t[0] != '=' {
      UntilAt(all, '=', |t|);
    } else {
      LineEndAt(all, |t|);
    }
  }

  lemma NoteSkipped(noCase: bool, multiLine: bool, line: string, nl: string, s: string)
    requires Note(line) && (nl == "\n" || nl == "\r\n")
    ensures FindEntry(noCase, multiLine, line + (nl + s)) == FindEntry(noCase, multiLine, s)
  {
    hide FindEntry;
    var k :| 0 <= k <= |line| && NoteFrom(line, k);
    var blanks, t := line[..k], line[k..];
    assert line + (nl + s) == blanks + (t + (nl + s));
    BlanksAreSpaces(blanks);
    FindSkips(noCase, multiLine, blanks, t + (nl + s));
    if t == [] {
      assert t + (nl + s) == nl + s;
      FindSkips(noCase, multiLine, nl, s);
    } else if t[0] == ';' || t[0] == '#' {
      CommentSkipped(noCase, multiLine, t, nl, s);
    } else {
      NoEntry(noCase, multiLine, t, nl, s);
    }
  }

  /** Comments, blank lines, lines without '=' and lines that start with it change nothing that is loaded
      from the lines after them. */
  lemma {:induction false} NotesSkipped(noCase: bool, multiLine: bool, notes: seq<string>, nl: string, s: string,
                                        ini: seq<Section>, name: string)
    requires (forall i :: 0 <= i < |notes| ==> Note(notes[i])) && (nl == "\n" || nl == "\r\n")
    ensures Loaded(noCase, multiLine, Lines(notes, nl) + s, ini, name) == Loaded(noCase, multiLine, s, ini, name)
    decreases |notes|
  {
    hide FindEntry, Note;
    if notes == [] {
      assert Lines(notes, nl) + s == s;
    } else {
      var rest := Lines(notes[1..], nl) + s;
      assert Lines(notes, nl) + s == notes[0] + (nl + rest);
      NoteSkipped(noCase, multiLine, notes[0], nl, rest);
      NotesSkipped(noCase, multiLine, notes[1..], nl, s, ini, name);
    }
  }

  // ---------- how an entry is written ----------

  datatype Entry = SectionEntry(name: string) | KeyEntry(key: string, val: string)

  /** The lines before an entry, the blanks in its line, its line end, and the tag if the value is a
      tagged block. */
  datatype Layout = Layout(notes: seq<string>, indent: string, inner: string, outer: string, last: string, nl: string,
                           tag: Option<string>)

  function SectionText(name: string, l: Layout, tail: string): string {
    l.indent + ("[" + (l.inner + (name + (l.outer + ("]" + (l.last + (l.nl + tail)))))))
  }

  /** A key line whose value and everything after it is `t`. */
  function KeyText(k: string, l: Layout, t: string): string {
    l.indent + (k + (l.inner + ("=" + (l.outer + t))))
  }

  function ValueText(v: string, l: Layout, tail: string): string {
    match l.tag
    case None => v + (l.last + (l.nl + tail))
    case Some(tag) => ("<<<" + tag) + (l.last + (l.nl + (Lines(Split(v), l.nl) + tag + l.nl + tail)))
  }

  function EntryText(e: Entry, l: Layout, tail: string): string {
    match e
    case SectionEntry(name) => SectionText(name, l, tail)
    case KeyEntry(k, v) => KeyText(k, l, ValueText(v, l, tail))
  }

  predicate GoodTag(noCase: bool, v: string, tag: string) {
    && tag != [] && OneLine(tag) && Visible(tag[|tag| - 1]) && '\r' !in v
    && forall line :: line in Split(v) ==> !Same(noCase, line, tag)
  }

  /** The entry can be read back from its text: a name is trimmed and free of its delimiter, a value fits
      on a line, or no line of it is the tag. */
  predicate Readable(noCase: bool, multiLine: bool, e: Entry, l: Layout) {
    && Blank(l.indent) && Blank(l.inner) && Blank(l.outer) && (l.nl == "\n" || l.nl == "\r\n")
    && match e
       case SectionEntry(name) => GoodName(name) && OneLine(l.last)
       case KeyEntry(k, v) =>
         && GoodKey(k) && Blank(l.last)
         && match l.tag
            case None => OneLine(v) && Trimmed(v) && !(multiLine && "<<<" <= v)
            case Some(tag) => multiLine && GoodTag(noCase, v, tag)
  }

  ghost predicate AllReadable(noCase: bool, multiLine: bool, entries: seq<Entry>, layouts: seq<Layout>) {
    && |entries| == |layouts|
    && (forall i :: 0 <= i < |entries| ==> Readable(noCase, multiLine, entries[i], layouts[i]))
    && forall i, j :: 0 <= i < |layouts| && 0 <= j < |layouts[i].notes| ==> Note(layouts[i].notes[j])
  }

  function Written(entries: seq<Entry>, layouts: seq<Layout>, tail: string): string
    requires |entries| == |layouts|
  {
    if entries == [] then tail
    else
      Lines(layouts[0].notes, layouts[0].nl)
      + EntryText(entries[0], layouts[0], Written(entries[1..], layouts[1..], tail))
  }

  // ---------- reading one entry ----------

  lemma SectionFound(noCase: bool, multiLine: bool, name: string, l: Layout, tail: string)
    requires Readable(noCase, multiLine, SectionEntry(name), l)
    ensures FindEntry(noCase, multiLine, SectionText(name, l, tail)) == SectionLine(name, l.nl + tail)
  {
    hide FindEntry, TrimLeft, TrimRight, Until, LineEnd;
    var end := l.last + (l.nl + tail);
    var v := name + (l.outer + ("]" + end));
    var s := "[" + (l.inner + v);
    BlanksAreSpaces(l.indent);
    FindSkips(noCase, multiLine, l.indent, s);
    BlanksAreSpaces(l.inner);
    SpacesSkipped(l.inner, v);
    SectionName(name, l.outer, end);
    LineEndAt(end, |l.last|);
    Halves(l.last, l.nl + tail);
    Halves("[", l.inner + v);
    SectionHere(noCase, multiLine, s, v, |name| + |l.outer|, end);
  }

  lemma SectionHere(noCase: bool, multiLine: bool, s: string, v: string, e: nat, end: string)
    requires s != [] && s[0] == '[' && TrimLeft(s[1..]) == v
    requires Until(v, ']') == e < |v| && v[e] == ']' && v[e + 1..] == end
    ensures FindEntry(noCase, multiLine, s) == SectionLine(TrimRight(v[..e]), end[LineEnd(end)..])
  {
    hide TrimRight, Until, LineEnd;
    assert TrimLeft(s) == s;
  }

  lemma SectionName(name: string, outer: string, end: string)
    requires GoodName(name) && Blank(outer)
    ensures var v, e := name + (outer + ("]" + end)), |name| + |outer|;
            && TrimLeft(v) == v && Until(v, ']') == e < |v| && v[e] == ']'
            && TrimRight(v[..e]) == name && v[e + 1..] == end
  {
    var v, e := name + (outer + ("]" + end)), |name| + |outer|;
    assert v == (name + outer) + ("]" + end);
    Halves(name + outer, "]" + end);
    UntilAt(v, ']', e);
    BlanksCut(name, outer);
  }

  lemma KeyName(k: string, inner: string, t: string)
    requires GoodKey(k) && Blank(inner)
    ensures var s, e := k + (inner + ("=" + t)), |k| + |inner|;
            && TrimLeft(s) == s && s[0] == k[0] && Until(s, '=') == e && 0 < e < |s| && s[e] == '='
            && TrimRight(s[..e]) == k && s[e + 1..] == t
  {
    var s, e := k + (inner + ("=" + t)), |k| + |inner|;
    assert s == (k + inner) + ("=" + t);
    Halves(k + inner, "=" + t);
    UntilAt(s, '=', e);
    BlanksCut(k, inner);
  }

  /** What comes after the '=', up to the end of the line. */
  lemma ValueLine(outer: string, line: string, last: string, nl: string, rest: string)
    requires Blank(outer) && Blank(last) && OneLine(line) && Trimmed(line) && (nl == "\n" || nl == "\r\n")
    ensures var v := TrimBlanks(outer + (line + (last + (nl + rest))));
            TrimRight(v[..LineEnd(v)]) == line && AfterLine(v, LineEnd(v)) == rest
  {
    var t := line + (last + (nl + rest));
    if line == [] {
      assert outer + t == (outer + last) + (nl + rest);
      BlanksSkipped(outer + last, nl + rest);
      AfterPrinted([], nl, rest);
      assert [] + nl + rest == nl + rest;
    } else {
      BlanksSkipped(outer, t);
      assert t == (line + last) + nl + rest;
      AfterPrinted(line + last, nl, rest);
      BlanksCut(line, last);
    }
  }

  /** Reading a key line whose value, or the mark of its block, is `line`. */
  lemma KeyRead(noCase: bool, multiLine: bool, k: string, l: Layout, line: string, rest: string)
    requires GoodKey(k) && Blank(l.indent) && Blank(l.inner) && Blank(l.outer) && Blank(l.last)
    requires OneLine(line) && Trimmed(line) && (l.nl == "\n" || l.nl == "\r\n") && (multiLine ==> line != "<<<")
    ensures FindEntry(noCase, multiLine, KeyText(k, l, line + (l.last + (l.nl + rest))))
         == if multiLine && "<<<" <= line then
              var b := TagBlock(noCase, rest, line[3..]); TagLine(k, b.lines, b.rest, false)
            else KeyLine(k, line, rest, false)
  {
    hide TagBlock;
    var t := l.outer + (line + (l.last + (l.nl + rest)));
    var s := k + (l.inner + ("=" + t));
    BlanksAreSpaces(l.indent);
    FindSkips(noCase, multiLine, l.indent, s);
    KeyName(k, l.inner, t);
    ValueLine(l.outer, line, l.last, l.nl, rest);
    assert multiLine && TagMark(line) ==> |line| != 3;
  }

  lemma BlockStep(noCase: bool, line: string, nl: string, tail: string, tag: string)
    requires !Same(noCase, line, tag) && nl != []
    requires LineEnd(line + nl + tail) == |line| && (line + nl + tail)[..|line|] == line
    requires AfterLine(line + nl + tail, |line|) == tail
    ensures TagBlock(noCase, line + nl + tail, tag)
         == Block([line] + TagBlock(noCase, tail, tag).lines, TagBlock(noCase, tail, tag).rest)
  {
    hide Same;
  }

  lemma BlockEnd(noCase: bool, nl: string, tag: string, rest: string)
    requires OneLine(tag) && (nl == "\n" || nl == "\r\n")
    ensures TagBlock(noCase, tag + nl + rest, tag) == Block([], rest)
  {
    AfterPrinted(tag, nl, rest);
  }

  lemma LinesText(lines: seq<string>, nl: string, tag: string, rest: string)
    ensures Lines(lines, nl) + tag + nl + rest
         == if lines == [] then tag + nl + rest
            else lines[0] + nl + (Lines(lines[1..], nl) + tag + nl + rest)
  {
    if lines == [] {
      Halves([], tag);
    } else {
      var a, b := lines[0] + nl, Lines(lines[1..], nl);
      Assoc(a, b, tag);
      Assoc(a, b + tag, nl);
      Assoc(a, b + tag + nl, rest);
    }
  }

  lemma {:induction false} BlockRead(noCase: bool, lines: seq<string>, nl: string, tag: string, rest: string)
    requires OneLine(tag) && (nl == "\n" || nl == "\r\n")
    requires forall line :: line in lines ==> OneLine(line) && !Same(noCase, line, tag)
    ensures TagBlock(noCase, Lines(lines, nl) + tag + nl + rest, tag) == Block(lines, rest)
  {
    hide Same, Lines, TagBlock, OneLine;
    LinesText(lines, nl, tag, rest);
    if lines == [] {
      BlockEnd(noCase, nl, tag, rest);
    } else {
      var tail := Lines(lines[1..], nl) + tag + nl + rest;
      AfterPrinted(lines[0], nl, tail);
      BlockRead(noCase, lines[1..], nl, tag, rest);
      BlockStep(noCase, lines[0], nl, tail, tag);
      assert lines == [lines[0]] + lines[1..];
    }
  }

  lemma {:induction false} SplitLines(v: string)
    requires '\r' !in v
    ensures forall line :: line in Split(v) ==> OneLine(line)
    ensures Joined(Split(v)) == v
  {
    if v != [] {
      SplitLines(v[1..]);
      var rest := Split(v[1..]);
      assert v == [v[0]] + v[1..];
      if v[0] == '\n' {
        assert Split(v)[1..] == rest;
      } else {
        assert Split(v)[1..] == rest[1..];
        assert Joined(Split(v)) == [v[0]] + Joined(rest);
        assert OneLine(rest[0]);
        forall line | line in Split(v) ensures OneLine(line) {
          assert line == [v[0]] + rest[0] || line in rest;
        }
      }
    }
  }

  lemma TagFound(noCase: bool, k: string, v: string, l: Layout, tail: string)
    requires Readable(noCase, true, KeyEntry(k, v), l) && l.tag.Some?
    ensures FindEntry(noCase, true, EntryText(KeyEntry(k, v), l, tail)) == TagLine(k, Split(v), tail, false)
  {
    hide FindEntry, KeyText, Split, Lines, TagBlock;
    var tag := l.tag.value;
    var mark := "<<<" + tag;
    assert mark[..3] == "<<<" && mark[3..] == tag;
    KeyRead(noCase, true, k, l, mark, Lines(Split(v), l.nl) + tag + l.nl + tail);
    SplitLines(v);
    BlockRead(noCase, Split(v), l.nl, tag, tail);
  }

  function EntryTaken(noCase: bool, p: Progress, e: Entry): Progress {
    match e
    case SectionEntry(name) => Progress(WithSection(noCase, p.ini, name), name)
    case KeyEntry(k, v) => p.(ini := WithEntry(noCase, p.ini, p.name, k, v))
  }

  lemma EntryLoaded(noCase: bool, multiLine: bool, e: Entry, l: Layout, tail: string, p: Progress)
    requires Readable(noCase, multiLine, e, l)
    ensures var p' := EntryTaken(noCase, p, e);
            Loaded(noCase, multiLine, EntryText(e, l, tail), p.ini, p.name) == Loaded(noCase, multiLine, tail, p'.ini, p'.name)
  {
    hide FindEntry, WithEntry, WithSection, KeyText, SectionText, Split, Lines, Joined;
    match e
    case SectionEntry(name) =>
      SectionFound(noCase, multiLine, name, l, tail);
      LoadedSkips(noCase, multiLine, l.nl, tail, WithSection(noCase, p.ini, name), name);
    case KeyEntry(k, v) =>
      if l.tag.Some? {
        TagFound(noCase, k, v, l, tail);
        SplitLines(v);
        SplitSome(v);
      } else {
        KeyRead(noCase, multiLine, k, l, v, tail);
      }
  }

  lemma SplitSome(v: string)
    ensures Split(v) != []
  {
  }

  // ---------- reading a whole text ----------

  function AllTaken(noCase: bool, p: Progress, entries: seq<Entry>): Progress
    decreases |entries|
  {
    if entries == [] then p else AllTaken(noCase, EntryTaken(noCase, p, entries[0]), entries[1..])
  }

  lemma {:induction false} WrittenLoaded(noCase: bool, multiLine: bool, entries: seq<Entry>, layouts: seq<Layout>,
                                         tail: string, p: Progress)
    requires AllReadable(noCase, multiLine, entries, layouts)
    ensures var p' := AllTaken(noCase, p, entries);
            Loaded(noCase, multiLine, Written(entries, layouts, tail), p.ini, p.name)
            == Loaded(noCase, multiLine, tail, p'.ini, p'.name)
    decreases |entries|
  {
    hide Loaded, Readable, Note, EntryTaken, EntryText;
    if entries != [] {
      var l, more := layouts[0], Written(entries[1..], layouts[1..], tail);
      LayoutNl(noCase, multiLine, entries[0], l);
      NotesSkipped(noCase, multiLine, l.notes, l.nl, EntryText(entries[0], l, more), p.ini, p.name);
      EntryLoaded(noCase, multiLine, entries[0], l, more, p);
      WrittenLoaded(noCase, multiLine, entries[1..], layouts[1..], tail, EntryTaken(noCase, p, entries[0]));
    }
  }

  lemma LayoutNl(noCase: bool, multiLine: bool, e: Entry, l: Layout)
    requires Readable(noCase, multiLine, e, l)
    ensures l.nl == "\n" || l.nl == "\r\n"
  {
  }

  // ---------- the entries of a store ----------

  function KeyEntries(keys: seq<(string, string)>): (r: seq<Entry>) {
    if keys == [] then [] else [KeyEntry(keys[0].0, keys[0].1)] + KeyEntries(keys[1..])
  }

  /** The sections and keys of a store, one after the other. */
  function EntriesOf(ini: seq<Section>): seq<Entry> {
    if ini == [] then [] else SectionEntries(ini[0]) + EntriesOf(ini[1..])
  }

  function SectionEntries(s: Section): seq<Entry> {
    (if s.name == [] then [] else [SectionEntry(s.name)]) + KeyEntries(s.keys)
  }

  lemma NoSuchSection(noCase: bool, ini: seq<Section>, s: Section)
    requires forall i :: 0 <= i < |ini| ==> !Same(noCase, ini[i].name, s.name)
    ensures SectionIndex(noCase, ini, s.name) == |ini| && SectionIndex(noCase, ini + [s], s.name) == |ini|
  {
    var all := ini + [s];
    assert all[|ini|] == s;
    assert forall i :: 0 <= i < |ini| ==> all[i] == ini[i];
  }

  lemma EntryAppended(noCase: bool, ini: seq<Section>, name: string, keys: seq<(string, string)>, k: string, v: string)
    requires forall i :: 0 <= i < |ini| ==> !Same(noCase, ini[i].name, name)
    requires forall i :: 0 <= i < |keys| ==> !Same(noCase, keys[i].0, k)
    ensures WithEntry(noCase, ini + [Section(name, keys)], name, k, v) == ini + [Section(name, keys + [(k, v)])]
  {
    hide Same, SectionIndex, KeyIndex;
    NoSuchSection(noCase, ini, Section(name, keys));
    assert KeyIndex(noCase, keys, k) == |keys|;
  }

  lemma {:induction false} TakenTogether(noCase: bool, p: Progress, a: seq<Entry>, b: seq<Entry>)
    ensures AllTaken(noCase, p, a + b) == AllTaken(noCase, AllTaken(noCase, p, a), b)
    decreases |a|
  {
    hide EntryTaken;
    if a == [] {
      assert a + b == b;
    } else {
      assert (a + b)[1..] == a[1..] + b;
      TakenTogether(noCase, EntryTaken(noCase, p, a[0]), a[1..], b);
    }
  }

  lemma {:induction false} KeysTaken(noCase: bool, ini: seq<Section>, s: Section, n: nat)
    requires n <= |s.keys| && DistinctKeys(noCase, s.keys)
    requires forall i :: 0 <= i < |ini| ==> !Same(noCase, ini[i].name, s.name)
    ensures AllTaken(noCase, Progress(ini + [Section(s.name, s.keys[..n])], s.name), KeyEntries(s.keys[n..]))
         == Progress(ini + [s], s.name)
    decreases |s.keys| - n
  {
    hide Same, WithEntry;
    if n == |s.keys| {
      assert s.keys[..n] == s.keys;
    } else {
      var k := s.keys[n];
      assert s.keys[n..][1..] == s.keys[n + 1..] && s.keys[..n] + [(k.0, k.1)] == s.keys[..n + 1];
      EntryAppended(noCase, ini, s.name, s.keys[..n], k.0, k.1);
      KeysTaken(noCase, ini, s, n + 1);
    }
  }

  lemma FirstEntry(noCase: bool, k: string, v: string)
    ensures WithEntry(noCase, [], [], k, v) == [Section([], [(k, v)])]
  {
    var one := [Section([], [])];
    assert WithSection(noCase, [], []) == one && one[0].name == [];
    assert SectionIndex(noCase, one, []) == 0;
    assert WithKey(noCase, [], k, v) == [(k, v)];
    assert one[0 := Section([], [(k, v)])] == [Section([], [(k, v)])];
  }

  lemma SectionTaken(noCase: bool, ini: seq<Section>, s: Section, name: string)
    requires DistinctKeys(noCase, s.keys) && forall i :: 0 <= i < |ini| ==> !Same(noCase, ini[i].name, s.name)
    requires s.name != [] || (ini == [] && s.keys != [] && name == [])
    ensures AllTaken(noCase, Progress(ini, name), SectionEntries(s)) == Progress(ini + [s], s.name)
  {
    hide Same, WithEntry;
    assert s.keys[0..] == s.keys && s.keys[..0] == [];
    if s.name != [] {
      assert SectionEntries(s)[1..] == KeyEntries(s.keys);
      NoSuchSection(noCase, ini, s);
      KeysTaken(noCase, ini, s, 0);
    } else {
      var k := s.keys[0];
      assert SectionEntries(s) == KeyEntries(s.keys);
      FirstEntry(noCase, k.0, k.1);
      assert s.keys[..1] == [(k.0, k.1)];
      assert [] + [Section([], s.keys[..1])] == [Section([], [(k.0, k.1)])];
      KeysTaken(noCase, [], s, 1);
    }
  }

  lemma {:induction false} EntriesTaken(noCase: bool, ini: seq<Section>, i: nat, name: string)
    requires Distinct(noCase, ini) && i <= |ini| && (i == 0 ==> name == [])
    ensures AllTaken(noCase, Progress(ini[..i], name), EntriesOf(ini[i..])).ini == ini
    decreases |ini| - i
  {
    hide Same, DistinctKeys, SectionEntries, EntryTaken;
    if i == |ini| {
      assert ini[..i] == ini;
    } else {
      assert ini[i..][0] == ini[i] && ini[i..][1..] == ini[i + 1..] && ini[..i] + [ini[i]] == ini[..i + 1];
      TakenTogether(noCase, Progress(ini[..i], name), SectionEntries(ini[i]), EntriesOf(ini[i + 1..]));
      SectionTaken(noCase, ini[..i], ini[i], name);
      EntriesTaken(noCase, ini, i + 1, ini[i].name);
    }
  }

  /** However a store is laid out, with comments, blank lines, lines without '=' and lines without a key
      before its entries and after them, with blanks around its names and values, any of the two line ends
      and values on their line or in blocks: loading the text gives the store, its order included. */
  lemma WrittenIsRead(noCase: bool, multiLine: bool, ini: seq<Section>, layouts: seq<Layout>, notes: seq<string>)
    requires Distinct(noCase, ini) && AllReadable(noCase, multiLine, EntriesOf(ini), layouts)
    requires forall i :: 0 <= i < |notes| ==> Note(notes[i])
    ensures Loaded(noCase, multiLine, Written(EntriesOf(ini), layouts, Lines(notes, "\n")), [], []) == Some(ini)
  {
    hide Distinct, AllReadable, Note, Written, EntriesOf;
    WrittenLoaded(noCase, multiLine, EntriesOf(ini), layouts, Lines(notes, "\n"), Progress([], []));
    assert ini[..0] == [] && ini[0..] == ini;
    EntriesTaken(noCase, ini, 0, []);
    NotesSkipped(noCase, multiLine, notes, "\n", "", ini, AllTaken(noCase, Progress([], []), EntriesOf(ini)).name);
    assert Lines(notes, "\n") + "" == Lines(notes, "\n");
  }

  // ---------- the printer's layout ----------

  function Gap(o: Style): string {
    if o.spaces then " " else ""
  }

  function KeyLayout(v: string, o: Style): Layout {
    Layout([], "", Gap(o), Gap(o), "", o.nl, if o.multiLine && IsMultiLine(v) then Some(END_TAG) else None)
  }

  function KeyLayouts(keys: seq<(string, string)>, o: Style): (r: seq<Layout>)
    ensures |r| == |KeyEntries(keys)|
  {
    if keys == [] then [] else [KeyLayout(keys[0].1, o)] + KeyLayouts(keys[1..], o)
  }

  /** A section line, which has two empty lines before it unless it is the first. */
  function SectionLayouts(s: Section, o: Style, first: bool): (r: seq<Layout>)
    ensures |r| == |SectionEntries(s)|
  {
    (if s.name == [] then [] else [Layout(if first then [] else ["", ""], "", "", "", "", o.nl, None)])
    + KeyLayouts(s.keys, o)
  }

  function PrinterLayouts(ini: seq<Section>, o: Style, first: bool): (r: seq<Layout>)
    ensures |r| == |EntriesOf(ini)|
    decreases |ini|
  {
    if ini == [] then [] else SectionLayouts(ini[0], o, first) + PrinterLayouts(ini[1..], o, false)
  }

  lemma {:induction false} WrittenTogether(a: seq<Entry>, b: seq<Entry>, la: seq<Layout>, lb: seq<Layout>, tail: string)
    requires |a| == |la| && |b| == |lb|
    ensures Written(a + b, la + lb, tail) == Written(a, la, Written(b, lb, tail))
    decreases |a|
  {
    hide EntryText;
    if a == [] {
      assert a + b == b && la + lb == lb;
    } else {
      assert (a + b)[1..] == a[1..] + b && (la + lb)[1..] == la[1..] + lb;
      WrittenTogether(a[1..], b, la[1..], lb, tail);
    }
  }

  lemma KeyIsWritten(k: string, v: string, o: Style, tail: string)
    ensures PrintedKey(k, v, o) + tail == EntryText(KeyEntry(k, v), KeyLayout(v, o), tail)
  {
    hide IsMultiLine, Split, Lines;
    var l := KeyLayout(v, o);
    var t := PrintedValue(v, o) + o.nl + tail;
    KeyParts(k, o, PrintedValue(v, o) + o.nl, tail);
    assert t == ValueText(v, l, tail) by { ValueIsWritten(v, o, tail); }
  }

  lemma KeyParts(k: string, o: Style, a: string, tail: string)
    ensures k + (if o.spaces then " = " else "=") + a + tail == "" + (k + (Gap(o) + ("=" + (Gap(o) + (a + tail)))))
  {
    assert " " + ("=" + (" " + (a + tail))) == " = " + (a + tail);
  }

  lemma ValueIsWritten(v: string, o: Style, tail: string)
    ensures PrintedValue(v, o) + o.nl + tail == ValueText(v, KeyLayout(v, o), tail)
  {
    hide IsMultiLine, Split, Lines;
    if o.multiLine && IsMultiLine(v) {
      var text := Lines(Split(v), o.nl);
      var block := text + END_TAG + o.nl + tail;
      assert "<<<" + END_TAG + o.nl + text + END_TAG + o.nl + tail == ("<<<" + END_TAG) + ("" + (o.nl + block));
    } else {
      assert "" + (o.nl + tail) == o.nl + tail;
    }
  }

  lemma NoNotes(v: string, o: Style, s: string)
    ensures Lines(KeyLayout(v, o).notes, KeyLayout(v, o).nl) + s == s
  {
    assert Lines([], o.nl) == "";
  }

  lemma {:induction false} KeysAreWritten(keys: seq<(string, string)>, o: Style, tail: string)
    ensures PrintedKeys(keys, o) + tail == Written(KeyEntries(keys), KeyLayouts(keys, o), tail)
    decreases |keys|
  {
    hide PrintedKey, EntryText, KeyLayout;
    if keys == [] {
      assert PrintedKeys(keys, o) + tail == tail;
    } else {
      var rest := PrintedKeys(keys[1..], o) + tail;
      assert PrintedKeys(keys, o) + tail == PrintedKey(keys[0].0, keys[0].1, o) + rest;
      assert KeyEntries(keys)[1..] == KeyEntries(keys[1..]) && KeyLayouts(keys, o)[1..] == KeyLayouts(keys[1..], o);
      KeyIsWritten(keys[0].0, keys[0].1, o, rest);
      KeysAreWritten(keys[1..], o, tail);
      NoNotes(keys[0].1, o, rest);
    }
  }

  lemma SectionIsWritten(s: Section, o: Style, first: bool, tail: string)
    requires first || s.name != []
    ensures (if first then "" else o.nl + o.nl) + (PrintedSection(s, o) + tail)
         == Written(SectionEntries(s), SectionLayouts(s, o, first), tail)
  {
    hide PrintedKeys, KeyEntries, KeyLayouts, EntryText, Lines;
    KeysAreWritten(s.keys, o, tail);
    if s.name == [] {
      UnnamedIsWritten(s, o, first, tail);
    } else {
      NamedIsWritten(s, o, first, tail);
      SectionParts(s, o, first, PrintedKeys(s.keys, o), tail);
    }
  }

  lemma UnnamedIsWritten(s: Section, o: Style, first: bool, tail: string)
    requires s.name == []
    ensures "" + (PrintedSection(s, o) + tail) == PrintedKeys(s.keys, o) + tail
    ensures SectionEntries(s) == KeyEntries(s.keys) && SectionLayouts(s, o, first) == KeyLayouts(s.keys, o)
  {
    hide PrintedKeys, KeyEntries, KeyLayouts;
  }

  lemma NamedIsWritten(s: Section, o: Style, first: bool, tail: string)
    requires s.name != []
    ensures var l := Layout(if first then [] else ["", ""], "", "", "", "", o.nl, None);
            var rest := Written(KeyEntries(s.keys), KeyLayouts(s.keys, o), tail);
            Written(SectionEntries(s), SectionLayouts(s, o, first), tail)
            == Lines(l.notes, l.nl) + EntryText(SectionEntry(s.name), l, rest)
  {
    hide KeyEntries, KeyLayouts, EntryText, Lines;
    assert SectionEntries(s)[1..] == KeyEntries(s.keys) && SectionLayouts(s, o, first)[1..] == KeyLayouts(s.keys, o);
  }

  lemma SectionParts(s: Section, o: Style, first: bool, keys: string, tail: string)
    requires s.name != []
    ensures var l := Layout(if first then [] else ["", ""], "", "", "", "", o.nl, None);
            (if first then "" else o.nl + o.nl) + ("[" + s.name + "]" + o.nl + keys + tail)
            == Lines(l.notes, l.nl) + EntryText(SectionEntry(s.name), l, keys + tail)
  {
    var line := "[" + s.name + "]" + o.nl + keys + tail;
    assert "" + ("[" + ("" + (s.name + ("" + ("]" + ("" + (o.nl + (keys + tail)))))))) == line;
    if first {
      assert Lines([], o.nl) == "";
    } else {
      assert ["", ""][1..] == [""] && Lines([""], o.nl) == o.nl;
      assert Lines(["", ""], o.nl) == o.nl + o.nl;
    }
  }

  lemma {:induction false} PrintedIsWritten(ini: seq<Section>, o: Style, first: bool)
    requires ini != [] && (first || ini[0].name != []) && forall i :: 0 < i < |ini| ==> ini[i].name != []
    ensures (if first then "" else o.nl + o.nl) + Printed(ini, o) == Written(EntriesOf(ini), PrinterLayouts(ini, o, first), "")
    decreases |ini|
  {
    hide PrintedSection, SectionEntries, SectionLayouts;
    var rest := if |ini| == 1 then "" else o.nl + o.nl + Printed(ini[1..], o);
    assert Printed(ini, o) == PrintedSection(ini[0], o) + rest;
    if |ini| > 1 {
      PrintedIsWritten(ini[1..], o, false);
    }
    SectionIsWritten(ini[0], o, first, rest);
    WrittenTogether(SectionEntries(ini[0]), EntriesOf(ini[1..]), SectionLayouts(ini[0], o, first),
                    PrinterLayouts(ini[1..], o, false), "");
  }

  lemma EmptyIsNote()
    ensures Note("")
  {
    assert NoteFrom("", 0);
  }

  lemma {:induction false} KeysReadable(noCase: bool, keys: seq<(string, string)>, o: Style)
    requires GoodStyle(o) && o.multiLine && forall e :: e in keys ==> GoodKey(e.0) && GoodValue(noCase, e.1)
    ensures AllReadable(noCase, true, KeyEntries(keys), KeyLayouts(keys, o))
  {
    hide GoodKey, Note;
    if keys != [] {
      assert keys[0] in keys;
      KeyReadable(noCase, keys[0].0, keys[0].1, o);
      KeysReadable(noCase, keys[1..], o);
      Readables(noCase, [KeyEntry(keys[0].0, keys[0].1)], [KeyLayout(keys[0].1, o)],
                KeyEntries(keys[1..]), KeyLayouts(keys[1..], o));
    }
  }

  lemma KeyReadable(noCase: bool, k: string, v: string, o: Style)
    requires GoodStyle(o) && o.multiLine && GoodKey(k) && GoodValue(noCase, v)
    ensures Readable(noCase, true, KeyEntry(k, v), KeyLayout(v, o))
  {
    hide GoodKey, Split;
  }

  lemma Readables(noCase: bool, a: seq<Entry>, la: seq<Layout>, b: seq<Entry>, lb: seq<Layout>)
    requires AllReadable(noCase, true, a, la) && AllReadable(noCase, true, b, lb)
    ensures AllReadable(noCase, true, a + b, la + lb)
  {
    hide Readable, Note;
  }

  lemma SectionReadable(noCase: bool, s: Section, o: Style, first: bool)
    requires GoodStyle(o) && o.multiLine && GoodKeys(noCase, s.keys) && (s.name == [] || GoodName(s.name))
    ensures AllReadable(noCase, true, SectionEntries(s), SectionLayouts(s, o, first))
  {
    hide GoodKey, GoodValue, GoodName, Note, KeyEntries, KeyLayouts, DistinctKeys;
    KeysReadable(noCase, s.keys, o);
    var head := if s.name == [] then [] else [SectionEntry(s.name)];
    var lines := if s.name == [] then [] else [Layout(if first then [] else ["", ""], "", "", "", "", o.nl, None)];
    EmptyIsNote();
    Readables(noCase, head, lines, KeyEntries(s.keys), KeyLayouts(s.keys, o));
  }

  lemma {:induction false} StoreReadable(noCase: bool, ini: seq<Section>, o: Style, first: bool)
    requires GoodStyle(o) && o.multiLine
    requires forall i :: 0 <= i < |ini| ==> GoodKeys(noCase, ini[i].keys) && (ini[i].name == [] || GoodName(ini[i].name))
    ensures AllReadable(noCase, true, EntriesOf(ini), PrinterLayouts(ini, o, first))
    decreases |ini|
  {
    hide GoodKeys, GoodName, AllReadable, SectionEntries, SectionLayouts;
    if ini == [] {
      NoneReadable(noCase);
    } else {
      SectionReadable(noCase, ini[0], o, first);
      StoreReadable(noCase, ini[1..], o, false);
      Readables(noCase, SectionEntries(ini[0]), SectionLayouts(ini[0], o, first), EntriesOf(ini[1..]),
                PrinterLayouts(ini[1..], o, false));
    }
  }

  lemma NoneReadable(noCase: bool)
    ensures AllReadable(noCase, true, [], [])
  {
  }

  /** Round trip: reading what was printed gives back the same sections, keys and values in the same
      order, multi-line values included. */
  lemma PrintedIsReadBack(noCase: bool, o: Style, ini: seq<Section>)
    requires GoodStyle(o) && o.multiLine && GoodIni(noCase, ini)
    ensures Loaded(noCase, true, Printed(ini, o), [], []) == Some(ini)
  {
    hide Same, GoodKeys, GoodName, DistinctKeys, AllReadable, Written, Loaded, EntriesOf, PrinterLayouts;
    if ini == [] {
      NothingLoaded(noCase);
    } else {
      PrintedIsWritten(ini, o, true);
      assert "" + Printed(ini, o) == Printed(ini, o);
      StoreReadable(noCase, ini, o, true);
      WrittenIsRead(noCase, true, ini, PrinterLayouts(ini, o, true), []);
    }
  }

  lemma NothingLoaded(noCase: bool)
    ensures Loaded(noCase, true, [], [], []) == Some([])
  {
  }

  // ---------- line ends in a tagged block ----------

  /** Lines, each with its own line end; a lone '\r' does not stand before a '\n', in the lines or in
      what comes after them. */
  predicate Separated(lines: seq<(string, string)>, after: string) {
    && (forall i :: 0 <= i < |lines| ==> OneLine(lines[i].0) && LineEnding(lines[i].1))
    && (forall i :: 0 <= i < |lines| - 1 && lines[i].1 == "\r" ==> lines[i + 1].0 != [] || lines[i + 1].1 != "\n")
    && (lines != [] && lines[|lines| - 1].1 == "\r" ==> after == [] || after[0] != '\n')
  }

  function Mixed(lines: seq<(string, string)>): string {
    if lines == [] then [] else lines[0].0 + lines[0].1 + Mixed(lines[1..])
  }

  function Contents(lines: seq<(string, string)>): (r: seq<string>)
    ensures |r| == |lines|
  {
    seq(|lines|, i requires 0 <= i < |lines| => lines[i].0)
  }

  lemma TagEnds(noCase: bool, tag: string, rest: string)
    requires OneLine(tag) && (rest == [] || IsNewLine(rest[0]))
    ensures TagBlock(noCase, tag + rest, tag) == Block([], if rest == [] then [] else SkipNewLine(rest))
  {
    LineEndAt(tag + rest, |tag|);
    assert (tag + rest)[..|tag|] == tag && (tag + rest)[|tag|..] == rest;
  }

  lemma MixedStart(lines: seq<(string, string)>, tag: string, rest: string)
    requires lines != [] && Separated(lines, tag + rest)
    ensures var tail := Mixed(lines[1..]) + tag + rest; lines[0].1 == "\r" ==> tail == [] || tail[0] != '\n'
  {
    if lines[0].1 == "\r" {
      if |lines| > 1 {
        var next := lines[1];
        assert lines[1..][0] == next;
        assert OneLine(next.0) && LineEnding(next.1);
        assert (next.0 + next.1)[0] == if next.0 != [] then next.0[0] else next.1[0];
        assert next.0 != [] ==> next.0[0] in next.0;
        assert (next.0 + next.1 + Mixed(lines[1..][1..]))[0] == (next.0 + next.1)[0];
      } else {
        assert Mixed(lines[1..]) + tag + rest == tag + rest;
      }
    }
  }

  lemma MixedText(lines: seq<(string, string)>, tag: string, rest: string)
    requires lines != []
    ensures Mixed(lines) + tag + rest == lines[0].0 + lines[0].1 + (Mixed(lines[1..]) + tag + rest)
  {
  }

  /** A tagged block gives its lines whatever mix of LF, CR and CRLF ends them and the tag, so that the
      value has single '\n' characters between them. */
  lemma {:induction false} AnyLineEnds(noCase: bool, lines: seq<(string, string)>, tag: string, rest: string)
    requires OneLine(tag) && Separated(lines, tag + rest) && (rest == [] || IsNewLine(rest[0]))
    requires forall i :: 0 <= i < |lines| ==> !Same(noCase, lines[i].0, tag)
    ensures TagBlock(noCase, Mixed(lines) + tag + rest, tag)
         == Block(Contents(lines), if rest == [] then [] else SkipNewLine(rest))
  {
    hide Same, Mixed, TagBlock, OneLine;
    if lines == [] {
      NothingMixed(tag, rest);
      TagEnds(noCase, tag, rest);
    } else {
      var tail := Mixed(lines[1..]) + tag + rest;
      MixedText(lines, tag, rest);
      MixedStart(lines, tag, rest);
      AfterPrinted(lines[0].0, lines[0].1, tail);
      AnyLineEnds(noCase, lines[1..], tag, rest);
      BlockStep(noCase, lines[0].0, lines[0].1, tail, tag);
      assert Contents(lines) == [lines[0].0] + Contents(lines[1..]);
    }
  }

  /** A block without its end tag goes to the end of the text. */
  lemma {:induction false} BlockUnended(noCase: bool, lines: seq<string>, nl: string, last: string, tag: string)
    requires (nl == "\n" || nl == "\r\n") && OneLine(last) && !Same(noCase, last, tag)
    requires forall i :: 0 <= i < |lines| ==> OneLine(lines[i]) && !Same(noCase, lines[i], tag)
    ensures TagBlock(noCase, Lines(lines, nl) + last, tag) == Block(lines + [last], [])
  {
    hide Same, OneLine, Lines, TagBlock;
    if lines == [] {
      LastUnended(noCase, nl, last, tag);
      assert [] + [last] == [last];
    } else {
      var tail := Lines(lines[1..], nl) + last;
      assert Lines(lines, nl) + last == lines[0] + nl + tail by { LinesFirst(lines, nl); }
      AfterPrinted(lines[0], nl, tail);
      BlockUnended(noCase, lines[1..], nl, last, tag);
      BlockStep(noCase, lines[0], nl, tail, tag);
      assert lines == [lines[0]] + lines[1..];
    }
  }

  lemma LastUnended(noCase: bool, nl: string, last: string, tag: string)
    requires OneLine(last) && !Same(noCase, last, tag)
    ensures TagBlock(noCase, Lines([], nl) + last, tag) == Block([last], [])
  {
    hide Same;
    assert Lines([], nl) + last == last;
    LineEndAt(last, |last|);
    assert last[..|last|] == last;
  }

  lemma LinesFirst(lines: seq<string>, nl: string)
    requires lines != []
    ensures Lines(lines, nl) == lines[0] + nl + Lines(lines[1..], nl)
  {
  }

  lemma NothingMixed(tag: string, rest: string)
    ensures Mixed([]) + tag + rest == tag + rest
  {
    assert Mixed([]) == [];
  }
}
