/** The text of an INI file: what the tokenizer reads in it, and what the printer writes. */
module IniText {
  import opened Options
  import opened CStrings

  predicate IsSpace(c: char) {
    c == ' ' || c == '\t' || c == '\r' || c == '\n'
  }

  predicate IsNewLine(c: char) {
    c == '\n' || c == '\r'
  }

  predicate IsComment(c: char) {
    c == ';' || c == '#'
  }

  predicate OneLine(s: string) {
    '\n' !in s && '\r' !in s
  }

  // ---------- comparing names ----------

  function LowCase(c: char): char {
    if c < 'A' || c > 'Z' then c else c - 'A' + 'a'
  }

  /** A name as the comparison sees it: as it is, or with ASCII letters in lower case. */
  function Fold(noCase: bool, s: string): (r: string)
    ensures |r| == |s|
  {
    if noCase then seq(|s|, i requires 0 <= i < |s| => LowCase(s[i])) else s
  }

  predicate Same(noCase: bool, a: string, b: string) {
    Fold(noCase, a) == Fold(noCase, b)
  }

  /** Names are the same if they are equal or, where case does not matter, differ in the case of ASCII
      letters only. */
  lemma SameMeans(noCase: bool, a: string, b: string)
    ensures Same(noCase, a, b) <==>
      && |a| == |b|
      && forall i :: 0 <= i < |a| ==>
           || a[i] == b[i]
           || (noCase && 'A' <= a[i] <= 'Z' && b[i] as int == a[i] as int + 32)
           || (noCase && 'A' <= b[i] <= 'Z' && a[i] as int == b[i] as int + 32)
  {
    if Same(noCase, a, b) && noCase {
      forall i | 0 <= i < |a| ensures LowCase(a[i]) == LowCase(b[i]) {
        assert Fold(noCase, a)[i] == Fold(noCase, b)[i];
      }
    }
  }

  // ---------- pieces of a line ----------

  /** Characters before the first newline character, or before `c` if that comes first. */
  function Until(s: string, c: char): (n: nat)
    ensures n <= |s| && (n < |s| ==> s[n] == c || IsNewLine(s[n]))
  {
    if s == [] || s[0] == c || IsNewLine(s[0]) then 0 else 1 + Until(s[1..], c)
  }

  function LineEnd(s: string): (n: nat)
    ensures n <= |s| && (n < |s| ==> IsNewLine(s[n]))
  {
    if s == [] || IsNewLine(s[0]) then 0 else 1 + LineEnd(s[1..])
  }

  /** The text without leading whitespace, newlines included. */
  function TrimLeft(s: string): (r: string)
    ensures |r| <= |s|
    ensures r != [] ==> !IsSpace(r[0])
  {
    if s == [] || !IsSpace(s[0]) then s else TrimLeft(s[1..])
  }

  /** The text without leading whitespace on the same line. */
  function TrimBlanks(s: string): (r: string)
    ensures |r| <= |s|
  {
    if s == [] || !IsSpace(s[0]) || IsNewLine(s[0]) then s else TrimBlanks(s[1..])
  }

  function TrimRight(s: string): (r: string)
    ensures r <= s
    ensures r != [] ==> !IsSpace(r[|r| - 1])
  {
    if s == [] || !IsSpace(s[|s| - 1]) then s else TrimRight(s[..|s| - 1])
  }

  /** The text after its first newline: one character, or the two of a DOS line end. */
  function SkipNewLine(s: string): (r: string)
    requires s != []
    ensures |r| < |s|
  {
    if s[0] == '\r' && |s| > 1 && s[1] == '\n' then s[2..] else s[1..]
  }

  /** The text after a line that ends at `n`. */
  function AfterLine(s: string, n: nat): (r: string)
    requires n <= |s|
    ensures |r| <= |s| && (n < |s| ==> |r| < |s| - n)
  {
    if n == |s| then [] else SkipNewLine(s[n..])
  }

  // ---------- tagged blocks and comments ----------

  /** The lines of a tagged block, and the text after it. */
  datatype Block = Block(lines: seq<string>, rest: string)

  /** The lines up to one that equals the tag, or up to the end of the text. */
  function TagBlock(noCase: bool, s: string, tag: string): (b: Block)
    ensures |b.rest| <= |s|
    decreases |s|
  {
    var n := LineEnd(s);
    if Same(noCase, s[..n], tag) then Block([], AfterLine(s, n))
    else if n == |s| then Block([s], [])
    else
      var b := TagBlock(noCase, AfterLine(s, n), tag);
      Block([s[..n]] + b.lines, b.rest)
  }

  /** Lines joined by single '\n' characters. */
  function Joined(lines: seq<string>): string {
    if lines == [] then []
    else if |lines| == 1 then lines[0]
    else lines[0] + "\n" + Joined(lines[1..])
  }

  /** The text after a comment: its lines all start with a comment character; blank lines belong to it
      when another comment line follows. */
  function CommentRest(s: string): (r: string)
    ensures |r| <= |s|
    ensures s != [] && IsComment(s[0]) ==> |r| < |s|
    decreases |s|
  {
    if s == [] || !IsComment(s[0]) then s else
    var after := AfterLine(s, LineEnd(s));
    var next := TrimLeft(after);
    if next != [] && IsComment(next[0]) then CommentRest(next) else after
  }

  /** The text after the comment lines at its very start. */
  function FileRest(s: string): (r: string)
    ensures |r| <= |s|
    decreases |s|
  {
    if s == [] || !IsComment(s[0]) then s else FileRest(AfterLine(s, LineEnd(s)))
  }

  // ---------- entries ----------

  /** What the tokenizer finds next; `stray` says that it passed a section line without ']' on the way,
      and `rest` is the unread text. */
  datatype Found =
    | Nothing
    | SectionLine(name: string, rest: string)
    | KeyLine(key: string, val: string, rest: string, stray: bool)
    | TagLine(key: string, lines: seq<string>, rest: string, stray: bool)

  predicate TagMark(s: string) {
    |s| >= 3 && s[..3] == "<<<"
  }

  predicate Shorter(f: Found, s: string) {
    f.Nothing? || |f.rest| < |s|
  }

  function Strayed(f: Found): Found {
    match f
    case KeyLine(k, v, r, _) => KeyLine(k, v, r, true)
    case TagLine(k, l, r, _) => TagLine(k, l, r, true)
    case _ => f
  }

  /** The key line at the start of `s`, whose first '=' is at `e`. */
  function KeyAt(noCase: bool, multiLine: bool, s: string, e: nat): (f: Found)
    requires 0 < e < |s|
    ensures Shorter(f, s) && !f.SectionLine?
  {
    var key := TrimRight(s[..e]);
    var v := TrimBlanks(s[e + 1..]);
    var n := LineEnd(v);
    var val := TrimRight(v[..n]);
    var rest := AfterLine(v, n);
    if multiLine && TagMark(val) then
      var b := TagBlock(noCase, rest, val[3..]);
      if |val| == 3 && LineEnd(rest) == 0 then Nothing else TagLine(key, b.lines, b.rest, false)
    else KeyLine(key, val, rest, false)
  }

  /** The next section or key in the text, past blank lines, comments and lines that are neither. */
  function FindEntry(noCase: bool, multiLine: bool, s: string): (f: Found)
    ensures Shorter(f, s)
    decreases |s|, 1
  {
    FindHere(noCase, multiLine, TrimLeft(s))
  }

  /** The same for text that does not start with whitespace. */
  function FindHere(noCase: bool, multiLine: bool, t: string): (f: Found)
    ensures Shorter(f, t)
    decreases |t|, 0
  {
    if t == [] || IsSpace(t[0]) then Nothing
    else if IsComment(t[0]) then FindEntry(noCase, multiLine, CommentRest(t))
    else if t[0] == '[' then
      var u := TrimLeft(t[1..]);
      var e := Until(u, ']');
      if e == |u| || u[e] != ']' then Strayed(FindEntry(noCase, multiLine, u[e..]))
      else SectionLine(TrimRight(u[..e]), u[e + 1..][LineEnd(u[e + 1..])..])
    else
      var e := Until(t, '=');
      if e == |t| || t[e] != '=' then FindEntry(noCase, multiLine, t[e..])
      else if e == 0 then FindEntry(noCase, multiLine, t[LineEnd(t)..])
      else KeyAt(noCase, multiLine, t, e)
  }

  // ---------- the ordered store ----------

  /** A section with its keys and values, in the order in which they were first loaded. */
  datatype Section = Section(name: string, keys: seq<(string, string)>)

  function KeyIndex(noCase: bool, keys: seq<(string, string)>, key: string): (i: nat)
    ensures i <= |keys|
    ensures i < |keys| ==> Same(noCase, keys[i].0, key)
    ensures forall j :: 0 <= j < i ==> !Same(noCase, keys[j].0, key)
  {
    if keys == [] || Same(noCase, keys[0].0, key) then 0 else 1 + KeyIndex(noCase, keys[1..], key)
  }

  function SectionIndex(noCase: bool, ini: seq<Section>, name: string): (i: nat)
    ensures i <= |ini|
    ensures i < |ini| ==> Same(noCase, ini[i].name, name)
    ensures forall j :: 0 <= j < i ==> !Same(noCase, ini[j].name, name)
  {
    if ini == [] || Same(noCase, ini[0].name, name) then 0 else 1 + SectionIndex(noCase, ini[1..], name)
  }

  function WithKey(noCase: bool, keys: seq<(string, string)>, key: string, val: string): seq<(string, string)> {
    var i := KeyIndex(noCase, keys, key);
    if i < |keys| then keys[i := (keys[i].0, val)] else keys + [(key, val)]
  }

  function WithSection(noCase: bool, ini: seq<Section>, name: string): seq<Section> {
    if SectionIndex(noCase, ini, name) < |ini| then ini else ini + [Section(name, [])]
  }

  /** The store after one key was added or given a new value. */
  function WithEntry(noCase: bool, ini: seq<Section>, name: string, key: string, val: string): seq<Section> {
    var ini' := WithSection(noCase, ini, name);
    var i := SectionIndex(noCase, ini', name);
    if i < |ini'| then ini'[i := ini'[i].(keys := WithKey(noCase, ini'[i].keys, key, val))] else ini'
  }

  /** The store, and the section that entries go to. */
  datatype Progress = Progress(ini: seq<Section>, name: string)

  /** The store after one more entry. A section line without ']' before it, and an empty tagged block,
      have no value here. */
  function Taken(noCase: bool, p: Progress, f: Found): Option<Progress>
    requires !f.Nothing?
  {
    match f
    case SectionLine(n, _) => Some(Progress(WithSection(noCase, p.ini, n), n))
    case KeyLine(k, v, _, stray) =>
      if stray then None else Some(p.(ini := WithEntry(noCase, p.ini, p.name, k, v)))
    case TagLine(k, lines, _, stray) =>
      if stray || lines == [] then None else Some(p.(ini := WithEntry(noCase, p.ini, p.name, k, Joined(lines))))
  }

  /** The store after the whole text was loaded, from section `name` on. */
  function Loaded(noCase: bool, multiLine: bool, s: string, ini: seq<Section>, name: string): Option<seq<Section>>
    decreases |s|
  {
    var f := FindEntry(noCase, multiLine, s);
    if f.Nothing? then Some(ini) else
    var p := Taken(noCase, Progress(ini, name), f);
    if p.None? then None else Loaded(noCase, multiLine, f.rest, p.value.ini, p.value.name)
  }

  // ---------- printing ----------

  const END_TAG: string := "END_OF_TEXT"

  /** How the printer is set up; `nl` is the platform's line end. */
  datatype Style = Style(spaces: bool, multiLine: bool, nl: string)

  predicate GoodStyle(o: Style) {
    o.nl == "\n" || o.nl == "\r\n"
  }

  /** A value that does not fit on one line as it is. */
  predicate IsMultiLine(v: string) {
    v != [] && (IsSpace(v[0]) || IsSpace(v[|v| - 1]) || !OneLine(v))
  }

  /** The lines of a value, which are separated by '\n'. */
  function Split(v: string): (lines: seq<string>)
    ensures lines != []
  {
    if v == [] then [[]]
    else if v[0] == '\n' then [[]] + Split(v[1..])
    else var rest := Split(v[1..]); [[v[0]] + rest[0]] + rest[1..]
  }

  function Lines(lines: seq<string>, nl: string): string {
    if lines == [] then [] else lines[0] + nl + Lines(lines[1..], nl)
  }

  function PrintedValue(v: string, o: Style): string {
    if o.multiLine && IsMultiLine(v) then "<<<" + END_TAG + o.nl + Lines(Split(v), o.nl) + END_TAG else v
  }

  function PrintedKey(k: string, v: string, o: Style): string {
    k + (if o.spaces then " = " else "=") + PrintedValue(v, o) + o.nl
  }

  function PrintedKeys(keys: seq<(string, string)>, o: Style): string {
    if keys == [] then [] else PrintedKey(keys[0].0, keys[0].1, o) + PrintedKeys(keys[1..], o)
  }

  function PrintedSection(s: Section, o: Style): string {
    (if s.name == [] then [] else "[" + s.name + "]" + o.nl) + PrintedKeys(s.keys, o)
  }

  function Printed(ini: seq<Section>, o: Style): string {
    if ini == [] then []
    else if |ini| == 1 then PrintedSection(ini[0], o)
    else PrintedSection(ini[0], o) + o.nl + o.nl + Printed(ini[1..], o)
  }
}
