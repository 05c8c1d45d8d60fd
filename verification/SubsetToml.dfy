/** The TOML subset of the docs-site registry (TOML v1.0.0, sections "Keys", "String",
    "Boolean", "Array", "Inline Table" and "Array of Tables"): what each production reads off
    the front of a text, and what is left. */
module SubsetToml {
  import opened Options

  datatype Value =
    | Str(s: string) | Bool(b: bool) | Int(i: int)
    | Arr(items: seq<Value>) | Table(entries: map<string, Value>)

  type Entries = map<string, Value>

  datatype Problem =
    | TextAfterValue | ExpectedKey | MultiLineString | Unterminated | BadEscape | ControlCharacter
    | ExpectedComma | ExpectedBrace | ExpectedEquals | DuplicateKey | UnsupportedValue
    | ExpectedClosing | NotArrayOfTables | NotTable

  datatype Parsed<T> = Ok(value: T, rest: string) | Bad(why: Problem)

  predicate Starts(s: string, prefix: string) { |s| >= |prefix| && s[..|prefix|] == prefix }

  predicate At(s: string, c: char) { s != "" && s[0] == c }

  // ---- blanks and comments ------------------------------------------------------------

  function SkipComment(s: string): (r: string)
    ensures |r| <= |s|
  {
    if s == "" || s[0] == '\n' then s else SkipComment(s[1..])
  }

  function Skip(s: string, newlines: bool): (r: string)
    ensures |r| <= |s|
    decreases |s|
  {
    if s == "" then s
    else if s[0] == '#' then Skip(SkipComment(s[1..]), newlines)
    else if s[0] in " \t\r" || (newlines && s[0] == '\n') then Skip(s[1..], newlines)
    else s
  }

  function EndOfLine(s: string): Parsed<()> {
    var r := Skip(s, false);
    if r != "" && r[0] != '\n' then Bad(TextAfterValue) else Ok((), r)
  }

  // ---- keys and strings -----------------------------------------------------------------

  predicate IsBare(c: char) {
    'A' <= c <= 'Z' || 'a' <= c <= 'z' || '0' <= c <= '9' || c == '_' || c == '-'
  }

  // The length of the longest bare-key prefix.
  function BareRun(s: string): (n: nat)
    ensures n <= |s| && (forall i :: 0 <= i < n ==> IsBare(s[i])) && (n < |s| ==> !IsBare(s[n]))
  {
    if s == "" || !IsBare(s[0]) then 0 else 1 + BareRun(s[1..])
  }

  function HexDigit(c: char): Option<int> {
    if '0' <= c <= '9' then Some(c as int - '0' as int)
    else if 'a' <= c <= 'f' then Some(c as int - 'a' as int + 10)
    else if 'A' <= c <= 'F' then Some(c as int - 'A' as int + 10)
    else None
  }

  function HexValue(s: string): Option<int> {
    if s == "" then Some(0)
    else
      var high, low := HexValue(s[..|s| - 1]), HexDigit(s[|s| - 1]);
      if high.Some? && low.Some? then Some(high.value * 16 + low.value) else None
  }

  // A numeric escape of the given width: the code point of a character.
  function CodePoint(s: string, width: nat): Parsed<char> {
    if |s| < width then Bad(BadEscape)
    else
      var n := HexValue(s[..width]);
      if n.Some? && (0 <= n.value < 0xD800 || 0xE000 <= n.value < 0x11_0000)
      then Ok(n.value as char, s[width..]) else Bad(BadEscape)
  }

  // The escapes of one letter.
  function Named(c: char): Option<char> {
    match c
    case 'b' => Some('\U{8}')
    case 't' => Some('\t')
    case 'n' => Some('\n')
    case 'f' => Some('\U{C}')
    case 'r' => Some('\r')
    case '"' => Some('"')
    case '\\' => Some('\\')
    case _ => None
  }

  // What follows a backslash in a basic string.
  function Escape(s: string): (r: Parsed<char>)
    ensures r.Ok? ==> |r.rest| < |s|
  {
    if s == "" then Bad(BadEscape)
    else if Named(s[0]).Some? then Ok(Named(s[0]).value, s[1..])
    else if s[0] == 'u' then CodePoint(s[1..], 4)
    else if s[0] == 'U' then CodePoint(s[1..], 8)
    else Bad(BadEscape)
  }

  // The characters up to the closing quote.
  function Characters(quote: char, s: string): (r: Parsed<string>)
    ensures r.Ok? ==> |r.rest| < |s|
    decreases |s|
  {
    if s == "" || s[0] == '\n' then Bad(Unterminated)
    else if s[0] == quote then Ok("", s[1..])
    else if quote == '"' && s[0] == '\\' then
      var e := Escape(s[1..]);
      if e.Bad? then Bad(e.why)
      else
        var tail := Characters(quote, e.rest);
        if tail.Bad? then tail else Ok([e.value] + tail.value, tail.rest)
    else if s[0] < ' ' && s[0] != '\t' then Bad(ControlCharacter)
    else
      var tail := Characters(quote, s[1..]);
      if tail.Bad? then tail else Ok([s[0]] + tail.value, tail.rest)
  }

  predicate Quoted(s: string) { At(s, '"') || At(s, '\'') }

  function ParseString(s: string): (r: Parsed<string>)
    requires Quoted(s)
    ensures r.Ok? ==> |r.rest| < |s|
  {
    if Starts(s, [s[0], s[0], s[0]]) then Bad(MultiLineString) else Characters(s[0], s[1..])
  }

  function KeyPart(s: string): (r: Parsed<string>)
    ensures r.Ok? ==> |r.rest| < |s|
  {
    if Quoted(s) then ParseString(s)
    else if BareRun(s) == 0 then Bad(ExpectedKey)
    else Ok(s[..BareRun(s)], s[BareRun(s)..])
  }

  // ---- values ----------------------------------------------------------------------------

  predicate IsDigit(c: char) { '0' <= c <= '9' }

  function DigitRun(s: string): (n: nat)
    ensures n <= |s|
  {
    if s == "" || !IsDigit(s[0]) then 0 else 1 + DigitRun(s[1..])
  }

  // The length of digits followed by groups of an underscore and digits.
  function GroupedRun(s: string): (n: nat)
    ensures n <= |s|
    decreases |s|
  {
    var n := DigitRun(s);
    if n == 0 then 0
    else if n < |s| && s[n] == '_' && DigitRun(s[n + 1..]) > 0 then n + 1 + GroupedRun(s[n + 1..])
    else n
  }

  function IntRun(s: string): (n: nat)
    ensures n <= |s|
  {
    if s != "" && s[0] in "+-" then
      (if GroupedRun(s[1..]) == 0 then 0 else 1 + GroupedRun(s[1..]))
    else GroupedRun(s)
  }

  function Decimal(s: string): int {
    if s == "" then 0
    else if IsDigit(s[|s| - 1]) then 10 * Decimal(s[..|s| - 1]) + (s[|s| - 1] as int - '0' as int)
    else Decimal(s[..|s| - 1])
  }

  function ParseInt(s: string): (r: Parsed<Value>)
    ensures r.Ok? ==> |r.rest| < |s|
  {
    var n := IntRun(s);
    if n == 0 || (n < |s| && s[n] in ".eE:-") then Bad(UnsupportedValue)
    else Ok(Int(if s[0] == '-' then -Decimal(s[..n]) else Decimal(s[..n])), s[n..])
  }

  function ParseValue(s: string): (r: Parsed<Value>)
    ensures r.Ok? ==> |r.rest| < |s|
    decreases |s|, 0
  {
    if Quoted(s) then
      var q := ParseString(s);
      if q.Bad? then Bad(q.why) else Ok(Str(q.value), q.rest)
    else if At(s, '[') then
      var items := ParseItems(s[1..]);
      if items.Bad? then Bad(items.why) else Ok(Arr(items.value), items.rest)
    else if At(s, '{') then
      var r := Skip(s[1..], false);
      if At(r, '}') then Ok(Table(map[]), r[1..])
      else
        var t := ParseEntries(r, map[]);
        if t.Bad? then Bad(t.why) else Ok(Table(t.value), t.rest)
    else if Starts(s, "true") then Ok(Bool(true), s[4..])
    else if Starts(s, "false") then Ok(Bool(false), s[5..])
    else ParseInt(s)
  }

  // The items of an array up to its closing bracket; a trailing comma is allowed.
  function ParseItems(s: string): (r: Parsed<seq<Value>>)
    ensures r.Ok? ==> |r.rest| < |s|
    decreases |s|, 1
  {
    var r := Skip(s, true);
    if At(r, ']') then Ok([], r[1..])
    else
      var v := ParseValue(r);
      if v.Bad? then Bad(v.why)
      else
        var r2 := Skip(v.rest, true);
        if !At(r2, ',') && !At(r2, ']') then Bad(ExpectedComma)
        else
          var tail := ParseItems(if At(r2, ',') then r2[1..] else r2);
          if tail.Bad? then tail else Ok([v.value] + tail.value, tail.rest)
  }

  datatype Binding = Binding(name: string, v: Value)

  // `key = value` for a table that does not hold the key yet.
  function ParseBinding(s: string, table: Entries): (r: Parsed<Binding>)
    ensures r.Ok? ==> |r.rest| < |s|
    decreases |s|, 1
  {
    var name := KeyPart(s);
    if name.Bad? then Bad(name.why)
    else
      var r := Skip(name.rest, false);
      if !At(r, '=') then Bad(ExpectedEquals)
      else if name.value in table then Bad(DuplicateKey)
      else
        var v := ParseValue(Skip(r[1..], false));
        if v.Bad? then Bad(v.why) else Ok(Binding(name.value, v.value), v.rest)
  }

  // The entries of an inline table up to its closing brace.
  function ParseEntries(s: string, table: Entries): (r: Parsed<Entries>)
    ensures r.Ok? ==> |r.rest| < |s|
    decreases |s|, 2
  {
    var b := ParseBinding(Skip(s, false), table);
    if b.Bad? then Bad(b.why)
    else
      var r := Skip(b.rest, false);
      var table' := table[b.value.name := b.value.v];
      if At(r, '}') then Ok(table', r[1..])
      else if At(r, ',') then ParseEntries(r[1..], table')
      else Bad(ExpectedBrace)
  }

  // ---- tables -------------------------------------------------------------------------------

  /** The table a path names: each step enters a sub-table, or the last table of an array. */
  function TableAt(t: Entries, path: seq<string>): Option<Entries>
    decreases |path|
  {
    if path == [] then Some(t)
    else
      var inner := Enter(t, path[0]);
      if inner.None? then None else TableAt(inner.value, path[1..])
  }

  function Enter(t: Entries, part: string): Option<Entries> {
    if part !in t then None
    else match t[part]
      case Table(m) => Some(m)
      case Arr(items) =>
        if items != [] && items[|items| - 1].Table? then Some(items[|items| - 1].entries) else None
      case _ => None
  }

  // `t` with the table that `part` enters replaced.
  function Replaced(t: Entries, part: string, inner: Entries): Entries
    requires Enter(t, part).Some?
  {
    match t[part]
    case Table(_) => t[part := Table(inner)]
    case Arr(items) => t[part := Arr(items[..|items| - 1] + [Table(inner)])]
  }

  function Put(t: Entries, path: seq<string>, name: string, v: Value): Entries
    requires TableAt(t, path).Some?
    decreases |path|
  {
    if path == [] then t[name := v]
    else Replaced(t, path[0], Put(Enter(t, path[0]).value, path[1..], name, v))
  }

  datatype Opened = Opened(t: Entries) | Refused(why: Problem)

  // A table header makes the tables it names; `[[...]]` appends one to an array of tables.
  function Open(t: Entries, parts: seq<string>, ofTables: bool): Opened
    requires parts != []
    decreases |parts|
  {
    var part := parts[0];
    if |parts| == 1 && ofTables then
      if part !in t then Opened(t[part := Arr([Table(map[])])])
      else if t[part].Arr? then Opened(t[part := Arr(t[part].items + [Table(map[])])])
      else Refused(NotArrayOfTables)
    else
      var t1 := if part in t then t else t[part := Table(map[])];
      if Enter(t1, part).None? then Refused(NotTable)
      else if |parts| == 1 then Opened(t1)
      else
        var inner := Open(Enter(t1, part).value, parts[1..], ofTables);
        if inner.Refused? then inner else Opened(Replaced(t1, part, inner.t))
  }

  lemma {:induction false} OpenedIsThere(t: Entries, parts: seq<string>, ofTables: bool)
    requires parts != [] && Open(t, parts, ofTables).Opened?
    ensures TableAt(Open(t, parts, ofTables).t, parts).Some?
    decreases |parts|
  {
    var part := parts[0];
    var t' := Open(t, parts, ofTables).t;
    if |parts| == 1 && ofTables {
      assert Enter(t', part) == Some(map[]);
      assert TableAt(map[], parts[1..]).Some?;
    } else {
      var t1 := if part in t then t else t[part := Table(map[])];
      if |parts| == 1 {
        assert TableAt(Enter(t1, part).value, parts[1..]).Some?;
      } else {
        OpenedIsThere(Enter(t1, part).value, parts[1..], ofTables);
        ReplacedEnters(t1, part, Open(Enter(t1, part).value, parts[1..], ofTables).t);
      }
    }
  }

  lemma ReplacedEnters(t: Entries, part: string, inner: Entries)
    requires Enter(t, part).Some?
    ensures Enter(Replaced(t, part, inner), part) == Some(inner)
  {
  }

  lemma {:induction false} PutKeepsPath(t: Entries, path: seq<string>, name: string, v: Value)
    requires TableAt(t, path).Some?
    ensures TableAt(Put(t, path, name, v), path) == Some(TableAt(t, path).value[name := v])
    decreases |path|
  {
    if path != [] {
      var inner := Enter(t, path[0]).value;
      PutKeepsPath(inner, path[1..], name, v);
      ReplacedEnters(t, path[0], Put(inner, path[1..], name, v));
    }
  }

  // ---- documents -------------------------------------------------------------------------------

  // The dotted parts of a header, up to whatever follows them.
  function HeaderParts(s: string): (r: Parsed<seq<string>>)
    ensures r.Ok? ==> |r.rest| < |s| && r.value != []
    decreases |s|
  {
    var part := KeyPart(Skip(s, false));
    if part.Bad? then Bad(part.why)
    else
      var r := Skip(part.rest, false);
      if At(r, '.') then
        var tail := HeaderParts(r[1..]);
        if tail.Bad? then tail else Ok([part.value] + tail.value, tail.rest)
      else Ok([part.value], r)
  }

  datatype State = State(root: Entries, path: seq<string>)

  predicate Sane(st: State) { TableAt(st.root, st.path).Some? }

  // A header line, from its opening bracket.
  function Header(s: string, st: State): (r: Parsed<State>)
    requires At(s, '[')
    ensures r.Ok? ==> |r.rest| < |s| && Sane(r.value)
  {
    var ofTables := Starts(s, "[[");
    var parts := HeaderParts(if ofTables then s[2..] else s[1..]);
    if parts.Bad? then Bad(parts.why)
    else
      var closing := if ofTables then "]]" else "]";
      if !Starts(parts.rest, closing) then Bad(ExpectedClosing)
      else
        var e := EndOfLine(parts.rest[|closing|..]);
        if e.Bad? then Bad(e.why)
        else
          var o := Open(st.root, parts.value, ofTables);
          if o.Refused? then Bad(o.why)
          else
            OpenedIsThere(st.root, parts.value, ofTables);
            Ok(State(o.t, parts.value), e.rest)
  }

  // A `key = value` line.
  function Assignment(s: string, st: State): (r: Parsed<State>)
    requires Sane(st)
    ensures r.Ok? ==> |r.rest| < |s| && Sane(r.value)
  {
    var b := ParseBinding(s, TableAt(st.root, st.path).value);
    if b.Bad? then Bad(b.why)
    else
      var e := EndOfLine(b.rest);
      if e.Bad? then Bad(e.why)
      else
        PutKeepsPath(st.root, st.path, b.value.name, b.value.v);
        Ok(State(Put(st.root, st.path, b.value.name, b.value.v), st.path), e.rest)
  }

  datatype Loaded = Loaded(root: Entries) | Failed(why: Problem)

  // The whole text, line by line. Every text gets a value or a problem.
  function Load(s: string, st: State): Loaded
    requires Sane(st)
    decreases |s|
  {
    var r := Skip(s, true);
    if r == "" then Loaded(st.root)
    else
      var line := if r[0] == '[' then Header(r, st) else Assignment(r, st);
      if line.Bad? then Failed(line.why) else Load(line.rest, line.value)
  }

  function Loads(text: string): Loaded { Load(text, State(map[], [])) }
}
