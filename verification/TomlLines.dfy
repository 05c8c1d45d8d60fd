/** What the two line editors share: lines of a text, the lines one assignment spans, and the
    comment it ends in. */
module TomlLines {
  import opened Options

  // ---- characters and lines -------------------------------------------------------------

  predicate IsSpace(c: char) {
    || '\t' <= c <= '\r' || '\U{1C}' <= c <= ' ' || c == '\U{85}' || c == '\U{A0}' || c == '\U{1680}'
    || '\U{2000}' <= c <= '\U{200A}' || c == '\U{2028}' || c == '\U{2029}' || c == '\U{202F}'
    || c == '\U{205F}' || c == '\U{3000}'
  }

  // Where a line may end.
  predicate IsBreak(c: char) {
    || '\n' <= c <= '\r' || '\U{1C}' <= c <= '\U{1E}' || c == '\U{85}' || c == '\U{2028}' || c == '\U{2029}'
  }

  function LStrip(s: string): (r: string)
    ensures |r| <= |s| && (r != "" ==> !IsSpace(r[0]))
  {
    if s == "" || !IsSpace(s[0]) then s else LStrip(s[1..])
  }

  function RStrip(s: string): (r: string)
    ensures r <= s && (r != "" ==> !IsSpace(r[|r| - 1]))
  {
    if s == "" || !IsSpace(s[|s| - 1]) then s else RStrip(s[..|s| - 1])
  }

  function Strip(s: string): string { RStrip(LStrip(s)) }

  // The length of the first line, its break included.
  function FirstLine(s: string): (n: nat)
    ensures n <= |s| && (s != "" ==> n > 0)
  {
    if s == "" then 0
    else if s[0] == '\r' && |s| > 1 && s[1] == '\n' then 2
    else if IsBreak(s[0]) then 1
    else 1 + FirstLine(s[1..])
  }

  function SplitLines(s: string): seq<string> {
    if s == "" then [] else [s[..FirstLine(s)]] + SplitLines(s[FirstLine(s)..])
  }

  function Join(lines: seq<string>): string {
    if lines == [] then "" else lines[0] + Join(lines[1..])
  }

  predicate EndsLine(line: string) { line != "" && line[|line| - 1] == '\n' }

  // The lines of a text, the last one completed.
  function LinesOf(text: string): seq<string> {
    var lines := SplitLines(text);
    if lines != [] && !EndsLine(lines[|lines| - 1])
    then lines[|lines| - 1 := lines[|lines| - 1] + "\n"] else lines
  }

  // One line whose only break is the newline that ends it.
  predicate OneLine(line: string) {
    EndsLine(line) && forall i :: 0 <= i < |line| - 1 ==> !IsBreak(line[i])
  }

  lemma {:induction false} FirstLineOf(line: string, rest: string)
    requires OneLine(line)
    ensures FirstLine(line + rest) == |line|
  {
    var s := line + rest;
    if |line| > 1 {
      assert !IsBreak(s[0]);
      assert s[1..] == line[1..] + rest;
      FirstLineOf(line[1..], rest);
    }
  }

  /** Splitting undoes joining when every line is one line. */
  lemma {:induction false} SplitJoin(lines: seq<string>)
    requires forall line <- lines :: OneLine(line)
    ensures SplitLines(Join(lines)) == lines && LinesOf(Join(lines)) == lines
  {
    if lines != [] {
      var rest := Join(lines[1..]);
      FirstLineOf(lines[0], rest);
      assert (lines[0] + rest)[..|lines[0]|] == lines[0] && (lines[0] + rest)[|lines[0]|..] == rest;
      SplitJoin(lines[1..]);
    }
  }

  lemma {:induction false} JoinSplits(a: seq<string>, b: seq<string>)
    ensures Join(a + b) == Join(a) + Join(b)
  {
    if a == [] {
      assert a + b == b;
    } else {
      assert (a + b)[1..] == a[1..] + b;
      JoinSplits(a[1..], b);
    }
  }

  // ---- the lines of one assignment ------------------------------------------------------------

  // How deep in arrays a reader is, and the quote it is inside of.
  datatype Scan = Scan(depth: int, quote: Option<char>)

  function Step(c: char, st: Scan): Scan {
    if st.quote.Some? then (if c == st.quote.value then st.(quote := None) else st)
    else if c == '"' || c == '\'' then st.(quote := Some(c))
    else if c == '[' then st.(depth := st.depth + 1)
    else if c == ']' then st.(depth := st.depth - 1)
    else st
  }

  predicate Escapes(c: char, st: Scan) { st.quote == Some('"') && c == '\\' }

  function ScanLine(s: string, st: Scan): Scan
    decreases |s|
  {
    if s == "" then st
    else if Escapes(s[0], st) then ScanLine(if |s| > 1 then s[2..] else "", st)
    else if st.quote.None? && s[0] == '#' then st
    else ScanLine(s[1..], Step(s[0], st))
  }

  predicate HasEquals(s: string) { '=' in s }

  // The text after the first equals sign.
  function AfterEquals(s: string): string
    requires HasEquals(s)
  {
    if s[0] == '=' then s[1..] else AfterEquals(s[1..])
  }

  lemma {:induction false} StrippedEquals(line: string)
    requires HasEquals(Strip(line))
    ensures HasEquals(line)
  {
    LStripEnds(line);
  }

  lemma {:induction false} LStripEnds(s: string)
    ensures LStrip(s) == s[|s| - |LStrip(s)|..]
  {
    if s != "" && IsSpace(s[0]) {
      LStripEnds(s[1..]);
    }
  }

  function SpanFrom(lines: seq<string>, j: nat, st: Scan): (last: nat)
    requires j < |lines|
    ensures j <= last < |lines|
    decreases |lines| - j
  {
    if st.depth <= 0 || j + 1 >= |lines| then j else SpanFrom(lines, j + 1, ScanLine(lines[j + 1], st))
  }

  /** The last line of the assignment that starts at line `first`. */
  function ValueSpan(lines: seq<string>, first: nat): (last: nat)
    requires first < |lines| && HasEquals(lines[first])
    ensures first <= last < |lines|
  {
    SpanFrom(lines, first, ScanLine(AfterEquals(lines[first]), Scan(0, None)))
  }

  method FindValueSpan(lines: seq<string>, first: nat) returns (last: nat)
    requires first < |lines| && HasEquals(lines[first])
    ensures last == ValueSpan(lines, first)
  {
    var st := Scan(0, None);
    var j, text := first, AfterEquals(lines[first]);
    while true
      invariant first <= j < |lines| && SpanFrom(lines, j, ScanLine(text, st)) == ValueSpan(lines, first)
      decreases |lines| - j
    {
      ghost var end := ScanLine(text, st);
      var k := 0;
      while k < |text|
        invariant 0 <= k && ScanLine(if k < |text| then text[k..] else "", st) == end
        decreases |text| - k
      {
        var ch := text[k];
        assert text[k..][1..] == text[k + 1..];
        if Escapes(ch, st) {
          assert k + 2 <= |text| ==> text[k..][2..] == text[k + 2..];
          k := k + 2;
          continue;
        }
        if st.quote.None? && ch == '#' {
          break;
        }
        st := Step(ch, st);
        k := k + 1;
      }
      assert st == end;
      if st.depth <= 0 || j + 1 >= |lines| {
        return j;
      }
      j := j + 1;
      text := lines[j];
    }
  }

  // ---- the comment a line ends in -----------------------------------------------------------------

  // The text from the first `#` outside a string, `k` characters into the line.
  function CommentAt(s: string, k: nat, quote: Option<char>): (at: Option<nat>)
    requires k <= |s|
    ensures at.Some? ==> k <= at.value < |s| && s[at.value] == '#'
    decreases |s| - k
  {
    if k == |s| then None
    else
      var st := Scan(0, quote);
      if Escapes(s[k], st) then (if k + 2 <= |s| then CommentAt(s, k + 2, quote) else None)
      else if quote.None? && s[k] == '#' then Some(k)
      else CommentAt(s, k + 1, Step(s[k], st).quote)
  }

  function BlanksBefore(s: string, k: nat): (start: nat)
    requires k <= |s|
    ensures start <= k
  {
    if k > 0 && s[k - 1] in " \t" then BlanksBefore(s, k - 1) else k
  }

  function WithoutBreak(s: string): string {
    if s != "" && s[|s| - 1] in "\r\n" then WithoutBreak(s[..|s| - 1]) else s
  }

  function InlineComment(s: string): string {
    var at := CommentAt(s, 0, None);
    if at.None? then "" else WithoutBreak(s[BlanksBefore(s, at.value)..])
  }

  method FindInlineComment(text: string) returns (comment: string)
    ensures comment == InlineComment(text)
  {
    var quote: Option<char> := None;
    var k := 0;
    while k < |text|
      invariant 0 <= k
      invariant (if k <= |text| then CommentAt(text, k, quote) else None) == CommentAt(text, 0, None)
      decreases |text| - k
    {
      var ch := text[k];
      if Escapes(ch, Scan(0, quote)) {
        k := k + 2;
        continue;
      }
      if quote.None? && ch == '#' {
        var start := k;
        while start > 0 && text[start - 1] in " \t"
          invariant 0 <= start <= k && BlanksBefore(text, start) == BlanksBefore(text, k)
        {
          start := start - 1;
        }
        return WithoutBreak(text[start..]);
      }
      quote := Step(ch, Scan(0, quote)).quote;
      k := k + 1;
    }
    return "";
  }
}
