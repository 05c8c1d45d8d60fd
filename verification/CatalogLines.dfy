/** The lines a catalog edit writes: each reads as one closed assignment of its key, and is
    rewritten to itself. With that, the edit of the catalog can be run again. */
module CatalogLines {
  import opened Options
  import opened TomlLines
  import opened CatalogUpsert
  import opened CatalogEdits
  import opened CatalogBlocks
  import opened CatalogReread
  import opened CatalogRerun
  import SiteRender
  import SiteKinds

  // ---- what ends a value ----------------------------------------------------------------------

  lemma {:induction false} SpanLocal(lines: seq<string>, others: seq<string>, j: nat, st: Scan)
    requires j < |lines| && SpanFrom(lines, j, st) + 1 < |lines|
    requires SpanFrom(lines, j, st) < |others|
    requires lines[..SpanFrom(lines, j, st) + 1] == others[..SpanFrom(lines, j, st) + 1]
    ensures SpanFrom(others, j, st) == SpanFrom(lines, j, st)
    decreases |lines| - j
  {
    if st.depth > 0 {
      var last := SpanFrom(lines, j, st);
      assert lines[j + 1] == lines[..last + 1][j + 1] == others[j + 1];
      SpanLocal(lines, others, j + 1, ScanLine(lines[j + 1], st));
    }
  }

  lemma AssignmentHasEquals(line: string)
    requires IsAssignment(line)
    ensures HasEquals(line)
  {
    StrippedEquals(line);
  }

  lemma FirstLineDecides(lines: seq<string>, others: seq<string>, inBlock: bool)
    requires lines != [] && others != [] && lines[0] == others[0] && !FirstPiece(lines, inBlock).Set?
    ensures FirstPiece(others, inBlock) == FirstPiece(lines, inBlock)
  {
  }

  lemma SpanDecides(lines: seq<string>, others: seq<string>)
    requires lines != [] && IsAssignment(lines[0]) && SpanCount(lines) < |lines|
    requires |others| >= SpanCount(lines) && lines[..SpanCount(lines)] == others[..SpanCount(lines)]
    ensures others[0] == lines[0] && SpanCount(others) == SpanCount(lines)
  {
    AssignmentHasEquals(lines[0]);
    assert lines[..SpanCount(lines)][0] == others[0];
    SpanLocal(lines, others, 0, ScanLine(AfterEquals(lines[0]), Scan(0, None)));
  }

  /** Only an assignment that runs to the end of the file may depend on what follows it. */
  lemma FirstPieceLocal()
    ensures Local(FirstPiece)
  {
    forall lines: seq<string>, inBlock: bool {:trigger FirstPiece(lines, inBlock)}
      | lines != [] && (!FirstPiece(lines, inBlock).Set? || |LinesIn(FirstPiece(lines, inBlock))| < |lines|)
      ensures Closed(FirstPiece, FirstPiece(lines, inBlock), inBlock)
    {
      var p := FirstPiece(lines, inBlock);
      forall rest: seq<string> ensures FirstPiece(LinesIn(p) + rest, inBlock) == p {
        PieceClosed(lines, inBlock, rest);
      }
    }
  }

  lemma PieceClosed(lines: seq<string>, inBlock: bool, rest: seq<string>)
    requires lines != []
    requires !FirstPiece(lines, inBlock).Set? || |LinesIn(FirstPiece(lines, inBlock))| < |lines|
    ensures FirstPiece(LinesIn(FirstPiece(lines, inBlock)) + rest, inBlock) == FirstPiece(lines, inBlock)
  {
    var p := FirstPiece(lines, inBlock);
    var others := LinesIn(p) + rest;
    assert others[0] == lines[0];
    if p.Set? {
      assert others[..|p.span|] == p.span;
      SpanDecides(lines, others);
    } else {
      FirstLineDecides(lines, others, inBlock);
    }
  }

  // ---- where a comment starts -------------------------------------------------------------------

  // The offset of the first `#` outside a string.
  function HashAt(s: string, quote: Option<char>): Option<nat>
    decreases |s|
  {
    if s == "" then None
    else if Escapes(s[0], Scan(0, quote)) then (if |s| >= 2 then Later(2, HashAt(s[2..], quote)) else None)
    else if quote.None? && s[0] == '#' then Some(0)
    else Later(1, HashAt(s[1..], Step(s[0], Scan(0, quote)).quote))
  }

  function Later(n: nat, at: Option<nat>): Option<nat> { if at.Some? then Some(n + at.value) else None }

  lemma {:induction false} CommentAtIs(s: string, k: nat, quote: Option<char>)
    requires k <= |s|
    ensures CommentAt(s, k, quote) == Later(k, HashAt(s[k..], quote))
    decreases |s| - k
  {
    if k < |s| {
      assert s[k..][0] == s[k] && s[k..][1..] == s[k + 1..];
      if Escapes(s[k], Scan(0, quote)) {
        if k + 2 <= |s| {
          assert s[k..][2..] == s[k + 2..];
          CommentAtIs(s, k + 2, quote);
        }
      } else {
        CommentAtIs(s, k + 1, Step(s[k], Scan(0, quote)).quote);
      }
    }
  }

  lemma HashPastEscape(c: char, s: string)
    ensures HashAt(SiteRender.EscapeOne(c) + s, Some('"')) == Later(|SiteRender.EscapeOne(c)|, HashAt(s, Some('"')))
  {
    var all := SiteRender.EscapeOne(c) + s;
    if c == '\\' || c == '"' {
      assert all == ['\\', c] + s && all[2..] == s;
    } else {
      assert all == [c] + s && all[1..] == s;
    }
  }

  lemma {:induction false} HashPastEscaped(v: string, rest: string)
    ensures HashAt(SiteRender.Escaped(v) + ("\"" + rest), Some('"'))
      == Later(|SiteRender.Escaped(v)| + 1, HashAt(rest, None))
  {
    if v == "" {
      assert SiteRender.Escaped(v) + ("\"" + rest) == "\"" + rest;
      assert ("\"" + rest)[1..] == rest;
    } else {
      var more := SiteRender.Escaped(v[1..]) + ("\"" + rest);
      assert SiteRender.Escaped(v) + ("\"" + rest) == SiteRender.EscapeOne(v[0]) + more;
      HashPastEscape(v[0], more);
      HashPastEscaped(v[1..], rest);
    }
  }

  lemma QuotedText(body: string, rest: string)
    ensures "\"" + body + "\"" + rest == "\"" + (body + ("\"" + rest))
    ensures ("\"" + (body + ("\"" + rest)))[1..] == body + ("\"" + rest)
  {
  }

  /** No comment starts inside a written string. */
  lemma HashPastString(v: string, rest: string)
    ensures HashAt(SiteRender.BasicString(v) + rest, None) == Later(|SiteRender.BasicString(v)|, HashAt(rest, None))
  {
    SiteRender.ReplacingEscapes(v);
    QuotedText(SiteRender.Escaped(v), rest);
    HashPastEscaped(v, rest);
  }

  predicate NoQuote(c: char) { c !in "\"'#" }

  lemma {:induction false} HashPast(s: string, rest: string)
    requires forall i :: 0 <= i < |s| ==> NoQuote(s[i])
    ensures HashAt(s + rest, None) == Later(|s|, HashAt(rest, None))
  {
    if s == "" {
      assert s + rest == rest;
    } else {
      assert (s + rest)[0] == s[0] && (s + rest)[1..] == s[1..] + rest;
      HashPast(s[1..], rest);
    }
  }

  lemma {:induction false} HashPastItems(items: seq<string>, rest: string)
    ensures HashAt(SiteRender.QuotedItems(items) + rest, None)
      == Later(|SiteRender.QuotedItems(items)|, HashAt(rest, None))
    decreases |items|
  {
    if items == [] {
      assert SiteRender.QuotedItems(items) + rest == rest;
    } else if |items| == 1 {
      HashPastString(items[0], rest);
    } else {
      var more := SiteRender.QuotedItems(items[1..]) + rest;
      SiteKinds.CommaText(SiteRender.BasicString(items[0]), SiteRender.QuotedItems(items[1..]), rest);
      HashPastString(items[0], ", " + more);
      HashPast(", ", more);
      HashPastItems(items[1..], rest);
    }
  }

  /** No comment starts inside a rendered value. */
  lemma HashPastValue(pair: Pair, rest: string)
    requires Recordable(pair)
    ensures HashAt(Rendered(pair) + rest, None) == Later(|Rendered(pair)|, HashAt(rest, None))
  {
    match pair.value
    case Text(v) => HashPastString(v, rest);
    case List(items) =>
      SiteKinds.BracketText(SiteRender.QuotedItems(items), rest);
      HashPast("[", SiteRender.QuotedItems(items) + ("]" + rest));
      HashPastItems(items, "]" + rest);
      HashPast("]", rest);
  }

  // ---- comments that are kept ---------------------------------------------------------------------

  predicate Spaces(b: string) { forall i :: 0 <= i < |b| ==> b[i] in " \t" }

  // No comment, or blanks, a `#` and the rest of its line.
  predicate IsComment(c: string) {
    c == "" || (c[|c| - 1] !in "\r\n" && exists k :: 0 <= k < |c| && c[k] == '#' && Spaces(c[..k]))
  }

  lemma {:induction false} BlanksAre(s: string, k: nat)
    requires k <= |s|
    ensures var start := BlanksBefore(s, k);
      Spaces(s[start..k]) && (start > 0 ==> s[start - 1] !in " \t")
  {
    if k > 0 && s[k - 1] in " \t" {
      BlanksAre(s, k - 1);
      var start := BlanksBefore(s, k);
      assert s[start..k] == s[start..k - 1] + [s[k - 1]];
    }
  }

  lemma {:induction false} BreakTrimmed(s: string, k: nat)
    requires k < |s| && s[k] == '#'
    ensures var r := WithoutBreak(s); k < |r| && r <= s && r[|r| - 1] !in "\r\n"
  {
    if s[|s| - 1] in "\r\n" {
      BreakTrimmed(s[..|s| - 1], k);
      assert s[..|s| - 1] <= s;
    }
  }

  lemma CommentIs(s: string)
    ensures IsComment(InlineComment(s))
  {
    var at := CommentAt(s, 0, None);
    if at.Some? {
      var start := BlanksBefore(s, at.value);
      BlanksAre(s, at.value);
      BreakTrimmed(s[start..], at.value - start);
      var c := InlineComment(s);
      assert c[..at.value - start] == s[start..at.value];
      assert c[at.value - start] == '#';
    }
  }

  lemma KeptIs(span: seq<string>)
    ensures IsComment(KeptComment(span))
  {
    if span != [] {
      if HasEquals(span[0]) {
        CommentIs(AfterEquals(span[0]));
      }
      CommentIs(span[|span| - 1]);
    }
  }

  lemma {:induction false} BlanksStop(s: string, k: nat, start: nat)
    requires start <= k <= |s| && Spaces(s[start..k]) && (start > 0 ==> s[start - 1] !in " \t")
    ensures BlanksBefore(s, k) == start
  {
    if start < k {
      assert s[start..k][k - 1 - start] == s[k - 1];
      assert s[start..k - 1] == s[start..k][..k - 1 - start];
      BlanksStop(s, k - 1, start);
    }
  }

  lemma SpacesTail(c: string, k: nat)
    requires 0 < k < |c| && Spaces(c[..k])
    ensures Spaces(c[1..][..k - 1])
  {
    assert c[1..][..k - 1] == c[..k][1..];
  }

  lemma {:induction false} HashInComment(c: string, k: nat, rest: string)
    requires k < |c| && c[k] == '#' && Spaces(c[..k])
    ensures HashAt(c + rest, None) == Some(k)
  {
    if k > 0 {
      assert c[..k][0] == c[0] && (c + rest)[1..] == c[1..] + rest;
      SpacesTail(c, k);
      HashInComment(c[1..], k - 1, rest);
    }
  }

  lemma CommentStarts(front: string, comment: string, k: nat)
    requires k < |comment| && comment[k] == '#' && Spaces(comment[..k]) && comment[|comment| - 1] !in "\r\n"
    requires front != "" && front[|front| - 1] !in " \t"
    ensures var s := front + comment + "\n";
      WithoutBreak(s[BlanksBefore(s, |front| + k)..]) == comment
  {
    var s := front + comment + "\n";
    CommentStands(front, comment, k);
    BlanksStop(s, |front| + k, |front|);
    assert s[|front|..] == comment + "\n";
    TrimsBreak(comment);
  }

  lemma HashAfter(s: string, pair: Pair, tail: string)
    requires Recordable(pair) && s == " " + (Rendered(pair) + tail)
    ensures CommentAt(s, 0, None) == Later(1 + |Rendered(pair)|, HashAt(tail, None))
  {
    assert s[0..] == s;
    HashPast(" ", Rendered(pair) + tail);
    HashPastValue(pair, tail);
    CommentAtIs(s, 0, None);
  }

  lemma InlineAt(s: string, at: nat)
    requires CommentAt(s, 0, None) == Some(at)
    ensures InlineComment(s) == WithoutBreak(s[BlanksBefore(s, at)..])
  {
  }

  lemma NoCommentReadsBack(pair: Pair)
    requires Recordable(pair)
    ensures InlineComment(" " + Rendered(pair) + "\n") == ""
  {
    var s := " " + Rendered(pair) + "\n";
    assert s == " " + (Rendered(pair) + "\n");
    HashAfter(s, pair, "\n");
    NoHash();
  }

  lemma CommentFound(pair: Pair, comment: string, k: nat)
    requires Recordable(pair) && k < |comment| && comment[k] == '#' && Spaces(comment[..k])
    ensures CommentAt(" " + Rendered(pair) + comment + "\n", 0, None) == Some(1 + |Rendered(pair)| + k)
  {
    var shown := Rendered(pair);
    TextRegroups(shown, comment);
    HashAfter(" " + (shown + (comment + "\n")), pair, comment + "\n");
    HashInComment(comment, k, "\n");
  }

  lemma TextRegroups(shown: string, comment: string)
    ensures " " + shown + comment + "\n" == " " + (shown + (comment + "\n"))
  {
  }

  lemma SomeCommentReadsBack(pair: Pair, comment: string, k: nat)
    requires Recordable(pair) && k < |comment| && comment[k] == '#' && Spaces(comment[..k])
    requires comment[|comment| - 1] !in "\r\n"
    ensures InlineComment(" " + Rendered(pair) + comment + "\n") == comment
  {
    var front := " " + Rendered(pair);
    CommentFound(pair, comment, k);
    RenderedEnds(pair);
    CommentStarts(front, comment, k);
    InlineAt(front + comment + "\n", |front| + k);
  }

  /** Reading the comment of a written value gives the comment back. */
  lemma CommentReadsBack(pair: Pair, comment: string)
    requires Recordable(pair) && IsComment(comment)
    ensures InlineComment(" " + Rendered(pair) + comment + "\n") == comment
  {
    if comment == "" {
      NoCommentReadsBack(pair);
      assert " " + Rendered(pair) + "" + "\n" == " " + Rendered(pair) + "\n";
    } else {
      var k :| 0 <= k < |comment| && comment[k] == '#' && Spaces(comment[..k]);
      SomeCommentReadsBack(pair, comment, k);
    }
  }

  lemma NoHash()
    ensures HashAt("\n", None) == None
  {
    assert "\n"[1..] == "";
  }

  lemma CommentStands(front: string, comment: string, k: nat)
    requires k < |comment|
    ensures var s := front + comment + "\n"; s[|front|..|front| + k] == comment[..k]
  {
  }

  lemma TrimsBreak(comment: string)
    requires comment != "" && comment[|comment| - 1] !in "\r\n"
    ensures WithoutBreak(comment + "\n") == comment
  {
    assert (comment + "\n")[..|comment|] == comment;
  }

  lemma RenderedEnds(pair: Pair)
    requires Recordable(pair)
    ensures Rendered(pair) != "" && Rendered(pair)[|Rendered(pair)| - 1] !in " \t"
  {
  }

  // ---- the line of an assignment -----------------------------------------------------------------------

  lemma {:induction false} StripsIndent(indent: string, rest: string)
    requires Blank(indent) && rest != "" && !IsSpace(rest[0])
    ensures LStrip(indent + rest) == rest
  {
    if indent == "" {
      assert indent + rest == rest;
    } else {
      assert indent[0] in indent && (indent + rest)[1..] == indent[1..] + rest;
      forall c | c in indent[1..] ensures IsSpace(c) {
        assert c in indent;
      }
      StripsIndent(indent[1..], rest);
    }
  }

  lemma {:induction false} RStripKeepsFront(front: string, c: char, back: string)
    requires !IsSpace(c)
    ensures front + [c] <= RStrip(front + [c] + back)
    decreases |back|
  {
    var s := front + [c] + back;
    if back == "" {
      assert s == front + [c];
    } else if IsSpace(s[|s| - 1]) {
      assert s[..|s| - 1] == front + [c] + back[..|back| - 1];
      RStripKeepsFront(front, c, back[..|back| - 1]);
    }
  }

  lemma {:induction false} BeforeEqualsOf(name: string, rest: string)
    requires forall i :: 0 <= i < |name| ==> name[i] != '='
    ensures HasEquals(name + ("=" + rest)) && BeforeEquals(name + ("=" + rest)) == name
  {
    var s := name + ("=" + rest);
    if name == "" {
      assert s == "=" + rest;
    } else {
      assert s[0] == name[0] && s[1..] == name[1..] + ("=" + rest);
      BeforeEqualsOf(name[1..], rest);
      assert s == [s[0]] + s[1..];
    }
  }

  lemma KeyChars(key: string)
    requires SiteRender.BareKey(key)
    ensures key != "" && forall i :: 0 <= i < |key| ==>
      key[i] != '=' && !IsSpace(key[i]) && key[i] != '[' && key[i] != '#' && key[i] != '\n'
  {
    forall i | 0 <= i < |key|
      ensures key[i] != '=' && !IsSpace(key[i]) && key[i] != '[' && key[i] != '#' && key[i] != '\n'
    {
      assert key[i] in key;
    }
  }

  // The line after its indentation, and after its first equals sign.
  function Bare(pair: Pair, comment: string): string { pair.key + " = " + Rendered(pair) + comment + "\n" }

  function Tail(pair: Pair, comment: string): string { " " + Rendered(pair) + comment + "\n" }

  lemma LineParts(indent: string, pair: Pair, comment: string)
    ensures NewLine(indent, pair, comment) == indent + Bare(pair, comment)
    ensures Bare(pair, comment) == (pair.key + " ") + ("=" + Tail(pair, comment))
    ensures NewLine(indent, pair, comment) == (indent + (pair.key + " ")) + ("=" + Tail(pair, comment))
  {
  }

  lemma KeySpaced(indent: string, key: string)
    requires Blank(indent) && SiteRender.BareKey(key)
    ensures forall i :: 0 <= i < |indent + (key + " ")| ==> (indent + (key + " "))[i] != '='
    ensures forall i :: 0 <= i < |key + " "| ==> (key + " ")[i] != '='
  {
    KeyChars(key);
    assert forall i :: 0 <= i < |indent| ==> indent[i] in indent;
  }

  /** The line reads as an assignment of its key. */
  lemma LineAssigns(indent: string, pair: Pair, comment: string)
    requires Blank(indent) && Recordable(pair)
    ensures var line := NewLine(indent, pair, comment);
      && IsAssignment(line) && !IsHead(line) && KeyOf(line) == pair.key
      && HasEquals(line) && AfterEquals(line) == Tail(pair, comment) && Indent(line) == indent
  {
    var line, bare, tail := NewLine(indent, pair, comment), Bare(pair, comment), Tail(pair, comment);
    LineParts(indent, pair, comment);
    KeyChars(pair.key);
    StripsIndent(indent, bare);
    assert line[..|line| - |bare|] == indent;
    KeySpaced(indent, pair.key);
    SiteKinds.EqualsAfter(indent + (pair.key + " "), tail);
    StrippedKey(pair, tail);
    assert LStrip(line) == (pair.key + " ") + ("=" + tail);
  }

  lemma StrippedKey(pair: Pair, tail: string)
    requires Recordable(pair)
    ensures var s := RStrip((pair.key + " ") + ("=" + tail));
      && s != "" && HasEquals(s) && s[0] != '[' && s[0] != '#' && s != "[[instance]]"
      && Strip(BeforeEquals(s)) == pair.key
  {
    var front := pair.key + " ";
    var s := RStrip(front + ("=" + tail));
    KeyChars(pair.key);
    assert front + ['='] + tail == front + ("=" + tail);
    RStripKeepsFront(front, '=', tail);
    assert s == front + ("=" + s[|front| + 1..]);
    KeySpaced("", pair.key);
    BeforeEqualsOf(front, s[|front| + 1..]);
    KeyStripped(pair.key);
  }

  lemma KeyStripped(key: string)
    requires SiteRender.BareKey(key)
    ensures Strip(key + " ") == key
  {
    KeyChars(key);
    assert LStrip(key + " ") == key + " ";
    assert (key + " ")[..|key|] == key;
    assert RStrip(key) == key;
  }

  /** The line closes its own value. */
  lemma LineCloses(pair: Pair, comment: string)
    requires Recordable(pair) && IsComment(comment)
    ensures ScanLine(Tail(pair, comment), Scan(0, None)).depth <= 0
  {
    var rest := comment + "\n";
    assert Tail(pair, comment) == " " + (Rendered(pair) + rest);
    SiteKinds.ScanDull(" ", Rendered(pair) + rest, 0);
    match pair.value {
      case Text(v) => SiteKinds.ScanString(v, rest, 0);
      case List(items) => SiteKinds.ScanList(items, rest);
    }
    if comment == "" {
      assert rest == "\n" && rest[1..] == "";
    } else {
      var k :| 0 <= k < |comment| && comment[k] == '#' && Spaces(comment[..k]);
      CommentScans(comment, k, "\n");
    }
  }

  lemma {:induction false} CommentScans(c: string, k: nat, rest: string)
    requires k < |c| && c[k] == '#' && Spaces(c[..k])
    ensures ScanLine(c + rest, Scan(0, None)) == Scan(0, None)
  {
    if k > 0 {
      assert c[..k][0] == c[0] && (c + rest)[0] == c[0] && (c + rest)[1..] == c[1..] + rest;
      SpacesTail(c, k);
      CommentScans(c[1..], k - 1, rest);
    }
  }

  // ---- the lines written are settled ------------------------------------------------------------------

  lemma OneLineSpan(line: string, rest: seq<string>)
    requires IsAssignment(line) && HasEquals(line) && ScanLine(AfterEquals(line), Scan(0, None)).depth <= 0
    ensures SpanCount([line] + rest) == 1
  {
  }

  lemma LineSettles(indent: string, pair: Pair, comment: string)
    requires Blank(indent) && Recordable(pair) && IsComment(comment)
    ensures Settled(FirstPiece, STYLE, pair, NewLine(indent, pair, comment))
  {
    var line := NewLine(indent, pair, comment);
    LineAssigns(indent, pair, comment);
    LineCloses(pair, comment);
    forall rest: seq<string> ensures FirstPiece([line] + rest, true) == AsSet(line) {
      OneLineSpan(line, rest);
      assert ([line] + rest)[..1] == [line];
    }
    CommentReadsBack(pair, comment);
    assert ReplacedLine([line], pair) == line;
  }

  /** Every line the edit writes stays as it is when it is read and edited again. */
  lemma WritesSteadily(pairs: seq<Pair>)
    requires forall pair <- pairs :: Recordable(pair)
    ensures Steady(FirstPiece, STYLE, pairs)
  {
    forall pair, span: seq<string> | pair in pairs && span != []
      ensures Settled(FirstPiece, STYLE, pair, ReplacedLine(span, pair))
    {
      BlankIndent(span[0]);
      KeptIs(span);
      LineSettles(Indent(span[0]), pair, KeptComment(span));
    }
    forall pair, indent: string {:trigger NewLine(indent, pair, "")} | pair in pairs && Blank(indent)
      ensures Settled(FirstPiece, STYLE, pair, NewLine(indent, pair, ""))
    {
      LineSettles(indent, pair, "");
    }
  }

  // ---- the command ------------------------------------------------------------------------------------

  // The depth the value of a span ends at.
  function EndDepth(lines: seq<string>, st: Scan): int {
    if lines == [] then st.depth else EndDepth(lines[1..], ScanLine(lines[0], st))
  }

  // The brackets of the assignment's value are all closed.
  predicate ValueCloses(span: seq<string>) {
    span != [] && HasEquals(span[0]) && EndDepth(span[1..], ScanLine(AfterEquals(span[0]), Scan(0, None))) <= 0
  }

  lemma {:induction false} ClosedSpan(span: seq<string>, rest: seq<string>, j: nat, st: Scan)
    requires j < |span| && SpanFrom(span, j, st) == |span| - 1 && EndDepth(span[j + 1..], st) <= 0
    ensures SpanFrom(span + rest, j, st) == |span| - 1
    decreases |span| - j
  {
    if st.depth > 0 {
      assert (span + rest)[j + 1] == span[j + 1];
      if j + 1 < |span| {
        assert span[j + 1..][1..] == span[j + 2..] && span[j + 1..][0] == span[j + 1];
        ClosedSpan(span, rest, j + 1, ScanLine(span[j + 1], st));
      }
    }
  }

  // The assignment a reader found: its span is its whole value.
  predicate ReadAs(p: Piece) {
    p.Set? && p.span != [] && FirstPiece(p.span, true) == p
  }

  lemma ClosedValue(p: Piece)
    requires ReadAs(p) && ValueCloses(p.span)
    ensures Closed(FirstPiece, p, true)
  {
    forall rest: seq<string> ensures FirstPiece(p.span + rest, true) == p {
      AssignmentHasEquals(p.span[0]);
      ClosedSpan(p.span, rest, 0, ScanLine(AfterEquals(p.span[0]), Scan(0, None)));
      assert (p.span + rest)[..|p.span|] == p.span && (p.span + rest)[0] == p.span[0];
    }
  }

  /** What recording the pairs yields: nothing when no block is selected. */
  function Recorded(lines: seq<string>, series: string, profile: string, pairs: seq<Pair>): Option<seq<string>> {
    FirstPieceSensible();
    Upserted(FirstPiece, STYLE, lines, series, profile, pairs)
  }

  method RecordKeys(lines: seq<string>, series: string, profile: string, pairs: seq<Pair>) returns (r: Option<seq<string>>)
    ensures r == Recorded(lines, series, profile, pairs)
  {
    FirstPieceSensible();
    ChosenStands(FirstPiece, lines, series, profile);
    var blocks := ScanInstanceBlocks(lines);
    for i := 0 to |blocks|
      invariant Choose(blocks[i..], series, profile) == Choose(blocks, series, profile)
    {
      assert blocks[i..][1..] == blocks[i + 1..];
      if blocks[i].series == series && blocks[i].profile == profile {
        assert Choose(blocks, series, profile) == Some(blocks[i]);
        var out := EditBlock(STYLE, lines, blocks[i], pairs);
        return Some(out);
      }
    }
    return None;
  }

  // The pieces of a catalog.
  function CatalogPieces(lines: seq<string>): seq<Piece> {
    FirstPieceSensible();
    Pieces(FirstPiece, lines, false)
  }

  /** A catalog, split at the block a series and a profile select: what is before its header, the
      header, its body, what is after. */
  predicate SelectsIn(lines: seq<string>, x: seq<Piece>, head: Piece, body: seq<Piece>, after: seq<Piece>,
                      series: string, profile: string)
  {
    && CatalogPieces(lines) == Assembled(x, head, body, after) && Whole(Assembled(x, head, body, after))
    && SplitsAt(x, head, body, after, series, profile)
  }

  /** What the edit yields: nothing when no block is selected, else the first assignment of each
      key replaced and the absent keys put after the last one; every other line stays. */
  lemma RecordingIsOneEdit(lines: seq<string>, series: string, profile: string, pairs: seq<Pair>)
      returns (x: seq<Piece>, head: Piece, body: seq<Piece>, after: seq<Piece>)
    requires DistinctKeys(pairs)
    ensures Recorded(lines, series, profile, pairs).Some? ==>
      && SelectsIn(lines, x, head, body, after, series, profile)
      && lines == (Flat(x) + [head.line]) + Flat(body) + Flat(after)
      && Recorded(lines, series, profile, pairs) ==
         Some((Flat(x) + [head.line])
              + Flat(Edited(STYLE, body, InsertedFor(x, head, body, after, pairs), pairs)) + Flat(after))
  {
    FirstPieceSensible();
    x, head, body, after := UpsertedSplits(FirstPiece, STYLE, lines, series, profile, pairs);
    if Recorded(lines, series, profile, pairs).Some? {
      StyleIsPlain();
      UpsertedAt(FirstPiece, STYLE, lines, x, head, body, after, series, profile, pairs);
      FlatAround(x, head, body, after);
      FlatAround(x, head, Edited(STYLE, body, InsertedFor(x, head, body, after, pairs), pairs), after);
    }
  }

  lemma StyleIsPlain()
    ensures Plain(STYLE)
  {
  }

  predicate StandsApart(closes: seq<string> -> bool, body: seq<Piece>, after: seq<Piece>, inserted: seq<string>, pairs: seq<Pair>) {
    var k := LastSet(body);
    inserted == [] || body[k..] + after != [] || k == 0
    || closes(body[k - 1].span) || Touches(body[k - 1], KnownThrough(body[..k - 1], {}), pairs)
  }

  /** The body's last assignment closes its value, or is itself replaced, or has lines after it in
      the file; or nothing is inserted. */
  predicate SafeToAppend(x: seq<Piece>, head: Piece, body: seq<Piece>, after: seq<Piece>, pairs: seq<Pair>)
    requires head.Head? && Sets(body) && Whole(Assembled(x, head, body, after))
  {
    StandsApart(ValueCloses, body, after, InsertedFor(x, head, body, after, pairs), pairs)
  }

  lemma ReadAlone(read: Reader, front: seq<Piece>, p: Piece)
    requires Local(read) && Coherent(read, front + [p], false) && InsideAfter(front, false)
    ensures read(LinesIn(p), true) == p
  {
    CoherentClosed(read, front, [p], false);
    FlatFirst(p, []);
    assert [p] + [] == [p] && LinesIn(p) + [] == LinesIn(p);
  }

  lemma InsideFront(x: seq<Piece>, body: seq<Piece>)
    requires x != [] && x[|x| - 1].Head? && Sets(body)
    ensures InsideAfter(x + body, false)
  {
    InsideHead(x);
    InsideBody(body);
    InsideSplits(x, body, false);
  }

  lemma LastIsRead(read: Reader, x: seq<Piece>, front: seq<Piece>, last: Piece)
    requires Local(read) && x != [] && x[|x| - 1].Head? && Sets(front)
    requires Coherent(read, x + (front + [last]), false)
    ensures read(LinesIn(last), true) == last
  {
    InsideFront(x, front);
    Associated(x, front, [last]);
    ReadAlone(read, x + front, last);
  }

  lemma LastCloses(read: Reader, x: seq<Piece>, head: Piece, body: seq<Piece>)
    requires Local(read) && head.Head? && Sets(body) && body != []
    requires Coherent(read, Assembled(x, head, body, []), false)
    ensures var last := body[|body| - 1]; read(LinesIn(last), true) == last
  {
    var k := |body| - 1;
    AssembledIs(x, head, body, []);
    assert Upto(x, head) + body + [] == Upto(x, head) + body;
    assert body == body[..k] + [body[k]];
    LastIsRead(read, Upto(x, head), body[..k], body[k]);
  }

  // A value that closes by its brackets is closed whatever follows.
  lemma SafeApart(closes: seq<string> -> bool, read: Reader, body: seq<Piece>, after: seq<Piece>, inserted: seq<string>, pairs: seq<Pair>)
    requires StandsApart(closes, body, after, inserted, pairs)
    requires body != [] && body[|body| - 1].Set? && closes(body[|body| - 1].span) && after == [] ==>
      Closed(read, body[|body| - 1], true)
    ensures Closes(read, body, after, inserted, pairs)
  {
    var k := LastSet(body);
    if body[k..] + after == [] && k > 0 {
      assert k == |body|;
    }
  }

  lemma SafeCloses(lines: seq<string>, x: seq<Piece>, head: Piece, body: seq<Piece>, after: seq<Piece>,
                   series: string, profile: string, pairs: seq<Pair>)
    requires SelectsIn(lines, x, head, body, after, series, profile) && SafeToAppend(x, head, body, after, pairs)
    ensures Closes(FirstPiece, body, after, InsertedFor(x, head, body, after, pairs), pairs)
  {
    if body != [] && body[|body| - 1].Set? && ValueCloses(body[|body| - 1].span) && after == [] {
      ClosedAtEnd(lines, x, head, body);
    }
    SafeApart(ValueCloses, FirstPiece, body, after, InsertedFor(x, head, body, after, pairs), pairs);
  }

  lemma ClosedAtEnd(lines: seq<string>, x: seq<Piece>, head: Piece, body: seq<Piece>)
    requires CatalogPieces(lines) == Assembled(x, head, body, []) && head.Head? && Sets(body) && body != []
    requires body[|body| - 1].Set? && ValueCloses(body[|body| - 1].span)
    ensures Closed(FirstPiece, body[|body| - 1], true)
  {
    FirstPieceSensible();
    PiecesCohere(FirstPiece, lines, false);
    FirstPieceLocal();
    LastCloses(FirstPiece, x, head, body);
    ClosedValue(body[|body| - 1]);
  }

  /** Recording the same keys a second time changes nothing. */
  lemma RecordingTwice(lines: seq<string>, x: seq<Piece>, head: Piece, body: seq<Piece>, after: seq<Piece>,
                       series: string, profile: string, pairs: seq<Pair>)
    requires (forall pair <- pairs :: Recordable(pair)) && DistinctKeys(pairs) && Unselective(pairs)
    requires SelectsIn(lines, x, head, body, after, series, profile) && SafeToAppend(x, head, body, after, pairs)
    ensures var once := Recorded(lines, series, profile, pairs);
      once.Some? && Recorded(once.value, series, profile, pairs) == once
  {
    FirstPieceSensible();
    FirstPieceLocal();
    WritesSteadily(pairs);
    StyleIsPlain();
    SafeCloses(lines, x, head, body, after, series, profile, pairs);
    RerunChangesNothing(FirstPiece, STYLE, lines, x, head, body, after, series, profile, pairs);
  }

  lemma TwoAlike(style: Style, lines: seq<string>, block: Block, pair: Pair, first: nat, last: nat)
    requires Within(block, |lines|) && block.keys == [KeySpan(pair.key, first, last)]
    ensures first <= last < |lines|
    ensures var r := Replacement(first, last, style.rewrite(lines[first..last + 1], pair));
      && Replacements(style, lines, block, [pair, pair]) == [r, r]
      && Insertions(BlockIndent(lines, block), block, [pair, pair]) == []
  {
    assert block.keys[0].key == pair.key;
    assert [pair, pair][..1] == [pair] && [pair][..0] == [];
    assert FindKey(block.keys, pair.key) == Some(block.keys[0]);
    assert Replacements(style, lines, block, []) == [];
    assert Insertions(BlockIndent(lines, block), block, [pair]) == [];
  }

  lemma SortedAlike(r: Replacement)
    ensures SortDown([r, r]) == [r, r]
  {
    NotBelowItself(r.line);
    assert [r, r][..1] == [r] && [r][..0] == [] && [r][1..] == [];
    assert SortDown([r]) == [r];
  }

  lemma ReplacedTwice(h: string, a: string, b: string, x: string, line: string)
    ensures var r := Replacement(1, 2, line); ReplaceAll([h, a, b, x], [r, r]) == [h, line]
  {
    var r := Replacement(1, 2, line);
    assert [r, r][1..] == [r] && [r][1..] == [];
    assert ReplaceAt([h, a, b, x], r) == [h, line, x];
    assert ReplaceAt([h, line, x], r) == [h, line];
    assert ReplaceAll([h, line, x], [r]) == ReplaceAll([h, line], []);
  }

  lemma NothingInserted(lines: seq<string>, at: nat)
    requires at <= |lines|
    ensures lines[..at] + [] + lines[at..] == lines
  {
  }

  /** A key given twice is not one edit: when it stands on two lines, the second replacement takes
      the line after them along. */
  lemma GivenTwice(style: Style, h: string, a: string, b: string, x: string, pair: Pair)
    ensures var lines, block := [h, a, b, x], Block("", "", 2, [KeySpan(pair.key, 1, 2)]);
      Sequential(style, lines, block, [pair, pair]) == [h, style.rewrite([a, b], pair)]
  {
    var lines, block := [h, a, b, x], Block("", "", 2, [KeySpan(pair.key, 1, 2)]);
    var line := style.rewrite([a, b], pair);
    assert lines[1..3] == [a, b];
    TwoAlike(style, lines, block, pair, 1, 2);
    SortedAlike(Replacement(1, 2, line));
    NothingInserted(lines, 3);
    ReplacedTwice(h, a, b, x, line);
  }

  lemma {:induction false} NotBelowItself(s: string)
    ensures !LexLess(s, s)
  {
    if s != "" {
      NotBelowItself(s[1..]);
    }
  }

  // ---- a value left open ------------------------------------------------------------------------------

  const HEADER := "[[instance]]\n"

  const LEFT_OPEN := "a = [\n"

  lemma HeaderReads(rest: seq<string>)
    ensures FirstPiece([HEADER] + rest, false) == Head(HEADER)
  {
    assert HEADER[..12] == "[[instance]]";
    assert Strip(HEADER) == "[[instance]]";
  }

  lemma OpenText()
    ensures LEFT_OPEN == "a" + " = [\n" && LEFT_OPEN[..5] == "a = ["
    ensures LEFT_OPEN[1..] == " = [\n" && " = [\n"[1..] == "= [\n" && "= [\n"[1..] == " [\n"
    ensures "a = ["[1..] == " = [" && " = ["[1..] == "= ["
  {
  }

  lemma OpenStripped()
    ensures LStrip(LEFT_OPEN) == LEFT_OPEN && Strip(LEFT_OPEN) == "a = [" && Indent(LEFT_OPEN) == ""
    ensures HasEquals("a = [") && BeforeEquals("a = [") == "a " && Strip("a ") == "a"
  {
    OpenText();
    assert "a "[..1] == "a";
  }

  lemma OpenScans()
    ensures HasEquals(LEFT_OPEN) && AfterEquals(LEFT_OPEN) == " [\n"
    ensures ScanLine(" [\n", Scan(0, None)) == Scan(1, None)
  {
    OpenText();
    assert '=' == LEFT_OPEN[2];
    assert " [\n"[1..] == "[\n" && "[\n"[1..] == "\n" && "\n"[1..] == "";
  }

  lemma OpenReads()
    ensures IsAssignment(LEFT_OPEN) && !IsHead(LEFT_OPEN) && KeyOf(LEFT_OPEN) == "a" && Indent(LEFT_OPEN) == ""
    ensures HasEquals(LEFT_OPEN) && AfterEquals(LEFT_OPEN) == " [\n"
    ensures ScanLine(" [\n", Scan(0, None)) == Scan(1, None)
  {
    OpenStripped();
    OpenScans();
  }

  const EMPTY_B: Pair := Pair("b", SiteRender.Text(""))

  const NEW_B: string := NewLine("", EMPTY_B, "")

  lemma NewStays()
    ensures Recordable(EMPTY_B) && Indent(NEW_B) == "" && ScanLine(NEW_B, Scan(1, None)) == Scan(1, None)
  {
    assert SiteRender.BareKey("b");
    LineAssigns("", EMPTY_B, "");
    var shown := SiteRender.BasicString("");
    assert NEW_B == "b = " + (shown + "\n");
    SiteKinds.ScanDull("b = ", shown + "\n", 1);
    SiteKinds.ScanString("", "\n", 1);
    assert "\n"[1..] == "";
  }

  // A file read as one header and one assignment.
  lemma TwoPieces(read: Reader, h: string, tail: seq<string>, p: Piece)
    requires Sensible(read) && tail != []
    requires read([h] + tail, false) == Head(h) && read(tail, true) == p && p.Set? && p.span == tail
    ensures Pieces(read, [h] + tail, false) == [Head(h)] + [p]
  {
    assert ([h] + tail)[1..] == tail && tail[|tail|..] == [];
    assert Pieces(read, tail, true) == [p] + Pieces(read, [], true);
    assert [p] + [] == [p];
  }

  // The block of a file that is one open value, whatever of it was appended before.
  lemma OpenPieces(rest: seq<string>)
    requires rest == [] || rest == [NEW_B]
    ensures CatalogPieces([HEADER, LEFT_OPEN] + rest) == [Head(HEADER)] + [Set("a", ValueOf(LEFT_OPEN), [LEFT_OPEN] + rest)]
  {
    var tail := [LEFT_OPEN] + rest;
    FirstPieceSensible();
    OpenSpan(rest);
    HeaderReads(tail);
    TwoPieces(FirstPiece, HEADER, tail, Set("a", ValueOf(LEFT_OPEN), tail));
    assert [HEADER, LEFT_OPEN] + rest == [HEADER] + tail;
  }

  lemma OpenBlock(rest: seq<string>)
    requires rest == [] || rest == [NEW_B]
    ensures var block := Block("", "", |rest| + 1, [KeySpan("a", 1, |rest| + 1)]);
      InstanceBlocks([HEADER, LEFT_OPEN] + rest) == [block]
  {
    var lines, p := [HEADER, LEFT_OPEN] + rest, Set("a", ValueOf(LEFT_OPEN), [LEFT_OPEN] + rest);
    FirstPieceSensible();
    OpenPieces(rest);
    assert lines[0..] == lines;
    BlocksAtIs(FirstPiece, lines, 0, None, [Head(HEADER)] + [p]);
    OpenBlocks(p, |rest|);
  }

  lemma OpenSpan(rest: seq<string>)
    requires rest == [] || rest == [NEW_B]
    ensures FirstPiece([LEFT_OPEN] + rest, true) == Set("a", ValueOf(LEFT_OPEN), [LEFT_OPEN] + rest)
  {
    OpenReads();
    NewStays();
    var tail := [LEFT_OPEN] + rest;
    assert SpanCount(tail) == |tail|;
    assert tail[..|tail|] == tail;
  }

  lemma OpenBlocks(p: Piece, n: nat)
    requires p.Set? && p.key == "a" && |p.span| == n + 1
    ensures Blocks([Head(HEADER)] + [p], 0, None) == [Block("", "", n + 1, [KeySpan("a", 1, n + 1)])]
  {
    var start := Block("", "", 0, []);
    assert "a" != "series" && "a" != "profile";
    assert ([Head(HEADER)] + [p])[1..] == [p] && [p][1..] == [];
    assert Noted(start, p, 1) == Block("", "", n + 1, [KeySpan("a", 1, n + 1)]);
    assert Blocks([], n + 2, Some(Noted(start, p, 1))) == [Noted(start, p, 1)];
    assert [] + [Noted(start, p, 1)] == [Noted(start, p, 1)];
    assert Blocks([p], 1, Some(start)) == [Noted(start, p, 1)];
  }

  /** When the last value of the block is left open to the end of the file, each run appends again:
      the first run adds the line, and the second adds it once more. */
  lemma LeftOpenGrows(rest: seq<string>)
    requires rest == [] || rest == [NEW_B]
    ensures Recorded([HEADER, LEFT_OPEN] + rest, "", "", [EMPTY_B]) == Some([HEADER, LEFT_OPEN] + rest + [NEW_B])
  {
    var lines, block := [HEADER, LEFT_OPEN] + rest, Block("", "", |rest| + 1, [KeySpan("a", 1, |rest| + 1)]);
    OpenBlock(rest);
    OpenReads();
    NewStays();
    OneBlock(lines, block, [EMPTY_B]);
    assert lines[block.lastKv] == if rest == [] then LEFT_OPEN else NEW_B;
    AppendsOne(STYLE, lines, block, EMPTY_B);
  }

  lemma OneBlock(lines: seq<string>, block: Block, pairs: seq<Pair>)
    requires InstanceBlocks(lines) == [block] && block.series == "" && block.profile == "" && Within(block, |lines|)
    ensures Recorded(lines, "", "", pairs) == Some(Sequential(STYLE, lines, block, pairs))
  {
    assert Choose([block], "", "") == Some(block);
  }

  lemma AppendsOne(style: Style, lines: seq<string>, block: Block, pair: Pair)
    requires Within(block, |lines|) && block.lastKv + 1 == |lines| && |block.keys| == 1 && block.keys[0].key != pair.key
    requires BlockIndent(lines, block) == ""
    ensures Sequential(style, lines, block, [pair]) == lines + [NewLine("", pair, "")]
  {
    assert [pair][..0] == [] && !Knows(block.keys, pair.key);
    assert FindKey(block.keys, pair.key) == None by {
      FindKeyIn(block.keys, pair.key);
    }
    assert Insertions("", block, []) == [] && Replacements(style, lines, block, []) == [];
    assert Insertions("", block, [pair]) == [NewLine("", pair, "")];
    assert Replacements(style, lines, block, [pair]) == [];
    assert lines[..|lines|] == lines && lines[|lines|..] == [];
    assert lines + [NewLine("", pair, "")] + [] == lines + [NewLine("", pair, "")];
  }
}
