/** The catalog edit on the text of the file: the second run reads the text the first one wrote, not
    the lines it built. */
module CatalogText {
  import opened Options
  import opened TomlLines
  import opened CatalogUpsert
  import opened CatalogEdits
  import opened CatalogBlocks
  import opened CatalogReread
  import opened CatalogRerun
  import opened CatalogLines
  import opened CatalogGrowth
  import SiteRender

  /** The text after the pairs are recorded, if a block is selected. */
  function RecordedText(text: string, series: string, profile: string, pairs: seq<Pair>): Option<string> {
    var r := Recorded(LinesOf(text), series, profile, pairs);
    if r.None? then None else Some(Join(r.value))
  }

  method RecordText(text: string, series: string, profile: string, pairs: seq<Pair>) returns (r: Option<string>)
    ensures r == RecordedText(text, series, profile, pairs)
  {
    var lines := RecordKeys(LinesOf(text), series, profile, pairs);
    return if lines.None? then None else Some(Join(lines.value));
  }

  // ---- texts and values without a line break inside ---------------------------------------------

  predicate Unbroken(s: string) { forall i :: 0 <= i < |s| ==> !IsBreak(s[i]) }

  // The newline is the only character of the text that may end a line.
  predicate NewlinesOnly(text: string) { forall i :: 0 <= i < |text| && IsBreak(text[i]) ==> text[i] == '\n' }

  predicate UnbrokenPair(pair: Pair) {
    match pair.value
    case Text(v) => Unbroken(v)
    case List(items) => forall i :: 0 <= i < |items| ==> Unbroken(items[i])
    case _ => true
  }

  predicate AllOne(lines: seq<string>) { forall i :: 0 <= i < |lines| ==> OneLine(lines[i]) }

  // A line, or the unended rest of a text.
  predicate LineOrRest(line: string) { OneLine(line) || (line != "" && Unbroken(line)) }

  lemma {:induction false} FirstLineWhole(s: string)
    requires NewlinesOnly(s) && s != ""
    ensures var n := TomlLines.FirstLine(s); OneLine(s[..n]) || (n == |s| && Unbroken(s))
  {
    if !IsBreak(s[0]) {
      var n := TomlLines.FirstLine(s);
      if |s| > 1 {
        FirstLineWhole(s[1..]);
        assert s[..n] == [s[0]] + s[1..][..n - 1];
        if n == |s| && Unbroken(s[1..]) {
          forall i | 0 <= i < |s| ensures !IsBreak(s[i]) {
            assert i > 0 ==> s[1..][i - 1] == s[i];
          }
        }
      }
    }
  }

  lemma {:induction false} SplitsWhole(s: string)
    requires NewlinesOnly(s)
    ensures var lines := SplitLines(s);
      && (forall i :: 0 <= i < |lines| - 1 ==> OneLine(lines[i]))
      && (lines != [] ==> LineOrRest(lines[|lines| - 1]))
  {
    if s != "" {
      FirstLineWhole(s);
      var n := TomlLines.FirstLine(s);
      SplitsWhole(s[n..]);
      if n < |s| { assert SplitLines(s[n..]) != []; }
    }
  }

  lemma LinesAreOne(text: string)
    requires NewlinesOnly(text)
    ensures AllOne(LinesOf(text))
  {
    SplitsWhole(text);
  }

  // ---- what is written has no line break inside -------------------------------------------------

  lemma UnbrokenBoth(a: string, b: string)
    ensures Unbroken(a + b) <==> Unbroken(a) && Unbroken(b)
  {
    assert forall i :: 0 <= i < |a| ==> (a + b)[i] == a[i];
    assert forall i :: 0 <= i < |b| ==> (a + b)[|a| + i] == b[i];
  }

  lemma {:induction false} EscapedUnbroken(v: string)
    ensures Unbroken(SiteRender.Escaped(v)) <==> Unbroken(v)
  {
    if v != "" {
      assert v == [v[0]] + v[1..];
      UnbrokenBoth([v[0]], v[1..]);
      EscapedUnbroken(v[1..]);
      UnbrokenBoth(SiteRender.EscapeOne(v[0]), SiteRender.Escaped(v[1..]));
    }
  }

  lemma StringUnbroken(v: string)
    ensures Unbroken(SiteRender.BasicString(v)) <==> Unbroken(v)
  {
    SiteRender.ReplacingEscapes(v);
    EscapedUnbroken(v);
    UnbrokenBoth("\"", SiteRender.Escaped(v));
    UnbrokenBoth("\"" + SiteRender.Escaped(v), "\"");
  }

  predicate AllUnbroken(items: seq<string>) { forall i :: 0 <= i < |items| ==> Unbroken(items[i]) }

  lemma {:induction false} ItemsUnbroken(items: seq<string>)
    ensures Unbroken(SiteRender.QuotedItems(items)) <==> AllUnbroken(items)
  {
    if |items| == 1 {
      StringUnbroken(items[0]);
    } else if items != [] {
      StringUnbroken(items[0]);
      ItemsUnbroken(items[1..]);
      UnbrokenBoth(SiteRender.BasicString(items[0]), ", ");
      UnbrokenBoth(SiteRender.BasicString(items[0]) + ", ", SiteRender.QuotedItems(items[1..]));
      assert items == [items[0]] + items[1..];
    }
  }

  /** A value is written without a line break exactly when its strings have none. */
  lemma RenderedUnbroken(pair: Pair)
    requires Recordable(pair)
    ensures Unbroken(Rendered(pair)) <==> UnbrokenPair(pair)
  {
    match pair.value
    case Text(v) => StringUnbroken(v);
    case List(items) =>
      ItemsUnbroken(items);
      UnbrokenBoth("[", SiteRender.QuotedItems(items));
      UnbrokenBoth("[" + SiteRender.QuotedItems(items), "]");
  }

  lemma KeyUnbroken(key: string)
    requires SiteRender.BareKey(key)
    ensures Unbroken(key)
  {
    forall i | 0 <= i < |key| ensures !IsBreak(key[i]) {
      assert key[i] in key;
    }
  }

  /** A line written is one line of the text exactly when the value has no line break, given an
      indentation and a comment that have none. */
  lemma WrittenIsOne(indent: string, pair: Pair, comment: string)
    requires Recordable(pair) && Unbroken(indent) && Unbroken(comment)
    ensures OneLine(NewLine(indent, pair, comment)) <==> UnbrokenPair(pair)
  {
    RenderedUnbroken(pair);
    KeyUnbroken(pair.key);
    var front := indent + pair.key;
    UnbrokenBoth(indent, pair.key);
    UnbrokenBoth(front, " = ");
    UnbrokenBoth(front + " = ", Rendered(pair));
    UnbrokenBoth(front + " = " + Rendered(pair), comment);
    EndsOne(front + " = " + Rendered(pair) + comment);
  }

  lemma EndsOne(s: string)
    ensures OneLine(s + "\n") <==> Unbroken(s)
  {
    assert forall i :: 0 <= i < |s| ==> (s + "\n")[i] == s[i];
  }

  // ---- indentation and comments of lines --------------------------------------------------------

  lemma {:induction false} StripsSome(line: string)
    requires HasEquals(line)
    ensures LStrip(line) != ""
  {
    if IsSpace(line[0]) {
      assert line[0] != '=';
      StripsSome(line[1..]);
    }
  }

  lemma IndentUnbroken(line: string)
    requires OneLine(line) && HasEquals(line)
    ensures Unbroken(Indent(line))
  {
    StripsSome(line);
  }

  lemma {:induction false} AfterEqualsOne(line: string)
    requires OneLine(line) && HasEquals(line)
    ensures OneLine(AfterEquals(line))
  {
    if line[0] != '=' {
      AfterEqualsOne(line[1..]);
    }
  }

  lemma {:induction false} BreakOff(s: string)
    requires forall i :: 0 <= i < |s| - 1 ==> !IsBreak(s[i])
    requires s != "" ==> s[|s| - 1] == '\n' || !IsBreak(s[|s| - 1])
    ensures Unbroken(WithoutBreak(s))
  {
    if s != "" && s[|s| - 1] in "\r\n" {
      BreakOff(s[..|s| - 1]);
    }
  }

  lemma CommentUnbroken(s: string)
    requires OneLine(s)
    ensures Unbroken(InlineComment(s))
  {
    var at := CommentAt(s, 0, None);
    if at.Some? {
      var start := BlanksBefore(s, at.value);
      BreakOff(s[start..]);
    }
  }

  lemma KeptUnbroken(span: seq<string>)
    requires AllOne(span)
    ensures Unbroken(KeptComment(span))
  {
    if span != [] {
      if HasEquals(span[0]) {
        AfterEqualsOne(span[0]);
        CommentUnbroken(AfterEquals(span[0]));
      }
      CommentUnbroken(span[|span| - 1]);
    }
  }

  // ---- the edited lines ---------------------------------------------------------------------------

  predicate OnePiece(p: Piece) {
    AllOne(LinesIn(p)) && (p.Set? && p.span != [] ==> HasEquals(p.span[0]))
  }

  predicate OnePieces(ps: seq<Piece>) { forall i :: 0 <= i < |ps| ==> OnePiece(ps[i]) }

  lemma RewrittenIsOne(span: seq<string>, pair: Pair)
    requires Recordable(pair) && UnbrokenPair(pair) && AllOne(span) && span != [] && HasEquals(span[0])
    ensures OneLine(ReplacedLine(span, pair))
  {
    IndentUnbroken(span[0]);
    KeptUnbroken(span);
    WrittenIsOne(Indent(span[0]), pair, KeptComment(span));
  }

  predicate Clean(pairs: seq<Pair>) { forall pair <- pairs :: Recordable(pair) && UnbrokenPair(pair) }

  lemma {:induction false} EditedOne(body: seq<Piece>, known: set<string>, pairs: seq<Pair>)
    requires OnePieces(body) && Clean(pairs)
    ensures AllOne(Flat(EditSets(STYLE, body, known, pairs)))
  {
    if body != [] {
      var p, rest := body[0], body[1..];
      assert body == [p] + rest;
      EditCons(STYLE, p, rest, known, pairs);
      EditedOne(rest, KnownAfter(p, known), pairs);
      FlatFirst(EditPiece(STYLE, p, known, pairs), EditSets(STYLE, rest, KnownAfter(p, known), pairs));
      if Touches(p, known, pairs) {
        PairForIs(pairs, p.key);
        RewrittenIsOne(p.span, PairFor(pairs, p.key).value);
      }
    }
  }

  lemma {:induction false} InsertedOne(indent: string, b: Block, pairs: seq<Pair>)
    requires Clean(pairs) && Unbroken(indent)
    ensures AllOne(Insertions(indent, b, pairs))
  {
    if pairs != [] {
      var n := |pairs| - 1;
      InsertedOne(indent, b, pairs[..n]);
      WrittenIsOne(indent, pairs[n], "");
    }
  }

  lemma {:induction false} PiecesOne(read: Reader, lines: seq<string>, inBlock: bool)
    requires Sensible(read) && read == FirstPiece && AllOne(lines)
    ensures OnePieces(Pieces(read, lines, inBlock))
    decreases |lines|
  {
    if lines != [] {
      var p := read(lines, inBlock);
      PieceOne(lines, inBlock);
      PiecesOne(read, lines[|LinesIn(p)|..], Inside(p, inBlock));
    }
  }

  lemma PieceOne(lines: seq<string>, inBlock: bool)
    requires lines != [] && AllOne(lines)
    ensures OnePiece(FirstPiece(lines, inBlock))
  {
    var p := FirstPiece(lines, inBlock);
    assert forall i :: 0 <= i < |LinesIn(p)| ==> LinesIn(p)[i] == lines[i];
    if p.Set? { AssignmentHasEquals(lines[0]); }
  }

  lemma {:induction false} FlatOne(ps: seq<Piece>)
    requires OnePieces(ps)
    ensures AllOne(Flat(ps))
  {
    if ps != [] {
      assert OnePiece(ps[0]);
      FlatOne(ps[1..]);
    }
  }

  // ---- the file after an edit -------------------------------------------------------------------

  lemma AllOneBoth(a: seq<string>, b: seq<string>)
    ensures AllOne(a + b) <==> AllOne(a) && AllOne(b)
  {
    assert forall i :: 0 <= i < |a| ==> (a + b)[i] == a[i];
    assert forall i :: 0 <= i < |b| ==> (a + b)[|a| + i] == b[i];
  }

  lemma PartsOne(ps: seq<Piece>, a: seq<Piece>, b: seq<Piece>)
    requires OnePieces(ps) && ps == a + b
    ensures OnePieces(a) && OnePieces(b)
  {
    assert forall i :: 0 <= i < |a| ==> a[i] == ps[i];
    assert forall i :: 0 <= i < |b| ==> b[i] == ps[|a| + i];
  }

  lemma BodyOne(lines: seq<string>, x: seq<Piece>, head: Piece, body: seq<Piece>, after: seq<Piece>)
    requires AllOne(lines) && CatalogPieces(lines) == Assembled(x, head, body, after) && head.Head?
    ensures OnePieces(body) && AllOne(Flat(x) + [head.line]) && AllOne(Flat(after))
  {
    FirstPieceSensible();
    PiecesOne(FirstPiece, lines, false);
    var ps := Assembled(x, head, body, after);
    PartsOne(ps, x, [head] + (body + after));
    PartsOne([head] + (body + after), [head], body + after);
    PartsOne(body + after, body, after);
    FlatOne(x);
    FlatOne(after);
    assert OnePiece([head][0]) && LinesIn(head)[0] == head.line;
    AllOneBoth(Flat(x), [head.line]);
  }

  lemma EditedBodyOne(body: seq<Piece>, inserted: seq<string>, pairs: seq<Pair>)
    requires OnePieces(body) && Clean(pairs) && AllOne(inserted)
    ensures AllOne(Flat(Edited(STYLE, body, inserted, pairs)))
  {
    var k := LastSet(body);
    var h, i := EditSets(STYLE, body[..k], {}, pairs), AsPieces(STYLE, inserted);
    assert body == body[..k] + body[k..];
    PartsOne(body, body[..k], body[k..]);
    EditedOne(body[..k], {}, pairs);
    FlatOne(body[k..]);
    StyleIsPlain();
    FlatPieces(STYLE, inserted);
    FlatSplits(h + i, body[k..]);
    FlatSplits(h, i);
    AllOneBoth(Flat(h), inserted);
    AllOneBoth(Flat(h) + inserted, Flat(body[k..]));
  }

  lemma TextIs(lines: seq<string>, series: string, profile: string, pairs: seq<Pair>)
    requires AllOne(lines)
    ensures RecordedText(Join(lines), series, profile, pairs)
      == if Recorded(lines, series, profile, pairs).None? then None else Some(Join(Recorded(lines, series, profile, pairs).value))
  {
    forall line | line in lines ensures OneLine(line) { }
    SplitJoin(lines);
  }

  lemma {:induction false} JoinFilled(lines: seq<string>)
    requires lines != [] && forall i :: 0 <= i < |lines| ==> lines[i] != ""
    ensures Join(lines) != ""
  {
  }

  lemma LongerText(a: seq<string>, b: seq<string>)
    requires Longer(a, b)
    ensures |Join(a)| < |Join(b)|
  {
    var more := b[|a|..];
    assert b == a + more;
    JoinSplits(a, more);
    JoinFilled(more);
  }
}
