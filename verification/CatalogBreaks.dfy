/** Two inputs the catalog edit does not carry out once: a value with a line break inside, whose text
    reads back as other lines, and a key given twice. */
module CatalogBreaks {
  import opened Options
  import opened TomlLines
  import opened CatalogUpsert
  import opened CatalogEdits
  import opened CatalogBlocks
  import opened CatalogReread
  import opened CatalogRerun
  import opened CatalogLines
  import opened CatalogText
  import SiteRender
  import SiteKinds

  // The two lines a value with one line break is written as, behind its key.
  function Broken(key: string, a: string, c: string): Pair { Pair(key, SiteRender.Text(a + "\n" + c)) }

  function Opening(key: string, a: string): string { (key + " ") + ("=" + OpenTail(a)) }

  function OpenTail(a: string): string { " " + ("\"" + (SiteRender.Escaped(a) + "\n")) }

  function Closing(c: string): string { SiteRender.Escaped(c) + "\"" + "\n" }

  // What the second line holds makes it no assignment and no header.
  predicate Harmless(c: string) { forall i :: 0 <= i < |c| ==> c[i] != '=' && c[i] != '[' }

  predicate Breaks(key: string, a: string, c: string) {
    && SiteRender.BareKey(key) && key != "series" && key != "profile"
    && Unbroken(a) && Unbroken(c) && Harmless(c)
  }

  lemma {:induction false} EscapedJoins(a: string, c: string)
    ensures SiteRender.Escaped(a + c) == SiteRender.Escaped(a) + SiteRender.Escaped(c)
  {
    if a == "" {
      assert a + c == c;
    } else {
      assert (a + c)[0] == a[0] && (a + c)[1..] == a[1..] + c;
      EscapedJoins(a[1..], c);
    }
  }

  lemma EscapedBroken(a: string, c: string)
    ensures SiteRender.BasicString(a + "\n" + c) == "\"" + (SiteRender.Escaped(a) + "\n" + SiteRender.Escaped(c)) + "\""
  {
    SiteRender.ReplacingEscapes(a + "\n" + c);
    EscapedJoins(a + "\n", c);
    EscapedJoins(a, "\n");
    assert SiteRender.Escaped("\n") == "\n" by { assert "\n"[1..] == ""; }
  }

  lemma TextParts(key: string, a: string, c: string)
    ensures "" + key + " = " + ("\"" + (a + "\n" + c) + "\"") + "" + "\n"
      == ((key + " ") + ("=" + (" " + ("\"" + (a + "\n"))))) + (c + "\"" + "\n")
  {
  }

  lemma WrittenAsTwo(key: string, a: string, c: string)
    ensures NewLine("", Broken(key, a, c), "") == Opening(key, a) + Closing(c)
  {
    EscapedBroken(a, c);
    TextParts(key, SiteRender.Escaped(a), SiteRender.Escaped(c));
  }

  lemma TwoLines(key: string, a: string, c: string)
    requires Breaks(key, a, c)
    ensures OneLine(Opening(key, a)) && OneLine(Closing(c)) && OneLine(HEADER)
  {
    EscapedUnbroken(a);
    EscapedUnbroken(c);
    KeyUnbroken(key);
    UnbrokenBoth(key, " ");
    UnbrokenBoth(key + " ", "= \"");
    UnbrokenBoth(key + " " + "= \"", SiteRender.Escaped(a));
    assert Opening(key, a) == (key + " " + "= \"" + SiteRender.Escaped(a)) + "\n";
    EndsOne(key + " " + "= \"" + SiteRender.Escaped(a));
    UnbrokenBoth(SiteRender.Escaped(c), "\"");
    EndsOne(SiteRender.Escaped(c) + "\"");
  }

  // ---- the first of the two lines -----------------------------------------------------------------

  lemma {:induction false} ScanOpen(v: string, st: Scan)
    requires st.quote == Some('"')
    ensures ScanLine(SiteRender.Escaped(v) + "\n", st) == st
  {
    if v == "" {
      assert SiteRender.Escaped(v) + "\n" == "\n" && "\n"[1..] == "";
    } else {
      var more := SiteRender.Escaped(v[1..]) + "\n";
      assert SiteRender.Escaped(v) + "\n" == SiteRender.EscapeOne(v[0]) + more;
      SiteKinds.ScanEscape(v[0], more, st);
      ScanOpen(v[1..], st);
    }
  }

  lemma {:induction false} HashOpen(v: string)
    ensures HashAt(SiteRender.Escaped(v) + "\n", Some('"')) == None
  {
    if v == "" {
      assert SiteRender.Escaped(v) + "\n" == "\n" && "\n"[1..] == "";
    } else {
      var more := SiteRender.Escaped(v[1..]) + "\n";
      assert SiteRender.Escaped(v) + "\n" == SiteRender.EscapeOne(v[0]) + more;
      HashPastEscape(v[0], more);
      HashOpen(v[1..]);
    }
  }

  lemma OpeningScans(a: string)
    ensures ScanLine(OpenTail(a), Scan(0, None)).depth == 0 && InlineComment(OpenTail(a)) == ""
  {
    var tail := "\"" + (SiteRender.Escaped(a) + "\n");
    assert (" " + tail)[1..] == tail && tail[1..] == SiteRender.Escaped(a) + "\n";
    ScanOpen(a, Scan(0, Some('"')));
    HashOpen(a);
    assert OpenTail(a)[0..] == OpenTail(a);
    CommentAtIs(OpenTail(a), 0, None);
  }

  lemma OpeningAssigns(key: string, a: string, pair: Pair)
    requires SiteRender.BareKey(key) && pair == Pair(key, SiteRender.Text(""))
    ensures var line := Opening(key, a);
      && IsAssignment(line) && !IsHead(line) && KeyOf(line) == key && Indent(line) == ""
      && HasEquals(line) && AfterEquals(line) == OpenTail(a)
  {
    KeySpaced("", key);
    assert "" + (key + " ") == key + " ";
    SiteKinds.EqualsAfter(key + " ", OpenTail(a));
    KeyChars(key);
    assert LStrip(Opening(key, a)) == Opening(key, a);
    StrippedKey(pair, OpenTail(a));
  }

  lemma OpeningReads(key: string, a: string, rest: seq<string>)
    requires SiteRender.BareKey(key)
    ensures FirstPiece([Opening(key, a)] + rest, true) == AsSet(Opening(key, a)) && KeyOf(Opening(key, a)) == key
  {
    var line := Opening(key, a);
    OpeningAssigns(key, a, Pair(key, SiteRender.Text("")));
    OpeningScans(a);
    OneLineSpan(line, rest);
    assert ([line] + rest)[..1] == [line];
  }

  lemma OpeningRewrites(key: string, a: string, c: string)
    requires SiteRender.BareKey(key)
    ensures ReplacedLine([Opening(key, a)], Broken(key, a, c)) == NewLine("", Broken(key, a, c), "")
  {
    OpeningAssigns(key, a, Pair(key, SiteRender.Text("")));
    OpeningScans(a);
  }

  // ---- the second of the two lines ----------------------------------------------------------------

  lemma {:induction false} EscapedHarmless(c: string)
    requires Harmless(c)
    ensures Harmless(SiteRender.Escaped(c))
  {
    if c != "" {
      EscapedHarmless(c[1..]);
    }
  }

  lemma {:induction false} LStripHarmless(s: string)
    requires Harmless(s)
    ensures Harmless(LStrip(s))
  {
    if s != "" && IsSpace(s[0]) {
      LStripHarmless(s[1..]);
    }
  }

  lemma ClosingReads(c: string)
    requires Harmless(c)
    ensures FirstPiece([Closing(c)], true) == Inert(Closing(c))
  {
    EscapedHarmless(c);
    LStripHarmless(Closing(c));
    var s := Strip(Closing(c));
    assert Harmless(s);
    assert !HasEquals(s) && !Opens(s, '[');
    assert "[[instance]]"[0] == '[';
  }

  // ---- the runs -----------------------------------------------------------------------------------

  function File(key: string, a: string, c: string): seq<string> { [HEADER, Opening(key, a), Closing(c)] }

  function BodyOf(key: string, a: string, c: string): seq<Piece> { [AsSet(Opening(key, a)), Inert(Closing(c))] }

  // A file read as a header, an assignment and a line that is neither.
  lemma ThreePieces(read: Reader, h: string, p: Piece, x: string, tail: seq<string>)
    requires Sensible(read) && p.Set? && p.span != [] && tail == p.span + [x]
    requires read([h] + tail, false) == Head(h) && read(tail, true) == p && read([x], true) == Inert(x)
    ensures Pieces(read, [h] + tail, false) == Assembled([], Head(h), [p, Inert(x)], [])
  {
    assert ([h] + tail)[1..] == tail && tail[|p.span|..] == [x] && [x][1..] == [];
    assert Pieces(read, [x], true) == [Inert(x)] + Pieces(read, [], true);
    assert Pieces(read, tail, true) == [p] + Pieces(read, [x], true);
    assert Assembled([], Head(h), [p, Inert(x)], []) == [Head(h)] + ([p] + ([Inert(x)] + []));
  }

  lemma FilePieces(key: string, a: string, c: string)
    requires Breaks(key, a, c)
    ensures CatalogPieces(File(key, a, c)) == Assembled([], Head(HEADER), BodyOf(key, a, c), [])
  {
    FirstPieceSensible();
    var one, two := Opening(key, a), Closing(c);
    HeaderReads([one] + [two]);
    OpeningReads(key, a, [two]);
    ClosingReads(c);
    ThreePieces(FirstPiece, HEADER, AsSet(one), two, [one] + [two]);
    assert File(key, a, c) == [HEADER] + ([one] + [two]);
  }

  lemma FileSelects(key: string, a: string, c: string)
    requires Breaks(key, a, c)
    ensures SplitsAt([], Head(HEADER), BodyOf(key, a, c), [], "", "")
    ensures HoldsKey(BodyOf(key, a, c), key)
  {
    OpeningReads(key, a, []);
    var body := BodyOf(key, a, c);
    assert body[0].Set? && body[0].key == key;
    ValueOfOthers(body, "series", "");
    ValueOfOthers(body, "profile", "");
    assert Before([]) == [];
  }

  // A body of one assignment, of a key to record, and a line that is none.
  lemma OneEdited(style: Style, p: Piece, x: string, pair: Pair)
    requires p.Set? && p.span != [] && p.key == pair.key
    ensures Edited(style, [p, Inert(x)], [], [pair]) == [style.piece(style.rewrite(p.span, pair)), Inert(x)]
  {
    var body := [p, Inert(x)];
    assert LastSet(body) == 1 && body[..1] == [p] && body[1..] == [Inert(x)];
    assert PairFor([pair], p.key) == Some(pair);
    EditOne(style, p, {}, [pair]);
    assert AsPieces(style, []) == [];
  }

  lemma FileEdited(key: string, a: string, c: string)
    requires Breaks(key, a, c)
    ensures var pair := Broken(key, a, c);
      Edited(STYLE, BodyOf(key, a, c), [], [pair]) == [AsSet(NewLine("", pair, "")), Inert(Closing(c))]
  {
    OpeningReads(key, a, []);
    OpeningRewrites(key, a, c);
    OneEdited(STYLE, AsSet(Opening(key, a)), Closing(c), Broken(key, a, c));
  }

  lemma FlatFile(line: string, c: string)
    ensures Flat(Assembled([], Head(HEADER), [AsSet(line), Inert(Closing(c))], [])) == [HEADER, line, Closing(c)]
  {
    FlatAround([], Head(HEADER), [AsSet(line), Inert(Closing(c))], []);
    FlatFirst(AsSet(line), [Inert(Closing(c))]);
    FlatFirst(Inert(Closing(c)), []);
    assert [AsSet(line)] + [Inert(Closing(c))] == [AsSet(line), Inert(Closing(c))];
    assert [Inert(Closing(c))] + [] == [Inert(Closing(c))];
  }

  // Nothing is inserted for a key that is there.
  lemma KnownInserts(x: seq<Piece>, head: Piece, body: seq<Piece>, after: seq<Piece>, pair: Pair)
    requires head.Head? && Sets(body) && Whole(Assembled(x, head, body, after)) && HoldsKey(body, pair.key)
    ensures InsertedFor(x, head, body, after, [pair]) == []
  {
    BlockThere(x, head, body, after);
    var lines, b := Flat(Assembled(x, head, body, after)), BlockFrom(|Flat(x)|, body);
    BlockKnows(|Flat(x)|, body, pair.key);
    NothingToInsert(BlockIndent(lines, b), b, [pair]);
  }

  lemma SecondRun(key: string, a: string, c: string)
    requires Breaks(key, a, c)
    ensures var pair := Broken(key, a, c);
      Recorded(File(key, a, c), "", "", [pair]) == Some([HEADER, NewLine("", pair, ""), Closing(c)])
  {
    FirstPieceSensible();
    StyleIsPlain();
    var pair, body := Broken(key, a, c), BodyOf(key, a, c);
    FilePieces(key, a, c);
    FileSelects(key, a, c);
    UpsertedAt(FirstPiece, STYLE, File(key, a, c), [], Head(HEADER), body, [], "", "", [pair]);
    KnownInserts([], Head(HEADER), body, [], pair);
    FileEdited(key, a, c);
    FlatFile(NewLine("", pair, ""), c);
  }

  lemma HeaderAlone()
    ensures CatalogPieces([HEADER]) == Assembled([], Head(HEADER), [], [])
    ensures SplitsAt([], Head(HEADER), [], [], "", "") && Whole(Assembled([], Head(HEADER), [], []))
  {
    FirstPieceSensible();
    HeaderReads([]);
    assert [HEADER] + [] == [HEADER] && [HEADER][1..] == [];
    assert Pieces(FirstPiece, [HEADER], false) == [Head(HEADER)] + Pieces(FirstPiece, [], true);
    assert Assembled([], Head(HEADER), [], []) == [Head(HEADER)];
    assert Before([]) == [];
  }

  lemma EmptyInserts(pair: Pair)
    requires Whole(Assembled([], Head(HEADER), [], []))
    ensures InsertedFor([], Head(HEADER), [], [], [pair]) == [NewLine("", pair, "")]
  {
    BlockThere([], Head(HEADER), [], []);
    var b := Block("", "", 0, []);
    assert BlockFrom(0, []) == b;
    assert [pair][..0] == [] && Insertions("", b, []) == [];
    assert Insertions("", b, [pair]) == [] + [NewLine("", pair, "")];
  }

  lemma EmptyEdited(style: Style, line: string, pairs: seq<Pair>)
    requires Plain(style)
    ensures Flat(Assembled([], Head(HEADER), Edited(style, [], [line], pairs), [])) == [HEADER, line]
  {
    var none: seq<Piece> := [];
    assert EditSets(style, none, {}, pairs) == [] && none[..0] == none && none[0..] == none;
    assert Edited(style, none, [line], pairs) == AsPieces(style, [line]);
    FlatPieces(style, [line]);
    FlatAround([], Head(HEADER), AsPieces(style, [line]), []);
  }

  lemma FirstRun(pair: Pair)
    ensures Recorded([HEADER], "", "", [pair]) == Some([HEADER, NewLine("", pair, "")])
  {
    FirstPieceSensible();
    StyleIsPlain();
    HeaderAlone();
    UpsertedAt(FirstPiece, STYLE, [HEADER], [], Head(HEADER), [], [], "", "", [pair]);
    EmptyInserts(pair);
    EmptyEdited(STYLE, NewLine("", pair, ""), [pair]);
  }

  lemma LinesBack(h: string, a: string, b: string)
    requires OneLine(h) && OneLine(a) && OneLine(b)
    ensures LinesOf(h + (a + b)) == [h, a, b] && LinesOf(h) == [h]
  {
    forall line | line in [h, a, b] ensures OneLine(line) { }
    SplitJoin([h, a, b]);
    JoinThree(h, a, b);
    SplitJoin([h]);
    assert [h][1..] == [] && Join([h]) == h + "" == h;
  }

  lemma FileText(key: string, a: string, c: string)
    requires Breaks(key, a, c)
    ensures LinesOf(HEADER + NewLine("", Broken(key, a, c), "")) == File(key, a, c) && LinesOf(HEADER) == [HEADER]
  {
    TwoLines(key, a, c);
    WrittenAsTwo(key, a, c);
    LinesBack(HEADER, Opening(key, a), Closing(c));
  }

  lemma JoinThree(a: string, b: string, c: string)
    ensures Join([a, b, c]) == a + (b + c) == a + b + c && Join([a, b]) == a + b
  {
    assert [a, b, c][1..] == [b, c] && [b, c][1..] == [c] && [c][1..] == [] && [a, b][1..] == [b] && [b][1..] == [];
    assert Join([c]) == c + "" == c && Join([b]) == b + "" == b;
    assert a + (b + c) == a + b + c;
  }

  /** A value with a line break, recorded in a block without assignments - where nothing is left open:
      the second run puts the rest of the value into the file once more. */
  lemma BrokenValueGrows(key: string, a: string, c: string)
    requires Breaks(key, a, c)
    ensures var pair := Broken(key, a, c); var once := HEADER + NewLine("", pair, "");
      && RecordedText(HEADER, "", "", [pair]) == Some(once)
      && RecordedText(once, "", "", [pair]) == Some(once + Closing(c))
  {
    var pair := Broken(key, a, c);
    FileText(key, a, c);
    FirstRun(pair);
    SecondRun(key, a, c);
    JoinThree(HEADER, NewLine("", pair, ""), Closing(c));
  }

  // ---- a key given twice --------------------------------------------------------------------------

  const CLOSED := "]\n"

  lemma ArrayReads(x: string)
    ensures FirstPiece([LEFT_OPEN, CLOSED, x], true) == Set("a", ValueOf(LEFT_OPEN), [LEFT_OPEN, CLOSED])
  {
    OpenReads();
    var lines := [LEFT_OPEN, CLOSED, x];
    assert CLOSED[1..] == "\n" && "\n"[1..] == "";
    assert ScanLine(CLOSED, Scan(1, None)) == Scan(0, None);
    assert SpanFrom(lines, 0, Scan(1, None)) == 1 && SpanCount(lines) == 2;
    assert lines[..2] == [LEFT_OPEN, CLOSED];
  }

  function ArrayBody(x: string): seq<Piece> { [Set("a", ValueOf(LEFT_OPEN), [LEFT_OPEN, CLOSED]), Inert(x)] }

  lemma ArrayPieces(c: string)
    requires Harmless(c)
    ensures CatalogPieces([HEADER, LEFT_OPEN, CLOSED, Closing(c)]) == Assembled([], Head(HEADER), ArrayBody(Closing(c)), [])
  {
    FirstPieceSensible();
    var x := Closing(c);
    var tail := [LEFT_OPEN, CLOSED] + [x];
    HeaderReads(tail);
    ArrayReads(x);
    ClosingReads(c);
    assert tail == [LEFT_OPEN, CLOSED, x] && [HEADER, LEFT_OPEN, CLOSED, x] == [HEADER] + tail;
    ThreePieces(FirstPiece, HEADER, ArrayBody(x)[0], x, tail);
  }

  lemma OneSetBlock(p: Piece, x: string)
    requires p.Set? && p.span != [] && p.key != "series" && p.key != "profile"
    ensures BlockFrom(0, [p, Inert(x)]) == Block("", "", |p.span|, [KeySpan(p.key, 1, |p.span|)])
  {
    var b := Block("", "", 0, []);
    assert [p, Inert(x)] == [p] + [Inert(x)] && [Inert(x)] == [Inert(x)] + [];
    AbsorbStep(b, p, [Inert(x)], 1);
    AbsorbStep(Noted(b, p, 1), Inert(x), [], 1 + |p.span|);
    assert [] + [KeySpan(p.key, 1, |p.span|)] == [KeySpan(p.key, 1, |p.span|)];
  }

  lemma ArrayBlock(x: string)
    ensures SplitsAt([], Head(HEADER), ArrayBody(x), [], "", "")
    ensures BlockFrom(0, ArrayBody(x)) == Block("", "", 2, [KeySpan("a", 1, 2)])
  {
    var body := ArrayBody(x);
    assert "a" != "series" && "a" != "profile";
    ValueOfOthers(body, "series", "");
    ValueOfOthers(body, "profile", "");
    OneSetBlock(body[0], x);
    assert Before([]) == [];
  }

  lemma ArrayChosen(c: string, pairs: seq<Pair>)
    requires Harmless(c)
    ensures var lines, block := [HEADER, LEFT_OPEN, CLOSED, Closing(c)], Block("", "", 2, [KeySpan("a", 1, 2)]);
      Recorded(lines, "", "", pairs) == Some(Sequential(STYLE, lines, block, pairs))
  {
    FirstPieceSensible();
    var lines := [HEADER, LEFT_OPEN, CLOSED, Closing(c)];
    ArrayPieces(c);
    ArrayBlock(Closing(c));
    SplitIsChosen([], Head(HEADER), ArrayBody(Closing(c)), [], "", "");
    assert lines[0..] == lines && Flat([]) == [];
  }

  /** A catalog in which the key `a` stands on two lines: given twice, it takes the line after its
      value along, whatever that line says. */
  lemma GivenTwiceLoses(c: string, pair: Pair)
    requires Harmless(c) && pair.key == "a"
    ensures var lines := [HEADER, LEFT_OPEN, CLOSED, Closing(c)];
      Recorded(lines, "", "", [pair, pair]) == Some([HEADER, ReplacedLine([LEFT_OPEN, CLOSED], pair)])
  {
    ArrayChosen(c, [pair, pair]);
    GivenTwice(STYLE, HEADER, LEFT_OPEN, CLOSED, Closing(c), pair);
  }
}
