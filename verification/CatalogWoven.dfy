/** Lines put after a block, as lines of the text. When the block's last line is blank it is taken for
    the indentation, so that each line inserted is a blank line and an assignment. */
module CatalogWoven {
  import opened Options
  import opened TomlLines
  import opened CatalogUpsert
  import opened CatalogEdits
  import opened CatalogBlocks
  import opened CatalogReread
  import opened CatalogRerun
  import opened CatalogLines
  import opened CatalogGrowth
  import opened CatalogText

  function Weave(blank: string, lines: seq<string>): seq<string> {
    if lines == [] then [] else [blank, lines[0]] + Weave(blank, lines[1..])
  }

  // The lines of the text that the lines inserted are.
  function PutLines(indent: string, b: Block, pairs: seq<Pair>): seq<string> {
    if Unbroken(indent) then Insertions(indent, b, pairs) else Weave(indent, Insertions("", b, pairs))
  }

  lemma {:induction false} WovenAt(blank: string, lines: seq<string>)
    ensures |Weave(blank, lines)| == 2 * |lines|
    ensures forall i :: 0 <= i < |lines| ==> Weave(blank, lines)[2 * i] == blank && Weave(blank, lines)[2 * i + 1] == lines[i]
  {
    if lines != [] {
      WovenAt(blank, lines[1..]);
      var more := Weave(blank, lines[1..]);
      forall i | 0 <= i < |lines|
        ensures Weave(blank, lines)[2 * i] == blank && Weave(blank, lines)[2 * i + 1] == lines[i]
      {
        if i > 0 {
          assert Weave(blank, lines)[2 * i] == more[2 * (i - 1)] && Weave(blank, lines)[2 * i + 1] == more[2 * (i - 1) + 1];
          assert lines[1..][i - 1] == lines[i];
        }
      }
    }
  }

  // Every line of a weave is the blank one or one of the lines.
  lemma WovenIn(blank: string, lines: seq<string>, k: nat)
    requires k < |Weave(blank, lines)|
    ensures |Weave(blank, lines)| == 2 * |lines| && k / 2 < |lines|
    ensures Weave(blank, lines)[k] == if k % 2 == 0 then blank else lines[k / 2]
  {
    WovenAt(blank, lines);
    assert k == 2 * (k / 2) || k == 2 * (k / 2) + 1;
  }

  lemma {:induction false} IndentedInsertions(indent: string, b: Block, pairs: seq<Pair>)
    ensures |Insertions(indent, b, pairs)| == |Insertions("", b, pairs)|
    ensures forall i :: 0 <= i < |Insertions("", b, pairs)| ==> Insertions(indent, b, pairs)[i] == indent + Insertions("", b, pairs)[i]
  {
    if pairs != [] {
      var n := |pairs| - 1;
      IndentedInsertions(indent, b, pairs[..n]);
      assert NewLine(indent, pairs[n], "") == indent + NewLine("", pairs[n], "");
    }
  }

  lemma {:induction false} WovenText(blank: string, lines: seq<string>, indented: seq<string>)
    requires |indented| == |lines| && forall i :: 0 <= i < |lines| ==> indented[i] == blank + lines[i]
    ensures Join(Weave(blank, lines)) == Join(indented)
  {
    if lines != [] {
      forall i | 0 <= i < |lines[1..]| ensures indented[1..][i] == blank + lines[1..][i] {
        assert indented[1..][i] == indented[i + 1] && lines[1..][i] == lines[i + 1];
      }
      WovenText(blank, lines[1..], indented[1..]);
      var more := Weave(blank, lines[1..]);
      JoinSplits([blank, lines[0]], more);
      JoinTwo(blank, lines[0]);
    }
  }

  lemma JoinTwo(a: string, b: string)
    ensures Join([a, b]) == a + b
  {
    assert [a, b][1..] == [b] && [b][1..] == [];
    assert Join([b]) == b + "" == b;
  }

  lemma PutText(indent: string, b: Block, pairs: seq<Pair>)
    ensures Join(PutLines(indent, b, pairs)) == Join(Insertions(indent, b, pairs))
    ensures PutLines(indent, b, pairs) == [] <==> Insertions(indent, b, pairs) == []
  {
    if !Unbroken(indent) {
      IndentedInsertions(indent, b, pairs);
      WovenText(indent, Insertions("", b, pairs), Insertions(indent, b, pairs));
      WovenAt(indent, Insertions("", b, pairs));
    }
  }

  // ---- what the lines put read as -----------------------------------------------------------------

  lemma BlankIdle(line: string)
    requires LStrip(line) == ""
    ensures Idle(FirstPiece, STYLE, line)
  {
    assert Strip(line) == "";
    forall rest: seq<string> ensures FirstPiece([line] + rest, true) == Inert(line) {
      assert ([line] + rest)[0] == line;
    }
  }

  predicate SomeBlank(indent: string) { (Unbroken(indent) && Blank(indent)) || (OneLine(indent) && LStrip(indent) == "") }

  lemma FreshWritten(b: Block, pairs: seq<Pair>)
    requires Clean(pairs)
    ensures WrittenFor(FirstPiece, STYLE, pairs, Insertions("", b, pairs))
  {
    WritesSteadily(pairs);
    InsertedWritten(FirstPiece, STYLE, "", b, pairs, pairs);
  }

  lemma PutWritten(indent: string, b: Block, pairs: seq<Pair>)
    requires Clean(pairs) && SomeBlank(indent)
    ensures WrittenFor(FirstPiece, STYLE, pairs, PutLines(indent, b, pairs))
  {
    WritesSteadily(pairs);
    if Unbroken(indent) {
      BlankOf(indent);
      InsertedWritten(FirstPiece, STYLE, indent, b, pairs, pairs);
    } else {
      var plain, put := Insertions("", b, pairs), PutLines(indent, b, pairs);
      FreshWritten(b, pairs);
      BlankIdle(indent);
      forall k | 0 <= k < |put| ensures WrittenLine(FirstPiece, STYLE, pairs, put[k]) {
        WovenIn(indent, plain, k);
        if k % 2 == 1 { assert WrittenLine(FirstPiece, STYLE, pairs, plain[k / 2]); }
      }
    }
  }

  lemma BlankOf(indent: string)
    requires SomeBlank(indent)
    ensures Blank(indent)
  {
    if !(Unbroken(indent) && Blank(indent)) {
      LStripBlank(indent);
      forall c | c in indent ensures IsSpace(c) {
        var i :| 0 <= i < |indent| && indent[i] == c;
      }
    }
  }

  lemma PutOne(indent: string, b: Block, pairs: seq<Pair>)
    requires Clean(pairs) && SomeBlank(indent)
    ensures AllOne(PutLines(indent, b, pairs))
  {
    if Unbroken(indent) {
      InsertedOne(indent, b, pairs);
    } else {
      InsertedOne("", b, pairs);
      forall k | 0 <= k < |PutLines(indent, b, pairs)| ensures OneLine(PutLines(indent, b, pairs)[k]) {
        WovenIn(indent, Insertions("", b, pairs), k);
      }
    }
  }

  lemma PutEnds(indent: string, b: Block, pairs: seq<Pair>)
    requires Clean(pairs) && SomeBlank(indent)
    ensures EndsSet(STYLE, PutLines(indent, b, pairs))
  {
    WritesSteadily(pairs);
    if Unbroken(indent) {
      BlankOf(indent);
      InsertionsSet(FirstPiece, STYLE, indent, b, pairs);
    } else {
      var plain := Insertions("", b, pairs);
      InsertionsSet(FirstPiece, STYLE, "", b, pairs);
      WovenAt(indent, plain);
      if plain != [] { WovenIn(indent, plain, 2 * |plain| - 1); }
    }
  }

  // The line that assigns the first absent key.
  function OwnAt(indent: string): nat { if Unbroken(indent) then 0 else 1 }

  lemma PutOwns(indent: string, b: Block, pairs: seq<Pair>)
    requires Clean(pairs) && DistinctKeys(pairs) && SomeBlank(indent) && PutLines(indent, b, pairs) != []
    ensures OwnLine(STYLE, b, PutLines(indent, b, pairs), OwnAt(indent), pairs)
  {
    WritesSteadily(pairs);
    if Unbroken(indent) {
      BlankOf(indent);
      InsertionsFresh(FirstPiece, STYLE, indent, b, pairs);
      FirstOwns(STYLE, b, Insertions(indent, b, pairs), pairs);
    } else {
      var plain, put := Insertions("", b, pairs), PutLines(indent, b, pairs);
      InsertionsFresh(FirstPiece, STYLE, "", b, pairs);
      WovenAt(indent, plain);
      WovenIn(indent, plain, 1);
      BlankIdle(indent);
      forall j | 1 < j < |put| && STYLE.piece(put[j]).Set? ensures LineKey(STYLE, put[j]) != LineKey(STYLE, put[1]) {
        WovenIn(indent, plain, j);
        assert put[j] == plain[j / 2] && j / 2 > 0;
      }
    }
  }

  // ---- the absent keys ----------------------------------------------------------------------------

  lemma PutHasLine(indent: string, b: Block, pairs: seq<Pair>, pair: Pair) returns (k: nat)
    requires pair in pairs && !Knows(b.keys, pair.key) && Clean(pairs) && SomeBlank(indent)
    ensures k < |PutLines(indent, b, pairs)| && Settled(FirstPiece, STYLE, pair, PutLines(indent, b, pairs)[k])
  {
    WritesSteadily(pairs);
    BlankOf(indent);
    if Unbroken(indent) {
      LineInserted(indent, b, pairs, pair);
      var lines := Insertions(indent, b, pairs);
      k :| 0 <= k < |lines| && lines[k] == NewLine(indent, pair, "");
      assert Settled(FirstPiece, STYLE, pair, NewLine(indent, pair, ""));
    } else {
      LineInserted("", b, pairs, pair);
      var lines := Insertions("", b, pairs);
      var i :| 0 <= i < |lines| && lines[i] == NewLine("", pair, "");
      assert Settled(FirstPiece, STYLE, pair, NewLine("", pair, ""));
      WovenAt(indent, lines);
      k := 2 * i + 1;
    }
  }

  lemma PutProvides(indent: string, line: nat, body: seq<Piece>, pairs: seq<Pair>)
    requires Clean(pairs) && SomeBlank(indent)
    ensures Provided(FirstPiece, STYLE, body, PutLines(indent, BlockFrom(line, body), pairs), pairs)
  {
    var b := BlockFrom(line, body);
    forall pair | pair in pairs ensures ProvidedOne(FirstPiece, STYLE, body, PutLines(indent, b, pairs), pair) {
      BlockKnows(line, body, pair.key);
      if !HoldsKey(body, pair.key) {
        var k := PutHasLine(indent, b, pairs, pair);
      }
    }
  }

  // ---- an open value before a blank line ------------------------------------------------------------

  lemma {:induction false} BlankScans(s: string, st: Scan)
    requires Blank(s) && (st.quote.Some? ==> st.quote.value in "\"'")
    ensures ScanLine(s, st) == st
  {
    if s != "" {
      assert s[0] in s && IsSpace(s[0]);
      assert forall c :: c in s[1..] ==> c in s;
      BlankScans(s[1..], st);
    }
  }

  predicate Quotes(st: Scan) { st.quote.Some? ==> st.quote.value in "\"'" }

  lemma {:induction false} ScanQuotes(s: string, st: Scan)
    requires Quotes(st)
    ensures Quotes(ScanLine(s, st))
    decreases |s|
  {
    if s != "" {
      if Escapes(s[0], st) {
        ScanQuotes(if |s| > 1 then s[2..] else "", st);
      } else if !(st.quote.None? && s[0] == '#') {
        ScanQuotes(s[1..], Step(s[0], st));
      }
    }
  }

  lemma {:induction false} BlankEnds(lines: seq<string>, blank: string, st: Scan)
    requires Blank(blank) && Quotes(st)
    ensures EndDepth(lines + [blank], st) == EndDepth(lines, st)
  {
    if lines == [] {
      BlankScans(blank, st);
      assert lines + [blank] == [blank] && [blank][1..] == [];
    } else {
      assert (lines + [blank])[1..] == lines[1..] + [blank];
      ScanQuotes(lines[0], st);
      BlankEnds(lines[1..], blank, ScanLine(lines[0], st));
    }
  }

  // The open value takes in a blank line and the one after it.
  lemma SwallowsTwo(last: Piece, blank: string, more: seq<string>) returns (n: nat)
    requires ReadAs(last) && !ValueCloses(last.span) && Blank(blank) && more != []
    ensures Swallows(FirstPiece, last, [blank] + more, n) && n > 1
  {
    var span, all := last.span, last.span + ([blank] + more);
    AssignmentHasEquals(span[0]);
    var st := ScanLine(AfterEquals(span[0]), Scan(0, None));
    ScanQuotes(AfterEquals(span[0]), Scan(0, None));
    OpenGoesOn(span, [blank], 0, st);
    BlankEnds(span[1..], blank, st);
    assert (span + [blank])[1..] == span[1..] + [blank];
    OpenGoesOn(span + [blank], more, 0, st);
    assert all == (span + [blank]) + more;
    assert all[0] == span[0];
    n := SpanCount(all) - |span|;
    assert all[..SpanCount(all)] == span + ([blank] + more)[..n];
  }

  // ---- the file the first run writes, line by line --------------------------------------------------

  lemma IndentSome(lines: seq<string>, b: Block)
    requires AllOne(lines) && Within(b, |lines|)
    ensures SomeBlank(BlockIndent(lines, b))
  {
    if b.keys != [] {
      var line := lines[b.lastKv];
      BlankIndent(line);
      if !Unbroken(Indent(line)) { assert Indent(line) == line; }
    }
  }

  // The edited file with these lines put after the block's last assignment.
  function PutFile(x: seq<Piece>, head: Piece, body: seq<Piece>, after: seq<Piece>, put: seq<string>, pairs: seq<Pair>): seq<string> {
    Flat(Assembled(x, head, Edited(STYLE, body, put, pairs), after))
  }

  lemma FlatEdited(body: seq<Piece>, put: seq<string>, pairs: seq<Pair>)
    ensures var k := LastSet(body);
      Flat(Edited(STYLE, body, put, pairs)) == Flat(EditSets(STYLE, body[..k], {}, pairs)) + put + Flat(body[k..])
  {
    var k := LastSet(body);
    var e, i := EditSets(STYLE, body[..k], {}, pairs), AsPieces(STYLE, put);
    StyleIsPlain();
    FlatPieces(STYLE, put);
    FlatSplits(e + i, body[k..]);
    FlatSplits(e, i);
  }

  lemma SameText(front: seq<string>, a: seq<string>, b: seq<string>, back: seq<string>)
    requires Join(a) == Join(b)
    ensures Join(front + a + back) == Join(front + b + back)
  {
    JoinSplits(front + a, back);
    JoinSplits(front, a);
    JoinSplits(front + b, back);
    JoinSplits(front, b);
  }

  lemma PutFileText(x: seq<Piece>, head: Piece, body: seq<Piece>, after: seq<Piece>, put: seq<string>, other: seq<string>, pairs: seq<Pair>)
    requires head.Head? && Join(put) == Join(other)
    ensures Join(PutFile(x, head, body, after, put, pairs)) == Join(PutFile(x, head, body, after, other, pairs))
  {
    var k := LastSet(body);
    FlatEdited(body, put, pairs);
    FlatEdited(body, other, pairs);
    SameText(Flat(EditSets(STYLE, body[..k], {}, pairs)), put, other, Flat(body[k..]));
    FlatAround(x, head, Edited(STYLE, body, put, pairs), after);
    FlatAround(x, head, Edited(STYLE, body, other, pairs), after);
    SameText(Flat(x) + [head.line], Flat(Edited(STYLE, body, put, pairs)), Flat(Edited(STYLE, body, other, pairs)), Flat(after));
  }

  lemma PutFileOne(lines: seq<string>, x: seq<Piece>, head: Piece, body: seq<Piece>, after: seq<Piece>, put: seq<string>, pairs: seq<Pair>)
    requires AllOne(lines) && CatalogPieces(lines) == Assembled(x, head, body, after) && head.Head?
    requires Clean(pairs) && AllOne(put)
    ensures AllOne(PutFile(x, head, body, after, put, pairs))
  {
    var edited := Edited(STYLE, body, put, pairs);
    BodyOne(lines, x, head, body, after);
    EditedBodyOne(body, put, pairs);
    FlatAround(x, head, edited, after);
    AllOneBoth(Flat(x) + [head.line], Flat(edited));
    AllOneBoth(Flat(x) + [head.line] + Flat(edited), Flat(after));
  }

  // The indentation and the lines put, for the selected block.
  function IndentFor(x: seq<Piece>, head: Piece, body: seq<Piece>, after: seq<Piece>): string
    requires head.Head? && Sets(body) && Whole(Assembled(x, head, body, after))
  {
    BlockThere(x, head, body, after);
    BlockIndent(Flat(Assembled(x, head, body, after)), BlockFrom(|Flat(x)|, body))
  }

  function PutFor(x: seq<Piece>, head: Piece, body: seq<Piece>, after: seq<Piece>, pairs: seq<Pair>): seq<string>
    requires head.Head? && Sets(body) && Whole(Assembled(x, head, body, after))
  {
    PutLines(IndentFor(x, head, body, after), BlockFrom(|Flat(x)|, body), pairs)
  }

  // What is known of the lines put.
  ghost predicate WellPut(put: seq<string>, inserted: seq<string>, b: Block, body: seq<Piece>, h: nat, pairs: seq<Pair>) {
    && AllOne(put) && Join(put) == Join(inserted) && (put == [] <==> inserted == [])
    && WrittenFor(FirstPiece, STYLE, pairs, put) && EndsSet(STYLE, put) && Provided(FirstPiece, STYLE, body, put, pairs)
    && (put != [] ==> OwnLine(STYLE, b, put, h, pairs))
  }

  lemma PutIsWell(lines: seq<string>, x: seq<Piece>, head: Piece, body: seq<Piece>, after: seq<Piece>, pairs: seq<Pair>)
    requires AllOne(lines) && head.Head? && Sets(body) && Whole(Assembled(x, head, body, after))
    requires Flat(Assembled(x, head, body, after)) == lines && Clean(pairs) && DistinctKeys(pairs)
    ensures WellPut(PutFor(x, head, body, after, pairs), InsertedFor(x, head, body, after, pairs),
                    BlockFrom(|Flat(x)|, body), body, OwnAt(IndentFor(x, head, body, after)), pairs)
  {
    BlockThere(x, head, body, after);
    var b, indent := BlockFrom(|Flat(x)|, body), IndentFor(x, head, body, after);
    IndentSome(lines, b);
    PutOne(indent, b, pairs);
    PutText(indent, b, pairs);
    PutWritten(indent, b, pairs);
    PutEnds(indent, b, pairs);
    PutProvides(indent, |Flat(x)|, body, pairs);
    if PutLines(indent, b, pairs) != [] { PutOwns(indent, b, pairs); }
  }

  // The text of the first run, and how the second one reads it.
  lemma FirstText(text: string, x: seq<Piece>, head: Piece, body: seq<Piece>, after: seq<Piece>, put: seq<string>,
                  series: string, profile: string, pairs: seq<Pair>)
    requires NewlinesOnly(text) && Clean(pairs) && DistinctKeys(pairs)
    requires SelectsIn(LinesOf(text), x, head, body, after, series, profile)
    requires AllOne(put) && Join(put) == Join(InsertedFor(x, head, body, after, pairs))
    ensures RecordedText(text, series, profile, pairs) == Some(Join(PutFile(x, head, body, after, put, pairs)))
    ensures AllOne(PutFile(x, head, body, after, put, pairs))
  {
    FirstPieceSensible();
    StyleIsPlain();
    LinesAreOne(text);
    UpsertedAt(FirstPiece, STYLE, LinesOf(text), x, head, body, after, series, profile, pairs);
    PutFileText(x, head, body, after, put, InsertedFor(x, head, body, after, pairs), pairs);
    PutFileOne(LinesOf(text), x, head, body, after, put, pairs);
  }

  lemma ClosesPut(body: seq<Piece>, after: seq<Piece>, inserted: seq<string>, put: seq<string>, pairs: seq<Pair>)
    requires Closes(FirstPiece, body, after, inserted, pairs) && (put == [] <==> inserted == [])
    ensures Closes(FirstPiece, body, after, put, pairs)
  {
  }

  lemma SafeStays(lines: seq<string>, x: seq<Piece>, head: Piece, body: seq<Piece>, after: seq<Piece>, put: seq<string>, h: nat,
                  series: string, profile: string, pairs: seq<Pair>)
    requires Clean(pairs) && DistinctKeys(pairs) && Unselective(pairs)
    requires SelectsIn(lines, x, head, body, after, series, profile) && SafeToAppend(x, head, body, after, pairs)
    requires WellPut(put, InsertedFor(x, head, body, after, pairs), BlockFrom(|Flat(x)|, body), body, h, pairs)
    ensures var t := PutFile(x, head, body, after, put, pairs); Recorded(t, series, profile, pairs) == Some(t)
  {
    FirstPieceSensible();
    FirstPieceLocal();
    WritesSteadily(pairs);
    StyleIsPlain();
    SafeCloses(lines, x, head, body, after, series, profile, pairs);
    ClosesPut(body, after, InsertedFor(x, head, body, after, pairs), put, pairs);
    PutStays(FirstPiece, STYLE, lines, x, head, body, after, put, series, profile, pairs);
  }

  // How many of the lines put the open value takes in: the first with a key of its own is among them.
  lemma PutSwallowed(indent: string, b: Block, last: Piece, put: seq<string>, pairs: seq<Pair>) returns (n: nat)
    requires ReadAs(last) && !ValueCloses(last.span) && SomeBlank(indent) && put == PutLines(indent, b, pairs) && put != []
    ensures Swallows(FirstPiece, last, put, n) && n > OwnAt(indent)
  {
    if Unbroken(indent) {
      n := OpenSwallows(last, put);
    } else {
      BlankOf(indent);
      var plain := Insertions("", b, pairs);
      assert put == [indent] + ([plain[0]] + Weave(indent, plain[1..]));
      n := SwallowsTwo(last, indent, [plain[0]] + Weave(indent, plain[1..]));
    }
  }

  // The last value as it was read.
  lemma LastReadAs(lines: seq<string>, x: seq<Piece>, head: Piece, body: seq<Piece>, last: Piece)
    requires CatalogPieces(lines) == Assembled(x, head, body, []) && Whole(Assembled(x, head, body, []))
    requires head.Head? && Sets(body) && body != [] && body[|body| - 1] == last && last.Set?
    ensures ReadAs(last)
  {
    FirstPieceSensible();
    FirstPieceLocal();
    PiecesCohere(FirstPiece, lines, false);
    LastCloses(FirstPiece, x, head, body);
    WholeBody(x, head, body, []);
  }

  lemma UnsafePut(lines: seq<string>, x: seq<Piece>, head: Piece, body: seq<Piece>, after: seq<Piece>, put: seq<string>,
                  series: string, profile: string, pairs: seq<Pair>)
    requires AllOne(lines) && Clean(pairs) && DistinctKeys(pairs) && Unselective(pairs)
    requires SelectsIn(lines, x, head, body, after, series, profile) && !SafeToAppend(x, head, body, after, pairs)
    requires put == PutFor(x, head, body, after, pairs)
    requires WellPut(put, InsertedFor(x, head, body, after, pairs), BlockFrom(|Flat(x)|, body), body,
                     OwnAt(IndentFor(x, head, body, after)), pairs)
    requires Flat(Assembled(x, head, body, after)) == lines
    ensures var t := PutFile(x, head, body, after, put, pairs); var again := Recorded(t, series, profile, pairs);
      again.Some? && Longer(t, again.value)
  {
    FirstPieceSensible();
    FirstPieceLocal();
    WritesSteadily(pairs);
    StyleIsPlain();
    var front, last := UnsafeParts(ValueCloses, body, after, InsertedFor(x, head, body, after, pairs), pairs);
    LastReadAs(lines, x, head, body, last);
    BlockThere(x, head, body, after);
    var b, indent := BlockFrom(|Flat(x)|, body), IndentFor(x, head, body, after);
    IndentSome(lines, b);
    var n := PutSwallowed(indent, b, last, put, pairs);
    LeftOpenGrowsAgain(FirstPiece, STYLE, lines, x, head, front, last, put, n, OwnAt(indent), series, profile, pairs);
  }

  /** On texts: recording the same keys a second time leaves the text as it is if and only if the lines
      put into the block stand apart from its last value - that value closes, or is itself replaced,
      or has lines after it in the file, or nothing is put after it. The text has no line separator
      but the newline, and no value to record has a line break. */
  lemma RecordingTextTwice(text: string, x: seq<Piece>, head: Piece, body: seq<Piece>, after: seq<Piece>,
                           series: string, profile: string, pairs: seq<Pair>)
    requires NewlinesOnly(text) && Clean(pairs) && DistinctKeys(pairs) && Unselective(pairs)
    requires SelectsIn(LinesOf(text), x, head, body, after, series, profile)
    ensures var once := RecordedText(text, series, profile, pairs);
      && once.Some?
      && (RecordedText(once.value, series, profile, pairs) == once <==> SafeToAppend(x, head, body, after, pairs))
  {
    var lines, put := LinesOf(text), PutFor(x, head, body, after, pairs);
    LinesAreOne(text);
    SelectedLines(lines, x, head, body, after, series, profile);
    PutIsWell(lines, x, head, body, after, pairs);
    FirstText(text, x, head, body, after, put, series, profile, pairs);
    var t := PutFile(x, head, body, after, put, pairs);
    TextIs(t, series, profile, pairs);
    if SafeToAppend(x, head, body, after, pairs) {
      SafeStays(lines, x, head, body, after, put, OwnAt(IndentFor(x, head, body, after)), series, profile, pairs);
    } else {
      UnsafePut(lines, x, head, body, after, put, series, profile, pairs);
      LongerText(t, Recorded(t, series, profile, pairs).value);
    }
  }

  lemma SelectedLines(lines: seq<string>, x: seq<Piece>, head: Piece, body: seq<Piece>, after: seq<Piece>, series: string, profile: string)
    requires SelectsIn(lines, x, head, body, after, series, profile)
    ensures Flat(Assembled(x, head, body, after)) == lines
  {
    FirstPieceSensible();
    FlatOfPieces(FirstPiece, lines, false);
  }
}
