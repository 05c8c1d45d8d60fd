/** Recording keys in the catalog a second time: exactly when it changes nothing. What goes wrong
    otherwise is that the block's last value, left open, takes in the lines put after it. */
module CatalogGrowth {
  import opened Options
  import opened TomlLines
  import opened CatalogUpsert
  import opened CatalogEdits
  import opened CatalogBlocks
  import opened CatalogReread
  import opened CatalogRerun
  import opened CatalogLines

  // ---- an open value goes on ------------------------------------------------------------------

  lemma {:induction false} OpenGoesOn(span: seq<string>, rest: seq<string>, j: nat, st: Scan)
    requires j < |span| && SpanFrom(span, j, st) == |span| - 1 && EndDepth(span[j + 1..], st) > 0 && rest != []
    ensures SpanFrom(span + rest, j, st) >= |span|
    decreases |span| - j
  {
    if j + 1 < |span| {
      assert (span + rest)[j + 1] == span[j + 1];
      assert span[j + 1..][1..] == span[j + 2..] && span[j + 1..][0] == span[j + 1];
      OpenGoesOn(span, rest, j + 1, ScanLine(span[j + 1], st));
    }
  }

  // What the last assignment reads as when lines were put after it: it has `n` of them as well.
  predicate Swallows(read: Reader, last: Piece, inserted: seq<string>, n: nat) {
    && last.Set? && last.span != [] && 0 < n <= |inserted|
    && read(last.span + inserted, true) == last.(span := last.span + inserted[..n])
  }

  lemma OpenSwallows(last: Piece, inserted: seq<string>) returns (n: nat)
    requires ReadAs(last) && !ValueCloses(last.span) && inserted != []
    ensures Swallows(FirstPiece, last, inserted, n)
  {
    var span, all := last.span, last.span + inserted;
    AssignmentHasEquals(span[0]);
    OpenGoesOn(span, inserted, 0, ScanLine(AfterEquals(span[0]), Scan(0, None)));
    assert all[0] == span[0];
    n := SpanCount(all) - |span|;
    assert all[..SpanCount(all)] == span + inserted[..n];
  }

  // ---- the keys of the lines inserted ---------------------------------------------------------

  function LineKey(style: Style, line: string): string {
    if style.piece(line).Set? then style.piece(line).key else ""
  }

  // The lines insert keys the block does not have, each of them once.
  predicate FreshLine(style: Style, b: Block, line: string, pairs: seq<Pair>) {
    exists pair :: pair in pairs && pair.key == LineKey(style, line) && !Knows(b.keys, pair.key)
  }

  predicate FreshLines(style: Style, b: Block, lines: seq<string>, pairs: seq<Pair>) {
    && (forall i, j :: 0 <= i < j < |lines| ==> LineKey(style, lines[i]) != LineKey(style, lines[j]))
    && (forall i :: 0 <= i < |lines| ==> FreshLine(style, b, lines[i], pairs))
  }

  lemma {:induction false} InsertionsFresh(read: Reader, style: Style, indent: string, b: Block, pairs: seq<Pair>)
    requires Steady(read, style, pairs) && Blank(indent) && DistinctKeys(pairs)
    ensures FreshLines(style, b, Insertions(indent, b, pairs), pairs)
  {
    if pairs != [] {
      var n := |pairs| - 1;
      var front, pair := pairs[..n], pairs[n];
      assert pairs == front + [pair];
      InsertionsFresh(read, style, indent, b, front);
      assert Settled(read, style, pair, NewLine(indent, pair, ""));
      FreshMore(style, b, Insertions(indent, b, front), front, pair, NewLine(indent, pair, ""));
    }
  }

  lemma FreshMore(style: Style, b: Block, lines: seq<string>, front: seq<Pair>, pair: Pair, line: string)
    requires FreshLines(style, b, lines, front) && LineKey(style, line) == pair.key
    requires forall p <- front :: p.key != pair.key
    ensures FreshLines(style, b, lines, front + [pair])
    ensures !Knows(b.keys, pair.key) ==> FreshLines(style, b, lines + [line], front + [pair])
  {
    forall i | 0 <= i < |lines| ensures FreshLine(style, b, lines[i], front + [pair]) {
      assert FreshLine(style, b, lines[i], front);
      var p :| p in front && p.key == LineKey(style, lines[i]) && !Knows(b.keys, p.key);
      assert p in front + [pair];
    }
    assert pair in front + [pair];
    assert !Knows(b.keys, pair.key) ==> FreshLine(style, b, line, front + [pair]);
  }

  // ---- the edited file, read back -------------------------------------------------------------

  // The body as it reads after the first run.
  function Reread(style: Style, front: seq<Piece>, last: Piece, inserted: seq<string>, n: nat, pairs: seq<Pair>): seq<Piece>
    requires last.Set? && n <= |inserted|
  {
    EditSets(style, front, {}, pairs) + ([last.(span := last.span + inserted[..n])] + AsPieces(style, inserted[n..]))
  }

  predicate Untouched(front: seq<Piece>, last: Piece, pairs: seq<Pair>) {
    !Touches(last, KnownThrough(front, {}), pairs)
  }

  lemma EditEndsOpen(style: Style, front: seq<Piece>, last: Piece, pairs: seq<Pair>)
    requires Untouched(front, last, pairs)
    ensures EditSets(style, front + [last], {}, pairs) == EditSets(style, front, {}, pairs) + [last]
  {
    EditSplits(style, front, [last], {}, pairs);
    EditOne(style, last, KnownThrough(front, {}), pairs);
  }

  lemma EditedIs(style: Style, front: seq<Piece>, last: Piece, inserted: seq<string>, pairs: seq<Pair>)
    requires last.Set? && Untouched(front, last, pairs)
    ensures Edited(style, front + [last], inserted, pairs)
      == EditSets(style, front, {}, pairs) + ([last] + AsPieces(style, inserted))
  {
    var body := front + [last];
    assert LastSet(body) == |body| && body[..|body|] == body && body[|body|..] == [];
    EditEndsOpen(style, front, last, pairs);
  }

  lemma FlatMiddle(h: seq<Piece>, p: Piece, rest: seq<Piece>)
    ensures Flat(h + ([p] + rest)) == Flat(h) + (LinesIn(p) + Flat(rest))
  {
    FlatSplits(h, [p] + rest);
    FlatFirst(p, rest);
  }

  lemma RereadFlat(style: Style, h: seq<Piece>, last: Piece, inserted: seq<string>, n: nat)
    requires Plain(style) && last.Set? && n <= |inserted|
    ensures Flat(h + ([last] + AsPieces(style, inserted)))
      == Flat(h + ([last.(span := last.span + inserted[..n])] + AsPieces(style, inserted[n..])))
  {
    FlatPieces(style, inserted);
    FlatPieces(style, inserted[n..]);
    FlatMiddle(h, last, AsPieces(style, inserted));
    FlatMiddle(h, last.(span := last.span + inserted[..n]), AsPieces(style, inserted[n..]));
    assert inserted == inserted[..n] + inserted[n..];
    FourParts(Flat(h), last.span, inserted[..n], inserted[n..]);
  }

  lemma RereadLines(style: Style, front: seq<Piece>, last: Piece, inserted: seq<string>, n: nat, pairs: seq<Pair>)
    requires Plain(style) && last.Set? && n <= |inserted| && Untouched(front, last, pairs)
    ensures Flat(Edited(style, front + [last], inserted, pairs)) == Flat(Reread(style, front, last, inserted, n, pairs))
  {
    EditedIs(style, front, last, inserted, pairs);
    RereadFlat(style, EditSets(style, front, {}, pairs), last, inserted, n);
  }

  lemma FourParts(h: seq<string>, s: seq<string>, a: seq<string>, b: seq<string>)
    ensures h + (s + (a + b)) == h + ((s + a) + b)
  {
  }

  lemma RestWritten(read: Reader, style: Style, pairs: seq<Pair>, inserted: seq<string>, n: nat)
    requires WrittenFor(read, style, pairs, inserted) && n <= |inserted|
    ensures WrittenFor(read, style, pairs, inserted[n..])
  {
  }

  // The open value with what it took in, and the other lines inserted.
  lemma TailReads(read: Reader, style: Style, last: Piece, inserted: seq<string>, n: nat, pairs: seq<Pair>)
    requires Plain(style) && DistinctKeys(pairs) && WrittenFor(read, style, pairs, inserted)
    requires Swallows(read, last, inserted, n)
    ensures Coherent(read, [last.(span := last.span + inserted[..n])] + AsPieces(style, inserted[n..]), true)
  {
    var q, rest := last.(span := last.span + inserted[..n]), AsPieces(style, inserted[n..]);
    RestWritten(read, style, pairs, inserted, n);
    InsertedStay(read, style, inserted[n..], {}, pairs);
    ClosedCoheres(read, rest, true);
    FlatPieces(style, inserted[n..]);
    FlatFirst(q, rest);
    assert (last.span + inserted[..n]) + inserted[n..] == last.span + inserted;
    assert ([q] + rest)[1..] == rest;
  }

  lemma RereadCoheres(read: Reader, style: Style, x: seq<Piece>, front: seq<Piece>, last: Piece, inserted: seq<string>,
                      n: nat, pairs: seq<Pair>)
    requires Local(read) && Plain(style) && Steady(read, style, pairs) && DistinctKeys(pairs)
    requires WrittenFor(read, style, pairs, inserted) && Swallows(read, last, inserted, n)
    requires x != [] && x[|x| - 1].Head? && Sets(front) && Coherent(read, x + (front + [last]), false)
    ensures Coherent(read, x + Reread(style, front, last, inserted, n, pairs), false)
  {
    var h := EditSets(style, front, {}, pairs);
    var tail := [last.(span := last.span + inserted[..n])] + AsPieces(style, inserted[n..]);
    Associated(x, front, [last]);
    CoherentClosed(read, x + front, [last], false);
    ClosedParts(read, x, front, false);
    InsideHead(x);
    EditedClosed(read, style, front, {}, pairs);
    EditedSets(read, style, front, {}, pairs);
    ClosedBoth(read, x, h, false);
    InsideFront(x, h);
    TailReads(read, style, last, inserted, n, pairs);
    ClosedThen(read, x + h, tail, false);
    Associated(x, h, tail);
  }

  // ---- the second edit --------------------------------------------------------------------------

  predicate EndsSet(style: Style, lines: seq<string>) { lines != [] ==> style.piece(lines[|lines| - 1]).Set? }

  lemma RereadSets(read: Reader, style: Style, front: seq<Piece>, last: Piece, inserted: seq<string>, n: nat, pairs: seq<Pair>)
    requires Steady(read, style, pairs) && WrittenFor(read, style, pairs, inserted)
    requires last.Set? && n <= |inserted| && Sets(front) && EndsSet(style, inserted)
    ensures var body := Reread(style, front, last, inserted, n, pairs); Sets(body) && LastSet(body) == |body|
  {
    RestWritten(read, style, pairs, inserted, n);
    EditedSets(read, style, front, {}, pairs);
    InsertedSets(read, style, inserted[n..], pairs);
  }

  lemma RereadSelected(read: Reader, style: Style, front: seq<Piece>, last: Piece, inserted: seq<string>, n: nat,
                       pairs: seq<Pair>, key: string)
    requires Steady(read, style, pairs) && WrittenFor(read, style, pairs, inserted)
    requires last.Set? && last.span != [] && n <= |inserted| && forall pair <- pairs :: pair.key != key
    ensures LastValue(Reread(style, front, last, inserted, n, pairs), key, "") == LastValue(front + [last], key, "")
  {
    var h, q, rest := EditSets(style, front, {}, pairs), last.(span := last.span + inserted[..n]), AsPieces(style, inserted[n..]);
    RestWritten(read, style, pairs, inserted, n);
    ValueKept(read, style, front, {}, pairs, key, "");
    ValueSplits(front, [last], key, "");
    ValueSplits(h, [q] + rest, key, "");
    ValueSplits([q], rest, key, LastValue(h, key, ""));
    assert [last][1..] == [] && [q][1..] == [];
    forall i | 0 <= i < |rest| ensures rest[i].Set? ==> rest[i].key != key {
      WrittenPiece(read, style, pairs, inserted[n..][i]);
    }
    ValueOfOthers(rest, key, LastValue([q], key, LastValue(h, key, "")));
  }

  // The edit has nothing left to replace.
  lemma RereadStays(read: Reader, style: Style, front: seq<Piece>, last: Piece, inserted: seq<string>, n: nat, pairs: seq<Pair>)
    requires Steady(read, style, pairs) && DistinctKeys(pairs) && WrittenFor(read, style, pairs, inserted)
    requires last.Set? && last.span != [] && n <= |inserted| && Untouched(front, last, pairs)
    ensures var body := Reread(style, front, last, inserted, n, pairs); EditSets(style, body, {}, pairs) == body
  {
    var h, q, rest := EditSets(style, front, {}, pairs), last.(span := last.span + inserted[..n]), AsPieces(style, inserted[n..]);
    var known := KnownThrough(front, {});
    RestWritten(read, style, pairs, inserted, n);
    EditsOnce(read, style, front, {}, pairs);
    EditSplits(style, h, [q] + rest, {}, pairs);
    EditCons(style, q, rest, known, pairs);
    InsertedStay(read, style, inserted[n..], KnownAfter(q, known), pairs);
  }

  // Line `h` of those put after the block assigns a key of its own, which the block does not have.
  predicate OwnLine(style: Style, b: Block, put: seq<string>, h: nat, pairs: seq<Pair>) {
    && h < |put| && FreshLine(style, b, put[h], pairs)
    && forall j :: h < j < |put| && style.piece(put[j]).Set? ==> LineKey(style, put[j]) != LineKey(style, put[h])
  }

  // Its key is hidden when the open value takes the line in.
  lemma KeyHidden(read: Reader, style: Style, b: Block, front: seq<Piece>, last: Piece, put: seq<string>, n: nat, h: nat, pairs: seq<Pair>)
    returns (pair: Pair)
    requires Steady(read, style, pairs) && WrittenFor(read, style, pairs, put) && OwnLine(style, b, put, h, pairs)
    requires last.Set? && last.span != [] && h < n <= |put|
    requires IsBody(front) && forall key :: Knows(b.keys, key) <==> HoldsKey(front + [last], key)
    ensures pair in pairs && !HoldsKey(Reread(style, front, last, put, n, pairs), pair.key)
  {
    pair :| pair in pairs && pair.key == LineKey(style, put[h]) && !Knows(b.keys, pair.key);
    var e, rest := EditSets(style, front, {}, pairs), AsPieces(style, put[n..]);
    var body, was := Reread(style, front, last, put, n, pairs), front + [last];
    EditedKinds(style, read, front, {}, pairs);
    forall i | 0 <= i < |body| && body[i].Set? && body[i].span != [] ensures body[i].key != pair.key {
      if i < |e| {
        assert was[i] == front[i] && body[i] == e[i];
        assert !HoldsKey(was, pair.key);
      } else if i == |e| {
        assert was[|front|] == last && !HoldsKey(was, pair.key);
      } else {
        var j := i - |e| - 1;
        assert body[i] == rest[j] == style.piece(put[n + j]);
        assert LineKey(style, put[h]) != LineKey(style, put[n + j]);
      }
    }
  }

  lemma RereadEdited(read: Reader, style: Style, front: seq<Piece>, last: Piece, inserted: seq<string>, n: nat,
                     again: seq<string>, pairs: seq<Pair>)
    requires Plain(style) && Steady(read, style, pairs) && DistinctKeys(pairs) && WrittenFor(read, style, pairs, inserted)
    requires last.Set? && last.span != [] && n <= |inserted| && Untouched(front, last, pairs) && Sets(front) && EndsSet(style, inserted)
    ensures var body := Reread(style, front, last, inserted, n, pairs);
      Flat(Edited(style, body, again, pairs)) == Flat(body) + again
  {
    var body := Reread(style, front, last, inserted, n, pairs);
    RereadSets(read, style, front, last, inserted, n, pairs);
    RereadStays(read, style, front, last, inserted, n, pairs);
    assert body[..|body|] == body && body[|body|..] == [] && body + AsPieces(style, again) + [] == body + AsPieces(style, again);
    FlatPieces(style, again);
    FlatSplits(body, AsPieces(style, again));
  }

  lemma InsertsAgain(read: Reader, style: Style, x: seq<Piece>, head: Piece, body: seq<Piece>, after: seq<Piece>, pairs: seq<Pair>, pair: Pair)
    requires head.Head? && Sets(body) && Whole(Assembled(x, head, body, after))
    requires pair in pairs && !HoldsKey(body, pair.key)
    ensures var again := InsertedFor(x, head, body, after, pairs); again != [] && forall i :: 0 <= i < |again| ==> again[i] != ""
  {
    BlockThere(x, head, body, after);
    var lines, b := Flat(Assembled(x, head, body, after)), BlockFrom(|Flat(x)|, body);
    BlockKnows(|Flat(x)|, body, pair.key);
    LineInserted(BlockIndent(lines, b), b, pairs, pair);
    InsertionsFilled(BlockIndent(lines, b), b, pairs);
  }

  lemma KnownAt(x: seq<Piece>, head: Piece, body: seq<Piece>)
    ensures forall key :: Knows(BlockFrom(|Flat(x)|, body).keys, key) <==> HoldsKey(body, key)
  {
    forall key ensures Knows(BlockFrom(|Flat(x)|, body).keys, key) <==> HoldsKey(body, key) {
      BlockKnows(|Flat(x)|, body, key);
    }
  }

  // The lines an edit inserts: the first has a key of its own, and the last is an assignment.
  lemma FreshAt(read: Reader, style: Style, x: seq<Piece>, head: Piece, body: seq<Piece>, pairs: seq<Pair>)
    requires Steady(read, style, pairs) && DistinctKeys(pairs)
    requires head.Head? && Sets(body) && Whole(Assembled(x, head, body, []))
    ensures var inserted := InsertedFor(x, head, body, [], pairs);
      && EndsSet(style, inserted)
      && (inserted != [] ==> OwnLine(style, BlockFrom(|Flat(x)|, body), inserted, 0, pairs))
  {
    BlockThere(x, head, body, []);
    var lines, b := Flat(Assembled(x, head, body, [])), BlockFrom(|Flat(x)|, body);
    IndentBlank(lines, b);
    InsertionsFresh(read, style, BlockIndent(lines, b), b, pairs);
    InsertionsSet(read, style, BlockIndent(lines, b), b, pairs);
    if Insertions(BlockIndent(lines, b), b, pairs) != [] { FirstOwns(style, b, Insertions(BlockIndent(lines, b), b, pairs), pairs); }
  }

  lemma FirstOwns(style: Style, b: Block, lines: seq<string>, pairs: seq<Pair>)
    requires FreshLines(style, b, lines, pairs) && lines != []
    ensures OwnLine(style, b, lines, 0, pairs)
  {
  }

  lemma {:induction false} InsertionsSet(read: Reader, style: Style, indent: string, b: Block, pairs: seq<Pair>)
    requires Steady(read, style, pairs) && Blank(indent)
    ensures EndsSet(style, Insertions(indent, b, pairs))
  {
    if pairs != [] {
      var n := |pairs| - 1;
      assert pairs == pairs[..n] + [pairs[n]];
      InsertionsSet(read, style, indent, b, pairs[..n]);
      assert Settled(read, style, pairs[n], NewLine(indent, pairs[n], ""));
    }
  }

  // A catalog whose selected block ends the file in an open value, and lines put after it, the first
  // `n` of which the value takes in.
  ghost predicate LeftOpen(read: Reader, style: Style, lines: seq<string>, x: seq<Piece>, head: Piece, front: seq<Piece>,
                           last: Piece, put: seq<string>, n: nat, series: string, profile: string, pairs: seq<Pair>)
    requires Sensible(read)
  {
    && Local(read) && Plain(style) && Steady(read, style, pairs) && DistinctKeys(pairs) && Unselective(pairs)
    && Pieces(read, lines, false) == Assembled(x, head, front + [last], [])
    && SplitsAt(x, head, front + [last], [], series, profile) && Whole(Assembled(x, head, front + [last], []))
    && Sets(front) && Untouched(front, last, pairs)
    && WrittenFor(read, style, pairs, put) && EndsSet(style, put) && Swallows(read, last, put, n)
  }

  lemma LeftOpenRereads(read: Reader, style: Style, lines: seq<string>, x: seq<Piece>, head: Piece, front: seq<Piece>,
                        last: Piece, put: seq<string>, n: nat, series: string, profile: string, pairs: seq<Pair>)
    requires Sensible(read) && LeftOpen(read, style, lines, x, head, front, last, put, n, series, profile, pairs)
    ensures var body := Reread(style, front, last, put, n, pairs);
      && Flat(Assembled(x, head, Edited(style, front + [last], put, pairs), [])) == Flat(Assembled(x, head, body, []))
      && Pieces(read, Flat(Assembled(x, head, body, [])), false) == Assembled(x, head, body, [])
      && SplitsAt(x, head, body, [], series, profile)
  {
    var body := Reread(style, front, last, put, n, pairs);
    RereadLines(style, front, last, put, n, pairs);
    FlatAround(x, head, Edited(style, front + [last], put, pairs), []);
    FlatAround(x, head, body, []);
    PiecesCohere(read, lines, false);
    NothingAfter(x, head, front + [last]);
    NothingAfter(x, head, body);
    RereadCoheres(read, style, Upto(x, head), front, last, put, n, pairs);
    CoherentReads(read, Assembled(x, head, body, []), false);
    RereadSets(read, style, front, last, put, n, pairs);
    RereadSelected(read, style, front, last, put, n, pairs, "series");
    RereadSelected(read, style, front, last, put, n, pairs, "profile");
  }

  lemma NothingAfter(x: seq<Piece>, head: Piece, body: seq<Piece>)
    ensures Assembled(x, head, body, []) == Upto(x, head) + body
  {
    AssembledIs(x, head, body, []);
  }

  // More lines after the same ones, none of them empty.
  predicate Longer(a: seq<string>, b: seq<string>) { a < b && forall i :: |a| <= i < |b| ==> b[i] != "" }

  lemma {:induction false} InsertionsFilled(indent: string, b: Block, pairs: seq<Pair>)
    ensures forall i :: 0 <= i < |Insertions(indent, b, pairs)| ==> Insertions(indent, b, pairs)[i] != ""
  {
    if pairs != [] {
      InsertionsFilled(indent, b, pairs[..|pairs| - 1]);
    }
  }

  lemma LongerBy(front: seq<string>, body: seq<string>, again: seq<string>)
    requires again != [] && forall i :: 0 <= i < |again| ==> again[i] != ""
    ensures Longer(front + body + [], front + (body + again) + [])
  {
    var a, b := front + body + [], front + (body + again) + [];
    assert a == front + body && b == a + again;
  }

  /** The next run appends again: it does not see a line the open value has taken in. */
  lemma LeftOpenGrowsAgain(read: Reader, style: Style, lines: seq<string>, x: seq<Piece>, head: Piece, front: seq<Piece>,
                           last: Piece, put: seq<string>, n: nat, h: nat, series: string, profile: string, pairs: seq<Pair>)
    requires Sensible(read) && LeftOpen(read, style, lines, x, head, front, last, put, n, series, profile, pairs)
    requires h < n && OwnLine(style, BlockFrom(|Flat(x)|, front + [last]), put, h, pairs)
    ensures var t := Flat(Assembled(x, head, Edited(style, front + [last], put, pairs), []));
      var again := Upserted(read, style, t, series, profile, pairs);
      again.Some? && Longer(t, again.value)
  {
    var body := Reread(style, front, last, put, n, pairs);
    LeftOpenRereads(read, style, lines, x, head, front, last, put, n, series, profile, pairs);
    UpsertedAt(read, style, Flat(Assembled(x, head, body, [])), x, head, body, [], series, profile, pairs);
    KnownAt(x, head, front + [last]);
    WholeBody(x, head, front + [last], []);
    FrontIsBody(front, last);
    var pair := KeyHidden(read, style, BlockFrom(|Flat(x)|, front + [last]), front, last, put, n, h, pairs);
    InsertsAgain(read, style, x, head, body, [], pairs, pair);
    var again := InsertedFor(x, head, body, [], pairs);
    RereadEdited(read, style, front, last, put, n, again, pairs);
    FlatAround(x, head, body, []);
    FlatAround(x, head, Edited(style, body, again, pairs), []);
    LongerBy(Flat(x) + [head.line], Flat(body), again);
  }

  lemma FrontIsBody(front: seq<Piece>, last: Piece)
    requires IsBody(front + [last])
    ensures IsBody(front)
  {
    forall i | 0 <= i < |front| ensures (front[i].Set? || front[i].Inert?) && LinesIn(front[i]) != [] {
      assert (front + [last])[i] == front[i];
    }
  }

  // ---- exactly when ---------------------------------------------------------------------------------

  // The block ends the file in an open value that is not replaced, and something is put after it.
  lemma UnsafeParts(closes: seq<string> -> bool, body: seq<Piece>, after: seq<Piece>, inserted: seq<string>, pairs: seq<Pair>)
      returns (front: seq<Piece>, last: Piece)
    requires Sets(body) && !StandsApart(closes, body, after, inserted, pairs)
    ensures after == [] && body == front + [last] && Sets(front) && Untouched(front, last, pairs)
    ensures last.Set? && !closes(last.span) && inserted != []
  {
    var k := LastSet(body);
    front, last := body[..k - 1], body[k - 1];
    assert body[k..] == [] && body == body[..k];
  }

  lemma UnsafeSwallows(lines: seq<string>, x: seq<Piece>, head: Piece, body: seq<Piece>, last: Piece, inserted: seq<string>)
      returns (n: nat)
    requires CatalogPieces(lines) == Assembled(x, head, body, []) && Whole(Assembled(x, head, body, []))
    requires head.Head? && Sets(body) && body != [] && body[|body| - 1] == last
    requires last.Set? && !ValueCloses(last.span) && inserted != []
    ensures Swallows(FirstPiece, last, inserted, n)
  {
    FirstPieceSensible();
    FirstPieceLocal();
    PiecesCohere(FirstPiece, lines, false);
    LastCloses(FirstPiece, x, head, body);
    WholeBody(x, head, body, []);
    n := OpenSwallows(last, inserted);
  }

  // The two runs, for any reader and any way of rewriting.
  lemma UnsafeRuns(read: Reader, style: Style, lines: seq<string>, x: seq<Piece>, head: Piece, body: seq<Piece>,
                   front: seq<Piece>, last: Piece, n: nat, series: string, profile: string, pairs: seq<Pair>)
    requires Sensible(read) && Local(read) && Plain(style) && Steady(read, style, pairs)
    requires DistinctKeys(pairs) && Unselective(pairs) && body == front + [last]
    requires Pieces(read, lines, false) == Assembled(x, head, body, []) && Whole(Assembled(x, head, body, []))
    requires SplitsAt(x, head, body, [], series, profile) && Sets(front) && Untouched(front, last, pairs)
    requires Swallows(read, last, InsertedFor(x, head, body, [], pairs), n)
    ensures var once := Upserted(read, style, lines, series, profile, pairs);
      && once.Some?
      && var twice := Upserted(read, style, once.value, series, profile, pairs);
      twice.Some? && Longer(once.value, twice.value)
  {
    var inserted := InsertedFor(x, head, body, [], pairs);
    UpsertedAt(read, style, lines, x, head, body, [], series, profile, pairs);
    InsertedWrittenAt(read, style, x, head, body, [], pairs);
    FreshAt(read, style, x, head, body, pairs);
    LeftOpenGrowsAgain(read, style, lines, x, head, front, last, inserted, n, 0, series, profile, pairs);
  }

  lemma UnsafeGrows(lines: seq<string>, x: seq<Piece>, head: Piece, body: seq<Piece>, after: seq<Piece>,
                    series: string, profile: string, pairs: seq<Pair>)
    requires (forall pair <- pairs :: Recordable(pair)) && DistinctKeys(pairs) && Unselective(pairs)
    requires SelectsIn(lines, x, head, body, after, series, profile) && !SafeToAppend(x, head, body, after, pairs)
    ensures var once := Recorded(lines, series, profile, pairs);
      && once.Some?
      && var twice := Recorded(once.value, series, profile, pairs);
      twice.Some? && Longer(once.value, twice.value)
  {
    FirstPieceSensible();
    var front, last := UnsafeParts(ValueCloses, body, after, InsertedFor(x, head, body, after, pairs), pairs);
    var n := UnsafeSwallows(lines, x, head, body, last, InsertedFor(x, head, body, [], pairs));
    FirstPieceLocal();
    WritesSteadily(pairs);
    StyleIsPlain();
    UnsafeRuns(FirstPiece, STYLE, lines, x, head, body, front, last, n, series, profile, pairs);
  }

  /** On lists of lines, recording the same keys a second time changes nothing if and only if the lines put into the
      block stand apart from its last value: that value closes, or is itself replaced, or has lines
      after it in the file, or nothing is put after it. */
  lemma RecordingTwiceExactly(lines: seq<string>, x: seq<Piece>, head: Piece, body: seq<Piece>, after: seq<Piece>,
                              series: string, profile: string, pairs: seq<Pair>)
    requires (forall pair <- pairs :: Recordable(pair)) && DistinctKeys(pairs) && Unselective(pairs)
    requires SelectsIn(lines, x, head, body, after, series, profile)
    ensures var once := Recorded(lines, series, profile, pairs);
      && once.Some?
      && (Recorded(once.value, series, profile, pairs) == once <==> SafeToAppend(x, head, body, after, pairs))
  {
    if SafeToAppend(x, head, body, after, pairs) {
      RecordingTwice(lines, x, head, body, after, series, profile, pairs);
    } else {
      UnsafeGrows(lines, x, head, body, after, series, profile, pairs);
    }
  }
}
