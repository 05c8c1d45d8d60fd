/** Reading an edited catalog again: the pieces put together are the pieces read, and editing them
    once more changes nothing. */
module CatalogReread {
  import opened Options
  import opened TomlLines
  import opened CatalogUpsert
  import opened CatalogEdits
  import opened CatalogBlocks

  // ---- reading an edited file again -----------------------------------------------------------------

  // The piece ends where it ends, whatever follows.
  ghost predicate Closed(read: Reader, p: Piece, inBlock: bool) {
    forall rest: seq<string> {:trigger LinesIn(p) + rest} :: read(LinesIn(p) + rest, inBlock) == p
  }

  // Only an assignment that runs to the end of the file may depend on what follows it.
  ghost predicate Local(read: Reader) {
    forall lines: seq<string>, inBlock: bool {:trigger read(lines, inBlock)} ::
      lines != [] && (!read(lines, inBlock).Set? || |LinesIn(read(lines, inBlock))| < |lines|)
      ==> Closed(read, read(lines, inBlock), inBlock)
  }

  ghost predicate Coherent(read: Reader, ps: seq<Piece>, inBlock: bool) {
    ps == [] || (LinesIn(ps[0]) != [] && read(Flat(ps), inBlock) == ps[0] && Coherent(read, ps[1..], Inside(ps[0], inBlock)))
  }

  ghost predicate AllClosed(read: Reader, ps: seq<Piece>, inBlock: bool) {
    ps == [] || (LinesIn(ps[0]) != [] && Closed(read, ps[0], inBlock) && AllClosed(read, ps[1..], Inside(ps[0], inBlock)))
  }

  function InsideAfter(ps: seq<Piece>, inBlock: bool): bool {
    if ps == [] then inBlock else InsideAfter(ps[1..], Inside(ps[0], inBlock))
  }

  lemma {:induction false} CoherentReads(read: Reader, ps: seq<Piece>, inBlock: bool)
    requires Sensible(read) && Coherent(read, ps, inBlock)
    ensures Pieces(read, Flat(ps), inBlock) == ps
  {
    if ps != [] {
      var p, rest := ps[0], ps[1..];
      CoherentReads(read, rest, Inside(p, inBlock));
      assert Flat(ps)[|LinesIn(p)|..] == Flat(rest);
      assert ps == [p] + rest;
    }
  }

  lemma {:induction false} PiecesCohere(read: Reader, lines: seq<string>, inBlock: bool)
    requires Sensible(read)
    ensures Coherent(read, Pieces(read, lines, inBlock), inBlock)
    decreases |lines|
  {
    if lines != [] {
      assert ReadsWell(read, lines, inBlock);
      var p := read(lines, inBlock);
      var rest := Pieces(read, lines[|LinesIn(p)|..], Inside(p, inBlock));
      PiecesCohere(read, lines[|LinesIn(p)|..], Inside(p, inBlock));
      FlatOfPieces(read, lines, inBlock);
      assert ([p] + rest)[1..] == rest;
    }
  }

  lemma {:induction false} ClosedThen(read: Reader, a: seq<Piece>, c: seq<Piece>, inBlock: bool)
    requires AllClosed(read, a, inBlock) && Coherent(read, c, InsideAfter(a, inBlock))
    ensures Coherent(read, a + c, inBlock)
  {
    if a == [] {
      assert a + c == c;
    } else {
      var p, rest := a[0], a[1..];
      ClosedThen(read, rest, c, Inside(p, inBlock));
      assert a + c == [p] + (rest + c);
      FlatFirst(p, rest + c);
      assert (a + c)[1..] == rest + c;
    }
  }

  lemma {:induction false} ClosedBoth(read: Reader, a: seq<Piece>, c: seq<Piece>, inBlock: bool)
    requires AllClosed(read, a, inBlock) && AllClosed(read, c, InsideAfter(a, inBlock))
    ensures AllClosed(read, a + c, inBlock)
  {
    if a == [] {
      assert a + c == c;
    } else {
      ClosedBoth(read, a[1..], c, Inside(a[0], inBlock));
      assert (a + c)[1..] == a[1..] + c;
    }
  }

  lemma {:induction false} InsideSplits(a: seq<Piece>, c: seq<Piece>, inBlock: bool)
    ensures InsideAfter(a + c, inBlock) == InsideAfter(c, InsideAfter(a, inBlock))
  {
    if a == [] {
      assert a + c == c;
    } else {
      InsideSplits(a[1..], c, Inside(a[0], inBlock));
      assert (a + c)[1..] == a[1..] + c;
    }
  }

  /** Whatever has lines after it is closed. */
  lemma {:induction false} CoherentClosed(read: Reader, a: seq<Piece>, c: seq<Piece>, inBlock: bool)
    requires Local(read) && Coherent(read, a + c, inBlock)
    ensures Coherent(read, c, InsideAfter(a, inBlock))
    ensures c != [] ==> AllClosed(read, a, inBlock)
  {
    if a == [] {
      assert a + c == c;
    } else {
      var p, rest := a[0], a[1..];
      assert a + c == [p] + (rest + c) && (a + c)[1..] == rest + c;
      FlatFirst(p, rest + c);
      CoherentClosed(read, rest, c, Inside(p, inBlock));
      if c != [] {
        HasLines(read, rest + c, Inside(p, inBlock));
        assert read(Flat(a + c), inBlock) == p;
      }
    }
  }

  lemma HasLines(read: Reader, ps: seq<Piece>, inBlock: bool)
    requires ps != [] && Coherent(read, ps, inBlock)
    ensures Flat(ps) != []
  {
    assert ps == [ps[0]] + ps[1..];
    FlatFirst(ps[0], ps[1..]);
  }

  // ---- an edited body ---------------------------------------------------------------------------------

  predicate Blank(indent: string) { forall c <- indent :: IsSpace(c) }

  // A line that reads as the pair's assignment on its own, and is rewritten to itself.
  ghost predicate Settled(read: Reader, style: Style, pair: Pair, line: string) {
    var p := style.piece(line);
    && p.Set? && p.key == pair.key && p.span == [line]
    && Closed(read, p, true) && style.rewrite([line], pair) == line
  }

  // Every line the edit writes for these pairs.
  ghost predicate Steady(read: Reader, style: Style, pairs: seq<Pair>) {
    && (forall pair, span: seq<string> {:trigger style.rewrite(span, pair)} ::
          pair in pairs && span != [] ==> Settled(read, style, pair, style.rewrite(span, pair)))
    && (forall pair, indent: string {:trigger NewLine(indent, pair, "")} ::
          pair in pairs && Blank(indent) ==> Settled(read, style, pair, NewLine(indent, pair, "")))
  }

  function KnownThrough(body: seq<Piece>, known: set<string>): set<string> {
    if body == [] then known else KnownThrough(body[1..], KnownAfter(body[0], known))
  }

  // What the edit makes of one piece.
  function EditPiece(style: Style, p: Piece, known: set<string>, pairs: seq<Pair>): Piece {
    if Touches(p, known, pairs) then style.piece(style.rewrite(p.span, PairFor(pairs, p.key).value)) else p
  }

  lemma EditCons(style: Style, p: Piece, rest: seq<Piece>, known: set<string>, pairs: seq<Pair>)
    ensures EditSets(style, [p] + rest, known, pairs)
      == [EditPiece(style, p, known, pairs)] + EditSets(style, rest, KnownAfter(p, known), pairs)
  {
    assert ([p] + rest)[1..] == rest;
  }

  lemma {:induction false} EditSplits(style: Style, a: seq<Piece>, c: seq<Piece>, known: set<string>, pairs: seq<Pair>)
    ensures EditSets(style, a + c, known, pairs)
      == EditSets(style, a, known, pairs) + EditSets(style, c, KnownThrough(a, known), pairs)
  {
    if a == [] {
      assert a + c == c;
    } else {
      var p, rest := a[0], a[1..];
      assert a == [p] + rest && a + c == [p] + (rest + c);
      EditCons(style, p, rest, known, pairs);
      EditCons(style, p, rest + c, known, pairs);
      EditSplits(style, rest, c, KnownAfter(p, known), pairs);
    }
  }

  lemma EditedPiece(read: Reader, style: Style, p: Piece, known: set<string>, pairs: seq<Pair>)
    requires Steady(read, style, pairs)
    ensures var q := EditPiece(style, p, known, pairs);
      && (q == p || (p.Set? && q.Set? && q.key == p.key && q.span != [] && p.span != [] && Closed(read, q, true)))
      && (Touches(p, known, pairs) ==> Closed(read, q, true))
      && (KnownAfter(q, known) == KnownAfter(p, known)) && EditPiece(style, q, known, pairs) == q
  {
    if Touches(p, known, pairs) {
      PairForIs(pairs, p.key);
      var pair := PairFor(pairs, p.key).value;
      var line := style.rewrite(p.span, pair);
      assert Settled(read, style, pair, line);
      assert style.rewrite([line], pair) == line;
    }
  }

  /** Editing an edited body changes nothing. */
  lemma {:induction false} EditsOnce(read: Reader, style: Style, body: seq<Piece>, known: set<string>, pairs: seq<Pair>)
    requires Steady(read, style, pairs)
    ensures EditSets(style, EditSets(style, body, known, pairs), known, pairs) == EditSets(style, body, known, pairs)
    ensures KnownThrough(EditSets(style, body, known, pairs), known) == KnownThrough(body, known)
  {
    if body != [] {
      var p, rest := body[0], body[1..];
      assert body == [p] + rest;
      var q, more := EditPiece(style, p, known, pairs), EditSets(style, rest, KnownAfter(p, known), pairs);
      EditedPiece(read, style, p, known, pairs);
      EditCons(style, p, rest, known, pairs);
      EditsOnce(read, style, rest, KnownAfter(p, known), pairs);
      EditCons(style, q, more, known, pairs);
      assert ([q] + more)[1..] == more;
    }
  }

  // A line that assigns nothing, whatever follows it.
  ghost predicate Idle(read: Reader, style: Style, line: string) {
    style.piece(line) == Inert(line) && Closed(read, Inert(line), true)
  }

  // A line written for one of the pairs, or an idle one.
  ghost predicate WrittenLine(read: Reader, style: Style, pairs: seq<Pair>, line: string) {
    Idle(read, style, line) || exists pair :: pair in pairs && Settled(read, style, pair, line)
  }

  // The lines inserted, each for its pair, with idle ones between them.
  ghost predicate WrittenFor(read: Reader, style: Style, pairs: seq<Pair>, lines: seq<string>) {
    forall i :: 0 <= i < |lines| ==> WrittenLine(read, style, pairs, lines[i])
  }

  // What a line written reads as: nothing, or the assignment of a recorded key.
  lemma WrittenPiece(read: Reader, style: Style, pairs: seq<Pair>, line: string)
    requires WrittenLine(read, style, pairs, line)
    ensures var p := style.piece(line);
      && (p.Inert? || (p.Set? && p.span != [] && exists pair :: pair in pairs && pair.key == p.key))
      && LinesIn(p) != [] && Closed(read, p, true)
  {
    if !Idle(read, style, line) {
      var pair :| pair in pairs && Settled(read, style, pair, line);
      assert pair.key == style.piece(line).key;
    }
  }

  lemma WrittenStays(read: Reader, style: Style, pairs: seq<Pair>, line: string, known: set<string>)
    requires WrittenLine(read, style, pairs, line) && DistinctKeys(pairs)
    ensures EditPiece(style, style.piece(line), known, pairs) == style.piece(line)
  {
    if !Idle(read, style, line) {
      var pair :| pair in pairs && Settled(read, style, pair, line);
      var p := style.piece(line);
      PairForIs(pairs, p.key);
      if PairFor(pairs, p.key).Some? {
        OnlyPair(pairs, pair, PairFor(pairs, p.key).value);
      }
    }
  }

  lemma {:induction false} InsertedStay(read: Reader, style: Style, lines: seq<string>, known: set<string>, pairs: seq<Pair>)
    requires WrittenFor(read, style, pairs, lines) && DistinctKeys(pairs)
    ensures EditSets(style, AsPieces(style, lines), known, pairs) == AsPieces(style, lines)
    ensures AllClosed(read, AsPieces(style, lines), true)
  {
    if lines != [] {
      var p, rest := style.piece(lines[0]), AsPieces(style, lines[1..]);
      assert AsPieces(style, lines) == [p] + rest && ([p] + rest)[1..] == rest;
      WrittenPiece(read, style, pairs, lines[0]);
      WrittenStays(read, style, pairs, lines[0], known);
      EditCons(style, p, rest, known, pairs);
      forall i | 0 <= i < |lines[1..]| ensures WrittenLine(read, style, pairs, lines[1..][i]) {
        assert lines[1..][i] == lines[i + 1];
      }
      InsertedStay(read, style, lines[1..], KnownAfter(p, known), pairs);
    }
  }

  lemma {:induction false} EditedClosed(read: Reader, style: Style, body: seq<Piece>, known: set<string>, pairs: seq<Pair>)
    requires Steady(read, style, pairs) && Sets(body) && AllClosed(read, body, true)
    ensures AllClosed(read, EditSets(style, body, known, pairs), true)
  {
    if body != [] {
      var p, rest := body[0], body[1..];
      assert body == [p] + rest;
      EditedPiece(read, style, p, known, pairs);
      EditCons(style, p, rest, known, pairs);
      EditedClosed(read, style, rest, KnownAfter(p, known), pairs);
      var q, more := EditPiece(style, p, known, pairs), EditSets(style, rest, KnownAfter(p, known), pairs);
      assert ([q] + more)[1..] == more;
    }
  }

  lemma {:induction false} EditedKinds(style: Style, read: Reader, body: seq<Piece>, known: set<string>, pairs: seq<Pair>)
    requires Steady(read, style, pairs)
    ensures var e := EditSets(style, body, known, pairs);
      |e| == |body| && forall i :: 0 <= i < |body| ==> e[i] == body[i] || (e[i].Set? && body[i].Set? && e[i].key == body[i].key && e[i].span != [])
  {
    if body != [] {
      var p, rest := body[0], body[1..];
      assert body == [p] + rest;
      EditedPiece(read, style, p, known, pairs);
      EditCons(style, p, rest, known, pairs);
      EditedKinds(style, read, rest, KnownAfter(p, known), pairs);
    }
  }

  lemma {:induction false} InsideBody(body: seq<Piece>)
    requires Sets(body)
    ensures InsideAfter(body, true)
  {
    if body != [] {
      InsideBody(body[1..]);
    }
  }

  lemma {:induction false} ClosedParts(read: Reader, a: seq<Piece>, c: seq<Piece>, inBlock: bool)
    requires AllClosed(read, a + c, inBlock)
    ensures AllClosed(read, a, inBlock) && AllClosed(read, c, InsideAfter(a, inBlock))
  {
    if a == [] {
      assert a + c == c;
    } else {
      assert (a + c)[1..] == a[1..] + c && (a + c)[0] == a[0];
      ClosedParts(read, a[1..], c, Inside(a[0], inBlock));
    }
  }

  lemma InsideHead(before: seq<Piece>)
    requires before != [] && before[|before| - 1].Head?
    ensures InsideAfter(before, false)
  {
    var k := |before| - 1;
    assert before == before[..k] + [before[k]];
    InsideSplits(before[..k], [before[k]], false);
    assert [before[k]][1..] == [];
  }

  // ---- the edited file, read back ---------------------------------------------------------------------

  /** The block's last assignment closes its value, or is replaced, or has lines after it, or
      nothing is inserted after it. */
  ghost predicate Closes(read: Reader, body: seq<Piece>, after: seq<Piece>, inserted: seq<string>, pairs: seq<Pair>) {
    var k := LastSet(body);
    inserted == [] || body[k..] + after != [] || k == 0
    || Closed(read, body[k - 1], true) || Touches(body[k - 1], KnownThrough(body[..k - 1], {}), pairs)
  }

  // Lines follow the last assignment: every edited piece is closed.
  lemma EditedBefore(read: Reader, style: Style, x: seq<Piece>, h: seq<Piece>, more: seq<Piece>, inserted: seq<string>, pairs: seq<Pair>)
    requires Local(read) && Steady(read, style, pairs) && DistinctKeys(pairs) && WrittenFor(read, style, pairs, inserted)
    requires x != [] && x[|x| - 1].Head? && Sets(h) && more != [] && Coherent(read, x + h + more, false)
    ensures Coherent(read, x + EditSets(style, h, {}, pairs) + AsPieces(style, inserted) + more, false)
  {
    CoherentClosed(read, x + h, more, false);
    ClosedParts(read, x, h, false);
    InsideHead(x);
    InsideBody(h);
    InsideSplits(x, h, false);
    EditedClosed(read, style, h, {}, pairs);
    ClosedWith(read, style, x, h, inserted, pairs);
    ClosedThen(read, x + EditSets(style, h, {}, pairs) + AsPieces(style, inserted), more, false);
  }

  // The edited pieces and the inserted lines, all closed.
  lemma ClosedWith(read: Reader, style: Style, x: seq<Piece>, h: seq<Piece>, inserted: seq<string>, pairs: seq<Pair>)
    requires Steady(read, style, pairs) && DistinctKeys(pairs) && WrittenFor(read, style, pairs, inserted)
    requires x != [] && x[|x| - 1].Head? && Sets(h) && AllClosed(read, x, false)
    requires AllClosed(read, EditSets(style, h, {}, pairs), true)
    ensures var all := x + EditSets(style, h, {}, pairs) + AsPieces(style, inserted);
      AllClosed(read, all, false) && InsideAfter(all, false)
  {
    var e, i := EditSets(style, h, {}, pairs), AsPieces(style, inserted);
    InsideHead(x);
    EditedSets(read, style, h, {}, pairs);
    InsideBody(e);
    InsideSplits(x, e, false);
    ClosedBoth(read, x, e, false);
    InsertedStay(read, style, inserted, {}, pairs);
    InsertedSets(read, style, inserted, pairs);
    InsideBody(i);
    InsideSplits(x + e, i, false);
    ClosedBoth(read, x + e, i, false);
  }

  lemma EditedSets(read: Reader, style: Style, h: seq<Piece>, known: set<string>, pairs: seq<Pair>)
    requires Steady(read, style, pairs) && Sets(h)
    ensures Sets(EditSets(style, h, known, pairs))
  {
    EditedKinds(style, read, h, known, pairs);
  }

  lemma InsertedSets(read: Reader, style: Style, inserted: seq<string>, pairs: seq<Pair>)
    requires WrittenFor(read, style, pairs, inserted)
    ensures Sets(AsPieces(style, inserted))
  {
    forall i | 0 <= i < |inserted| ensures AsPieces(style, inserted)[i].Set? || AsPieces(style, inserted)[i].Inert? {
      WrittenPiece(read, style, pairs, inserted[i]);
    }
  }

  // Nothing follows the last assignment, which ends the file.
  lemma EditedLast(read: Reader, style: Style, x: seq<Piece>, h0: seq<Piece>, last: Piece, inserted: seq<string>, pairs: seq<Pair>)
    requires Local(read) && Steady(read, style, pairs) && DistinctKeys(pairs) && WrittenFor(read, style, pairs, inserted)
    requires x != [] && x[|x| - 1].Head? && Sets(h0) && last.Set? && Coherent(read, x + h0 + [last], false)
    requires inserted == [] || Closed(read, last, true) || Touches(last, KnownThrough(h0, {}), pairs)
    ensures Coherent(read, x + EditSets(style, h0 + [last], {}, pairs) + AsPieces(style, inserted), false)
  {
    var known := KnownThrough(h0, {});
    var q := EditPiece(style, last, known, pairs);
    CoherentClosed(read, x + h0, [last], false);
    ClosedParts(read, x, h0, false);
    InsideHead(x);
    InsideBody(h0);
    InsideSplits(x, h0, false);
    EditedClosed(read, style, h0, {}, pairs);
    EditSplits(style, h0, [last], {}, pairs);
    EditOne(style, last, known, pairs);
    EditedPiece(read, style, last, known, pairs);
    LastReads(read, last, q);
    var e0 := EditSets(style, h0, {}, pairs);
    if inserted == [] {
      assert AsPieces(style, inserted) == [];
      ClosedWith(read, style, x, h0, [], pairs);
      assert x + e0 + AsPieces(style, []) == x + e0;
      ClosedThen(read, x + e0, [q], false);
      assert x + (e0 + [q]) + [] == (x + e0) + [q];
    } else {
      EditedSets(read, style, h0, {}, pairs);
      InsideBody(e0);
      OneClosed(read, q);
      ClosedBoth(read, e0, [q], true);
      ClosedWith(read, style, x, h0 + [last], inserted, pairs);
      ClosedThen(read, x + EditSets(style, h0 + [last], {}, pairs) + AsPieces(style, inserted), [], false);
      assert x + EditSets(style, h0 + [last], {}, pairs) + AsPieces(style, inserted) + []
          == x + EditSets(style, h0 + [last], {}, pairs) + AsPieces(style, inserted);
    }
  }

  lemma EditOne(style: Style, p: Piece, known: set<string>, pairs: seq<Pair>)
    ensures EditSets(style, [p], known, pairs) == [EditPiece(style, p, known, pairs)]
  {
    EditCons(style, p, [], known, pairs);
    assert [p] + [] == [p];
  }

  lemma OneClosed(read: Reader, q: Piece)
    requires LinesIn(q) != [] && Closed(read, q, true)
    ensures AllClosed(read, [q], true)
  {
    assert [q][1..] == [];
  }

  lemma LastReads(read: Reader, last: Piece, q: Piece)
    requires Coherent(read, [last], true) && (q == last || (LinesIn(q) != [] && Closed(read, q, true)))
    ensures Coherent(read, [q], true)
  {
    FlatFirst(q, []);
    assert [q] + [] == [q] && [q][1..] == [] && LinesIn(q) + [] == LinesIn(q);
  }

  lemma Grouped<T>(x: seq<T>, h: seq<T>, r: seq<T>, a: seq<T>)
    ensures x + (h + r) + a == x + h + (r + a)
  {
  }

  lemma Grouped5<T>(x: seq<T>, e: seq<T>, i: seq<T>, r: seq<T>, a: seq<T>)
    ensures x + (e + i + r) + a == x + e + i + (r + a)
  {
  }

  lemma EditedMiddle(read: Reader, style: Style, x: seq<Piece>, h: seq<Piece>, more: seq<Piece>, inserted: seq<string>, pairs: seq<Pair>)
    requires Local(read) && Steady(read, style, pairs) && DistinctKeys(pairs) && WrittenFor(read, style, pairs, inserted)
    requires x != [] && x[|x| - 1].Head? && Sets(h) && Coherent(read, x + h + more, false)
    requires h != [] ==> h[|h| - 1].Set?
    requires inserted == [] || more != [] || h == [] || Closed(read, h[|h| - 1], true)
      || Touches(h[|h| - 1], KnownThrough(h[..|h| - 1], {}), pairs)
    ensures Coherent(read, x + EditSets(style, h, {}, pairs) + AsPieces(style, inserted) + more, false)
  {
    if more != [] {
      EditedBefore(read, style, x, h, more, inserted, pairs);
    } else {
      assert x + h + [] == x + h;
      EditedAtEnd(read, style, x, h, inserted, pairs);
      assert x + EditSets(style, h, {}, pairs) + AsPieces(style, inserted) + []
          == x + EditSets(style, h, {}, pairs) + AsPieces(style, inserted);
    }
  }

  /** An edited file reads as the pieces it was put together from. */
  lemma EditedCoheres(read: Reader, style: Style, x: seq<Piece>, body: seq<Piece>, after: seq<Piece>,
                      inserted: seq<string>, pairs: seq<Pair>)
    requires Local(read) && Steady(read, style, pairs) && DistinctKeys(pairs) && WrittenFor(read, style, pairs, inserted)
    requires x != [] && x[|x| - 1].Head? && Sets(body) && Coherent(read, x + body + after, false)
    requires Closes(read, body, after, inserted, pairs)
    ensures Coherent(read, x + Edited(style, body, inserted, pairs) + after, false)
  {
    var k := LastSet(body);
    var h, r := body[..k], body[k..];
    assert body == h + r;
    Grouped(x, h, r, after);
    Grouped5(x, EditSets(style, h, {}, pairs), AsPieces(style, inserted), r, after);
    assert k > 0 ==> h[..k - 1] == body[..k - 1] && h[k - 1] == body[k - 1];
    EditedMiddle(read, style, x, h, r + after, inserted, pairs);
  }

  lemma EditedAtEnd(read: Reader, style: Style, x: seq<Piece>, h: seq<Piece>, inserted: seq<string>, pairs: seq<Pair>)
    requires Local(read) && Steady(read, style, pairs) && DistinctKeys(pairs) && WrittenFor(read, style, pairs, inserted)
    requires x != [] && x[|x| - 1].Head? && Sets(h) && Coherent(read, x + h, false)
    requires h != [] ==> h[|h| - 1].Set?
    requires inserted == [] || h == [] || Closed(read, h[|h| - 1], true)
      || Touches(h[|h| - 1], KnownThrough(h[..|h| - 1], {}), pairs)
    ensures Coherent(read, x + EditSets(style, h, {}, pairs) + AsPieces(style, inserted), false)
  {
    if h == [] {
      assert x + h == x && x + [] + AsPieces(style, inserted) == x + AsPieces(style, inserted);
      EmptyBody(read, style, x, inserted, pairs);
    } else {
      var k := |h| - 1;
      assert h == h[..k] + [h[k]];
      assert x + h == x + h[..k] + [h[k]];
      EditedLast(read, style, x, h[..k], h[k], inserted, pairs);
    }
  }

  lemma ClosedCoheres(read: Reader, a: seq<Piece>, inBlock: bool)
    requires AllClosed(read, a, inBlock)
    ensures Coherent(read, a, inBlock)
  {
    ClosedThen(read, a, [], inBlock);
    assert a + [] == a;
  }

  lemma EndsClosed(read: Reader, front: seq<Piece>, head: Piece)
    requires Local(read) && head.Head? && Coherent(read, front + [head], false)
    ensures AllClosed(read, front + [head], false)
  {
    CoherentClosed(read, front, [head], false);
    HeadClosed(read, head, InsideAfter(front, false));
    ClosedBoth(read, front, [head], false);
  }

  lemma UptoHeader(read: Reader, x: seq<Piece>)
    requires Local(read) && x != [] && x[|x| - 1].Head? && Coherent(read, x, false)
    ensures AllClosed(read, x, false) && InsideAfter(x, false)
  {
    assert x == x[..|x| - 1] + [x[|x| - 1]];
    EndsClosed(read, x[..|x| - 1], x[|x| - 1]);
    InsideHead(x);
  }

  lemma ClosedTail(read: Reader, x: seq<Piece>, tail: seq<Piece>)
    requires AllClosed(read, x, false) && InsideAfter(x, false) && AllClosed(read, tail, true)
    ensures Coherent(read, x + tail, false)
  {
    ClosedBoth(read, x, tail, false);
    ClosedCoheres(read, x + tail, false);
  }

  lemma EmptyBody(read: Reader, style: Style, x: seq<Piece>, inserted: seq<string>, pairs: seq<Pair>)
    requires Local(read) && DistinctKeys(pairs) && WrittenFor(read, style, pairs, inserted)
    requires x != [] && x[|x| - 1].Head? && Coherent(read, x, false)
    ensures Coherent(read, x + AsPieces(style, inserted), false)
  {
    UptoHeader(read, x);
    InsertedStay(read, style, inserted, {}, pairs);
    ClosedTail(read, x, AsPieces(style, inserted));
  }

  lemma HeadClosed(read: Reader, head: Piece, inBlock: bool)
    requires Local(read) && head.Head? && Coherent(read, [head], inBlock)
    ensures AllClosed(read, [head], inBlock)
  {
    FlatFirst(head, []);
    assert [head] + [] == [head] && [head][1..] == [];
    assert read(Flat([head]), inBlock) == head;
  }

  // ---- the selected block stays selected --------------------------------------------------------------

  predicate Unselective(pairs: seq<Pair>) { forall pair <- pairs :: pair.key != "series" && pair.key != "profile" }

  lemma {:induction false} ValueSplits(a: seq<Piece>, c: seq<Piece>, key: string, sofar: string)
    ensures LastValue(a + c, key, sofar) == LastValue(c, key, LastValue(a, key, sofar))
  {
    if a == [] {
      assert a + c == c;
    } else {
      assert (a + c)[1..] == a[1..] + c;
      ValueSplits(a[1..], c, key, if a[0].Set? && a[0].span != [] && a[0].key == key then a[0].val else sofar);
    }
  }

  // Keys that are not recorded keep their values.
  lemma {:induction false} ValueKept(read: Reader, style: Style, body: seq<Piece>, known: set<string>, pairs: seq<Pair>,
                                     key: string, sofar: string)
    requires Steady(read, style, pairs) && forall pair <- pairs :: pair.key != key
    ensures LastValue(EditSets(style, body, known, pairs), key, sofar) == LastValue(body, key, sofar)
  {
    if body != [] {
      var p, rest := body[0], body[1..];
      assert body == [p] + rest;
      EditedPiece(read, style, p, known, pairs);
      if p.Set? {
        PairForIs(pairs, p.key);
      }
      EditCons(style, p, rest, known, pairs);
      var q, more := EditPiece(style, p, known, pairs), EditSets(style, rest, KnownAfter(p, known), pairs);
      assert ([q] + more)[1..] == more;
      ValueKept(read, style, rest, KnownAfter(p, known), pairs, key,
                if p.Set? && p.span != [] && p.key == key then p.val else sofar);
    }
  }

  lemma {:induction false} ValueOfOthers(body: seq<Piece>, key: string, sofar: string)
    requires forall i :: 0 <= i < |body| ==> body[i].Set? ==> body[i].key != key
    ensures LastValue(body, key, sofar) == sofar
  {
    if body != [] {
      ValueOfOthers(body[1..], key, sofar);
    }
  }

  lemma ValueOfEdited(read: Reader, style: Style, body: seq<Piece>, inserted: seq<string>, pairs: seq<Pair>, key: string)
    requires Steady(read, style, pairs) && WrittenFor(read, style, pairs, inserted) && forall pair <- pairs :: pair.key != key
    ensures LastValue(Edited(style, body, inserted, pairs), key, "") == LastValue(body, key, "")
  {
    var k := LastSet(body);
    var e, i := EditSets(style, body[..k], {}, pairs), AsPieces(style, inserted);
    assert body == body[..k] + body[k..];
    ValueSplits(body[..k], body[k..], key, "");
    ValueSplits(e + i, body[k..], key, "");
    ValueSplits(e, i, key, "");
    ValueKept(read, style, body[..k], {}, pairs, key, "");
    forall n | 0 <= n < |i| ensures i[n].Set? ==> i[n].key != key {
      WrittenPiece(read, style, pairs, inserted[n]);
    }
    ValueOfOthers(i, key, LastValue(e, key, ""));
  }

  // ---- nothing left to insert ---------------------------------------------------------------------------

  predicate HoldsKey(body: seq<Piece>, key: string) {
    exists i :: 0 <= i < |body| && body[i].Set? && body[i].span != [] && body[i].key == key
  }

  lemma {:induction false} HoldsKnown(body: seq<Piece>, at: nat, known: set<string>, key: string)
    ensures key in Names(NewKeys(body, at, known)) <==> HoldsKey(body, key) && key !in known
    decreases |body|
  {
    if body != [] {
      var p, rest := body[0], body[1..];
      assert body == [p] + rest;
      NewKeysFirst(p, rest, at, known);
      HoldsKnown(rest, at + |LinesIn(p)|, KnownAfter(p, known), key);
      HoldsFirst(p, rest, key);
      if p.Set? && p.span != [] && p.key !in known {
        var k, ks := KeySpan(p.key, at, at + |LinesIn(p)| - 1), NewKeys(rest, at + |LinesIn(p)|, KnownAfter(p, known));
        assert Names([k] + ks) == {p.key} + Names(ks);
      }
    }
  }

  lemma HoldsFirst(p: Piece, rest: seq<Piece>, key: string)
    ensures HoldsKey([p] + rest, key) <==> (p.Set? && p.span != [] && p.key == key) || HoldsKey(rest, key)
  {
    var all := [p] + rest;
    assert all[0] == p && forall i :: 0 <= i < |rest| ==> all[i + 1] == rest[i];
    if HoldsKey(rest, key) {
      var i :| 0 <= i < |rest| && rest[i].Set? && rest[i].span != [] && rest[i].key == key;
      assert all[i + 1].Set? && all[i + 1].key == key;
    }
    if HoldsKey(all, key) {
      var i :| 0 <= i < |all| && all[i].Set? && all[i].span != [] && all[i].key == key;
      assert i > 0 ==> rest[i - 1].Set? && rest[i - 1].key == key;
    }
  }

  lemma {:induction false} NothingToInsert(indent: string, b: Block, pairs: seq<Pair>)
    requires forall pair <- pairs :: Knows(b.keys, pair.key)
    ensures Insertions(indent, b, pairs) == []
  {
    if pairs != [] {
      NothingToInsert(indent, b, pairs[..|pairs| - 1]);
    }
  }

  lemma {:induction false} LineInserted(indent: string, b: Block, pairs: seq<Pair>, pair: Pair)
    requires pair in pairs && !Knows(b.keys, pair.key)
    ensures NewLine(indent, pair, "") in Insertions(indent, b, pairs)
  {
    var n := |pairs| - 1;
    assert pairs == pairs[..n] + [pairs[n]];
    if pair != pairs[n] {
      LineInserted(indent, b, pairs[..n], pair);
    }
  }

  lemma {:induction false} InsertedWritten(read: Reader, style: Style, indent: string, b: Block, pairs: seq<Pair>, all: seq<Pair>)
    requires Steady(read, style, all) && Blank(indent) && forall pair <- pairs :: pair in all
    ensures WrittenFor(read, style, all, Insertions(indent, b, pairs))
  {
    if pairs != [] {
      var n := |pairs| - 1;
      InsertedWritten(read, style, indent, b, pairs[..n], all);
      assert pairs[n] in all;
      assert Settled(read, style, pairs[n], NewLine(indent, pairs[n], ""));
    }
  }

  // Every recorded key stands in the edited body.
  lemma EditedHolds(read: Reader, style: Style, body: seq<Piece>, inserted: seq<string>, pairs: seq<Pair>, pair: Pair)
    requires Steady(read, style, pairs) && WrittenFor(read, style, pairs, inserted) && pair in pairs
    requires HoldsKey(body, pair.key) || exists i :: 0 <= i < |inserted| && Settled(read, style, pair, inserted[i])
    ensures HoldsKey(Edited(style, body, inserted, pairs), pair.key)
  {
    var k := LastSet(body);
    var e, ins := EditSets(style, body[..k], {}, pairs), AsPieces(style, inserted);
    var all := Edited(style, body, inserted, pairs);
    EditedKinds(style, read, body[..k], {}, pairs);
    if i :| 0 <= i < |body| && body[i].Set? && body[i].span != [] && body[i].key == pair.key {
      assert i < k;
      assert body[..k][i] == body[i] && all[i] == e[i];
    } else {
      var i :| 0 <= i < |inserted| && Settled(read, style, pair, inserted[i]);
      assert all[k + i] == ins[i] == style.piece(inserted[i]);
    }
  }

  // ---- editing twice --------------------------------------------------------------------------------------

  lemma {:induction false} EditPrefix(style: Style, a: seq<Piece>, c: seq<Piece>, known: set<string>, pairs: seq<Pair>)
    requires EditSets(style, a + c, known, pairs) == a + c
    ensures EditSets(style, a, known, pairs) == a
  {
    EditSplits(style, a, c, known, pairs);
    EditLength(style, a, known, pairs);
    assert EditSets(style, a, known, pairs) == (a + c)[..|a|] == a;
  }

  lemma {:induction false} EditLength(style: Style, a: seq<Piece>, known: set<string>, pairs: seq<Pair>)
    ensures |EditSets(style, a, known, pairs)| == |a|
  {
    if a != [] {
      EditLength(style, a[1..], KnownAfter(a[0], known), pairs);
    }
  }

  lemma LastInFront(front: seq<Piece>, back: seq<Piece>)
    requires forall i :: 0 <= i < |back| ==> !back[i].Set?
    ensures LastSet(front + back) <= |front|
  {
    assert forall m :: |front| <= m < |front + back| ==> (front + back)[m] == back[m - |front|];
  }

  lemma EditNothing(style: Style, all: seq<Piece>, pairs: seq<Pair>)
    requires EditSets(style, all[..LastSet(all)], {}, pairs) == all[..LastSet(all)]
    ensures Edited(style, all, [], pairs) == all
  {
    var n := LastSet(all);
    assert AsPieces(style, []) == [];
    assert all[..n] + [] + all[n..] == all;
  }

  // A body that no edit changes up to its last assignment.
  lemma EditFixed(style: Style, front: seq<Piece>, back: seq<Piece>, pairs: seq<Pair>)
    requires EditSets(style, front, {}, pairs) == front && forall i :: 0 <= i < |back| ==> !back[i].Set?
    ensures Edited(style, front + back, [], pairs) == front + back
  {
    var n := LastSet(front + back);
    LastInFront(front, back);
    assert front == front[..n] + front[n..] && (front + back)[..n] == front[..n];
    EditPrefix(style, front[..n], front[n..], {}, pairs);
    EditNothing(style, front + back, pairs);
  }

  /** With nothing to insert, editing an edited body leaves it as it is. */
  lemma EditedTwice(read: Reader, style: Style, body: seq<Piece>, inserted: seq<string>, pairs: seq<Pair>)
    requires Steady(read, style, pairs) && DistinctKeys(pairs) && WrittenFor(read, style, pairs, inserted)
    ensures var e := Edited(style, body, inserted, pairs); Edited(style, e, [], pairs) == e
  {
    var k := LastSet(body);
    var h, i := EditSets(style, body[..k], {}, pairs), AsPieces(style, inserted);
    EditsOnce(read, style, body[..k], {}, pairs);
    InsertedStay(read, style, inserted, KnownThrough(h, {}), pairs);
    EditSplits(style, h, i, {}, pairs);
    forall n | 0 <= n < |body[k..]| ensures !body[k..][n].Set? {
      assert body[k..][n] == body[k + n];
    }
    EditFixed(style, h + i, body[k..], pairs);
  }

  lemma SelectedEdited(read: Reader, style: Style, body: seq<Piece>, inserted: seq<string>, pairs: seq<Pair>,
                       series: string, profile: string)
    requires Steady(read, style, pairs) && WrittenFor(read, style, pairs, inserted) && Unselective(pairs)
    requires Selected(body, series, profile)
    ensures Selected(Edited(style, body, inserted, pairs), series, profile)
  {
    ValueOfEdited(read, style, body, inserted, pairs, "series");
    ValueOfEdited(read, style, body, inserted, pairs, "profile");
  }

  lemma SetsEdited(read: Reader, style: Style, body: seq<Piece>, inserted: seq<string>, pairs: seq<Pair>)
    requires Steady(read, style, pairs) && WrittenFor(read, style, pairs, inserted) && Sets(body)
    ensures Sets(Edited(style, body, inserted, pairs))
  {
    EditedSets(read, style, body[..LastSet(body)], {}, pairs);
    InsertedSets(read, style, inserted, pairs);
  }

  lemma BlankIndent(line: string)
    ensures Blank(Indent(line))
  {
    LStripBlank(line);
  }

  lemma {:induction false} LStripBlank(s: string)
    ensures forall i :: 0 <= i < |s| - |LStrip(s)| ==> IsSpace(s[i])
  {
    if s != "" && IsSpace(s[0]) {
      LStripBlank(s[1..]);
      forall i | 0 <= i < |s| - |LStrip(s)| ensures IsSpace(s[i]) {
        assert i > 0 ==> s[1..][i - 1] == s[i];
      }
    }
  }
}
