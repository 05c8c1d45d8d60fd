/** Recording keys in the catalog a second time: when it changes nothing. */
module CatalogRerun {
  import opened Options
  import opened TomlLines
  import opened CatalogUpsert
  import opened CatalogEdits
  import opened CatalogBlocks
  import opened CatalogReread

  // The header with what is before it.
  function Upto(x: seq<Piece>, head: Piece): seq<Piece> { x + [head] }

  lemma AssembledIs(x: seq<Piece>, head: Piece, body: seq<Piece>, after: seq<Piece>)
    ensures Assembled(x, head, body, after) == Upto(x, head) + body + after
  {
    Associated(x, [head], body + after);
    Associated(x + [head], body, after);
  }

  lemma InsertedWrittenAt(read: Reader, style: Style, x: seq<Piece>, head: Piece, body: seq<Piece>, after: seq<Piece>, pairs: seq<Pair>)
    requires Steady(read, style, pairs) && head.Head? && Sets(body) && Whole(Assembled(x, head, body, after))
    ensures WrittenFor(read, style, pairs, InsertedFor(x, head, body, after, pairs))
  {
    BlockThere(x, head, body, after);
    var lines, b := Flat(Assembled(x, head, body, after)), BlockFrom(|Flat(x)|, body);
    IndentBlank(lines, b);
    InsertedWritten(read, style, BlockIndent(lines, b), b, pairs, pairs);
  }

  lemma IndentBlank(lines: seq<string>, b: Block)
    requires Within(b, |lines|)
    ensures Blank(BlockIndent(lines, b))
  {
    if b.keys != [] {
      BlankIndent(lines[b.lastKv]);
    }
  }

  lemma BlockKnows(line: nat, body: seq<Piece>, key: string)
    ensures Knows(BlockFrom(line, body).keys, key) <==> HoldsKey(body, key)
  {
    var start := Block("", "", line, []);
    AbsorbedKeys(start, body, line + 1);
    assert Names([]) == {} && [] + NewKeys(body, line + 1, {}) == NewKeys(body, line + 1, {});
    NamesKnow(BlockFrom(line, body).keys, key);
    HoldsKnown(body, line + 1, {}, key);
  }

  // A recorded key stands in the body, or a line is inserted for it.
  lemma KeyOrLine(read: Reader, style: Style, lines: seq<string>, line: nat, body: seq<Piece>, pairs: seq<Pair>, pair: Pair)
    requires Steady(read, style, pairs) && pair in pairs && Within(BlockFrom(line, body), |lines|)
    ensures var b := BlockFrom(line, body);
      var inserted := Insertions(BlockIndent(lines, b), b, pairs);
      HoldsKey(body, pair.key) || exists i :: 0 <= i < |inserted| && Settled(read, style, pair, inserted[i])
  {
    var b := BlockFrom(line, body);
    BlockKnows(line, body, pair.key);
    if !Knows(b.keys, pair.key) {
      var indent := BlockIndent(lines, b);
      IndentBlank(lines, b);
      LineInserted(indent, b, pairs, pair);
      var written := NewLine(indent, pair, "");
      assert Settled(read, style, pair, written);
      var inserted := Insertions(indent, b, pairs);
      var i :| 0 <= i < |inserted| && inserted[i] == written;
      assert Settled(read, style, pair, inserted[i]);
    }
  }

  // Every recorded key stands in the body, or on one of the lines put after it.
  ghost predicate Provided(read: Reader, style: Style, body: seq<Piece>, put: seq<string>, pairs: seq<Pair>) {
    forall pair :: pair in pairs ==> ProvidedOne(read, style, body, put, pair)
  }

  ghost predicate ProvidedOne(read: Reader, style: Style, body: seq<Piece>, put: seq<string>, pair: Pair) {
    HoldsKey(body, pair.key) || exists i :: 0 <= i < |put| && Settled(read, style, pair, put[i])
  }

  lemma InsertedProvides(read: Reader, style: Style, x: seq<Piece>, head: Piece, body: seq<Piece>, after: seq<Piece>, pairs: seq<Pair>)
    requires Steady(read, style, pairs) && head.Head? && Sets(body) && Whole(Assembled(x, head, body, after))
    ensures Provided(read, style, body, InsertedFor(x, head, body, after, pairs), pairs)
  {
    BlockThere(x, head, body, after);
    var lines, b := Flat(Assembled(x, head, body, after)), BlockFrom(|Flat(x)|, body);
    var put := Insertions(BlockIndent(lines, b), b, pairs);
    forall pair | pair in pairs ensures ProvidedOne(read, style, body, put, pair) {
      KeyOrLine(read, style, lines, |Flat(x)|, body, pairs, pair);
    }
  }

  /** The second run has nothing to insert. */
  lemma NothingAgain(read: Reader, style: Style, x: seq<Piece>, head: Piece, body: seq<Piece>, after: seq<Piece>,
                     put: seq<string>, pairs: seq<Pair>)
    requires Steady(read, style, pairs) && head.Head? && WrittenFor(read, style, pairs, put) && Provided(read, style, body, put, pairs)
    requires var body' := Edited(style, body, put, pairs); Sets(body') && Whole(Assembled(x, head, body', after))
    ensures InsertedFor(x, head, Edited(style, body, put, pairs), after, pairs) == []
  {
    var body' := Edited(style, body, put, pairs);
    BlockThere(x, head, body', after);
    var lines', b' := Flat(Assembled(x, head, body', after)), BlockFrom(|Flat(x)|, body');
    forall pair | pair in pairs ensures Knows(b'.keys, pair.key) {
      assert ProvidedOne(read, style, body, put, pair);
      EditedHolds(read, style, body, put, pairs, pair);
      BlockKnows(|Flat(x)|, body', pair.key);
    }
    NothingToInsert(BlockIndent(lines', b'), b', pairs);
  }

  /** The edited file reads as the pieces it was put together from. */
  lemma EditedReads(read: Reader, style: Style, x: seq<Piece>, head: Piece, body: seq<Piece>, after: seq<Piece>,
                    inserted: seq<string>, pairs: seq<Pair>)
    requires Sensible(read) && Local(read) && Steady(read, style, pairs) && DistinctKeys(pairs)
    requires WrittenFor(read, style, pairs, inserted) && head.Head? && Sets(body)
    requires Coherent(read, Assembled(x, head, body, after), false) && Closes(read, body, after, inserted, pairs)
    ensures var ps := Assembled(x, head, Edited(style, body, inserted, pairs), after);
      Pieces(read, Flat(ps), false) == ps
  {
    AssembledIs(x, head, body, after);
    EditedCoheres(read, style, Upto(x, head), body, after, inserted, pairs);
    AssembledIs(x, head, Edited(style, body, inserted, pairs), after);
    CoherentReads(read, Assembled(x, head, Edited(style, body, inserted, pairs), after), false);
  }

  /** A file whose block has been edited, with any lines put after it that provide the absent keys,
      is left as it is by the same edit. */
  lemma PutStays(read: Reader, style: Style, lines: seq<string>, x: seq<Piece>, head: Piece, body: seq<Piece>,
                 after: seq<Piece>, put: seq<string>, series: string, profile: string, pairs: seq<Pair>)
    requires Sensible(read) && Local(read) && Plain(style) && Steady(read, style, pairs)
    requires DistinctKeys(pairs) && Unselective(pairs)
    requires Pieces(read, lines, false) == Assembled(x, head, body, after) && SplitsAt(x, head, body, after, series, profile)
    requires WrittenFor(read, style, pairs, put) && Provided(read, style, body, put, pairs) && Closes(read, body, after, put, pairs)
    ensures var t := Flat(Assembled(x, head, Edited(style, body, put, pairs), after));
      Upserted(read, style, t, series, profile, pairs) == Some(t)
  {
    var body' := Edited(style, body, put, pairs);
    var ps' := Assembled(x, head, body', after);
    PiecesCohere(read, lines, false);
    EditedReads(read, style, x, head, body, after, put, pairs);
    SetsEdited(read, style, body, put, pairs);
    SelectedEdited(read, style, body, put, pairs, series, profile);
    FlatOfPieces(read, Flat(ps'), false);
    UpsertedAt(read, style, Flat(ps'), x, head, body', after, series, profile, pairs);
    NothingAgain(read, style, x, head, body, after, put, pairs);
    EditedTwice(read, style, body, put, pairs);
  }

  /** On lists of lines, recording the same keys a second time changes nothing, provided that the
      block's last assignment closes its value or is replaced, or that nothing is put after it. */
  lemma RerunChangesNothing(read: Reader, style: Style, lines: seq<string>, x: seq<Piece>, head: Piece, body: seq<Piece>,
                            after: seq<Piece>, series: string, profile: string, pairs: seq<Pair>)
    requires Sensible(read) && Local(read) && Plain(style) && Steady(read, style, pairs)
    requires DistinctKeys(pairs) && Unselective(pairs)
    requires Pieces(read, lines, false) == Assembled(x, head, body, after)
    requires SplitsAt(x, head, body, after, series, profile) && Whole(Assembled(x, head, body, after))
    requires Closes(read, body, after, InsertedFor(x, head, body, after, pairs), pairs)
    ensures var once := Upserted(read, style, lines, series, profile, pairs);
      once.Some? && Upserted(read, style, once.value, series, profile, pairs) == once
  {
    UpsertedAt(read, style, lines, x, head, body, after, series, profile, pairs);
    InsertedWrittenAt(read, style, x, head, body, after, pairs);
    InsertedProvides(read, style, x, head, body, after, pairs);
    PutStays(read, style, lines, x, head, body, after, InsertedFor(x, head, body, after, pairs), series, profile, pairs);
  }
}
