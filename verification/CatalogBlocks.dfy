/** The block a series and a profile select, as the place where the catalog splits in four: what
    is before it, its header, its body, what is after; and the edit of that body. */
module CatalogBlocks {
  import opened Options
  import opened TomlLines
  import opened CatalogUpsert
  import opened CatalogEdits

  // ---- the scan over two parts ------------------------------------------------------------------

  // The blocks ended within the pieces, and the block left open after them.
  function Done(ps: seq<Piece>, at: nat, cur: Option<Block>): seq<Block> {
    if ps == [] then []
    else EndedBy(ps[0], cur) + Done(ps[1..], at + |LinesIn(ps[0])|, NextBlock(ps[0], at, cur))
  }

  function OpenAfter(ps: seq<Piece>, at: nat, cur: Option<Block>): Option<Block>
    decreases |ps|
  {
    if ps == [] then cur else OpenAfter(ps[1..], at + |LinesIn(ps[0])|, NextBlock(ps[0], at, cur))
  }

  lemma Associated<T>(a: seq<T>, b: seq<T>, c: seq<T>)
    ensures a + (b + c) == (a + b) + c
  {
  }

  lemma DoneFirst(p: Piece, rest: seq<Piece>, at: nat, cur: Option<Block>)
    ensures var next, cur' := at + |LinesIn(p)|, NextBlock(p, at, cur);
      && Done([p] + rest, at, cur) == EndedBy(p, cur) + Done(rest, next, cur')
      && OpenAfter([p] + rest, at, cur) == OpenAfter(rest, next, cur')
      && Blocks([p] + rest, at, cur) == EndedBy(p, cur) + Blocks(rest, next, cur')
  {
    assert ([p] + rest)[1..] == rest;
  }

  lemma {:induction false} BlocksSplit(a: seq<Piece>, c: seq<Piece>, at: nat, cur: Option<Block>)
    ensures Blocks(a + c, at, cur) == Done(a, at, cur) + Blocks(c, at + |Flat(a)|, OpenAfter(a, at, cur))
    decreases |a|
  {
    if a == [] {
      assert a + c == c;
      assert [] + Blocks(c, at, cur) == Blocks(c, at, cur);
    } else {
      var p, rest := a[0], a[1..];
      assert a == [p] + rest && a + c == [p] + (rest + c);
      DoneFirst(p, rest, at, cur);
      DoneFirst(p, rest + c, at, cur);
      FlatFirst(p, rest);
      BlocksSplit(rest, c, at + |LinesIn(p)|, NextBlock(p, at, cur));
      Associated(EndedBy(p, cur), Done(rest, at + |LinesIn(p)|, NextBlock(p, at, cur)),
                 Blocks(c, at + |Flat(a)|, OpenAfter(a, at, cur)));
    }
  }

  lemma {:induction false} DoneSplit(a: seq<Piece>, c: seq<Piece>, at: nat, cur: Option<Block>)
    ensures Done(a + c, at, cur) == Done(a, at, cur) + Done(c, at + |Flat(a)|, OpenAfter(a, at, cur))
    ensures OpenAfter(a + c, at, cur) == OpenAfter(c, at + |Flat(a)|, OpenAfter(a, at, cur))
    decreases |a|
  {
    if a == [] {
      assert a + c == c;
      assert [] + Done(c, at, cur) == Done(c, at, cur);
    } else {
      var p, rest := a[0], a[1..];
      assert a == [p] + rest && a + c == [p] + (rest + c);
      DoneFirst(p, rest, at, cur);
      DoneFirst(p, rest + c, at, cur);
      FlatFirst(p, rest);
      DoneSplit(rest, c, at + |LinesIn(p)|, NextBlock(p, at, cur));
      Associated(EndedBy(p, cur), Done(rest, at + |LinesIn(p)|, NextBlock(p, at, cur)),
                 Done(c, at + |Flat(a)|, OpenAfter(a, at, cur)));
    }
  }

  // ---- one block ----------------------------------------------------------------------------------

  predicate Sets(body: seq<Piece>) { forall i :: 0 <= i < |body| ==> body[i].Set? || body[i].Inert? }

  // What follows a body: nothing, or the next header.
  predicate Boundary(after: seq<Piece>) { after != [] ==> after[0].Head? || after[0].Shut? }

  lemma AbsorbFirst(p: Piece, rest: seq<Piece>, at: nat, b: Block)
    requires p.Set? || p.Inert?
    ensures Absorb(b, [p] + rest, at) == Absorb(NextBlock(p, at, Some(b)).value, rest, at + |LinesIn(p)|)
  {
    assert ([p] + rest)[1..] == rest;
  }

  // What an open block has become after a body, with no block ended.
  predicate Opened(body: seq<Piece>, at: nat, b: Block) {
    Done(body, at, Some(b)) == [] && OpenAfter(body, at, Some(b)) == Some(Absorb(b, body, at))
  }

  lemma OpenFirst(p: Piece, rest: seq<Piece>, at: nat, b: Block, b': Block)
    requires EndedBy(p, Some(b)) == [] && Some(b') == NextBlock(p, at, Some(b))
    requires Absorb(b, [p] + rest, at) == Absorb(b', rest, at + |LinesIn(p)|)
    requires Opened(rest, at + |LinesIn(p)|, b')
    ensures Opened([p] + rest, at, b)
  {
    DoneFirst(p, rest, at, Some(b));
    var done := Done(rest, at + |LinesIn(p)|, Some(b'));
    assert [] + done == done;
  }

  /** An open block takes its whole body and ends no block. */
  lemma {:induction false} BodyOpen(body: seq<Piece>, at: nat, b: Block)
    requires Sets(body)
    ensures Opened(body, at, b)
    decreases |body|
  {
    if body != [] {
      var p, rest := body[0], body[1..];
      var b' := NextBlock(p, at, Some(b)).value;
      assert body == [p] + rest;
      BodyOpen(rest, at + |LinesIn(p)|, b');
      AbsorbFirst(p, rest, at, b);
      OpenFirst(p, rest, at, b, b');
    }
  }

  lemma BoundaryEnds(after: seq<Piece>, at: nat, b: Block)
    requires Boundary(after)
    ensures Blocks(after, at, Some(b)) == [b] + Blocks(after, at, None)
  {
    if after != [] {
      var p, rest := after[0], after[1..];
      assert after == [p] + rest;
      DoneFirst(p, rest, at, Some(b));
      DoneFirst(p, rest, at, None);
      var more := Blocks(rest, at + 1, NextBlock(p, at, None));
      assert [] + more == more;
    }
  }

  // The blocks of the pieces before a header.
  function Before(x: seq<Piece>): seq<Block> { Done(x, 0, None) + Ended(OpenAfter(x, 0, None)) }

  // A header with its body.
  function BlockFrom(line: nat, body: seq<Piece>): Block { Absorb(Block("", "", line, []), body, line + 1) }

  lemma OpenThenBody(body: seq<Piece>, after: seq<Piece>, at: nat, b: Block)
    requires Sets(body) && Boundary(after)
    ensures Blocks(body + after, at, Some(b)) == [Absorb(b, body, at)] + Blocks(after, at + |Flat(body)|, None)
  {
    BlocksSplit(body, after, at, Some(b));
    BodyOpen(body, at, b);
    BoundaryEnds(after, at + |Flat(body)|, Absorb(b, body, at));
    var blocks := [Absorb(b, body, at)] + Blocks(after, at + |Flat(body)|, None);
    assert [] + blocks == blocks;
  }

  lemma HeadThenBody(head: Piece, body: seq<Piece>, after: seq<Piece>, at: nat, cur: Option<Block>)
    requires head.Head? && Sets(body) && Boundary(after)
    ensures Blocks([head] + (body + after), at, cur)
      == Ended(cur) + ([BlockFrom(at, body)] + Blocks(after, at + 1 + |Flat(body)|, None))
  {
    DoneFirst(head, body + after, at, cur);
    OpenThenBody(body, after, at + 1, Block("", "", at, []));
  }

  /** The blocks of a file: those before a header, the one it begins, those after its body. */
  lemma BlocksAround(x: seq<Piece>, head: Piece, body: seq<Piece>, after: seq<Piece>)
    requires head.Head? && Sets(body) && Boundary(after)
    ensures Blocks(x + ([head] + (body + after)), 0, None)
      == Before(x) + ([BlockFrom(|Flat(x)|, body)] + Blocks(after, |Flat(x)| + 1 + |Flat(body)|, None))
  {
    BlocksSplit(x, [head] + (body + after), 0, None);
    HeadThenBody(head, body, after, |Flat(x)|, OpenAfter(x, 0, None));
    Associated(Done(x, 0, None), Ended(OpenAfter(x, 0, None)),
               [BlockFrom(|Flat(x)|, body)] + Blocks(after, |Flat(x)| + 1 + |Flat(body)|, None));
  }

  // ---- the selected block -------------------------------------------------------------------------

  // The value of the last assignment of a key.
  function LastValue(body: seq<Piece>, key: string, sofar: string): string {
    if body == [] then sofar
    else LastValue(body[1..], key, if body[0].Set? && body[0].span != [] && body[0].key == key then body[0].val else sofar)
  }

  predicate Selected(body: seq<Piece>, series: string, profile: string) {
    LastValue(body, "series", "") == series && LastValue(body, "profile", "") == profile
  }

  /** A catalog split at its selected block: the first of that series and profile. */
  predicate SplitsAt(x: seq<Piece>, head: Piece, body: seq<Piece>, after: seq<Piece>, series: string, profile: string) {
    && head.Head? && Sets(body) && Boundary(after)
    && Choose(Before(x), series, profile) == None && Selected(body, series, profile)
  }

  function Assembled(x: seq<Piece>, head: Piece, body: seq<Piece>, after: seq<Piece>): seq<Piece> {
    x + ([head] + (body + after))
  }

  lemma {:induction false} AbsorbedFields(b: Block, body: seq<Piece>, at: nat)
    ensures Absorb(b, body, at).series == LastValue(body, "series", b.series)
    ensures Absorb(b, body, at).profile == LastValue(body, "profile", b.profile)
    decreases |body|
  {
    if body != [] {
      assert "series" != "profile";
      AbsorbedFields(if body[0].Set? && body[0].span != [] then Noted(b, body[0], at) else b,
                     body[1..], at + |LinesIn(body[0])|);
    }
  }

  lemma {:induction false} ChooseSplit(a: seq<Block>, c: seq<Block>, series: string, profile: string)
    ensures Choose(a + c, series, profile) ==
      if Choose(a, series, profile).Some? then Choose(a, series, profile) else Choose(c, series, profile)
  {
    if a == [] {
      assert a + c == c;
    } else {
      assert (a + c)[1..] == a[1..] + c;
      ChooseSplit(a[1..], c, series, profile);
    }
  }

  lemma ChooseOne(b: Block, rest: seq<Block>, series: string, profile: string)
    ensures Choose([b] + rest, series, profile)
      == if b.series == series && b.profile == profile then Some(b) else Choose(rest, series, profile)
  {
    assert ([b] + rest)[1..] == rest;
  }

  /** The block at the split is the one chosen. */
  lemma SplitIsChosen(x: seq<Piece>, head: Piece, body: seq<Piece>, after: seq<Piece>, series: string, profile: string)
    requires SplitsAt(x, head, body, after, series, profile)
    ensures Choose(Blocks(Assembled(x, head, body, after), 0, None), series, profile) == Some(BlockFrom(|Flat(x)|, body))
  {
    var b := BlockFrom(|Flat(x)|, body);
    var more := Blocks(after, |Flat(x)| + 1 + |Flat(body)|, None);
    BlocksAround(x, head, body, after);
    AbsorbedFields(Block("", "", |Flat(x)|, []), body, |Flat(x)| + 1);
    ChooseSplit(Before(x), [b] + more, series, profile);
    ChooseOne(b, more, series, profile);
  }

  lemma {:induction false} TakeBody(ps: seq<Piece>) returns (body: seq<Piece>, after: seq<Piece>)
    ensures ps == body + after && Sets(body) && Boundary(after)
  {
    if ps == [] || ps[0].Head? || ps[0].Shut? {
      body, after := [], ps;
    } else {
      body, after := TakeBody(ps[1..]);
      body := [ps[0]] + body;
    }
  }

  // No block is open, or a header comes next.
  predicate AtHeader(x: seq<Piece>, rest: seq<Piece>) { OpenAfter(x, 0, None) == None || Boundary(rest) }

  lemma PassOther(x: seq<Piece>, p: Piece, rest: seq<Piece>)
    requires AtHeader(x, [p] + rest) && !p.Head?
    ensures AtHeader(x + [p], rest) && Before(x + [p]) == Before(x)
  {
    DoneSplit(x, [p], 0, None);
    DoneFirst(p, [], |Flat(x)|, OpenAfter(x, 0, None));
    assert [p] + [] == [p];
    assert Done(x, 0, None) + [] == Done(x, 0, None);
    assert EndedBy(p, OpenAfter(x, 0, None)) + [] == EndedBy(p, OpenAfter(x, 0, None));
    assert (Done(x, 0, None) + Ended(OpenAfter(x, 0, None))) + [] == Done(x, 0, None) + Ended(OpenAfter(x, 0, None));
  }

  lemma OneMore(x: seq<Piece>, more: seq<Piece>, cur: Option<Block>, b: Block)
    requires cur == OpenAfter(x, 0, None)
    requires Done(more, |Flat(x)|, cur) == Ended(cur) && OpenAfter(more, |Flat(x)|, cur) == Some(b)
    ensures Before(x + more) == Before(x) + [b]
  {
    DoneSplit(x, more, 0, None);
  }

  lemma PassBlock(x: seq<Piece>, head: Piece, body: seq<Piece>)
    requires head.Head? && Sets(body)
    ensures Before(x + ([head] + body)) == Before(x) + [BlockFrom(|Flat(x)|, body)]
  {
    var at, cur := |Flat(x)|, OpenAfter(x, 0, None);
    DoneFirst(head, body, at, cur);
    BodyOpen(body, at + 1, Block("", "", at, []));
    assert Ended(cur) + [] == Ended(cur);
    OneMore(x, [head] + body, cur, BlockFrom(at, body));
  }

  lemma NothingMore(x: seq<Piece>)
    ensures Blocks(x + [], 0, None) == Before(x)
  {
    BlocksSplit(x, [], 0, None);
  }

  lemma PassUnselected(x: seq<Piece>, head: Piece, body: seq<Piece>, series: string, profile: string)
    requires head.Head? && Sets(body) && !Selected(body, series, profile)
    requires Choose(Before(x), series, profile) == None
    ensures Choose(Before(x + ([head] + body)), series, profile) == None
  {
    var b := BlockFrom(|Flat(x)|, body);
    PassBlock(x, head, body);
    AbsorbedFields(Block("", "", |Flat(x)|, []), body, |Flat(x)| + 1);
    ChooseSplit(Before(x), [b], series, profile);
    ChooseOne(b, [], series, profile);
    assert [b] + [] == [b];
  }

  /** A chosen block is where the catalog splits. */
  lemma {:induction false} ChosenSplits(x: seq<Piece>, rest: seq<Piece>, series: string, profile: string)
      returns (y: seq<Piece>, head: Piece, body: seq<Piece>, after: seq<Piece>)
    requires Choose(Before(x), series, profile) == None && AtHeader(x, rest)
    requires Choose(Blocks(x + rest, 0, None), series, profile).Some?
    ensures SplitsAt(y, head, body, after, series, profile) && x + rest == Assembled(y, head, body, after)
    decreases |rest|
  {
    if rest == [] {
      NothingMore(x);
      assert false;
    } else if rest[0].Head? {
      body, after := TakeBody(rest[1..]);
      assert rest == [rest[0]] + (body + after);
      if Selected(body, series, profile) {
        y, head := x, rest[0];
      } else {
        PassUnselected(x, rest[0], body, series, profile);
        Associated(x, [rest[0]] + body, after);
        Associated([rest[0]], body, after);
        y, head, body, after := ChosenSplits(x + ([rest[0]] + body), after, series, profile);
      }
    } else {
      assert rest == [rest[0]] + rest[1..];
      PassOther(x, rest[0], rest[1..]);
      assert x + rest == (x + [rest[0]]) + rest[1..];
      y, head, body, after := ChosenSplits(x + [rest[0]], rest[1..], series, profile);
    }
  }

  // ---- the edit of the selected body ----------------------------------------------------------------

  lemma {:induction false} FlatOfPieces(read: Reader, lines: seq<string>, inBlock: bool)
    requires Sensible(read)
    ensures Flat(Pieces(read, lines, inBlock)) == lines
    ensures forall p <- Pieces(read, lines, inBlock) :: LinesIn(p) != []
    decreases |lines|
  {
    if lines != [] {
      assert ReadsWell(read, lines, inBlock);
      var p := read(lines, inBlock);
      FlatOfPieces(read, lines[|LinesIn(p)|..], Inside(p, inBlock));
      FlatFirst(p, Pieces(read, lines[|LinesIn(p)|..], Inside(p, inBlock)));
      assert lines == lines[..|LinesIn(p)|] + lines[|LinesIn(p)|..];
    }
  }

  predicate Whole(ps: seq<Piece>) { forall p <- ps :: LinesIn(p) != [] }

  lemma FlatAround(x: seq<Piece>, head: Piece, body: seq<Piece>, after: seq<Piece>)
    requires head.Head?
    ensures Flat(Assembled(x, head, body, after)) == (Flat(x) + [head.line]) + Flat(body) + Flat(after)
  {
    FlatSplits(x, [head] + (body + after));
    FlatFirst(head, body + after);
    FlatSplits(body, after);
    Associated(Flat(x), [head.line], Flat(body) + Flat(after));
    Associated(Flat(x) + [head.line], Flat(body), Flat(after));
  }

  lemma WholeBody(x: seq<Piece>, head: Piece, body: seq<Piece>, after: seq<Piece>)
    requires Sets(body) && Whole(Assembled(x, head, body, after))
    ensures IsBody(body)
  {
    forall i | 0 <= i < |body| ensures (body[i].Set? || body[i].Inert?) && LinesIn(body[i]) != [] {
      assert body[i] in Assembled(x, head, body, after);
    }
  }

  /** The edit of the selected block, or nothing when no block is selected. */
  function Upserted(read: Reader, style: Style, lines: seq<string>, series: string, profile: string,
                    pairs: seq<Pair>): Option<seq<string>>
    requires Sensible(read)
  {
    var c := Choose(BlocksAt(read, lines, 0, None), series, profile);
    if c.None? then None
    else
      ChosenStands(read, lines, series, profile);
      Some(Sequential(style, lines, c.value, pairs))
  }

  lemma BlockThere(x: seq<Piece>, head: Piece, body: seq<Piece>, after: seq<Piece>)
    requires head.Head? && Sets(body) && Whole(Assembled(x, head, body, after))
    ensures IsBody(body)
    ensures var b := BlockFrom(|Flat(x)|, body);
      && b == BlockOf(Flat(x) + [head.line], body)
      && Within(b, |Flat(Assembled(x, head, body, after))|)
  {
    WholeBody(x, head, body, after);
    FlatAround(x, head, body, after);
    BlockStands(Flat(x) + [head.line], body, Flat(after));
  }

  lemma ChosenStands(read: Reader, lines: seq<string>, series: string, profile: string)
    requires Sensible(read)
    ensures var c := Choose(BlocksAt(read, lines, 0, None), series, profile); c.Some? ==> Within(c.value, |lines|)
  {
    var ps := Pieces(read, lines, false);
    assert lines[0..] == lines && [] + ps == ps && Flat([]) == [];
    if Choose(Blocks(ps, 0, None), series, profile).Some? {
      FlatOfPieces(read, lines, false);
      var x, head, body, after := ChosenSplits([], ps, series, profile);
      SplitIsChosen(x, head, body, after, series, profile);
      BlockThere(x, head, body, after);
    }
  }

  // The lines an edit inserts after the body's last assignment.
  function InsertedFor(x: seq<Piece>, head: Piece, body: seq<Piece>, after: seq<Piece>, pairs: seq<Pair>): seq<string>
    requires head.Head? && Sets(body) && Whole(Assembled(x, head, body, after))
  {
    BlockThere(x, head, body, after);
    var b := BlockFrom(|Flat(x)|, body);
    Insertions(BlockIndent(Flat(Assembled(x, head, body, after)), b), b, pairs)
  }

  lemma SequentialAt(style: Style, x: seq<Piece>, head: Piece, body: seq<Piece>, after: seq<Piece>, pairs: seq<Pair>)
    requires Plain(style) && DistinctKeys(pairs)
    requires head.Head? && Sets(body) && Whole(Assembled(x, head, body, after))
    ensures var b := BlockFrom(|Flat(x)|, body);
      && Within(b, |Flat(Assembled(x, head, body, after))|)
      && Sequential(style, Flat(Assembled(x, head, body, after)), b, pairs)
         == Flat(Assembled(x, head, Edited(style, body, InsertedFor(x, head, body, after, pairs), pairs), after))
  {
    BlockThere(x, head, body, after);
    FlatAround(x, head, body, after);
    SequentialIsEdited(style, Flat(x) + [head.line], body, Flat(after), pairs);
    FlatAround(x, head, Edited(style, body, InsertedFor(x, head, body, after, pairs), pairs), after);
  }

  /** A catalog split at its selected block is edited in that body at once; nothing else changes. */
  lemma UpsertedAt(read: Reader, style: Style, lines: seq<string>, x: seq<Piece>, head: Piece, body: seq<Piece>,
                   after: seq<Piece>, series: string, profile: string, pairs: seq<Pair>)
    requires Sensible(read) && Plain(style) && DistinctKeys(pairs)
    requires Pieces(read, lines, false) == Assembled(x, head, body, after)
    requires SplitsAt(x, head, body, after, series, profile)
    ensures Whole(Assembled(x, head, body, after)) && Flat(Assembled(x, head, body, after)) == lines
    ensures Upserted(read, style, lines, series, profile, pairs)
      == Some(Flat(Assembled(x, head, Edited(style, body, InsertedFor(x, head, body, after, pairs), pairs), after)))
  {
    assert lines[0..] == lines;
    FlatOfPieces(read, lines, false);
    SplitIsChosen(x, head, body, after, series, profile);
    SequentialAt(style, x, head, body, after, pairs);
  }

  /** Either no block is selected and nothing is written, or the catalog splits at the selected one. */
  lemma UpsertedSplits(read: Reader, style: Style, lines: seq<string>, series: string, profile: string, pairs: seq<Pair>)
      returns (x: seq<Piece>, head: Piece, body: seq<Piece>, after: seq<Piece>)
    requires Sensible(read)
    ensures Upserted(read, style, lines, series, profile, pairs).Some? ==>
      Pieces(read, lines, false) == Assembled(x, head, body, after) && SplitsAt(x, head, body, after, series, profile)
  {
    x, head, body, after := [], Head(""), [], [];
    var ps := Pieces(read, lines, false);
    assert lines[0..] == lines && [] + ps == ps;
    if Choose(Blocks(ps, 0, None), series, profile).Some? {
      x, head, body, after := ChosenSplits([], ps, series, profile);
    }
  }
}
