/** Recording keys on one instance block of the catalog: the blocks of the file, and the edit as it
    is carried out - insert after the last assignment, then replace spans from the bottom up. */
module CatalogUpsert {
  import opened Options
  import opened TomlLines
  import SiteRender
  import SiteKinds

  type Written = SiteRender.Written

  /** One key to record; its value is a string or an array of strings. */
  datatype Pair = Pair(key: string, value: Written)

  predicate Recordable(pair: Pair) {
    SiteRender.BareKey(pair.key) && (pair.value.Text? || pair.value.List?)
  }

  // ---- the file in pieces -------------------------------------------------------------------

  // The header of an instance, the header of another table, an assignment and the lines of its
  // value, or any other line.
  datatype Piece = Head(line: string) | Shut(line: string) | Inert(line: string)
    | Set(key: string, val: string, span: seq<string>)

  function LinesIn(p: Piece): seq<string> { if p.Set? then p.span else [p.line] }

  function Flat(ps: seq<Piece>): seq<string> {
    if ps == [] then [] else LinesIn(ps[0]) + Flat(ps[1..])
  }

  predicate Opens(s: string, c: char) { s != "" && s[0] == c }

  function BeforeEquals(s: string): string
    requires HasEquals(s)
  {
    if s[0] == '=' then "" else [s[0]] + BeforeEquals(s[1..])
  }

  function BeforeHash(s: string): string {
    if s == "" || s[0] == '#' then "" else [s[0]] + BeforeHash(s[1..])
  }

  function TrimLeft(s: string, c: char): string { if Opens(s, c) then TrimLeft(s[1..], c) else s }

  function TrimRight(s: string, c: char): string {
    if s != "" && s[|s| - 1] == c then TrimRight(s[..|s| - 1], c) else s
  }

  function Trim(s: string, c: char): string { TrimRight(TrimLeft(s, c), c) }

  predicate IsHead(line: string) { Strip(line) == "[[instance]]" }

  predicate IsTable(line: string) { Opens(Strip(line), '[') }

  predicate IsAssignment(line: string) {
    HasEquals(Strip(line)) && !Opens(Strip(line), '#') && !IsTable(line)
  }

  function KeyOf(line: string): string {
    if HasEquals(Strip(line)) then Strip(BeforeEquals(Strip(line))) else ""
  }

  function ValueOf(line: string): string {
    if HasEquals(Strip(line)) then Trim(Trim(Strip(BeforeHash(AfterEquals(Strip(line)))), '"'), '\'') else ""
  }

  // How many lines the assignment at the front spans.
  function SpanCount(lines: seq<string>): (n: nat)
    requires lines != [] && IsAssignment(lines[0])
    ensures 1 <= n <= |lines|
  {
    StrippedEquals(lines[0]);
    ValueSpan(lines, 0) + 1
  }

  // What the lines at the front begin.
  function FirstPiece(lines: seq<string>, inBlock: bool): (p: Piece)
    ensures lines != [] ==> LinesIn(p) != [] && LinesIn(p) <= lines && (p.Set? ==> inBlock)
  {
    if lines == [] then Inert("")
    else if IsHead(lines[0]) then Head(lines[0])
    else if IsTable(lines[0]) then Shut(lines[0])
    else if inBlock && IsAssignment(lines[0]) then
      Set(KeyOf(lines[0]), ValueOf(lines[0]), lines[..SpanCount(lines)])
    else Inert(lines[0])
  }

  type Reader = (seq<string>, bool) -> Piece

  // The piece read takes lines off the front, and assignments are read inside a block only.
  predicate ReadsWell(read: Reader, lines: seq<string>, inBlock: bool) {
    var p := read(lines, inBlock);
    LinesIn(p) != [] && LinesIn(p) <= lines && (p.Set? ==> inBlock)
  }

  ghost predicate Sensible(read: Reader) {
    forall lines: seq<string>, inBlock: bool :: lines != [] ==> ReadsWell(read, lines, inBlock)
  }

  lemma FirstPieceSensible()
    ensures Sensible(FirstPiece)
  {
  }

  predicate Inside(p: Piece, inBlock: bool) { p.Head? || (inBlock && !p.Shut?) }

  function Pieces(read: Reader, lines: seq<string>, inBlock: bool): seq<Piece>
    requires Sensible(read)
    decreases |lines|
  {
    if lines == [] then []
    else
      assert ReadsWell(read, lines, inBlock);
      var p := read(lines, inBlock);
      [p] + Pieces(read, lines[|LinesIn(p)|..], Inside(p, inBlock))
  }

  // ---- the blocks ----------------------------------------------------------------------------

  datatype KeySpan = KeySpan(key: string, first: nat, last: nat)

  datatype Block = Block(series: string, profile: string, lastKv: nat, keys: seq<KeySpan>)

  predicate Knows(keys: seq<KeySpan>, key: string) {
    exists i :: 0 <= i < |keys| && keys[i].key == key
  }

  // The block after an assignment at line `at`.
  function Noted(b: Block, p: Piece, at: nat): Block
    requires p.Set? && p.span != []
  {
    var last := at + |p.span| - 1;
    Block(if p.key == "series" then p.val else b.series,
          if p.key == "profile" then p.val else b.profile,
          last,
          if Knows(b.keys, p.key) then b.keys else b.keys + [KeySpan(p.key, at, last)])
  }

  function Ended(cur: Option<Block>): seq<Block> { if cur.Some? then [cur.value] else [] }

  function NextBlock(p: Piece, at: nat, cur: Option<Block>): Option<Block> {
    match p
    case Head(_) => Some(Block("", "", at, []))
    case Shut(_) => None
    case Inert(_) => cur
    case Set(_, _, span) => if cur.Some? && span != [] then Some(Noted(cur.value, p, at)) else cur
  }

  // A header ends the block before it.
  function EndedBy(p: Piece, cur: Option<Block>): seq<Block> { if p.Head? || p.Shut? then Ended(cur) else [] }

  function Blocks(ps: seq<Piece>, at: nat, cur: Option<Block>): seq<Block> {
    if ps == [] then Ended(cur)
    else EndedBy(ps[0], cur) + Blocks(ps[1..], at + |LinesIn(ps[0])|, NextBlock(ps[0], at, cur))
  }

  lemma PiecesFrom(read: Reader, lines: seq<string>, idx: nat, inBlock: bool)
    requires Sensible(read) && idx < |lines|
    ensures var p := read(lines[idx..], inBlock);
      && LinesIn(p) != [] && idx + |LinesIn(p)| <= |lines|
      && Pieces(read, lines[idx..], inBlock) == [p] + Pieces(read, lines[idx + |LinesIn(p)|..], Inside(p, inBlock))
  {
    assert ReadsWell(read, lines[idx..], inBlock);
    var n := |LinesIn(read(lines[idx..], inBlock))|;
    assert lines[idx..][n..] == lines[idx + n..];
  }

  lemma InsideIs(p: Piece, at: nat, cur: Option<Block>)
    requires p.Set? ==> cur.Some? && p.span != []
    ensures NextBlock(p, at, cur).Some? == Inside(p, cur.Some?)
  {
  }

  function BlocksAt(read: Reader, lines: seq<string>, idx: nat, cur: Option<Block>): seq<Block>
    requires Sensible(read) && idx <= |lines|
  {
    Blocks(Pieces(read, lines[idx..], cur.Some?), idx, cur)
  }

  lemma BlocksFirst(p: Piece, rest: seq<Piece>, at: nat, cur: Option<Block>)
    ensures Blocks([p] + rest, at, cur) == EndedBy(p, cur) + Blocks(rest, at + |LinesIn(p)|, NextBlock(p, at, cur))
  {
    assert ([p] + rest)[1..] == rest;
  }

  lemma BlocksAtIs(read: Reader, lines: seq<string>, idx: nat, cur: Option<Block>, ps: seq<Piece>)
    requires Sensible(read) && idx <= |lines| && ps == Pieces(read, lines[idx..], cur.Some?)
    ensures BlocksAt(read, lines, idx, cur) == Blocks(ps, idx, cur)
  {
  }

  // The blocks with one piece read: those it ends, and those of what is left.
  lemma BlocksNext(p: Piece, rest: seq<Piece>, idx: nat, cur: Option<Block>, cur': Option<Block>, done: seq<Block>,
                   all: seq<Block>, more: seq<Block>)
    requires cur' == NextBlock(p, idx, cur)
    requires all == Blocks([p] + rest, idx, cur) && more == Blocks(rest, idx + |LinesIn(p)|, cur')
    ensures done + all == (done + EndedBy(p, cur)) + more
  {
    BlocksFirst(p, rest, idx, cur);
    SeqAssociates(done, EndedBy(p, cur), more);
  }

  lemma ScanStep(read: Reader, lines: seq<string>, idx: nat, p: Piece, cur: Option<Block>, cur': Option<Block>, done: seq<Block>)
    requires Sensible(read) && idx < |lines| && p == read(lines[idx..], cur.Some?) && cur' == NextBlock(p, idx, cur)
    ensures idx < idx + |LinesIn(p)| <= |lines|
    ensures done + BlocksAt(read, lines, idx, cur)
         == (done + EndedBy(p, cur)) + BlocksAt(read, lines, idx + |LinesIn(p)|, cur')
  {
    assert ReadsWell(read, lines[idx..], cur.Some?);
    PiecesFrom(read, lines, idx, cur.Some?);
    InsideIs(p, idx, cur);
    var next := idx + |LinesIn(p)|;
    var rest := Pieces(read, lines[next..], cur'.Some?);
    BlocksAtIs(read, lines, idx, cur, [p] + rest);
    BlocksAtIs(read, lines, next, cur', rest);
    BlocksNext(p, rest, idx, cur, cur', done, BlocksAt(read, lines, idx, cur), BlocksAt(read, lines, next, cur'));
  }

  lemma SeqAssociates<T>(a: seq<T>, b: seq<T>, c: seq<T>)
    ensures a + (b + c) == (a + b) + c
  {
  }

  lemma NothingLeft(read: Reader, lines: seq<string>, cur: Option<Block>, done: seq<Block>)
    requires Sensible(read)
    ensures done + BlocksAt(read, lines, |lines|, cur) == done + Ended(cur)
  {
    assert lines[|lines|..] == [];
  }

  method ScanBlocks(read: Reader, lines: seq<string>) returns (blocks: seq<Block>)
    requires Sensible(read)
    ensures blocks == BlocksAt(read, lines, 0, None)
  {
    blocks := [];
    var cur: Option<Block> := None;
    var idx := 0;
    while idx < |lines|
      invariant idx <= |lines|
      invariant blocks + BlocksAt(read, lines, idx, cur) == BlocksAt(read, lines, 0, None)
    {
      var p := read(lines[idx..], cur.Some?);
      ScanStep(read, lines, idx, p, cur, NextBlock(p, idx, cur), blocks);
      if (p.Head? || p.Shut?) && cur.Some? {
        blocks := blocks + [cur.value];
      } else {
        assert blocks + [] == blocks;
      }
      cur := NextBlock(p, idx, cur);
      idx := idx + |LinesIn(p)|;
    }
    NothingLeft(read, lines, cur, blocks);
    if cur.Some? {
      blocks := blocks + [cur.value];
    }
  }

  /** The instance blocks of a catalog. */
  function InstanceBlocks(lines: seq<string>): seq<Block> {
    FirstPieceSensible();
    BlocksAt(FirstPiece, lines, 0, None)
  }

  method ScanInstanceBlocks(lines: seq<string>) returns (blocks: seq<Block>)
    ensures blocks == InstanceBlocks(lines)
  {
    FirstPieceSensible();
    blocks := ScanBlocks(FirstPiece, lines);
  }

  // The block a series and a profile select; an empty profile selects the block without one.
  function Choose(blocks: seq<Block>, series: string, profile: string): Option<Block> {
    if blocks == [] then None
    else if blocks[0].series == series && blocks[0].profile == profile then Some(blocks[0])
    else Choose(blocks[1..], series, profile)
  }

  // ---- the edit, step by step ---------------------------------------------------------------------

  datatype Replacement = Replacement(first: nat, last: nat, line: string)

  function Indent(line: string): string { line[..|line| - |LStrip(line)|] }

  function Rendered(pair: Pair): string { SiteRender.Show(pair.value) }

  function NewLine(indent: string, pair: Pair, comment: string): string {
    indent + pair.key + " = " + Rendered(pair) + comment + "\n"
  }

  // The comment after the value, else the one on its first line.
  function KeptComment(span: seq<string>): string {
    var head := if span != [] && HasEquals(span[0]) then InlineComment(AfterEquals(span[0])) else "";
    if |span| <= 1 then head
    else
      var tail := InlineComment(span[|span| - 1]);
      if tail != "" then tail else head
  }

  function ReplacedLine(span: seq<string>, pair: Pair): string {
    NewLine(if span == [] then "" else Indent(span[0]), pair, KeptComment(span))
  }

  // An assignment on a line of its own.
  function AsSet(line: string): Piece { Set(KeyOf(line), ValueOf(line), [line]) }

  // How an assignment is rewritten, and what a line of its own reads as.
  datatype Style = Style(rewrite: (seq<string>, Pair) -> string, piece: string -> Piece)

  // What a line of its own reads as inside a block: nothing, or an assignment.
  function AsLine(line: string): Piece { if LStrip(line) == "" then Inert(line) else AsSet(line) }

  const STYLE: Style := Style(ReplacedLine, AsLine)

  function FindKey(keys: seq<KeySpan>, key: string): Option<KeySpan> {
    if keys == [] then None else if keys[0].key == key then Some(keys[0]) else FindKey(keys[1..], key)
  }

  predicate Within(b: Block, n: nat) {
    && b.lastKv < n
    && forall i :: 0 <= i < |b.keys| ==> b.keys[i].first <= b.keys[i].last <= b.lastKv
  }

  function Replacements(style: Style, lines: seq<string>, b: Block, pairs: seq<Pair>): seq<Replacement>
    requires Within(b, |lines|)
  {
    if pairs == [] then []
    else
      var k := FindKey(b.keys, pairs[|pairs| - 1].key);
      FindKeyIn(b.keys, pairs[|pairs| - 1].key);
      Replacements(style, lines, b, pairs[..|pairs| - 1]) +
      if k.None? then []
      else [Replacement(k.value.first, k.value.last,
                        style.rewrite(lines[k.value.first..k.value.last + 1], pairs[|pairs| - 1]))]
  }

  lemma {:induction false} FindKeyIn(keys: seq<KeySpan>, key: string)
    ensures var k := FindKey(keys, key); k.Some? ==> k.value in keys && k.value.key == key
    ensures FindKey(keys, key).None? <==> !Knows(keys, key)
  {
    if keys != [] {
      FindKeyIn(keys[1..], key);
      if keys[0].key != key {
        if i :| 0 <= i < |keys| && keys[i].key == key {
          assert keys[1..][i - 1].key == key;
        }
        if j :| 0 <= j < |keys| - 1 && keys[1..][j].key == key {
          assert keys[j + 1].key == key;
        }
      }
    }
  }

  // The indentation of the block's last assignment.
  function BlockIndent(lines: seq<string>, b: Block): string
    requires Within(b, |lines|)
  {
    if b.keys == [] then "" else Indent(lines[b.lastKv])
  }

  function Insertions(indent: string, b: Block, pairs: seq<Pair>): seq<string> {
    if pairs == [] then []
    else
      Insertions(indent, b, pairs[..|pairs| - 1]) +
      if Knows(b.keys, pairs[|pairs| - 1].key) then [] else [NewLine(indent, pairs[|pairs| - 1], "")]
  }

  predicate LexLess(a: string, b: string) {
    b != "" && (a == "" || a[0] < b[0] || (a[0] == b[0] && LexLess(a[1..], b[1..])))
  }

  // Tuples in descending order.
  predicate Above(a: Replacement, b: Replacement) {
    a.first > b.first || (a.first == b.first && (a.last > b.last || (a.last == b.last && LexLess(b.line, a.line))))
  }

  function InsertDown(r: Replacement, sorted: seq<Replacement>): seq<Replacement> {
    if sorted == [] || Above(r, sorted[0]) then [r] + sorted else [sorted[0]] + InsertDown(r, sorted[1..])
  }

  function SortDown(rs: seq<Replacement>): seq<Replacement> {
    if rs == [] then [] else InsertDown(rs[|rs| - 1], SortDown(rs[..|rs| - 1]))
  }

  // `out[first:last + 1] = [line]`, bounds clipped to the list.
  function ReplaceAt(out: seq<string>, r: Replacement): seq<string> {
    out[..if r.first < |out| then r.first else |out|] + [r.line]
    + out[if r.first <= r.last < |out| then r.last + 1 else |out|..]
  }

  function ReplaceAll(out: seq<string>, rs: seq<Replacement>): seq<string>
    decreases |rs|
  {
    if rs == [] then out else ReplaceAll(ReplaceAt(out, rs[0]), rs[1..])
  }

  /** The edit as it is carried out: insert after the last assignment, then replace spans from
      the bottom up. */
  function Sequential(style: Style, lines: seq<string>, b: Block, pairs: seq<Pair>): seq<string>
    requires Within(b, |lines|)
  {
    ReplaceAll(lines[..b.lastKv + 1] + Insertions(BlockIndent(lines, b), b, pairs) + lines[b.lastKv + 1..],
               SortDown(Replacements(style, lines, b, pairs)))
  }

  method CollectEdits(style: Style, lines: seq<string>, b: Block, pairs: seq<Pair>)
    returns (replacements: seq<Replacement>, inserted: seq<string>)
    requires Within(b, |lines|)
    ensures replacements == Replacements(style, lines, b, pairs) && inserted == Insertions(BlockIndent(lines, b), b, pairs)
  {
    var indent := BlockIndent(lines, b);
    replacements, inserted := [], [];
    for i := 0 to |pairs|
      invariant replacements == Replacements(style, lines, b, pairs[..i])
      invariant inserted == Insertions(indent, b, pairs[..i])
    {
      assert pairs[..i + 1][..i] == pairs[..i];
      var pair := pairs[i];
      var k := FindKey(b.keys, pair.key);
      FindKeyIn(b.keys, pair.key);
      if k.Some? {
        var first, last := k.value.first, k.value.last;
        replacements := replacements + [Replacement(first, last, style.rewrite(lines[first..last + 1], pair))];
      } else {
        inserted := inserted + [NewLine(indent, pair, "")];
      }
    }
    assert pairs[..|pairs|] == pairs;
  }

  method EditBlock(style: Style, lines: seq<string>, b: Block, pairs: seq<Pair>) returns (out: seq<string>)
    requires Within(b, |lines|)
    ensures out == Sequential(style, lines, b, pairs)
  {
    var replacements, inserted := CollectEdits(style, lines, b, pairs);
    out := lines[..b.lastKv + 1] + inserted + lines[b.lastKv + 1..];
    var sorted := SortDown(replacements);
    for i := 0 to |sorted|
      invariant ReplaceAll(out, sorted[i..]) == Sequential(style, lines, b, pairs)
    {
      assert sorted[i..][0] == sorted[i] && sorted[i..][1..] == sorted[i + 1..];
      out := ReplaceAt(out, sorted[i]);
    }
  }
}
