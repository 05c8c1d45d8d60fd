/** Recording one row in the docs-site file: the line spans of its rows, the splice of a new
    text over one of them, and the theorem that the file then reads back as the updated list. */
module SiteUpsert {
  import opened Options
  import opened TomlLines
  import opened SubsetToml
  import opened SubsetParser
  import opened SiteRender
  import opened SiteLines
  import opened SiteRows

  // ---- what a line is to the editor -----------------------------------------------------------

  predicate InHeaderName(c: char) { IsBare(c) || c in "\"'. " }

  datatype HeaderMatch = NoHeader | HeaderLine(double: bool, name: string)

  // The position of the first closing bracket.
  function Closing(s: string): (n: nat)
    ensures n <= |s|
  {
    if s == "" || s[0] == ']' then 0 else 1 + Closing(s[1..])
  }

  function WithoutSpaces(s: string): string {
    if s == "" then "" else (if s[0] == ' ' then "" else [s[0]]) + WithoutSpaces(s[1..])
  }

  predicate TrailsOff(s: string) {
    var tail := LStrip(s);
    tail == "" || (tail[0] == '#' && '\n' !in tail[..|tail| - 1])
  }

  // The header pattern, read from the left; the name it captures, without spaces.
  function MatchHeader(line: string): HeaderMatch {
    var s := LStrip(line);
    if Starts(s, "[[") then MatchBody(true, s[2..])
    else if At(s, '[') then MatchBody(false, s[1..])
    else NoHeader
  }

  function MatchBody(double: bool, body: string): HeaderMatch {
    var n := Closing(body);
    if n == |body| then NoHeader
    else
      var name, after := Strip(body[..n]), body[n + 1..];
      if !(forall i :: 0 <= i < |name| ==> InHeaderName(name[i])) || (name == "" && ' ' !in body[..n]) then NoHeader
      else if TrailsOff(if At(after, ']') then after[1..] else after) then HeaderLine(double, WithoutSpaces(name))
      else NoHeader
  }

  datatype LineKind = SiteStart | OwnTable | OtherTable | Assigns | Inert

  function KindOf(line: string): LineKind {
    var stripped := Strip(line);
    var header := if At(stripped, '[') then MatchHeader(line) else NoHeader;
    if header.HeaderLine? then
      (if header.double && header.name == "site" then SiteStart
       else if Starts(header.name, "site.") then OwnTable
       else OtherTable)
    else if HasEquals(stripped) && !At(stripped, '#') then Assigns
    else Inert
  }

  // ---- the spans of the rows ----------------------------------------------------------------------

  datatype Span = Span(first: int, last: int)

  function Close(start: Option<nat>, last: int): seq<Span> {
    if start.Some? then [Span(start.value, last)] else []
  }

  // What a line is, and where the scan goes on: after the whole value of an assignment, else at
  // the next line.
  datatype Mark = Mark(kind: LineKind, next: nat)

  function MarkOf(lines: seq<string>, idx: nat): (mark: Mark)
    requires idx < |lines|
    ensures idx < mark.next <= |lines|
  {
    if KindOf(lines[idx]) == Assigns then
      StrippedEquals(lines[idx]);
      Mark(Assigns, ValueSpan(lines, idx) + 1)
    else Mark(KindOf(lines[idx]), idx + 1)
  }

  predicate Progress(marks: seq<Mark>) {
    forall i :: 0 <= i < |marks| ==> i < marks[i].next <= |marks|
  }

  function Marks(lines: seq<string>): (marks: seq<Mark>)
    ensures |marks| == |lines| && Progress(marks)
  {
    seq(|lines|, i requires 0 <= i < |lines| => MarkOf(lines, i))
  }

  function BlocksFrom(marks: seq<Mark>, idx: nat, start: Option<nat>): seq<Span>
    requires Progress(marks)
    decreases |marks| - idx
  {
    if idx >= |marks| then Close(start, |marks| - 1)
    else
      var mark := marks[idx];
      if mark.kind == SiteStart then Close(start, idx - 1) + BlocksFrom(marks, mark.next, Some(idx))
      else if mark.kind == OtherTable then Close(start, idx - 1) + BlocksFrom(marks, mark.next, None)
      else BlocksFrom(marks, mark.next, start)
  }

  predicate GapLine(line: string) { Strip(line) == "" || At(LStrip(line), '#') }

  // Trailing blank and comment lines belong to the gap after a row.
  function Trimmed(lines: seq<string>, first: int, last: int): (t: Span)
    requires 0 <= first <= last < |lines|
    ensures t.first == first <= t.last <= last
    decreases last
  {
    if last > first && GapLine(lines[last]) then Trimmed(lines, first, last - 1) else Span(first, last)
  }

  predicate InRange(spans: seq<Span>, n: nat) {
    forall i :: 0 <= i < |spans| ==> 0 <= spans[i].first <= spans[i].last < n
  }

  lemma {:induction false} BlocksInRange(marks: seq<Mark>, idx: nat, start: Option<nat>)
    requires Progress(marks) && (start.Some? ==> start.value < idx <= |marks|)
    ensures InRange(BlocksFrom(marks, idx, start), |marks|)
    decreases |marks| - idx
  {
    if idx < |marks| {
      var next := marks[idx].next;
      BlocksInRange(marks, next, Some(idx));
      BlocksInRange(marks, next, None);
      BlocksInRange(marks, next, start);
    }
  }

  function TrimAll(lines: seq<string>, spans: seq<Span>): (r: seq<Span>)
    requires InRange(spans, |lines|)
    ensures InRange(r, |lines|) && |r| == |spans|
  {
    seq(|spans|, i requires 0 <= i < |spans| => Trimmed(lines, spans[i].first, spans[i].last))
  }

  function RowBlocks(lines: seq<string>): (r: seq<Span>)
    ensures InRange(r, |lines|)
  {
    BlocksInRange(Marks(lines), 0, None);
    TrimAll(lines, BlocksFrom(Marks(lines), 0, None))
  }

  lemma BlocksGoOn(marks: seq<Mark>, idx: nat, start: Option<nat>, done: seq<Span>)
    requires Progress(marks) && idx < |marks|
    ensures var kind := marks[idx].kind;
      done + BlocksFrom(marks, idx, start) ==
        (if kind == SiteStart || kind == OtherTable then done + Close(start, idx - 1) else done)
        + BlocksFrom(marks, marks[idx].next,
                     if kind == SiteStart then Some(idx) else if kind == OtherTable then None else start)
  {
    var next := marks[idx].next;
    if marks[idx].kind == SiteStart {
      assert done + (Close(start, idx - 1) + BlocksFrom(marks, next, Some(idx)))
          == (done + Close(start, idx - 1)) + BlocksFrom(marks, next, Some(idx));
    } else if marks[idx].kind == OtherTable {
      assert done + (Close(start, idx - 1) + BlocksFrom(marks, next, None))
          == (done + Close(start, idx - 1)) + BlocksFrom(marks, next, None);
    }
  }

  method MarkLine(lines: seq<string>, idx: nat) returns (kind: LineKind, next: nat)
    requires idx < |lines|
    ensures Mark(kind, next) == Marks(lines)[idx]
  {
    kind, next := KindOf(lines[idx]), idx + 1;
    if kind == Assigns {
      StrippedEquals(lines[idx]);
      var last := FindValueSpan(lines, idx);
      next := last + 1;
    }
  }

  method ScanBlocks(lines: seq<string>) returns (blocks: seq<Span>)
    ensures blocks == BlocksFrom(Marks(lines), 0, None)
  {
    blocks := [];
    var start: Option<nat> := None;
    var idx := 0;
    while idx < |lines|
      invariant blocks + BlocksFrom(Marks(lines), idx, start) == BlocksFrom(Marks(lines), 0, None)
      decreases |lines| - idx
    {
      var kind, next := MarkLine(lines, idx);
      BlocksGoOn(Marks(lines), idx, start, blocks);
      if kind == SiteStart || kind == OtherTable {
        blocks := blocks + Close(start, idx - 1);
        start := if kind == SiteStart then Some(idx) else None;
      }
      idx := next;
    }
    blocks := blocks + Close(start, |lines| - 1);
  }

  method TrimBlock(lines: seq<string>, block: Span) returns (t: Span)
    requires 0 <= block.first <= block.last < |lines|
    ensures t == Trimmed(lines, block.first, block.last)
  {
    var first, last := block.first, block.last;
    while last > first && GapLine(lines[last])
      invariant first <= last < |lines| && Trimmed(lines, first, last) == Trimmed(lines, first, block.last)
    {
      last := last - 1;
    }
    return Span(first, last);
  }

  method FindRowBlocks(lines: seq<string>) returns (trimmed: seq<Span>)
    ensures trimmed == RowBlocks(lines)
  {
    var blocks := ScanBlocks(lines);
    BlocksInRange(Marks(lines), 0, None);
    trimmed := [];
    for b := 0 to |blocks|
      invariant trimmed == TrimAll(lines, blocks)[..b]
    {
      var t := TrimBlock(lines, blocks[b]);
      trimmed := trimmed + [t];
    }
  }

  // ---- the splice -----------------------------------------------------------------------------------

  datatype Upsert = Upserted(lines: seq<string>, replaced: bool) | Unreadable(why: Problem)

  // The key of the first row of a parsed text.
  function FirstKey(root: Entries): Option<Value> {
    if "site" in root && root["site"].Arr? then
      var rows := Tables(root["site"].items);
      if rows != [] && "key" in rows[0].entries then Some(rows[0].entries["key"]) else None
    else None
  }

  function Tables(items: seq<Value>): (r: seq<Value>)
    ensures forall v <- r :: v.Table?
  {
    if items == [] then [] else (if items[0].Table? then [items[0]] else []) + Tables(items[1..])
  }

  function RenderedLines(row: SiteRow): seq<string> { SplitLines(RenderRow(row)) }

  // What a block read on its own says its key is.
  datatype BlockKey = Keyed(key: Option<Value>) | Unparsed(why: Problem)

  function KeyOfBlock(text: string): BlockKey {
    var parsed := Loads(text);
    if parsed.Failed? then Unparsed(parsed.why) else Keyed(FirstKey(parsed.root))
  }

  function KeysBy(read: string -> BlockKey, lines: seq<string>, spans: seq<Span>): (keys: seq<BlockKey>)
    requires InRange(spans, |lines|)
    ensures |keys| == |spans|
  {
    seq(|spans|, i requires 0 <= i < |spans| => read(Join(lines[spans[i].first..spans[i].last + 1])))
  }

  function BlockKeys(lines: seq<string>, spans: seq<Span>): (keys: seq<BlockKey>)
    requires InRange(spans, |lines|)
    ensures |keys| == |spans|
  {
    KeysBy(KeyOfBlock, lines, spans)
  }

  // The first block of that key is replaced; a file without one gets the new lines appended.
  function UpsertAt(lines: seq<string>, spans: seq<Span>, keys: seq<BlockKey>, key: string, written: seq<string>): Upsert
    requires InRange(spans, |lines|) && |keys| == |spans|
  {
    if spans == [] then Upserted(BlankEnded(lines) + written, false)
    else if keys[0].Unparsed? then Unreadable(keys[0].why)
    else if keys[0].key == Some(Str(key)) then
      Upserted(lines[..spans[0].first] + written + lines[spans[0].last + 1..], true)
    else UpsertAt(lines, spans[1..], keys[1..], key, written)
  }

  // A blank line before an appended row.
  function BlankEnded(lines: seq<string>): seq<string> {
    if lines != [] && Strip(lines[|lines| - 1]) != "" then lines + ["\n"] else lines
  }

  function UpsertLines(lines: seq<string>, row: SiteRow): Upsert {
    UpsertAt(lines, RowBlocks(lines), BlockKeys(lines, RowBlocks(lines)), row.key, RenderedLines(row))
  }

  method ReadBlockKey(lines: seq<string>, spans: seq<Span>, i: nat) returns (k: BlockKey)
    requires InRange(spans, |lines|) && i < |spans|
    ensures k == BlockKeys(lines, spans)[i]
  {
    var parsed := LoadsSubset(Join(lines[spans[i].first..spans[i].last + 1]));
    return if parsed.Failed? then Unparsed(parsed.why) else Keyed(FirstKey(parsed.root));
  }

  lemma UpsertStep(lines: seq<string>, spans: seq<Span>, keys: seq<BlockKey>, i: nat, key: string, written: seq<string>)
    requires InRange(spans, |lines|) && |keys| == |spans| && i < |spans|
    ensures UpsertAt(lines, spans[i..], keys[i..], key, written) ==
      if keys[i].Unparsed? then Unreadable(keys[i].why)
      else if keys[i].key == Some(Str(key)) then
        Upserted(lines[..spans[i].first] + written + lines[spans[i].last + 1..], true)
      else UpsertAt(lines, spans[i + 1..], keys[i + 1..], key, written)
  {
    assert spans[i..][1..] == spans[i + 1..] && keys[i..][1..] == keys[i + 1..];
  }

  method Splice(lines: seq<string>, spans: seq<Span>, key: string, written: seq<string>) returns (r: Upsert)
    requires InRange(spans, |lines|)
    ensures r == UpsertAt(lines, spans, BlockKeys(lines, spans), key, written)
  {
    ghost var keys := BlockKeys(lines, spans);
    for i := 0 to |spans|
      invariant UpsertAt(lines, spans[i..], keys[i..], key, written) == UpsertAt(lines, spans, keys, key, written)
    {
      var k := ReadBlockKey(lines, spans, i);
      UpsertStep(lines, spans, keys, i, key, written);
      if k.Unparsed? {
        return Unreadable(k.why);
      }
      if k.key == Some(Str(key)) {
        return Upserted(lines[..spans[i].first] + written + lines[spans[i].last + 1..], true);
      }
    }
    return Upserted(BlankEnded(lines) + written, false);
  }

  method UpsertText(text: string, row: SiteRow) returns (r: Upsert)
    ensures r == UpsertLines(LinesOf(text), row)
  {
    var lines := LinesOf(text);
    var spans := FindRowBlocks(lines);
    r := Splice(lines, spans, row.key, RenderedLines(row));
  }
}
