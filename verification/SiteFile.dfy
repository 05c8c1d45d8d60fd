/** A docs-site file of written rows between blank and comment lines: the spans the editor finds
    are exactly the lines of its rows, and the file reads as the list of them. */
module SiteFile {
  import opened Options
  import opened TomlLines
  import opened SubsetToml
  import opened SiteRender
  import opened SiteLines
  import opened SiteRows
  import opened SiteUpsert
  import opened SiteKinds

  function ShownLines(lines: seq<Line>): (r: seq<string>)
    ensures |r| == |lines|
  {
    seq(|lines|, i requires 0 <= i < |lines| => ShowLine(lines[i]) + "\n")
  }

  /** A valid row whose written text has no line break but the newlines between its lines. */
  predicate Recordable(row: SiteRow) {
    && Shaped(row) && CleanRow(row)
    && (forall i :: 0 <= i < |row.series| ==> Versioned(row.series[i].name))
    && (forall line <- ShownLines(RowLines(row)) :: OneLine(line))
  }

  // ---- the text of a row, line by line ----------------------------------------------------------

  lemma {:induction false} ShownText(lines: seq<Line>)
    ensures Join(ShownLines(lines)) == TextOf(lines)
  {
    if lines != [] {
      ShownText(lines[1..]);
      ShownFirst(lines);
      JoinsFirst(ShowLine(lines[0]) + "\n", ShownLines(lines[1..]));
    }
  }

  lemma ShownFirst(lines: seq<Line>)
    requires lines != []
    ensures ShownLines(lines) == [ShowLine(lines[0]) + "\n"] + ShownLines(lines[1..])
  {
    assert ShownLines(lines)[1..] == ShownLines(lines[1..]);
  }

  lemma JoinsFirst(line: string, rest: seq<string>)
    ensures Join([line] + rest) == line + Join(rest)
  {
    assert ([line] + rest)[1..] == rest;
  }

  lemma RowTextLines(row: SiteRow)
    requires Recordable(row)
    ensures Join(ShownLines(RowLines(row))) == RenderRow(row)
    ensures RenderedLines(row) == ShownLines(RowLines(row))
  {
    ShownText(RowLines(row));
    SplitJoin(ShownLines(RowLines(row)));
  }

  // ---- the kinds of a row's lines -----------------------------------------------------------------

  predicate InnerLine(line: string) {
    KindOf(line) == OwnTable || KindOf(line) == Inert || (KindOf(line) == Assigns && SelfContained(line))
  }

  predicate Inner(line: Line) {
    match line
    case SiteHeader => false
    case SeriesHeader(series) => Versioned(series)
    case Entry(name, w) => BareKey(name) && Clean(w)
    case _ => true
  }

  lemma InnerKind(line: Line)
    requires Inner(line)
    ensures InnerLine(ShowLine(line) + "\n")
  {
    match line
    case Blank => GapIsInert("\n");
    case SeriesHeader(series) => SeriesKind(series);
    case PolicyHeader => PolicyKind();
    case Entry(name, w) =>
      EntryKind(name, w);
      EntrySelfContained(name, w);
  }

  predicate AllInner(lines: seq<Line>) { forall i :: 0 <= i < |lines| ==> Inner(lines[i]) }

  lemma InnerFields(fields: seq<Field>, table: Entries)
    requires Fresh(fields, table) && CleanFields(fields)
    ensures AllInner(FieldLines(fields))
  {
  }

  lemma {:induction false} InnerSeries(series: seq<NamedSeries>)
    requires CleanNamed(series) && forall i :: 0 <= i < |series| ==> Versioned(series[i].name)
    ensures AllInner(SeriesLines(series))
  {
    if series != [] {
      assert series[0] in series;
      CleanSeriesFields(series[0].series);
      SeriesFieldsFill(series[0].series);
      InnerFields(SeriesFields(series[0].series), map[]);
      InnerSeries(series[1..]);
    }
  }

  lemma InnerHead(row: SiteRow)
    requires CleanRow(row)
    ensures AllInner(FieldLines(HeadFields(row)))
  {
    CleanHead(row);
    HeadFieldsFill(row);
    InnerFields(HeadFields(row), map[]);
  }

  lemma InnerPolicy(keys: seq<string>, policy: map<string, Written>)
    requires ShapedPolicy(keys, policy) && forall n <- policy :: n in keys && Clean(policy[n])
    ensures AllInner(FieldLines(PolicyFields(keys, policy)))
  {
    CleanPolicyFields(keys, policy);
    SettingsFill(keys, policy);
    InnerFields(PolicyFields(keys, policy), map[]);
  }

  lemma InnerConcat(a: seq<Line>, b: seq<Line>)
    requires AllInner(a) && AllInner(b)
    ensures AllInner(a + b)
  {
  }

  lemma InnerRow(row: SiteRow)
    requires Recordable(row)
    ensures RowLines(row)[0] == SiteHeader && AllInner(RowLines(row)[1..])
  {
    var a, b, c := FieldLines(HeadFields(row)), SeriesLines(row.series), FieldLines(PolicyFields(POLICY_KEYS, row.policy));
    InnerHead(row);
    InnerSeries(row.series);
    PolicyKeysShaped(POLICY_KEYS, row.policy);
    InnerPolicy(POLICY_KEYS, row.policy);
    InnerConcat(a, b);
    InnerConcat([Blank, PolicyHeader], c);
    InnerConcat(a + b, [Blank, PolicyHeader] + c);
    HeadThenRest(row);
  }

  lemma HeadThenRest(row: SiteRow)
    ensures RowLines(row)[0] == SiteHeader
    ensures RowLines(row)[1..] == (FieldLines(HeadFields(row)) + SeriesLines(row.series))
      + ([Blank, PolicyHeader] + FieldLines(PolicyFields(POLICY_KEYS, row.policy)))
  {
    FirstThenRest(SiteHeader, FieldLines(HeadFields(row)), SeriesLines(row.series), [Blank, PolicyHeader],
                  FieldLines(PolicyFields(POLICY_KEYS, row.policy)));
  }

  lemma FirstThenRest<T>(x: T, a: seq<T>, b: seq<T>, c: seq<T>, d: seq<T>)
    ensures ([x] + a + b + c + d)[0] == x && ([x] + a + b + c + d)[1..] == (a + b) + (c + d)
  {
  }

  lemma LastLine(row: SiteRow)
    ensures var last := RowLines(row)[|RowLines(row)| - 1]; last.PolicyHeader? || last.Entry?
  {
    var fields := FieldLines(PolicyFields(POLICY_KEYS, row.policy));
    RowParts(row);
    if fields == [] {
      assert RowLines(row)[|RowLines(row)| - 1] == PolicyHeader;
    } else {
      assert RowLines(row)[|RowLines(row)| - 1] == fields[|fields| - 1];
    }
  }

  // The lines of one row: a row header, then lines that belong to it, the last one not a gap.
  predicate RowShape(lines: seq<string>) {
    && lines != [] && KindOf(lines[0]) == SiteStart
    && (forall i :: 1 <= i < |lines| ==> InnerLine(lines[i]))
    && !GapLine(lines[|lines| - 1])
  }

  lemma NotGap(line: Line)
    requires line.PolicyHeader? || (line.Entry? && BareKey(line.name))
    ensures !GapLine(ShowLine(line) + "\n")
  {
    var s := ShowLine(line) + "\n";
    if line.Entry? {
      assert s[0] == line.name[0] && line.name[0] in line.name;
    }
    StripOf(s);
  }

  lemma RowHasShape(row: SiteRow)
    requires Recordable(row)
    ensures RowShape(ShownLines(RowLines(row)))
  {
    var lines := RowLines(row);
    InnerRow(row);
    SiteKind();
    forall i | 1 <= i < |lines| ensures InnerLine(ShownLines(lines)[i]) {
      assert lines[i] == lines[1..][i - 1];
      InnerKind(lines[i]);
    }
    LastLine(row);
    LastIsInner(lines);
    NotGap(lines[|lines| - 1]);
  }

  lemma LastIsInner(lines: seq<Line>)
    requires lines != [] && lines[0] == SiteHeader && AllInner(lines[1..])
    ensures var last := lines[|lines| - 1]; last == SiteHeader || Inner(last)
  {
    if |lines| > 1 {
      assert lines[|lines| - 1] == lines[1..][|lines| - 2];
    }
  }

  // ---- the spans of a file's rows -----------------------------------------------------------------

  datatype Item = Row(row: SiteRow) | Gap(line: string)

  // What the editor needs of an item: its key if it is a row, and its lines.
  datatype Chunk = Chunk(key: Option<string>, lines: seq<string>)

  function ChunkOf(item: Item): Chunk {
    match item
    case Row(row) => Chunk(Some(row.key), ShownLines(RowLines(row)))
    case Gap(line) => Chunk(None, [line])
  }

  function Chunks(items: seq<Item>): (r: seq<Chunk>)
    ensures |r| == |items|
  {
    seq(|items|, i requires 0 <= i < |items| => ChunkOf(items[i]))
  }

  function Flat(chunks: seq<Chunk>): seq<string> {
    if chunks == [] then [] else chunks[0].lines + Flat(chunks[1..])
  }

  function FileLines(items: seq<Item>): seq<string> { Flat(Chunks(items)) }

  predicate TidyItem(item: Item) {
    match item
    case Row(row) => Recordable(row)
    case Gap(line) => IsGap(line)
  }

  function RowsOf(items: seq<Item>): seq<SiteRow> {
    if items == [] then []
    else (if items[0].Row? then [items[0].row] else []) + RowsOf(items[1..])
  }

  predicate HasKey(items: seq<Item>, key: string) {
    exists i :: 0 <= i < |items| && items[i].Row? && items[i].row.key == key
  }

  // A mark that begins no block, ends none, and goes on at the next line.
  predicate InnerMark(marks: seq<Mark>, i: nat)
    requires i < |marks|
  {
    marks[i].next == i + 1 && marks[i].kind != SiteStart && marks[i].kind != OtherTable
  }

  lemma InnerMarked(lines: seq<string>, i: nat)
    requires i < |lines| && InnerLine(lines[i])
    ensures InnerMark(Marks(lines), i)
  {
  }

  lemma {:induction false} InnerSkipped(marks: seq<Mark>, i: nat, k: nat, start: Option<nat>)
    requires Progress(marks) && i <= k <= |marks| && forall j :: i <= j < k ==> InnerMark(marks, j)
    ensures BlocksFrom(marks, i, start) == BlocksFrom(marks, k, start)
    decreases k - i
  {
    if i < k {
      assert InnerMark(marks, i);
      InnerSkipped(marks, i + 1, k, start);
    }
  }

  lemma {:induction false} TrimsBack(lines: seq<string>, span: Span, last: int)
    requires 0 <= span.first <= span.last <= last < |lines|
    requires forall j :: span.last < j <= last ==> GapLine(lines[j])
    requires !GapLine(lines[span.last])
    ensures Trimmed(lines, span.first, last) == span
    decreases last
  {
    if span.last < last {
      TrimsBack(lines, span, last - 1);
    }
  }

  lemma TrimCons(lines: seq<string>, first: Span, rest: seq<Span>)
    requires 0 <= first.first <= first.last < |lines| && InRange(rest, |lines|)
    ensures InRange([first] + rest, |lines|)
    ensures TrimAll(lines, [first] + rest) == [Trimmed(lines, first.first, first.last)] + TrimAll(lines, rest)
  {
    var all := [first] + rest;
    forall i | 0 <= i < |all|
      ensures 0 <= all[i].first <= all[i].last < |lines|
        && TrimAll(lines, all)[i] == ([Trimmed(lines, first.first, first.last)] + TrimAll(lines, rest))[i]
    {
      if i > 0 {
        assert all[i] == rest[i - 1];
      }
    }
  }

  // The row last begun: its exact lines, then only gaps up to `at`.
  predicate Begun(lines: seq<string>, row: Option<Span>, at: nat) {
    row.Some? ==>
      && 0 <= row.value.first <= row.value.last < at <= |lines|
      && !GapLine(lines[row.value.last])
      && (forall j :: row.value.last < j < at ==> GapLine(lines[j]))
  }

  function FirstOf(row: Option<Span>): Option<nat>
    requires row.Some? ==> row.value.first >= 0
  {
    if row.Some? then Some(row.value.first) else None
  }

  function Finished(row: Option<Span>): seq<Span> { if row.Some? then [row.value] else [] }

  lemma ClosesBegun(lines: seq<string>, row: Option<Span>, at: nat, rest: seq<Span>)
    requires Begun(lines, row, at) && at <= |lines| && InRange(rest, |lines|)
    ensures var spans := Close(FirstOf(row), at - 1) + rest;
      InRange(spans, |lines|) && TrimAll(lines, spans) == Finished(row) + TrimAll(lines, rest)
  {
    if row.Some? {
      var first := Span(row.value.first, at - 1);
      TrimCons(lines, first, rest);
      TrimsBack(lines, row.value, at - 1);
    } else {
      assert [] + rest == rest;
      assert [] + TrimAll(lines, rest) == TrimAll(lines, rest);
    }
  }

  lemma SliceOf(lines: seq<string>, at: nat, head: seq<string>, tail: seq<string>)
    requires at <= |lines| && lines[at..] == head + tail
    ensures at + |head| <= |lines| && lines[at + |head|..] == tail
    ensures forall j :: at <= j < at + |head| ==> lines[j] == head[j - at]
  {
    assert lines[at..][|head|..] == tail;
    forall j | at <= j < at + |head| ensures lines[j] == head[j - at] {
      assert lines[at..][j - at] == lines[j];
    }
  }

  predicate AllTidy(items: seq<Item>) { forall i :: 0 <= i < |items| ==> TidyItem(items[i]) }

  // The blocks from `at` on, trimmed.
  predicate BlocksAre(lines: seq<string>, marks: seq<Mark>, at: nat, row: Option<Span>, spans: seq<Span>)
    requires Progress(marks)
  {
    && (row.Some? ==> row.value.first >= 0)
    && InRange(BlocksFrom(marks, at, FirstOf(row)), |lines|)
    && TrimAll(lines, BlocksFrom(marks, at, FirstOf(row))) == Finished(row) + spans
  }

  lemma NoMoreLines(lines: seq<string>, marks: seq<Mark>, row: Option<Span>)
    requires Progress(marks) && |marks| == |lines| && Begun(lines, row, |lines|)
    ensures BlocksAre(lines, marks, |lines|, row, [])
  {
    ClosesBegun(lines, row, |lines|, []);
    assert Close(FirstOf(row), |lines| - 1) + [] == Close(FirstOf(row), |lines| - 1);
  }

  lemma BlocksAfterGap(lines: seq<string>, marks: seq<Mark>, at: nat, row: Option<Span>, spans: seq<Span>)
    requires Progress(marks) && |marks| == |lines| && at < |lines| && InnerMark(marks, at)
    requires BlocksAre(lines, marks, at + 1, row, spans)
    ensures BlocksAre(lines, marks, at, row, spans)
  {
    InnerSkipped(marks, at, at + 1, FirstOf(row));
  }

  lemma RowHere(lines: seq<string>, shown: seq<string>, at: nat)
    requires RowShape(shown) && at + |shown| <= |lines|
    requires forall j :: at <= j < at + |shown| ==> lines[j] == shown[j - at]
    ensures Marks(lines)[at] == Mark(SiteStart, at + 1) && !GapLine(lines[at + |shown| - 1])
    ensures forall j :: at + 1 <= j < at + |shown| ==> InnerMark(Marks(lines), j)
  {
    forall j | at + 1 <= j < at + |shown| ensures InnerMark(Marks(lines), j) {
      assert InnerLine(shown[j - at]);
      InnerMarked(lines, j);
    }
  }

  lemma BlocksAfterRow(lines: seq<string>, marks: seq<Mark>, at: nat, end: nat, row: Option<Span>, spans: seq<Span>)
    requires Progress(marks) && |marks| == |lines| && at < end <= |lines| && Begun(lines, row, at)
    requires marks[at] == Mark(SiteStart, at + 1) && forall j :: at + 1 <= j < end ==> InnerMark(marks, j)
    requires BlocksAre(lines, marks, end, Some(Span(at, end - 1)), spans)
    ensures BlocksAre(lines, marks, at, row, [Span(at, end - 1)] + spans)
  {
    InnerSkipped(marks, at + 1, end, Some(at));
    ClosesBegun(lines, row, at, BlocksFrom(marks, end, Some(at)));
  }

  // The exact lines of each row.
  function SpansOf(chunks: seq<Chunk>, at: nat): seq<Span> {
    if chunks == [] then []
    else (if chunks[0].key.Some? then [Span(at, at + |chunks[0].lines| - 1)] else [])
         + SpansOf(chunks[1..], at + |chunks[0].lines|)
  }

  predicate RowPart(lines: seq<string>, marks: seq<Mark>, at: nat, end: nat)
    requires |marks| == |lines|
  {
    && at < end <= |lines| && marks[at] == Mark(SiteStart, at + 1) && !GapLine(lines[end - 1])
    && forall j :: at + 1 <= j < end ==> InnerMark(marks, j)
  }

  predicate GapPart(lines: seq<string>, marks: seq<Mark>, at: nat)
    requires |marks| == |lines|
  {
    at < |lines| && InnerMark(marks, at) && GapLine(lines[at])
  }

  predicate Fits(lines: seq<string>, marks: seq<Mark>, chunks: seq<Chunk>, at: nat)
    requires |marks| == |lines|
  {
    if chunks == [] then at == |lines|
    else
      var end := at + |chunks[0].lines|;
      ChunkPart(lines, marks, chunks[0], at) && Fits(lines, marks, chunks[1..], end)
  }

  // Where the scan stands after a chunk, and the spans with that chunk's own.
  function AfterChunk(chunk: Chunk, at: nat, row: Option<Span>): Option<Span> {
    if chunk.key.Some? then Some(Span(at, at + |chunk.lines| - 1)) else row
  }

  function WithSpan(chunk: Chunk, at: nat, spans: seq<Span>): seq<Span> {
    if chunk.key.Some? then [Span(at, at + |chunk.lines| - 1)] + spans else spans
  }

  predicate ChunkPart(lines: seq<string>, marks: seq<Mark>, chunk: Chunk, at: nat)
    requires |marks| == |lines|
  {
    var end := at + |chunk.lines|;
    if chunk.key.Some? then RowPart(lines, marks, at, end) else end == at + 1 && GapPart(lines, marks, at)
  }

  lemma ChunkBegins(lines: seq<string>, marks: seq<Mark>, chunk: Chunk, at: nat, row: Option<Span>)
    requires Progress(marks) && |marks| == |lines| && ChunkPart(lines, marks, chunk, at) && Begun(lines, row, at)
    ensures Begun(lines, AfterChunk(chunk, at, row), at + |chunk.lines|)
  {
  }

  lemma ChunkScans(lines: seq<string>, marks: seq<Mark>, chunk: Chunk, at: nat, row: Option<Span>, spans: seq<Span>)
    requires Progress(marks) && |marks| == |lines| && ChunkPart(lines, marks, chunk, at) && Begun(lines, row, at)
    requires BlocksAre(lines, marks, at + |chunk.lines|, AfterChunk(chunk, at, row), spans)
    ensures BlocksAre(lines, marks, at, row, WithSpan(chunk, at, spans))
  {
    if chunk.key.Some? {
      BlocksAfterRow(lines, marks, at, at + |chunk.lines|, row, spans);
    } else {
      BlocksAfterGap(lines, marks, at, row, spans);
    }
  }

  // The chunks stand one after the other, to the end at `n`.
  predicate StandInRow(part: (Chunk, nat) -> bool, chunks: seq<Chunk>, at: nat, n: nat) {
    if chunks == [] then at == n
    else part(chunks[0], at) && StandInRow(part, chunks[1..], at + |chunks[0].lines|, n)
  }

  // What one chunk keeps, all of them keep.
  lemma {:induction false} ChunksKeep(part: (Chunk, nat) -> bool, ok: (nat, Option<Span>, seq<Span>) -> bool,
                                      chunks: seq<Chunk>, at: nat, n: nat, row: Option<Span>)
    requires StandInRow(part, chunks, at, n) && forall r :: ok(n, r, [])
    requires forall c: Chunk, i: nat, r, spans {:trigger AfterChunk(c, i, r), WithSpan(c, i, spans)} ::
      part(c, i) && ok(i + |c.lines|, AfterChunk(c, i, r), spans) ==> ok(i, r, WithSpan(c, i, spans))
    ensures ok(at, row, SpansOf(chunks, at))
    decreases |chunks|
  {
    if chunks != [] {
      var c, next := chunks[0], at + |chunks[0].lines|;
      ChunksKeep(part, ok, chunks[1..], next, n, AfterChunk(c, at, row));
      SpansUnfold(chunks, at);
      assert SpansOf(chunks, at) == WithSpan(c, at, SpansOf(chunks[1..], next));
    }
  }

  function Parts(lines: seq<string>, marks: seq<Mark>): (Chunk, nat) -> bool {
    (c: Chunk, i: nat) => |marks| == |lines| && ChunkPart(lines, marks, c, i)
  }

  lemma {:induction false} FitsInRow(lines: seq<string>, marks: seq<Mark>, chunks: seq<Chunk>, at: nat)
    requires |marks| == |lines| && Fits(lines, marks, chunks, at)
    ensures StandInRow(Parts(lines, marks), chunks, at, |lines|)
    decreases |chunks|
  {
    if chunks != [] {
      FitsInRow(lines, marks, chunks[1..], at + |chunks[0].lines|);
    }
  }

  predicate Scans(lines: seq<string>, marks: seq<Mark>, at: nat, row: Option<Span>, spans: seq<Span>) {
    Progress(marks) && |marks| == |lines| && Begun(lines, row, at) ==> BlocksAre(lines, marks, at, row, spans)
  }

  function Scanned(lines: seq<string>, marks: seq<Mark>): (nat, Option<Span>, seq<Span>) -> bool {
    (i: nat, r: Option<Span>, spans: seq<Span>) => Scans(lines, marks, i, r, spans)
  }

  lemma OneScans(lines: seq<string>, marks: seq<Mark>, c: Chunk, i: nat, r: Option<Span>, spans: seq<Span>)
    requires Parts(lines, marks)(c, i) && Scanned(lines, marks)(i + |c.lines|, AfterChunk(c, i, r), spans)
    ensures Scanned(lines, marks)(i, r, WithSpan(c, i, spans))
  {
    if Progress(marks) && Begun(lines, r, i) {
      ChunkBegins(lines, marks, c, i, r);
      ChunkScans(lines, marks, c, i, r, spans);
    }
  }

  lemma NoneScans(lines: seq<string>, marks: seq<Mark>, row: Option<Span>)
    ensures Scanned(lines, marks)(|lines|, row, [])
  {
    if Progress(marks) && |marks| == |lines| && Begun(lines, row, |lines|) { NoMoreLines(lines, marks, row); }
  }

  lemma ChunksScanned(lines: seq<string>, marks: seq<Mark>, chunks: seq<Chunk>, at: nat, row: Option<Span>)
    requires |marks| == |lines| && Fits(lines, marks, chunks, at)
    ensures Scanned(lines, marks)(at, row, SpansOf(chunks, at))
  {
    var part, ok := Parts(lines, marks), Scanned(lines, marks);
    FitsInRow(lines, marks, chunks, at);
    forall r ensures ok(|lines|, r, []) { NoneScans(lines, marks, r); }
    forall c: Chunk, i: nat, r, spans {:trigger AfterChunk(c, i, r), WithSpan(c, i, spans)}
      | part(c, i) && ok(i + |c.lines|, AfterChunk(c, i, r), spans)
      ensures ok(i, r, WithSpan(c, i, spans))
    {
      OneScans(lines, marks, c, i, r, spans);
    }
    ChunksKeep(part, ok, chunks, at, |lines|, row);
  }

  lemma ChunksScan(lines: seq<string>, marks: seq<Mark>, chunks: seq<Chunk>, at: nat, row: Option<Span>)
    requires Progress(marks) && |marks| == |lines| && Fits(lines, marks, chunks, at) && Begun(lines, row, at)
    ensures BlocksAre(lines, marks, at, row, SpansOf(chunks, at))
  {
    ChunksScanned(lines, marks, chunks, at, row);
  }

  lemma RowFits(lines: seq<string>, row: SiteRow, at: nat, end: nat)
    requires Recordable(row) && end == at + |ShownLines(RowLines(row))| && end <= |lines|
    requires forall j :: at <= j < end ==> lines[j] == ShownLines(RowLines(row))[j - at]
    ensures RowPart(lines, Marks(lines), at, end)
  {
    RowHasShape(row);
    RowHere(lines, ShownLines(RowLines(row)), at);
  }

  lemma GapFits(lines: seq<string>, at: nat)
    requires at < |lines| && IsGap(lines[at])
    ensures GapPart(lines, Marks(lines), at)
  {
    GapSkips(lines[at], "");
    GapIsInert(lines[at]);
    InnerMarked(lines, at);
  }

  lemma FirstFits(lines: seq<string>, item: Item, tail: seq<string>, at: nat)
    requires at <= |lines| && lines[at..] == ChunkOf(item).lines + tail && TidyItem(item)
    ensures var end := at + |ChunkOf(item).lines|;
      && end <= |lines| && lines[end..] == tail
      && (if item.Row? then RowPart(lines, Marks(lines), at, end) else end == at + 1 && GapPart(lines, Marks(lines), at))
  {
    SliceOf(lines, at, ChunkOf(item).lines, tail);
    if item.Row? {
      RowFits(lines, item.row, at, at + |ChunkOf(item).lines|);
    } else {
      GapFits(lines, at);
    }
  }

  lemma ChunksRest(items: seq<Item>)
    requires items != []
    ensures Chunks(items) == [ChunkOf(items[0])] + Chunks(items[1..])
    ensures FileLines(items) == ChunkOf(items[0]).lines + FileLines(items[1..])
  {
    assert Chunks(items)[1..] == Chunks(items[1..]);
  }

  lemma FitsCons(lines: seq<string>, marks: seq<Mark>, first: Chunk, rest: seq<Chunk>, at: nat)
    requires |marks| == |lines| && ChunkPart(lines, marks, first, at) && Fits(lines, marks, rest, at + |first.lines|)
    ensures Fits(lines, marks, [first] + rest, at)
  {
    assert ([first] + rest)[1..] == rest;
  }

  // Wherever the chunk's lines are found, it stands there.
  ghost predicate StandsAnywhere(lines: seq<string>, marks: seq<Mark>, chunk: Chunk)
    requires |marks| == |lines|
  {
    forall at: nat {:trigger ChunkPart(lines, marks, chunk, at)} ::
      at + |chunk.lines| <= |lines| && lines[at..at + |chunk.lines|] == chunk.lines ==> ChunkPart(lines, marks, chunk, at)
  }

  lemma ItemStandsAt(lines: seq<string>, item: Item, at: nat)
    requires TidyItem(item) && at + |ChunkOf(item).lines| <= |lines|
    requires lines[at..at + |ChunkOf(item).lines|] == ChunkOf(item).lines
    ensures ChunkPart(lines, Marks(lines), ChunkOf(item), at)
  {
    var end := at + |ChunkOf(item).lines|;
    assert lines[at..] == ChunkOf(item).lines + lines[end..];
    FirstFits(lines, item, lines[end..], at);
  }

  lemma ItemStands(lines: seq<string>, item: Item)
    requires TidyItem(item)
    ensures StandsAnywhere(lines, Marks(lines), ChunkOf(item))
  {
    forall at: nat | at + |ChunkOf(item).lines| <= |lines| && lines[at..at + |ChunkOf(item).lines|] == ChunkOf(item).lines
      ensures ChunkPart(lines, Marks(lines), ChunkOf(item), at)
    {
      ItemStandsAt(lines, item, at);
    }
  }

  lemma {:induction false} ChunksFit(lines: seq<string>, marks: seq<Mark>, chunks: seq<Chunk>, at: nat)
    requires |marks| == |lines| && at <= |lines| && lines[at..] == Flat(chunks)
    requires forall i :: 0 <= i < |chunks| ==> StandsAnywhere(lines, marks, chunks[i])
    ensures Fits(lines, marks, chunks, at)
    decreases |chunks|
  {
    if chunks != [] {
      NextChunk(lines, chunks, at);
      assert StandsAnywhere(lines, marks, chunks[0]);
      assert ChunkPart(lines, marks, chunks[0], at);
      ChunksFit(lines, marks, chunks[1..], at + |chunks[0].lines|);
      FitsCons(lines, marks, chunks[0], chunks[1..], at);
      assert chunks == [chunks[0]] + chunks[1..];
    }
  }

  lemma FileFits(items: seq<Item>)
    requires AllTidy(items)
    ensures Fits(FileLines(items), Marks(FileLines(items)), Chunks(items), 0)
  {
    var lines := FileLines(items);
    forall i | 0 <= i < |items| ensures StandsAnywhere(lines, Marks(lines), Chunks(items)[i]) {
      assert TidyItem(items[i]);
      ItemStands(lines, items[i]);
    }
    assert lines[0..] == lines;
    ChunksFit(lines, Marks(lines), Chunks(items), 0);
  }

  /** The blocks found in a file are exactly the lines of its rows. */
  lemma FileBlocks(items: seq<Item>)
    requires AllTidy(items)
    ensures RowBlocks(FileLines(items)) == SpansOf(Chunks(items), 0)
  {
    var lines := FileLines(items);
    FileFits(items);
    ChunksScan(lines, Marks(lines), Chunks(items), 0, None);
    assert [] + SpansOf(Chunks(items), 0) == SpansOf(Chunks(items), 0);
  }

  // ---- reading a file ---------------------------------------------------------------------------

  function RowValues(items: seq<Item>): seq<Value> {
    if items == [] then []
    else (if items[0].Row? then [Table(RowTable(items[0].row))] else []) + RowValues(items[1..])
  }

  // The document that holds these rows.
  function Document(rows: seq<Value>): Entries { if rows == [] then map[] else map["site" := Arr(rows)] }

  lemma DocumentGrows(rows: seq<Value>, row: Entries)
    ensures HoldsRows(Document(rows), rows)
    ensures Under(Document(rows), rows, row, ["policy"]).root == Document(rows + [Table(row)])
  {
  }

  lemma RowAppends(rows: seq<Value>, row: SiteRow, rest: string, st: State)
    requires Sane(st) && st.root == Document(rows) && Recordable(row)
    ensures var st' := Under(st.root, rows, RowTable(row), ["policy"]);
      && Sane(st') && st'.root == Document(rows + [Table(RowTable(row))])
      && Load(RenderRow(row) + rest, st) == Load(rest, st')
  {
    DocumentGrows(rows, RowTable(row));
    RowLoads(rows, row, rest, st);
  }

  lemma GapLoads(line: string, rest: string, st: State)
    requires IsGap(line) && Sane(st)
    ensures Load(line + rest, st) == Load(rest, st)
  {
    GapSkips(line, rest);
  }

  lemma FileText(items: seq<Item>)
    requires items != [] && TidyItem(items[0])
    ensures Join(FileLines(items))
      == (if items[0].Row? then RenderRow(items[0].row) else items[0].line) + Join(FileLines(items[1..]))
  {
    ChunksRest(items);
    JoinSplits(ChunkOf(items[0]).lines, FileLines(items[1..]));
    if items[0].Row? {
      RowTextLines(items[0].row);
    } else {
      assert [items[0].line][1..] == [];
      assert Join([items[0].line]) == items[0].line + "" == items[0].line;
    }
  }

  lemma ValuesAfterRow(items: seq<Item>, rows: seq<Value>)
    requires items != [] && items[0].Row?
    ensures rows + RowValues(items) == (rows + [Table(RowTable(items[0].row))]) + RowValues(items[1..])
  {
  }

  lemma ValuesAfterGap(items: seq<Item>)
    requires items != [] && items[0].Gap?
    ensures RowValues(items) == RowValues(items[1..])
  {
  }

  lemma FirstLoads(items: seq<Item>, rows: seq<Value>, st: State) returns (rows': seq<Value>, st': State)
    requires items != [] && TidyItem(items[0]) && Sane(st) && st.root == Document(rows)
    ensures Sane(st') && st'.root == Document(rows')
    ensures Load(Join(FileLines(items)), st) == Load(Join(FileLines(items[1..])), st')
    ensures rows + RowValues(items) == rows' + RowValues(items[1..])
  {
    var rest := Join(FileLines(items[1..]));
    FileText(items);
    if items[0].Row? {
      var row := items[0].row;
      RowAppends(rows, row, rest, st);
      ValuesAfterRow(items, rows);
      rows', st' := rows + [Table(RowTable(row))], Under(st.root, rows, RowTable(row), ["policy"]);
    } else {
      GapLoads(items[0].line, rest, st);
      ValuesAfterGap(items);
      rows', st' := rows, st;
    }
  }

  lemma {:induction false} FileLoads(items: seq<Item>, rows: seq<Value>, st: State)
    requires AllTidy(items) && Sane(st) && st.root == Document(rows)
    ensures Load(Join(FileLines(items)), st) == Loaded(Document(rows + RowValues(items)))
    decreases |items|
  {
    if items == [] {
      NothingLeft(st);
      assert rows + [] == rows;
    } else {
      assert TidyItem(items[0]);
      var rows', st' := FirstLoads(items, rows, st);
      FileLoads(items[1..], rows', st');
    }
  }

  /** A file reads as the list of its rows, in order. */
  lemma FileReads(items: seq<Item>)
    requires AllTidy(items)
    ensures Loads(Join(FileLines(items))) == Loaded(Document(RowValues(items)))
  {
    FileLoads(items, [], State(map[], []));
    assert [] + RowValues(items) == RowValues(items);
  }

  // ---- the splice ---------------------------------------------------------------------------------

  lemma {:induction false} FlatSplit(a: seq<Chunk>, b: seq<Chunk>)
    ensures Flat(a + b) == Flat(a) + Flat(b)
  {
    if a == [] {
      assert a + b == b;
    } else {
      assert (a + b)[1..] == a[1..] + b;
      FlatSplit(a[1..], b);
    }
  }

  lemma Surrounded(before: seq<Chunk>, here: Chunk, after: seq<Chunk>)
    ensures Flat(before + [here] + after) == Flat(before) + here.lines + Flat(after)
    ensures Flat(before + [here]) == Flat(before) + here.lines
  {
    FlatSplit(before, [here]);
    FlatSplit(before + [here], after);
    assert [here][1..] == [];
    assert Flat([here]) == here.lines + [];
  }

  // The keys that the blocks of a file give when read.
  function KeysOf(chunks: seq<Chunk>): seq<BlockKey> {
    if chunks == [] then []
    else (if chunks[0].key.Some? then [Keyed(Some(Str(chunks[0].key.value)))] else []) + KeysOf(chunks[1..])
  }

  // As many blocks as keys, all within the file.
  predicate SpansCount(chunks: seq<Chunk>, at: nat, n: nat) {
    InRange(SpansOf(chunks, at), n) && |SpansOf(chunks, at)| == |KeysOf(chunks)|
  }

  function ReplaceChunk(chunks: seq<Chunk>, key: string, written: seq<string>): seq<Chunk> {
    if chunks == [] then []
    else if chunks[0].key == Some(key) then [Chunk(Some(key), written)] + chunks[1..]
    else [chunks[0]] + ReplaceChunk(chunks[1..], key, written)
  }

  predicate Holds(chunks: seq<Chunk>, key: string) {
    chunks != [] && (chunks[0].key == Some(key) || Holds(chunks[1..], key))
  }

  lemma SplicesHere(before: seq<Chunk>, here: Chunk, after: seq<Chunk>, written: seq<string>)
    ensures var lines, at := Flat(before + [here] + after), |Flat(before)|;
      && at + |here.lines| <= |lines|
      && lines[..at] + written + lines[at + |here.lines|..] == Flat(before + [Chunk(here.key, written)] + after)
  {
    Surrounded(before, here, after);
    Surrounded(before, Chunk(here.key, written), after);
  }

  lemma FirstSpan(lines: seq<string>, chunks: seq<Chunk>, at: nat, key: string, written: seq<string>)
    requires chunks != [] && chunks[0].key == Some(key) && SpansCount(chunks, at, |lines|)
    ensures at + |chunks[0].lines| <= |lines|
    ensures UpsertAt(lines, SpansOf(chunks, at), KeysOf(chunks), key, written)
      == Upserted(lines[..at] + written + lines[at + |chunks[0].lines|..], true)
  {
    assert SpansOf(chunks, at)[0] == Span(at, at + |chunks[0].lines| - 1);
    assert KeysOf(chunks)[0] == Keyed(Some(Str(key)));
  }

  lemma UpsertHere(before: seq<Chunk>, chunks: seq<Chunk>, key: string, written: seq<string>)
    requires chunks != [] && chunks[0].key == Some(key)
    requires SpansCount(chunks, |Flat(before)|, |Flat(before + chunks)|)
    ensures UpsertAt(Flat(before + chunks), SpansOf(chunks, |Flat(before)|), KeysOf(chunks), key, written)
      == Upserted(Flat(before + ReplaceChunk(chunks, key, written)), true)
  {
    FirstSpan(Flat(before + chunks), chunks, |Flat(before)|, key, written);
    assert before + chunks == before + [chunks[0]] + chunks[1..];
    SplicesHere(before, chunks[0], chunks[1..], written);
    assert before + ReplaceChunk(chunks, key, written) == before + [Chunk(Some(key), written)] + chunks[1..];
  }

  lemma UpsertLater(lines: seq<string>, chunks: seq<Chunk>, at: nat, key: string, written: seq<string>)
    requires chunks != [] && chunks[0].key != Some(key) && SpansCount(chunks, at, |lines|)
    ensures var at' := at + |chunks[0].lines|;
      && SpansCount(chunks[1..], at', |lines|)
      && UpsertAt(lines, SpansOf(chunks, at), KeysOf(chunks), key, written)
         == UpsertAt(lines, SpansOf(chunks[1..], at'), KeysOf(chunks[1..]), key, written)
  {
    var spans, spans' := SpansOf(chunks, at), SpansOf(chunks[1..], at + |chunks[0].lines|);
    if chunks[0].key.Some? {
      assert spans[1..] == spans' && KeysOf(chunks)[1..] == KeysOf(chunks[1..]);
      forall i | 0 <= i < |spans'| ensures spans'[i] == spans[i + 1] {
      }
    } else {
      assert [] + spans' == spans';
      assert [] + KeysOf(chunks[1..]) == KeysOf(chunks[1..]);
    }
  }

  lemma MovesOn(before: seq<Chunk>, here: Chunk, after: seq<Chunk>)
    ensures before + ([here] + after) == (before + [here]) + after
  {
  }

  /** The splice falls on the row of that key, if the file has one. */
  lemma {:induction false} UpsertFinds(before: seq<Chunk>, chunks: seq<Chunk>, key: string, written: seq<string>)
    requires SpansCount(chunks, |Flat(before)|, |Flat(before + chunks)|)
    ensures UpsertAt(Flat(before + chunks), SpansOf(chunks, |Flat(before)|), KeysOf(chunks), key, written) ==
      if Holds(chunks, key) then Upserted(Flat(before + ReplaceChunk(chunks, key, written)), true)
      else Upserted(BlankEnded(Flat(before + chunks)) + written, false)
    decreases |chunks|
  {
    if chunks != [] {
      if chunks[0].key == Some(key) {
        UpsertHere(before, chunks, key, written);
      } else {
        UpsertLater(Flat(before + chunks), chunks, |Flat(before)|, key, written);
        Surrounded(before, chunks[0], []);
        assert chunks == [chunks[0]] + chunks[1..];
        MovesOn(before, chunks[0], chunks[1..]);
        MovesOn(before, chunks[0], ReplaceChunk(chunks[1..], key, written));
        UpsertFinds(before + [chunks[0]], chunks[1..], key, written);
      }
    }
  }

  // ---- the keys of a file's blocks ------------------------------------------------------------------

  lemma KeyedBy(text: string, row: Entries, key: string)
    requires Loads(text) == Loaded(map["site" := Arr([Table(row)])]) && "key" in row && row["key"] == Str(key)
    ensures KeyOfBlock(text) == Keyed(Some(Str(key)))
  {
    assert Tables([Table(row)]) == [Table(row)];
  }

  lemma RowKey(row: SiteRow)
    requires Recordable(row)
    ensures KeyOfBlock(RenderRow(row)) == Keyed(Some(Str(row.key)))
  {
    RowRoundTrip(row);
    HeadTableKeys(row);
    KeyedBy(RenderRow(row), RowTable(row), row.key);
  }

  // Every keyed chunk reads as its key.
  predicate Readable(read: string -> BlockKey, chunks: seq<Chunk>) {
    forall i :: 0 <= i < |chunks| && chunks[i].key.Some? ==>
      chunks[i].lines != [] && read(Join(chunks[i].lines)) == Keyed(Some(Str(chunks[i].key.value)))
  }

  lemma ItemReadable(item: Item)
    requires TidyItem(item) && item.Row?
    ensures ChunkOf(item).lines != []
    ensures KeyOfBlock(Join(ChunkOf(item).lines)) == Keyed(Some(Str(item.row.key)))
  {
    RowTextLines(item.row);
    RowKey(item.row);
    RowHasShape(item.row);
  }

  lemma FileReadable(items: seq<Item>)
    requires AllTidy(items)
    ensures Readable(KeyOfBlock, Chunks(items))
  {
    forall i | 0 <= i < |items| && items[i].Row?
      ensures Chunks(items)[i].lines != []
        && KeyOfBlock(Join(Chunks(items)[i].lines)) == Keyed(Some(Str(items[i].row.key)))
    {
      assert TidyItem(items[i]);
      ItemReadable(items[i]);
    }
  }

  // Each span reads as its key.
  predicate KeysFit(read: string -> BlockKey, lines: seq<string>, spans: seq<Span>, keys: seq<BlockKey>) {
    if spans == [] then keys == []
    else
      && keys != [] && 0 <= spans[0].first <= spans[0].last < |lines|
      && read(Join(lines[spans[0].first..spans[0].last + 1])) == keys[0]
      && KeysFit(read, lines, spans[1..], keys[1..])
  }

  // One span more, whose key is read off its own lines.
  predicate FitsHere(read: string -> BlockKey, lines: seq<string>, span: Span, key: BlockKey) {
    0 <= span.first <= span.last < |lines| && read(Join(lines[span.first..span.last + 1])) == key
  }

  lemma KeysFirst(read: string -> BlockKey, lines: seq<string>, span: Span, rest: seq<Span>)
    requires 0 <= span.first <= span.last < |lines| && InRange(rest, |lines|)
    ensures InRange([span] + rest, |lines|)
    ensures KeysBy(read, lines, [span] + rest)
      == [read(Join(lines[span.first..span.last + 1]))] + KeysBy(read, lines, rest)
  {
    var here, all := read(Join(lines[span.first..span.last + 1])), [span] + rest;
    forall i | 0 <= i < |all| ensures KeysBy(read, lines, all)[i] == ([here] + KeysBy(read, lines, rest))[i] {
      if i > 0 { assert all[i] == rest[i - 1]; }
    }
  }

  lemma KeysFitRest(read: string -> BlockKey, lines: seq<string>, spans: seq<Span>, keys: seq<BlockKey>)
    requires KeysFit(read, lines, spans, keys) && spans != []
    ensures keys != [] && FitsHere(read, lines, spans[0], keys[0]) && KeysFit(read, lines, spans[1..], keys[1..])
  {
  }

  lemma {:induction false} KeysFitAll(read: string -> BlockKey, lines: seq<string>, spans: seq<Span>, keys: seq<BlockKey>)
    requires KeysFit(read, lines, spans, keys)
    ensures InRange(spans, |lines|) && KeysBy(read, lines, spans) == keys
  {
    if spans != [] {
      KeysFitRest(read, lines, spans, keys);
      var span, rest := spans[0], spans[1..];
      assert spans == [span] + rest;
      KeysFitAll(read, lines, rest, keys[1..]);
      KeysFirst(read, lines, span, rest);
      assert keys == [keys[0]] + keys[1..];
    }
  }

  lemma KeysCons(read: string -> BlockKey, lines: seq<string>, span: Span, key: BlockKey, spans: seq<Span>, keys: seq<BlockKey>)
    requires FitsHere(read, lines, span, key) && KeysFit(read, lines, spans, keys)
    ensures KeysFit(read, lines, [span] + spans, [key] + keys)
  {
    assert ([span] + spans)[1..] == spans && ([key] + keys)[1..] == keys;
  }

  lemma KeyedHere(read: string -> BlockKey, lines: seq<string>, at: nat, chunk: Chunk, spans: seq<Span>, keys: seq<BlockKey>)
    requires at + |chunk.lines| <= |lines| && lines[at..at + |chunk.lines|] == chunk.lines
    requires chunk.key.Some? && chunk.lines != []
    requires read(Join(chunk.lines)) == Keyed(Some(Str(chunk.key.value))) && KeysFit(read, lines, spans, keys)
    ensures KeysFit(read, lines, [Span(at, at + |chunk.lines| - 1)] + spans, [Keyed(Some(Str(chunk.key.value)))] + keys)
  {
    KeysCons(read, lines, Span(at, at + |chunk.lines| - 1), Keyed(Some(Str(chunk.key.value))), spans, keys);
  }

  lemma NextChunk(lines: seq<string>, chunks: seq<Chunk>, at: nat)
    requires chunks != [] && at <= |lines| && lines[at..] == Flat(chunks)
    ensures var end := at + |chunks[0].lines|;
      && end <= |lines| && lines[at..end] == chunks[0].lines && lines[end..] == Flat(chunks[1..])
  {
    SliceOf(lines, at, chunks[0].lines, Flat(chunks[1..]));
  }

  lemma ReadableRest(read: string -> BlockKey, chunks: seq<Chunk>)
    requires chunks != [] && Readable(read, chunks)
    ensures Readable(read, chunks[1..])
    ensures chunks[0].key.Some? ==>
      chunks[0].lines != [] && read(Join(chunks[0].lines)) == Keyed(Some(Str(chunks[0].key.value)))
  {
  }

  lemma SpansUnfold(chunks: seq<Chunk>, at: nat)
    requires chunks != []
    ensures var end, key := at + |chunks[0].lines|, chunks[0].key;
      && SpansOf(chunks, at) ==
           (if key.Some? then [Span(at, end - 1)] + SpansOf(chunks[1..], end) else SpansOf(chunks[1..], end))
      && KeysOf(chunks) ==
           (if key.Some? then [Keyed(Some(Str(key.value)))] + KeysOf(chunks[1..]) else KeysOf(chunks[1..]))
  {
  }

  lemma KeysStep(read: string -> BlockKey, lines: seq<string>, chunk: Chunk, at: nat, spans: seq<Span>, keys: seq<BlockKey>)
    requires chunk.key.Some? ==> chunk.lines != [] && read(Join(chunk.lines)) == Keyed(Some(Str(chunk.key.value)))
    requires at + |chunk.lines| <= |lines| && lines[at..at + |chunk.lines|] == chunk.lines
    requires KeysFit(read, lines, spans, keys)
    ensures if chunk.key.Some? then
        KeysFit(read, lines, [Span(at, at + |chunk.lines| - 1)] + spans, [Keyed(Some(Str(chunk.key.value)))] + keys)
      else KeysFit(read, lines, spans, keys)
  {
    if chunk.key.Some? {
      KeyedHere(read, lines, at, chunk, spans, keys);
    }
  }

  lemma {:induction false} FileKeys(read: string -> BlockKey, lines: seq<string>, chunks: seq<Chunk>, at: nat)
    requires Readable(read, chunks) && at <= |lines| && lines[at..] == Flat(chunks)
    ensures KeysFit(read, lines, SpansOf(chunks, at), KeysOf(chunks))
    decreases |chunks|
  {
    if chunks != [] {
      NextChunk(lines, chunks, at);
      ReadableRest(read, chunks);
      FileKeys(read, lines, chunks[1..], at + |chunks[0].lines|);
      SpansUnfold(chunks, at);
      KeysStep(read, lines, chunks[0], at, SpansOf(chunks[1..], at + |chunks[0].lines|), KeysOf(chunks[1..]));
    }
  }

  lemma KeysCount(chunks: seq<Chunk>)
    requires Readable(KeyOfBlock, chunks)
    ensures SpansCount(chunks, 0, |Flat(chunks)|)
    ensures BlockKeys(Flat(chunks), SpansOf(chunks, 0)) == KeysOf(chunks)
  {
    assert Flat(chunks)[0..] == Flat(chunks);
    FileKeys(KeyOfBlock, Flat(chunks), chunks, 0);
    KeysFitAll(KeyOfBlock, Flat(chunks), SpansOf(chunks, 0), KeysOf(chunks));
  }
}
