/** Recording a row in a docs-site file: the text edit is the update of the list of rows. */
module SiteRecord {
  import opened Options
  import opened TomlLines
  import opened SubsetToml
  import opened SiteRender
  import opened SiteLines
  import opened SiteRows
  import opened SiteUpsert
  import opened SiteKinds
  import opened SiteFile

  // ---- recording a row --------------------------------------------------------------------------------

  /** The file with the row of that key replaced where it stands. */
  function ReplaceRow(items: seq<Item>, row: SiteRow): seq<Item> {
    if items == [] then []
    else if items[0].Row? && items[0].row.key == row.key then [Row(row)] + items[1..]
    else [items[0]] + ReplaceRow(items[1..], row)
  }

  function AppendRow(items: seq<Item>, row: SiteRow): seq<Item> {
    var lines := FileLines(items);
    items + (if lines != [] && Strip(lines[|lines| - 1]) != "" then [Gap("\n")] else []) + [Row(row)]
  }

  function Recorded(items: seq<Item>, row: SiteRow): seq<Item> {
    if HasKey(items, row.key) then ReplaceRow(items, row) else AppendRow(items, row)
  }

  lemma KeyInRest(items: seq<Item>, key: string)
    requires items != []
    ensures HasKey(items, key) == ((items[0].Row? && items[0].row.key == key) || HasKey(items[1..], key))
  {
    if i :| 0 <= i < |items| && items[i].Row? && items[i].row.key == key {
      assert i == 0 || items[1..][i - 1] == items[i];
    }
    if j :| 0 <= j < |items| - 1 && items[1..][j].Row? && items[1..][j].row.key == key {
      assert items[j + 1].Row?;
    }
  }

  lemma {:induction false} ReplacesChunk(items: seq<Item>, row: SiteRow)
    ensures Holds(Chunks(items), row.key) == HasKey(items, row.key)
    ensures Chunks(ReplaceRow(items, row)) == ReplaceChunk(Chunks(items), row.key, ShownLines(RowLines(row)))
    decreases |items|
  {
    if items != [] {
      KeyInRest(items, row.key);
      ChunksRest(items);
      assert Chunks(items)[1..] == Chunks(items[1..]);
      ChunksRest(ReplaceRow(items, row));
      if items[0].Row? && items[0].row.key == row.key {
        assert ReplaceRow(items, row)[1..] == items[1..];
      } else {
        ReplacesChunk(items[1..], row);
        assert ReplaceRow(items, row)[1..] == ReplaceRow(items[1..], row);
      }
    }
  }

  lemma AppendsLines(items: seq<Item>, row: SiteRow)
    requires Recordable(row)
    ensures FileLines(AppendRow(items, row)) == BlankEnded(FileLines(items)) + RenderedLines(row)
  {
    var gap := if FileLines(items) != [] && Strip(FileLines(items)[|FileLines(items)| - 1]) != "" then [Gap("\n")] else [];
    RowTextLines(row);
    assert Chunks(AppendRow(items, row)) == Chunks(items) + Chunks(gap) + [ChunkOf(Row(row))];
    if gap == [] {
      assert Chunks(items) + Chunks(gap) == Chunks(items);
    } else {
      assert Chunks(gap) == [Chunk(None, ["\n"])];
      Surrounded(Chunks(items), Chunk(None, ["\n"]), []);
    }
    Surrounded(Chunks(items) + Chunks(gap), ChunkOf(Row(row)), []);
  }

  lemma UpsertOnChunks(chunks: seq<Chunk>, key: string, written: seq<string>)
    requires SpansCount(chunks, 0, |Flat(chunks)|)
    ensures UpsertAt(Flat(chunks), SpansOf(chunks, 0), KeysOf(chunks), key, written) ==
      if Holds(chunks, key) then Upserted(Flat(ReplaceChunk(chunks, key, written)), true)
      else Upserted(BlankEnded(Flat(chunks)) + written, false)
  {
    assert [] + chunks == chunks && Flat([]) == [];
    UpsertFinds([], chunks, key, written);
    assert [] + ReplaceChunk(chunks, key, written) == ReplaceChunk(chunks, key, written);
  }

  lemma UpsertUnfolds(items: seq<Item>, row: SiteRow)
    requires AllTidy(items)
    ensures SpansCount(Chunks(items), 0, |Flat(Chunks(items))|)
    ensures UpsertLines(FileLines(items), row)
      == UpsertAt(Flat(Chunks(items)), SpansOf(Chunks(items), 0), KeysOf(Chunks(items)), row.key, RenderedLines(row))
  {
    FileBlocks(items);
    FileReadable(items);
    KeysCount(Chunks(items));
  }

  /** Recording a row in a tidy file edits the text into that of the updated file, and says
      whether a row was replaced. */
  lemma UpsertRefines(items: seq<Item>, row: SiteRow)
    requires AllTidy(items) && Recordable(row)
    ensures UpsertLines(FileLines(items), row)
      == Upserted(FileLines(Recorded(items, row)), HasKey(items, row.key))
  {
    UpsertUnfolds(items, row);
    UpsertOnChunks(Chunks(items), row.key, RenderedLines(row));
    ReplacesChunk(items, row);
    RowTextLines(row);
    AppendsLines(items, row);
  }

  // ---- what recording does --------------------------------------------------------------------------

  predicate KeyAmong(rows: seq<SiteRow>, key: string) { exists i :: 0 <= i < |rows| && rows[i].key == key }

  /** The list of rows with the one of that key replaced where it is, or the row added last. */
  function UpdateRows(rows: seq<SiteRow>, row: SiteRow): seq<SiteRow> {
    if KeyAmong(rows, row.key)
    then seq(|rows|, i requires 0 <= i < |rows| => if rows[i].key == row.key then row else rows[i])
    else rows + [row]
  }

  function RowTables(rows: seq<SiteRow>): seq<Value> {
    seq(|rows|, i requires 0 <= i < |rows| => Table(RowTable(rows[i])))
  }

  lemma {:induction false} ValuesOfRows(items: seq<Item>)
    ensures RowValues(items) == RowTables(RowsOf(items))
  {
    if items != [] {
      ValuesOfRows(items[1..]);
    }
  }

  lemma {:induction false} RowsSplit(a: seq<Item>, b: seq<Item>)
    ensures RowsOf(a + b) == RowsOf(a) + RowsOf(b)
  {
    if a == [] {
      assert a + b == b;
    } else {
      assert (a + b)[1..] == a[1..] + b;
      RowsSplit(a[1..], b);
    }
  }

  lemma {:induction false} KeysOfRows(items: seq<Item>, key: string)
    ensures HasKey(items, key) == KeyAmong(RowsOf(items), key)
  {
    if items != [] {
      KeyInRest(items, key);
      KeysOfRows(items[1..], key);
      var rows, tail := RowsOf(items), RowsOf(items[1..]);
      if items[0].Row? {
        assert rows == [items[0].row] + tail;
        if i :| 0 <= i < |rows| && rows[i].key == key {
          assert i == 0 || tail[i - 1].key == key;
        }
        if j :| 0 <= j < |tail| && tail[j].key == key {
          assert rows[j + 1].key == key;
        }
        assert items[0].row.key == key ==> rows[0].key == key;
      } else {
        assert rows == tail;
      }
    }
  }

  // The rows of a file carry different keys.
  predicate Unrepeated(rows: seq<SiteRow>) {
    forall i, j :: 0 <= i < j < |rows| ==> rows[i].key != rows[j].key
  }

  /** Written rows of different keys, between lines the reader skips. */
  predicate Tidy(items: seq<Item>) { AllTidy(items) && Unrepeated(RowsOf(items)) }

  lemma UpdatesFirst(first: SiteRow, tail: seq<SiteRow>, row: SiteRow)
    requires first.key == row.key && Unrepeated([first] + tail)
    ensures UpdateRows([first] + tail, row) == [row] + tail
  {
    var rows := [first] + tail;
    assert rows[0].key == row.key;
    forall i | 0 <= i < |tail| ensures tail[i].key != row.key {
      assert rows[i + 1] == tail[i];
    }
  }

  lemma UpdatesLater(first: SiteRow, tail: seq<SiteRow>, row: SiteRow)
    requires first.key != row.key && KeyAmong(tail, row.key)
    ensures UpdateRows([first] + tail, row) == [first] + UpdateRows(tail, row)
  {
    var rows := [first] + tail;
    var k :| 0 <= k < |tail| && tail[k].key == row.key;
    assert rows[k + 1].key == row.key;
  }

  lemma UnrepeatedRest(first: SiteRow, tail: seq<SiteRow>)
    requires Unrepeated([first] + tail)
    ensures Unrepeated(tail)
  {
    var rows := [first] + tail;
    forall i, j | 0 <= i < j < |tail| ensures tail[i].key != tail[j].key {
      assert rows[i + 1] == tail[i] && rows[j + 1] == tail[j];
    }
  }

  lemma {:induction false} ReplacesRow(items: seq<Item>, row: SiteRow)
    requires HasKey(items, row.key) && Unrepeated(RowsOf(items))
    ensures RowsOf(ReplaceRow(items, row)) == UpdateRows(RowsOf(items), row)
  {
    var tail := RowsOf(items[1..]);
    KeyInRest(items, row.key);
    if items[0].Row? && items[0].row.key == row.key {
      UpdatesFirst(items[0].row, tail, row);
      assert ReplaceRow(items, row)[1..] == items[1..];
    } else {
      assert ReplaceRow(items, row)[1..] == ReplaceRow(items[1..], row);
      if items[0].Row? {
        UnrepeatedRest(items[0].row, tail);
        KeysOfRows(items[1..], row.key);
        UpdatesLater(items[0].row, tail, row);
      } else {
        assert RowsOf(items) == tail;
      }
      ReplacesRow(items[1..], row);
    }
  }

  lemma RecordsRow(items: seq<Item>, row: SiteRow)
    requires Tidy(items)
    ensures RowsOf(Recorded(items, row)) == UpdateRows(RowsOf(items), row)
  {
    KeysOfRows(items, row.key);
    if HasKey(items, row.key) {
      ReplacesRow(items, row);
    } else {
      var lines := FileLines(items);
      var gap := if lines != [] && Strip(lines[|lines| - 1]) != "" then [Gap("\n")] else [];
      RowsSplit(items + gap, [Row(row)]);
      RowsSplit(items, gap);
      assert [Row(row)][1..] == [] && RowsOf([Row(row)]) == [row];
      assert RowsOf(gap) == [] by { assert gap != [] ==> gap[1..] == []; }
      assert RowsOf(items) + [] == RowsOf(items);
    }
  }

  lemma NewlineIsGap()
    ensures IsGap("\n")
  {
    assert "\n"[1..] == "";
  }

  lemma {:induction false} ReplaceStaysTidy(items: seq<Item>, row: SiteRow)
    requires AllTidy(items) && Recordable(row)
    ensures AllTidy(ReplaceRow(items, row))
  {
    if items != [] && !(items[0].Row? && items[0].row.key == row.key) {
      ReplaceStaysTidy(items[1..], row);
    }
  }

  lemma UpdatedUnrepeated(rows: seq<SiteRow>, row: SiteRow)
    requires Unrepeated(rows)
    ensures Unrepeated(UpdateRows(rows, row)) && KeyAmong(UpdateRows(rows, row), row.key)
  {
    var updated := UpdateRows(rows, row);
    if KeyAmong(rows, row.key) {
      var k :| 0 <= k < |rows| && rows[k].key == row.key;
      assert updated[k].key == row.key;
    } else {
      assert updated[|rows|].key == row.key;
    }
  }

  lemma AppendStaysTidy(items: seq<Item>, row: SiteRow)
    requires AllTidy(items) && Recordable(row)
    ensures AllTidy(AppendRow(items, row))
  {
    NewlineIsGap();
  }

  lemma RecordedStaysTidy(items: seq<Item>, row: SiteRow)
    requires Tidy(items) && Recordable(row)
    ensures Tidy(Recorded(items, row)) && HasKey(Recorded(items, row), row.key)
  {
    RecordsRow(items, row);
    KeysOfRows(Recorded(items, row), row.key);
    ReplaceStaysTidy(items, row);
    AppendStaysTidy(items, row);
    UpdatedUnrepeated(RowsOf(items), row);
  }

  lemma {:induction false} ReplacesItself(items: seq<Item>, row: SiteRow)
    ensures ReplaceRow(ReplaceRow(items, row), row) == ReplaceRow(items, row)
  {
    if items != [] {
      if items[0].Row? && items[0].row.key == row.key {
        assert ReplaceRow(items, row)[1..] == items[1..];
      } else {
        ReplacesItself(items[1..], row);
        assert ReplaceRow(items, row)[1..] == ReplaceRow(items[1..], row);
      }
    }
  }

  lemma {:induction false} ReplaceAtEnd(items: seq<Item>, row: SiteRow)
    requires !HasKey(items, row.key)
    ensures ReplaceRow(items + [Row(row)], row) == items + [Row(row)]
  {
    if items == [] {
      assert items + [Row(row)] == [Row(row)];
    } else {
      KeyInRest(items, row.key);
      assert (items + [Row(row)])[1..] == items[1..] + [Row(row)];
      ReplaceAtEnd(items[1..], row);
    }
  }

  lemma RecordedTwice(items: seq<Item>, row: SiteRow)
    requires Tidy(items) && Recordable(row)
    ensures Recorded(Recorded(items, row), row) == Recorded(items, row)
  {
    RecordedStaysTidy(items, row);
    if HasKey(items, row.key) {
      ReplacesItself(items, row);
    } else {
      var lines := FileLines(items);
      var gap := if lines != [] && Strip(lines[|lines| - 1]) != "" then [Gap("\n")] else [];
      NoKeyInGap(items, gap, row.key);
      ReplaceAtEnd(items + gap, row);
    }
  }

  lemma NoKeyInGap(items: seq<Item>, gap: seq<Item>, key: string)
    requires !HasKey(items, key) && forall i :: 0 <= i < |gap| ==> gap[i].Gap?
    ensures !HasKey(items + gap, key)
  {
    forall i | 0 <= i < |items + gap| ensures !((items + gap)[i].Row? && (items + gap)[i].row.key == key) {
      if i < |items| {
        assert (items + gap)[i] == items[i];
      } else {
        assert (items + gap)[i] == gap[i - |items|];
      }
    }
  }

  // ---- the file as text ---------------------------------------------------------------------------

  lemma {:induction false} TidyLines(items: seq<Item>)
    requires AllTidy(items)
    ensures forall line <- FileLines(items) :: OneLine(line)
    decreases |items|
  {
    if items != [] {
      ChunksRest(items);
      assert TidyItem(items[0]);
      TidyLines(items[1..]);
    }
  }

  /** Recording a row in a tidy file: the new text reads as the updated list of rows, and it is
      a tidy file again, so that recording the row once more changes nothing. */
  lemma RecordingUpdates(items: seq<Item>, row: SiteRow)
    requires Tidy(items) && Recordable(row)
    ensures var text := Join(FileLines(items));
      && Loads(text) == Loaded(Document(RowTables(RowsOf(items))))
      && var r := UpsertLines(LinesOf(text), row);
      && r.Upserted? && r.replaced == KeyAmong(RowsOf(items), row.key)
      && Loads(Join(r.lines)) == Loaded(Document(RowTables(UpdateRows(RowsOf(items), row))))
      && UpsertLines(LinesOf(Join(r.lines)), row) == Upserted(r.lines, true)
  {
    var after := Recorded(items, row);
    TidyLines(items);
    SplitJoin(FileLines(items));
    FileReads(items);
    ValuesOfRows(items);
    KeysOfRows(items, row.key);
    UpsertRefines(items, row);
    RecordedStaysTidy(items, row);
    RecordsRow(items, row);
    FileReads(after);
    ValuesOfRows(after);
    TidyLines(after);
    SplitJoin(FileLines(after));
    UpsertRefines(after, row);
    RecordedTwice(items, row);
  }

  lemma {:induction false} SplitsAt(items: seq<Item>, row: SiteRow)
      returns (before: seq<Item>, was: SiteRow, after: seq<Item>)
    requires HasKey(items, row.key)
    ensures was.key == row.key && items == before + [Row(was)] + after
    ensures ReplaceRow(items, row) == before + [Row(row)] + after
  {
    KeyInRest(items, row.key);
    if items[0].Row? && items[0].row.key == row.key {
      before, was, after := [], items[0].row, items[1..];
    } else {
      var rest;
      rest, was, after := SplitsAt(items[1..], row);
      before := [items[0]] + rest;
      assert items == [items[0]] + items[1..];
    }
  }

  /** Every line outside the row's own lines stays as it was. */
  lemma OtherLinesStay(items: seq<Item>, row: SiteRow) returns (before: seq<string>, was: seq<string>, after: seq<string>)
    requires Tidy(items) && Recordable(row)
    ensures FileLines(items) == before + was + after
    ensures HasKey(items, row.key) ==>
      && UpsertLines(FileLines(items), row) == Upserted(before + RenderedLines(row) + after, true)
      && exists old_: SiteRow :: old_.key == row.key && was == ShownLines(RowLines(old_))
    ensures !HasKey(items, row.key) ==>
      && was == after == []
      && UpsertLines(FileLines(items), row) == Upserted(BlankEnded(before) + RenderedLines(row), false)
  {
    UpsertRefines(items, row);
    RowTextLines(row);
    if HasKey(items, row.key) {
      var b, w, a := SplitsAt(items, row);
      before, was, after := FileLines(b), ShownLines(RowLines(w)), FileLines(a);
      LinesAround(b, w, a);
      LinesAround(b, row, a);
    } else {
      AppendsLines(items, row);
      before, was, after := FileLines(items), [], [];
    }
  }

  lemma LinesAround(before: seq<Item>, row: SiteRow, after: seq<Item>)
    ensures FileLines(before + [Row(row)] + after) == FileLines(before) + ShownLines(RowLines(row)) + FileLines(after)
  {
    assert Chunks(before + [Row(row)] + after) == Chunks(before) + [ChunkOf(Row(row))] + Chunks(after);
    Surrounded(Chunks(before), ChunkOf(Row(row)), Chunks(after));
  }
}
