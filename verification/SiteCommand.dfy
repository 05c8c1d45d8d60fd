/** The record command on any file: what it publishes, and that it never refuses a tidy file. */
module SiteCommand {
  import opened Options
  import opened TomlLines
  import opened SubsetToml
  import opened SubsetParser
  import opened SiteRows
  import opened SiteUpsert
  import opened SiteFile
  import opened SiteRecord

  datatype Refusal = BadFile(why: Problem) | BadBlock(why: Problem) | KeyRepeated | BadResult(why: Problem) | Inexact

  datatype Answer = Published(text: string, replaced: bool) | Unchanged | Declined(why: Refusal)

  // ---- the rows of a parsed file ----------------------------------------------------------------

  function SiteTables(root: Entries): seq<Value> {
    if "site" in root && root["site"].Arr? then Tables(root["site"].items) else []
  }

  predicate HasRowKey(v: Value, key: string) {
    v.Table? && "key" in v.entries && v.entries["key"] == Str(key)
  }

  function Select(rows: seq<Value>, key: string, own: bool): (r: seq<Value>)
    ensures |r| <= |rows|
  {
    if rows == [] then []
    else (if HasRowKey(rows[0], key) == own then [rows[0]] else []) + Select(rows[1..], key, own)
  }

  // The file holds the row exactly once, and every other row as before and in the same order.
  predicate Exact(was: Entries, now: Entries, row: SiteRow) {
    && Select(SiteTables(now), row.key, false) == Select(SiteTables(was), row.key, false)
    && Select(SiteTables(now), row.key, true) == [Table(RowTable(row))]
  }

  // ---- the command ------------------------------------------------------------------------------

  function Judged(was: Entries, text: string, up: Upsert, row: SiteRow): Answer {
    match up
    case Unreadable(why) => Declined(BadBlock(why))
    case Upserted(lines, replaced) =>
      var parsed := Loads(Join(lines));
      if parsed.Failed? then Declined(BadResult(parsed.why))
      else if !Exact(was, parsed.root, row) then Declined(Inexact)
      else if Join(lines) == text then Unchanged
      else Published(Join(lines), replaced)
  }

  function Record(text: string, row: SiteRow): Answer {
    var parsed := Loads(text);
    if parsed.Failed? then Declined(BadFile(parsed.why))
    else if |Select(SiteTables(parsed.root), row.key, true)| > 1 then Declined(KeyRepeated)
    else Judged(parsed.root, text, UpsertLines(LinesOf(text), row), row)
  }

  method RecordSite(text: string, row: SiteRow) returns (answer: Answer)
    ensures answer == Record(text, row)
  {
    var parsed := LoadsSubset(text);
    if parsed.Failed? {
      return Declined(BadFile(parsed.why));
    }
    if |Select(SiteTables(parsed.root), row.key, true)| > 1 {
      return Declined(KeyRepeated);
    }
    var up := UpsertText(text, row);
    if up.Unreadable? {
      return Declined(BadBlock(up.why));
    }
    var published := Join(up.lines);
    var reparsed := LoadsSubset(published);
    if reparsed.Failed? {
      return Declined(BadResult(reparsed.why));
    }
    if !Exact(parsed.root, reparsed.root, row) {
      return Declined(Inexact);
    }
    return if published == text then Unchanged else Published(published, up.replaced);
  }

  // ---- any file -----------------------------------------------------------------------------------

  // The edit keeps every line but those of one block, the first of that key; a file with no such
  // block gets the row after its last line.
  ghost predicate SplicedOnce(lines: seq<string>, keys: seq<BlockKey>, spans: seq<Span>, key: string, written: seq<string>, up: Upsert)
    requires |keys| == |spans| && InRange(spans, |lines|) && up.Upserted?
  {
    if up.replaced
    then exists i :: 0 <= i < |spans| && keys[i] == Keyed(Some(Str(key)))
           && (forall j :: 0 <= j < i ==> keys[j] != Keyed(Some(Str(key))))
           && up.lines == lines[..spans[i].first] + written + lines[spans[i].last + 1..]
    else (forall i :: 0 <= i < |spans| ==> keys[i] != Keyed(Some(Str(key)))) && up.lines == BlankEnded(lines) + written
  }

  // A first block of another key changes nothing of what was spliced.
  lemma SplicedLater(lines: seq<string>, spans: seq<Span>, keys: seq<BlockKey>, key: string, written: seq<string>, up: Upsert)
    requires |keys| == |spans| > 0 && InRange(spans, |lines|) && up.Upserted? && keys[0] != Keyed(Some(Str(key)))
    requires SplicedOnce(lines, keys[1..], spans[1..], key, written, up)
    ensures SplicedOnce(lines, keys, spans, key, written, up)
  {
    if up.replaced {
      var i :| 0 <= i < |spans[1..]| && keys[1..][i] == Keyed(Some(Str(key)))
        && (forall j :: 0 <= j < i ==> keys[1..][j] != Keyed(Some(Str(key))))
        && up.lines == lines[..spans[1..][i].first] + written + lines[spans[1..][i].last + 1..];
      forall j | 0 <= j < i + 1 ensures keys[j] != Keyed(Some(Str(key))) {
        assert j > 0 ==> keys[1..][j - 1] == keys[j];
      }
      assert keys[i + 1] == Keyed(Some(Str(key))) && spans[i + 1] == spans[1..][i];
    } else {
      forall i | 0 <= i < |spans| ensures keys[i] != Keyed(Some(Str(key))) {
        assert i > 0 ==> keys[1..][i - 1] == keys[i];
      }
    }
  }

  lemma {:induction false} SplicesOnce(lines: seq<string>, spans: seq<Span>, keys: seq<BlockKey>, key: string, written: seq<string>)
    requires |keys| == |spans| && InRange(spans, |lines|)
    ensures var up := UpsertAt(lines, spans, keys, key, written);
      up.Upserted? ==> SplicedOnce(lines, keys, spans, key, written, up)
  {
    if spans != [] && keys[0].Keyed? && keys[0].key != Some(Str(key)) {
      SplicesOnce(lines, spans[1..], keys[1..], key, written);
      var up := UpsertAt(lines, spans[1..], keys[1..], key, written);
      if up.Upserted? { SplicedLater(lines, spans, keys, key, written, up); }
    }
  }

  // The file that stands after the command.
  function Standing(text: string, answer: Answer): string { if answer.Published? then answer.text else text }

  // The splice on the blocks of a file.
  ghost predicate SplicedInto(lines: seq<string>, row: SiteRow, up: Upsert) {
    && up.Upserted?
    && SplicedOnce(lines, BlockKeys(lines, RowBlocks(lines)), RowBlocks(lines), row.key, RenderedLines(row), up)
  }

  lemma UpsertSplices(lines: seq<string>, row: SiteRow)
    ensures UpsertLines(lines, row).Upserted? ==> SplicedInto(lines, row, UpsertLines(lines, row))
  {
    SplicesOnce(lines, RowBlocks(lines), BlockKeys(lines, RowBlocks(lines)), row.key, RenderedLines(row));
  }

  // The file that reads as `now` holds the row, and what `text` held besides.
  predicate ReadsExactly(text: string, standing: string, row: SiteRow) {
    && Loads(text).Loaded? && Loads(standing).Loaded?
    && Exact(Loads(text).root, Loads(standing).root, row)
  }

  lemma JudgedExact(text: string, up: Upsert, row: SiteRow)
    requires Loads(text).Loaded? && !Judged(Loads(text).root, text, up, row).Declined?
    ensures up.Upserted? && Standing(text, Judged(Loads(text).root, text, up, row)) == Join(up.lines)
    ensures ReadsExactly(text, Join(up.lines), row)
  {
  }

  lemma RecordIs(text: string, row: SiteRow)
    ensures !Record(text, row).Declined? ==>
      Loads(text).Loaded? && Record(text, row) == Judged(Loads(text).root, text, UpsertLines(LinesOf(text), row), row)
  {
  }

  /** On every file and for every row: what stands after a command that is not declined reads as the
      same other rows in the same order and the row exactly once, and its lines are those of the
      file outside one block; a declined command leaves the file as it is. */
  lemma RecordsOnAnyFile(text: string, row: SiteRow)
    ensures var answer := Record(text, row);
      if answer.Declined? then Standing(text, answer) == text
      else
        && ReadsExactly(text, Standing(text, answer), row)
        && var up := UpsertLines(LinesOf(text), row);
           SplicedInto(LinesOf(text), row, up) && Standing(text, answer) == Join(up.lines)
  {
    RecordIs(text, row);
    if !Record(text, row).Declined? {
      JudgedExact(text, UpsertLines(LinesOf(text), row), row);
      UpsertSplices(LinesOf(text), row);
    }
  }

  // ---- tidy files -----------------------------------------------------------------------------------

  lemma {:induction false} TablesAll(rows: seq<SiteRow>)
    ensures Tables(RowTables(rows)) == RowTables(rows)
  {
    if rows != [] {
      assert RowTables(rows)[1..] == RowTables(rows[1..]);
      TablesAll(rows[1..]);
    }
  }

  lemma DocumentTables(rows: seq<SiteRow>)
    ensures SiteTables(Document(RowTables(rows))) == RowTables(rows)
  {
    TablesAll(rows);
  }

  lemma RowHasKey(row: SiteRow, key: string)
    requires Shaped(row)
    ensures HasRowKey(Table(RowTable(row)), key) <==> row.key == key
  {
    HeadTableKeys(row);
  }

  predicate AllShaped(rows: seq<SiteRow>) { forall i :: 0 <= i < |rows| ==> Shaped(rows[i]) }

  // The rows of other keys, and the row of this key.
  function Kept(rows: seq<SiteRow>, key: string, own: bool): seq<SiteRow> {
    if rows == [] then [] else (if (rows[0].key == key) == own then [rows[0]] else []) + Kept(rows[1..], key, own)
  }

  lemma SelectFirst(v: Value, rest: seq<Value>, key: string, own: bool)
    ensures Select([v] + rest, key, own) == (if HasRowKey(v, key) == own then [v] else []) + Select(rest, key, own)
  {
    assert ([v] + rest)[1..] == rest;
  }

  lemma TablesFirst(first: SiteRow, rest: seq<SiteRow>)
    ensures RowTables([first] + rest) == [Table(RowTable(first))] + RowTables(rest)
  {
    assert RowTables([first])[0] == Table(RowTable(first));
    TablesConcat([first], rest);
  }

  lemma {:induction false} SelectsKept(rows: seq<SiteRow>, key: string, own: bool)
    requires AllShaped(rows)
    ensures Select(RowTables(rows), key, own) == RowTables(Kept(rows, key, own))
  {
    if rows != [] {
      var first, rest := rows[0], rows[1..];
      assert rows == [first] + rest;
      RowHasKey(first, key);
      SelectsKept(rest, key, own);
      TablesFirst(first, rest);
      SelectFirst(Table(RowTable(first)), RowTables(rest), key, own);
      KeptFirst(first, rest, key, own);
      TablesFirst(first, Kept(rest, key, own));
    }
  }

  lemma TablesConcat(a: seq<SiteRow>, b: seq<SiteRow>)
    ensures RowTables(a + b) == RowTables(a) + RowTables(b)
  {
  }

  predicate NoneHas(rows: seq<SiteRow>, key: string) { forall i :: 0 <= i < |rows| ==> rows[i].key != key }

  lemma {:induction false} KeptNone(rows: seq<SiteRow>, key: string)
    requires NoneHas(rows, key)
    ensures Kept(rows, key, true) == [] && Kept(rows, key, false) == rows
  {
    if rows != [] {
      KeptNone(rows[1..], key);
    }
  }

  lemma KeptFirst(first: SiteRow, rest: seq<SiteRow>, key: string, own: bool)
    ensures Kept([first] + rest, key, own) == (if (first.key == key) == own then [first] else []) + Kept(rest, key, own)
  {
    assert ([first] + rest)[1..] == rest;
  }

  lemma {:induction false} KeptSplits(a: seq<SiteRow>, b: seq<SiteRow>, key: string, own: bool)
    ensures Kept(a + b, key, own) == Kept(a, key, own) + Kept(b, key, own)
  {
    if a == [] {
      assert a + b == b;
    } else {
      var first, rest := a[0], a[1..];
      assert a == [first] + rest && a + b == [first] + (rest + b);
      KeptFirst(first, rest, key, own);
      KeptFirst(first, rest + b, key, own);
      KeptSplits(rest, b, key, own);
    }
  }

  lemma KeptParts(a: seq<SiteRow>, row: SiteRow, b: seq<SiteRow>, key: string, own: bool)
    ensures Kept(a + [row] + b, key, own)
      == Kept(a, key, own) + (if (row.key == key) == own then [row] else []) + Kept(b, key, own)
  {
    KeptSplits(a + [row], b, key, own);
    KeptSplits(a, [row], key, own);
    KeptFirst(row, [], key, own);
    assert [row] + [] == [row];
  }

  lemma KeptAround(a: seq<SiteRow>, row: SiteRow, b: seq<SiteRow>, key: string)
    requires row.key == key && NoneHas(a, key) && NoneHas(b, key)
    ensures Kept(a + [row] + b, key, true) == [row] && Kept(a + [row] + b, key, false) == a + b
  {
    KeptNone(a, key);
    KeptNone(b, key);
    KeptParts(a, row, b, key, true);
    KeptParts(a, row, b, key, false);
  }

  // Updating replaces the one row of the key, or adds it.
  predicate KeepsOthers(rows: seq<SiteRow>, row: SiteRow) {
    && Kept(UpdateRows(rows, row), row.key, true) == [row]
    && Kept(UpdateRows(rows, row), row.key, false) == Kept(rows, row.key, false)
    && |Kept(rows, row.key, true)| <= 1
  }

  lemma ReplacedAt(rows: seq<SiteRow>, row: SiteRow, k: nat)
    requires Unrepeated(rows) && k < |rows| && rows[k].key == row.key
    ensures rows == rows[..k] + [rows[k]] + rows[k + 1..]
    ensures UpdateRows(rows, row) == rows[..k] + [row] + rows[k + 1..]
    ensures NoneHas(rows[..k], row.key) && NoneHas(rows[k + 1..], row.key)
  {
  }

  lemma ReplacingKeeps(rows: seq<SiteRow>, row: SiteRow, k: nat)
    requires Unrepeated(rows) && k < |rows| && rows[k].key == row.key
    ensures KeepsOthers(rows, row)
  {
    ReplacedAt(rows, row, k);
    KeptAround(rows[..k], rows[k], rows[k + 1..], row.key);
    KeptAround(rows[..k], row, rows[k + 1..], row.key);
  }

  lemma AddingKeeps(rows: seq<SiteRow>, row: SiteRow)
    requires !KeyAmong(rows, row.key)
    ensures KeepsOthers(rows, row)
  {
    KeptNone(rows, row.key);
    assert rows + [row] + [] == rows + [row] && rows + [] == rows;
    KeptAround(rows, row, [], row.key);
  }

  lemma UpdateKeeps(rows: seq<SiteRow>, row: SiteRow)
    requires Unrepeated(rows)
    ensures KeepsOthers(rows, row)
  {
    if k :| 0 <= k < |rows| && rows[k].key == row.key {
      ReplacingKeeps(rows, row, k);
    } else {
      AddingKeeps(rows, row);
    }
  }

  lemma TidyShaped(items: seq<Item>)
    requires AllTidy(items)
    ensures AllShaped(RowsOf(items))
  {
    if items != [] {
      assert TidyItem(items[0]);
      TidyShaped(items[1..]);
    }
  }

  lemma UpdateShaped(rows: seq<SiteRow>, row: SiteRow)
    requires AllShaped(rows) && Shaped(row)
    ensures AllShaped(UpdateRows(rows, row))
  {
  }

  lemma TidyExact(rows: seq<SiteRow>, row: SiteRow)
    requires Unrepeated(rows) && AllShaped(rows) && Shaped(row)
    ensures Exact(Document(RowTables(rows)), Document(RowTables(UpdateRows(rows, row))), row)
    ensures |Select(SiteTables(Document(RowTables(rows))), row.key, true)| <= 1
  {
    var updated := UpdateRows(rows, row);
    UpdateShaped(rows, row);
    UpdateKeeps(rows, row);
    DocumentTables(rows);
    DocumentTables(updated);
    SelectsKept(rows, row.key, true);
    SelectsKept(rows, row.key, false);
    SelectsKept(updated, row.key, true);
    SelectsKept(updated, row.key, false);
  }

  /** A tidy file is never refused: it then reads as the updated list, and recording the row once
      more leaves the file unchanged. */
  lemma TidyIsRecorded(items: seq<Item>, row: SiteRow)
    requires Tidy(items) && Recordable(row)
    ensures var text := Join(FileLines(items)); var answer := Record(text, row); var standing := Standing(text, answer);
      && !answer.Declined?
      && Loads(standing) == Loaded(Document(RowTables(UpdateRows(RowsOf(items), row))))
      && Record(standing, row) == Unchanged
  {
    var text := Join(FileLines(items));
    var rows := RowsOf(items);
    RecordingUpdates(items, row);
    TidyShaped(items);
    TidyExact(rows, row);
    UpdatedUnrepeated(rows, row);
    UpdateShaped(rows, row);
    TidyExact(UpdateRows(rows, row), row);
    UpdatesAgain(rows, row);
    JudgedTidy(text, row, Document(RowTables(rows)), Document(RowTables(UpdateRows(rows, row))));
  }

  lemma UpdatesAgain(rows: seq<SiteRow>, row: SiteRow)
    requires Unrepeated(rows)
    ensures UpdateRows(UpdateRows(rows, row), row) == UpdateRows(rows, row)
  {
    UpdatedUnrepeated(rows, row);
  }

  lemma RecordGoes(text: string, row: SiteRow, was: Entries)
    requires Loads(text) == Loaded(was) && |Select(SiteTables(was), row.key, true)| <= 1
    ensures Record(text, row) == Judged(was, text, UpsertLines(LinesOf(text), row), row)
  {
  }

  lemma JudgedFine(was: Entries, now: Entries, text: string, up: Upsert, row: SiteRow)
    requires up.Upserted? && Loads(Join(up.lines)) == Loaded(now) && Exact(was, now, row)
    ensures Judged(was, text, up, row) == if Join(up.lines) == text then Unchanged else Published(Join(up.lines), up.replaced)
  {
  }

  lemma RecordFine(text: string, row: SiteRow, was: Entries, now: Entries, up: Upsert)
    requires Loads(text) == Loaded(was) && |Select(SiteTables(was), row.key, true)| <= 1 && Exact(was, now, row)
    requires up == UpsertLines(LinesOf(text), row) && up.Upserted? && Loads(Join(up.lines)) == Loaded(now)
    ensures Record(text, row) == if Join(up.lines) == text then Unchanged else Published(Join(up.lines), up.replaced)
  {
    RecordGoes(text, row, was);
    JudgedFine(was, now, text, up, row);
  }

  lemma JudgedTidy(text: string, row: SiteRow, was: Entries, now: Entries)
    requires Loads(text) == Loaded(was) && |Select(SiteTables(was), row.key, true)| <= 1 && Exact(was, now, row)
    requires var r := UpsertLines(LinesOf(text), row);
      && r.Upserted? && Loads(Join(r.lines)) == Loaded(now)
      && UpsertLines(LinesOf(Join(r.lines)), row) == Upserted(r.lines, true)
    requires |Select(SiteTables(now), row.key, true)| <= 1 && Exact(now, now, row)
    ensures var answer := Record(text, row); var standing := Standing(text, answer);
      !answer.Declined? && Loads(standing) == Loaded(now) && Record(standing, row) == Unchanged
  {
    var up := UpsertLines(LinesOf(text), row);
    RecordFine(text, row, was, now, up);
    RecordFine(Join(up.lines), row, now, now, Upserted(up.lines, true));
  }
}
