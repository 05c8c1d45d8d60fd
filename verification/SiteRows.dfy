/** A docs-site row, the lines it is written in, and the table those lines read back as. */
module SiteRows {
  import opened Options
  import opened SubsetToml
  import opened SiteRender
  import opened SiteLines

  datatype Series = Series(
    clone: Option<string>, capture: string, extraModules: Option<seq<string>>, bridges: Option<seq<string>>)

  datatype NamedSeries = NamedSeries(name: string, series: Series)

  /** One validated row; its series are listed in the order they sort. */
  datatype SiteRow = SiteRow(
    key: string, remote: string, forkRemote: string, languages: seq<string>, audience: string,
    repos: Option<seq<string>>, series: seq<NamedSeries>, policy: map<string, Written>)

  const POLICY_KEYS: seq<string> := [
    "banned_terms", "banned_terms_exempt_paths", "forbid_version_prose", "marketplace_url",
    "site_url_prefix", "demo_company", "commit", "check_shot", "semantic_classes",
    "forward_port_branch_pattern"]

  // What the validation of a row guarantees about its shape.
  predicate Shaped(row: SiteRow) {
    && row.series != []
    && (forall i, j :: 0 <= i < j < |row.series| ==> row.series[i].name != row.series[j].name)
    && (forall n <- row.policy :: n in POLICY_KEYS && WellFormed(row.policy[n]))
  }

  // ---- writing --------------------------------------------------------------------------

  datatype Field = Field(name: string, w: Written)

  function FieldLines(fields: seq<Field>): seq<Line> {
    seq(|fields|, i requires 0 <= i < |fields| => Entry(fields[i].name, fields[i].w))
  }

  function OptionalList(name: string, items: Option<seq<string>>): seq<Field> {
    if items.Some? then [Field(name, List(items.value))] else []
  }

  function HeadFields(row: SiteRow): seq<Field> {
    [Field("key", Text(row.key)), Field("remote", Text(row.remote)),
     Field("fork_remote", Text(row.forkRemote)), Field("languages", List(row.languages)),
     Field("audience", Text(row.audience))] + OptionalList("repos", row.repos)
  }

  function SeriesFields(s: Series): seq<Field> {
    (if s.clone.Some? then [Field("clone", Text(s.clone.value))] else [])
    + [Field("instance", Text(s.capture))]
    + OptionalList("extra_modules", s.extraModules)
    + OptionalList("module_bridge_patterns", s.bridges)
  }

  function SeriesLines(series: seq<NamedSeries>): seq<Line> {
    if series == [] then []
    else [Blank, SeriesHeader(series[0].name)] + FieldLines(SeriesFields(series[0].series))
         + SeriesLines(series[1..])
  }

  function PolicyFields(keys: seq<string>, policy: map<string, Written>): seq<Field> {
    if keys == [] then []
    else (if keys[0] in policy then [Field(keys[0], policy[keys[0]])] else [])
         + PolicyFields(keys[1..], policy)
  }

  function RowLines(row: SiteRow): seq<Line> {
    [SiteHeader] + FieldLines(HeadFields(row)) + SeriesLines(row.series)
    + [Blank, PolicyHeader] + FieldLines(PolicyFields(POLICY_KEYS, row.policy))
  }

  function RenderRow(row: SiteRow): string { TextOf(RowLines(row)) }

  // ---- meaning --------------------------------------------------------------------------

  function OptionalEntry(name: string, items: Option<seq<string>>): Entries {
    if items.Some? then map[name := Arr(Strings(items.value))] else map[]
  }

  function HeadTable(row: SiteRow): Entries {
    map["key" := Str(row.key), "remote" := Str(row.remote), "fork_remote" := Str(row.forkRemote),
        "languages" := Arr(Strings(row.languages)), "audience" := Str(row.audience)]
    + OptionalEntry("repos", row.repos)
  }

  function SeriesTable(s: Series): Entries {
    (if s.clone.Some? then map["clone" := Str(s.clone.value)] else map[])
    + map["instance" := Str(s.capture)]
    + OptionalEntry("extra_modules", s.extraModules)
    + OptionalEntry("module_bridge_patterns", s.bridges)
  }

  function SeriesMap(series: seq<NamedSeries>, sofar: Entries): Entries {
    if series == [] then sofar
    else SeriesMap(series[1..], sofar[series[0].name := Table(SeriesTable(series[0].series))])
  }

  /** The row as the dictionary it is. */
  function RowTable(row: SiteRow): Entries {
    HeadTable(row)["series" := Table(SeriesMap(row.series, map[]))]
                  ["policy" := Table(map n | n in row.policy :: Meant(row.policy[n]))]
  }

  // ---- filling one table ------------------------------------------------------------------

  function SetAt(t: Entries, path: seq<string>, inner: Entries): Entries
    requires TableAt(t, path).Some?
    decreases |path|
  {
    if path == [] then inner
    else Replaced(t, path[0], SetAt(Enter(t, path[0]).value, path[1..], inner))
  }

  lemma {:induction false} PutIsSet(t: Entries, path: seq<string>, name: string, v: Value)
    requires TableAt(t, path).Some?
    ensures Put(t, path, name, v) == SetAt(t, path, TableAt(t, path).value[name := v])
    decreases |path|
  {
    if path != [] {
      PutIsSet(Enter(t, path[0]).value, path[1..], name, v);
    }
  }

  lemma {:induction false} SetIsThere(t: Entries, path: seq<string>, inner: Entries, again: Entries)
    requires TableAt(t, path).Some?
    ensures TableAt(SetAt(t, path, inner), path) == Some(inner)
    ensures SetAt(SetAt(t, path, inner), path, again) == SetAt(t, path, again)
    decreases |path|
  {
    if path != [] {
      var sub := Enter(t, path[0]).value;
      SetIsThere(sub, path[1..], inner, again);
      ReplacedEnters(t, path[0], SetAt(sub, path[1..], inner));
      ReplacedTwice(t, path[0], SetAt(sub, path[1..], inner), SetAt(sub, path[1..], again));
    }
  }

  lemma ReplacedTwice(t: Entries, part: string, a: Entries, b: Entries)
    requires Enter(t, part).Some?
    ensures Enter(Replaced(t, part, a), part).Some?
    ensures Replaced(Replaced(t, part, a), part, b) == Replaced(t, part, b)
  {
    ReplacedEnters(t, part, a);
    match t[part]
    case Table(_) =>
    case Arr(items) =>
      assert (items[..|items| - 1] + [Table(a)])[..|items|- 1] == items[..|items| - 1];
  }

  lemma {:induction false} SetSame(t: Entries, path: seq<string>)
    requires TableAt(t, path).Some?
    ensures SetAt(t, path, TableAt(t, path).value) == t
    decreases |path|
  {
    if path != [] {
      SetSame(Enter(t, path[0]).value, path[1..]);
      match t[path[0]]
      case Table(_) =>
      case Arr(items) => assert items == items[..|items| - 1] + [items[|items| - 1]];
    }
  }

  function FieldMap(fields: seq<Field>, sofar: Entries): Entries {
    if fields == [] then sofar else FieldMap(fields[1..], sofar[fields[0].name := Meant(fields[0].w)])
  }

  predicate Fresh(fields: seq<Field>, table: Entries) {
    && (forall i :: 0 <= i < |fields| ==> BareKey(fields[i].name) && WellFormed(fields[i].w))
    && (forall i :: 0 <= i < |fields| ==> fields[i].name !in table)
    && (forall i, j :: 0 <= i < j < |fields| ==> fields[i].name != fields[j].name)
  }

  /** Assignment lines fill the table they stand under, one field each. */
  lemma {:induction false} FieldsFill(fields: seq<Field>, st: State)
    requires Sane(st) && Fresh(fields, TableAt(st.root, st.path).value)
    ensures FitAll(FieldLines(fields), st)
    ensures Effects(FieldLines(fields), st)
         == State(SetAt(st.root, st.path, FieldMap(fields, TableAt(st.root, st.path).value)), st.path)
    decreases |fields|
  {
    var table := TableAt(st.root, st.path).value;
    if fields == [] {
      SetSame(st.root, st.path);
    } else {
      var line := Entry(fields[0].name, fields[0].w);
      var table' := table[fields[0].name := Meant(fields[0].w)];
      PutIsSet(st.root, st.path, fields[0].name, Meant(fields[0].w));
      SetIsThere(st.root, st.path, table', FieldMap(fields[1..], table'));
      assert FieldLines(fields)[1..] == FieldLines(fields[1..]);
      FieldsFill(fields[1..], Effect(line, st));
    }
  }

  // ---- filling one row ----------------------------------------------------------------------

  // A document whose last row so far is `row`, the reader standing in its table `sub`.
  function Under(root: Entries, rows: seq<Value>, row: Entries, sub: seq<string>): State {
    State(root["site" := Arr(rows + [Table(row)])], ["site"] + sub)
  }

  lemma UnderEnters(root: Entries, rows: seq<Value>, row: Entries, sub: seq<string>)
    ensures Enter(Under(root, rows, row, sub).root, "site") == Some(row)
    ensures TableAt(Under(root, rows, row, sub).root, Under(root, rows, row, sub).path) == TableAt(row, sub)
  {
    var items := rows + [Table(row)];
    assert items[|items| - 1] == Table(row);
    assert (["site"] + sub)[1..] == sub;
  }

  lemma UnderReplaced(root: Entries, rows: seq<Value>, row: Entries, row': Entries)
    ensures Enter(root["site" := Arr(rows + [Table(row)])], "site").Some?
    ensures Replaced(root["site" := Arr(rows + [Table(row)])], "site", row') == root["site" := Arr(rows + [Table(row')])]
  {
    var items := rows + [Table(row)];
    assert items[..|items| - 1] == rows;
    UnderEnters(root, rows, row, []);
  }

  lemma UnderSet(root: Entries, rows: seq<Value>, row: Entries, sub: seq<string>, inner: Entries)
    requires TableAt(row, sub).Some?
    ensures var st := Under(root, rows, row, sub);
      Sane(st) && State(SetAt(st.root, st.path, inner), st.path) == Under(root, rows, SetAt(row, sub, inner), sub)
  {
    UnderEnters(root, rows, row, sub);
    assert (["site"] + sub)[1..] == sub;
    UnderReplaced(root, rows, row, SetAt(row, sub, inner));
  }

  lemma UnderFill(root: Entries, rows: seq<Value>, row: Entries, sub: seq<string>, fields: seq<Field>)
    requires TableAt(row, sub).Some? && Fresh(fields, TableAt(row, sub).value)
    ensures var st := Under(root, rows, row, sub);
      Sane(st) && FitAll(FieldLines(fields), st)
      && Effects(FieldLines(fields), st)
         == Under(root, rows, SetAt(row, sub, FieldMap(fields, TableAt(row, sub).value)), sub)
  {
    UnderEnters(root, rows, row, sub);
    UnderSet(root, rows, row, sub, FieldMap(fields, TableAt(row, sub).value));
    FieldsFill(fields, Under(root, rows, row, sub));
  }

  lemma UnderHeader(root: Entries, rows: seq<Value>, row: Entries, sub: seq<string>, line: Line, at: seq<string>)
    requires (line.SeriesHeader? && at == ["series", line.series]) || (line.PolicyHeader? && at == ["policy"])
    requires TableAt(row, sub).Some? && Open(row, at, false).Opened?
    ensures var st := Under(root, rows, row, sub);
      Fits(line, st) && Effect(line, st) == Under(root, rows, Open(row, at, false).t, at)
  {
    var st := Under(root, rows, row, sub);
    UnderEnters(root, rows, row, sub);
    assert PathOf(line) == ["site"] + at && PathOf(line)[1..] == at;
    UnderReplaced(root, rows, row, Open(row, at, false).t);
  }

  // ---- the series of a row ----------------------------------------------------------------------

  function WithSeries(row: Entries, series: Entries): Entries { row["series" := Table(series)] }

  lemma StepsInto(t: Entries, a: string, b: string)
    ensures TableAt(t, [a]) == Enter(t, a)
    ensures TableAt(t, [a, b]) == if Enter(t, a).Some? then Enter(Enter(t, a).value, b) else None
  {
    assert [a, b][1..] == [b];
    if Enter(t, a).Some? {
      var inner := Enter(t, a).value;
      assert TableAt(inner, [b]) == Enter(inner, b);
    }
  }

  lemma OpenSeries(row: Entries, series: Entries, name: string)
    requires name !in series
    requires row == WithSeries(row, series) || ("series" !in row && series == map[])
    ensures var made := WithSeries(row, series[name := Table(map[])]);
      && Open(row, ["series", name], false) == Opened(made)
      && TableAt(made, ["series", name]) == Some(map[])
  {
    var parts := ["series", name];
    var t1 := if "series" in row then row else row["series" := Table(map[])];
    assert t1 == WithSeries(row, series);
    assert Enter(t1, "series") == Some(series);
    assert parts[1..] == [name];
    assert Open(series, [name], false) == Opened(series[name := Table(map[])]);
    assert Replaced(t1, "series", series[name := Table(map[])]) == WithSeries(row, series[name := Table(map[])]);
    OpenedIsThere(row, parts, false);
    assert Enter(series[name := Table(map[])], name) == Some(map[]);
    var made := WithSeries(row, series[name := Table(map[])]);
    assert Enter(made, "series") == Some(series[name := Table(map[])]);
    StepsInto(made, "series", name);
  }

  lemma SetSeries(row: Entries, series: Entries, name: string, old_: Entries, inner: Entries)
    requires row == WithSeries(row, series[name := Table(old_)])
    ensures TableAt(row, ["series", name]) == Some(old_)
    ensures SetAt(row, ["series", name], inner) == WithSeries(row, series[name := Table(inner)])
  {
    var parts, m := ["series", name], series[name := Table(old_)];
    assert row["series"] == Table(m) && Enter(row, "series") == Some(m) && Enter(m, name) == Some(old_);
    assert parts[1..] == [name] && [name][1..] == [];
    StepsInto(row, "series", name);
    assert SetAt(m, [name], inner) == series[name := Table(inner)];
  }

  // ---- what the fields of each table add up to ------------------------------------------------------

  predicate Fills(fields: seq<Field>, table: Entries, table': Entries) {
    Fresh(fields, table) && FieldMap(fields, table) == table'
  }

  predicate Named(fields: seq<Field>, n: string) {
    exists i :: 0 <= i < |fields| && fields[i].name == n
  }

  lemma {:induction false} FieldMapKeys(fields: seq<Field>, table: Entries)
    ensures forall n :: n in FieldMap(fields, table) <==> (n in table || Named(fields, n))
  {
    if fields != [] {
      var table' := table[fields[0].name := Meant(fields[0].w)];
      FieldMapKeys(fields[1..], table');
      forall n ensures n in FieldMap(fields, table) <==> (n in table || Named(fields, n)) {
        if i :| 0 <= i < |fields| && fields[i].name == n {
          assert i == 0 || fields[1..][i - 1].name == n;
        }
        if j :| 0 <= j < |fields| - 1 && fields[1..][j].name == n {
          assert fields[j + 1].name == n;
        }
      }
    }
  }

  lemma {:induction false} FieldMapSplits(a: seq<Field>, b: seq<Field>, table: Entries)
    ensures FieldMap(a + b, table) == FieldMap(b, FieldMap(a, table))
  {
    if a == [] {
      assert a + b == b;
    } else {
      assert (a + b)[1..] == a[1..] + b;
      FieldMapSplits(a[1..], b, table[a[0].name := Meant(a[0].w)]);
    }
  }

  lemma FillsThen(a: seq<Field>, b: seq<Field>, table: Entries, table': Entries, table'': Entries)
    requires Fills(a, table, table') && Fills(b, table', table'')
    ensures Fills(a + b, table, table'')
  {
    FieldMapSplits(a, b, table);
    FieldMapKeys(a, table);
    forall i, j | 0 <= i < j < |a + b| ensures (a + b)[i].name != (a + b)[j].name {
      if i < |a| <= j {
        assert a[i].name in table' && b[j - |a|].name !in table';
      }
    }
  }

  lemma FillsOne(name: string, w: Written, table: Entries)
    requires BareKey(name) && WellFormed(w) && name !in table
    ensures Fills([Field(name, w)], table, table[name := Meant(w)])
  {
    assert [Field(name, w)][1..] == [];
  }

  lemma FillsOptional(name: string, items: Option<seq<string>>, table: Entries)
    requires BareKey(name) && name !in table
    ensures Fills(OptionalList(name, items), table, table + OptionalEntry(name, items))
  {
    if items.Some? {
      FillsOne(name, List(items.value), table);
      assert table[name := Arr(Strings(items.value))] == table + OptionalEntry(name, items);
    } else {
      assert table + map[] == table;
    }
  }

  lemma SeriesKeys()
    ensures BareKey("clone") && BareKey("instance") && BareKey("extra_modules") && BareKey("module_bridge_patterns")
    ensures "clone" != "instance" && "clone" != "extra_modules" && "clone" != "module_bridge_patterns"
    ensures "instance" != "extra_modules" && "instance" != "module_bridge_patterns"
    ensures "extra_modules" != "module_bridge_patterns"
  {
  }

  // Fields of four pairwise different names, each there or not.
  lemma FourFill(a: string, b: string, c: string, d: string, clone: Option<string>, capture: string,
                 c': Option<seq<string>>, d': Option<seq<string>>)
    requires BareKey(a) && BareKey(b) && BareKey(c) && BareKey(d)
    requires a != b && a != c && a != d && b != c && b != d && c != d
    ensures Fills((if clone.Some? then [Field(a, Text(clone.value))] else [])
                    + [Field(b, Text(capture))] + OptionalList(c, c') + OptionalList(d, d'),
                  map[],
                  (if clone.Some? then map[a := Str(clone.value)] else map[])
                    + map[b := Str(capture)] + OptionalEntry(c, c') + OptionalEntry(d, d'))
  {
    var f1 := if clone.Some? then [Field(a, Text(clone.value))] else [];
    var t1: Entries := if clone.Some? then map[a := Str(clone.value)] else map[];
    if clone.Some? {
      FillsOne(a, Text(clone.value), map[]);
      assert map[][a := Str(clone.value)] == t1;
    }
    var t2 := t1 + map[b := Str(capture)];
    FillsOne(b, Text(capture), t1);
    assert t1[b := Str(capture)] == t2;
    FillsThen(f1, [Field(b, Text(capture))], map[], t1, t2);
    FillsOptional(c, c', t2);
    FillsThen(f1 + [Field(b, Text(capture))], OptionalList(c, c'), map[], t2, t2 + OptionalEntry(c, c'));
    FillsOptional(d, d', t2 + OptionalEntry(c, c'));
    FillsThen(f1 + [Field(b, Text(capture))] + OptionalList(c, c'), OptionalList(d, d'), map[],
              t2 + OptionalEntry(c, c'), t2 + OptionalEntry(c, c') + OptionalEntry(d, d'));
  }

  lemma SeriesFieldsFill(s: Series)
    ensures Fills(SeriesFields(s), map[], SeriesTable(s))
  {
    SeriesKeys();
    FourFill("clone", "instance", "extra_modules", "module_bridge_patterns", s.clone, s.capture, s.extraModules, s.bridges);
  }

  lemma HeadKeys()
    ensures BareKey("key") && BareKey("remote") && BareKey("fork_remote") && BareKey("languages")
    ensures BareKey("audience") && BareKey("repos") && "audience" != "languages"
    ensures "key" != "repos" && "remote" != "repos" && "remote" != "fork_remote"
  {
  }

  lemma HeadFieldsFill(row: SiteRow)
    ensures Fills(HeadFields(row), map[], HeadTable(row))
  {
    HeadKeys();
    var t1 := map["key" := Str(row.key)];
    var t2 := t1["remote" := Str(row.remote)];
    var t3 := t2["fork_remote" := Str(row.forkRemote)];
    var t4 := t3["languages" := Arr(Strings(row.languages))];
    var t5 := t4["audience" := Str(row.audience)];
    var f1, f2, f3 := [Field("key", Text(row.key))], [Field("remote", Text(row.remote))], [Field("fork_remote", Text(row.forkRemote))];
    var f4, f5 := [Field("languages", List(row.languages))], [Field("audience", Text(row.audience))];
    FillsOne("key", Text(row.key), map[]);
    FillsOne("remote", Text(row.remote), t1);
    FillsOne("fork_remote", Text(row.forkRemote), t2);
    FillsOne("languages", List(row.languages), t3);
    FillsOne("audience", Text(row.audience), t4);
    FillsThen(f1, f2, map[], t1, t2);
    FillsThen(f1 + f2, f3, map[], t2, t3);
    FillsThen(f1 + f2 + f3, f4, map[], t3, t4);
    FillsThen(f1 + f2 + f3 + f4, f5, map[], t4, t5);
    FillsOptional("repos", row.repos, t5);
    FillsThen(f1 + f2 + f3 + f4 + f5, OptionalList("repos", row.repos), map[], t5, HeadTable(row));
    assert HeadFields(row) == f1 + f2 + f3 + f4 + f5 + OptionalList("repos", row.repos);
  }

  // The settings among `keys` that a policy holds.
  function Settings(keys: seq<string>, policy: map<string, Written>): Entries {
    map n | n in policy && n in keys :: Meant(policy[n])
  }

  predicate ShapedPolicy(keys: seq<string>, policy: map<string, Written>) {
    && (forall k <- keys :: BareKey(k))
    && (forall i, j :: 0 <= i < j < |keys| ==> keys[i] != keys[j])
    && (forall n <- policy :: WellFormed(policy[n]))
  }

  lemma SettingsSplit(keys: seq<string>, policy: map<string, Written>, sofar: Entries)
    requires keys != [] && keys[0] !in keys[1..]
    ensures sofar + Settings(keys, policy)
      == (if keys[0] in policy then sofar[keys[0] := Meant(policy[keys[0]])] else sofar) + Settings(keys[1..], policy)
  {
    assert keys == [keys[0]] + keys[1..];
  }

  lemma ShapedRest(keys: seq<string>, policy: map<string, Written>, sofar: Entries, k: string, v: Value)
    requires keys != [] && k == keys[0] && ShapedPolicy(keys, policy) && Unset(keys, sofar)
    ensures ShapedPolicy(keys[1..], policy) && k !in keys[1..] && BareKey(k) && k !in sofar
    ensures Unset(keys[1..], sofar) && Unset(keys[1..], sofar[k := v])
  {
    assert k in keys;
    forall x | x in keys[1..] ensures x in keys && x != k {
      var j :| 0 <= j < |keys| - 1 && keys[1..][j] == x;
      assert keys[j + 1] == x;
    }
  }

  predicate Unset(keys: seq<string>, sofar: Entries) { forall k <- keys :: k !in sofar }

  lemma {:induction false} PolicyFieldsFill(keys: seq<string>, policy: map<string, Written>, sofar: Entries)
    requires ShapedPolicy(keys, policy) && Unset(keys, sofar)
    ensures Fills(PolicyFields(keys, policy), sofar, sofar + Settings(keys, policy))
    decreases |keys|
  {
    if keys == [] {
      assert sofar + Settings(keys, policy) == sofar;
    } else {
      var k, tail := keys[0], keys[1..];
      ShapedRest(keys, policy, sofar, k, if k in policy then Meant(policy[k]) else Bool(false));
      SettingsSplit(keys, policy, sofar);
      if k in policy {
        FillsOne(k, policy[k], sofar);
        PolicyFieldsFill(tail, policy, sofar[k := Meant(policy[k])]);
        FillsThen([Field(k, policy[k])], PolicyFields(tail, policy), sofar, sofar[k := Meant(policy[k])],
                  sofar + Settings(keys, policy));
      } else {
        PolicyFieldsFill(tail, policy, sofar);
        assert [] + PolicyFields(tail, policy) == PolicyFields(tail, policy);
      }
    }
  }

  // ---- the lines of a row ---------------------------------------------------------------------

  lemma SeriesOpens(root: Entries, rows: seq<Value>, row: Entries, sub: seq<string>,
                    head: Entries, done: Entries, name: string)
    requires TableAt(row, sub).Some? && name !in done
    requires row == WithSeries(head, done) || (row == head && "series" !in head && done == map[])
    ensures var st, lines := Under(root, rows, row, sub), [Blank, SeriesHeader(name)];
      && Sane(st) && FitAll(lines, st)
      && Effects(lines, st) == Under(root, rows, WithSeries(head, done[name := Table(map[])]), ["series", name])
  {
    UnderEnters(root, rows, row, sub);
    OpenSeries(row, done, name);
    var made := WithSeries(head, done[name := Table(map[])]);
    assert WithSeries(row, done[name := Table(map[])]) == made;
    UnderHeader(root, rows, row, sub, SeriesHeader(name), ["series", name]);
    OpensTo([Blank, SeriesHeader(name)], Under(root, rows, row, sub), Under(root, rows, made, ["series", name]));
  }

  lemma SeriesFills(root: Entries, rows: seq<Value>, head: Entries, done: Entries, next: NamedSeries)
    ensures var st, lines := Under(root, rows, WithSeries(head, done[next.name := Table(map[])]), ["series", next.name]),
        FieldLines(SeriesFields(next.series));
      && Sane(st) && FitAll(lines, st)
      && Effects(lines, st) == Under(root, rows, WithSeries(head, done[next.name := Table(SeriesTable(next.series))]),
                                     ["series", next.name])
  {
    var made := WithSeries(head, done[next.name := Table(map[])]);
    var at := ["series", next.name];
    SetSeries(made, done, next.name, map[], SeriesTable(next.series));
    SeriesFieldsFill(next.series);
    UnderFill(root, rows, made, at, SeriesFields(next.series));
    assert WithSeries(made, done[next.name := Table(SeriesTable(next.series))])
        == WithSeries(head, done[next.name := Table(SeriesTable(next.series))]);
  }

  lemma OneSeries(root: Entries, rows: seq<Value>, row: Entries, sub: seq<string>,
                  head: Entries, done: Entries, next: NamedSeries)
    requires TableAt(row, sub).Some? && next.name !in done
    requires row == WithSeries(head, done) || (row == head && "series" !in head && done == map[])
    ensures var st, lines := Under(root, rows, row, sub),
        [Blank, SeriesHeader(next.name)] + FieldLines(SeriesFields(next.series));
      && Sane(st) && FitAll(lines, st)
      && Effects(lines, st) == Under(root, rows, WithSeries(head, done[next.name := Table(SeriesTable(next.series))]),
                                     ["series", next.name])
  {
    SeriesOpens(root, rows, row, sub, head, done, next.name);
    SeriesFills(root, rows, head, done, next);
    EffectsSplit([Blank, SeriesHeader(next.name)], FieldLines(SeriesFields(next.series)), Under(root, rows, row, sub));
  }

  lemma OpensTo(lines: seq<Line>, st: State, st': State)
    requires |lines| == 2 && lines[0] == Blank && Sane(st) && Fits(lines[1], st) && Effect(lines[1], st) == st'
    ensures FitAll(lines, st) && Effects(lines, st) == st'
  {
    var tail := lines[1..];
    assert tail[0] == lines[1] && tail[1..] == [];
    assert FitAll([], st') && Effects([], st') == st';
    assert FitAll(tail, st) && Effects(tail, st) == st';
  }

  predicate NewNames(series: seq<NamedSeries>, done: Entries) {
    && (forall i :: 0 <= i < |series| ==> series[i].name !in done)
    && (forall i, j :: 0 <= i < j < |series| ==> series[i].name != series[j].name)
  }

  lemma {:induction false} AllSeries(root: Entries, rows: seq<Value>, row: Entries, sub: seq<string>,
                                     head: Entries, done: Entries, series: seq<NamedSeries>)
    requires series != [] && NewNames(series, done) && TableAt(row, sub).Some?
    requires row == WithSeries(head, done) || (row == head && "series" !in head && done == map[])
    ensures var st := Under(root, rows, row, sub);
      && Sane(st) && FitAll(SeriesLines(series), st)
      && Effects(SeriesLines(series), st)
         == Under(root, rows, WithSeries(head, SeriesMap(series, done)), ["series", series[|series| - 1].name])
    decreases |series|
  {
    var next, tail := series[0], series[1..];
    var done' := done[next.name := Table(SeriesTable(next.series))];
    var row', sub' := WithSeries(head, done'), ["series", next.name];
    NewNamesRest(series, done, Table(SeriesTable(next.series)));
    SeriesStep(root, rows, row, sub, head, done, series);
    assert SeriesMap(series, done) == SeriesMap(tail, done');
    if tail == [] {
      assert SeriesMap(tail, done') == done';
    } else {
      assert series[|series| - 1] == tail[|tail| - 1];
      AllSeries(root, rows, row', sub', head, done', tail);
    }
  }

  lemma SeriesStep(root: Entries, rows: seq<Value>, row: Entries, sub: seq<string>,
                   head: Entries, done: Entries, series: seq<NamedSeries>)
    requires series != [] && series[0].name !in done && TableAt(row, sub).Some?
    requires row == WithSeries(head, done) || (row == head && "series" !in head && done == map[])
    ensures var next := series[0];
      var row' := WithSeries(head, done[next.name := Table(SeriesTable(next.series))]);
      var st, st' := Under(root, rows, row, sub), Under(root, rows, row', ["series", next.name]);
      && Sane(st) && Sane(st') && TableAt(row', ["series", next.name]).Some?
      && (FitAll(SeriesLines(series[1..]), st') ==>
            FitAll(SeriesLines(series), st)
            && Effects(SeriesLines(series), st) == Effects(SeriesLines(series[1..]), st'))
  {
    var next := series[0];
    var row' := WithSeries(head, done[next.name := Table(SeriesTable(next.series))]);
    var st' := Under(root, rows, row', ["series", next.name]);
    OneSeries(root, rows, row, sub, head, done, next);
    StepsInto(row', "series", next.name);
    UnderEnters(root, rows, row', ["series", next.name]);
    if FitAll(SeriesLines(series[1..]), st') {
      SeriesThen(series, Under(root, rows, row, sub), st');
    }
  }

  lemma NewNamesRest(series: seq<NamedSeries>, done: Entries, v: Value)
    requires series != [] && NewNames(series, done)
    ensures series[0].name !in done && NewNames(series[1..], done[series[0].name := v])
  {
  }

  lemma SeriesThen(series: seq<NamedSeries>, st: State, st': State)
    requires series != [] && Sane(st)
    requires var first := [Blank, SeriesHeader(series[0].name)] + FieldLines(SeriesFields(series[0].series));
      FitAll(first, st) && Effects(first, st) == st' && FitAll(SeriesLines(series[1..]), st')
    ensures FitAll(SeriesLines(series), st)
    ensures Effects(SeriesLines(series), st) == Effects(SeriesLines(series[1..]), st')
  {
    EffectsSplit([Blank, SeriesHeader(series[0].name)] + FieldLines(SeriesFields(series[0].series)),
                 SeriesLines(series[1..]), st);
  }

  // The list of rows a document holds so far.
  predicate HoldsRows(root: Entries, rows: seq<Value>) {
    if "site" in root then root["site"] == Arr(rows) else rows == []
  }

  lemma SiteOpens(rows: seq<Value>, st: State)
    requires Sane(st) && HoldsRows(st.root, rows)
    ensures FitAll([SiteHeader], st) && Effects([SiteHeader], st) == Under(st.root, rows, map[], [])
  {
    assert Open(st.root, ["site"], true) == Opened(Under(st.root, rows, map[], []).root) by {
      assert [] + [Table(map[])] == [Table(map[])];
    }
    assert [SiteHeader][1..] == [] && ["site"] + [] == ["site"];
  }

  lemma HeadFills(rows: seq<Value>, row: SiteRow, st: State)
    requires Sane(st) && HoldsRows(st.root, rows)
    ensures var lines := [SiteHeader] + FieldLines(HeadFields(row));
      FitAll(lines, st) && Effects(lines, st) == Under(st.root, rows, HeadTable(row), [])
  {
    SiteOpens(rows, st);
    HeadFieldsFill(row);
    UnderFill(st.root, rows, map[], [], HeadFields(row));
    EffectsSplit([SiteHeader], FieldLines(HeadFields(row)), st);
  }

  lemma PolicyOpens(root: Entries, rows: seq<Value>, row: Entries, sub: seq<string>)
    requires TableAt(row, sub).Some? && "policy" !in row
    ensures var st, lines := Under(root, rows, row, sub), [Blank, PolicyHeader];
      && Sane(st) && FitAll(lines, st)
      && Effects(lines, st) == Under(root, rows, row["policy" := Table(map[])], ["policy"])
  {
    var made := row["policy" := Table(map[])];
    UnderEnters(root, rows, row, sub);
    assert Open(row, ["policy"], false) == Opened(made);
    UnderHeader(root, rows, row, sub, PolicyHeader, ["policy"]);
    OpensTo([Blank, PolicyHeader], Under(root, rows, row, sub), Under(root, rows, made, ["policy"]));
  }

  lemma StepSets(row: Entries, part: string, table: Entries, table': Entries)
    requires part in row && row[part] == Table(table)
    ensures TableAt(row, [part]) == Some(table)
    ensures SetAt(row, [part], table') == row[part := Table(table')]
  {
    StepsInto(row, part, "");
    assert [part][1..] == [];
  }

  lemma PartFills(root: Entries, rows: seq<Value>, row: Entries, part: string, fields: seq<Field>, table: Entries)
    requires part in row && row[part] == Table(map[]) && Fills(fields, map[], table)
    ensures var st, lines := Under(root, rows, row, [part]), FieldLines(fields);
      && Sane(st) && FitAll(lines, st) && Effects(lines, st) == Under(root, rows, row[part := Table(table)], [part])
  {
    StepSets(row, part, map[], table);
    UnderFill(root, rows, row, [part], fields);
  }

  lemma SettingsFill(keys: seq<string>, policy: map<string, Written>)
    requires ShapedPolicy(keys, policy) && forall n <- policy :: n in keys
    ensures Fills(PolicyFields(keys, policy), map[], map n | n in policy :: Meant(policy[n]))
  {
    PolicyFieldsFill(keys, policy, map[]);
    assert map[] + Settings(keys, policy) == map n | n in policy :: Meant(policy[n]);
  }

  lemma SettingsFollow(root: Entries, rows: seq<Value>, row: Entries, keys: seq<string>, policy: map<string, Written>)
    requires ShapedPolicy(keys, policy) && forall n <- policy :: n in keys
    ensures var st, lines := Under(root, rows, row["policy" := Table(map[])], ["policy"]),
        FieldLines(PolicyFields(keys, policy));
      && Sane(st) && FitAll(lines, st)
      && Effects(lines, st)
         == Under(root, rows, row["policy" := Table(map n | n in policy :: Meant(policy[n]))], ["policy"])
  {
    SettingsFill(keys, policy);
    var settings: Entries := map n | n in policy :: Meant(policy[n]);
    var made := row["policy" := Table(map[])];
    PartFills(root, rows, made, "policy", PolicyFields(keys, policy), settings);
    assert made["policy" := Table(settings)] == row["policy" := Table(settings)];
  }

  lemma PolicyFills(root: Entries, rows: seq<Value>, row: Entries, sub: seq<string>, policy: map<string, Written>)
    requires TableAt(row, sub).Some? && "policy" !in row
    requires forall n <- policy :: n in POLICY_KEYS && WellFormed(policy[n])
    ensures var st, lines := Under(root, rows, row, sub),
        [Blank, PolicyHeader] + FieldLines(PolicyFields(POLICY_KEYS, policy));
      && Sane(st) && FitAll(lines, st)
      && Effects(lines, st)
         == Under(root, rows, row["policy" := Table(map n | n in policy :: Meant(policy[n]))], ["policy"])
  {
    PolicyOpens(root, rows, row, sub);
    PolicyKeysShaped(POLICY_KEYS, policy);
    SettingsFollow(root, rows, row, POLICY_KEYS, policy);
    EffectsSplit([Blank, PolicyHeader], FieldLines(PolicyFields(POLICY_KEYS, policy)), Under(root, rows, row, sub));
  }

  lemma FirstFiveBare()
    ensures BareKey("banned_terms") && BareKey("banned_terms_exempt_paths") && BareKey("forbid_version_prose")
    ensures BareKey("marketplace_url") && BareKey("site_url_prefix")
  {
  }

  lemma LastFiveBare()
    ensures BareKey("demo_company") && BareKey("commit") && BareKey("check_shot")
    ensures BareKey("semantic_classes") && BareKey("forward_port_branch_pattern")
  {
  }

  lemma PolicyKeysDiffer()
    ensures forall i, j :: 0 <= i < j < |POLICY_KEYS| ==> POLICY_KEYS[i] != POLICY_KEYS[j]
  {
    var keys := POLICY_KEYS;
    forall i, j | 0 <= i < j < |keys| ensures |keys[i]| != |keys[j]| || keys[i][0] != keys[j][0] {
    }
  }

  lemma PolicyKeysBare()
    ensures forall i :: 0 <= i < |POLICY_KEYS| ==> BareKey(POLICY_KEYS[i])
  {
    FirstFiveBare();
    LastFiveBare();
  }

  lemma PolicyKeysShaped(keys: seq<string>, policy: map<string, Written>)
    requires keys == POLICY_KEYS
    requires forall n <- policy :: WellFormed(policy[n])
    ensures ShapedPolicy(keys, policy)
  {
    PolicyKeysBare();
    PolicyKeysDiffer();
  }

  lemma InTurn(a: seq<Line>, b: seq<Line>, c: seq<Line>, st: State, st1: State, st2: State)
    requires Sane(st) && FitAll(a, st) && Effects(a, st) == st1
    requires FitAll(b, st1) && Effects(b, st1) == st2
    requires FitAll(c, st2)
    ensures FitAll(a + b + c, st) && Effects(a + b + c, st) == Effects(c, st2)
  {
    EffectsSplit(a, b, st);
    EffectsSplit(a + b, c, st);
  }

  lemma RowParts(row: SiteRow)
    ensures RowLines(row) == ([SiteHeader] + FieldLines(HeadFields(row))) + SeriesLines(row.series)
      + ([Blank, PolicyHeader] + FieldLines(PolicyFields(POLICY_KEYS, row.policy)))
  {
  }

  lemma SeriesOf(root: Entries, rows: seq<Value>, row: SiteRow)
    requires Shaped(row)
    ensures var st, last := Under(root, rows, HeadTable(row), []), ["series", row.series[|row.series| - 1].name];
      var filled := WithSeries(HeadTable(row), SeriesMap(row.series, map[]));
      && Sane(st) && FitAll(SeriesLines(row.series), st) && "policy" !in filled
      && Effects(SeriesLines(row.series), st) == Under(root, rows, filled, last)
      && TableAt(filled, last).Some?
  {
    HeadTableKeys(row);
    var head, filled := HeadTable(row), WithSeries(HeadTable(row), SeriesMap(row.series, map[]));
    AllSeries(root, rows, head, [], head, map[], row.series);
    UnderEnters(root, rows, filled, ["series", row.series[|row.series| - 1].name]);
  }

  /** Written lines of a row add that row to the document's list, and change nothing else. */
  lemma RowEffect(rows: seq<Value>, row: SiteRow, st: State)
    requires Sane(st) && HoldsRows(st.root, rows) && Shaped(row)
    ensures FitAll(RowLines(row), st)
    ensures Effects(RowLines(row), st) == Under(st.root, rows, RowTable(row), ["policy"])
  {
    var head, filled := HeadTable(row), WithSeries(HeadTable(row), SeriesMap(row.series, map[]));
    var last := ["series", row.series[|row.series| - 1].name];
    HeadFills(rows, row, st);
    SeriesOf(st.root, rows, row);
    PolicyFills(st.root, rows, filled, last, row.policy);
    RowParts(row);
    InTurn([SiteHeader] + FieldLines(HeadFields(row)), SeriesLines(row.series),
           [Blank, PolicyHeader] + FieldLines(PolicyFields(POLICY_KEYS, row.policy)),
           st, Under(st.root, rows, head, []), Under(st.root, rows, filled, last));
  }

  lemma HeadTableKeys(row: SiteRow)
    ensures "series" !in HeadTable(row) && "policy" !in HeadTable(row)
    ensures HeadTable(row)["key"] == Str(row.key) && RowTable(row)["key"] == Str(row.key)
  {
    assert "key" != "repos" && "series" != "audience";
  }

  // ---- which rows survive ------------------------------------------------------------------------

  /** No string of the row holds a control character other than a tab. */
  predicate CleanRow(row: SiteRow) {
    && Plain(row.key) && Plain(row.remote) && Plain(row.forkRemote) && Plain(row.audience)
    && AllPlain(row.languages) && (row.repos.Some? ==> AllPlain(row.repos.value))
    && (forall s <- row.series :: Plain(s.name) && CleanSeries(s.series))
    && (forall n <- row.policy :: Clean(row.policy[n]))
  }

  predicate CleanSeries(s: Series) {
    && (s.clone.Some? ==> Plain(s.clone.value)) && Plain(s.capture)
    && (s.extraModules.Some? ==> AllPlain(s.extraModules.value))
    && (s.bridges.Some? ==> AllPlain(s.bridges.value))
  }

  lemma CleanConcat(a: seq<Line>, b: seq<Line>)
    ensures CleanLines(a + b) == (CleanLines(a) && CleanLines(b))
  {
  }

  predicate CleanFields(fields: seq<Field>) { forall f <- fields :: Clean(f.w) }

  lemma CleanFieldLines(fields: seq<Field>)
    ensures CleanLines(FieldLines(fields)) == CleanFields(fields)
  {
    if CleanLines(FieldLines(fields)) {
      forall f | f in fields ensures Clean(f.w) {
        var i :| 0 <= i < |fields| && fields[i] == f;
        assert FieldLines(fields)[i] in FieldLines(fields);
      }
    }
  }

  lemma CleanHead(row: SiteRow)
    ensures CleanFields(HeadFields(row)) == (Plain(row.key) && Plain(row.remote) && Plain(row.forkRemote)
      && Plain(row.audience) && AllPlain(row.languages) && (row.repos.Some? ==> AllPlain(row.repos.value)))
  {
    var f := HeadFields(row);
    assert f[0] in f && f[1] in f && f[2] in f && f[3] in f && f[4] in f;
    assert row.repos.Some? ==> f[5] in f;
  }

  lemma CleanSeriesFields(s: Series)
    ensures CleanFields(SeriesFields(s)) == CleanSeries(s)
  {
    var f := SeriesFields(s);
    var a: seq<Field> := if s.clone.Some? then [Field("clone", Text(s.clone.value))] else [];
    assert forall x <- a :: x in f;
    assert forall x <- OptionalList("extra_modules", s.extraModules) :: x in f;
    assert forall x <- OptionalList("module_bridge_patterns", s.bridges) :: x in f;
    assert Field("instance", Text(s.capture)) in f;
    if s.clone.Some? { assert a[0] in a; }
    if s.extraModules.Some? { assert Field("extra_modules", List(s.extraModules.value)) in f; }
    if s.bridges.Some? { assert Field("module_bridge_patterns", List(s.bridges.value)) in f; }
  }

  predicate CleanNamed(series: seq<NamedSeries>) {
    forall s <- series :: Plain(s.name) && CleanSeries(s.series)
  }

  lemma {:induction false} CleanSeriesLines(series: seq<NamedSeries>)
    ensures CleanLines(SeriesLines(series)) == CleanNamed(series)
  {
    if series != [] {
      var opening := [Blank, SeriesHeader(series[0].name)];
      var fields := FieldLines(SeriesFields(series[0].series));
      CleanSeriesFields(series[0].series);
      CleanFieldLines(SeriesFields(series[0].series));
      CleanConcat(opening, fields);
      CleanConcat(opening + fields, SeriesLines(series[1..]));
      CleanSeriesLines(series[1..]);
      assert opening[1] in opening;
      assert series == [series[0]] + series[1..];
    }
  }

  lemma {:induction false} CleanPolicyFields(keys: seq<string>, policy: map<string, Written>)
    ensures CleanFields(PolicyFields(keys, policy)) == forall n <- keys :: n in policy ==> Clean(policy[n])
  {
    if keys != [] {
      CleanPolicyFields(keys[1..], policy);
      var here: seq<Field> := if keys[0] in policy then [Field(keys[0], policy[keys[0]])] else [];
      assert keys == [keys[0]] + keys[1..];
      assert PolicyFields(keys, policy) == here + PolicyFields(keys[1..], policy);
      if keys[0] in policy { assert here[0] in here; }
    }
  }

  lemma CleanRowLines(row: SiteRow)
    requires Shaped(row)
    ensures CleanLines(RowLines(row)) == CleanRow(row)
  {
    var head, series, policy := FieldLines(HeadFields(row)), SeriesLines(row.series),
      FieldLines(PolicyFields(POLICY_KEYS, row.policy));
    CleanHead(row);
    CleanFieldLines(HeadFields(row));
    CleanSeriesLines(row.series);
    CleanPolicyFields(POLICY_KEYS, row.policy);
    CleanFieldLines(PolicyFields(POLICY_KEYS, row.policy));
    CleanConcat([SiteHeader], head);
    CleanConcat([SiteHeader] + head, series);
    CleanConcat([SiteHeader] + head + series, [Blank, PolicyHeader]);
    CleanConcat([SiteHeader] + head + series + [Blank, PolicyHeader], policy);
  }

  // ---- round trip ---------------------------------------------------------------------------------

  /** Reading on from a written row: the row is appended to the list, or the text is refused. */
  lemma RowLoads(rows: seq<Value>, row: SiteRow, rest: string, st: State)
    requires Sane(st) && HoldsRows(st.root, rows) && Shaped(row)
    ensures Sane(Under(st.root, rows, RowTable(row), ["policy"]))
    ensures var r := Load(RenderRow(row) + rest, st);
      if CleanRow(row) then r == Load(rest, Under(st.root, rows, RowTable(row), ["policy"])) else r.Failed?
  {
    RowEffect(rows, row, st);
    CleanRowLines(row);
    LinesLoad(RowLines(row), rest, st);
  }

  lemma NothingLeft(st: State)
    requires Sane(st)
    ensures Load("", st) == Loaded(st.root)
  {
  }

  lemma OnlyRow(t: Entries)
    ensures Under(map[], [], t, ["policy"]).root == map["site" := Arr([Table(t)])]
  {
    assert [] + [Table(t)] == [Table(t)];
  }

  /** The text of a row reads back as exactly that row if and only if its strings are clean. */
  lemma RowRoundTrip(row: SiteRow)
    requires Shaped(row)
    ensures Loads(RenderRow(row)) == Loaded(map["site" := Arr([Table(RowTable(row))])]) <==> CleanRow(row)
    ensures !CleanRow(row) ==> Loads(RenderRow(row)).Failed?
  {
    var st := State(map[], []);
    RowLoads([], row, "", st);
    assert RenderRow(row) + "" == RenderRow(row);
    OnlyRow(RowTable(row));
    NothingLeft(Under(st.root, [], RowTable(row), ["policy"]));
  }
}
