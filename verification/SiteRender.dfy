/** How a docs-site row is written, and the theorem that reading it gives the row back exactly
    when its strings hold no control characters. */
module SiteRender {
  import opened Options
  import opened SubsetToml

  // ---- strings ------------------------------------------------------------------------

  function Replace(s: string, c: char, with: string): string {
    if s == "" then "" else (if s[0] == c then with else [s[0]]) + Replace(s[1..], c, with)
  }

  // Backslashes first, or the ones that escape quotes would be escaped again.
  function BasicString(v: string): string {
    "\"" + Replace(Replace(v, '\\', "\\\\"), '"', "\\\"") + "\""
  }

  function Escaped(v: string): string {
    if v == "" then ""
    else EscapeOne(v[0]) + Escaped(v[1..])
  }

  function EscapeOne(c: char): string {
    if c == '\\' then "\\\\" else if c == '"' then "\\\"" else [c]
  }

  // No character that a basic string refuses.
  predicate Plain(v: string) { forall c <- v :: ' ' <= c || c == '\t' }

  lemma PlainParts(v: string)
    requires v != ""
    ensures Plain(v) == ((' ' <= v[0] || v[0] == '\t') && Plain(v[1..]))
  {
    if Plain(v) {
      assert v[0] in v;
      forall c | c in v[1..] ensures ' ' <= c || c == '\t' {
        assert c in v;
      }
    } else {
      var c :| c in v && !(' ' <= c || c == '\t');
      assert c == v[0] || c in v[1..];
    }
  }

  lemma {:induction false} ReplaceSplits(s: string, t: string, c: char, with: string)
    ensures Replace(s + t, c, with) == Replace(s, c, with) + Replace(t, c, with)
  {
    if s == "" {
      assert s + t == t;
    } else {
      assert (s + t)[1..] == s[1..] + t;
      ReplaceSplits(s[1..], t, c, with);
    }
  }

  lemma {:induction false} ReplacingEscapes(v: string)
    ensures Replace(Replace(v, '\\', "\\\\"), '"', "\\\"") == Escaped(v)
  {
    if v != "" {
      var head := if v[0] == '\\' then "\\\\" else [v[0]];
      ReplaceSplits(head, Replace(v[1..], '\\', "\\\\"), '"', "\\\"");
      assert head[1..] == if v[0] == '\\' then "\\" else "";
      ReplacingEscapes(v[1..]);
    }
  }

  lemma OneReads(c: char, s: string)
    ensures var r, tail := Characters('"', EscapeOne(c) + s), Characters('"', s);
      if (' ' <= c || c == '\t') && tail.Ok? then r == Ok([c] + tail.value, tail.rest) else r.Bad?
  {
    var all := EscapeOne(c) + s;
    if c == '\\' || c == '"' {
      assert all == ['\\', c] + s;
      assert all[1..] == [c] + s && all[1..][1..] == s;
      assert Escape(all[1..]) == Ok(c, s);
    } else {
      assert all[0] == c && all[1..] == s;
    }
  }

  lemma {:induction false} EscapedReads(v: string, rest: string)
    ensures var r := Characters('"', Escaped(v) + "\"" + rest);
      if Plain(v) then r == Ok(v, rest) else r.Bad?
  {
    if v == "" {
      assert Escaped(v) + "\"" + rest == "\"" + rest;
    } else {
      var s := Escaped(v[1..]) + "\"" + rest;
      EscapedReads(v[1..], rest);
      PlainParts(v);
      OneReads(v[0], s);
      assert Escaped(v) + "\"" + rest == EscapeOne(v[0]) + s;
      assert [v[0]] + v[1..] == v;
    }
  }

  lemma NeverTriple(v: string, rest: string)
    requires !At(rest, '"')
    ensures !Starts("\"" + (Escaped(v) + "\"" + rest), "\"\"\"")
  {
    var s := "\"" + (Escaped(v) + "\"" + rest);
    if v == "" {
      assert s[2..] == rest;
    } else {
      assert s[1] == EscapeOne(v[0])[0];
    }
    if Starts(s, "\"\"\"") {
      TripleStarts(s);
    }
  }

  lemma TripleStarts(s: string)
    requires Starts(s, "\"\"\"")
    ensures s[1] == '"' && s[2] == '"'
  {
    assert s[..3][1] == '"' && s[..3][2] == '"';
  }

  lemma ReadsBody(t: string)
    requires !Starts("\"" + t, "\"\"\"")
    ensures Quoted("\"" + t) && ParseString("\"" + t) == Characters('"', t)
  {
    var s := "\"" + t;
    assert [s[0], s[0], s[0]] == "\"\"\"" && s[1..] == t;
  }

  lemma Regroup(body: string, rest: string)
    ensures "\"" + body + "\"" + rest == "\"" + (body + "\"" + rest)
  {
  }

  /** A written string reads back as itself exactly when it is free of control characters. */
  lemma StringReadsBack(v: string, rest: string)
    requires !At(rest, '"')
    ensures Quoted(BasicString(v) + rest)
    ensures var r := ParseString(BasicString(v) + rest);
      if Plain(v) then r == Ok(v, rest) else r.Bad?
  {
    ReplacingEscapes(v);
    Regroup(Escaped(v), rest);
    NeverTriple(v, rest);
    ReadsBody(Escaped(v) + "\"" + rest);
    EscapedReads(v, rest);
  }

  // ---- values -------------------------------------------------------------------------

  datatype Pair = Pair(name: string, text: string)

  datatype Written =
    | Flag(on: bool) | Text(s: string) | List(items: seq<string>) | Names(pairs: seq<Pair>)

  function QuotedItems(items: seq<string>): string {
    if items == [] then ""
    else if |items| == 1 then BasicString(items[0])
    else BasicString(items[0]) + ", " + QuotedItems(items[1..])
  }

  predicate BareKey(k: string) { k != "" && forall c <- k :: IsBare(c) }

  // The pattern's `$` also accepts one newline at the end.
  function TableKey(k: string): string {
    if BareKey(k) || (k != "" && k[|k| - 1] == '\n' && BareKey(k[..|k| - 1])) then k else BasicString(k)
  }

  function PairEntries(pairs: seq<Pair>): string {
    if pairs == [] then ""
    else
      var first := TableKey(pairs[0].name) + " = " + BasicString(pairs[0].text);
      if |pairs| == 1 then first else first + ", " + PairEntries(pairs[1..])
  }

  function Show(w: Written): string {
    match w
    case Flag(on) => if on then "true" else "false"
    case Text(s) => BasicString(s)
    case List(items) => "[" + QuotedItems(items) + "]"
    case Names(pairs) => "{ " + PairEntries(pairs) + " }"
  }

  function Strings(items: seq<string>): seq<Value> {
    seq(|items|, i requires 0 <= i < |items| => Str(items[i]))
  }

  function PairMap(pairs: seq<Pair>, table: Entries): Entries {
    if pairs == [] then table else PairMap(pairs[1..], table[pairs[0].name := Str(pairs[0].text)])
  }

  function Meant(w: Written): Value {
    match w
    case Flag(on) => Bool(on)
    case Text(s) => Str(s)
    case List(items) => Arr(Strings(items))
    case Names(pairs) => Table(PairMap(pairs, map[]))
  }

  predicate AllPlain(items: seq<string>) { forall v <- items :: Plain(v) }

  predicate PlainPairs(pairs: seq<Pair>) { forall p <- pairs :: Plain(p.name) && Plain(p.text) }

  predicate Clean(w: Written) {
    match w
    case Flag(_) => true
    case Text(s) => Plain(s)
    case List(items) => AllPlain(items)
    case Names(pairs) => PlainPairs(pairs)
  }

  // The names of a table written inline are keys of one dictionary.
  predicate Distinct(pairs: seq<Pair>) {
    forall i, j :: 0 <= i < j < |pairs| ==> pairs[i].name != pairs[j].name
  }

  predicate WellFormed(w: Written) { w.Names? ==> Distinct(w.pairs) }

  lemma SkipsBlank(s: string, newlines: bool)
    ensures Skip(" " + s, newlines) == Skip(s, newlines)
  {
    assert (" " + s)[1..] == s;
  }

  lemma SkipsNothing(s: string, newlines: bool)
    requires s != "" && s[0] !in " \t\r\n#"
    ensures Skip(s, newlines) == s
  {
  }

  lemma AllPlainParts(items: seq<string>)
    requires items != []
    ensures AllPlain(items) == (Plain(items[0]) && AllPlain(items[1..]))
  {
    assert items == [items[0]] + items[1..];
  }

  lemma ItemReadsBack(v: string, left: string)
    requires At(left, ',') || At(left, ']')
    ensures var r, tail := ParseItems(BasicString(v) + left), ParseItems(if At(left, ',') then left[1..] else left);
      if Plain(v) && tail.Ok? then r == Ok([Str(v)] + tail.value, tail.rest) else r.Bad?
  {
    var s := BasicString(v) + left;
    StringReadsBack(v, left);
    SkipsNothing(s, true);
    SkipsNothing(left, true);
    assert Plain(v) ==> ParseValue(s) == Ok(Str(v), left);
    assert !Plain(v) ==> ParseValue(s).Bad?;
  }

  lemma JoinsOn(head: string, tail: string, close: string, rest: string)
    ensures head + ", " + tail + close + rest == head + Separated(true, tail + close + rest)
  {
  }

  lemma JoinsLast(head: string, close: string, rest: string)
    ensures head + close + rest == head + Separated(false, "" + close + rest)
  {
    assert "" + close == close;
  }

  lemma ItemsUnfold(items: seq<string>, rest: string)
    requires items != []
    ensures QuotedItems(items) + "]" + rest
         == BasicString(items[0]) + Separated(|items| > 1, QuotedItems(items[1..]) + "]" + rest)
  {
    if |items| == 1 {
      JoinsLast(BasicString(items[0]), "]", rest);
    } else {
      JoinsOn(BasicString(items[0]), QuotedItems(items[1..]), "]", rest);
    }
  }

  function Separated(comma: bool, more: string): (r: string)
    ensures comma ==> At(r, ',') && r[1..] == " " + more
  {
    if comma then
      assert (", " + more)[1..] == " " + more;
      ", " + more
    else more
  }

  lemma NoItems(rest: string)
    ensures ParseItems(QuotedItems([]) + "]" + rest) == Ok([], rest)
    ensures At(QuotedItems([]) + "]" + rest, ']')
  {
    assert QuotedItems([]) + "]" + rest == "]" + rest;
    SkipsNothing("]" + rest, true);
    assert ("]" + rest)[1..] == rest;
  }

  lemma ItemsSkipBlank(s: string)
    ensures ParseItems(" " + s) == ParseItems(s)
  {
    SkipsBlank(s, true);
  }

  lemma {:induction false} ItemsReadBack(items: seq<string>, rest: string)
    ensures var r := ParseItems(QuotedItems(items) + "]" + rest);
      if AllPlain(items) then r == Ok(Strings(items), rest) else r.Bad?
    decreases |items|
  {
    if items == [] {
      NoItems(rest);
    } else {
      MoreItems(items, rest);
      ItemsReadBack(items[1..], rest);
      AllPlainParts(items);
      assert Strings(items) == [Str(items[0])] + Strings(items[1..]);
    }
  }

  lemma MoreItems(items: seq<string>, rest: string)
    requires items != []
    ensures var r, tail := ParseItems(QuotedItems(items) + "]" + rest), ParseItems(QuotedItems(items[1..]) + "]" + rest);
      if Plain(items[0]) && tail.Ok? then r == Ok([Str(items[0])] + tail.value, tail.rest) else r.Bad?
  {
    var more := QuotedItems(items[1..]) + "]" + rest;
    ItemsUnfold(items, rest);
    if |items| > 1 {
      ItemsSkipBlank(more);
    } else {
      assert items[1..] == [];
      NoItems(rest);
    }
    ItemReadsBack(items[0], Separated(|items| > 1, more));
  }

  lemma {:induction false} BareRunOf(k: string, rest: string)
    requires forall c <- k :: IsBare(c)
    requires rest != "" ==> !IsBare(rest[0])
    ensures BareRun(k + rest) == |k|
  {
    if k == "" {
      assert k + rest == rest;
    } else {
      assert (k + rest)[1..] == k[1..] + rest;
      BareRunOf(k[1..], rest);
    }
  }

  lemma KeyReadsBack(k: string, rest: string)
    requires At(rest, ' ')
    ensures var r := KeyPart(TableKey(k) + rest);
      if Plain(k) then r == Ok(k, rest) else r.Ok? ==> At(r.rest, '\n')
  {
    if BareKey(k) {
      BareRunOf(k, rest);
      assert !Quoted(k + rest);
      assert (k + rest)[..|k|] == k && (k + rest)[|k|..] == rest;
    } else if k != "" && k[|k| - 1] == '\n' && BareKey(k[..|k| - 1]) {
      var bare := k[..|k| - 1];
      assert k + rest == bare + ("\n" + rest);
      BareRunOf(bare, "\n" + rest);
      assert k[|k| - 1] in k && bare[0] in bare;
      assert (k + rest)[|bare|..] == "\n" + rest;
    } else {
      StringReadsBack(k, rest);
    }
  }

  lemma EqualsReads(value: string)
    requires value != "" && value[0] !in " \t\r#"
    ensures var r := Skip(" = " + value, false); At(r, '=') && Skip(r[1..], false) == value
  {
    assert " = " + value == " " + ("= " + value);
    SkipsBlank("= " + value, false);
    assert ("= " + value)[1..] == " " + value;
    SkipsBlank(value, false);
  }

  lemma BindingReads(s: string, k: string, left: string, table: Entries)
    requires KeyPart(s) == Ok(k, left) && k !in table && At(Skip(left, false), '=')
    ensures ParseBinding(s, table) ==
      (var v := ParseValue(Skip(Skip(left, false)[1..], false));
       if v.Ok? then Ok(Binding(k, v.value), v.rest) else Bad(v.why))
  {
  }

  lemma BindingRefused(s: string, table: Entries)
    requires KeyPart(s).Ok? ==> At(KeyPart(s).rest, '\n')
    ensures ParseBinding(s, table).Bad?
  {
  }

  lemma BindingReadsBack(k: string, shown: string, rest: string, table: Entries)
    requires k !in table && shown != "" && shown[0] !in " \t\r#"
    ensures var r, v := ParseBinding(TableKey(k) + " = " + shown + rest, table), ParseValue(shown + rest);
      if Plain(k) && v.Ok? then r == Ok(Binding(k, v.value), v.rest) else r.Bad?
  {
    var left := " = " + (shown + rest);
    var s := TableKey(k) + left;
    assert TableKey(k) + " = " + shown + rest == s;
    KeyReadsBack(k, left);
    EqualsReads(shown + rest);
    if Plain(k) {
      BindingReads(s, k, left, table);
    } else {
      BindingRefused(s, table);
    }
  }

  lemma PlainPairsParts(pairs: seq<Pair>)
    requires pairs != []
    ensures PlainPairs(pairs) == (Plain(pairs[0].name) && Plain(pairs[0].text) && PlainPairs(pairs[1..]))
  {
    assert pairs == [pairs[0]] + pairs[1..];
  }

  predicate Unused(pairs: seq<Pair>, table: Entries) { forall p <- pairs :: p.name !in table }

  lemma UnusedRest(pairs: seq<Pair>, table: Entries)
    requires pairs != [] && Distinct(pairs) && Unused(pairs, table)
    ensures Distinct(pairs[1..]) && Unused(pairs[1..], table[pairs[0].name := Str(pairs[0].text)])
    ensures pairs[0].name !in table
  {
    forall q | q in pairs[1..] ensures q.name !in table[pairs[0].name := Str(pairs[0].text)] {
      var j :| 0 <= j < |pairs| - 1 && pairs[1..][j] == q;
      assert pairs[j + 1] == q && q in pairs;
    }
    assert pairs[0] in pairs;
  }

  lemma EntryReadsBack(p: Pair, left: string, table: Entries)
    requires p.name !in table && left != "" && left[0] != '"'
    ensures var r := ParseBinding(Skip(TableKey(p.name) + " = " + BasicString(p.text) + left, false), table);
      if Plain(p.name) && Plain(p.text) then r == Ok(Binding(p.name, Str(p.text)), left) else r.Bad?
  {
    StringReadsBack(p.text, left);
    BindingReadsBack(p.name, BasicString(p.text), left, table);
    KeyStart(p.name);
    SkipsNothing(TableKey(p.name) + " = " + BasicString(p.text) + left, false);
  }

  lemma EntriesUnfold(pairs: seq<Pair>, rest: string)
    requires pairs != []
    ensures PairEntries(pairs) + " }" + rest
         == TableKey(pairs[0].name) + " = " + BasicString(pairs[0].text)
          + Separated(|pairs| > 1, PairEntries(pairs[1..]) + " }" + rest)
  {
    var head := TableKey(pairs[0].name) + " = " + BasicString(pairs[0].text);
    if |pairs| == 1 {
      JoinsLast(head, " }", rest);
    } else {
      JoinsOn(head, PairEntries(pairs[1..]), " }", rest);
    }
  }

  lemma ClosingBrace(rest: string)
    ensures var s := PairEntries([]) + " }" + rest;
      At(s, ' ') && Skip(s, false) == "}" + rest && ("}" + rest)[1..] == rest
  {
    assert PairEntries([]) + " }" + rest == " " + ("}" + rest);
    SkipsBlank("}" + rest, false);
    SkipsNothing("}" + rest, false);
  }

  lemma EntriesSkipBlank(s: string, table: Entries)
    ensures ParseEntries(" " + s, table) == ParseEntries(s, table)
  {
    SkipsBlank(s, false);
  }

  lemma EntriesGoOn(s: string, left: string, table: Entries, b: Binding)
    requires ParseBinding(Skip(s, false), table) == Ok(b, left) && At(left, ',')
    ensures ParseEntries(s, table) == ParseEntries(left[1..], table[b.name := b.v])
  {
    SkipsNothing(left, false);
  }

  lemma LastEntry(pairs: seq<Pair>, rest: string, table: Entries)
    requires |pairs| == 1 && pairs[0].name !in table
    ensures var r := ParseEntries(PairEntries(pairs) + " }" + rest, table);
      if Plain(pairs[0].name) && Plain(pairs[0].text)
      then r == Ok(table[pairs[0].name := Str(pairs[0].text)], rest) else r.Bad?
  {
    EntriesUnfold(pairs, rest);
    assert pairs[1..] == [];
    ClosingBrace(rest);
    EntryReadsBack(pairs[0], PairEntries([]) + " }" + rest, table);
  }

  lemma MoreEntries(pairs: seq<Pair>, rest: string, table: Entries)
    requires |pairs| > 1 && pairs[0].name !in table
    ensures var r := ParseEntries(PairEntries(pairs) + " }" + rest, table);
      if Plain(pairs[0].name) && Plain(pairs[0].text)
      then r == ParseEntries(PairEntries(pairs[1..]) + " }" + rest, table[pairs[0].name := Str(pairs[0].text)])
      else r.Bad?
  {
    var more := PairEntries(pairs[1..]) + " }" + rest;
    var left := Separated(true, more);
    EntriesUnfold(pairs, rest);
    EntryReadsBack(pairs[0], left, table);
    if Plain(pairs[0].name) && Plain(pairs[0].text) {
      EntriesGoOn(PairEntries(pairs) + " }" + rest, left, table, Binding(pairs[0].name, Str(pairs[0].text)));
      EntriesSkipBlank(more, table[pairs[0].name := Str(pairs[0].text)]);
    }
  }

  lemma {:induction false} EntriesReadBack(pairs: seq<Pair>, rest: string, table: Entries)
    requires pairs != [] && Distinct(pairs) && Unused(pairs, table)
    ensures var r := ParseEntries(PairEntries(pairs) + " }" + rest, table);
      if PlainPairs(pairs) then r == Ok(PairMap(pairs, table), rest) else r.Bad?
    decreases |pairs|
  {
    UnusedRest(pairs, table);
    PlainPairsParts(pairs);
    if |pairs| == 1 {
      LastEntry(pairs, rest, table);
    } else {
      MoreEntries(pairs, rest, table);
      EntriesReadBack(pairs[1..], rest, table[pairs[0].name := Str(pairs[0].text)]);
    }
  }

  // A written key starts with a bare character or a quote, so nothing is skipped before it.
  lemma KeyStart(k: string)
    ensures TableKey(k) != "" && TableKey(k)[0] !in " \t\r\n#[}"
  {
    if BareKey(k) {
      assert k[0] in k;
    } else if k != "" && k[|k| - 1] == '\n' && BareKey(k[..|k| - 1]) {
      assert k[..|k| - 1][0] in k[..|k| - 1];
    }
  }

  lemma BraceText(body: string, rest: string)
    ensures var s := "{ " + body + " }" + rest; At(s, '{') && s[1..] == " " + (body + " }" + rest)
  {
  }

  lemma NamesText(pairs: seq<Pair>, rest: string)
    ensures var s := Show(Names(pairs)) + rest;
      At(s, '{') && s[1..] == " " + (PairEntries(pairs) + " }" + rest)
  {
    BraceText(PairEntries(pairs), rest);
  }

  lemma EmptyTable(s: string, rest: string)
    requires At(s, '{') && Skip(s[1..], false) == "}" + rest
    ensures ParseValue(s) == Ok(Table(map[]), rest)
  {
    assert ("}" + rest)[1..] == rest;
  }

  lemma FilledTable(s: string, body: string)
    requires At(s, '{') && Skip(s[1..], false) == body && !At(body, '}')
    ensures ParseValue(s) ==
      (var t := ParseEntries(body, map[]); if t.Ok? then Ok(Table(t.value), t.rest) else Bad(t.why))
  {
  }

  lemma NamesReadBack(pairs: seq<Pair>, rest: string)
    requires Distinct(pairs)
    ensures var r := ParseValue(Show(Names(pairs)) + rest);
      if PlainPairs(pairs) then r == Ok(Meant(Names(pairs)), rest) else r.Bad?
  {
    var body := PairEntries(pairs) + " }" + rest;
    NamesText(pairs, rest);
    SkipsBlank(body, false);
    if pairs == [] {
      ClosingBrace(rest);
      EmptyTable(Show(Names(pairs)) + rest, rest);
    } else {
      EntriesUnfold(pairs, rest);
      KeyStart(pairs[0].name);
      SkipsNothing(body, false);
      FilledTable(Show(Names(pairs)) + rest, body);
      EntriesReadBack(pairs, rest, map[]);
    }
  }

  lemma FlagReadsBack(on: bool, rest: string)
    ensures ParseValue(Show(Flag(on)) + rest) == Ok(Bool(on), rest)
  {
    var s := Show(Flag(on)) + rest;
    assert s[|Show(Flag(on))|..] == rest && s[..|Show(Flag(on))|] == Show(Flag(on));
  }

  lemma ArrayReads(s: string, body: string)
    requires At(s, '[') && s[1..] == body
    ensures ParseValue(s) ==
      (var items := ParseItems(body); if items.Ok? then Ok(Arr(items.value), items.rest) else Bad(items.why))
  {
  }

  lemma ListReadsBack(items: seq<string>, rest: string)
    ensures var r := ParseValue(Show(List(items)) + rest);
      if AllPlain(items) then r == Ok(Arr(Strings(items)), rest) else r.Bad?
  {
    ItemsReadBack(items, rest);
    Bracketed(QuotedItems(items), rest);
    ArrayReads(Show(List(items)) + rest, QuotedItems(items) + "]" + rest);
  }

  lemma Bracketed(body: string, rest: string)
    ensures var s := "[" + body + "]" + rest; At(s, '[') && s[1..] == body + "]" + rest
  {
  }

  lemma TextReads(s: string)
    requires Quoted(s)
    ensures ParseValue(s) ==
      (var q := ParseString(s); if q.Ok? then Ok(Str(q.value), q.rest) else Bad(q.why))
  {
  }

  /** A written value reads back as what it means exactly when its strings are plain. */
  lemma ValueReadsBack(w: Written, rest: string)
    requires WellFormed(w) && At(rest, '\n')
    ensures var r := ParseValue(Show(w) + rest);
      if Clean(w) then r == Ok(Meant(w), rest) else r.Bad?
  {
    match w
    case Flag(on) => FlagReadsBack(on, rest);
    case Text(v) =>
      StringReadsBack(v, rest);
      TextReads(Show(w) + rest);
    case List(items) => ListReadsBack(items, rest);
    case Names(pairs) => NamesReadBack(pairs, rest);
  }
}
