/** What the line editor makes of the lines a row is written in, and of the lines between rows. */
module SiteKinds {
  import opened Options
  import opened TomlLines
  import opened SubsetToml
  import opened SiteRender
  import opened SiteLines
  import opened SiteRows
  import opened SiteUpsert

  // ---- stripping ----------------------------------------------------------------------------

  lemma {:induction false} RStripKeeps(s: string, c: char)
    requires c in s && !IsSpace(c)
    ensures c in RStrip(s)
  {
    if IsSpace(s[|s| - 1]) {
      assert s == s[..|s| - 1] + [s[|s| - 1]];
      RStripKeeps(s[..|s| - 1], c);
    }
  }

  lemma StripOf(s: string)
    requires s != "" && !IsSpace(s[0])
    ensures Strip(s) != "" && Strip(s)[0] == s[0]
  {
    RStripKeeps(s, s[0]);
  }

  lemma StripSelf(s: string)
    requires s != "" ==> !IsSpace(s[0]) && !IsSpace(s[|s| - 1])
    ensures Strip(s) == s
  {
  }

  // ---- gaps -----------------------------------------------------------------------------------

  // A blank or comment line: the reader skips it whole.
  predicate IsGap(line: string) { OneLine(line) && Skip(line, true) == "" }

  lemma {:induction false} GapSkips(line: string, rest: string)
    requires IsGap(line)
    ensures Skip(line + rest, true) == Skip(rest, true)
    ensures GapLine(line)
  {
    var s := line + rest;
    if line[0] == '#' {
      CommentSkips(line[1..], rest);
      assert s[1..] == line[1..] + rest;
      assert ("\n" + rest)[1..] == rest;
    } else if |line| == 1 {
      assert s[1..] == rest;
    } else {
      assert s[1..] == line[1..] + rest;
      GapSkips(line[1..], rest);
    }
  }

  lemma {:induction false} CommentSkips(line: string, rest: string)
    requires OneLine(line)
    ensures SkipComment(line + rest) == "\n" + rest
  {
    var s := line + rest;
    if |line| > 1 {
      assert !IsBreak(line[0]);
      assert s[1..] == line[1..] + rest;
      CommentSkips(line[1..], rest);
    } else {
      assert s == "\n" + rest;
    }
  }

  lemma GapIsInert(line: string)
    requires GapLine(line)
    ensures KindOf(line) == Inert
  {
    if Strip(line) != "" {
      assert At(Strip(line), '#');
    }
  }

  // ---- headers --------------------------------------------------------------------------------

  predicate TableName(name: string) {
    name != "" && forall i :: 0 <= i < |name| ==> InHeaderName(name[i]) && name[i] != ' '
  }

  lemma {:induction false} ClosingOf(name: string, rest: string)
    requires forall i :: 0 <= i < |name| ==> name[i] != ']'
    ensures Closing(name + ("]" + rest)) == |name|
  {
    var s := name + ("]" + rest);
    if name == "" {
      assert s == "]" + rest;
    } else {
      assert s[1..] == name[1..] + ("]" + rest);
      ClosingOf(name[1..], rest);
    }
  }

  lemma {:induction false} NoSpaces(name: string)
    requires forall i :: 0 <= i < |name| ==> name[i] != ' '
    ensures WithoutSpaces(name) == name
  {
    if name != "" {
      NoSpaces(name[1..]);
    }
  }

  lemma BodyMatches(double: bool, name: string, rest: string)
    requires TableName(name) && TrailsOff(if At(rest, ']') then rest[1..] else rest)
    ensures MatchBody(double, name + ("]" + rest)) == HeaderLine(double, name)
  {
    ClosingOf(name, rest);
    assert (name + ("]" + rest))[..|name|] == name && (name + ("]" + rest))[|name| + 1..] == rest;
    assert InHeaderName(name[0]) && InHeaderName(name[|name| - 1]);
    StripSelf(name);
    NoSpaces(name);
  }

  lemma HeaderMatches(name: string)
    requires TableName(name)
    ensures MatchHeader("[" + (name + ("]" + "\n"))) == HeaderLine(false, name)
    ensures At(Strip("[" + (name + ("]" + "\n"))), '[')
  {
    var body := name + ("]" + "\n");
    assert InHeaderName(name[0]) && body[0] == name[0];
    assert !Starts("[" + body, "[[") by {
      assert ("[" + body)[..2][1] == name[0];
    }
    StripOf("[" + body);
    assert ("[" + body)[1..] == body;
    assert "\n"[1..] == "" && TrailsOff("\n");
    BodyMatches(false, name, "\n");
  }

  lemma DoubleHeaderMatches(name: string)
    requires TableName(name)
    ensures MatchHeader("[[" + (name + ("]" + "]\n"))) == HeaderLine(true, name)
    ensures At(Strip("[[" + (name + ("]" + "]\n"))), '[')
  {
    var body := name + ("]" + "]\n");
    StripOf("[[" + body);
    assert ("[[" + body)[2..] == body && ("[[" + body)[..2] == "[[";
    assert "\n"[1..] == "" && TrailsOff("\n") && "]\n"[1..] == "\n";
    BodyMatches(true, name, "]\n");
  }

  // A series named by digits and dots.
  predicate Versioned(name: string) { forall i :: 0 <= i < |name| ==> IsDigit(name[i]) || name[i] == '.' }

  lemma {:induction false} VersionUnescaped(name: string)
    requires Versioned(name)
    ensures Escaped(name) == name
  {
    if name != "" {
      VersionUnescaped(name[1..]);
      assert name == [name[0]] + name[1..];
    }
  }

  lemma NameGrows(a: string, b: string)
    requires TableName(a) && forall i :: 0 <= i < |b| ==> InHeaderName(b[i]) && b[i] != ' '
    ensures TableName(a + b)
  {
  }

  lemma SeriesName(name: string)
    requires Versioned(name)
    ensures TableName("site.series.\"" + name + "\"") && Starts("site.series.\"" + name + "\"", "site.")
  {
    assert TableName("site.series.\"");
    NameGrows("site.series.\"", name);
    NameGrows("site.series.\"" + name, "\"");
    assert Starts("site.series.\"", "site.");
  }

  lemma SeriesText(a: string, b: string, pre: string, name: string)
    requires pre == a + "." + b + "." + "\""
    ensures "[" + a + "." + b + "." + ("\"" + name + "\"") + "]" + "\n"
         == "[" + ((pre + name + "\"") + ("]" + "\n"))
  {
  }

  lemma SeriesKind(name: string)
    requires Versioned(name)
    ensures KindOf(ShowLine(SeriesHeader(name)) + "\n") == OwnTable
  {
    ReplacingEscapes(name);
    VersionUnescaped(name);
    assert "site" + "." + "series" + "." + "\"" == "site.series.\"";
    SeriesText("site", "series", "site.series.\"", name);
    SeriesName(name);
    HeaderMatches("site.series.\"" + name + "\"");
  }

  lemma SiteKind()
    ensures KindOf(ShowLine(SiteHeader) + "\n") == SiteStart
  {
    DoubleHeaderMatches("site");
    assert ShowLine(SiteHeader) + "\n" == "[[" + ("site" + ("]" + "]\n"));
  }

  lemma PolicyKind()
    ensures KindOf(ShowLine(PolicyHeader) + "\n") == OwnTable
  {
    assert ShowLine(PolicyHeader) + "\n" == "[" + ("site.policy" + ("]" + "\n"));
    HeaderMatches("site.policy");
    assert Starts("site.policy", "site.");
  }

  // ---- assignments ----------------------------------------------------------------------------

  lemma ScanEscape(c: char, s: string, st: Scan)
    requires st.quote == Some('"')
    ensures ScanLine(EscapeOne(c) + s, st) == ScanLine(s, st)
  {
    var all := EscapeOne(c) + s;
    if c == '\\' || c == '"' {
      assert all == ['\\', c] + s && all[2..] == s;
    } else {
      assert all == [c] + s && all[1..] == s;
    }
  }

  lemma {:induction false} ScanEscaped(v: string, rest: string, st: Scan)
    requires st.quote == Some('"')
    ensures ScanLine(Escaped(v) + ("\"" + rest), st) == ScanLine(rest, st.(quote := None))
  {
    if v == "" {
      assert Escaped(v) + ("\"" + rest) == "\"" + rest;
      assert ("\"" + rest)[1..] == rest;
    } else {
      var more := Escaped(v[1..]) + ("\"" + rest);
      assert Escaped(v) + ("\"" + rest) == EscapeOne(v[0]) + more;
      ScanEscape(v[0], more, st);
      ScanEscaped(v[1..], rest, st);
    }
  }

  /** A written string closes what it opens. */
  lemma ScanString(v: string, rest: string, depth: int)
    ensures ScanLine(BasicString(v) + rest, Scan(depth, None)) == ScanLine(rest, Scan(depth, None))
  {
    ReplacingEscapes(v);
    var s := BasicString(v) + rest;
    assert s == "\"" + (Escaped(v) + ("\"" + rest));
    assert s[1..] == Escaped(v) + ("\"" + rest);
    ScanEscaped(v, rest, Scan(depth, Some('"')));
  }

  predicate Dull(c: char) { c !in "\"'#[]" }

  lemma {:induction false} ScanDull(s: string, rest: string, depth: int)
    requires forall i :: 0 <= i < |s| ==> Dull(s[i])
    ensures ScanLine(s + rest, Scan(depth, None)) == ScanLine(rest, Scan(depth, None))
  {
    if s == "" {
      assert s + rest == rest;
    } else {
      assert (s + rest)[0] == s[0] && (s + rest)[1..] == s[1..] + rest;
      ScanDull(s[1..], rest, depth);
    }
  }

  lemma CommaText(head: string, tail: string, rest: string)
    ensures head + ", " + tail + rest == head + (", " + (tail + rest))
  {
  }

  lemma {:induction false} ScanItems(items: seq<string>, rest: string, depth: int)
    ensures ScanLine(QuotedItems(items) + rest, Scan(depth, None)) == ScanLine(rest, Scan(depth, None))
    decreases |items|
  {
    if items == [] {
      assert QuotedItems(items) + rest == rest;
    } else if |items| == 1 {
      ScanString(items[0], rest, depth);
    } else {
      var more := QuotedItems(items[1..]) + rest;
      CommaText(BasicString(items[0]), QuotedItems(items[1..]), rest);
      ScanString(items[0], ", " + more, depth);
      ScanDull(", ", more, depth);
      ScanItems(items[1..], rest, depth);
    }
  }

  lemma ScanKey(k: string, rest: string, depth: int)
    requires Plain(k)
    ensures ScanLine(TableKey(k) + rest, Scan(depth, None)) == ScanLine(rest, Scan(depth, None))
  {
    if BareKey(k) {
      forall i | 0 <= i < |k| ensures Dull(k[i]) {
        assert IsBare(k[i]);
      }
      ScanDull(k, rest, depth);
    } else {
      assert k != "" ==> k[|k| - 1] in k;
      ScanString(k, rest, depth);
    }
  }

  lemma ScanPair(p: Pair, rest: string, depth: int)
    requires Plain(p.name)
    ensures ScanLine(TableKey(p.name) + " = " + BasicString(p.text) + rest, Scan(depth, None))
         == ScanLine(rest, Scan(depth, None))
  {
    assert TableKey(p.name) + " = " + BasicString(p.text) + rest
        == TableKey(p.name) + (" = " + (BasicString(p.text) + rest));
    ScanKey(p.name, " = " + (BasicString(p.text) + rest), depth);
    ScanDull(" = ", BasicString(p.text) + rest, depth);
    ScanString(p.text, rest, depth);
  }

  lemma {:induction false} ScanPairs(pairs: seq<Pair>, rest: string, depth: int)
    requires PlainPairs(pairs)
    ensures ScanLine(PairEntries(pairs) + rest, Scan(depth, None)) == ScanLine(rest, Scan(depth, None))
    decreases |pairs|
  {
    if pairs == [] {
      assert PairEntries(pairs) + rest == rest;
    } else {
      PlainPairsParts(pairs);
      if |pairs| == 1 {
        ScanPair(pairs[0], rest, depth);
      } else {
        var more := PairEntries(pairs[1..]) + rest;
        CommaText(TableKey(pairs[0].name) + " = " + BasicString(pairs[0].text), PairEntries(pairs[1..]), rest);
        ScanPair(pairs[0], ", " + more, depth);
        ScanDull(", ", more, depth);
        ScanPairs(pairs[1..], rest, depth);
      }
    }
  }

  lemma BracketText(body: string, rest: string)
    ensures "[" + body + "]" + rest == "[" + (body + ("]" + rest))
    ensures ("[" + (body + ("]" + rest)))[1..] == body + ("]" + rest) && ("]" + rest)[1..] == rest
  {
  }

  lemma ScanList(items: seq<string>, rest: string)
    ensures ScanLine(Show(List(items)) + rest, Scan(0, None)) == ScanLine(rest, Scan(0, None))
  {
    BracketText(QuotedItems(items), rest);
    ScanItems(items, "]" + rest, 1);
  }

  lemma BraceText(body: string, rest: string)
    ensures "{ " + body + " }" + rest == "{ " + (body + (" }" + rest))
  {
  }

  lemma ScanNames(pairs: seq<Pair>, rest: string)
    requires PlainPairs(pairs)
    ensures ScanLine(Show(Names(pairs)) + rest, Scan(0, None)) == ScanLine(rest, Scan(0, None))
  {
    BraceText(PairEntries(pairs), rest);
    ScanDull("{ ", PairEntries(pairs) + (" }" + rest), 0);
    ScanPairs(pairs, " }" + rest, 0);
    ScanDull(" }", rest, 0);
  }

  /** A written value opens no array that it leaves open. */
  lemma ScanValue(w: Written, rest: string)
    requires Clean(w)
    ensures ScanLine(Show(w) + rest, Scan(0, None)) == ScanLine(rest, Scan(0, None))
  {
    match w
    case Flag(on) => ScanDull(Show(w), rest, 0);
    case Text(v) => ScanString(v, rest, 0);
    case List(items) => ScanList(items, rest);
    case Names(pairs) => ScanNames(pairs, rest);
  }

  lemma {:induction false} EqualsAfter(name: string, rest: string)
    requires forall i :: 0 <= i < |name| ==> name[i] != '='
    ensures HasEquals(name + ("=" + rest)) && AfterEquals(name + ("=" + rest)) == rest
  {
    var s := name + ("=" + rest);
    if name == "" {
      assert s == "=" + rest && s[1..] == rest;
    } else {
      assert s[0] == name[0] && s[1..] == name[1..] + ("=" + rest);
      EqualsAfter(name[1..], rest);
      assert s == [s[0]] + s[1..];
    }
  }

  // An assignment line that closes its own value.
  predicate SelfContained(line: string) {
    HasEquals(line) && ScanLine(AfterEquals(line), Scan(0, None)).depth <= 0
  }

  lemma EntryText(name: string, shown: string)
    ensures name + " = " + shown + "\n" == (name + " ") + ("=" + (" " + (shown + "\n")))
  {
  }

  lemma NoEquals(name: string)
    requires BareKey(name)
    ensures forall i :: 0 <= i < |name + " "| ==> (name + " ")[i] != '='
  {
    forall i | 0 <= i < |name + " "| ensures (name + " ")[i] != '=' {
      assert i < |name| ==> name[i] in name;
    }
  }

  lemma EntrySelfContained(name: string, w: Written)
    requires BareKey(name) && Clean(w)
    ensures SelfContained(ShowLine(Entry(name, w)) + "\n")
  {
    EntryText(name, Show(w));
    NoEquals(name);
    EqualsAfter(name + " ", " " + (Show(w) + "\n"));
    ScanDull(" ", Show(w) + "\n", 0);
    ScanValue(w, "\n");
    assert "\n"[1..] == "";
  }

  lemma EntryKind(name: string, w: Written)
    requires BareKey(name)
    ensures KindOf(ShowLine(Entry(name, w)) + "\n") == Assigns
  {
    var s := ShowLine(Entry(name, w)) + "\n";
    assert s[0] == name[0] && name[0] in name;
    StripOf(s);
    assert s[|name| + 1] == '=';
    RStripKeeps(s, '=');
  }
}
