/** The lines a docs-site row is written in, and what the reader does with each of them. */
module SiteLines {
  import opened Options
  import opened SubsetToml
  import opened SiteRender

  datatype Line =
    | Blank
    | SiteHeader
    | SeriesHeader(series: string)
    | PolicyHeader
    | Entry(name: string, w: Written)

  function ShowLine(line: Line): string {
    match line
    case Blank => ""
    case SiteHeader => "[[" + "site" + "]]"
    case SeriesHeader(series) => "[" + "site" + "." + "series" + "." + BasicString(series) + "]"
    case PolicyHeader => "[" + "site" + "." + "policy" + "]"
    case Entry(name, w) => name + " = " + Show(w)
  }

  function TextOf(lines: seq<Line>): string {
    if lines == [] then "" else ShowLine(lines[0]) + "\n" + TextOf(lines[1..])
  }

  predicate IsHeader(line: Line) { line.SiteHeader? || line.SeriesHeader? || line.PolicyHeader? }

  function PathOf(line: Line): (path: seq<string>)
    requires IsHeader(line)
    ensures path != []
  {
    match line
    case SiteHeader => ["site"]
    case SeriesHeader(series) => ["site", "series", series]
    case PolicyHeader => ["site", "policy"]
  }

  predicate CleanLine(line: Line) {
    match line
    case SeriesHeader(series) => Plain(series)
    case Entry(_, w) => Clean(w)
    case _ => true
  }

  // The line may stand here: its table can be opened, or its key is new.
  predicate Fits(line: Line, st: State) {
    Sane(st) &&
    match line
    case Blank => true
    case Entry(name, w) => BareKey(name) && WellFormed(w) && name !in TableAt(st.root, st.path).value
    case _ => Open(st.root, PathOf(line), line.SiteHeader?).Opened?
  }

  // What the line means.
  function Effect(line: Line, st: State): (st': State)
    requires Fits(line, st)
    ensures Sane(st')
  {
    match line
    case Blank => st
    case Entry(name, w) =>
      PutKeepsPath(st.root, st.path, name, Meant(w));
      State(Put(st.root, st.path, name, Meant(w)), st.path)
    case _ =>
      OpenedIsThere(st.root, PathOf(line), line.SiteHeader?);
      State(Open(st.root, PathOf(line), line.SiteHeader?).t, PathOf(line))
  }

  // ---- headers ------------------------------------------------------------------------

  lemma BareReads(k: string, rest: string)
    requires BareKey(k) && rest != "" && !IsBare(rest[0])
    ensures KeyPart(k + rest) == Ok(k, rest)
    ensures Skip(k + rest, false) == k + rest
  {
    BareRunOf(k, rest);
    assert k[0] in k;
    assert (k + rest)[..|k|] == k && (k + rest)[|k|..] == rest;
  }

  lemma QuotedReads(k: string, rest: string)
    requires !At(rest, '"')
    ensures Skip(BasicString(k) + rest, false) == BasicString(k) + rest
    ensures var r := KeyPart(BasicString(k) + rest);
      if Plain(k) then r == Ok(k, rest) else r.Bad?
  {
    StringReadsBack(k, rest);
  }

  lemma PartThenDot(s: string, k: string, more: string)
    requires Skip(s, false) == s && KeyPart(s) == Ok(k, "." + more)
    ensures HeaderParts(s) ==
      (var tail := HeaderParts(more); if tail.Ok? then Ok([k] + tail.value, tail.rest) else tail)
  {
    SkipsNothing("." + more, false);
    assert ("." + more)[1..] == more;
  }

  lemma LastPart(s: string, k: string, left: string)
    requires Skip(s, false) == s && KeyPart(s) == Ok(k, left) && At(left, ']')
    ensures HeaderParts(s) == Ok([k], left)
  {
    SkipsNothing(left, false);
  }

  lemma BadPart(s: string)
    requires Skip(s, false) == s && KeyPart(s).Bad?
    ensures HeaderParts(s).Bad?
  {
  }

  lemma BareNames()
    ensures BareKey("site") && BareKey("series") && BareKey("policy")
  {
  }

  lemma SitePart(more: string)
    ensures HeaderParts("site" + ("." + more)) ==
      (var tail := HeaderParts(more); if tail.Ok? then Ok(["site"] + tail.value, tail.rest) else tail)
  {
    BareNames();
    BareReads("site", "." + more);
    PartThenDot("site" + ("." + more), "site", more);
  }

  lemma SeriesParts(series: string, rest: string)
    ensures var r := HeaderParts("site" + ("." + ("series" + ("." + (BasicString(series) + ("]" + rest))))));
      if Plain(series) then r == Ok(["site", "series", series], "]" + rest) else r.Bad?
  {
    var last := BasicString(series) + ("]" + rest);
    QuotedReads(series, "]" + rest);
    if Plain(series) {
      LastPart(last, series, "]" + rest);
    } else {
      BadPart(last);
    }
    BareNames();
    var middle := "series" + ("." + last);
    BareReads("series", "." + last);
    PartThenDot(middle, "series", last);
    SitePart(middle);
    assert ["site"] + (["series"] + [series]) == ["site", "series", series];
  }

  lemma PolicyParts(rest: string)
    ensures HeaderParts("site" + ("." + ("policy" + ("]" + rest)))) == Ok(["site", "policy"], "]" + rest)
  {
    BareNames();
    BareReads("policy", "]" + rest);
    LastPart("policy" + ("]" + rest), "policy", "]" + rest);
    SitePart("policy" + ("]" + rest));
    assert ["site"] + ["policy"] == ["site", "policy"];
  }

  lemma SiteParts(rest: string)
    ensures HeaderParts("site" + ("]]" + rest)) == Ok(["site"], "]]" + rest)
  {
    BareNames();
    BareReads("site", "]]" + rest);
    LastPart("site" + ("]]" + rest), "site", "]]" + rest);
  }

  lemma HeaderReads(s: string, body: string, ofTables: bool, path: seq<string>, rest: string, st: State)
    requires At(s, '[') && Starts(s, "[[") == ofTables && s[if ofTables then 2 else 1..] == body
    requires HeaderParts(body) == Ok(path, (if ofTables then "]]" else "]") + ("\n" + rest))
    requires path != [] && Open(st.root, path, ofTables).Opened?
    ensures Header(s, st) == Ok(State(Open(st.root, path, ofTables).t, path), "\n" + rest)
  {
    var closing := if ofTables then "]]" else "]";
    var left := closing + ("\n" + rest);
    assert Starts(left, closing) && left[|closing|..] == "\n" + rest;
    assert Skip("\n" + rest, false) == "\n" + rest;
  }

  lemma BadHeader(s: string, body: string, st: State)
    requires At(s, '[') && !Starts(s, "[[") && s[1..] == body && HeaderParts(body).Bad?
    ensures Header(s, st).Bad?
  {
  }

  lemma SeriesText(a: string, b: string, q: string, rest: string)
    requires a != "" && a[0] != '['
    ensures var s := "[" + a + "." + b + "." + q + "]" + rest;
      At(s, '[') && !Starts(s, "[[") && s[1..] == a + ("." + (b + ("." + (q + ("]" + rest)))))
  {
    var tail := a + ("." + (b + ("." + (q + ("]" + rest)))));
    assert "[" + a + "." + b + "." + q + "]" + rest == "[" + tail;
    assert tail[0] == a[0] && ("[" + tail)[..2][1] == a[0];
  }

  lemma PolicyText(a: string, b: string, rest: string)
    requires a != "" && a[0] != '['
    ensures var s := "[" + a + "." + b + "]" + rest;
      At(s, '[') && !Starts(s, "[[") && s[1..] == a + ("." + (b + ("]" + rest)))
  {
    var tail := a + ("." + (b + ("]" + rest)));
    assert "[" + a + "." + b + "]" + rest == "[" + tail;
    assert tail[0] == a[0] && ("[" + tail)[..2][1] == a[0];
  }

  lemma SiteText(a: string, rest: string)
    ensures var s := "[[" + a + "]]" + rest;
      At(s, '[') && Starts(s, "[[") && s[2..] == a + ("]]" + rest)
  {
  }

  lemma SeriesLineReads(series: string, rest: string, st: State)
    requires Fits(SeriesHeader(series), st)
    ensures At(ShowLine(SeriesHeader(series)) + ("\n" + rest), '[')
    ensures var r := Header(ShowLine(SeriesHeader(series)) + ("\n" + rest), st);
      if Plain(series) then r == Ok(Effect(SeriesHeader(series), st), "\n" + rest) else r.Bad?
  {
    SeriesText("site", "series", BasicString(series), "\n" + rest);
    SeriesParts(series, "\n" + rest);
    var s := ShowLine(SeriesHeader(series)) + ("\n" + rest);
    if Plain(series) {
      HeaderReads(s, s[1..], false, ["site", "series", series], rest, st);
    } else {
      BadHeader(s, s[1..], st);
    }
  }

  lemma PolicyLineReads(rest: string, st: State)
    requires Fits(PolicyHeader, st)
    ensures At(ShowLine(PolicyHeader) + ("\n" + rest), '[')
    ensures Header(ShowLine(PolicyHeader) + ("\n" + rest), st) == Ok(Effect(PolicyHeader, st), "\n" + rest)
  {
    PolicyText("site", "policy", "\n" + rest);
    PolicyParts("\n" + rest);
    var s := ShowLine(PolicyHeader) + ("\n" + rest);
    HeaderReads(s, s[1..], false, ["site", "policy"], rest, st);
  }

  lemma SiteLineReads(rest: string, st: State)
    requires Fits(SiteHeader, st)
    ensures At(ShowLine(SiteHeader) + ("\n" + rest), '[')
    ensures Header(ShowLine(SiteHeader) + ("\n" + rest), st) == Ok(Effect(SiteHeader, st), "\n" + rest)
  {
    SiteText("site", "\n" + rest);
    SiteParts("\n" + rest);
    var s := ShowLine(SiteHeader) + ("\n" + rest);
    HeaderReads(s, s[2..], true, ["site"], rest, st);
  }

  lemma HeaderLineReads(line: Line, rest: string, st: State)
    requires IsHeader(line) && Fits(line, st)
    ensures At(ShowLine(line) + ("\n" + rest), '[')
    ensures var r := Header(ShowLine(line) + ("\n" + rest), st);
      if CleanLine(line) then r == Ok(Effect(line, st), "\n" + rest) else r.Bad?
  {
    match line
    case SiteHeader => SiteLineReads(rest, st);
    case SeriesHeader(series) => SeriesLineReads(series, rest, st);
    case PolicyHeader => PolicyLineReads(rest, st);
  }

  // ---- assignments ----------------------------------------------------------------------

  lemma EntryLineReads(name: string, w: Written, rest: string, st: State)
    requires Fits(Entry(name, w), st)
    ensures var r := Assignment(ShowLine(Entry(name, w)) + ("\n" + rest), st);
      if Clean(w) then r == Ok(Effect(Entry(name, w), st), "\n" + rest) else r.Bad?
  {
    ValueReadsBack(w, "\n" + rest);
    BindingReadsBack(name, Show(w), "\n" + rest, TableAt(st.root, st.path).value);
    assert TableKey(name) == name && Plain(name) by {
      forall c | c in name ensures ' ' <= c { }
    }
    assert Skip("\n" + rest, false) == "\n" + rest;
    assert ShowLine(Entry(name, w)) + ("\n" + rest) == TableKey(name) + " = " + Show(w) + ("\n" + rest);
  }

  // ---- whole lines ------------------------------------------------------------------------

  lemma BlankLoads(s: string, st: State)
    requires Sane(st)
    ensures Load("\n" + s, st) == Load(s, st)
  {
    assert ("\n" + s)[1..] == s;
    assert Skip("\n" + s, true) == Skip(s, true);
  }

  lemma LineLoads(line: Line, rest: string, st: State)
    requires Fits(line, st)
    ensures var r := Load(ShowLine(line) + ("\n" + rest), st);
      if CleanLine(line) then r == Load(rest, Effect(line, st)) else r.Failed?
  {
    var s := ShowLine(line) + ("\n" + rest);
    if line.Blank? {
      assert s == "\n" + rest;
      BlankLoads(rest, st);
    } else if line.Entry? {
      KeyStart(line.name);
      assert TableKey(line.name) == line.name;
      SkipsNothing(s, true);
      EntryLineReads(line.name, line.w, rest, st);
      BlankLoads(rest, Effect(line, st));
    } else {
      HeaderLineReads(line, rest, st);
      SkipsNothing(s, true);
      BlankLoads(rest, Effect(line, st));
    }
  }

  predicate FitAll(lines: seq<Line>, st: State) {
    lines == [] || (Fits(lines[0], st) && FitAll(lines[1..], Effect(lines[0], st)))
  }

  function Effects(lines: seq<Line>, st: State): (st': State)
    requires Sane(st) && FitAll(lines, st)
    ensures Sane(st')
  {
    if lines == [] then st else Effects(lines[1..], Effect(lines[0], st))
  }

  predicate CleanLines(lines: seq<Line>) { forall line <- lines :: CleanLine(line) }

  lemma CleanLinesParts(lines: seq<Line>)
    requires lines != []
    ensures CleanLines(lines) == (CleanLine(lines[0]) && CleanLines(lines[1..]))
  {
    assert lines == [lines[0]] + lines[1..];
  }

  lemma TextUnfolds(lines: seq<Line>, rest: string)
    requires lines != []
    ensures TextOf(lines) + rest == ShowLine(lines[0]) + ("\n" + (TextOf(lines[1..]) + rest))
  {
    Reassociate(ShowLine(lines[0]), TextOf(lines[1..]), rest);
  }

  lemma Reassociate(a: string, b: string, c: string)
    ensures a + "\n" + b + c == a + ("\n" + (b + c))
  {
  }

  /** Reading written lines has exactly their effect when they are clean, and fails otherwise. */
  lemma {:induction false} LinesLoad(lines: seq<Line>, rest: string, st: State)
    requires Sane(st) && FitAll(lines, st)
    ensures var r := Load(TextOf(lines) + rest, st);
      if CleanLines(lines) then r == Load(rest, Effects(lines, st)) else r.Failed?
  {
    if lines == [] {
      assert TextOf(lines) + rest == rest;
    } else {
      TextUnfolds(lines, rest);
      LineLoads(lines[0], TextOf(lines[1..]) + rest, st);
      CleanLinesParts(lines);
      if CleanLine(lines[0]) {
        LinesLoad(lines[1..], rest, Effect(lines[0], st));
      }
    }
  }

  lemma {:induction false} EffectsSplit(a: seq<Line>, b: seq<Line>, st: State)
    requires Sane(st)
    ensures FitAll(a + b, st) == (FitAll(a, st) && FitAll(b, Effects(a, st)))
    ensures FitAll(a + b, st) ==> Effects(a + b, st) == Effects(b, Effects(a, st))
  {
    if a == [] {
      assert a + b == b;
    } else {
      assert (a + b)[1..] == a[1..] + b;
      if Fits(a[0], st) {
        EffectsSplit(a[1..], b, Effect(a[0], st));
      }
    }
  }
}
