/** Permission rules and the test whether an allow list already grants one: whatever the test
    calls covered is matched by the entry it names, but for one degenerate pair of patterns. */
module RuleCoverage {
  import opened Options

  // ---- what a rule matches ------------------------------------------------------------------

  // A tool use: a command line for the shell tool, a path for a file tool.
  datatype Use = Use(tool: string, text: string)

  datatype Rule = Rule(tool: string, spec: Option<string>)

  predicate StartsWith(s: string, prefix: string) { |s| >= |prefix| && s[..|prefix|] == prefix }

  predicate EndsWith(s: string, suffix: string) { |s| >= |suffix| && s[|s| - |suffix|..] == suffix }

  // The position of the first opening parenthesis.
  function Paren(s: string): (n: nat)
    ensures n <= |s| && (n < |s| ==> s[n] == '(') && '(' !in s[..n]
    ensures n == |s| ==> '(' !in s
  {
    if s == "" || s[0] == '(' then 0 else 1 + Paren(s[1..])
  }

  function ParseRule(rule: string): Rule {
    if '(' in rule && EndsWith(rule, ")")
    then Rule(rule[..Paren(rule)], Some(Inner(rule, Paren(rule) + 1)))
    else Rule(rule, None)
  }

  // `s[from:-1]`, empty when the bounds cross.
  function Inner(s: string, from: nat): string {
    if from <= |s| - 1 then s[from..|s| - 1] else ""
  }

  // `**` stands for any text; `*` for any text, and for one without a slash in a path pattern.
  predicate Glob(p: string, s: string, path: bool)
    decreases |p|
  {
    if p == "" then s == ""
    else if StartsWith(p, "**") then exists k :: 0 <= k <= |s| && Glob(p[2..], s[k..], path)
    else if p[0] == '*' then exists k :: 0 <= k <= |s| && (path ==> '/' !in s[..k]) && Glob(p[1..], s[k..], path)
    else s != "" && s[0] == p[0] && Glob(p[1..], s[1..], path)
  }

  // A trailing `:*` is another spelling of a trailing ` *`.
  function CommandPattern(spec: string): string {
    if EndsWith(spec, ":*") then spec[..|spec| - 2] + " *" else spec
  }

  // `relative` says what a file pattern without the root anchor matches in the session at hand.
  predicate SpecMatches(relative: Use -> bool, tool: string, spec: string, text: string) {
    if spec == "*" then true
    else if tool == "Bash" then Glob(CommandPattern(spec), text, false)
    else if StartsWith(spec, "//") then Glob(spec[1..], text, true)
    else relative(Use(spec, text))
  }

  predicate Matches(relative: Use -> bool, rule: string, u: Use) {
    var r := ParseRule(rule);
    r.tool == u.tool && (r.spec.Some? ==> SpecMatches(relative, r.tool, r.spec.value, u.text))
  }

  // A rule is a tool name, or a tool name and a specifier in parentheses.
  predicate WellFormed(rule: string) { '(' in rule ==> EndsWith(rule, ")") }

  // ---- the test -----------------------------------------------------------------------------

  function Anchor(spec: string): string {
    if |spec| >= 5 then spec[2..|spec| - 3] else ""
  }

  // An ancestor directory, both sides anchored at the root of the file system.
  predicate AncestorCovers(entry: string, tool: string, spec: string) {
    && StartsWith(entry, tool + "(//") && EndsWith(entry, "/**)")
    && var anchor := Anchor(Inner(entry, |tool| + 1));
       Anchor(spec) == anchor || StartsWith(Anchor(spec), anchor + "/")
  }

  // A literal command prefix before a trailing wildcard.
  predicate PrefixCovers(entry: string, spec: string) {
    && StartsWith(entry, "Bash(")
    && var inner := Inner(entry, 5);
       && (EndsWith(inner, " *") || EndsWith(inner, ":*"))
       && '*' !in inner[..|inner| - 2]
       && StartsWith(spec, inner[..|inner| - 2] + " ")
  }

  function FirstAncestor(allow: seq<string>, tool: string, spec: string): Option<string> {
    if allow == [] then None
    else if AncestorCovers(allow[0], tool, spec) then Some(allow[0])
    else FirstAncestor(allow[1..], tool, spec)
  }

  function FirstPrefix(allow: seq<string>, spec: string): Option<string> {
    if allow == [] then None
    else if PrefixCovers(allow[0], spec) then Some(allow[0])
    else FirstPrefix(allow[1..], spec)
  }

  predicate RootAnchored(spec: string) { StartsWith(spec, "//") && EndsWith(spec, "/**") }

  // The entry that covers the rule.
  function Covering(allow: seq<string>, rule: string): Option<string> {
    var r := ParseRule(rule);
    if rule in allow then Some(rule)
    else if r.tool in allow then Some(r.tool)
    else if r.tool + "(*)" in allow then Some(r.tool + "(*)")
    else if r.spec.None? then None
    else
      var ancestor := if RootAnchored(r.spec.value) then FirstAncestor(allow, r.tool, r.spec.value) else None;
      if ancestor.Some? then ancestor
      else if r.tool == "Bash" then FirstPrefix(allow, r.spec.value)
      else None
  }

  method RuleIsCovered(allow: seq<string>, rule: string) returns (by_: Option<string>)
    ensures by_ == Covering(allow, rule)
  {
    if rule in allow {
      return Some(rule);
    }
    var r := ParseRule(rule);
    if r.tool in allow {
      return Some(r.tool);
    }
    if r.tool + "(*)" in allow {
      return Some(r.tool + "(*)");
    }
    if r.spec.Some? {
      var spec := r.spec.value;
      if RootAnchored(spec) {
        for i := 0 to |allow|
          invariant FirstAncestor(allow[i..], r.tool, spec) == FirstAncestor(allow, r.tool, spec)
        {
          assert allow[i..][1..] == allow[i + 1..];
          if AncestorCovers(allow[i], r.tool, spec) {
            return Some(allow[i]);
          }
        }
      }
      if r.tool == "Bash" {
        for i := 0 to |allow|
          invariant FirstPrefix(allow[i..], spec) == FirstPrefix(allow, spec)
        {
          assert allow[i..][1..] == allow[i + 1..];
          if PrefixCovers(allow[i], spec) {
            return Some(allow[i]);
          }
        }
      }
    }
    return None;
  }

  // ---- inclusion of patterns --------------------------------------------------------------------

  lemma AnyText(s: string, path: bool)
    ensures Glob("**", s, path)
  {
    assert StartsWith("**", "**") && "**"[2..] == "" && s[|s|..] == "";
    assert Glob("", s[|s|..], path);
  }

  /** What a pattern below a directory matches lies below that directory. */
  lemma {:induction false} BelowDirectory(dir: string, more: string, s: string, path: bool)
    requires Glob(dir + ("/" + more), s, path)
    ensures Glob(dir + "/**", s, path)
    decreases |dir|
  {
    var p, q := dir + ("/" + more), dir + "/**";
    if dir == "" {
      assert p[0] == '/' && q == "/**" && q[1..] == "**";
      AnyText(s[1..], path);
    } else if StartsWith(dir, "**") {
      var k :| 0 <= k <= |s| && Glob(p[2..], s[k..], path);
      assert p[2..] == dir[2..] + ("/" + more) && q[2..] == dir[2..] + "/**";
      BelowDirectory(dir[2..], more, s[k..], path);
      assert StartsWith(q, "**");
    } else {
      assert p[1..] == dir[1..] + ("/" + more) && q[1..] == dir[1..] + "/**";
      DoubleStar(dir);
      DoubleStar(p);
      DoubleStar(q);
      if dir[0] == '*' {
        var k :| 0 <= k <= |s| && (path ==> '/' !in s[..k]) && Glob(p[1..], s[k..], path);
        BelowDirectory(dir[1..], more, s[k..], path);
      } else {
        BelowDirectory(dir[1..], more, s[1..], path);
      }
    }
  }

  lemma DoubleStar(p: string)
    ensures StartsWith(p, "**") <==> |p| >= 2 && p[0] == '*' && p[1] == '*'
  {
    if |p| >= 2 {
      assert p[..2] == [p[0], p[1]];
    }
  }

  /** A pattern that opens with literal text matches only texts that open with it. */
  lemma {:induction false} LiteralPrefix(lit: string, rest: string, s: string, path: bool)
    requires '*' !in lit && Glob(lit + rest, s, path)
    ensures StartsWith(s, lit) && Glob(rest, s[|lit|..], path)
  {
    var p := lit + rest;
    if lit == "" {
      assert p == rest && s[0..] == s;
    } else {
      assert p[0] == lit[0] && p[1..] == lit[1..] + rest;
      assert lit[0] in lit;
      DoubleStar(p);
      LiteralPrefix(lit[1..], rest, s[1..], path);
      assert s == [s[0]] + s[1..] && lit == [lit[0]] + lit[1..];
      assert s[|lit|..] == s[1..][|lit| - 1..];
    }
  }

  lemma {:induction false} PrefixMatches(lit: string, s: string)
    requires '*' !in lit && StartsWith(s, lit)
    ensures Glob(lit + "*", s, false)
  {
    var p := lit + "*";
    if lit == "" {
      assert p == "*" && p[1..] == "" && s[|s|..] == "";
      assert !StartsWith(p, "**");
      assert Glob(p[1..], s[|s|..], false);
    } else {
      assert p[0] == lit[0] && p[1..] == lit[1..] + "*";
      assert lit[0] in lit;
      DoubleStar(p);
      assert s[0] == lit[0] && s[1..][..|lit| - 1] == lit[1..] by {
        assert s[..|lit|][0] == s[0] && s[..|lit|][1..] == s[1..][..|lit| - 1];
      }
      PrefixMatches(lit[1..], s[1..]);
    }
  }

  // ---- soundness --------------------------------------------------------------------------------

  // Every use the rule matches, the entry matches.
  ghost predicate Includes(relative: Use -> bool, entry: string, rule: string) {
    forall u :: Matches(relative, rule, u) ==> Matches(relative, entry, u)
  }

  // The one pair the test gets wrong: everything below the root, by everything below `//`.
  predicate Degenerate(entry: string, rule: string) {
    var r := ParseRule(rule);
    r.spec == Some("//**") && entry == r.tool + "(///**)"
  }

  lemma ParseParts(tool: string, spec: string)
    requires '(' !in tool
    ensures ParseRule(tool + "(" + spec + ")") == Rule(tool, Some(spec))
  {
    var rule := tool + "(" + spec + ")";
    assert rule[|tool|] == '(';
    ParenAt(tool, spec + ")");
    assert rule == tool + ("(" + (spec + ")"));
    assert rule[..|tool|] == tool && rule[|tool| + 1..|rule| - 1] == spec;
  }

  lemma {:induction false} ParenAt(tool: string, rest: string)
    requires '(' !in tool
    ensures Paren(tool + ("(" + rest)) == |tool|
  {
    var s := tool + ("(" + rest);
    if tool == "" {
      assert s[0] == '(';
    } else {
      assert tool == [tool[0]] + tool[1..];
      assert s[1..] == tool[1..] + ("(" + rest);
      ParenAt(tool[1..], rest);
    }
  }

  lemma ToolOf(rule: string)
    requires WellFormed(rule)
    ensures '(' !in ParseRule(rule).tool
    ensures ParseRule(rule).spec.Some? ==> rule == ParseRule(rule).tool + "(" + ParseRule(rule).spec.value + ")"
  {
    var n := Paren(rule);
    if '(' in rule {
      assert rule[|rule| - 1..] == ")" && rule[|rule| - 1] == ')';
      assert rule == rule[..n] + "(" + rule[n + 1..|rule| - 1] + ")";
    }
  }

  lemma BareIncludes(relative: Use -> bool, tool: string, rule: string)
    requires tool == ParseRule(rule).tool && '(' !in tool
    ensures Includes(relative, tool, rule) && Includes(relative, tool + "(*)", rule)
  {
    ParseParts(tool, "*");
    assert tool + "(" + "*" + ")" == tool + "(*)";
    assert ParseRule(tool) == Rule(tool, None);
  }

  lemma PrefixChars(s: string, prefix: string)
    requires StartsWith(s, prefix)
    ensures forall i :: 0 <= i < |prefix| ==> s[i] == prefix[i]
  {
    forall i | 0 <= i < |prefix| ensures s[i] == prefix[i] {
      assert s[..|prefix|][i] == s[i];
    }
  }

  lemma SuffixChars(s: string, suffix: string)
    requires EndsWith(s, suffix)
    ensures forall i :: 0 <= i < |suffix| ==> s[|s| - |suffix| + i] == suffix[i]
  {
    forall i | 0 <= i < |suffix| ensures s[|s| - |suffix| + i] == suffix[i] {
      assert s[|s| - |suffix|..][i] == s[|s| - |suffix| + i];
    }
  }

  lemma EntryEnds(entry: string, tool: string)
    requires StartsWith(entry, tool + "(//") && EndsWith(entry, "/**)")
    ensures var n := |tool|;
      && |entry| >= n + 6 && entry[..n] == tool && entry[n] == '('
      && entry[n + 1] == '/' && entry[n + 2] == '/' && entry[|entry| - 1] == ')'
      && entry[|entry| - 4] == '/' && entry[|entry| - 3] == '*' && entry[|entry| - 2] == '*'
  {
    var n, pre, suf := |tool|, tool + "(//", "/**)";
    PrefixChars(entry, pre);
    SuffixChars(entry, suf);
    assert pre[n] == '(' && pre[n + 1] == '/' && pre[n + 2] == '/';
    assert entry[n] == '(' && entry[n + 1] == '/' && entry[n + 2] == '/';
    assert suf[0] == '/' && suf[1] == '*' && suf[2] == '*' && suf[3] == ')';
    assert entry[|entry| - 4] == '/' && entry[|entry| - 3] == '*' && entry[|entry| - 2] == '*' && entry[|entry| - 1] == ')';
    assert entry[..n] == tool by {
      assert forall i :: 0 <= i < n ==> entry[i] == pre[i];
    }
  }

  lemma EntryParts(entry: string, n: nat)
    requires |entry| >= n + 2 && entry[n] == '(' && entry[|entry| - 1] == ')'
    ensures entry == entry[..n] + "(" + entry[n + 1..|entry| - 1] + ")"
  {
  }

  // The specifier an ancestor entry has.
  lemma EntrySpec(entry: string, tool: string)
    requires '(' !in tool && StartsWith(entry, tool + "(//") && EndsWith(entry, "/**)")
    ensures var spec := Inner(entry, |tool| + 1);
      ParseRule(entry) == Rule(tool, Some(spec)) && RootAnchored(spec)
  {
    EntryEnds(entry, tool);
    EntryParts(entry, |tool|);
    var spec := entry[|tool| + 1..|entry| - 1];
    ParseParts(tool, spec);
    SpecAnchored(spec);
  }

  lemma SpecAnchored(spec: string)
    requires |spec| >= 4 && spec[0] == '/' && spec[1] == '/'
    requires spec[|spec| - 3] == '/' && spec[|spec| - 2] == '*' && spec[|spec| - 1] == '*'
    ensures RootAnchored(spec)
  {
    assert spec[..2] == "//" && spec[|spec| - 3..] == "/**";
  }

  lemma AnchorOf(spec: string)
    requires RootAnchored(spec)
    ensures |spec| >= 4
    ensures if |spec| == 4 then spec == "//**" else spec == "//" + Anchor(spec) + "/**"
  {
    assert spec[..2] == "//" && spec[|spec| - 3..] == "/**";
    assert spec[0] == '/' && spec[1] == '/' by {
      assert spec[..2][0] == '/' && spec[..2][1] == '/';
    }
    assert spec[|spec| - 1] == '*' && spec[|spec| - 2] == '*' && spec[|spec| - 3] == '/' by {
      assert spec[|spec| - 3..][0] == '/' && spec[|spec| - 3..][1] == '*' && spec[|spec| - 3..][2] == '*';
    }
    if |spec| > 4 {
      assert spec == spec[..2] + spec[2..|spec| - 3] + spec[|spec| - 3..];
    }
  }

  lemma RootedMatches(relative: Use -> bool, tool: string, spec: string, text: string)
    requires RootAnchored(spec)
    ensures spec != "" && SpecMatches(relative, tool, spec, text) == (
      if tool == "Bash" then Glob(spec, text, false) else Glob(spec[1..], text, true))
  {
    SuffixChars(spec, "/**");
    PrefixChars(spec, "//");
    assert "/**"[1] == '*' && "//"[0] == '/';
    if EndsWith(spec, ":*") {
      SuffixChars(spec, ":*");
    }
  }

  // The pattern a root-anchored specifier stands for.
  function RootPattern(tool: string, spec: string): string
    requires spec != ""
  {
    if tool == "Bash" then spec else spec[1..]
  }

  lemma RootPatternOf(tool: string, spec: string)
    requires RootAnchored(spec)
    ensures spec != ""
    ensures var lead := if tool == "Bash" then "//" else "/";
      RootPattern(tool, spec) ==
        if |spec| == 4 then lead + "**" else lead + (Anchor(spec) + "/**")
  {
    AnchorOf(spec);
    if |spec| == 4 {
      assert spec[1..] == "/**";
    } else {
      assert spec[1..] == "/" + (Anchor(spec) + "/**");
      assert spec == "//" + (Anchor(spec) + "/**");
    }
  }

  // Everything that begins with `lead` is below it.
  lemma LeadMatches(lead: string, rest: string, s: string, path: bool)
    requires '*' !in lead && Glob(lead + rest, s, path)
    ensures Glob(lead + "**", s, path)
  {
    LiteralPrefix(lead, rest, s, path);
    LeadIncludes(lead, s, path);
  }

  lemma {:induction false} LeadIncludes(lead: string, s: string, path: bool)
    requires '*' !in lead && StartsWith(s, lead)
    ensures Glob(lead + "**", s, path)
  {
    var p := lead + "**";
    if lead == "" {
      assert p == "**";
      AnyText(s, path);
    } else {
      PrefixChars(s, lead);
      assert lead[0] in lead && p[0] == lead[0] && p[1..] == lead[1..] + "**";
      DoubleStar(p);
      assert s[1..][..|lead| - 1] == lead[1..] by {
        assert s[..|lead|][1..] == s[1..][..|lead| - 1];
      }
      LeadIncludes(lead[1..], s[1..], path);
    }
  }

  lemma BelowAnchor(lead: string, anchor: string, below: string, text: string, path: bool)
    requires Glob(lead + (anchor + "/" + below + "/**"), text, path)
    ensures Glob(lead + (anchor + "/**"), text, path)
  {
    assert lead + (anchor + "/" + below + "/**") == (lead + anchor) + ("/" + (below + "/**"));
    BelowDirectory(lead + anchor, below + "/**", text, path);
    assert (lead + anchor) + "/**" == lead + (anchor + "/**");
  }

  lemma PatternIncludes(tool: string, spec: string, entrySpec: string, text: string)
    requires RootAnchored(spec) && RootAnchored(entrySpec)
    requires Anchor(spec) == Anchor(entrySpec) || StartsWith(Anchor(spec), Anchor(entrySpec) + "/")
    requires !(spec == "//**" && entrySpec == "///**")
    requires Glob(RootPattern(tool, spec), text, tool != "Bash")
    ensures Glob(RootPattern(tool, entrySpec), text, tool != "Bash")
  {
    var lead := if tool == "Bash" then "//" else "/";
    var path := tool != "Bash";
    RootPatternOf(tool, spec);
    RootPatternOf(tool, entrySpec);
    SpecLengths(spec, entrySpec);
    if |entrySpec| == 4 {
      LeadMatches(lead, if |spec| == 4 then "**" else Anchor(spec) + "/**", text, path);
    } else if Anchor(spec) != Anchor(entrySpec) {
      var below := Anchor(spec)[|Anchor(entrySpec)| + 1..];
      assert Anchor(spec) == Anchor(entrySpec) + "/" + below;
      BelowAnchor(lead, Anchor(entrySpec), below, text, path);
    }
  }

  lemma SpecLengths(spec: string, entrySpec: string)
    requires RootAnchored(spec) && RootAnchored(entrySpec)
    requires Anchor(spec) == Anchor(entrySpec) || StartsWith(Anchor(spec), Anchor(entrySpec) + "/")
    requires !(spec == "//**" && entrySpec == "///**")
    ensures |spec| == 4 ==> |entrySpec| == 4
  {
    AnchorOf(spec);
    AnchorOf(entrySpec);
    assert "//" + "" + "/**" == "///**";
  }

  lemma RootedRule(relative: Use -> bool, rule: string, tool: string, spec: string, u: Use)
    requires ParseRule(rule) == Rule(tool, Some(spec)) && RootAnchored(spec)
    ensures Matches(relative, rule, u) == (tool == u.tool && Glob(RootPattern(tool, spec), u.text, tool != "Bash"))
  {
    RootedMatches(relative, tool, spec, u.text);
  }

  lemma EntryNotDegenerate(entry: string, rule: string, tool: string, spec: string)
    requires '(' !in tool && StartsWith(entry, tool + "(//") && EndsWith(entry, "/**)")
    requires ParseRule(rule) == Rule(tool, Some(spec)) && !Degenerate(entry, rule)
    ensures !(spec == "//**" && Inner(entry, |tool| + 1) == "///**")
  {
    EntryEnds(entry, tool);
    EntryParts(entry, |tool|);
    assert tool + "(" + "///**" + ")" == tool + "(///**)";
  }

  lemma AncestorIncludes(relative: Use -> bool, entry: string, rule: string)
    requires WellFormed(rule) && ParseRule(rule).spec.Some? && RootAnchored(ParseRule(rule).spec.value)
    requires AncestorCovers(entry, ParseRule(rule).tool, ParseRule(rule).spec.value)
    requires !Degenerate(entry, rule)
    ensures Includes(relative, entry, rule)
  {
    var tool, spec := ParseRule(rule).tool, ParseRule(rule).spec.value;
    var entrySpec := Inner(entry, |tool| + 1);
    ToolOf(rule);
    EntrySpec(entry, tool);
    EntryNotDegenerate(entry, rule, tool, spec);
    IncludesByPattern(relative, entry, entrySpec, rule, spec, tool);
  }

  lemma IncludesByPattern(relative: Use -> bool, entry: string, entrySpec: string, rule: string, spec: string, tool: string)
    requires ParseRule(rule) == Rule(tool, Some(spec)) && ParseRule(entry) == Rule(tool, Some(entrySpec))
    requires RootAnchored(spec) && RootAnchored(entrySpec)
    requires Anchor(spec) == Anchor(entrySpec) || StartsWith(Anchor(spec), Anchor(entrySpec) + "/")
    requires !(spec == "//**" && entrySpec == "///**")
    ensures Includes(relative, entry, rule)
  {
    forall u | Matches(relative, rule, u) ensures Matches(relative, entry, u) {
      RootedRule(relative, rule, tool, spec, u);
      RootedRule(relative, entry, tool, entrySpec, u);
      PatternIncludes(tool, spec, entrySpec, u.text);
    }
  }

  lemma LastChar(s: string, suffix: string)
    requires suffix != "" && EndsWith(s, suffix)
    ensures s != "" && s[|s| - 1] == suffix[|suffix| - 1]
  {
    SuffixChars(s, suffix);
  }

  lemma BashEntry(entry: string)
    requires WellFormed(entry) && StartsWith(entry, "Bash(")
    ensures |entry| >= 6 && entry[4] == '(' && entry[|entry| - 1] == ')' && entry[..4] == "Bash"
    ensures ParseRule(entry) == Rule("Bash", Some(Inner(entry, 5)))
  {
    PrefixChars(entry, "Bash(");
    assert "Bash("[4] == '(' && entry[4] in entry;
    LastChar(entry, ")");
    EntryParts(entry, 4);
    assert entry[..5][..4] == "Bash(" [..4] == "Bash";
    ParseParts("Bash", Inner(entry, 5));
  }

  lemma SpacedPattern(spec: string)
    requires EndsWith(spec, " *") || EndsWith(spec, ":*")
    ensures |spec| >= 2 && CommandPattern(spec) == spec[..|spec| - 2] + " *"
  {
    if !EndsWith(spec, ":*") {
      assert spec == spec[..|spec| - 2] + " *";
    }
  }

  lemma PrefixEntry(entry: string)
    requires WellFormed(entry) && StartsWith(entry, "Bash(")
    requires var inner := Inner(entry, 5); EndsWith(inner, " *") || EndsWith(inner, ":*")
    ensures var inner := Inner(entry, 5);
      && ParseRule(entry) == Rule("Bash", Some(inner)) && inner != "*"
      && CommandPattern(inner) == inner[..|inner| - 2] + " *"
  {
    BashEntry(entry);
    SpacedPattern(Inner(entry, 5));
  }

  lemma CommandStarts(spec: string, p: string)
    requires '*' !in p && StartsWith(spec, p + " ")
    ensures spec != "*"
    ensures exists rest :: CommandPattern(spec) == (p + " ") + rest
  {
    var lead := p + " ";
    PrefixChars(spec, lead);
    assert lead[|p|] == ' ' && forall i :: 0 <= i < |p| ==> lead[i] == p[i] && p[i] in p;
    if EndsWith(spec, ":*") {
      SuffixChars(spec, ":*");
      assert ":*"[0] == ':' && ":*"[1] == '*';
      assert spec[|spec| - 1] == '*' && spec[|spec| - 2] == ':';
      assert |spec| >= |lead| + 2;
      assert spec[..|spec| - 2] + " *" == lead + (spec[|lead|..|spec| - 2] + " *");
    } else {
      assert spec == lead + spec[|lead|..];
    }
  }

  lemma PrefixIncludes(relative: Use -> bool, entry: string, rule: string)
    requires WellFormed(rule) && WellFormed(entry)
    requires ParseRule(rule).tool == "Bash" && ParseRule(rule).spec.Some?
    requires PrefixCovers(entry, ParseRule(rule).spec.value)
    ensures Includes(relative, entry, rule)
  {
    var spec, inner := ParseRule(rule).spec.value, Inner(entry, 5);
    var p := inner[..|inner| - 2];
    PrefixEntry(entry);
    CommandStarts(spec, p);
    var rest :| CommandPattern(spec) == (p + " ") + rest;
    assert (p + " ") + "*" == p + " *";
    assert '*' !in p + " ";
    forall u | Matches(relative, rule, u) ensures Matches(relative, entry, u) {
      LiteralPrefix(p + " ", rest, u.text, false);
      PrefixMatches(p + " ", u.text);
    }
  }

  lemma {:induction false} FirstAncestorCovers(allow: seq<string>, tool: string, spec: string)
    ensures var e := FirstAncestor(allow, tool, spec);
      e.Some? ==> e.value in allow && AncestorCovers(e.value, tool, spec)
  {
    if allow != [] {
      FirstAncestorCovers(allow[1..], tool, spec);
    }
  }

  lemma {:induction false} FirstPrefixCovers(allow: seq<string>, spec: string)
    ensures var e := FirstPrefix(allow, spec); e.Some? ==> e.value in allow && PrefixCovers(e.value, spec)
  {
    if allow != [] {
      FirstPrefixCovers(allow[1..], spec);
    }
  }

  lemma RootMisses(relative: Use -> bool, entry: string, rule: string, tool: string)
    requires ParseRule(rule) == Rule(tool, Some("//**")) && ParseRule(entry) == Rule(tool, Some("///**"))
    ensures !Includes(relative, entry, rule)
  {
    AnchoredPair();
    var u := Use(tool, if tool == "Bash" then "//a" else "/a");
    RootedRule(relative, rule, tool, "//**", u);
    RootedRule(relative, entry, tool, "///**", u);
    DegenerateTexts();
    assert Matches(relative, rule, u) && !Matches(relative, entry, u);
  }

  lemma DegenerateEntry(entry: string, rule: string)
    requires WellFormed(rule) && Degenerate(entry, rule)
    ensures ParseRule(entry) == Rule(ParseRule(rule).tool, Some("///**"))
  {
    var tool := ParseRule(rule).tool;
    ToolOf(rule);
    ParseParts(tool, "///**");
    assert "(" + "///**" + ")" == "(///**)";
    assert tool + "(" + "///**" + ")" == entry;
  }

  lemma DegenerateMisses(relative: Use -> bool, entry: string, rule: string)
    requires WellFormed(rule) && Degenerate(entry, rule)
    ensures !Includes(relative, entry, rule)
  {
    DegenerateEntry(entry, rule);
    RootMisses(relative, entry, rule, ParseRule(rule).tool);
  }

  lemma AnchoredPair()
    ensures RootAnchored("//**") && RootAnchored("///**")
  {
    SpecAnchored("//**");
    SpecAnchored("///**");
  }

  lemma DegenerateTexts()
    ensures Glob("//**", "//a", false) && !Glob("///**", "//a", false)
    ensures "//**"[1..] == "/**" && Glob("/**", "/a", true)
    ensures "///**"[1..] == "//**" && !Glob("//**", "/a", true)
  {
    assert "/" + "/" + "**" == "//**" && "//" + "**" == "//**" && "/" + "**" == "/**";
    assert "//a"[..2] == "//" && "/a"[..1] == "/";
    LeadIncludes("//", "//a", false);
    LeadIncludes("/", "/a", true);
    assert "///" + "**" == "///**";
    if Glob("///**", "//a", false) {
      LiteralPrefix("///", "**", "//a", false);
      PrefixChars("//a", "///");
    }
    if Glob("//**", "/a", true) {
      LiteralPrefix("//", "**", "/a", true);
      PrefixChars("/a", "//");
    }
  }

  // The text a pattern matches when its wildcards stand for nothing.
  function Erased(p: string): string {
    if p == "" then "" else (if p[0] == '*' then "" else [p[0]]) + Erased(p[1..])
  }

  lemma {:induction false} ErasedMatches(p: string)
    ensures Glob(p, Erased(p), false)
    decreases |p|
  {
    if p != "" {
      var s := Erased(p);
      if StartsWith(p, "**") {
        PrefixChars(p, "**");
        assert "**"[0] == '*' && "**"[1] == '*' && p[1..][0] == '*' && p[1..][1..] == p[2..];
        ErasedMatches(p[2..]);
        assert Erased(p[1..]) == "" + Erased(p[1..][1..]) == Erased(p[2..]);
        assert s == "" + Erased(p[1..]) && s[0..] == s;
        assert Glob(p[2..], s[0..], false);
      } else {
        ErasedMatches(p[1..]);
        if p[0] == '*' {
          assert s == Erased(p[1..]) && s[0..] == s;
          assert Glob(p[1..], s[0..], false);
        } else {
          assert s[1..] == Erased(p[1..]);
        }
      }
    }
  }

  lemma MalformedMisses(relative: Use -> bool, entry: string, rule: string)
    requires WellFormed(rule) && !WellFormed(entry)
    requires ParseRule(rule).tool == "Bash" && ParseRule(rule).spec.Some?
    ensures !Includes(relative, entry, rule)
  {
    var u := Use("Bash", Erased(CommandPattern(ParseRule(rule).spec.value)));
    ErasedMatches(CommandPattern(ParseRule(rule).spec.value));
    assert Matches(relative, rule, u);
    assert ParseRule(entry) == Rule(entry, None);
    assert !Matches(relative, entry, u);
  }

  lemma AncestorWellFormed(entry: string, tool: string, spec: string)
    requires AncestorCovers(entry, tool, spec)
    ensures WellFormed(entry)
  {
    EntryEnds(entry, tool);
    assert entry[|entry| - 1..] == ")";
  }

  // Allowed by name, or by its own text.
  predicate PlainlyAllowed(allow: seq<string>, rule: string) {
    var tool := ParseRule(rule).tool;
    rule in allow || tool in allow || tool + "(*)" in allow
  }

  ghost predicate Sound(relative: Use -> bool, entry: string, rule: string) {
    Includes(relative, entry, rule) <==> WellFormed(entry) && !Degenerate(entry, rule)
  }

  lemma AncestorIsSound(relative: Use -> bool, entry: string, rule: string)
    requires WellFormed(rule) && ParseRule(rule).spec.Some? && RootAnchored(ParseRule(rule).spec.value)
    requires AncestorCovers(entry, ParseRule(rule).tool, ParseRule(rule).spec.value)
    ensures Sound(relative, entry, rule)
  {
    AncestorWellFormed(entry, ParseRule(rule).tool, ParseRule(rule).spec.value);
    if Degenerate(entry, rule) {
      DegenerateMisses(relative, entry, rule);
    } else {
      AncestorIncludes(relative, entry, rule);
    }
  }

  lemma PrefixIsSound(relative: Use -> bool, entry: string, rule: string)
    requires WellFormed(rule) && ParseRule(rule).tool == "Bash" && ParseRule(rule).spec.Some?
    requires PrefixCovers(entry, ParseRule(rule).spec.value)
    ensures Sound(relative, entry, rule)
  {
    if !WellFormed(entry) {
      MalformedMisses(relative, entry, rule);
    } else {
      PrefixIncludes(relative, entry, rule);
      if Degenerate(entry, rule) {
        DegenerateMisses(relative, entry, rule);
      }
    }
  }

  // ---- exactly when the answer is right ---------------------------------------------------------

  // With the first character out of the way, the parenthesis is one earlier.
  lemma {:induction false} ParenFirst(s: string, more: string)
    requires '(' in s
    ensures Paren(s + more) == Paren(s) < |s|
  {
    assert (s + more)[0] == s[0];
    if s[0] != '(' {
      assert s == [s[0]] + s[1..] && (s + more)[1..] == s[1..] + more;
      ParenFirst(s[1..], more);
    }
  }

  // A rule that is never closed is a tool name with a parenthesis in it, which no entry but
  // itself grants.
  lemma UnclosedMisses(relative: Use -> bool, rule: string)
    requires !WellFormed(rule)
    ensures ParseRule(rule) == Rule(rule, None) && !Includes(relative, rule + "(*)", rule)
  {
    var entry, u := rule + "(*)", Use(rule, "");
    ParenFirst(rule, "(*)");
    assert entry[|entry| - 1..] == ")" && '(' in entry;
    assert |entry[..Paren(entry)]| < |rule|;
    assert Matches(relative, rule, u) && !Matches(relative, entry, u);
  }

  function Entry(tool: string, spec: string): string { tool + "(" + spec + ")" }

  lemma RootTexts(tool: string)
    ensures Entry(tool, "//**") == tool + "(//**)" && Entry(tool, "///**") == tool + "(///**)"
  {
    assert "(" + "//**" + ")" == "(//**)" && "(" + "///**" + ")" == "(///**)";
  }

  lemma AncestorParts(entry: string, tool: string, spec: string)
    requires '(' !in tool && AncestorCovers(entry, tool, spec)
    ensures var inner := Inner(entry, |tool| + 1);
      && entry == Entry(tool, inner) && RootAnchored(inner)
      && (Anchor(spec) == Anchor(inner) || StartsWith(Anchor(spec), Anchor(inner) + "/"))
  {
    EntryEnds(entry, tool);
    EntryParts(entry, |tool|);
    EntrySpec(entry, tool);
  }

  lemma EmptyAnchor(spec: string)
    requires RootAnchored(spec) && Anchor(spec) == ""
    ensures spec == "//**" || spec == "///**"
  {
    AnchorOf(spec);
    assert "//" + "" + "/**" == "///**";
  }

  // The entries that count as ancestors of everything below the root.
  lemma RootAncestors(entry: string, tool: string)
    requires '(' !in tool && AncestorCovers(entry, tool, "//**")
    ensures entry == tool + "(//**)" || entry == tool + "(///**)"
  {
    AncestorParts(entry, tool, "//**");
    EmptyAnchor(Inner(entry, |tool| + 1));
    RootTexts(tool);
  }

  lemma DegenerateText()
    ensures |"(///**)"| == 7 && "(///**)"[..3] == "(//" && "(///**)"[3..] == "/**)" && "(///**)"[1..6] == "///**"
    ensures Anchor("///**") == "" && Anchor("//**") == ""
  {
  }

  lemma DegenerateCovers(tool: string)
    ensures AncestorCovers(tool + "(///**)", tool, "//**")
  {
    var text := "(///**)";
    var entry := tool + text;
    DegenerateText();
    assert entry[..|tool| + 3] == tool + text[..3] && entry[|entry| - 4..] == text[3..];
    assert Inner(entry, |tool| + 1) == text[1..6];
  }

  lemma {:induction false} SomeAncestor(allow: seq<string>, tool: string, spec: string, entry: string)
    requires entry in allow && AncestorCovers(entry, tool, spec)
    ensures FirstAncestor(allow, tool, spec).Some?
  {
    if !AncestorCovers(allow[0], tool, spec) {
      SomeAncestor(allow[1..], tool, spec, entry);
    }
  }

  // An entry that grants the command, found by its prefix, but never closed.
  predicate UnclosedPrefix(allow: seq<string>, spec: string) {
    FirstPrefix(allow, spec).Some? && !WellFormed(FirstPrefix(allow, spec).value)
  }

  predicate AncestorAllowed(allow: seq<string>, tool: string, spec: string) {
    RootAnchored(spec) && FirstAncestor(allow, tool, spec).Some?
  }

  /** The inputs for which the entry named does not grant the rule: a rule that is never closed, by a wildcard put after it;
      everything below the root, by everything below `//`; and a command, by an entry that is
      never closed. */
  predicate Misjudged(allow: seq<string>, rule: string) {
    var r := ParseRule(rule);
    && rule !in allow && r.tool !in allow
    && if r.tool + "(*)" in allow then !WellFormed(rule)
       else
         && r.spec.Some?
         && if AncestorAllowed(allow, r.tool, r.spec.value)
            then r.spec.value == "//**" && r.tool + "(///**)" in allow
            else r.tool == "Bash" && UnclosedPrefix(allow, r.spec.value)
  }

  lemma PlainIsRight(relative: Use -> bool, allow: seq<string>, rule: string)
    requires PlainlyAllowed(allow, rule)
    ensures var entry := Covering(allow, rule);
      && entry.Some? && entry.value in allow
      && (Includes(relative, entry.value, rule) <==> !Misjudged(allow, rule))
  {
    var entry, r := Covering(allow, rule).value, ParseRule(rule);
    if !WellFormed(rule) {
      UnclosedMisses(relative, rule);
    } else {
      ToolOf(rule);
      BareIncludes(relative, r.tool, rule);
    }
  }

  lemma AncestorIsRight(relative: Use -> bool, allow: seq<string>, rule: string)
    requires WellFormed(rule) && !PlainlyAllowed(allow, rule) && ParseRule(rule).spec.Some?
    requires AncestorAllowed(allow, ParseRule(rule).tool, ParseRule(rule).spec.value)
    ensures var entry := Covering(allow, rule);
      && entry.Some? && entry.value in allow
      && (Includes(relative, entry.value, rule) <==> !Misjudged(allow, rule))
  {
    var entry, r := Covering(allow, rule).value, ParseRule(rule);
    FirstAncestorCovers(allow, r.tool, r.spec.value);
    AncestorIsSound(relative, entry, rule);
    AncestorWellFormed(entry, r.tool, r.spec.value);
    RootIsDegenerate(allow, entry, rule);
  }

  lemma RootIsDegenerate(allow: seq<string>, entry: string, rule: string)
    requires WellFormed(rule) && ParseRule(rule).spec.Some? && entry in allow && rule !in allow
    requires AncestorCovers(entry, ParseRule(rule).tool, ParseRule(rule).spec.value)
    ensures Degenerate(entry, rule) <==> ParseRule(rule).spec.value == "//**" && ParseRule(rule).tool + "(///**)" in allow
  {
    var r := ParseRule(rule);
    ToolOf(rule);
    if r.spec.value == "//**" {
      RootAncestors(entry, r.tool);
      RootTexts(r.tool);
    }
  }

  lemma PrefixIsRight(relative: Use -> bool, allow: seq<string>, rule: string)
    requires WellFormed(rule) && !PlainlyAllowed(allow, rule) && ParseRule(rule).spec.Some?
    requires !AncestorAllowed(allow, ParseRule(rule).tool, ParseRule(rule).spec.value)
    requires Covering(allow, rule).Some?
    ensures var entry := Covering(allow, rule);
      && entry.value in allow
      && (Includes(relative, entry.value, rule) <==> !Misjudged(allow, rule))
  {
    var entry, r := Covering(allow, rule).value, ParseRule(rule);
    FirstPrefixCovers(allow, r.spec.value);
    PrefixIsSound(relative, entry, rule);
    if Degenerate(entry, rule) {
      AnchoredPair();
      DegenerateCovers(r.tool);
      SomeAncestor(allow, r.tool, "//**", entry);
    }
  }

  /** For every list and every rule: an entry the test names is in the list, and that entry matches
      every use of the rule if and only if the input is not one of the misjudged ones. */
  lemma CoverageIsSound(relative: Use -> bool, allow: seq<string>, rule: string)
    ensures var entry := Covering(allow, rule);
      entry.Some? ==>
        && entry.value in allow
        && (Includes(relative, entry.value, rule) <==> !Misjudged(allow, rule))
    ensures Misjudged(allow, rule) ==> Covering(allow, rule).Some?
  {
    var r := ParseRule(rule);
    if PlainlyAllowed(allow, rule) {
      PlainIsRight(relative, allow, rule);
    } else if r.spec.Some? {
      assert WellFormed(rule);
      if AncestorAllowed(allow, r.tool, r.spec.value) {
        AncestorIsRight(relative, allow, rule);
      } else if Covering(allow, rule).Some? {
        PrefixIsRight(relative, allow, rule);
      }
    }
  }

  /** So but for those inputs a rule called covered is granted by the list. */
  lemma CoveredIsGranted(relative: Use -> bool, allow: seq<string>, rule: string)
    requires Covering(allow, rule).Some? && !Misjudged(allow, rule)
    ensures exists entry :: entry in allow && Includes(relative, entry, rule)
  {
    CoverageIsSound(relative, allow, rule);
  }

  /** In a list whose entries are all closed, a closed rule is misjudged only in one way. */
  lemma ClosedListsAreSafe(relative: Use -> bool, allow: seq<string>, rule: string)
    requires WellFormed(rule) && forall entry <- allow :: WellFormed(entry)
    requires !(ParseRule(rule).spec == Some("//**") && ParseRule(rule).tool + "(///**)" in allow && !PlainlyAllowed(allow, rule))
    ensures Covering(allow, rule).Some? ==> Includes(relative, Covering(allow, rule).value, rule)
  {
    CoverageIsSound(relative, allow, rule);
    if ParseRule(rule).spec.Some? { FirstPrefixCovers(allow, ParseRule(rule).spec.value); }
  }

  // ---- each of the three ways is reached --------------------------------------------------------

  lemma RootRule(tool: string)
    requires '(' !in tool
    ensures ParseRule(tool + "(//**)") == Rule(tool, Some("//**")) && RootAnchored("//**")
  {
    RootTexts(tool);
    ParseParts(tool, "//**");
    AnchoredPair();
  }

  lemma RootFound(tool: string)
    requires '(' !in tool
    ensures FirstAncestor([tool + "(///**)"], tool, "//**").Some?
  {
    DegenerateCovers(tool);
    SomeAncestor([tool + "(///**)"], tool, "//**", tool + "(///**)");
  }

  lemma RootIsMisjudged(tool: string)
    requires '(' !in tool
    ensures Misjudged([tool + "(///**)"], tool + "(//**)")
  {
    RootRule(tool);
    RootFound(tool);
    Shorter(tool);
  }

  lemma Shorter(tool: string)
    ensures |tool| < |tool + "(*)"| < |tool + "(//**)"| < |tool + "(///**)"|
  {
  }

  lemma UnclosedIsMisjudged(rule: string)
    requires !WellFormed(rule)
    ensures Misjudged([rule + "(*)"], rule)
  {
    assert ParseRule(rule) == Rule(rule, None) && |rule + "(*)"| != |rule|;
  }

  // An entry for commands that begin with `lead`, with another character where it should close.
  lemma CommandIsMisjudged(lead: string, more: string, c: char)
    requires '*' !in lead && c != ')'
    ensures Misjudged(["Bash(" + (lead + " *") + [c]], "Bash(" + (lead + " " + more) + ")")
  {
    var inner, spec := lead + " *", lead + " " + more;
    var entry, rule := "Bash(" + inner + [c], "Bash(" + spec + ")";
    BashText(spec);
    ParseParts("Bash", spec);
    PrefixFound(entry, lead, more, c);
    EndsOpen(entry, c);
    FirstAncestorCovers([entry], "Bash", spec);
    assert ("Bash(" + spec) + ")" == rule;
    OneEntry(entry, rule, spec);
  }

  lemma OneEntry(entry: string, rule: string, spec: string)
    requires ParseRule(rule) == Rule("Bash", Some(spec)) && entry !in {rule, "Bash", "Bash(*)"}
    requires !AncestorAllowed([entry], "Bash", spec) && UnclosedPrefix([entry], spec)
    ensures Misjudged([entry], rule)
  {
    assert "Bash" + "(*)" == "Bash(*)";
  }

  lemma BashText(spec: string)
    ensures "Bash" + "(" + spec + ")" == "Bash(" + spec + ")" && '(' !in "Bash"
  {
    assert "Bash" + "(" == "Bash(";
  }

  // What does not end in a closing parenthesis is no rule that does.
  lemma EndsOpen(entry: string, c: char)
    requires |entry| >= 6 && entry[|entry| - 1] == c != ')' && entry[4] == '('
    ensures !WellFormed(entry) && entry != "Bash" && entry != "Bash(*)"
    ensures forall s: string :: s + ")" != entry
    ensures forall tool: string, spec: string :: !AncestorCovers(entry, tool, spec)
  {
    if EndsWith(entry, ")") { LastChar(entry, ")"); }
    if EndsWith(entry, "/**)") { LastChar(entry, "/**)"); }
    assert "Bash(*)"[6] == ')';
    forall s: string ensures s + ")" != entry {
      assert (s + ")")[|s|] == ')';
    }
  }

  lemma PrefixFound(entry: string, lead: string, more: string, c: char)
    requires '*' !in lead && entry == "Bash(" + (lead + " *") + [c]
    ensures |entry| >= 6 && entry[4] == '(' && FirstPrefix([entry], lead + " " + more) == Some(entry)
  {
    var inner, spec := lead + " *", lead + " " + more;
    assert entry[..5] == "Bash(" && Inner(entry, 5) == inner;
    assert inner[|inner| - 2..] == " *" && inner[..|inner| - 2] == lead;
    assert spec[..|lead| + 1] == lead + " ";
  }

  // The entry named is the first that fits; one after it may grant the rule all the same.
  lemma GrantedElsewhere(relative: Use -> bool, lead: string, more: string, c: char)
    requires '*' !in lead && c != ')' && more != "*"
    ensures var bad, good := "Bash(" + (lead + " *") + [c], "Bash(" + (lead + " *") + ")";
      var rule := "Bash(" + (lead + " " + more) + ")";
      Misjudged([bad, good], rule) && Includes(relative, good, rule)
  {
    var bad, good := "Bash(" + (lead + " *") + [c], "Bash(" + (lead + " *") + ")";
    var spec, rule := lead + " " + more, "Bash(" + (lead + " " + more) + ")";
    BashText(spec);
    ParseParts("Bash", spec);
    PrefixFound(bad, lead, more, c);
    EndsOpen(bad, c);
    GoodEntry(good, lead, more);
    Differ(lead, more);
    FirstAncestorCovers([bad, good], "Bash", spec);
    SecondEntry(bad, good, rule, spec);
    assert rule[|rule| - 1..] == ")";
    PrefixIncludes(relative, good, rule);
  }

  lemma Differ(lead: string, more: string)
    requires more != "*"
    ensures "Bash(" + (lead + " *") + ")" != "Bash(" + (lead + " " + more) + ")"
  {
    var a, b := "Bash(" + (lead + " *") + ")", "Bash(" + (lead + " " + more) + ")";
    assert |a| == |lead| + 8 && |b| == |lead| + 7 + |more| && a[|lead| + 6] == '*';
    assert |more| == 1 ==> b[|lead| + 6] == more[0] && more == [more[0]];
  }

  lemma GoodEntry(entry: string, lead: string, more: string)
    requires '*' !in lead && entry == "Bash(" + (lead + " *") + ")"
    ensures WellFormed(entry) && PrefixCovers(entry, lead + " " + more) && entry != "Bash" && entry != "Bash(*)"
    ensures forall tool: string, spec: string :: !AncestorCovers(entry, tool, spec)
  {
    var inner, spec := lead + " *", lead + " " + more;
    assert entry[..5] == "Bash(" && Inner(entry, 5) == inner;
    assert inner[|inner| - 2..] == " *" && inner[..|inner| - 2] == lead;
    assert spec[..|lead| + 1] == lead + " ";
    assert entry[|entry| - 1..] == ")" && entry[|entry| - 3] == ' ';
    assert "/**)"[1] == '*';
    if EndsWith(entry, "/**)") { SuffixChars(entry, "/**)"); }
  }

  lemma SecondEntry(bad: string, good: string, rule: string, spec: string)
    requires ParseRule(rule) == Rule("Bash", Some(spec)) && bad !in {rule, "Bash", "Bash(*)"} && good !in {rule, "Bash", "Bash(*)"}
    requires !AncestorAllowed([bad, good], "Bash", spec) && UnclosedPrefix([bad], spec)
    ensures Misjudged([bad, good], rule)
  {
    assert "Bash" + "(*)" == "Bash(*)";
    FirstPrefixCovers([bad], spec);
    assert PrefixCovers(bad, spec) && [bad, good][0] == bad;
  }
}
