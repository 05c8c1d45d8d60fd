/** The audit of a finished run: which nodes opened a pull request, what they must name, and what
    a clean verdict guarantees about the whole run. */
module AuditRun {
  import opened Options

  // ---- a run as it was recorded -------------------------------------------------------------

  datatype RepoField = Absent | Null | Named(name: string)

  /** One node. `recorded` are the pull-request URLs it produced, `handed` those in its inputs,
      `sources` the repository source files it produced, `tiers` the tier tokens its contract
      carries. Kind, approach and status are trimmed and case-folded. */
  datatype Node = Node(
    id: string, kind: Option<string>, approach: string, status: Option<string>, repo: RepoField,
    recorded: set<string>, handed: set<string>, sources: seq<string>, tiers: nat)

  /** A run declares the repositories it works on, each once; none in a file of the old form. */
  datatype Run = Run(repos: seq<string>, nodes: seq<Node>)

  const KINDS: seq<string> := ["skill", "agent", "workflow", "inline", "integrate"]

  const STATUSES: seq<string> :=
    ["PENDING", "READY", "RUNNING", "DONE", "FAILED", "SKIPPED", "BLOCKED", "NEEDS_CONTEXT"]

  const LAND_KIND := "integrate"

  const MONITOR := "odoo-pr-monitoring"

  const REPO_BOUND: seq<string> := [
    "odoo-coding", "odoo-test-writing", "odoo-code-review", "odoo-instance", "odoo-i18n",
    "odoo-acceptance", "odoo-doc-illustration", "odoo-doc-site", "odoo-pr-monitoring",
    "git-toolkit:git-ops"]

  // ---- what a node is -------------------------------------------------------------------------

  predicate EndsWith(s: string, suffix: string) { |s| >= |suffix| && s[|s| - |suffix|..] == suffix }

  // Exactly one of the names, possibly behind a plugin qualifier.
  predicate ApproachIs(n: Node, names: seq<string>) {
    n.approach != "" && exists i :: 0 <= i < |names| && (n.approach == names[i] || EndsWith(n.approach, ":" + names[i]))
  }

  function RepoOf(n: Node): Option<string> {
    if n.repo.Named? && n.repo.name != "" then Some(n.repo.name) else None
  }

  // The pull requests the node opened: recorded by it, and not handed to it. A monitor opens none.
  function OpenedUrls(n: Node): set<string> {
    if ApproachIs(n, [MONITOR]) then {} else n.recorded - n.handed
  }

  predicate Opened(n: Node) { OpenedUrls(n) != {} }

  predicate Declares(n: Node) { n.kind == Some(LAND_KIND) }

  predicate IsDone(n: Node) { n.status == Some("DONE") }

  predicate Opens(n: Node) { Opened(n) || Declares(n) }

  predicate Landed(n: Node) { Opened(n) || (Declares(n) && IsDone(n)) }

  predicate LandTail(n: Node) { Declares(n) || ApproachIs(n, [MONITOR]) }

  predicate Settled(n: Node) { n.status == Some("DONE") || n.status == Some("SKIPPED") }

  // Work that writes a repository or gates its delivery.
  predicate RepoBound(n: Node) {
    Declares(n) || ApproachIs(n, REPO_BOUND) || Opened(n) || n.sources != []
  }

  // ---- whether the run can be read ----------------------------------------------------------------

  predicate ReadableNode(n: Node, perRepo: bool) {
    && n.id != ""
    && n.kind.Some? && n.kind.value in KINDS
    && n.status.Some? && n.status.value in STATUSES
    && (perRepo ==> n.repo != Absent)
  }

  predicate Readable(run: Run) {
    forall n <- run.nodes :: ReadableNode(n, run.repos != [])
  }

  // `repos[]` holds each repository once.
  predicate Declared(run: Run) {
    forall i, j :: 0 <= i < j < |run.repos| ==> run.repos[i] != run.repos[j]
  }

  // ---- findings -----------------------------------------------------------------------------------

  datatype What =
    | UndeclaredPr | SeveralUrls | NoUrl | ExtraPr | NeverLanded | Repoless | UnknownRepo
    | NoOpener | Unfinished | UnfinishedRepoless | TierToken

  datatype Finding = Finding(subject: string, what: What)

  function Pick(nodes: seq<Node>, p: Node -> bool): (r: seq<Node>)
    ensures |r| <= |nodes|
  {
    if nodes == [] then []
    else
      var last := nodes[|nodes| - 1];
      Pick(nodes[..|nodes| - 1], p) + (if p(last) then [last] else [])
  }

  function Each(nodes: seq<Node>, what: What): (r: seq<Finding>)
    ensures |r| == |nodes|
  {
    seq(|nodes|, i requires 0 <= i < |nodes| => Finding(nodes[i].id, what))
  }

  function LandedNodes(run: Run): seq<Node> { Pick(run.nodes, Landed) }

  function LandedIn(nodes: seq<Node>, repo: string): seq<Node> {
    Pick(nodes, (n: Node) => Landed(n) && RepoOf(n) == Some(repo))
  }

  function OpenersIn(nodes: seq<Node>, repo: string): seq<Node> {
    Pick(nodes, (n: Node) => Opens(n) && RepoOf(n) == Some(repo))
  }

  function UnfinishedIn(nodes: seq<Node>, repo: Option<string>): seq<Node> {
    Pick(nodes, (n: Node) => RepoOf(n) == repo && !LandTail(n) && !Settled(n))
  }

  function UnfinishedNodes(nodes: seq<Node>): seq<Node> {
    Pick(nodes, (n: Node) => !LandTail(n) && !Settled(n))
  }

  // What one node did and what it declared disagree.
  function Evidence(n: Node): seq<Finding> {
    (if Opened(n) && !Declares(n) then [Finding(n.id, UndeclaredPr)] else [])
    + (if |OpenedUrls(n)| > 1 then [Finding(n.id, SeveralUrls)] else [])
    + (if Declares(n) && IsDone(n) && !Opened(n) then [Finding(n.id, NoUrl)] else [])
  }

  function Attribution(n: Node, repos: seq<string>): seq<Finding> {
    match RepoOf(n)
    case None => if RepoBound(n) then [Finding(n.id, Repoless)] else []
    case Some(repo) => if repo !in repos then [Finding(n.id, UnknownRepo)] else []
  }

  function RepoFindings(nodes: seq<Node>, repo: string): seq<Finding> {
    var landed, openers := LandedIn(nodes, repo), OpenersIn(nodes, repo);
    if |landed| > 1 then Each(landed, ExtraPr)
    else if landed == [] && openers != [] then Each(openers, NeverLanded)
    else if openers == [] then [Finding(repo, NoOpener)]
    else []
  }

  function Collect<T>(items: seq<T>, f: T -> seq<Finding>): seq<Finding> {
    if items == [] then [] else Collect(items[..|items| - 1], f) + f(items[|items| - 1])
  }

  function OnePrFindings(run: Run): seq<Finding> {
    var landed, openers := LandedNodes(run), Pick(run.nodes, Opens);
    Collect(run.nodes, Evidence) +
    (if run.repos == [] then
       (if |landed| > 1 then Each(landed, ExtraPr)
        else if openers != [] && landed == [] then Each(openers, NeverLanded)
        else [])
     else
       Collect(run.nodes, (n: Node) => Attribution(n, run.repos))
       + (if openers != [] then Collect(run.repos, (r: string) => RepoFindings(run.nodes, r)) else []))
  }

  function WorkAfterPr(nodes: seq<Node>, repo: string): seq<Finding> {
    if LandedIn(nodes, repo) == [] then [] else Each(UnfinishedIn(nodes, Some(repo)), Unfinished)
  }

  predicate AnyLanded(run: Run) {
    exists i :: 0 <= i < |run.repos| && LandedIn(run.nodes, run.repos[i]) != []
  }

  function PrLastFindings(run: Run): seq<Finding> {
    if run.repos == [] then
      (if LandedNodes(run) == [] then [] else Each(UnfinishedNodes(run.nodes), Unfinished))
    else
      Collect(run.repos, (r: string) => WorkAfterPr(run.nodes, r))
      + (if AnyLanded(run) then Each(Pick(UnfinishedIn(run.nodes, None), RepoBound), UnfinishedRepoless) else [])
  }

  function TierFindings(run: Run): seq<Finding> {
    Collect(run.nodes, (n: Node) => seq(n.tiers, i => Finding(n.id, TierToken)))
  }

  datatype Verdict = CouldNotCheck | Violation(findings: seq<Finding>) | Clean

  function Audit(run: Run): Verdict {
    if !Readable(run) then CouldNotCheck
    else
      var findings := OnePrFindings(run) + PrLastFindings(run) + TierFindings(run);
      if findings == [] then Clean else Violation(findings)
  }

  // ---- the audit itself ---------------------------------------------------------------------------

  method Filter(nodes: seq<Node>, p: Node -> bool) returns (r: seq<Node>)
    ensures r == Pick(nodes, p)
  {
    r := [];
    for i := 0 to |nodes|
      invariant r == Pick(nodes[..i], p)
    {
      assert nodes[..i + 1][..i] == nodes[..i];
      if p(nodes[i]) {
        r := r + [nodes[i]];
      }
    }
    assert nodes[..|nodes|] == nodes;
  }

  method CheckEvidence(nodes: seq<Node>) returns (violations: seq<Finding>)
    ensures violations == Collect(nodes, Evidence)
  {
    violations := [];
    for i := 0 to |nodes|
      invariant violations == Collect(nodes[..i], Evidence)
    {
      assert nodes[..i + 1][..i] == nodes[..i];
      var n := nodes[i];
      ghost var before := violations;
      if Opened(n) && !Declares(n) {
        violations := violations + [Finding(n.id, UndeclaredPr)];
      }
      if |OpenedUrls(n)| > 1 {
        violations := violations + [Finding(n.id, SeveralUrls)];
      }
      if Declares(n) && IsDone(n) && !Opened(n) {
        violations := violations + [Finding(n.id, NoUrl)];
      }
      assert violations == before + Evidence(n);
    }
    assert nodes[..|nodes|] == nodes;
  }

  method CheckAttribution(run: Run) returns (violations: seq<Finding>)
    ensures violations == Collect(run.nodes, (n: Node) => Attribution(n, run.repos))
  {
    ghost var f := (n: Node) => Attribution(n, run.repos);
    violations := [];
    for i := 0 to |run.nodes|
      invariant violations == Collect(run.nodes[..i], f)
    {
      assert run.nodes[..i + 1][..i] == run.nodes[..i];
      var n := run.nodes[i];
      ghost var before := violations;
      var repo := RepoOf(n);
      if repo.None? {
        if RepoBound(n) {
          violations := violations + [Finding(n.id, Repoless)];
        }
      } else if repo.value !in run.repos {
        violations := violations + [Finding(n.id, UnknownRepo)];
      }
      assert violations == before + f(n);
    }
    assert run.nodes[..|run.nodes|] == run.nodes;
  }

  method CheckRepos(run: Run) returns (violations: seq<Finding>)
    ensures violations == Collect(run.repos, (r: string) => RepoFindings(run.nodes, r))
  {
    ghost var f := (r: string) => RepoFindings(run.nodes, r);
    violations := [];
    for i := 0 to |run.repos|
      invariant violations == Collect(run.repos[..i], f)
    {
      assert run.repos[..i + 1][..i] == run.repos[..i];
      var repo := run.repos[i];
      ghost var before := violations;
      var landed := Filter(run.nodes, (n: Node) => Landed(n) && RepoOf(n) == Some(repo));
      var openers := Filter(run.nodes, (n: Node) => Opens(n) && RepoOf(n) == Some(repo));
      if |landed| > 1 {
        violations := violations + Each(landed, ExtraPr);
      } else if landed == [] && openers != [] {
        violations := violations + Each(openers, NeverLanded);
      } else if openers == [] {
        violations := violations + [Finding(repo, NoOpener)];
      }
      assert violations == before + f(repo);
    }
    assert run.repos[..|run.repos|] == run.repos;
  }

  method CheckOnePr(run: Run) returns (violations: seq<Finding>)
    ensures violations == OnePrFindings(run)
  {
    var openers := Filter(run.nodes, Opens);
    var landed := Filter(run.nodes, Landed);
    violations := CheckEvidence(run.nodes);
    if run.repos == [] {
      if |landed| > 1 {
        violations := violations + Each(landed, ExtraPr);
      } else if openers != [] && landed == [] {
        violations := violations + Each(openers, NeverLanded);
      }
      return;
    }
    var unattributed := CheckAttribution(run);
    violations := violations + unattributed;
    if openers != [] {
      var perRepo := CheckRepos(run);
      violations := violations + perRepo;
    }
  }

  method CheckLandedRepos(run: Run) returns (violations: seq<Finding>, landedRepos: seq<string>)
    ensures violations == Collect(run.repos, (r: string) => WorkAfterPr(run.nodes, r))
    ensures landedRepos != [] <==> AnyLanded(run)
  {
    ghost var f := (r: string) => WorkAfterPr(run.nodes, r);
    violations, landedRepos := [], [];
    for i := 0 to |run.repos|
      invariant violations == Collect(run.repos[..i], f)
      invariant landedRepos != [] <==> exists j :: 0 <= j < i && LandedIn(run.nodes, run.repos[j]) != []
    {
      assert run.repos[..i + 1][..i] == run.repos[..i];
      var repo := run.repos[i];
      ghost var before := violations;
      var here := Filter(run.nodes, (n: Node) => Landed(n) && RepoOf(n) == Some(repo));
      if here != [] {
        landedRepos := landedRepos + [repo];
        var unfinished := Filter(run.nodes, (n: Node) => RepoOf(n) == Some(repo) && !LandTail(n) && !Settled(n));
        violations := violations + Each(unfinished, Unfinished);
      }
      assert violations == before + f(repo);
    }
    assert run.repos[..|run.repos|] == run.repos;
  }

  method CheckPrLast(run: Run) returns (violations: seq<Finding>)
    ensures violations == PrLastFindings(run)
  {
    if run.repos == [] {
      var landed := Filter(run.nodes, Landed);
      var unfinished := Filter(run.nodes, (n: Node) => !LandTail(n) && !Settled(n));
      return if landed == [] then [] else Each(unfinished, Unfinished);
    }
    var landedRepos;
    violations, landedRepos := CheckLandedRepos(run);
    var open := Filter(run.nodes, (n: Node) => RepoOf(n) == None && !LandTail(n) && !Settled(n));
    var gating := Filter(open, RepoBound);
    if landedRepos != [] {
      violations := violations + Each(gating, UnfinishedRepoless);
    }
  }

  method CheckTiers(run: Run) returns (violations: seq<Finding>)
    ensures violations == TierFindings(run)
  {
    ghost var f := (n: Node) => seq(n.tiers, i => Finding(n.id, TierToken));
    violations := [];
    for i := 0 to |run.nodes|
      invariant violations == Collect(run.nodes[..i], f)
    {
      assert run.nodes[..i + 1][..i] == run.nodes[..i];
      var n := run.nodes[i];
      violations := violations + seq(n.tiers, j => Finding(n.id, TierToken));
    }
    assert run.nodes[..|run.nodes|] == run.nodes;
  }

  method AuditTheRun(run: Run) returns (verdict: Verdict)
    ensures verdict == Audit(run)
  {
    if !Readable(run) {
      return CouldNotCheck;
    }
    var onePr := CheckOnePr(run);
    var prLast := CheckPrLast(run);
    var tiers := CheckTiers(run);
    var findings := onePr + prLast + tiers;
    return if findings == [] then Clean else Violation(findings);
  }

  // ---- what a clean verdict means -----------------------------------------------------------------

  predicate SomeNode(nodes: seq<Node>, p: Node -> bool) { exists i :: 0 <= i < |nodes| && p(nodes[i]) }

  // A landed node is a land step that opened exactly one pull request.
  predicate ProperLanding(n: Node) { Landed(n) ==> Declares(n) && |OpenedUrls(n)| == 1 }

  predicate Attributed(n: Node, repos: seq<string>) {
    match RepoOf(n)
    case None => !RepoBound(n)
    case Some(repo) => repo in repos
  }

  predicate IsLanding(nodes: seq<Node>, i: int, repo: string) {
    0 <= i < |nodes| && Landed(nodes[i]) && RepoOf(nodes[i]) == Some(repo)
  }

  ghost predicate OneLanding(nodes: seq<Node>, repo: string) {
    && (exists i :: IsLanding(nodes, i, repo))
    && (forall i, j :: IsLanding(nodes, i, repo) && IsLanding(nodes, j, repo) ==> i == j)
  }

  lemma {:induction false} PickEmpty(nodes: seq<Node>, p: Node -> bool)
    ensures Pick(nodes, p) == [] <==> !SomeNode(nodes, p)
  {
    if nodes != [] {
      var k := |nodes| - 1;
      PickEmpty(nodes[..k], p);
      if SomeNode(nodes, p) && !p(nodes[k]) {
        var i :| 0 <= i < |nodes| && p(nodes[i]);
        assert nodes[..k][i] == nodes[i];
      }
      if SomeNode(nodes[..k], p) {
        var i :| 0 <= i < k && p(nodes[..k][i]);
        assert p(nodes[i]);
      }
    }
  }

  predicate AtMostOne(nodes: seq<Node>, p: Node -> bool) {
    forall i, j :: 0 <= i < |nodes| && 0 <= j < |nodes| && p(nodes[i]) && p(nodes[j]) ==> i == j
  }

  lemma {:induction false} PickSingle(nodes: seq<Node>, p: Node -> bool)
    ensures |Pick(nodes, p)| <= 1 <==> AtMostOne(nodes, p)
  {
    if nodes != [] {
      var k := |nodes| - 1;
      PickSingle(nodes[..k], p);
      PickEmpty(nodes[..k], p);
      assert forall i :: 0 <= i < k ==> nodes[..k][i] == nodes[i];
      if AtMostOne(nodes[..k], p) && !AtMostOne(nodes, p) {
        var i, j :| 0 <= i < |nodes| && 0 <= j < |nodes| && p(nodes[i]) && p(nodes[j]) && i != j;
        assert i == k || j == k;
        assert p(nodes[k]) && p(nodes[..k][if i == k then j else i]);
      }
    }
  }

  lemma {:induction false} PickMembers(nodes: seq<Node>, p: Node -> bool)
    ensures forall n <- Pick(nodes, p) :: n in nodes && p(n)
  {
    if nodes != [] {
      PickMembers(nodes[..|nodes| - 1], p);
    }
  }

  lemma {:induction false} CollectEmpty<T>(items: seq<T>, f: T -> seq<Finding>)
    ensures Collect(items, f) == [] <==> forall i :: 0 <= i < |items| ==> f(items[i]) == []
  {
    if items != [] {
      var k := |items| - 1;
      CollectEmpty(items[..k], f);
      assert forall i :: 0 <= i < k ==> items[..k][i] == items[i];
    }
  }

  lemma EvidenceEmpty(n: Node)
    ensures Evidence(n) == [] <==> ProperLanding(n)
  {
    if Opened(n) {
      var u :| u in OpenedUrls(n);
      assert |OpenedUrls(n)| >= |{u}|;
    }
  }

  lemma RepoFindingsEmpty(nodes: seq<Node>, repo: string)
    ensures RepoFindings(nodes, repo) == [] <==> OneLanding(nodes, repo)
  {
    var p, q := (n: Node) => Landed(n) && RepoOf(n) == Some(repo), (n: Node) => Opens(n) && RepoOf(n) == Some(repo);
    PickEmpty(nodes, p);
    PickEmpty(nodes, q);
    PickSingle(nodes, p);
    assert forall i :: 0 <= i < |nodes| ==> (p(nodes[i]) <==> IsLanding(nodes, i, repo));
    if SomeNode(nodes, p) {
      var i :| 0 <= i < |nodes| && p(nodes[i]);
      assert q(nodes[i]) && IsLanding(nodes, i, repo);
    }
    if i :| IsLanding(nodes, i, repo) {
      assert p(nodes[i]);
    }
  }

  lemma LandedInEmpty(nodes: seq<Node>, repo: string)
    ensures LandedIn(nodes, repo) != [] <==> exists i :: IsLanding(nodes, i, repo)
  {
    var p := (n: Node) => Landed(n) && RepoOf(n) == Some(repo);
    PickEmpty(nodes, p);
    if SomeNode(nodes, p) {
      var i :| 0 <= i < |nodes| && p(nodes[i]);
      assert IsLanding(nodes, i, repo);
    }
    if i :| IsLanding(nodes, i, repo) {
      assert p(nodes[i]);
    }
  }

  predicate SettledIn(nodes: seq<Node>, repo: string) {
    forall n <- nodes :: RepoOf(n) == Some(repo) ==> LandTail(n) || Settled(n)
  }

  lemma WorkAfterPrEmpty(nodes: seq<Node>, repo: string)
    ensures WorkAfterPr(nodes, repo) == [] <==> ((exists i :: IsLanding(nodes, i, repo)) ==> SettledIn(nodes, repo))
  {
    var q := (n: Node) => RepoOf(n) == Some(repo) && !LandTail(n) && !Settled(n);
    LandedInEmpty(nodes, repo);
    PickEmpty(nodes, q);
    if SomeNode(nodes, q) {
      var i :| 0 <= i < |nodes| && q(nodes[i]);
      assert nodes[i] in nodes;
    } else {
      forall n | n in nodes && RepoOf(n) == Some(repo) ensures LandTail(n) || Settled(n) {
        var i :| 0 <= i < |nodes| && nodes[i] == n;
        assert !q(nodes[i]);
      }
    }
    assert UnfinishedIn(nodes, Some(repo)) == Pick(nodes, q);
  }

  // ---- the three checks, each as a property of the run -------------------------------------------

  predicate ProperLandings(nodes: seq<Node>) { forall i :: 0 <= i < |nodes| ==> ProperLanding(nodes[i]) }

  ghost predicate OnePrEach(run: Run) {
    if run.repos == [] then
      && AtMostOne(run.nodes, Landed)
      && (SomeNode(run.nodes, Opens) ==> SomeNode(run.nodes, Landed))
    else
      && (forall i :: 0 <= i < |run.nodes| ==> Attributed(run.nodes[i], run.repos))
      && (SomeNode(run.nodes, Opens) ==> forall i :: 0 <= i < |run.repos| ==> OneLanding(run.nodes, run.repos[i]))
  }

  lemma EvidencesEmpty(nodes: seq<Node>)
    ensures Collect(nodes, Evidence) == [] <==> ProperLandings(nodes)
  {
    CollectEmpty(nodes, Evidence);
    forall i | 0 <= i < |nodes| ensures Evidence(nodes[i]) == [] <==> ProperLanding(nodes[i]) {
      EvidenceEmpty(nodes[i]);
    }
  }

  lemma ReposEmpty(nodes: seq<Node>, repos: seq<string>)
    ensures Collect(repos, (r: string) => RepoFindings(nodes, r)) == []
      <==> forall i :: 0 <= i < |repos| ==> OneLanding(nodes, repos[i])
  {
    var g := (r: string) => RepoFindings(nodes, r);
    CollectEmpty(repos, g);
    forall i | 0 <= i < |repos| ensures g(repos[i]) == [] <==> OneLanding(nodes, repos[i]) {
      RepoFindingsEmpty(nodes, repos[i]);
    }
  }

  lemma AttributionsEmpty(nodes: seq<Node>, repos: seq<string>)
    ensures Collect(nodes, (n: Node) => Attribution(n, repos)) == []
      <==> forall i :: 0 <= i < |nodes| ==> Attributed(nodes[i], repos)
  {
    CollectEmpty(nodes, (n: Node) => Attribution(n, repos));
  }

  lemma OnePrEmpty(run: Run)
    ensures OnePrFindings(run) == [] <==> ProperLandings(run.nodes) && OnePrEach(run)
  {
    EvidencesEmpty(run.nodes);
    PickEmpty(run.nodes, Opens);
    if run.repos == [] {
      PickEmpty(run.nodes, Landed);
      PickSingle(run.nodes, Landed);
    } else {
      AttributionsEmpty(run.nodes, run.repos);
      ReposEmpty(run.nodes, run.repos);
    }
  }

  ghost predicate SettledAfterLanding(run: Run) {
    if run.repos == [] then
      SomeNode(run.nodes, Landed) ==> forall i :: 0 <= i < |run.nodes| ==> LandTail(run.nodes[i]) || Settled(run.nodes[i])
    else
      forall i :: 0 <= i < |run.repos| ==>
        ((exists j :: IsLanding(run.nodes, j, run.repos[i])) ==> SettledIn(run.nodes, run.repos[i]))
  }

  lemma NoRepolessWork(run: Run)
    requires run.repos != [] && forall i :: 0 <= i < |run.nodes| ==> Attributed(run.nodes[i], run.repos)
    ensures Pick(UnfinishedIn(run.nodes, None), RepoBound) == []
  {
    var open := UnfinishedIn(run.nodes, None);
    PickMembers(run.nodes, (n: Node) => RepoOf(n) == None && !LandTail(n) && !Settled(n));
    PickEmpty(open, RepoBound);
    forall i | 0 <= i < |open| ensures !RepoBound(open[i]) {
      assert open[i] in open && open[i] in run.nodes;
    }
  }

  lemma PrLastEmpty(run: Run)
    requires OnePrEach(run)
    ensures PrLastFindings(run) == [] <==> SettledAfterLanding(run)
  {
    if run.repos == [] {
      PickEmpty(run.nodes, Landed);
      PickEmpty(run.nodes, (n: Node) => !LandTail(n) && !Settled(n));
    } else {
      var f := (r: string) => WorkAfterPr(run.nodes, r);
      CollectEmpty(run.repos, f);
      NoRepolessWork(run);
      forall i | 0 <= i < |run.repos|
        ensures f(run.repos[i]) == []
          <==> ((exists j :: IsLanding(run.nodes, j, run.repos[i])) ==> SettledIn(run.nodes, run.repos[i]))
      {
        WorkAfterPrEmpty(run.nodes, run.repos[i]);
      }
    }
  }

  lemma TiersEmpty(run: Run)
    ensures TierFindings(run) == [] <==> forall i :: 0 <= i < |run.nodes| ==> run.nodes[i].tiers == 0
  {
    CollectEmpty(run.nodes, (n: Node) => seq(n.tiers, i => Finding(n.id, TierToken)));
  }

  /** The verdict is clean exactly for a readable run in which every landed node is a land step
      with one pull request, every node is attributed, every repository landed once if any node
      opens a pull request, and the rest of a landed repository's work is settled. */
  lemma CleanIffAdequate(run: Run)
    ensures Audit(run) == Clean <==>
      && Readable(run) && ProperLandings(run.nodes) && OnePrEach(run) && SettledAfterLanding(run)
      && (forall i :: 0 <= i < |run.nodes| ==> run.nodes[i].tiers == 0)
  {
    OnePrEmpty(run);
    TiersEmpty(run);
    if OnePrEach(run) {
      PrLastEmpty(run);
    }
  }

  // ---- the repositories and the land steps, one to one ---------------------------------------------

  // The land step of each declared repository.
  ghost predicate Pairs(run: Run, step: seq<int>) {
    && |step| == |run.repos|
    && (forall k :: 0 <= k < |step| ==> IsLanding(run.nodes, step[k], run.repos[k]))
    && (forall k, l :: 0 <= k < l < |step| ==> step[k] != step[l])
    && (forall i :: 0 <= i < |run.nodes| && Landed(run.nodes[i]) ==> i in step)
  }

  lemma LandedNamesRepo(run: Run, i: int)
    requires run.repos != [] && ProperLandings(run.nodes) && OnePrEach(run)
    requires 0 <= i < |run.nodes| && Landed(run.nodes[i])
    ensures exists k :: 0 <= k < |run.repos| && IsLanding(run.nodes, i, run.repos[k])
  {
    assert ProperLanding(run.nodes[i]) && Attributed(run.nodes[i], run.repos);
    var repo := RepoOf(run.nodes[i]).value;
    var k :| 0 <= k < |run.repos| && run.repos[k] == repo;
    assert IsLanding(run.nodes, i, run.repos[k]);
  }

  lemma StepOf(run: Run, repo: string) returns (i: int)
    requires OneLanding(run.nodes, repo)
    ensures IsLanding(run.nodes, i, repo) && forall j :: IsLanding(run.nodes, j, repo) ==> j == i
  {
    i :| IsLanding(run.nodes, i, repo);
  }

  lemma Steps(run: Run, repos: seq<string>) returns (step: seq<int>)
    requires forall k :: 0 <= k < |repos| ==> OneLanding(run.nodes, repos[k])
    ensures |step| == |repos|
    ensures forall k :: 0 <= k < |repos| ==>
      IsLanding(run.nodes, step[k], repos[k]) && forall j :: IsLanding(run.nodes, j, repos[k]) ==> j == step[k]
  {
    if repos == [] {
      step := [];
    } else {
      var k := |repos| - 1;
      var before := Steps(run, repos[..k]);
      var last := StepOf(run, repos[k]);
      step := before + [last];
      assert forall l :: 0 <= l < k ==> repos[..k][l] == repos[l];
    }
  }

  /** In a clean run that opens any pull request, the landed nodes and the declared repositories
      match one to one, and each landed node is an integrate node with exactly one pull request. */
  lemma CleanRunsPair(run: Run) returns (step: seq<int>)
    requires Audit(run) == Clean && Declared(run) && run.repos != [] && SomeNode(run.nodes, Opens)
    ensures Pairs(run, step)
    ensures forall i :: 0 <= i < |run.nodes| && Landed(run.nodes[i]) ==>
      run.nodes[i].kind == Some("integrate") && |OpenedUrls(run.nodes[i])| == 1
  {
    CleanIffAdequate(run);
    step := Steps(run, run.repos);
    forall i | 0 <= i < |run.nodes| && Landed(run.nodes[i])
      ensures i in step && run.nodes[i].kind == Some("integrate") && |OpenedUrls(run.nodes[i])| == 1
    {
      LandedNamesRepo(run, i);
      var k :| 0 <= k < |run.repos| && IsLanding(run.nodes, i, run.repos[k]);
      assert step[k] == i;
      assert ProperLanding(run.nodes[i]);
    }
  }

  /** And then all repo-bound work names a declared repository, and whatever names a repository
      is settled or belongs to the land tail. */
  lemma CleanRunsSettle(run: Run, n: Node)
    requires Audit(run) == Clean && run.repos != [] && n in run.nodes
    ensures RepoBound(n) ==> RepoOf(n).Some?
    ensures RepoOf(n).Some? ==> RepoOf(n).value in run.repos
    ensures RepoOf(n).Some? && !LandTail(n) && SomeNode(run.nodes, Opens) ==>
      n.status == Some("DONE") || n.status == Some("SKIPPED")
  {
    CleanIffAdequate(run);
    var i :| 0 <= i < |run.nodes| && run.nodes[i] == n;
    assert Attributed(run.nodes[i], run.repos);
    if RepoOf(n).Some? && SomeNode(run.nodes, Opens) {
      var k :| 0 <= k < |run.repos| && run.repos[k] == RepoOf(n).value;
      assert OneLanding(run.nodes, run.repos[k]) && SettledIn(run.nodes, run.repos[k]);
    }
  }

  // A land step of `repo` that is done and recorded `url`.
  function LandStep(repo: string, url: string): Node {
    Node(repo, Some("integrate"), "", Some("DONE"), Named(repo), {url}, {}, [], 0)
  }

  lemma LandStepLands(repo: string, url: string)
    requires repo != ""
    ensures var n := LandStep(repo, url);
      && OpenedUrls(n) == {url} && Landed(n) && ProperLanding(n) && LandTail(n)
      && RepoOf(n) == Some(repo) && ReadableNode(n, true)
  {
    var n := LandStep(repo, url);
    assert OpenedUrls(n) == {url} && |{url}| == 1;
    assert KINDS[4] == "integrate" && STATUSES[3] == "DONE";
  }

  lemma TwoLandings(x: Node, y: Node, r: string, s: string)
    requires r != s && RepoOf(x) == Some(r) && RepoOf(y) == Some(s)
    requires Landed(x) && Landed(y) && LandTail(x) && LandTail(y) && ProperLanding(x) && ProperLanding(y)
    requires ReadableNode(x, true) && ReadableNode(y, true) && x.tiers == y.tiers == 0
    ensures Audit(Run([r, s], [x, y])) == Clean
  {
    var run := Run([r, s], [x, y]);
    TwoReposLand(run);
    TwoReadable(run);
    CleanIffAdequate(run);
  }

  lemma TwoReadable(run: Run)
    requires |run.nodes| == 2 && run.repos != []
    requires forall i :: 0 <= i < 2 ==>
      ReadableNode(run.nodes[i], true) && ProperLanding(run.nodes[i]) && run.nodes[i].tiers == 0
    ensures Readable(run) && ProperLandings(run.nodes) && forall i :: 0 <= i < |run.nodes| ==> run.nodes[i].tiers == 0
  {
  }

  lemma TwoReposLand(run: Run)
    requires |run.repos| == |run.nodes| == 2 && run.repos[0] != run.repos[1]
    requires RepoOf(run.nodes[0]) == Some(run.repos[0]) && RepoOf(run.nodes[1]) == Some(run.repos[1])
    requires Landed(run.nodes[0]) && Landed(run.nodes[1]) && LandTail(run.nodes[0]) && LandTail(run.nodes[1])
    ensures OnePrEach(run) && SettledAfterLanding(run)
  {
    assert IsLanding(run.nodes, 0, run.repos[0]) && IsLanding(run.nodes, 1, run.repos[1]);
    assert OneLanding(run.nodes, run.repos[0]) && OneLanding(run.nodes, run.repos[1]);
  }

  // No pull request was opened by two nodes.
  predicate UrlsApart(nodes: seq<Node>) {
    forall i, j :: 0 <= i < j < |nodes| ==> OpenedUrls(nodes[i]) !! OpenedUrls(nodes[j])
  }

  // The pull request of each declared repository, taken from its land step.
  ghost predicate Opener(run: Run, step: seq<int>, url: seq<string>) {
    && Pairs(run, step) && |url| == |step|
    && forall k :: 0 <= k < |step| ==> OpenedUrls(run.nodes[step[k]]) == {url[k]}
  }

  lemma UrlOf(n: Node) returns (url: string)
    requires |OpenedUrls(n)| == 1
    ensures OpenedUrls(n) == {url}
  {
    url :| url in OpenedUrls(n);
    assert |OpenedUrls(n) - {url}| == 0;
  }

  lemma StepUrls(run: Run, step: seq<int>) returns (url: seq<string>)
    requires forall k :: 0 <= k < |step| ==> 0 <= step[k] < |run.nodes| && |OpenedUrls(run.nodes[step[k]])| == 1
    ensures |url| == |step| && forall k :: 0 <= k < |step| ==> OpenedUrls(run.nodes[step[k]]) == {url[k]}
  {
    if step == [] {
      url := [];
    } else {
      var k := |step| - 1;
      var before := StepUrls(run, step[..k]);
      var last := UrlOf(run.nodes[step[k]]);
      url := before + [last];
      assert forall l :: 0 <= l < k ==> step[..k][l] == step[l];
    }
  }

  predicate DistinctUrls(url: seq<string>) { forall k, l :: 0 <= k < l < |url| ==> url[k] != url[l] }

  lemma UrlsOfSteps(run: Run, step: seq<int>, url: seq<string>)
    requires Opener(run, step, url)
    ensures DistinctUrls(url) <==> UrlsApart(run.nodes)
  {
    if UrlsApart(run.nodes) {
      forall k, l | 0 <= k < l < |url| ensures url[k] != url[l] {
        assert IsLanding(run.nodes, step[k], run.repos[k]) && IsLanding(run.nodes, step[l], run.repos[l]);
        assert url[k] in OpenedUrls(run.nodes[step[k]]) && url[l] in OpenedUrls(run.nodes[step[l]]);
      }
    }
    if DistinctUrls(url) {
      forall i, j | 0 <= i < j < |run.nodes| ensures OpenedUrls(run.nodes[i]) !! OpenedUrls(run.nodes[j]) {
        OpenedApart(run, step, url, i, j);
      }
    }
  }

  lemma OpenedApart(run: Run, step: seq<int>, url: seq<string>, i: int, j: int)
    requires Opener(run, step, url) && DistinctUrls(url) && 0 <= i < j < |run.nodes|
    ensures OpenedUrls(run.nodes[i]) !! OpenedUrls(run.nodes[j])
  {
    if Opened(run.nodes[i]) && Opened(run.nodes[j]) {
      assert Landed(run.nodes[i]) && Landed(run.nodes[j]);
      var k :| 0 <= k < |step| && step[k] == i;
      var l :| 0 <= l < |step| && step[l] == j;
      assert url[k] != url[l];
    }
  }

  /** In a clean run the declared repositories and the pull requests opened match one to one if and
      only if no pull request was opened by two nodes; the audit itself does not look at that. */
  lemma CleanRunsPairUrls(run: Run) returns (step: seq<int>, url: seq<string>)
    requires Audit(run) == Clean && Declared(run) && run.repos != [] && SomeNode(run.nodes, Opens)
    ensures Opener(run, step, url)
    ensures DistinctUrls(url) <==> UrlsApart(run.nodes)
  {
    step := CleanRunsPair(run);
    forall k | 0 <= k < |step| ensures 0 <= step[k] < |run.nodes| && |OpenedUrls(run.nodes[step[k]])| == 1 {
      assert IsLanding(run.nodes, step[k], run.repos[k]);
    }
    url := StepUrls(run, step);
    UrlsOfSteps(run, step, url);
  }

  /** What the audit does not check: two repositories may land with one and the same pull request. */
  lemma OneUrlForTwoRepos(url: string)
    ensures Audit(Run(["a", "b"], [LandStep("a", url), LandStep("b", url)])) == Clean
  {
    LandStepLands("a", url);
    LandStepLands("b", url);
    assert "a"[0] != "b"[0];
    TwoLandings(LandStep("a", url), LandStep("b", url), "a", "b");
  }
}
