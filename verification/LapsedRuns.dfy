/** What the timed-out marker of another host costs: runs from the empty registry in which two live
    processes come to reclaim one lease, gc drops the database of a parked lease, and a re-park
    stamps a lease that is parked already. */
module LapsedRuns {
  import opened Options
  import opened Leases
  import opened Liveness
  import opened RowOps
  import opened Sections
  import opened Throwaway
  import opened ReclaimSystem
  import opened ReclaimRows
  import opened ReclaimSafety
  import ReclaimRuns
  import opened ReclaimTheorems

  // ---- the processes and what they see --------------------------------------------------------

  // The owner's processes: one on each of two hosts, and a server beside the first.
  const OWNER := Caller("r", None, "")

  const HEX := "00000000"
  const DB: string := MintName("p", HEX)

  const ASKED := Request(Ephemeral, "", "", 2, 0, None, false, 0, 0, {})

  function OnA(now: int, live: map<Pid, Birth>, cmdline: set<(Pid, string)>): View {
    View("A", 1, now, None, OWNER, live, {}, {}, {}, cmdline, {})
  }

  function OnB(now: int): View {
    View("B", 1, now, None, OWNER, map[1 := 1], {}, {}, {}, {}, {})
  }

  const SERVING: map<Pid, Birth> := map[1 := 0, 2 := 2]
  const ALONE: map<Pid, Birth> := map[1 := 0]

  const ALL_LIVE: map<(Host, Pid), Birth> := map[("A", 1) := 0, ("B", 1) := 1, ("A", 2) := 2]
  const SERVER_GONE: map<(Host, Pid), Birth> := map[("A", 1) := 0, ("B", 1) := 1]

  // The states of the runs: one lease at most, and a job of the process on host A.
  function At(reg: seq<Lease>, hist: map<Token, Hist>, now: int, live: map<(Host, Pid), Birth>, job: Job,
              dbs: map<string, Token>, lapsed: set<Token>): Sys
  {
    Sys(reg, hist, now, live, 3, map[0 := Agent("A", 1, OWNER, job), 1 := Agent("B", 1, OWNER, IDLE)],
        dbs, {}, lapsed, {})
  }

  lemma SeesAlone(reg: seq<Lease>, hist: map<Token, Hist>, now: int, job: Job, dbs: map<string, Token>, lapsed: set<Token>)
    ensures Observes(At(reg, hist, now, SERVER_GONE, job, dbs, lapsed), 0, OnA(now, ALONE, {}))
  {
    assert "A" != "B";
  }

  lemma SeesServer(reg: seq<Lease>, hist: map<Token, Hist>, job: Job, dbs: map<string, Token>, cmdline: set<(Pid, string)>)
    ensures Observes(At(reg, hist, 0, ALL_LIVE, job, dbs, {}), 0, OnA(0, SERVING, cmdline))
  {
    assert "A" != "B";
  }

  lemma GivesJob(reg: seq<Lease>, hist: map<Token, Hist>, now: int, live: map<(Host, Pid), Birth>, job: Job, job': Job,
                 dbs: map<string, Token>, lapsed: set<Token>)
    ensures WithJob(At(reg, hist, now, live, job, dbs, lapsed), 0, job') == At(reg, hist, now, live, job', dbs, lapsed)
  {
    var s := At(reg, hist, now, live, job, dbs, lapsed);
    assert s.agents[0 := Agent("A", 1, OWNER, job')] == At(reg, hist, now, live, job', dbs, lapsed).agents;
  }

  // ---- one section on a registry of one row -----------------------------------------------------

  lemma OneRowLeft(sec: Section, v: View, l: Lease)
    requires Mints(sec, [l], v).None? && !Removes(sec, l, v)
    ensures Apply(sec, [l], v) == [ApplyPlan(PlanFor(sec, [l], l, v), l, v)]
  {
    assert [l][1..] == [] && Rewrite(sec, [l], [], v) == [];
  }

  lemma OneRowOf(l: Lease)
    ensures HasToken([l], l.token) && RowOf([l], l.token) == l && l in [l]
  {
    assert [l][0] == l;
  }

  lemma OneHist(sec: Section, v: View, l: Lease, h: Hist)
    requires Mints(sec, [l], v).None?
    ensures HistAfter(sec, [l], map[l.token := h], v) == map[l.token := HistPlan(PlanFor(sec, [l], l, v), l, h, v)]
  {
    OneRowOf(l);
  }

  // Whether the section makes the one row lapse.
  predicate Lapses(s: Sys, sec: Section, v: View, l: Lease) {
    LapsedMarker(l, v) && ActsExclusively(PlanFor(sec, [l], l, v)) && PlacerAtWork(s, l)
  }

  lemma OneLapse(s: Sys, sec: Section, v: View, l: Lease)
    requires s.reg == [l]
    ensures Commit(s, sec, v).lapsed == s.lapsed + (if Lapses(s, sec, v, l) then {l.token} else {})
  {
    OneRowOf(l);
  }

  lemma OneRow(s: Sys, sec: Section, v: View, l: Lease, h: Hist)
    requires s.reg == [l] && s.hist == map[l.token := h] && Mints(sec, [l], v).None? && !Removes(sec, l, v)
    ensures var p := PlanFor(sec, [l], l, v);
      Commit(s, sec, v) == s.(reg := [ApplyPlan(p, l, v)], hist := map[l.token := HistPlan(p, l, h, v)],
                              lapsed := s.lapsed + (if Lapses(s, sec, v, l) then {l.token} else {}))
  {
    OneRowLeft(sec, v, l);
    OneHist(sec, v, l, h);
    OneLapse(s, sec, v, l);
  }

  // ---- acquiring --------------------------------------------------------------------------------

  const EMPTY := Sys([], map[], 0, map[], 0, map[], map[], {}, {}, {})
  const STARTED := EMPTY.(live := map[("A", 1) := 0], nextBirth := 1, agents := map[0 := Agent("A", 1, OWNER, IDLE)])
  const BOTH := EMPTY.(live := SERVER_GONE, nextBirth := 2,
                       agents := map[0 := Agent("A", 1, OWNER, IDLE), 1 := Agent("B", 1, OWNER, IDLE)])

  const MINTED: Lease := Minted("t", Named(ASKED, "p", HEX), [], OnA(0, SERVING, {}))
  const BORN: Hist := FirstHist(MINTED, OnA(0, SERVING, {}))

  const ASKING: Job := Job(Acquire(Named(ASKED, "p", HEX), {}, false), [], 0, false, map[])

  const SETUP: seq<Label> := [
    Spawn("A", 1, Some(OWNER)), Spawn("B", 1, Some(OWNER)), Spawn("A", 2, None),
    BeginAcquire(0, ASKED, "p", HEX), Pass(0, "t", {}, false, OnA(0, SERVING, {}))]

  const SETUP_STATES: seq<Sys> := [
    EMPTY, STARTED, BOTH, At([], map[], 0, ALL_LIVE, IDLE, map[], {}), At([], map[], 0, ALL_LIVE, ASKING, map[], {}),
    At([MINTED], map["t" := BORN], 0, ALL_LIVE, IDLE, map[], {})]

  ghost predicate Step(s: Sys, lb: Label, s': Sys) { Enabled(s, lb) && s' == Next(s, lb) }

  lemma Spawning()
    ensures Step(EMPTY, Spawn("A", 1, Some(OWNER)), STARTED)
    ensures Step(STARTED, Spawn("B", 1, Some(OWNER)), BOTH)
    ensures Step(BOTH, Spawn("A", 2, None), At([], map[], 0, ALL_LIVE, IDLE, map[], {}))
  {
    assert "A" != "B";
    assert STARTED.live[("B", 1) := 1] == SERVER_GONE;
    assert BOTH.live[("A", 2) := 2] == ALL_LIVE;
    assert STARTED.agents[1 := Agent("B", 1, OWNER, IDLE)] == BOTH.agents;
  }

  lemma Asking()
    ensures EightHex(HEX) && DB != ""
    ensures Step(At([], map[], 0, ALL_LIVE, IDLE, map[], {}), BeginAcquire(0, ASKED, "p", HEX),
                 At([], map[], 0, ALL_LIVE, ASKING, map[], {}))
  {
    assert forall i :: 0 <= i < 8 ==> HEX[i] == '0';
    assert |DB| == 12;
  }

  const UNSETTLED: Job := Job(Acquire(Named(ASKED, "p", HEX), {}, false), [], 0, false, map[])

  lemma NothingSettled(s: Sys, v: View)
    requires s == At([], map[], 0, ALL_LIVE, ASKING, map[], {})
    ensures AfterSettle(s, 0, v) == At([], map[], 0, ALL_LIVE, UNSETTLED, map[], {})
  {
    assert Rewrite(Settle(map[]), [], [], v) == [];
    assert HistAfter(Settle(map[]), [], map[], v) == map[];
    assert Commit(s, Settle(map[]), v) == s;
    GivesJob([], map[], 0, ALL_LIVE, ASKING, UNSETTLED, map[], {});
  }

  lemma MintCommits(s: Sys, sec: Section, v: View)
    requires s == At([], map[], 0, ALL_LIVE, UNSETTLED, map[], {})
    requires sec == ClaimOf(ASKING.task, "t", {}, false) && v == OnA(0, SERVING, {})
    ensures Commit(s, sec, v) == At([MINTED], map["t" := BORN], 0, ALL_LIVE, UNSETTLED, map[], {})
  {
    FirstMint(sec, v);
  }

  lemma FirstMint(sec: Section, v: View)
    requires sec == ClaimOf(ASKING.task, "t", {}, false) && v == OnA(0, SERVING, {})
    ensures Decide([], sec.req, {}, {}, false, v) == Grant([])
    ensures Apply(sec, [], v) == [MINTED] && HistAfter(sec, [], map[], v) == map["t" := BORN]
  {
    assert Rewrite(sec, [], [], v) == [];
    assert Mints(sec, [], v) == Some(MINTED) && Shedded(MINTED, v) == MINTED;
    assert Apply(sec, [], v) == [] + [MINTED];
  }

  lemma Granted()
    ensures Step(At([], map[], 0, ALL_LIVE, ASKING, map[], {}), Pass(0, "t", {}, false, OnA(0, SERVING, {})),
                 At([MINTED], map["t" := BORN], 0, ALL_LIVE, IDLE, map[], {}))
  {
    var s, v, sec := At([], map[], 0, ALL_LIVE, ASKING, map[], {}), OnA(0, SERVING, {}), ClaimOf(ASKING.task, "t", {}, false);
    SeesServer([], map[], ASKING, map[], {});
    NothingSettled(s, v);
    FirstMint(sec, v);
    MintCommits(At([], map[], 0, ALL_LIVE, UNSETTLED, map[], {}), sec, v);
    GivesJob([MINTED], map["t" := BORN], 0, ALL_LIVE, UNSETTLED, IDLE, map[], {});
  }

  // ---- the server exits, gc marks the lease and stalls -------------------------------------------

  function Taken(l: Lease): Lease { l.(reclaiming := Some(Marker(1, "A", 0, PidDead, GcVerb))) }

  function GcJob(l: Lease): Job {
    Job(Gc, [Item(Taken(l), PidDead, WarrantFor(GcMark(All), l, false, OnA(0, ALONE, {})))], 0, false, map[])
  }

  lemma ServerExits(reg: seq<Lease>, hist: map<Token, Hist>, dbs: map<string, Token>)
    ensures Step(At(reg, hist, 0, ALL_LIVE, IDLE, dbs, {}), Exit("A", 2), At(reg, hist, 0, SERVER_GONE, IDLE, dbs, {}))
  {
    assert "A" != "B";
    assert ALL_LIVE - {("A", 2)} == SERVER_GONE;
  }

  // A lease of host A whose server, recorded at pid 2, is all that speaks for it.
  predicate ServedOnA(l: Lease) {
    && l.token == "t" && l.mode == Ephemeral && l.owner.host == "A" && l.owner.runId == "r"
    && l.owner.session.None? && l.owner.server.pid == Some(2)
    && l.parkedAt.None? && l.reclaiming.None? && !l.orphaned
  }

  lemma GcJudges(l: Lease)
    requires ServedOnA(l)
    ensures var v := OnA(0, ALONE, {}); var p := PlanFor(GcMark(All), [l], l, v);
      p == Plan(Nop, Mark(PidDead, GcVerb), Nop, Shed) && Row2(p, l, v) == Taken(l) && ApplyPlan(p, l, v) == Taken(l)
  {
    var v := OnA(0, ALONE, {});
    assert GcReason(l, All, v) == Some(PidDead) && !GcTouches(l, All, v);
    assert InProgress(Taken(l), v);
  }

  lemma GcMarks(l: Lease)
    requires ServedOnA(l)
    ensures Marked(GcMark(All), [l], [l], false, OnA(0, ALONE, {})) == GcJob(l).items
  {
    GcJudges(l);
    assert [l][1..] == [] && Marked(GcMark(All), [l], [], false, OnA(0, ALONE, {})) == [];
  }

  lemma GcCommits(s: Sys, l: Lease, h: Hist, dbs: map<string, Token>)
    requires ServedOnA(l) && s == At([l], map["t" := h], 0, SERVER_GONE, IDLE, dbs, {})
    ensures Commit(s, GcMark(All), OnA(0, ALONE, {})) == At([Taken(l)], map["t" := h], 0, SERVER_GONE, IDLE, dbs, {})
  {
    GcJudges(l);
    OneRow(s, GcMark(All), OnA(0, ALONE, {}), l, h);
  }

  lemma GcTakes(l: Lease, h: Hist, dbs: map<string, Token>)
    requires ServedOnA(l)
    ensures Step(At([l], map["t" := h], 0, SERVER_GONE, IDLE, dbs, {}), Begin(0, GcMark(All), false, false, OnA(0, ALONE, {})),
                 At([Taken(l)], map["t" := h], 0, SERVER_GONE, GcJob(l), dbs, {}))
  {
    SeesAlone([l], map["t" := h], 0, IDLE, dbs, {});
    GcCommits(At([l], map["t" := h], 0, SERVER_GONE, IDLE, dbs, {}), l, h, dbs);
    GcMarks(l);
    GivesJob([Taken(l)], map["t" := h], 0, SERVER_GONE, IDLE, GcJob(l), dbs, {});
  }

  lemma TimePasses(reg: seq<Lease>, hist: map<Token, Hist>, job: Job, dbs: map<string, Token>)
    ensures Step(At(reg, hist, 0, SERVER_GONE, job, dbs, {}), Tick(3600), At(reg, hist, 3600, SERVER_GONE, job, dbs, {}))
  {
  }

  // The marker of host A has timed out for host B, while its process is at work on the row.
  lemma TimedOut(l: Lease, h: Hist, dbs: map<string, Token>)
    requires ServedOnA(l)
    ensures var s := At([Taken(l)], map["t" := h], 3600, SERVER_GONE, GcJob(l), dbs, {});
      && Observes(s, 1, OnB(3600)) && LapsedMarker(Taken(l), OnB(3600)) && PlacerAtWork(s, Taken(l))
  {
    var s := At([Taken(l)], map["t" := h], 3600, SERVER_GONE, GcJob(l), dbs, {});
    assert "A" != "B";
    assert s.agents[0].job.items[0].snap.token == "t";
    assert WorksOn(s, 0, "t") && MarkedBy(Taken(l), s.agents[0]);
  }

  // ---- two reclaimers -----------------------------------------------------------------------------

  const RELEASE: Label := Begin(1, ReleaseMark("t", false), false, false, OnB(3600))

  lemma SecondTakes(l: Lease, h: Hist, dbs: map<string, Token>)
    requires ServedOnA(l)
    ensures var s := At([Taken(l)], map["t" := h], 3600, SERVER_GONE, GcJob(l), dbs, {});
      Enabled(s, RELEASE) && "t" in Next(s, RELEASE).lapsed
  {
    var s, v := At([Taken(l)], map["t" := h], 3600, SERVER_GONE, GcJob(l), dbs, {}), OnB(3600);
    TimedOut(l, h, dbs);
    var sec := ReleaseMark("t", false);
    assert PlanFor(sec, [Taken(l)], Taken(l), v) == Plan(Nop, Mark(Released, ReleaseVerb), Nop, Nop);
    OneRow(s, sec, v, Taken(l), h);
  }

  const TO_MARK: seq<Label> := SETUP + [Exit("A", 2), Begin(0, GcMark(All), false, false, OnA(0, ALONE, {})), Tick(3600)]

  function MarkStates(): seq<Sys> {
    SETUP_STATES + [At([MINTED], map["t" := BORN], 0, SERVER_GONE, IDLE, map[], {}),
                    At([Taken(MINTED)], map["t" := BORN], 0, SERVER_GONE, GcJob(MINTED), map[], {}),
                    At([Taken(MINTED)], map["t" := BORN], 3600, SERVER_GONE, GcJob(MINTED), map[], {})]
  }

  lemma RunBegins()
    ensures Run([EMPTY], [])
  {
  }

  lemma FourSteps<S, L>(step: (S, L, S) -> bool, m0: S, m1: S, m2: S, m3: S, m4: S, k0: L, k1: L, k2: L, k3: L, k4: L)
    requires step(m0, k1, m1) && step(m1, k2, m2) && step(m2, k3, m3) && step(m3, k4, m4)
    ensures var m, k := [m0, m1, m2, m3, m4], [k0, k1, k2, k3, k4];
      forall i :: 0 <= i < 4 ==> step(m[i], k[i + 1], m[i + 1])
  {
  }

  lemma SetupSteps()
    ensures Step(EMPTY, SETUP[0], SETUP_STATES[1])
    ensures forall i :: 0 <= i < 4 ==> Step(SETUP_STATES[1..][i], SETUP[i + 1], SETUP_STATES[1..][i + 1])
  {
    Spawning();
    Asking();
    Granted();
    var s, k := SETUP_STATES, SETUP;
    FourSteps(Step, s[1], s[2], s[3], s[4], s[5], k[0], k[1], k[2], k[3], k[4]);
    assert s[1..] == [s[1], s[2], s[3], s[4], s[5]] && k == [k[0], k[1], k[2], k[3], k[4]];
  }

  lemma SetupRuns()
    ensures Run(SETUP_STATES, SETUP)
  {
    RunBegins();
    SetupSteps();
    RunExtends([EMPTY], [], SETUP_STATES[1..], SETUP);
    assert [EMPTY] + SETUP_STATES[1..] == SETUP_STATES && [] + SETUP == SETUP;
  }

  lemma RunGoesOn(states: seq<Sys>, labels: seq<Label>, lb: Label, s': Sys)
    requires Run(states, labels) && Step(states[|states| - 1], lb, s')
    ensures Run(states + [s'], labels + [lb])
  {
  }

  lemma MarkRuns()
    ensures Run(MarkStates(), TO_MARK)
  {
    SetupRuns();
    var s6 := At([MINTED], map["t" := BORN], 0, SERVER_GONE, IDLE, map[], {});
    var s7 := At([Taken(MINTED)], map["t" := BORN], 0, SERVER_GONE, GcJob(MINTED), map[], {});
    var s8 := At([Taken(MINTED)], map["t" := BORN], 3600, SERVER_GONE, GcJob(MINTED), map[], {});
    ServerExits([MINTED], map["t" := BORN], map[]);
    RunGoesOn(SETUP_STATES, SETUP, Exit("A", 2), s6);
    GcTakes(MINTED, BORN, map[]);
    var mark := Begin(0, GcMark(All), false, false, OnA(0, ALONE, {}));
    RunGoesOn(SETUP_STATES + [s6], SETUP + [Exit("A", 2)], mark, s7);
    TimePasses([Taken(MINTED)], map["t" := BORN], GcJob(MINTED), map[]);
    RunGoesOn(SETUP_STATES + [s6] + [s7], SETUP + [Exit("A", 2)] + [mark], Tick(3600), s8);
    assert MarkStates() == SETUP_STATES + [s6] + [s7] + [s8];
    assert TO_MARK == SETUP + [Exit("A", 2)] + [mark] + [Tick(3600)];
  }

  lemma SecondIsTwo(s: Sys)
    requires Inv(s) && Enabled(s, RELEASE) && s.lapsed == {} && "t" in Next(s, RELEASE).lapsed
    ensures TwoReclaimers(Next(s, RELEASE), "t")
  {
    LapseMeansTwo(s, RELEASE, "t");
  }

  /** A run after which two live processes, a gc on one host and a release on the other, work on the
      row of one lease. */
  lemma TwoReclaimersReached() returns (states: seq<Sys>, labels: seq<Label>)
    ensures Run(states, labels) && TwoReclaimers(states[|states| - 1], "t")
  {
    MarkRuns();
    var s := At([Taken(MINTED)], map["t" := BORN], 3600, SERVER_GONE, GcJob(MINTED), map[], {});
    var before := MarkStates();
    assert before[|before| - 1] == s;
    SecondTakes(MINTED, BORN, map[]);
    ReclaimRuns.RunKeeps(before, TO_MARK, |TO_MARK|);
    SecondIsTwo(s);
    var s' := Next(s, RELEASE);
    RunGoesOn(before, TO_MARK, RELEASE, s');
    states, labels := before + [s'], TO_MARK + [RELEASE];
  }

  // ---- the owner parks the lease from the other host ----------------------------------------------

  function Park(ttl: int): Label { Once(1, ParkLease("t", false, ttl), OnB(3600)) }

  function WithParks(h: Hist, e: ParkEvent): Hist { h.(parks := h.parks + [e]) }

  // The state after that: the row is parked, and still carries the marker of host A.
  function AfterPark(l: Lease, h: Hist, ttl: int, job: Job, dbs: map<string, Token>): Sys {
    At([Parked(Taken(l), ttl, OnB(3600))], map["t" := WithParks(h, Stamped(ttl))], 3600, SERVER_GONE, job, dbs, {"t"})
  }

  lemma OwnerParks(l: Lease, h: Hist, ttl: int, dbs: map<string, Token>)
    requires ServedOnA(l)
    ensures Step(At([Taken(l)], map["t" := h], 3600, SERVER_GONE, GcJob(l), dbs, {}), Park(ttl),
                 AfterPark(l, h, ttl, GcJob(l), dbs))
  {
    var s, v := At([Taken(l)], map["t" := h], 3600, SERVER_GONE, GcJob(l), dbs, {}), OnB(3600);
    TimedOut(l, h, dbs);
    var sec := ParkLease("t", false, ttl);
    assert AnswerPark(Taken(l), false, v) == ParkDone;
    assert PlanFor(sec, [Taken(l)], Taken(l), v) == Plan(StampPark(ttl), Nop, Nop, Nop);
    OneRow(s, sec, v, Taken(l), h);
    assert {} + {"t"} == {"t"};
  }

  const STOP: Label := Stop(0, OnA(3600, ALONE, {}))

  lemma GcStops(l: Lease, h: Hist, ttl: int, dbs: map<string, Token>)
    requires ServedOnA(l)
    ensures var s := AfterPark(l, h, ttl, GcJob(l), dbs);
      Step(s, STOP, AfterPark(l, h, ttl, AfterStop(GcJob(l), GcJob(l).items[0]), dbs))
  {
    var row, hist := Parked(Taken(l), ttl, OnB(3600)), map["t" := WithParks(h, Stamped(ttl))];
    SeesAlone([row], hist, 3600, GcJob(l), dbs, {"t"});
    GivesJob([row], hist, 3600, SERVER_GONE, GcJob(l), AfterStop(GcJob(l), GcJob(l).items[0]), dbs, {"t"});
  }

  // ---- a parked lease loses its database --------------------------------------------------------

  function DroppedStates(): seq<Sys> {
    var h := map["t" := BORN]; var dbs := map[DB := "t"];
    [At([MINTED], h, 0, ALL_LIVE, IDLE, dbs, {}), At([MINTED], h, 0, SERVER_GONE, IDLE, dbs, {}),
     At([Taken(MINTED)], h, 0, SERVER_GONE, GcJob(MINTED), dbs, {}),
     At([Taken(MINTED)], h, 3600, SERVER_GONE, GcJob(MINTED), dbs, {}),
     AfterPark(MINTED, BORN, 1, GcJob(MINTED), dbs),
     AfterPark(MINTED, BORN, 1, AfterStop(GcJob(MINTED), GcJob(MINTED).items[0]), dbs)]
  }

  const TO_DROP: seq<Label> := [CreateDb(DB, "t"), Exit("A", 2), Begin(0, GcMark(All), false, false, OnA(0, ALONE, {})),
                                Tick(3600), Park(1), STOP]

  lemma BuildsDb()
    ensures Step(At([MINTED], map["t" := BORN], 0, ALL_LIVE, IDLE, map[], {}), CreateDb(DB, "t"), DroppedStates()[0])
  {
    assert [MINTED][0].token == "t" && HasToken([MINTED], "t");
    assert RowOf([MINTED], "t") == MINTED;
  }

  lemma FiveSteps<S, L>(step: (S, L, S) -> bool, m0: S, m1: S, m2: S, m3: S, m4: S, m5: S, k0: L, k1: L, k2: L, k3: L, k4: L, k5: L)
    requires step(m0, k1, m1) && step(m1, k2, m2) && step(m2, k3, m3) && step(m3, k4, m4) && step(m4, k5, m5)
    ensures var m, k := [m0, m1, m2, m3, m4, m5], [k0, k1, k2, k3, k4, k5];
      forall i :: 0 <= i < 5 ==> step(m[i], k[i + 1], m[i + 1])
  {
  }

  lemma DropSteps()
    ensures forall i :: 0 <= i < 5 ==> Step(DroppedStates()[i], TO_DROP[i + 1], DroppedStates()[i + 1])
  {
    var dbs := map[DB := "t"];
    ServerExits([MINTED], map["t" := BORN], dbs);
    GcTakes(MINTED, BORN, dbs);
    TimePasses([Taken(MINTED)], map["t" := BORN], GcJob(MINTED), dbs);
    OwnerParks(MINTED, BORN, 1, dbs);
    GcStops(MINTED, BORN, 1, dbs);
    var m, k := DroppedStates(), TO_DROP;
    FiveSteps(Step, m[0], m[1], m[2], m[3], m[4], m[5], k[0], k[1], k[2], k[3], k[4], k[5]);
  }

  lemma RunExtends(states: seq<Sys>, labels: seq<Label>, more: seq<Sys>, steps: seq<Label>)
    requires Run(states, labels) && |more| == |steps| > 0 && Step(states[|states| - 1], steps[0], more[0])
    requires forall i :: 0 <= i < |more| - 1 ==> Step(more[i], steps[i + 1], more[i + 1])
    ensures Run(states + more, labels + steps)
  {
    var all, lbs := states + more, labels + steps;
    forall i | 0 <= i < |lbs| ensures Enabled(all[i], lbs[i]) && all[i + 1] == Next(all[i], lbs[i]) {
      if i >= |labels| {
        var k := i - |labels|;
        assert lbs[i] == steps[k] && all[i + 1] == more[k];
        if k > 0 {
          assert all[i] == more[k - 1] && Step(more[k - 1], steps[k - 1 + 1], more[k - 1 + 1]);
        }
      }
    }
  }

  /** A run in which gc, taking a lease whose server is gone, drops its database after the owner has
      parked it: the row is parked within its budget and its park is the latest event. */
  lemma ParkedDatabaseDropped() returns (states: seq<Sys>, labels: seq<Label>)
    ensures Run(states, labels)
    ensures var s := states[|states| - 1];
      && Enabled(s, Drop(0, Dropped)) && s.agents[0].job.task.Gc?
      && CurrentItem(s, 0).value.snap.token == "t" && CurrentItem(s, 0).value.reason == PidDead
      && HasToken(s.reg, "t") && RowOf(s.reg, "t").parkedAt == Some(s.now)
      && RowOf(s.reg, "t").dbName in s.dbs && RowOf(s.reg, "t").dbName !in Next(s, Drop(0, Dropped)).dbs
  {
    SetupRuns();
    Asking();
    BuildsDb();
    DropSteps();
    states, labels := SETUP_STATES + DroppedStates(), SETUP + TO_DROP;
    RunExtends(SETUP_STATES, SETUP, DroppedStates(), TO_DROP);
    LastIsParked();
  }

  lemma LastIsParked()
    ensures var s := DroppedStates()[5];
      && Enabled(s, Drop(0, Dropped)) && s.agents[0].job.task.Gc?
      && CurrentItem(s, 0).value.snap.token == "t" && CurrentItem(s, 0).value.reason == PidDead
      && HasToken(s.reg, "t") && RowOf(s.reg, "t").parkedAt == Some(s.now)
      && RowOf(s.reg, "t").dbName in s.dbs && RowOf(s.reg, "t").dbName !in Next(s, Drop(0, Dropped)).dbs
  {
    var s := DroppedStates()[5];
    Asking();
    assert "A" != "B";
    assert s.reg[0].token == "t" && HasToken(s.reg, "t");
    assert RowOf(s.reg, "t") == s.reg[0];
    assert s.agents[0].job == GcJob(MINTED).(stopped := true);
  }

  // ---- a parked lease is parked again -------------------------------------------------------------

  const FIRST_PARK: Label := Once(0, ParkLease("t", false, 1), OnA(0, SERVING, {}))
  const RESUME: Label := Once(0, ResumeLease("t", 2, None), OnA(0, SERVING, {(2, DB)}))
  const SETTLE: Label := Finish(0, OnA(3600, ALONE, {}))

  const PARKED: Lease := Parked(MINTED, 1, OnA(0, SERVING, {}))
  const RESUMED: Lease := ApplyOp(Unpark(2), PARKED, OnA(0, SERVING, {(2, DB)}))
  const STAMPED: Hist := WithParks(BORN, Stamped(1))
  const RETURNED: Hist := HistOp(Unpark(2), PARKED, STAMPED, OnA(0, SERVING, {(2, DB)}))

  lemma ParksFirst()
    ensures Step(At([MINTED], map["t" := BORN], 0, ALL_LIVE, IDLE, map[], {}), FIRST_PARK,
                 At([PARKED], map["t" := STAMPED], 0, ALL_LIVE, IDLE, map[], {}))
  {
    var s, v := At([MINTED], map["t" := BORN], 0, ALL_LIVE, IDLE, map[], {}), OnA(0, SERVING, {});
    SeesServer([MINTED], map["t" := BORN], IDLE, map[], {});
    var sec := ParkLease("t", false, 1);
    assert AnswerPark(MINTED, false, v) == ParkDone;
    assert PlanFor(sec, [MINTED], MINTED, v) == Plan(StampPark(1), Nop, Nop, Nop);
    OneRow(s, sec, v, MINTED, BORN);
  }

  lemma ResumeWins()
    ensures AnswerResume(PARKED, 2, None, OnA(0, SERVING, {(2, DB)})) == ResumeDone
    ensures ServedOnA(RESUMED) && RESUMED.owner.returnToPark && RESUMED.owner.returnTtl == Some(1)
  {
    Asking();
    assert Corroboration(PARKED, 2, OnA(0, SERVING, {(2, DB)})) == Some(ByCmdline);
  }

  lemma Resumes()
    ensures Step(At([PARKED], map["t" := STAMPED], 0, ALL_LIVE, IDLE, map[], {}), RESUME,
                 At([RESUMED], map["t" := RETURNED], 0, ALL_LIVE, IDLE, map[], {}))
  {
    var s, v := At([PARKED], map["t" := STAMPED], 0, ALL_LIVE, IDLE, map[], {}), OnA(0, SERVING, {(2, DB)});
    SeesServer([PARKED], map["t" := STAMPED], IDLE, map[], {(2, DB)});
    ResumeWins();
    var sec := ResumeLease("t", 2, None);
    assert PlanFor(sec, [PARKED], PARKED, v) == Plan(Unpark(2), Nop, Nop, Nop);
    OneRow(s, sec, v, PARKED, STAMPED);
  }

  function ReparkedStates(): seq<Sys> {
    var h := map["t" := RETURNED];
    [At([PARKED], map["t" := STAMPED], 0, ALL_LIVE, IDLE, map[], {}),
     At([RESUMED], h, 0, ALL_LIVE, IDLE, map[], {}), At([RESUMED], h, 0, SERVER_GONE, IDLE, map[], {}),
     At([Taken(RESUMED)], h, 0, SERVER_GONE, GcJob(RESUMED), map[], {}),
     At([Taken(RESUMED)], h, 3600, SERVER_GONE, GcJob(RESUMED), map[], {}),
     AfterPark(RESUMED, RETURNED, 7, GcJob(RESUMED), map[]),
     AfterPark(RESUMED, RETURNED, 7, AfterStop(GcJob(RESUMED), GcJob(RESUMED).items[0]), map[])]
  }

  const TO_REPARK: seq<Label> := [FIRST_PARK, RESUME, Exit("A", 2), Begin(0, GcMark(All), false, false, OnA(0, ALONE, {})),
                                  Tick(3600), Park(7), STOP]

  lemma SixSteps<S, L>(step: (S, L, S) -> bool, m0: S, m1: S, m2: S, m3: S, m4: S, m5: S, m6: S,
                       k0: L, k1: L, k2: L, k3: L, k4: L, k5: L, k6: L)
    requires step(m0, k1, m1) && step(m1, k2, m2) && step(m2, k3, m3) && step(m3, k4, m4) && step(m4, k5, m5) && step(m5, k6, m6)
    ensures var m, k := [m0, m1, m2, m3, m4, m5, m6], [k0, k1, k2, k3, k4, k5, k6];
      forall i :: 0 <= i < 6 ==> step(m[i], k[i + 1], m[i + 1])
  {
  }

  lemma ReparkSteps()
    ensures forall i :: 0 <= i < 6 ==> Step(ReparkedStates()[i], TO_REPARK[i + 1], ReparkedStates()[i + 1])
  {
    Resumes();
    ResumeWins();
    ServerExits([RESUMED], map["t" := RETURNED], map[]);
    GcTakes(RESUMED, RETURNED, map[]);
    TimePasses([Taken(RESUMED)], map["t" := RETURNED], GcJob(RESUMED), map[]);
    OwnerParks(RESUMED, RETURNED, 7, map[]);
    GcStops(RESUMED, RETURNED, 7, map[]);
    var m, k := ReparkedStates(), TO_REPARK;
    SixSteps(Step, m[0], m[1], m[2], m[3], m[4], m[5], m[6], k[0], k[1], k[2], k[3], k[4], k[5], k[6]);
  }

  /** A run in which gc parks again a lease that its owner has parked meanwhile: two stamps stand in a
      row, and the budget is that of the park before the latest. */
  lemma ParkStampedTwice() returns (states: seq<Sys>, labels: seq<Label>)
    ensures Run(states, labels)
    ensures var s := states[|states| - 1];
      && Enabled(s, SETTLE) && HasToken(s.reg, "t") && RowOf(s.reg, "t").parkTtl == Some(7)
      && var s' := Next(s, SETTLE);
         && HasToken(s'.reg, "t") && RowOf(s'.reg, "t").parkTtl == Some(1)
         && "t" in s'.hist && !Alternates(s'.hist["t"].parks)
  {
    SetupRuns();
    ParksFirst();
    ReparkSteps();
    states, labels := SETUP_STATES + ReparkedStates(), SETUP + TO_REPARK;
    RunExtends(SETUP_STATES, SETUP, ReparkedStates(), TO_REPARK);
    SettlesAgain();
  }

  const AGAIN: Lease := Parked(Taken(RESUMED), 7, OnB(3600))
  const TWICE: Hist := WithParks(RETURNED, Stamped(7))

  lemma SettleReparks()
    ensures var v := OnA(3600, ALONE, {});
      PlanFor(Settle(map["t" := ParkRow]), [AGAIN], AGAIN, v) == Plan(SettlePark, Nop, Nop, Nop)
      && AGAIN.parkTtl == Some(7) && AGAIN.token == "t"
      && ApplyOp(SettlePark, AGAIN, v).parkTtl == Some(1) && ApplyOp(SettlePark, AGAIN, v).token == "t"
  {
    ResumeWins();
  }

  lemma FourEvents()
    ensures !Alternates(HistOp(SettlePark, AGAIN, TWICE, OnA(3600, ALONE, {})).parks)
  {
    ResumeWins();
    var parks := HistOp(SettlePark, AGAIN, TWICE, OnA(3600, ALONE, {})).parks;
    assert parks == [Stamped(1), Resumed, Stamped(7), Stamped(1)];
    assert parks[2].Stamped? && parks[3].Stamped?;
  }

  lemma CanSettle(s: Sys)
    requires s == AfterPark(RESUMED, RETURNED, 7, AfterStop(GcJob(RESUMED), GcJob(RESUMED).items[0]), map[])
    ensures s.agents[0].job == GcJob(RESUMED).(cursor := 1, outcomes := map["t" := ParkRow])
    ensures Enabled(s, SETTLE)
  {
    ResumeWins();
    assert "A" != "B";
    assert Observes(s, 0, OnA(3600, ALONE, {}));
  }

  lemma SettlesAgain()
    ensures var s := ReparkedStates()[6];
      && Enabled(s, SETTLE) && HasToken(s.reg, "t") && RowOf(s.reg, "t").parkTtl == Some(7)
      && var s' := Next(s, SETTLE);
         && HasToken(s'.reg, "t") && RowOf(s'.reg, "t").parkTtl == Some(1)
         && "t" in s'.hist && !Alternates(s'.hist["t"].parks)
  {
    var s, v := ReparkedStates()[6], OnA(3600, ALONE, {});
    CanSettle(s);
    SettleReparks();
    FourEvents();
    OneRow(s, Settle(map["t" := ParkRow]), v, AGAIN, TWICE);
    OneRowOf(AGAIN);
    OneRowOf(ApplyOp(SettlePark, AGAIN, v));
  }
}
