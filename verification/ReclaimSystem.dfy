/** The allocator as a concurrent system: any number of allocator processes on any number of
    hosts share one registry. A critical section is one atomic step; stopping servers and
    dropping databases happens between sections; a process may die between any two steps, and
    its pid may be handed out again. */
module ReclaimSystem {
  import opened Options
  import opened Leases
  import opened Liveness
  import opened RowOps
  import opened Sections
  import opened Ports
  import opened Throwaway

  /** Why this process was entitled to take a row, as observed at the moment it marked it. */
  datatype Warrant = Warrant(forced: bool, owner: bool, unprotected: bool, blindAnchor: bool)

  // One row of a work list: the detached snapshot the unlocked phase works from.
  datatype Item = Item(snap: Lease, reason: Reason, warrant: Warrant)

  datatype Task = Idle | Gc | Release(forget: bool) | Acquire(req: Request, tried: set<Kind>, delete: bool)

  // `cursor` items are finished; `stopped` says the next one's server has been stopped.
  datatype Job = Job(task: Task, items: seq<Item>, cursor: nat, stopped: bool,
                     outcomes: map<Token, Outcome>)

  const IDLE := Job(Idle, [], 0, false, map[])

  datatype Agent = Agent(host: Host, pid: Pid, caller: Caller, job: Job)

  /** `hist` has every token ever minted; `dbs` maps each existing database to the lease it was
      created under; `named` are the leases whose database a forced release gave up and named to
      its caller; `lapsed` are the tokens whose row a section ever took past another host's
      timed-out marker while the process that placed it was still at work on that row. */
  datatype Sys = Sys(reg: seq<Lease>, hist: map<Token, Hist>, now: int,
                     live: map<(Host, Pid), Birth>, nextBirth: Birth, agents: map<Birth, Agent>,
                     dbs: map<string, Token>, named: set<Token>, lapsed: set<Token>,
                     declared: set<int>)

  datatype DropResult = NothingToDrop | Dropped | DropFailed(present: Option<bool>)

  // A failed drop whose database was not observed absent: to delete the row is to give it up.
  predicate Forgets(result: DropResult) { result.DropFailed? && result.present != Some(false) }

  datatype Label =
    | Spawn(host: Host, pid: Pid, runs: Option<Caller>)
    | Exit(host: Host, pid: Pid)
    | Reboot(host: Host)
    | Tick(dt: nat)
    | CreateDb(db: string, under: Token)
    | LoseDb(db: string)
    | Once(a: Birth, sec: Section, v: View)
    | Begin(a: Birth, sec: Section, forced: bool, forget: bool, v: View)
    | BeginAcquire(a: Birth, req: Request, prefix: string, hex: string)
    | Pass(a: Birth, newToken: Token, bindable: set<int>, waiting: bool, v: View)
    | Stop(a: Birth, v: View)
    | Drop(a: Birth, result: DropResult)
    | Finish(a: Birth, v: View)

  predicate Running(s: Sys, a: Birth) {
    && a in s.agents
    && var p := (s.agents[a].host, s.agents[a].pid);
       p in s.live && s.live[p] == a
  }

  // `v` is what agent `a` can observe in this state.
  ghost predicate Observes(s: Sys, a: Birth, v: View) {
    && Running(s, a)
    && v.here == s.agents[a].host && v.me == s.agents[a].pid
    && v.caller == s.agents[a].caller && v.now == s.now
    && (forall p :: p in v.live <==> (v.here, p) in s.live)
    && (forall p :: p in v.live ==> v.live[p] == s.live[(v.here, p)])
  }

  // ---- one critical section ---------------------------------------------------

  predicate ActsExclusively(p: Plan) { Exclusionary(p.a) || Exclusionary(p.b) }

  // Agent `a` is running and `t` is on its work list, not yet settled.
  predicate WorksOn(s: Sys, a: Birth, t: Token) {
    && Running(s, a)
    && exists i :: 0 <= i < |s.agents[a].job.items| && s.agents[a].job.items[i].snap.token == t
  }

  predicate MarkedBy(l: Lease, ag: Agent) {
    l.reclaiming.Some? && l.reclaiming.value.byPid == ag.pid && l.reclaiming.value.host == ag.host
  }

  // The process that placed the row's marker is still at work on the row.
  predicate PlacerAtWork(s: Sys, l: Lease) {
    exists a :: a in s.agents && MarkedBy(l, s.agents[a]) && WorksOn(s, a, l.token)
  }

  function Overridden(sec: Section, reg: seq<Lease>, v: View): set<Token> {
    set l | l in reg && LapsedMarker(l, v) && ActsExclusively(PlanFor(sec, reg, l, v)) :: l.token
  }

  function FirstHist(l: Lease, v: View): Hist {
    Hist(l, if l.owner.server.pid.Some? then Holder(l.owner.server.pid.value, v) else {}, {}, [])
  }

  function HistAfter(sec: Section, reg: seq<Lease>, hist: map<Token, Hist>, v: View): map<Token, Hist> {
    var kept := map t | t in hist ::
                  if HasToken(reg, t)
                  then HistPlan(PlanFor(sec, reg, RowOf(reg, t), v), RowOf(reg, t), hist[t], v)
                  else hist[t];
    var m := Mints(sec, reg, v);
    if m.Some? then kept[m.value.token := FirstHist(m.value, v)] else kept
  }

  function Commit(s: Sys, sec: Section, v: View): Sys {
    s.(reg := Apply(sec, s.reg, v),
       hist := HistAfter(sec, s.reg, s.hist, v),
       lapsed := s.lapsed + set l | l in s.reg && l.token in Overridden(sec, s.reg, v) && PlacerAtWork(s, l) :: l.token)
  }

  // A lease somebody else may not take: parked within its budget, or its session is alive.
  predicate Protected(l: Lease, v: View) {
    && l.mode != Shared
    && if l.parkedAt.Some? then !ParkBudgetSpent(l, v)
       else l.owner.session.Some? && LeaseAnchor(l, v) == Alive
  }

  // Where --force changes anything: at a release, and at a gc aimed at an anchor.
  predicate Forces(sec: Section, forced: bool) {
    forced && (sec.ReleaseMark? || (sec.GcMark? && sec.scope.OfAnchor?))
  }

  function WarrantFor(sec: Section, l: Lease, forced: bool, v: View): Warrant {
    Warrant(Forces(sec, forced), l.owner.runId == "" || l.owner.runId == v.caller.run, !Protected(l, v),
            sec.GcMark? && sec.scope.OfAnchor? && sec.scope.anchor.started.None?)
  }

  predicate Warranted(w: Warrant) { w.forced || w.owner || w.unprotected || w.blindAnchor }

  // The rows a section marks, in registry order, as detached snapshots.
  function Marked(sec: Section, reg: seq<Lease>, rest: seq<Lease>, forced: bool, v: View): seq<Item> {
    if rest == [] then []
    else
      var p := PlanFor(sec, reg, rest[0], v);
      (if p.b.Mark? then [Item(Row2(p, rest[0], v), p.b.reason, WarrantFor(sec, rest[0], forced, v))] else [])
      + Marked(sec, reg, rest[1..], forced, v)
  }

  function WithJob(s: Sys, a: Birth, j: Job): Sys
    requires a in s.agents
  {
    s.(agents := s.agents[a := s.agents[a].(job := j)])
  }

  // ---- the steps ----------------------------------------------------------------

  predicate OneShot(sec: Section) {
    sec.Heartbeat? || sec.Bind? || sec.ParkLease? || sec.ResumeLease? || sec.AdoptLease? || sec.AttachShared?
  }

  // An ephemeral acquire mints the name of its database; the other modes name one.
  function Named(req: Request, prefix: string, hex: string): Request {
    if req.mode == Ephemeral then req.(dbName := MintName(prefix, hex)) else req
  }

  ghost predicate ValidRequest(req: Request, declared: set<int>) {
    && req.mode != Shared && declared <= req.reserved
    && (req.mode == Ephemeral ==> ThrowawayName(req.dbName))
  }

  predicate HasDrop(l: Lease) { l.dropOnRelease && l.dbName != "" }

  predicate ParksItem(task: Task, it: Item) { task == Gc && GcParks(it.snap, it.reason) }

  function CurrentItem(s: Sys, a: Birth): Option<Item> {
    if a in s.agents && s.agents[a].job.cursor < |s.agents[a].job.items|
    then Some(s.agents[a].job.items[s.agents[a].job.cursor]) else None
  }

  ghost predicate Enabled(s: Sys, lb: Label) {
    match lb
    case Spawn(host, pid, _) => pid != 0 && (host, pid) !in s.live
    case Exit(host, pid) => (host, pid) in s.live
    case Reboot(_) => true
    case Tick(_) => true
    case CreateDb(db, under) =>
      // a build runs only under a lease nobody is tearing down
      && db !in s.dbs && HasToken(s.reg, under)
      && RowOf(s.reg, under).dbName == db && RowOf(s.reg, under).reclaiming.None?
    case LoseDb(db) => true
    case Once(a, sec, v) =>
      && Observes(s, a, v) && s.agents[a].job == IDLE && OneShot(sec)
      && (sec.AttachShared? ==> sec.newToken !in s.hist)
    case Begin(a, sec, forced, _, v) =>
      && Observes(s, a, v) && s.agents[a].job == IDLE
      && ((sec.ReleaseMark? && sec.force == forced)
          || (sec.GcMark? && (sec.scope.OfAnchor? && !forced ==> AnchorState(sec.scope.anchor, v) != Alive)))
    case BeginAcquire(a, req, _, hex) =>
      && Running(s, a) && s.agents[a].job == IDLE
      && req.mode != Shared && s.declared <= req.reserved && EightHex(hex)
    case Pass(a, newToken, _, _, v) =>
      && Observes(s, a, v) && s.agents[a].job.task.Acquire?
      && s.agents[a].job.cursor == |s.agents[a].job.items| && newToken !in s.hist
    case Stop(a, v) =>
      Observes(s, a, v) && CurrentItem(s, a).Some? && !s.agents[a].job.stopped
    case Drop(a, result) =>
      && Running(s, a) && CurrentItem(s, a).Some? && s.agents[a].job.stopped
      && var snap := CurrentItem(s, a).value.snap;
         && (result.NothingToDrop? <==> !HasDrop(snap))
         && (result == DropFailed(Some(false)) ==> snap.dbName !in s.dbs)
    case Finish(a, v) =>
      && Observes(s, a, v) && (s.agents[a].job.task.Gc? || s.agents[a].job.task.Release?)
      && s.agents[a].job.cursor == |s.agents[a].job.items|
  }

  // What the unlocked phase records for an item that needs no drop.
  function StopOutcome(task: Task, it: Item): Option<Outcome> {
    match task
    case Acquire(_, _, delete) => Some(if delete then DeleteRow else OrphanRow)
    case Gc => if GcParks(it.snap, it.reason) then Some(ParkRow) else None
    case _ => None
  }

  function AfterStop(j: Job, it: Item): Job {
    var o := StopOutcome(j.task, it);
    if o.Some? then j.(cursor := j.cursor + 1, outcomes := j.outcomes[it.snap.token := o.value])
    else j.(stopped := true)
  }

  /** A failed drop keeps the row. A release deletes it anyway when the database is provably
      absent, or when the caller forces it to forget - and then it names the database. */
  function DropOutcome(task: Task, result: DropResult): Outcome {
    if !result.DropFailed? then DeleteRow
    else if task.Release? && (result.present == Some(false) || task.forget) then DeleteRow
    else KeepRow
  }

  // An acquire pass first settles the work list of the pass before it...
  function AfterSettle(s: Sys, a: Birth, v: View): Sys
    requires a in s.agents && s.agents[a].job.task.Acquire?
  {
    var j := s.agents[a].job;
    WithJob(Commit(s, Settle(j.outcomes), v), a, Job(Acquire(j.task.req, j.task.tried, false), [], 0, false, map[]))
  }

  function ClaimOf(task: Task, newToken: Token, bindable: set<int>, waiting: bool): Section
    requires task.Acquire?
  {
    Claim(task.req, newToken, task.tried, bindable, waiting)
  }

  // ...and then decides, in the same critical section.
  function NextPass(s: Sys, a: Birth, newToken: Token, bindable: set<int>, waiting: bool, v: View): Sys
    requires a in s.agents && s.agents[a].job.task.Acquire?
  {
    var task := s.agents[a].job.task;
    var settled := AfterSettle(s, a, v);
    var sec := ClaimOf(task, newToken, bindable, waiting);
    WithJob(Commit(settled, sec, v), a,
            ClaimJob(settled.reg, task, sec, Decide(settled.reg, task.req, task.tried, bindable, waiting, v), v))
  }

  function ClaimJob(reg: seq<Lease>, task: Task, sec: Section, d: Decision, v: View): Job
    requires task.Acquire?
  {
    match d
    case Take(kind) =>
      Job(Acquire(task.req, task.tried + {kind}, kind == Hold), Marked(sec, reg, reg, false, v), 0, false, map[])
    case Wait => Job(Acquire(task.req, task.tried + {Pool}, false), [], 0, false, map[])
    case _ => IDLE
  }

  function Next(s: Sys, lb: Label): Sys
    requires Enabled(s, lb)
  {
    match lb
    case Spawn(host, pid, runs) =>
      s.(live := s.live[(host, pid) := s.nextBirth], nextBirth := s.nextBirth + 1,
         agents := if runs.Some? then s.agents[s.nextBirth := Agent(host, pid, runs.value, IDLE)] else s.agents)
    case Exit(host, pid) => s.(live := s.live - {(host, pid)})
    case Reboot(host) => s.(live := map k | k in s.live && k.0 != host :: s.live[k])
    case Tick(dt) => s.(now := s.now + dt)
    case CreateDb(db, under) => s.(dbs := s.dbs[db := under])
    case LoseDb(db) => s.(dbs := s.dbs - {db})
    case Once(a, sec, v) => Commit(s, sec, v)
    case Begin(a, sec, forced, forget, v) =>
      WithJob(Commit(s, sec, v), a,
              Job(if sec.GcMark? then Gc else Release(forget),
                  Marked(sec, s.reg, s.reg, forced, v), 0, false, map[]))
    case BeginAcquire(a, req, prefix, hex) =>
      WithJob(s, a, Job(Acquire(Named(req, prefix, hex), {}, false), [], 0, false, map[]))
    case Pass(a, newToken, bindable, waiting, v) => NextPass(s, a, newToken, bindable, waiting, v)
    case Stop(a, v) => WithJob(s, a, AfterStop(s.agents[a].job, CurrentItem(s, a).value))
    case Drop(a, result) =>
      var j := s.agents[a].job;
      var snap := CurrentItem(s, a).value.snap;
      var o := DropOutcome(j.task, result);
      WithJob(s.(dbs := if result.Dropped? then s.dbs - {snap.dbName} else s.dbs,
                 named := if o.DeleteRow? && Forgets(result) then s.named + {snap.token} else s.named),
              a, j.(cursor := j.cursor + 1, stopped := false, outcomes := j.outcomes[snap.token := o]))
    case Finish(a, v) => WithJob(Commit(s, Settle(s.agents[a].job.outcomes), v), a, IDLE)
  }

  predicate Init(s: Sys) {
    s.reg == [] && s.hist == map[] && s.agents == map[] && s.live == map[] && s.dbs == map[] && s.lapsed == {}
  }

  // A run: each state follows from the one before it by an enabled step.
  ghost predicate Run(states: seq<Sys>, labels: seq<Label>) {
    && |states| == |labels| + 1 && Init(states[0])
    && forall i :: 0 <= i < |labels| ==> Enabled(states[i], labels[i]) && states[i + 1] == Next(states[i], labels[i])
  }
}
