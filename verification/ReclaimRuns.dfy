/** The safety theorems of the allocator, over every run of any number of processes. */
module ReclaimRuns {
  import opened Options
  import opened Leases
  import opened Liveness
  import opened RowOps
  import opened Sections
  import opened Throwaway
  import opened ReclaimSystem
  import opened ReclaimRows
  import opened ReclaimSafety

  // ---- every step keeps the invariants -------------------------------------------

  lemma IdleJob(s: Sys, a: Birth)
    requires a in s.agents && InvBeside(s, a)
    ensures Inv(WithJob(s, a, IDLE))
  {
    WithSoundJob(s, a, IDLE);
  }

  lemma OnceKeeps(s: Sys, a: Birth, sec: Section, v: View)
    requires Inv(s) && Enabled(s, Once(a, sec, v))
    ensures Inv(Commit(s, sec, v))
  {
    CommitKeepsRest(s, a, sec, v);
    var s' := Commit(s, sec, v);
    forall b | Running(s', b) ensures JobInv(s', b) { }
  }

  lemma BeginKeeps(s: Sys, lb: Label)
    requires Inv(s) && lb.Begin? && Enabled(s, lb)
    ensures Inv(Next(s, lb))
  {
    FreshJob(s, lb.a, lb.sec, lb.forced, lb.v, if lb.sec.GcMark? then Gc else Release(lb.forget));
  }

  lemma PassSettles(s: Sys, a: Birth, v: View, newToken: Token)
    requires Inv(s) && Observes(s, a, v) && s.agents[a].job.task.Acquire? && newToken !in s.hist
    ensures var s1 := AfterSettle(s, a, v);
      && Inv(s1) && Observes(s1, a, v) && newToken !in s1.hist && ValidRequest(s.agents[a].job.task.req, s1.declared)
      && Sound(s, a, Settle(s.agents[a].job.outcomes), v)
  {
    var settle := Settle(s.agents[a].job.outcomes);
    assert JobInv(s, a);
    SettleIsSound(s, a, v);
    CommitKeepsRest(s, a, settle, v);
    var c := Commit(s, settle, v);
    assert c.hist.Keys == s.hist.Keys;
    EmptyJob(c, a, s.agents[a].job.task.req, s.agents[a].job.task.tried);
  }

  // The registry and the histories after the two commits of an acquire pass.
  lemma PassState(s: Sys, lb: Label)
    requires lb.Pass? && Enabled(s, lb)
    ensures var a, v, task := lb.a, lb.v, s.agents[lb.a].job.task;
      var s1 := AfterSettle(s, a, v); var sec := ClaimOf(task, lb.newToken, lb.bindable, lb.waiting);
      && s1.reg == Commit(s, Settle(s.agents[a].job.outcomes), v).reg
      && s1.hist == Commit(s, Settle(s.agents[a].job.outcomes), v).hist
      && Next(s, lb).reg == Commit(s1, sec, v).reg && Next(s, lb).hist == Commit(s1, sec, v).hist
  {
  }

  lemma ClaimIsSound(s: Sys, a: Birth, sec: Section, v: View)
    requires Observes(s, a, v) && sec.Claim? && sec.newToken !in s.hist && ValidRequest(sec.req, s.declared)
    ensures Sound(s, a, sec, v)
  {
  }

  // The two commits of an acquire pass, each of them sound.
  lemma PassCommits(s: Sys, lb: Label)
    requires Inv(s) && lb.Pass? && Enabled(s, lb)
    ensures var a, v, task := lb.a, lb.v, s.agents[lb.a].job.task;
      var s1 := AfterSettle(s, a, v); var sec := ClaimOf(task, lb.newToken, lb.bindable, lb.waiting);
      && Sound(s, a, Settle(s.agents[a].job.outcomes), v)
      && Inv(s1) && Sound(s1, a, sec, v) && ValidRequest(task.req, s1.declared)
      && s1.reg == Commit(s, Settle(s.agents[a].job.outcomes), v).reg
      && s1.hist == Commit(s, Settle(s.agents[a].job.outcomes), v).hist
      && Next(s, lb).reg == Commit(s1, sec, v).reg && Next(s, lb).hist == Commit(s1, sec, v).hist
  {
    PassState(s, lb);
    PassSettles(s, lb.a, lb.v, lb.newToken);
    ClaimIsSound(AfterSettle(s, lb.a, lb.v), lb.a,
                 ClaimOf(s.agents[lb.a].job.task, lb.newToken, lb.bindable, lb.waiting), lb.v);
  }

  lemma PassKeeps(s: Sys, lb: Label)
    requires Inv(s) && lb.Pass? && Enabled(s, lb)
    ensures Inv(Next(s, lb))
  {
    PassCommits(s, lb);
    ClaimKeeps(AfterSettle(s, lb.a, lb.v), lb.a, s.agents[lb.a].job.task,
               ClaimOf(s.agents[lb.a].job.task, lb.newToken, lb.bindable, lb.waiting), lb.v);
  }

  lemma ClaimKeeps(s: Sys, a: Birth, task: Task, sec: Section, v: View)
    requires Inv(s) && Sound(s, a, sec, v) && sec.Claim? && ValidRequest(sec.req, s.declared)
    requires task.Acquire? && task.req == sec.req && task.tried == sec.tried
    ensures var d := Decide(s.reg, sec.req, sec.tried, sec.bindable, sec.waiting, v);
      Inv(WithJob(Commit(s, sec, v), a, ClaimJob(s.reg, task, sec, d, v)))
  {
    ClaimCases(s, a, task, sec, v, Decide(s.reg, sec.req, sec.tried, sec.bindable, sec.waiting, v));
  }

  lemma ClaimCases(s: Sys, a: Birth, task: Task, sec: Section, v: View, d: Decision)
    requires Inv(s) && Sound(s, a, sec, v) && sec.Claim? && ValidRequest(sec.req, s.declared)
    requires task.Acquire? && task.req == sec.req && task.tried == sec.tried
    requires d == Decide(s.reg, sec.req, sec.tried, sec.bindable, sec.waiting, v)
    ensures Inv(WithJob(Commit(s, sec, v), a, ClaimJob(s.reg, task, sec, d, v)))
  {
    match d
    case Take(kind) => ClaimTakes(s, a, sec, v, kind);
    case _ => ClaimSettles(s, a, sec, v, sec.tried + {Pool});
  }

  lemma HeldAreExclusive(reg: seq<Lease>, sec: Section, v: View)
    requires sec.Claim? && Decide(reg, sec.req, sec.tried, sec.bindable, sec.waiting, v) == Take(Hold)
    ensures forall it :: it in Marked(sec, reg, reg, false, v) ==> it.snap.mode == Exclusive
  {
    forall it | it in Marked(sec, reg, reg, false, v) ensures it.snap.mode == Exclusive {
      var l := MarkedOrigin(sec, reg, reg, false, v, it);
      IdentityKept(PlanFor(sec, reg, l, v).a, l, v);
    }
  }

  lemma ClaimTakes(s: Sys, a: Birth, sec: Section, v: View, kind: Kind)
    requires Inv(s) && Sound(s, a, sec, v) && sec.Claim? && ValidRequest(sec.req, s.declared)
    requires Decide(s.reg, sec.req, sec.tried, sec.bindable, sec.waiting, v) == Take(kind)
    ensures Inv(WithJob(Commit(s, sec, v), a, Job(Acquire(sec.req, sec.tried + {kind}, kind == Hold),
                        Marked(sec, s.reg, s.reg, false, v), 0, false, map[])))
  {
    if kind == Hold {
      HeldAreExclusive(s.reg, sec, v);
    }
    FreshJob(s, a, sec, false, v, Acquire(sec.req, sec.tried + {kind}, kind == Hold));
  }

  lemma ClaimSettles(s: Sys, a: Birth, sec: Section, v: View, tried: set<Kind>)
    requires Inv(s) && Sound(s, a, sec, v) && sec.Claim? && ValidRequest(sec.req, s.declared)
    ensures Inv(WithJob(Commit(s, sec, v), a, IDLE))
    ensures Inv(WithJob(Commit(s, sec, v), a, Job(Acquire(sec.req, tried, false), [], 0, false, map[])))
  {
    CommitKeepsRest(s, a, sec, v);
    IdleJob(Commit(s, sec, v), a);
    EmptyJob(Commit(s, sec, v), a, sec.req, tried);
  }

  lemma EmptyJob(s: Sys, a: Birth, req: Request, tried: set<Kind>)
    requires a in s.agents && InvBeside(s, a) && ValidRequest(req, s.declared)
    ensures Inv(WithJob(s, a, Job(Acquire(req, tried, false), [], 0, false, map[])))
  {
    WithSoundJob(s, a, Job(Acquire(req, tried, false), [], 0, false, map[]));
  }

  lemma FinishKeeps(s: Sys, a: Birth, v: View)
    requires Inv(s) && Enabled(s, Finish(a, v))
    ensures Inv(Next(s, Finish(a, v)))
  {
    var settle := Settle(s.agents[a].job.outcomes);
    SettleIsSound(s, a, v);
    CommitKeepsRest(s, a, settle, v);
    IdleJob(Commit(s, settle, v), a);
  }

  // The job after its current item got outcome `o`.
  function Advanced(j: Job, o: Outcome): Job
    requires j.cursor < |j.items|
  {
    j.(cursor := j.cursor + 1, stopped := false,
       outcomes := j.outcomes[j.items[j.cursor].snap.token := o])
  }

  lemma AdvancedOutcomes(j: Job, o: Outcome)
    requires j.cursor < |j.items| && DistinctItems(j.items)
    requires forall i :: 0 <= i < j.cursor ==> j.items[i].snap.token in j.outcomes
    requires forall t :: t in j.outcomes ==> exists i :: 0 <= i < j.cursor && j.items[i].snap.token == t
    ensures var j' := Advanced(j, o);
      && (forall i :: 0 <= i < j'.cursor ==> j'.items[i].snap.token in j'.outcomes)
      && (forall i :: 0 <= i < j.cursor ==> j'.outcomes[j.items[i].snap.token] == j.outcomes[j.items[i].snap.token])
      && (forall t :: t in j'.outcomes ==> exists i :: 0 <= i < j'.cursor && j'.items[i].snap.token == t)
  {
    var j' := Advanced(j, o);
    forall t | t in j'.outcomes ensures exists i :: 0 <= i < j'.cursor && j'.items[i].snap.token == t {
      if t == j.items[j.cursor].snap.token {
        assert j'.items[j.cursor].snap.token == t;
      } else {
        var i :| 0 <= i < j.cursor && j.items[i].snap.token == t;
        assert j'.items[i].snap.token == t;
      }
    }
  }

  // Finishing one item of a work list.
  lemma ItemDone(s: Sys, a: Birth, o: Outcome)
    requires a in s.agents && JobInv(s, a) && CurrentItem(s, a).Some? && !s.agents[a].job.task.Idle?
    requires OutcomeInv(s, s.agents[a], CurrentItem(s, a).value, o)
    ensures JobInv(WithJob(s, a, Advanced(s.agents[a].job, o)), a)
  {
    var j := s.agents[a].job;
    AdvancedOutcomes(j, o);
    var s' := WithJob(s, a, Advanced(j, o));
    forall i | 0 <= i < |j.items| ensures ItemInv(s', s'.agents[a], j.items[i]) {
      SameTaskItem(s, s', s.agents[a], s'.agents[a], j.items[i]);
    }
    ItemOutcomes(s, s', a, o);
  }

  lemma ItemOutcomes(s: Sys, s': Sys, a: Birth, o: Outcome)
    requires a in s.agents && JobInv(s, a) && CurrentItem(s, a).Some?
    requires s' == WithJob(s, a, Advanced(s.agents[a].job, o))
    requires OutcomeInv(s, s.agents[a], CurrentItem(s, a).value, o)
    ensures var j' := s'.agents[a].job;
      forall i :: 0 <= i < j'.cursor ==>
        && j'.items[i].snap.token in j'.outcomes
        && OutcomeInv(s', s'.agents[a], j'.items[i], j'.outcomes[j'.items[i].snap.token])
  {
    var j, j' := s.agents[a].job, s'.agents[a].job;
    AdvancedOutcomes(j, o);
    forall i | 0 <= i < j'.cursor
      ensures OutcomeInv(s', s'.agents[a], j'.items[i], j'.outcomes[j'.items[i].snap.token])
    {
      ItemOutcome(s, s', a, o, i);
    }
  }

  lemma ItemOutcome(s: Sys, s': Sys, a: Birth, o: Outcome, i: nat)
    requires a in s.agents && JobInv(s, a) && CurrentItem(s, a).Some?
    requires s' == WithJob(s, a, Advanced(s.agents[a].job, o)) && i <= s.agents[a].job.cursor
    requires OutcomeInv(s, s.agents[a], CurrentItem(s, a).value, o)
    requires s.agents[a].job.items[i].snap.token in s'.agents[a].job.outcomes
    ensures var j' := s'.agents[a].job; OutcomeInv(s', s'.agents[a], j'.items[i], j'.outcomes[j'.items[i].snap.token])
  {
    var j, j' := s.agents[a].job, s'.agents[a].job;
    AdvancedOutcomes(j, o);
    var it := j.items[i];
    assert OutcomeInv(s, s.agents[a], it, j'.outcomes[it.snap.token]);
    SameTaskOutcome(s, s', s.agents[a], s'.agents[a], it, j'.outcomes[it.snap.token]);
  }

  predicate SameTask(ag: Agent, ag': Agent) {
    ag.host == ag'.host && ag.pid == ag'.pid && ag.job.task == ag'.job.task
  }

  lemma SameTaskItem(s: Sys, s': Sys, ag: Agent, ag': Agent, it: Item)
    requires ItemInv(s, ag, it) && SameTask(ag, ag')
    requires s'.reg == s.reg && s'.hist == s.hist && s'.lapsed == s.lapsed
    ensures ItemInv(s', ag', it)
  {
  }

  lemma SameTaskOutcome(s: Sys, s': Sys, ag: Agent, ag': Agent, it: Item, o: Outcome)
    requires OutcomeInv(s, ag, it, o) && SameTask(ag, ag')
    requires s'.reg == s.reg && s'.dbs == s.dbs && s'.named == s.named
    ensures OutcomeInv(s', ag', it, o)
  {
  }

  lemma NoDropOfExclusive(s: Sys, ag: Agent, it: Item)
    requires Inv(s) && ItemInv(s, ag, it) && it.snap.mode == Exclusive
    ensures !HasDrop(it.snap)
  {
    assert MintOk(it.snap.token, s.hist[it.snap.token]);
  }

  lemma StopKeeps(s: Sys, a: Birth, v: View)
    requires Inv(s) && Enabled(s, Stop(a, v))
    ensures Inv(Next(s, Stop(a, v)))
  {
    var j, it := s.agents[a].job, CurrentItem(s, a).value;
    assert JobInv(s, a) && ItemInv(s, s.agents[a], it);
    var o := StopOutcome(j.task, it);
    if o.Some? {
      if it.snap.mode == Exclusive { NoDropOfExclusive(s, s.agents[a], it); }
      ItemDone(s, a, o.value);
      assert AfterStop(j, it) == Advanced(j, o.value);
    } else {
      StoppedJob(s, a);
    }
    WithSoundJob(s, a, AfterStop(j, it));
  }

  lemma StoppedJob(s: Sys, a: Birth)
    requires Running(s, a) && JobInv(s, a) && CurrentItem(s, a).Some?
    requires StopOutcome(s.agents[a].job.task, CurrentItem(s, a).value).None?
    ensures JobInv(WithJob(s, a, s.agents[a].job.(stopped := true)), a)
  {
    var ag, j := s.agents[a], s.agents[a].job;
    var s' := WithJob(s, a, j.(stopped := true));
    forall i | 0 <= i < |j.items| ensures ItemInv(s', s'.agents[a], j.items[i]) {
      SameTaskItem(s, s', ag, s'.agents[a], j.items[i]);
    }
    forall i | 0 <= i < j.cursor
      ensures OutcomeInv(s', s'.agents[a], j.items[i], j.outcomes[j.items[i].snap.token])
    {
      SameTaskOutcome(s, s', ag, s'.agents[a], j.items[i], j.outcomes[j.items[i].snap.token]);
    }
  }

  function DropState(s: Sys, it: Item, task: Task, result: DropResult): Sys {
    s.(dbs := if result.Dropped? then s.dbs - {it.snap.dbName} else s.dbs,
       named := if DropOutcome(task, result).DeleteRow? && Forgets(result)
                then s.named + {it.snap.token} else s.named)
  }

  lemma DropIs(s: Sys, a: Birth, result: DropResult)
    requires Enabled(s, Drop(a, result))
    ensures var j, it := s.agents[a].job, CurrentItem(s, a).value;
      Next(s, Drop(a, result)) == WithJob(DropState(s, it, j.task, result), a, Advanced(j, DropOutcome(j.task, result)))
  {
  }

  lemma DropIsAccounted(s: Sys, ag: Agent, it: Item, result: DropResult)
    requires !ParksItem(ag.job.task, it) && !ag.job.task.Acquire?
    requires result.NothingToDrop? <==> !HasDrop(it.snap)
    requires result == DropFailed(Some(false)) ==> it.snap.dbName !in s.dbs
    ensures OutcomeInv(DropState(s, it, ag.job.task, result), ag, it, DropOutcome(ag.job.task, result))
  {
  }

  lemma DropKeeps(s: Sys, a: Birth, result: DropResult)
    requires Inv(s) && Enabled(s, Drop(a, result))
    ensures Inv(Next(s, Drop(a, result)))
  {
    var ag, it := s.agents[a], CurrentItem(s, a).value;
    var s1 := DropState(s, it, ag.job.task, result);
    DropIs(s, a, result);
    FewerDbs(s, s1);
    DropIsAccounted(s, ag, it, result);
    InvForgets(s1, a);
    assert Running(s1, a);
    AdvanceKeeps(s1, a, DropOutcome(ag.job.task, result));
  }

  lemma AdvanceKeeps(s: Sys, a: Birth, o: Outcome)
    requires Inv(s) && Running(s, a) && CurrentItem(s, a).Some?
    requires OutcomeInv(s, s.agents[a], CurrentItem(s, a).value, o)
    ensures Inv(WithJob(s, a, Advanced(s.agents[a].job, o)))
  {
    assert JobInv(s, a);
    ItemDone(s, a, o);
    WithSoundJob(s, a, Advanced(s.agents[a].job, o));
  }

  lemma InvForgets(s: Sys, a: Birth)
    requires Inv(s)
    ensures InvBeside(s, a)
  {
  }

  // Losing databases, or naming more of them, breaks nothing.
  lemma FewerDbs(s: Sys, s1: Sys)
    requires Inv(s) && s1 == s.(dbs := s1.dbs, named := s1.named)
    requires s.named <= s1.named && s1.dbs.Keys <= s.dbs.Keys && forall db :: db in s1.dbs ==> s1.dbs[db] == s.dbs[db]
    ensures Inv(s1)
  {
    forall b | Running(s1, b) ensures JobInv(s1, b) { JobFrame(s, s1, b); }
  }

  lemma CreateKeeps(s: Sys, db: string, under: Token)
    requires Inv(s) && Enabled(s, CreateDb(db, under))
    ensures Inv(Next(s, CreateDb(db, under)))
  {
    var s1 := s.(dbs := s.dbs[db := under]);
    forall b | Running(s1, b) ensures JobInv(s1, b) { JobFrame(s, s1, b); }
  }

  lemma EnvironmentKeeps(s: Sys, s1: Sys)
    requires Inv(s) && s1 == s.(live := s1.live, nextBirth := s1.nextBirth, agents := s1.agents, now := s1.now)
    requires ProcsInv(s1)
    requires forall b :: Running(s1, b) ==> (Running(s, b) && s1.agents[b] == s.agents[b]) || s1.agents[b].job == IDLE
    ensures Inv(s1)
  {
    forall b | Running(s1, b) ensures JobInv(s1, b) {
      if Running(s, b) && s1.agents[b] == s.agents[b] { JobFrame(s, s1, b); }
    }
  }

  predicate Environmental(lb: Label) { lb.Spawn? || lb.Exit? || lb.Reboot? || lb.Tick? }

  lemma EnvironmentSteps(s: Sys, lb: Label)
    requires Inv(s) && Environmental(lb) && Enabled(s, lb)
    ensures Inv(Next(s, lb))
  {
    EnvironmentKeeps(s, Next(s, lb));
  }

  lemma BeginAcquireKeeps(s: Sys, lb: Label)
    requires Inv(s) && lb.BeginAcquire? && Enabled(s, lb)
    ensures Inv(Next(s, lb))
  {
    NamedIsValid(lb.req, lb.prefix, lb.hex, s.declared);
    EmptyJob(s, lb.a, Named(lb.req, lb.prefix, lb.hex), {});
  }

  lemma NamedIsValid(req: Request, prefix: string, hex: string, declared: set<int>)
    requires req.mode != Shared && declared <= req.reserved && EightHex(hex)
    ensures ValidRequest(Named(req, prefix, hex), declared)
  {
  }

  lemma LoseKeeps(s: Sys, db: string)
    requires Inv(s)
    ensures Inv(s.(dbs := s.dbs - {db}))
  {
    FewerDbs(s, s.(dbs := s.dbs - {db}));
  }

  // Every enabled step of every process and of the environment keeps the invariants.
  lemma StepKeeps(s: Sys, lb: Label)
    requires Inv(s) && Enabled(s, lb)
    ensures Inv(Next(s, lb))
  {
    match lb
    case CreateDb(db, under) => CreateKeeps(s, db, under);
    case LoseDb(db) => LoseKeeps(s, db);
    case Once(a, sec, v) => OnceKeeps(s, a, sec, v);
    case Begin(_, _, _, _, _) => BeginKeeps(s, lb);
    case BeginAcquire(_, _, _, _) => BeginAcquireKeeps(s, lb);
    case Pass(_, _, _, _, _) => PassKeeps(s, lb);
    case Stop(a, v) => StopKeeps(s, a, v);
    case Drop(a, result) => DropKeeps(s, a, result);
    case Finish(a, v) => FinishKeeps(s, a, v);
    case _ => EnvironmentSteps(s, lb);
  }

  // Every state of every run satisfies the invariants.
  lemma {:induction false} RunKeeps(states: seq<Sys>, labels: seq<Label>, i: nat)
    requires Run(states, labels) && i < |states|
    ensures Inv(states[i])
  {
    if i > 0 {
      RunKeeps(states, labels, i - 1);
      StepKeeps(states[i - 1], labels[i - 1]);
    }
  }
}
