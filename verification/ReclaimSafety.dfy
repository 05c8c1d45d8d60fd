/** The invariants of every reachable state of the allocator, and that every step keeps them. */
module ReclaimSafety {
  import opened Options
  import opened Leases
  import opened Liveness
  import opened RowOps
  import opened Sections
  import opened Throwaway
  import opened ReclaimSystem
  import opened ReclaimRows

  // ---- the invariants -----------------------------------------------------------

  ghost predicate MintOk(t: Token, h: Hist) {
    && h.minted.token == t
    && (h.minted.dropOnRelease ==> h.minted.mode == Ephemeral && ThrowawayName(h.minted.dbName))
  }

  ghost predicate MintsInv(hist: map<Token, Hist>) {
    forall t :: t in hist ==> MintOk(t, hist[t])
  }

  ghost predicate ProcsInv(s: Sys) {
    && (forall k :: k in s.live ==> s.live[k] < s.nextBirth)
    && (forall a :: a in s.agents ==> a < s.nextBirth)
  }

  // The agent's marker is on the row of `t`.
  predicate Holds(s: Sys, ag: Agent, t: Token) {
    HasToken(s.reg, t) && MarkedBy(RowOf(s.reg, t), ag)
  }

  // No database that was created under `t` is left, or a forced release has given it up by name.
  predicate Accounted(s: Sys, t: Token, db: string) {
    t in s.named || !(db in s.dbs && s.dbs[db] == t)
  }

  // A lease taken out of a park may lose its database only to a spent budget or the TTL arm.
  predicate ParkRespected(it: Item, h: Hist) {
    h.parks != [] && !GcParks(it.snap, it.reason) ==> it.reason == ParkExpired || it.reason == TtlUnprovable
  }

  ghost predicate ItemInv(s: Sys, ag: Agent, it: Item) {
    var t := it.snap.token;
    && t in s.hist
    && SameIdentity(it.snap, s.hist[t].minted)
    && ServerVouched(it.snap.owner.server, s.hist[t])
    && Warranted(it.warrant)
    && (ag.job.task.Acquire? ==> OwnerGone(it.reason) && (ag.job.task.delete ==> it.snap.mode == Exclusive))
    && (t !in s.lapsed ==>
          && Holds(s, ag, t)
          && (ag.job.task.Gc? ==> ParkRespected(it, s.hist[t]))
          && (ParksItem(ag.job.task, it) ==> RowOf(s.reg, t).parkedAt.None? && s.hist[t].parks != []))
  }

  ghost predicate OutcomeInv(s: Sys, ag: Agent, it: Item, o: Outcome) {
    && (o == ParkRow ==> ParksItem(ag.job.task, it))
    && (o == OrphanRow ==> ag.job.task.Acquire?)
    && (o == DeleteRow ==>
          && !ParksItem(ag.job.task, it)
          && (ag.job.task.Acquire? ==> it.snap.mode == Exclusive)
          && (HasDrop(it.snap) && Holds(s, ag, it.snap.token) ==> Accounted(s, it.snap.token, it.snap.dbName)))
  }

  predicate DistinctItems(items: seq<Item>) {
    forall i, j :: 0 <= i < j < |items| ==> items[i].snap.token != items[j].snap.token
  }

  ghost predicate JobInv(s: Sys, a: Birth)
    requires a in s.agents
  {
    var ag := s.agents[a];
    var j := ag.job;
    && j.cursor <= |j.items| && DistinctItems(j.items)
    && (j.stopped ==> j.cursor < |j.items| && !ParksItem(j.task, j.items[j.cursor]) && !j.task.Acquire?)
    && (j.task.Idle? ==> j == IDLE)
    && (j.task.Acquire? ==> ValidRequest(j.task.req, s.declared))
    && (forall i :: 0 <= i < |j.items| ==> ItemInv(s, ag, j.items[i]))
    && (forall i :: 0 <= i < j.cursor ==>
          && j.items[i].snap.token in j.outcomes
          && OutcomeInv(s, ag, j.items[i], j.outcomes[j.items[i].snap.token]))
    && (forall t :: t in j.outcomes ==> exists i :: 0 <= i < j.cursor && j.items[i].snap.token == t)
  }

  ghost predicate JobsInv(s: Sys) {
    forall a :: Running(s, a) ==> JobInv(s, a)
  }

  // A database created under a throwaway lease still has that lease, or has been named.
  ghost predicate DbInv(s: Sys, db: string)
    requires db in s.dbs
  {
    && s.dbs[db] in s.hist && s.hist[s.dbs[db]].minted.dbName == db
    && (s.hist[s.dbs[db]].minted.dropOnRelease ==> HasToken(s.reg, s.dbs[db]) || s.dbs[db] in s.named)
  }

  ghost predicate DbsInv(s: Sys) {
    forall db :: db in s.dbs ==> DbInv(s, db)
  }

  predicate Alternates(parks: seq<ParkEvent>) {
    && (parks != [] ==> parks[0].Stamped?)
    && forall i :: 0 <= i < |parks| - 1 ==> (parks[i].Stamped? <==> parks[i + 1].Resumed?)
  }

  // Every resume takes the lease out of the park that was stamped just before it.
  predicate Paired(parks: seq<ParkEvent>) {
    forall i :: 0 <= i < |parks| && parks[i].Resumed? ==> i > 0 && parks[i - 1].Stamped?
  }

  ghost predicate ParksInv(s: Sys) {
    forall t :: t in s.hist ==> Paired(s.hist[t].parks) && (t !in s.lapsed ==> Alternates(s.hist[t].parks))
  }

  ghost predicate Inv(s: Sys) {
    && RowsInv(s.reg, s.hist) && PortsInv(s.reg, s.declared) && ExclusiveInv(s.reg)
    && MintsInv(s.hist) && ProcsInv(s) && JobsInv(s) && DbsInv(s) && ParksInv(s)
  }

  // ---- one commit, seen from the rest of the system -------------------------------

  // What a section must satisfy for its commit by agent `a` to be sound.
  ghost predicate Sound(s: Sys, a: Birth, sec: Section, v: View) {
    && Observes(s, a, v)
    && SettlesFairly(sec, s.reg) && MintsFresh(sec, s.reg, s.hist, s.declared, v)
    && (sec.Settle? ==> forall l :: l in s.reg && l.token in sec.outcomes ==> SettleSound(s, a, l, sec.outcomes[l.token]))
  }

  ghost predicate SettleSound(s: Sys, a: Birth, l: Lease, o: Outcome)
    requires a in s.agents
  {
    MarkedBy(l, s.agents[a]) ==>
      && (o == ParkRow && l.token !in s.lapsed ==> l.parkedAt.None?)
      && (o == DeleteRow && l.dropOnRelease ==> Accounted(s, l.token, l.dbName))
  }

  lemma CommitRegistry(s: Sys, a: Birth, sec: Section, v: View)
    requires Inv(s) && Sound(s, a, sec, v)
    ensures var s' := Commit(s, sec, v);
      RowsInv(s'.reg, s'.hist) && PortsInv(s'.reg, s.declared) && ExclusiveInv(s'.reg) && ProcsInv(s')
  {
    RowsKept(sec, s.reg, s.hist, s.declared, v);
    PortsKept(sec, s.reg, s.hist, s.declared, v);
    ExclusiveKept(sec, s.reg, v);
  }

  // Histories only grow, and a token once minted keeps its birth certificate.
  lemma CommitHist(s: Sys, a: Birth, sec: Section, v: View, t: Token)
    requires Inv(s) && Sound(s, a, sec, v) && t in s.hist
    ensures t in Commit(s, sec, v).hist && Grows(s.hist[t], Commit(s, sec, v).hist[t])
    ensures !HasToken(s.reg, t) ==> Commit(s, sec, v).hist[t] == s.hist[t]
  {
    OldHist(sec, s.reg, s.hist, v, t);
    if HasToken(s.reg, t) {
      HistGrows(PlanFor(sec, s.reg, RowOf(s.reg, t), v), RowOf(s.reg, t), s.hist[t], v);
    }
  }

  lemma OldHist(sec: Section, reg: seq<Lease>, hist: map<Token, Hist>, v: View, t: Token)
    requires t in hist && (Mints(sec, reg, v).Some? ==> Mints(sec, reg, v).value.token !in hist)
    ensures t in HistAfter(sec, reg, hist, v)
    ensures HistAfter(sec, reg, hist, v)[t] ==
      if HasToken(reg, t) then HistPlan(PlanFor(sec, reg, RowOf(reg, t), v), RowOf(reg, t), hist[t], v) else hist[t]
  {
  }

  lemma CommitMints(s: Sys, a: Birth, sec: Section, v: View)
    requires Inv(s) && Sound(s, a, sec, v)
    ensures MintsInv(Commit(s, sec, v).hist)
  {
    var s' := Commit(s, sec, v);
    forall t | t in s'.hist ensures MintOk(t, s'.hist[t]) {
      if t in s.hist { CommitHist(s, a, sec, v, t); }
    }
  }

  // ---- park events ------------------------------------------------------------------

  lemma ParksGrow(op: Op, l: Lease, h: Hist, v: View)
    requires RowInv(l, h) && Allowed(op, l, v) && Alternates(h.parks)
    requires op.SettlePark? ==> l.parkedAt.None?
    ensures Alternates(HistOp(op, l, h, v).parks)
  {
    var parks, parks' := h.parks, HistOp(op, l, h, v).parks;
    if parks' != parks {
      assert |parks'| == |parks| + 1 && parks'[..|parks|] == parks;
      forall i | 0 <= i < |parks'| - 1 ensures parks'[i].Stamped? <==> parks'[i + 1].Resumed? {
        if i < |parks| - 1 {
          assert parks'[i] == parks[i] && parks'[i + 1] == parks[i + 1];
        }
      }
    }
  }

  lemma PairsGrow(op: Op, l: Lease, h: Hist, v: View)
    requires RowInv(l, h) && Allowed(op, l, v) && Paired(h.parks)
    ensures Paired(HistOp(op, l, h, v).parks)
  {
    var parks, parks' := h.parks, HistOp(op, l, h, v).parks;
    if parks' != parks {
      assert |parks'| == |parks| + 1 && parks'[..|parks|] == parks;
      assert forall i :: 0 <= i < |parks| ==> parks'[i] == parks[i];
    }
  }

  predicate ParkOp(op: Op) { op.StampPark? || op.Unpark? || op.SettlePark? }

  lemma OnlyFirstOpParks(sec: Section, reg: seq<Lease>, l: Lease, v: View)
    ensures var p := PlanFor(sec, reg, l, v); !ParkOp(p.b) && !ParkOp(p.c) && !ParkOp(p.d)
    ensures var p := PlanFor(sec, reg, l, v);
      p.a.SettlePark? ==> sec.Settle? && l.token in sec.outcomes && sec.outcomes[l.token] == ParkRow && IsMine(l, v)
  {
  }

  lemma NoParkEvent(op: Op, l: Lease, h: Hist, v: View)
    requires !ParkOp(op)
    ensures HistOp(op, l, h, v).parks == h.parks
  {
  }

  lemma PlanParks(p: Plan, l: Lease, h: Hist, v: View)
    requires !ParkOp(p.b) && !ParkOp(p.c) && !ParkOp(p.d)
    ensures HistPlan(p, l, h, v).parks == HistOp(p.a, l, h, v).parks
  {
    NoParkEvent(p.b, Row1(p, l, v), Hist1(p, l, h, v), v);
    NoParkEvent(p.c, Row2(p, l, v), Hist2(p, l, h, v), v);
    NoParkEvent(p.d, Row3(p, l, v), Hist3(p, l, h, v), v);
  }

  lemma CommitParksOf(s: Sys, a: Birth, sec: Section, v: View, t: Token)
    requires Inv(s) && Sound(s, a, sec, v) && HasToken(s.reg, t)
    ensures t in s.hist
    ensures var l := RowOf(s.reg, t);
      var parks := HistPlan(PlanFor(sec, s.reg, l, v), l, s.hist[t], v).parks;
      Paired(parks) && (t !in s.lapsed ==> Alternates(parks))
  {
    var l, h := RowOf(s.reg, t), s.hist[t];
    var p := PlanFor(sec, s.reg, l, v);
    SectionAllowed(sec, s.reg, l, v);
    OnlyFirstOpParks(sec, s.reg, l, v);
    assert sec.Settle? && t in sec.outcomes ==> SettleSound(s, a, l, sec.outcomes[t]);
    PairsGrow(p.a, l, h, v);
    if t !in s.lapsed { ParksGrow(p.a, l, h, v); }
    PlanParks(p, l, h, v);
  }

  lemma CommitParks(s: Sys, a: Birth, sec: Section, v: View)
    requires Inv(s) && Sound(s, a, sec, v)
    ensures ParksInv(Commit(s, sec, v))
  {
    var s' := Commit(s, sec, v);
    forall t | t in s'.hist ensures Paired(s'.hist[t].parks) && (t !in s'.lapsed ==> Alternates(s'.hist[t].parks)) {
      if t in s.hist {
        CommitHist(s, a, sec, v, t);
        OldHist(sec, s.reg, s.hist, v, t);
        if HasToken(s.reg, t) { CommitParksOf(s, a, sec, v, t); }
      }
    }
  }

  // ---- databases ----------------------------------------------------------------------

  lemma CommitDb(s: Sys, a: Birth, sec: Section, v: View, db: string)
    requires Inv(s) && Sound(s, a, sec, v) && db in s.dbs && DbInv(s, db)
    ensures DbInv(Commit(s, sec, v), db)
  {
    var t := s.dbs[db];
    CommitHist(s, a, sec, v, t);
    if s.hist[t].minted.dropOnRelease && t !in s.named {
      ThrowawayStays(s, a, sec, v, RowOf(s.reg, t), db);
    }
  }

  // A throwaway row whose database is left, and not named, is not removed.
  lemma ThrowawayStays(s: Sys, a: Birth, sec: Section, v: View, l: Lease, db: string)
    requires Inv(s) && Sound(s, a, sec, v) && l in s.reg && l.token in s.hist
    requires s.hist[l.token].minted.dropOnRelease && s.hist[l.token].minted.dbName == db
    requires db in s.dbs && s.dbs[db] == l.token && l.token !in s.named
    ensures HasToken(Commit(s, sec, v).reg, l.token)
  {
    assert RowInv(l, s.hist[l.token]);
    assert sec.Settle? && l.token in sec.outcomes ==> SettleSound(s, a, l, sec.outcomes[l.token]);
    ApplyRow(sec, s.reg, s.hist, v, l);
  }

  lemma CommitDbs(s: Sys, a: Birth, sec: Section, v: View)
    requires Inv(s) && Sound(s, a, sec, v)
    ensures DbsInv(Commit(s, sec, v))
  {
    forall db | db in s.dbs ensures DbInv(Commit(s, sec, v), db) {
      CommitDb(s, a, sec, v, db);
    }
  }

  // ---- the jobs of the other agents -----------------------------------------------------

  lemma OthersView(s: Sys, a: Birth, b: Birth, v: View, l: Lease)
    requires Observes(s, a, v) && Running(s, b) && a != b && MarkedBy(l, s.agents[b])
    ensures HeldByAnother(l, v)
  {
  }

  // An item survives any change that grows its history and leaves a held row alone.
  lemma ItemKept(s: Sys, s': Sys, ag: Agent, it: Item)
    requires ItemInv(s, ag, it)
    requires var t := it.snap.token;
      && s.lapsed <= s'.lapsed && t in s'.hist && Grows(s.hist[t], s'.hist[t])
      && (t !in s'.lapsed ==>
            && HasToken(s'.reg, t)
            && RowOf(s'.reg, t).reclaiming == RowOf(s.reg, t).reclaiming
            && RowOf(s'.reg, t).parkedAt == RowOf(s.reg, t).parkedAt
            && s'.hist[t].parks == s.hist[t].parks)
    ensures ItemInv(s', ag, it)
  {
  }

  lemma OtherItem(s: Sys, a: Birth, b: Birth, sec: Section, v: View, it: Item)
    requires Inv(s) && Sound(s, a, sec, v) && Running(s, b) && a != b && ItemInv(s, s.agents[b], it)
    requires WorksOn(s, b, it.snap.token)
    ensures ItemInv(Commit(s, sec, v), s.agents[b], it)
  {
    var s', t := Commit(s, sec, v), it.snap.token;
    CommitHist(s, a, sec, v, t);
    if t !in s'.lapsed { HeldRowOf(s, a, b, sec, v, t); }
    ItemKept(s, s', s.agents[b], it);
  }

  // Another agent's commit leaves the row of a token alone that `b` holds.
  lemma HeldRowOf(s: Sys, a: Birth, b: Birth, sec: Section, v: View, t: Token)
    requires Inv(s) && Sound(s, a, sec, v) && Running(s, b) && a != b && t in s.hist
    requires Holds(s, s.agents[b], t) && WorksOn(s, b, t) && t !in Commit(s, sec, v).lapsed
    ensures var s' := Commit(s, sec, v);
      && HasToken(s'.reg, t) && t in s'.hist
      && RowOf(s'.reg, t).reclaiming == RowOf(s.reg, t).reclaiming
      && RowOf(s'.reg, t).parkedAt == RowOf(s.reg, t).parkedAt
      && s'.hist[t].parks == s.hist[t].parks
  {
    var l := RowOf(s.reg, t);
    OthersView(s, a, b, v, l);
    assert PlacerAtWork(s, l);
    HeldRowUndisturbed(sec, s.reg, l, s.hist[t], v);
    ApplyRow(sec, s.reg, s.hist, v, l);
    HistOfRow(sec, s.reg, s.hist, v, l);
  }

  lemma RowMarker(p: Plan, l: Lease, v: View)
    ensures var r := ApplyPlan(p, l, v); r.reclaiming == l.reclaiming || r.reclaiming.None? || IsMine(r, v)
  {
    MarkersComeFromMe(p.a, l, v);
    MarkersComeFromMe(p.b, Row1(p, l, v), v);
    MarkersComeFromMe(p.c, Row2(p, l, v), v);
    MarkersComeFromMe(p.d, Row3(p, l, v), v);
  }

  // A row `a` has marked is not another live agent's.
  lemma NotAnothers(s: Sys, a: Birth, b: Birth, v: View, r: Lease)
    requires Observes(s, a, v) && Running(s, b) && a != b && IsMine(r, v)
    ensures !MarkedBy(r, s.agents[b])
  {
  }

  // A marker of a live process on the row after another's commit was already there before.
  lemma MarkerNotForged(s: Sys, a: Birth, b: Birth, sec: Section, v: View, t: Token)
    requires Inv(s) && Sound(s, a, sec, v) && Running(s, b) && a != b && t in s.hist
    requires Holds(Commit(s, sec, v), s.agents[b], t)
    ensures Holds(s, s.agents[b], t)
  {
    var r := RowOf(Apply(sec, s.reg, v), t);
    var l := ApplyOrigin(sec, s.reg, v, r);
    RowKeepsToken(sec, s.reg, l, v);
    if l in s.reg && r == Row(sec, s.reg, l, v) {
      RowOfUnique(s.reg, l);
      RowMarker(PlanFor(sec, s.reg, l, v), l, v);
      if IsMine(r, v) { NotAnothers(s, a, b, v, r); }
    } else {
      MintedRow(sec, s.reg, v);
    }
  }

  lemma MarkersComeFromMe(op: Op, l: Lease, v: View)
    ensures var r := ApplyOp(op, l, v);
      r.reclaiming == l.reclaiming || r.reclaiming.None? || IsMine(r, v)
  {
  }

  lemma OtherJob(s: Sys, a: Birth, b: Birth, sec: Section, v: View)
    requires Inv(s) && Sound(s, a, sec, v) && Running(s, b) && a != b
    ensures JobInv(Commit(s, sec, v), b)
  {
    var s', ag := Commit(s, sec, v), s.agents[b];
    var j := ag.job;
    forall i | 0 <= i < |j.items| ensures ItemInv(s', ag, j.items[i]) {
      assert WorksOn(s, b, j.items[i].snap.token);
      OtherItem(s, a, b, sec, v, j.items[i]);
    }
    forall i | 0 <= i < j.cursor ensures OutcomeInv(s', ag, j.items[i], j.outcomes[j.items[i].snap.token]) {
      var t := j.items[i].snap.token;
      assert OutcomeInv(s, ag, j.items[i], j.outcomes[t]);
      if Holds(s', ag, t) { MarkerNotForged(s, a, b, sec, v, t); }
    }
  }

  // A commit by `a` keeps every invariant but the one of `a`'s own job.
  lemma CommitKeepsRest(s: Sys, a: Birth, sec: Section, v: View)
    requires Inv(s) && Sound(s, a, sec, v)
    ensures InvBeside(Commit(s, sec, v), a)
  {
    CommitRegistry(s, a, sec, v);
    CommitMints(s, a, sec, v);
    CommitParks(s, a, sec, v);
    CommitDbs(s, a, sec, v);
    var s' := Commit(s, sec, v);
    forall b | Running(s', b) && b != a ensures JobInv(s', b) { OtherJob(s, a, b, sec, v); }
  }

  ghost predicate InvBeside(s: Sys, a: Birth) {
    && RowsInv(s.reg, s.hist) && PortsInv(s.reg, s.declared) && ExclusiveInv(s.reg)
    && MintsInv(s.hist) && ProcsInv(s) && DbsInv(s) && ParksInv(s)
    && forall b :: Running(s, b) && b != a ==> JobInv(s, b)
  }

  // Giving `a` a sound job completes the invariant.
  lemma WithSoundJob(s: Sys, a: Birth, j: Job)
    requires a in s.agents && InvBeside(s, a) && JobInv(WithJob(s, a, j), a)
    ensures Inv(WithJob(s, a, j))
  {
    var s' := WithJob(s, a, j);
    forall b | Running(s', b) ensures JobInv(s', b) {
      if b != a { JobFrame(s, s', b); }
    }
  }

  // A job's invariant depends only on the agent and on registry, histories and databases.
  lemma JobFrame(s: Sys, s': Sys, b: Birth)
    requires b in s.agents && b in s'.agents && s.agents[b] == s'.agents[b] && JobInv(s, b)
    requires s'.reg == s.reg && s'.hist == s.hist && s'.lapsed == s.lapsed && s'.declared == s.declared
    requires forall t, db :: Holds(s, s.agents[b], t) && Accounted(s, t, db) ==> Accounted(s', t, db)
    ensures JobInv(s', b)
  {
    var ag := s.agents[b];
    forall i | 0 <= i < |ag.job.items| ensures ItemInv(s', ag, ag.job.items[i]) {
      assert Grows(s.hist[ag.job.items[i].snap.token], s'.hist[ag.job.items[i].snap.token]);
      ItemKept(s, s', ag, ag.job.items[i]);
    }
    forall i | 0 <= i < ag.job.cursor
      ensures OutcomeInv(s', ag, ag.job.items[i], ag.job.outcomes[ag.job.items[i].snap.token])
    {
      assert OutcomeInv(s, ag, ag.job.items[i], ag.job.outcomes[ag.job.items[i].snap.token]);
    }
  }

  // ---- the settle of a finished job ---------------------------------------------------

  lemma SettleIsSound(s: Sys, a: Birth, v: View)
    requires Inv(s) && Observes(s, a, v)
    ensures Sound(s, a, Settle(s.agents[a].job.outcomes), v)
  {
    var ag := s.agents[a];
    var outcomes := ag.job.outcomes;
    forall l | l in s.reg && l.token in outcomes
      ensures SettleSound(s, a, l, outcomes[l.token])
      ensures outcomes[l.token] == ParkRow ==> l.mode != Shared
    {
      var i :| 0 <= i < ag.job.cursor && ag.job.items[i].snap.token == l.token;
      var it := ag.job.items[i];
      assert ItemInv(s, ag, it) && OutcomeInv(s, ag, it, outcomes[l.token]);
      RowOfUnique(s.reg, l);
      assert SameIdentity(l, s.hist[l.token].minted) && MintOk(l.token, s.hist[l.token]);
      assert l.dropOnRelease ==> HasDrop(it.snap);
    }
  }

  // ---- a freshly marked work list ------------------------------------------------------

  lemma {:induction false} MarkedOrigin(sec: Section, reg: seq<Lease>, rest: seq<Lease>, forced: bool, v: View, it: Item)
    returns (l: Lease)
    requires it in Marked(sec, reg, rest, forced, v)
    ensures l in rest && PlanFor(sec, reg, l, v).b.Mark?
    ensures var p := PlanFor(sec, reg, l, v); it == Item(Row2(p, l, v), p.b.reason, WarrantFor(sec, l, forced, v))
    ensures it.snap.token == l.token
  {
    var p := PlanFor(sec, reg, rest[0], v);
    IdentityKept(p.a, rest[0], v);
    if p.b.Mark? && it == Item(Row2(p, rest[0], v), p.b.reason, WarrantFor(sec, rest[0], forced, v)) {
      l := rest[0];
    } else {
      l := MarkedOrigin(sec, reg, rest[1..], forced, v, it);
    }
  }

  lemma MarkedTokens(sec: Section, reg: seq<Lease>, rest: seq<Lease>, forced: bool, v: View, t: Token)
    requires forall l :: l in rest ==> l.token != t
    ensures forall it :: it in Marked(sec, reg, rest, forced, v) ==> it.snap.token != t
  {
    forall it | it in Marked(sec, reg, rest, forced, v) ensures it.snap.token != t {
      var l := MarkedOrigin(sec, reg, rest, forced, v, it);
    }
  }

  lemma FirstDistinct(items: seq<Item>, head: seq<Item>, t: Token)
    requires DistinctItems(items) && |head| <= 1 && (head != [] ==> head[0].snap.token == t)
    requires forall it :: it in items ==> it.snap.token != t
    ensures DistinctItems(head + items)
  {
  }

  lemma {:induction false} MarkedDistinct(sec: Section, reg: seq<Lease>, rest: seq<Lease>, forced: bool, v: View)
    requires UniqueTokens(rest)
    ensures DistinctItems(Marked(sec, reg, rest, forced, v))
  {
    if rest != [] {
      MarkedDistinct(sec, reg, rest[1..], forced, v);
      IdentityKept(PlanFor(sec, reg, rest[0], v).a, rest[0], v);
      forall l | l in rest[1..] ensures l.token != rest[0].token {
        var k :| 0 <= k < |rest[1..]| && rest[1..][k] == l;
        assert rest[k + 1] == l;
      }
      MarkedTokens(sec, reg, rest[1..], forced, v, rest[0].token);
      var p := PlanFor(sec, reg, rest[0], v);
      FirstDistinct(Marked(sec, reg, rest[1..], forced, v),
        if p.b.Mark? then [Item(Row2(p, rest[0], v), p.b.reason, WarrantFor(sec, rest[0], forced, v))] else [],
        rest[0].token);
    }
  }

  // The conditions under which a section may mark rows.
  predicate MayMark(sec: Section, forced: bool, v: View) {
    || (sec.ReleaseMark? && sec.force == forced)
    || (sec.GcMark? && (sec.scope.OfAnchor? && !forced ==> AnchorState(sec.scope.anchor, v) != Alive))
    || sec.Claim?
  }

  // Whatever marks a row is entitled to it: nothing protected is taken from another run,
  // except by force or through an anchor given without a fingerprint.
  lemma MarkIsWarranted(sec: Section, reg: seq<Lease>, l: Lease, forced: bool, v: View)
    requires MayMark(sec, forced, v) && PlanFor(sec, reg, l, v).b.Mark?
    ensures Warranted(WarrantFor(sec, l, forced, v))
  {
    if sec.GcMark? && sec.scope.OfAnchor? && sec.scope.anchor.started.Some? && l.owner.session.Some? {
      var given := sec.scope.anchor;
      assert SameAnchor(l.owner.session.value.anchor, given);
      assert AnchorState(l.owner.session.value.anchor, v) == AnchorState(given, v);
    }
  }

  // What an automatic or deliberate judgment says of a lease that was ever parked.
  lemma GcReasonRespects(l: Lease, h: Hist, scope: Scope, v: View)
    requires RowInv(l, h) && GcReason(l, scope, v).Some?
    ensures var reason := GcReason(l, scope, v).value;
      && (h.parks != [] && !GcParks(l, reason) ==> reason == ParkExpired || reason == TtlUnprovable)
      && (GcParks(l, reason) ==> l.parkedAt.None? && h.parks != [])
  {
  }

  lemma MarkedSame(p: Plan, l: Lease, v: View)
    requires (p.a == Nop || p.a == Reanchor) && p.b.Mark?
    ensures var r := Row2(p, l, v); r.owner.returnToPark == l.owner.returnToPark && r.mode == l.mode
  {
  }

  lemma MarkReasons(sec: Section, reg: seq<Lease>, l: Lease, v: View)
    requires PlanFor(sec, reg, l, v).b.Mark?
    ensures sec.GcMark? ==> GcReason(l, sec.scope, v) == Some(PlanFor(sec, reg, l, v).b.reason)
    ensures sec.Claim? ==> OwnerGone(PlanFor(sec, reg, l, v).b.reason)
  {
  }

  lemma MarkReason(sec: Section, reg: seq<Lease>, l: Lease, h: Hist, v: View)
    requires RowInv(l, h) && PlanFor(sec, reg, l, v).b.Mark?
    ensures var p := PlanFor(sec, reg, l, v);
      && (sec.GcMark? ==> ParkRespected(Item(Row2(p, l, v), p.b.reason, WarrantFor(sec, l, false, v)), h))
      && (sec.GcMark? && GcParks(Row2(p, l, v), p.b.reason) ==> l.parkedAt.None? && h.parks != [])
      && (sec.Claim? ==> OwnerGone(p.b.reason))
  {
    MarkReasons(sec, reg, l, v);
    MarkingOps(sec, reg, l, v);
    MarkedSame(PlanFor(sec, reg, l, v), l, v);
    if sec.GcMark? { GcReasonRespects(l, h, sec.scope, v); }
  }

  lemma MarkingOps(sec: Section, reg: seq<Lease>, l: Lease, v: View)
    requires PlanFor(sec, reg, l, v).b.Mark?
    ensures var p := PlanFor(sec, reg, l, v);
      (p.a == Nop || p.a == Reanchor) && p.c == Nop && (p.d == Nop || p.d == Shed) && !Removes(sec, l, v)
  {
  }

  lemma MarkedRow(p: Plan, l: Lease, v: View)
    requires v.Valid() && (p.a == Nop || p.a == Reanchor) && p.b.Mark?
    ensures var r := Row2(p, l, v);
      IsMine(r, v) && InProgress(r, v) && r.parkedAt == l.parkedAt && r.owner.server == l.owner.server
  {
  }

  lemma MarkingPlan(sec: Section, reg: seq<Lease>, l: Lease, h: Hist, v: View)
    requires v.Valid() && PlanFor(sec, reg, l, v).b.Mark?
    ensures var p := PlanFor(sec, reg, l, v);
      && IsMine(ApplyPlan(p, l, v), v) && ApplyPlan(p, l, v).parkedAt == l.parkedAt
      && Row2(p, l, v).owner.server == l.owner.server
      && HistPlan(p, l, h, v) == h && !Removes(sec, l, v)
  {
    MarkingOps(sec, reg, l, v);
    var p := PlanFor(sec, reg, l, v);
    MarkedRow(p, l, v);
    ShedSpares(p, l, h, v);
  }

  // The shed leaves a row in the hands of its marker alone.
  lemma ShedSpares(p: Plan, l: Lease, h: Hist, v: View)
    requires (p.a == Nop || p.a == Reanchor) && p.b.Mark? && p.c == Nop && (p.d == Nop || p.d == Shed)
    requires InProgress(Row2(p, l, v), v)
    ensures ApplyPlan(p, l, v) == Row2(p, l, v) && HistPlan(p, l, h, v) == h
  {
  }

  lemma FreshItem(s: Sys, a: Birth, sec: Section, forced: bool, v: View, ag': Agent, it: Item)
    requires Inv(s) && Sound(s, a, sec, v) && MayMark(sec, forced, v)
    requires it in Marked(sec, s.reg, s.reg, forced, v)
    requires ag'.host == s.agents[a].host && ag'.pid == s.agents[a].pid
    requires ag'.job.task.Gc? ==> sec.GcMark?
    requires ag'.job.task.Acquire? ==> sec.Claim? && (ag'.job.task.delete ==> it.snap.mode == Exclusive)
    ensures ItemInv(Commit(s, sec, v), ag', it)
  {
    var s' := Commit(s, sec, v);
    var l := MarkedOrigin(sec, s.reg, s.reg, forced, v, it);
    var t, h := l.token, s.hist[l.token];
    var p := PlanFor(sec, s.reg, l, v);
    MarkIsWarranted(sec, s.reg, l, forced, v);
    MarkingPlan(sec, s.reg, l, h, v);
    MarkReason(sec, s.reg, l, h, v);
    ApplyRow(sec, s.reg, s.hist, v, l);
    HistOfRow(sec, s.reg, s.hist, v, l);
    IdentityKept(p.a, l, v);
    IdentityKept(p.b, Row1(p, l, v), v);
    FreshItemInv(s', ag', it, h, v);
  }

  lemma FreshItemInv(s': Sys, ag': Agent, it: Item, h: Hist, v: View)
    requires var t := it.snap.token;
      && t in s'.hist && s'.hist[t] == h && SameIdentity(it.snap, h.minted)
      && ServerVouched(it.snap.owner.server, h) && Warranted(it.warrant)
      && HasToken(s'.reg, t) && IsMine(RowOf(s'.reg, t), v)
      && (ag'.job.task.Gc? ==> ParkRespected(it, h))
      && (ag'.job.task.Gc? && GcParks(it.snap, it.reason) ==> RowOf(s'.reg, t).parkedAt.None? && h.parks != [])
      && (ag'.job.task.Acquire? ==> OwnerGone(it.reason) && (ag'.job.task.delete ==> it.snap.mode == Exclusive))
    requires v.here == ag'.host && v.me == ag'.pid
    ensures ItemInv(s', ag', it)
  {
  }

  lemma FreshJob(s: Sys, a: Birth, sec: Section, forced: bool, v: View, task: Task)
    requires Inv(s) && Sound(s, a, sec, v) && MayMark(sec, forced, v)
    requires task.Gc? ==> sec.GcMark?
    requires task.Acquire? ==> sec.Claim? && ValidRequest(task.req, s.declared)
    requires !task.Idle?
    requires task.Acquire? && task.delete ==>
               forall it :: it in Marked(sec, s.reg, s.reg, forced, v) ==> it.snap.mode == Exclusive
    ensures var j := Job(task, Marked(sec, s.reg, s.reg, forced, v), 0, false, map[]);
      Inv(WithJob(Commit(s, sec, v), a, j))
  {
    var items := Marked(sec, s.reg, s.reg, forced, v);
    var j := Job(task, items, 0, false, map[]);
    var c := Commit(s, sec, v);
    var s' := WithJob(c, a, j);
    CommitKeepsRest(s, a, sec, v);
    MarkedDistinct(sec, s.reg, s.reg, forced, v);
    forall i | 0 <= i < |items| ensures ItemInv(s', s'.agents[a], items[i]) {
      FreshItem(s, a, sec, forced, v, s'.agents[a], items[i]);
      ItemSameRegistry(c, s', s'.agents[a], items[i]);
    }
    WithSoundJob(c, a, j);
  }

  lemma ItemSameRegistry(s: Sys, s': Sys, ag: Agent, it: Item)
    requires ItemInv(s, ag, it) && s'.reg == s.reg && s'.hist == s.hist && s'.lapsed == s.lapsed
    ensures ItemInv(s', ag, it)
  {
  }
}
