/** What the invariants mean: the promises of the allocator, for every run. */
module ReclaimTheorems {
  import opened Options
  import opened Leases
  import opened Liveness
  import opened RowOps
  import opened Sections
  import opened Throwaway
  import opened ReclaimSystem
  import opened ReclaimRows
  import opened ReclaimSafety
  import opened ReclaimRuns

  // ---- one reclaimer per row -------------------------------------------------------

  /** No two live processes ever work on the same row, in any interleaving and across crashes
      and pid reuse - unless some section acted past an off-host marker that had timed out. */
  lemma OneReclaimerPerRow(states: seq<Sys>, labels: seq<Label>, i: nat, a: Birth, b: Birth, t: Token)
    requires Run(states, labels) && i < |states|
    requires WorksOn(states[i], a, t) && WorksOn(states[i], b, t) && t !in states[i].lapsed
    ensures a == b
  {
    RunKeeps(states, labels, i);
    OneWorker(states[i], a, b, t);
  }

  // Two live processes work on the row of `t`.
  predicate TwoReclaimers(s: Sys, t: Token) {
    exists a, b :: a in s.agents && b in s.agents && a != b && WorksOn(s, a, t) && WorksOn(s, b, t)
  }

  predicate ListsToken(items: seq<Item>, t: Token) { exists i :: 0 <= i < |items| && items[i].snap.token == t }

  lemma ListsLater(head: seq<Item>, tail: seq<Item>, t: Token)
    requires ListsToken(tail, t) || (head != [] && head[0].snap.token == t)
    ensures ListsToken(head + tail, t)
  {
    if i :| 0 <= i < |tail| && tail[i].snap.token == t {
      assert (head + tail)[|head| + i] == tail[i];
    } else {
      assert (head + tail)[0] == head[0];
    }
  }

  lemma {:induction false} MarkedHas(sec: Section, reg: seq<Lease>, rest: seq<Lease>, forced: bool, v: View, l: Lease)
    requires l in rest && PlanFor(sec, reg, l, v).b.Mark?
    ensures ListsToken(Marked(sec, reg, rest, forced, v), l.token)
  {
    var p := PlanFor(sec, reg, rest[0], v);
    var head := if p.b.Mark? then [Item(Row2(p, rest[0], v), p.b.reason, WarrantFor(sec, rest[0], forced, v))] else [];
    if l == rest[0] {
      IdentityKept(p.a, l, v);
    } else {
      MarkedHas(sec, reg, rest[1..], forced, v, l);
    }
    ListsLater(head, Marked(sec, reg, rest[1..], forced, v), l.token);
  }

  // A gc or a release acts on a row exclusively only by marking it.
  lemma OnlyMarks(sec: Section, reg: seq<Lease>, l: Lease, v: View)
    requires (sec.GcMark? || sec.ReleaseMark?) && ActsExclusively(PlanFor(sec, reg, l, v))
    ensures PlanFor(sec, reg, l, v).b.Mark?
  {
  }

  lemma PlacerElsewhere(s: Sys, b: Birth, v: View, l: Lease) returns (a: Birth)
    requires Observes(s, b, v) && LapsedMarker(l, v) && PlacerAtWork(s, l)
    ensures a in s.agents && a != b && WorksOn(s, a, l.token)
  {
    a :| a in s.agents && MarkedBy(l, s.agents[a]) && WorksOn(s, a, l.token);
  }

  lemma StillWorking(s: Sys, lb: Label, a: Birth, t: Token)
    requires lb.Begin? && Enabled(s, lb) && a != lb.a && WorksOn(s, a, t)
    ensures WorksOn(Next(s, lb), a, t)
  {
  }

  lemma NowWorking(s: Sys, lb: Label, l: Lease)
    requires lb.Begin? && Enabled(s, lb) && l in s.reg && PlanFor(lb.sec, s.reg, l, lb.v).b.Mark?
    ensures WorksOn(Next(s, lb), lb.a, l.token)
  {
    MarkedHas(lb.sec, s.reg, s.reg, lb.forced, lb.v, l);
    assert Next(s, lb).agents[lb.a].job.items == Marked(lb.sec, s.reg, s.reg, lb.forced, lb.v);
  }

  /** The exception is exact for gc and release: at the very step at which one of them makes a token
      lapse, two live processes come to work on its row. */
  lemma LapseMeansTwo(s: Sys, lb: Label, t: Token)
    requires Inv(s) && Enabled(s, lb) && lb.Begin? && t !in s.lapsed
    ensures t in Next(s, lb).lapsed <==> TwoReclaimers(Next(s, lb), t)
  {
    if t in Next(s, lb).lapsed {
      var l :| l in s.reg && l.token in Overridden(lb.sec, s.reg, lb.v) && PlacerAtWork(s, l) && l.token == t;
      var m :| m in s.reg && m.token == t && LapsedMarker(m, lb.v) && ActsExclusively(PlanFor(lb.sec, s.reg, m, lb.v));
      RowOfUnique(s.reg, l);
      RowOfUnique(s.reg, m);
      OnlyMarks(lb.sec, s.reg, l, lb.v);
      var a := PlacerElsewhere(s, lb.a, lb.v, l);
      StillWorking(s, lb, a, t);
      NowWorking(s, lb, l);
    } else {
      BeginKeeps(s, lb);
      NotTwo(Next(s, lb), t);
    }
  }

  lemma NotTwo(s: Sys, t: Token)
    requires Inv(s) && t !in s.lapsed
    ensures !TwoReclaimers(s, t)
  {
    forall a, b | WorksOn(s, a, t) && WorksOn(s, b, t) ensures a == b {
      OneWorker(s, a, b, t);
    }
  }

  lemma OneWorker(s: Sys, a: Birth, b: Birth, t: Token)
    requires Inv(s) && WorksOn(s, a, t) && WorksOn(s, b, t) && t !in s.lapsed
    ensures a == b
  {
    var x :| 0 <= x < |s.agents[a].job.items| && s.agents[a].job.items[x].snap.token == t;
    var y :| 0 <= y < |s.agents[b].job.items| && s.agents[b].job.items[y].snap.token == t;
    assert ItemInv(s, s.agents[a], s.agents[a].job.items[x]);
    assert ItemInv(s, s.agents[b], s.agents[b].job.items[y]);
  }

  // Every agent and every marker belongs to one host.
  ghost predicate OneHost(s: Sys, h: Host) {
    && (forall a :: a in s.agents ==> s.agents[a].host == h)
    && (forall l :: l in s.reg && l.reclaiming.Some? ==> l.reclaiming.value.host == h)
    && s.lapsed == {}
  }

  lemma CommitOneHost(s: Sys, sec: Section, v: View, h: Host)
    requires OneHost(s, h) && v.here == h
    ensures OneHost(Commit(s, sec, v), h)
  {
    var s' := Commit(s, sec, v);
    forall r | r in s'.reg && r.reclaiming.Some? ensures r.reclaiming.value.host == h {
      var l := ApplyOrigin(sec, s.reg, v, r);
      if l in s.reg && r == Row(sec, s.reg, l, v) {
        var p := PlanFor(sec, s.reg, l, v);
        MarkersComeFromMe(p.a, l, v);
        MarkersComeFromMe(p.b, Row1(p, l, v), v);
        MarkersComeFromMe(p.c, Row2(p, l, v), v);
        MarkersComeFromMe(p.d, Row3(p, l, v), v);
      } else {
        MintedRow(sec, s.reg, v);
      }
    }
  }

  lemma PassOneHost(s: Sys, lb: Label, h: Host)
    requires Enabled(s, lb) && OneHost(s, h) && lb.Pass?
    ensures OneHost(Next(s, lb), h)
  {
    CommitOneHost(s, Settle(s.agents[lb.a].job.outcomes), lb.v, h);
    CommitOneHost(AfterSettle(s, lb.a, lb.v),
                  ClaimOf(s.agents[lb.a].job.task, lb.newToken, lb.bindable, lb.waiting), lb.v, h);
  }

  lemma SectionOneHost(s: Sys, lb: Label, h: Host)
    requires Enabled(s, lb) && OneHost(s, h) && (lb.Once? || lb.Begin? || lb.Finish?)
    ensures OneHost(Next(s, lb), h)
  {
    CommitOneHost(s, if lb.Finish? then Settle(s.agents[lb.a].job.outcomes) else lb.sec, lb.v, h);
  }

  lemma StepOneHost(s: Sys, lb: Label, h: Host)
    requires Enabled(s, lb) && OneHost(s, h) && (lb.Spawn? ==> lb.host == h)
    ensures OneHost(Next(s, lb), h)
  {
    if lb.Pass? { PassOneHost(s, lb, h); }
    else if lb.Once? || lb.Begin? || lb.Finish? { SectionOneHost(s, lb, h); }
  }

  // With every process on one host no marker ever lapses, so the exception above is empty.
  lemma {:induction false} OneHostNeverLapses(states: seq<Sys>, labels: seq<Label>, i: nat, h: Host)
    requires Run(states, labels) && i < |states|
    requires forall k :: 0 <= k < |labels| && labels[k].Spawn? ==> labels[k].host == h
    ensures OneHost(states[i], h)
  {
    if i > 0 {
      OneHostNeverLapses(states, labels, i - 1, h);
      StepOneHost(states[i - 1], labels[i - 1], h);
    }
  }

  /** On one host, in any interleaving of any number of gc, release and acquire processes, across
      crashes and pid reuse, no two live processes ever work on the same row. */
  lemma NoTwoReclaimers(states: seq<Sys>, labels: seq<Label>, i: nat, h: Host, a: Birth, b: Birth, t: Token)
    requires Run(states, labels) && i < |states|
    requires forall k :: 0 <= k < |labels| && labels[k].Spawn? ==> labels[k].host == h
    requires WorksOn(states[i], a, t) && WorksOn(states[i], b, t)
    ensures a == b
  {
    OneHostNeverLapses(states, labels, i, h);
    OneReclaimerPerRow(states, labels, i, a, b, t);
  }

  // ---- deletion ------------------------------------------------------------------------

  // A settle leaves every row it has not marked itself exactly as it was.
  lemma SettleLeavesOthers(outcomes: map<Token, Outcome>, reg: seq<Lease>, l: Lease, v: View)
    requires !IsMine(l, v)
    ensures !Removes(Settle(outcomes), l, v) && Row(Settle(outcomes), reg, l, v) == l
  {
  }

  lemma CommitKeepsRow(s: Sys, a: Birth, sec: Section, v: View, t: Token)
    requires Inv(s) && Sound(s, a, sec, v) && HasToken(s.reg, t)
    requires !Removes(sec, RowOf(s.reg, t), v)
    ensures HasToken(Commit(s, sec, v).reg, t)
    ensures RowOf(Commit(s, sec, v).reg, t) == Row(sec, s.reg, RowOf(s.reg, t), v)
  {
    ApplyRow(sec, s.reg, s.hist, v, RowOf(s.reg, t));
  }

  // A row leaves the registry only when the process that holds its marker settles it as deleted.
  lemma OnlyTheMarkerDeletes(s: Sys, lb: Label, t: Token)
    requires Inv(s) && Enabled(s, lb) && HasToken(s.reg, t) && !HasToken(Next(s, lb).reg, t)
    ensures lb.Finish? || lb.Pass?
    ensures var ag := s.agents[lb.a];
      Holds(s, ag, t) && t in ag.job.outcomes && ag.job.outcomes[t] == DeleteRow
  {
    if lb.Once? || lb.Begin? { MarkDeletesNothing(s, lb, t); }
    else if lb.Finish? { FinishDeletesOwn(s, lb, t); }
    else if lb.Pass? { PassDeletesOwn(s, lb, t); }
    else { OtherSteps(s, lb); }
  }

  lemma OtherSteps(s: Sys, lb: Label)
    requires Enabled(s, lb) && !lb.Once? && !lb.Begin? && !lb.Finish? && !lb.Pass?
    ensures Next(s, lb).hist == s.hist && Next(s, lb).reg == s.reg
  {
  }

  lemma MarkDeletesNothing(s: Sys, lb: Label, t: Token)
    requires Inv(s) && Enabled(s, lb) && HasToken(s.reg, t) && (lb.Once? || lb.Begin?)
    ensures HasToken(Next(s, lb).reg, t)
  {
    CommitKeepsRow(s, lb.a, lb.sec, lb.v, t);
  }

  lemma FinishDeletesOwn(s: Sys, lb: Label, t: Token)
    requires Inv(s) && lb.Finish? && Enabled(s, lb) && HasToken(s.reg, t) && !HasToken(Next(s, lb).reg, t)
    ensures var ag := s.agents[lb.a];
      Holds(s, ag, t) && t in ag.job.outcomes && ag.job.outcomes[t] == DeleteRow
  {
    SettleIsSound(s, lb.a, lb.v);
    SettleDeletesOwn(s, lb.a, lb.v, t);
  }

  lemma PassDeletesOwn(s: Sys, lb: Label, t: Token)
    requires Inv(s) && lb.Pass? && Enabled(s, lb) && HasToken(s.reg, t) && !HasToken(Next(s, lb).reg, t)
    ensures var ag := s.agents[lb.a];
      Holds(s, ag, t) && t in ag.job.outcomes && ag.job.outcomes[t] == DeleteRow
  {
    SettleIsSound(s, lb.a, lb.v);
    SettleDeletesOwn(s, lb.a, lb.v, t);
    if HasToken(Commit(s, Settle(s.agents[lb.a].job.outcomes), lb.v).reg, t) {
      ClaimDeletesNothing(s, lb, t);
    }
  }

  lemma SettleDeletesOwn(s: Sys, a: Birth, v: View, t: Token)
    requires Inv(s) && a in s.agents && Observes(s, a, v) && HasToken(s.reg, t)
    requires Sound(s, a, Settle(s.agents[a].job.outcomes), v)
    ensures HasToken(Commit(s, Settle(s.agents[a].job.outcomes), v).reg, t)
      || (Holds(s, s.agents[a], t) && t in s.agents[a].job.outcomes && s.agents[a].job.outcomes[t] == DeleteRow)
  {
    if !Removes(Settle(s.agents[a].job.outcomes), RowOf(s.reg, t), v) {
      CommitKeepsRow(s, a, Settle(s.agents[a].job.outcomes), v, t);
    }
  }

  lemma ClaimDeletesNothing(s: Sys, lb: Label, t: Token)
    requires Inv(s) && lb.Pass? && Enabled(s, lb)
    requires HasToken(Commit(s, Settle(s.agents[lb.a].job.outcomes), lb.v).reg, t)
    ensures HasToken(Next(s, lb).reg, t)
  {
    PassCommits(s, lb);
    CommitKeepsRow(AfterSettle(s, lb.a, lb.v), lb.a,
                   ClaimOf(s.agents[lb.a].job.task, lb.newToken, lb.bindable, lb.waiting), lb.v, t);
  }

  // What a step leaves of a token's history, and that a token gone stays gone.
  predicate Monotone(s: Sys, s': Sys, t: Token) {
    && t in s.hist && t in s'.hist && Grows(s.hist[t], s'.hist[t]) && s.hist[t].parks <= s'.hist[t].parks
    && (!HasToken(s.reg, t) ==> !HasToken(s'.reg, t))
  }

  lemma StepMintsAfresh(s: Sys, lb: Label, t: Token)
    requires Inv(s) && Enabled(s, lb) && t in s.hist
    ensures Monotone(s, Next(s, lb), t)
  {
    if lb.Once? || lb.Begin? { MarkMonotone(s, lb, t); }
    else if lb.Finish? { FinishMonotone(s, lb, t); }
    else if lb.Pass? { PassMonotone(s, lb, t); }
    else { OtherSteps(s, lb); }
  }

  lemma MarkMonotone(s: Sys, lb: Label, t: Token)
    requires Inv(s) && Enabled(s, lb) && t in s.hist && (lb.Once? || lb.Begin?)
    ensures Monotone(s, Next(s, lb), t)
  {
    CommitMonotone(s, lb.a, lb.sec, lb.v, t);
  }

  lemma FinishMonotone(s: Sys, lb: Label, t: Token)
    requires Inv(s) && Enabled(s, lb) && t in s.hist && lb.Finish?
    ensures Monotone(s, Next(s, lb), t)
  {
    SettleIsSound(s, lb.a, lb.v);
    CommitMonotone(s, lb.a, Settle(s.agents[lb.a].job.outcomes), lb.v, t);
  }

  lemma MonotoneThrough(s: Sys, c: Sys, s1: Sys, d: Sys, s2: Sys, t: Token)
    requires Monotone(s, c, t) && c.reg == s1.reg && c.hist == s1.hist
    requires Monotone(s1, d, t) && d.reg == s2.reg && d.hist == s2.hist
    ensures Monotone(s, s2, t)
  {
  }

  lemma PassMonotone(s: Sys, lb: Label, t: Token)
    requires Inv(s) && lb.Pass? && Enabled(s, lb) && t in s.hist
    ensures Monotone(s, Next(s, lb), t)
  {
    PassCommits(s, lb);
    var settle, s1 := Settle(s.agents[lb.a].job.outcomes), AfterSettle(s, lb.a, lb.v);
    var sec := ClaimOf(s.agents[lb.a].job.task, lb.newToken, lb.bindable, lb.waiting);
    CommitMonotone(s, lb.a, settle, lb.v, t);
    CommitMonotone(s1, lb.a, sec, lb.v, t);
    MonotoneThrough(s, Commit(s, settle, lb.v), s1, Commit(s1, sec, lb.v), Next(s, lb), t);
  }

  lemma ParksExtend(op: Op, l: Lease, h: Hist, v: View)
    ensures h.parks <= HistOp(op, l, h, v).parks
  {
  }

  lemma CommitMonotone(s: Sys, a: Birth, sec: Section, v: View, t: Token)
    requires Inv(s) && Sound(s, a, sec, v) && t in s.hist
    ensures Monotone(s, Commit(s, sec, v), t)
  {
    CommitHist(s, a, sec, v, t);
    if HasToken(s.reg, t) {
      var l := RowOf(s.reg, t);
      var p := PlanFor(sec, s.reg, l, v);
      OnlyFirstOpParks(sec, s.reg, l, v);
      PlanParks(p, l, s.hist[t], v);
      ParksExtend(p.a, l, s.hist[t], v);
      HistOfRow(sec, s.reg, s.hist, v, l);
    } else if HasToken(Apply(sec, s.reg, v), t) {
      var r := RowOf(Apply(sec, s.reg, v), t);
      var l := ApplyOrigin(sec, s.reg, v, r);
      RowKeepsToken(sec, s.reg, l, v);
      if l in s.reg { HasTokenOf(s.reg, l); }
    }
  }

  /** A token that has left the registry never comes back, so at most one process ever settles
      it as deleted. */
  lemma {:induction false} DeletedOnce(states: seq<Sys>, labels: seq<Label>, i: nat, j: nat, t: Token)
    requires Run(states, labels) && i <= j < |states|
    requires t in states[i].hist && !HasToken(states[i].reg, t)
    ensures t in states[j].hist && !HasToken(states[j].reg, t)
  {
    if i < j {
      DeletedOnce(states, labels, i, j - 1, t);
      RunKeeps(states, labels, j - 1);
      StepMintsAfresh(states[j - 1], labels[j - 1], t);
    }
  }

  // ---- identity --------------------------------------------------------------------------

  lemma {:induction false} HistoryGrows(states: seq<Sys>, labels: seq<Label>, i: nat, j: nat, t: Token)
    requires Run(states, labels) && i <= j < |states| && t in states[i].hist
    ensures t in states[j].hist && Grows(states[i].hist[t], states[j].hist[t])
    ensures states[i].hist[t].parks <= states[j].hist[t].parks
  {
    if i < j {
      HistoryGrows(states, labels, i, j - 1, t);
      RunKeeps(states, labels, j - 1);
      StepMintsAfresh(states[j - 1], labels[j - 1], t);
    }
  }

  /** Owner run, host, mode, database name and drop_on_release of a lease never change. */
  lemma IdentityForever(states: seq<Sys>, labels: seq<Label>, i: nat, j: nat, t: Token)
    requires Run(states, labels) && i <= j < |states|
    requires HasToken(states[i].reg, t) && HasToken(states[j].reg, t)
    ensures SameIdentity(RowOf(states[j].reg, t), RowOf(states[i].reg, t))
  {
    RunKeeps(states, labels, i);
    RunKeeps(states, labels, j);
    assert RowInv(RowOf(states[i].reg, t), states[i].hist[t]);
    assert RowInv(RowOf(states[j].reg, t), states[j].hist[t]);
    HistoryGrows(states, labels, i, j, t);
  }

  // ---- parked stays preserved ---------------------------------------------------------------

  /** A lease that was ever parked is, while its row exists, parked or flagged to return there
      with the budget of its latest park. */
  lemma ParkedStaysPreserved(states: seq<Sys>, labels: seq<Label>, i: nat, j: nat, t: Token)
    requires Run(states, labels) && i <= j < |states|
    requires HasToken(states[i].reg, t) && RowOf(states[i].reg, t).parkedAt.Some?
    requires HasToken(states[j].reg, t)
    ensures var l := RowOf(states[j].reg, t);
      && t in states[j].hist && LastBudget(states[j].hist[t].parks).Some?
      && if l.parkedAt.Some? then l.parkTtl == LastBudget(states[j].hist[t].parks)
         else l.owner.returnToPark && l.owner.returnTtl == LastBudget(states[j].hist[t].parks)
  {
    RunKeeps(states, labels, i);
    RunKeeps(states, labels, j);
    assert RowInv(RowOf(states[i].reg, t), states[i].hist[t]);
    assert RowInv(RowOf(states[j].reg, t), states[j].hist[t]);
    HistoryGrows(states, labels, i, j, t);
  }

  // gc drops the database of an ever-parked lease only for a spent park budget or the TTL arm.
  lemma GcSparesParked(s: Sys, a: Birth, result: DropResult)
    requires Inv(s) && Enabled(s, Drop(a, result)) && s.agents[a].job.task.Gc?
    ensures var it := CurrentItem(s, a).value; var t := it.snap.token;
      t in s.hist && (t !in s.lapsed && s.hist[t].parks != [] ==> it.reason == ParkExpired || it.reason == TtlUnprovable)
  {
    var it := CurrentItem(s, a).value;
    assert JobInv(s, a) && ItemInv(s, s.agents[a], it);
  }

  lemma SettleRowIs(outcomes: map<Token, Outcome>, reg: seq<Lease>, l: Lease, v: View)
    requires IsMine(l, v) && l.token in outcomes && outcomes[l.token] != DeleteRow
    ensures !Removes(Settle(outcomes), l, v)
    ensures Row(Settle(outcomes), reg, l, v) == ApplyOp(SettleOp(outcomes[l.token]), l, v)
  {
  }

  lemma FinishCommits(s: Sys, a: Birth, v: View)
    requires Enabled(s, Finish(a, v))
    ensures Next(s, Finish(a, v)).reg == Commit(s, Settle(s.agents[a].job.outcomes), v).reg
  {
  }

  // A settle does exactly its outcome's op to a row it holds.
  lemma SettledRow(s: Sys, a: Birth, v: View, t: Token)
    requires Inv(s) && Enabled(s, Finish(a, v)) && Holds(s, s.agents[a], t)
    requires t in s.agents[a].job.outcomes && s.agents[a].job.outcomes[t] != DeleteRow
    ensures var s' := Next(s, Finish(a, v));
      HasToken(s'.reg, t) && RowOf(s'.reg, t) == ApplyOp(SettleOp(s.agents[a].job.outcomes[t]), RowOf(s.reg, t), v)
  {
    var outcomes := s.agents[a].job.outcomes;
    FinishCommits(s, a, v);
    SettleIsSound(s, a, v);
    SettleRowIs(outcomes, s.reg, RowOf(s.reg, t), v);
    CommitKeepsRow(s, a, Settle(outcomes), v, t);
  }

  lemma ParkedOutcome(s: Sys, a: Birth, t: Token)
    requires Inv(s) && Running(s, a) && t in s.agents[a].job.outcomes && s.agents[a].job.outcomes[t] == ParkRow
    requires t !in s.lapsed
    ensures Holds(s, s.agents[a], t) && t in s.hist && RowInv(RowOf(s.reg, t), s.hist[t])
    ensures RowOf(s.reg, t).parkedAt.None? && s.hist[t].parks != []
  {
    var ag := s.agents[a];
    assert JobInv(s, a);
    var i :| 0 <= i < ag.job.cursor && ag.job.items[i].snap.token == t;
    assert ItemInv(s, ag, ag.job.items[i]) && OutcomeInv(s, ag, ag.job.items[i], ParkRow);
  }

  lemma ReparkedRow(l: Lease, h: Hist, v: View)
    requires RowInv(l, h) && l.parkedAt.None? && h.parks != []
    ensures LastBudget(h.parks).Some?
    ensures var r := ApplyOp(SettlePark, l, v); var budget := LastBudget(h.parks).value;
      && r.parkedAt == Some(v.now) && r.reclaiming.None? && r.owner.server == NO_SERVER
      && r.parkTtl == Some(if budget != 0 then budget else DEFAULT_PARK_TTL_S)
      && SameIdentity(r, l) && r.ports == l.ports
  {
  }

  /** When gc returns a lease to its park, the row is parked again with the budget of its latest
      park - the default when that budget was 0 - and keeps its identity and its ports. */
  lemma ReparkRestores(s: Sys, a: Birth, v: View, t: Token)
    requires Inv(s) && Enabled(s, Finish(a, v)) && t !in s.lapsed
    requires t in s.agents[a].job.outcomes && s.agents[a].job.outcomes[t] == ParkRow
    ensures var s' := Next(s, Finish(a, v));
      && HasToken(s.reg, t) && HasToken(s'.reg, t) && t in s.hist && LastBudget(s.hist[t].parks).Some?
      && var r := RowOf(s'.reg, t); var budget := LastBudget(s.hist[t].parks).value;
         && r.parkedAt == Some(v.now) && r.reclaiming.None? && r.owner.server == NO_SERVER
         && r.parkTtl == Some(if budget != 0 then budget else DEFAULT_PARK_TTL_S)
         && SameIdentity(r, RowOf(s.reg, t)) && r.ports == RowOf(s.reg, t).ports
  {
    ParkedOutcome(s, a, t);
    SettledRow(s, a, v, t);
    ReparkedRow(RowOf(s.reg, t), s.hist[t], v);
  }

  // ---- throwaway databases --------------------------------------------------------------------

  /** A throwaway row is deleted only by gc or release, and only when no database created under
      it is left - or a forced release has given this lease's database up by name. */
  lemma DeletionIsAccounted(s: Sys, lb: Label, t: Token)
    requires Inv(s) && Enabled(s, lb)
    requires HasToken(s.reg, t) && RowOf(s.reg, t).dropOnRelease && !HasToken(Next(s, lb).reg, t)
    ensures lb.Finish? && Accounted(s, t, RowOf(s.reg, t).dbName)
  {
    OnlyTheMarkerDeletes(s, lb, t);
    SettleIsSound(s, lb.a, lb.v);
    var l := RowOf(s.reg, t);
    assert SettleSound(s, lb.a, l, s.agents[lb.a].job.outcomes[t]);
    assert RowInv(l, s.hist[t]) && MintOk(t, s.hist[t]);
    if lb.Pass? { AcquireDeletesNoThrowaway(s, lb.a, t); }
  }

  lemma AcquireDeletesNoThrowaway(s: Sys, a: Birth, t: Token)
    requires Inv(s) && Running(s, a) && s.agents[a].job.task.Acquire?
    requires t in s.agents[a].job.outcomes && s.agents[a].job.outcomes[t] == DeleteRow
    ensures t in s.hist && s.hist[t].minted.mode == Exclusive && !s.hist[t].minted.dropOnRelease
  {
    var ag := s.agents[a];
    assert JobInv(s, a);
    var i :| 0 <= i < ag.job.cursor && ag.job.items[i].snap.token == t;
    assert ItemInv(s, ag, ag.job.items[i]) && OutcomeInv(s, ag, ag.job.items[i], DeleteRow);
    assert MintOk(t, s.hist[t]);
  }

  /** In every reachable state each database created under a throwaway lease either still has
      that lease in the registry, or a forced release of that very lease has given it up by name. */
  lemma NoOrphanedDatabase(states: seq<Sys>, labels: seq<Label>, i: nat, db: string)
    requires Run(states, labels) && i < |states| && db in states[i].dbs
    ensures var t := states[i].dbs[db];
      && t in states[i].hist && states[i].hist[t].minted.dbName == db
      && (states[i].hist[t].minted.dropOnRelease ==> HasToken(states[i].reg, t) || t in states[i].named)
  {
    RunKeeps(states, labels, i);
  }

  // Only gc and release drop, only ephemeral leases lose a database, and only one whose name
  // has the throwaway shape.
  lemma OnlyThrowawaysDie(s: Sys, a: Birth, result: DropResult)
    requires Inv(s) && Enabled(s, Drop(a, result)) && !result.NothingToDrop?
    ensures s.agents[a].job.task.Gc? || s.agents[a].job.task.Release?
    ensures var snap := CurrentItem(s, a).value.snap;
      snap.mode == Ephemeral && ThrowawayName(snap.dbName)
      && snap.token in s.hist && s.hist[snap.token].minted.dropOnRelease
  {
    var ag, it := s.agents[a], CurrentItem(s, a).value;
    assert JobInv(s, a) && ItemInv(s, ag, it);
    assert MintOk(it.snap.token, s.hist[it.snap.token]);
  }

  lemma KeptIs(l: Lease, v: View)
    ensures ApplyOp(SettleOp(KeepRow), l, v) == l.(reclaiming := None)
  {
  }

  // A failed drop leaves the row in place, unmarked and otherwise unchanged.
  lemma FailedDropKeepsRow(s: Sys, a: Birth, v: View, t: Token)
    requires Inv(s) && Enabled(s, Finish(a, v)) && Holds(s, s.agents[a], t)
    requires t in s.agents[a].job.outcomes && s.agents[a].job.outcomes[t] == KeepRow
    ensures var s' := Next(s, Finish(a, v));
      HasToken(s'.reg, t) && RowOf(s'.reg, t) == RowOf(s.reg, t).(reclaiming := None)
  {
    KeptIs(RowOf(s.reg, t), v);
    SettledRow(s, a, v, t);
  }

  // ---- resources ----------------------------------------------------------------------------------

  /** In every reachable state pooled leases hold disjoint, duplicate-free, undeclared ports,
      and no database has two exclusive holds. */
  lemma ResourcesNeverShared(states: seq<Sys>, labels: seq<Label>, i: nat)
    requires Run(states, labels) && i < |states|
    ensures PortsInv(states[i].reg, states[i].declared) && ExclusiveInv(states[i].reg)
  {
    RunKeeps(states, labels, i);
  }

  // ---- no theft -----------------------------------------------------------------------------------

  // The section, the force flag and the view a step acts with, when it may mark or park rows.
  function Acts(s: Sys, lb: Label): Option<(Section, bool, View)> {
    match lb
    case Once(_, sec, v) => Some((sec, sec.ParkLease? && sec.force, v))
    case Begin(_, sec, forced, _, v) => Some((sec, Forces(sec, forced), v))
    case Pass(a, newToken, bindable, waiting, v) =>
      if a in s.agents && s.agents[a].job.task.Acquire?
      then Some((ClaimOf(s.agents[a].job.task, newToken, bindable, waiting), false, v))
      else None
    case _ => None
  }

  predicate BlindAnchor(sec: Section) {
    sec.GcMark? && sec.scope.OfAnchor? && sec.scope.anchor.started.None?
  }

  predicate Foreign(l: Lease, v: View) { l.owner.runId != "" && l.owner.runId != v.caller.run }

  // A lease within its park budget, or whose session is alive while it is not parked.
  lemma ProtectedStays(s: Sys, lb: Label, reg: seq<Lease>, l: Lease)
    requires Enabled(s, lb) && Acts(s, lb).Some?
    requires var (sec, forced, v) := Acts(s, lb).value;
      !forced && !BlindAnchor(sec) && Foreign(l, v) && Protected(l, v)
    ensures var (sec, forced, v) := Acts(s, lb).value; !MarksOrParks(PlanFor(sec, reg, l, v))
  {
    var (sec, forced, v) := Acts(s, lb).value;
    if PlanFor(sec, reg, l, v).b.Mark? {
      MarkIsWarranted(sec, reg, l, forced, v);
    }
  }

  predicate MarksOrParks(p: Plan) {
    p.a.Mark? || p.b.Mark? || p.c.Mark? || p.d.Mark? || p.a.StampPark? || p.b.StampPark? || p.c.StampPark? || p.d.StampPark?
  }

  // An anchor given by its pid alone fits every session of that pid.
  predicate FitsBlindly(sec: Section, l: Lease, v: View) {
    && BlindAnchor(sec) && !InProgress(l, v) && l.parkedAt.None?
    && l.owner.session.Some? && l.owner.session.value.anchor.pid == sec.scope.anchor.pid
  }

  // The lease is parked within its budget, or its session is alive.
  predicate Shielded(l: Lease, v: View) {
    && l.mode != Shared
    && ((l.parkedAt.Some? && !ParkBudgetSpent(l, v))
        || (l.owner.session.Some? && LeaseAnchor(l, v) == Alive))
  }

  // A gc that judges the lease, when the lease has outlived its park budget.
  predicate OutlivesPark(sec: Section, l: Lease, v: View) {
    && sec.GcMark? && !sec.scope.OfAnchor? && !InProgress(l, v)
    && l.parkedAt.Some? && ParkBudgetSpent(l, v)
  }

  /** A section of another run that --force does not change takes such a lease if and only if it is
      a gc aimed at an anchor given without a fingerprint that has the pid of the lease's session,
      or a gc that finds the lease parked past its budget. */
  lemma TheftExactly(s: Sys, lb: Label, reg: seq<Lease>, l: Lease)
    requires Enabled(s, lb) && Acts(s, lb).Some?
    requires var (sec, forced, v) := Acts(s, lb).value; !forced && Foreign(l, v) && Shielded(l, v)
    ensures var (sec, forced, v) := Acts(s, lb).value;
      MarksOrParks(PlanFor(sec, reg, l, v)) <==> FitsBlindly(sec, l, v) || OutlivesPark(sec, l, v)
  {
    var (sec, forced, v) := Acts(s, lb).value;
    if l.parkedAt.Some? && ParkBudgetSpent(l, v) {
      SpentParkTaken(s, lb, reg, l);
    } else if BlindAnchor(sec) {
      BlindMarks(sec, reg, l, v);
    } else {
      ProtectedStays(s, lb, reg, l);
    }
  }

  lemma SpentParkTaken(s: Sys, lb: Label, reg: seq<Lease>, l: Lease)
    requires Enabled(s, lb) && Acts(s, lb).Some? && l.mode != Shared && l.parkedAt.Some?
    requires var (sec, forced, v) := Acts(s, lb).value; !forced && Foreign(l, v) && ParkBudgetSpent(l, v)
    ensures var (sec, forced, v) := Acts(s, lb).value;
      MarksOrParks(PlanFor(sec, reg, l, v)) <==> OutlivesPark(sec, l, v)
  {
  }

  /** No section of another run that --force does not change marks, or parks, a lease that is parked
      within its budget or whose session is alive, but for those two. */
  lemma NoTheft(s: Sys, lb: Label, reg: seq<Lease>, l: Lease)
    requires Enabled(s, lb) && Acts(s, lb).Some?
    requires var (sec, forced, v) := Acts(s, lb).value;
      !forced && Foreign(l, v) && Shielded(l, v) && !FitsBlindly(sec, l, v) && !OutlivesPark(sec, l, v)
    ensures var (sec, forced, v) := Acts(s, lb).value; var p := PlanFor(sec, reg, l, v);
      && !p.a.Mark? && !p.b.Mark? && !p.c.Mark? && !p.d.Mark?
      && !p.a.StampPark? && !p.b.StampPark? && !p.c.StampPark? && !p.d.StampPark?
  {
    TheftExactly(s, lb, reg, l);
  }

  lemma BlindMarks(sec: Section, reg: seq<Lease>, l: Lease, v: View)
    requires BlindAnchor(sec) && l.mode != Shared
    ensures MarksOrParks(PlanFor(sec, reg, l, v)) <==> FitsBlindly(sec, l, v)
  {
  }

  // The server of a work-list item is stopped only under a warrant from the moment of marking.
  lemma StopsAreWarranted(s: Sys, a: Birth, v: View)
    requires Inv(s) && Enabled(s, Stop(a, v))
    ensures Warranted(CurrentItem(s, a).value.warrant)
  {
    assert JobInv(s, a) && ItemInv(s, s.agents[a], CurrentItem(s, a).value);
  }

  // An anchor given without a fingerprint is never read as alive, so a gc aimed at it takes
  // the leases of a session that is running.
  lemma BlindAnchorTakesLiveSession(l: Lease, v: View, pid: Pid, started: Fingerprint)
    requires l.mode != Shared && l.parkedAt.None? && l.reclaiming.None? && l.owner.host == v.here
    requires l.owner.session.Some? && l.owner.session.value.anchor == Anchor(pid, Some(started), "")
    requires pid in v.live && v.live[pid] == started.birth && (started, pid) in v.comparable
    ensures LeaseAnchor(l, v) == Alive
    ensures var given := Anchor(pid, None, "");
      && AnchorState(given, v) != Alive
      && PlanFor(GcMark(OfAnchor(given)), [l], l, v).b == Mark(SessionEnded, GcVerb)
  {
  }

  /** A live session does not protect a parked lease: a gc takes it if and only if its park budget
      is spent. */
  lemma SpentParkIgnoresLiveSession(l: Lease, scope: Scope, v: View)
    requires l.parkedAt.Some? && !scope.OfAnchor? && !InProgress(l, v)
    requires l.mode != Shared && l.owner.session.Some? && LeaseAnchor(l, v) == Alive
    ensures PlanFor(GcMark(scope), [l], l, v).b == Mark(ParkExpired, GcVerb) <==> ParkBudgetSpent(l, v)
    ensures MarksOrParks(PlanFor(GcMark(scope), [l], l, v)) <==> ParkBudgetSpent(l, v)
  {
  }

  // ---- signals ------------------------------------------------------------------------------------

  // The lease and process group a step signals, if it signals one.
  function SignalOf(s: Sys, lb: Label): Option<(Lease, Pid, Proof)> {
    match lb
    case Stop(a, v) =>
      var it := CurrentItem(s, a);
      var target := if it.Some? then StopTarget(it.value.snap, v) else None;
      if target.Some? then Some((it.value.snap, target.value.0, target.value.1)) else None
    case Once(a, sec, v) =>
      if sec.ParkLease? && HasToken(s.reg, sec.token)
         && AnswerPark(RowOf(s.reg, sec.token), sec.force, v) == ParkDone
      then
        var l := RowOf(s.reg, sec.token);
        var target := StopTarget(l, v);
        if target.Some? then Some((l, target.value.0, target.value.1)) else None
      else None
    case _ => None
  }

  /** Every signal reaches a process that was handed to the lease or corroborated for it - the
      very same process, however often its pid was reused - or one corroborated right now; a
      fingerprint mismatch is never signalled. */
  lemma SignalSafety(s: Sys, lb: Label)
    requires Inv(s) && Enabled(s, lb) && SignalOf(s, lb).Some?
    ensures var (l, pid, proof) := SignalOf(s, lb).value;
      && l.token in s.hist && pid in lb.v.live
      && (proof == ByFingerprint ==>
            lb.v.live[pid] in s.hist[l.token].given || lb.v.live[pid] in s.hist[l.token].corroborated)
      && (proof != ByFingerprint ==> Corroboration(l, pid, lb.v) == Some(proof))
      && (RecordedFp(l.owner.server, pid).Some? ==>
            FpVerdict(RecordedFp(l.owner.server, pid).value, pid, lb.v) != Mismatch)
  {
    var (l, pid, proof) := SignalOf(s, lb).value;
    if lb.Stop? {
      assert JobInv(s, lb.a) && ItemInv(s, s.agents[lb.a], CurrentItem(s, lb.a).value);
    } else {
      assert RowInv(l, s.hist[l.token]);
    }
  }

  // A park signals no protected lease of another run either.
  lemma ParkSignalsOwnOnly(s: Sys, lb: Label)
    requires lb.Once? && SignalOf(s, lb).Some? && !lb.sec.force
    ensures !Foreign(SignalOf(s, lb).value.0, lb.v)
  {
  }

  lemma OpVouches(op: Op, l: Lease, h: Hist, v: View)
    ensures !op.Backfill? ==> HistOp(op, l, h, v).corroborated == h.corroborated
    ensures !op.BindServer? && !op.AttachServer? && !op.Unpark? ==> HistOp(op, l, h, v).given == h.given
  {
  }

  lemma VouchingOps(sec: Section, reg: seq<Lease>, l: Lease, v: View)
    ensures var p := PlanFor(sec, reg, l, v);
      && !p.a.Backfill? && !p.c.Backfill? && !p.d.Backfill?
      && (p.b.Backfill? ==> sec.Heartbeat? && p.a == Beat)
      && (forall op :: op in {p.b, p.c, p.d} ==> !op.BindServer? && !op.AttachServer? && !op.Unpark?)
  {
  }

  lemma PlanVouches(p: Plan, l: Lease, h: Hist, v: View)
    requires !p.a.Backfill? && !p.c.Backfill? && !p.d.Backfill?
    requires forall op :: op in {p.b, p.c, p.d} ==> !op.BindServer? && !op.AttachServer? && !op.Unpark?
    ensures HistPlan(p, l, h, v).corroborated == HistOp(p.b, Row1(p, l, v), Hist1(p, l, h, v), v).corroborated
    ensures HistPlan(p, l, h, v).given == HistOp(p.a, l, h, v).given
    ensures Hist1(p, l, h, v).corroborated == h.corroborated
  {
    OpVouches(p.a, l, h, v);
    OpVouches(p.b, Row1(p, l, v), Hist1(p, l, h, v), v);
    OpVouches(p.c, Row2(p, l, v), Hist2(p, l, h, v), v);
    OpVouches(p.d, Row3(p, l, v), Hist3(p, l, h, v), v);
  }

  lemma NewlyCorroborated(l: Lease, h: Hist, v: View, b: Birth)
    requires b in HistOp(Backfill, l.(heartbeatAt := v.now), h, v).corroborated && b !in h.corroborated
    ensures l.owner.host == v.here && l.owner.server.pid.Some? && l.owner.server.pid.value in v.live
    ensures b == v.live[l.owner.server.pid.value] && Corroboration(l, l.owner.server.pid.value, v).Some?
  {
  }

  // The pid a section hands to this row, and the one its heartbeat corroborates.
  predicate HandsOver(sec: Section, reg: seq<Lease>, l: Lease, v: View, b: Birth) {
    var op := PlanFor(sec, reg, l, v).a;
    (op.BindServer? || op.AttachServer? || op.Unpark?) && op.pid in v.live && b == v.live[op.pid]
  }

  predicate Corroborates(sec: Section, l: Lease, v: View, b: Birth) {
    && sec.Heartbeat? && l.owner.server.pid.Some? && l.owner.server.pid.value in v.live
    && b == v.live[l.owner.server.pid.value] && Corroboration(l, l.owner.server.pid.value, v).Some?
  }

  lemma RowVouching(sec: Section, reg: seq<Lease>, l: Lease, h: Hist, v: View, b: Birth)
    ensures var h' := HistPlan(PlanFor(sec, reg, l, v), l, h, v);
      && (b in h'.corroborated && b !in h.corroborated ==> Corroborates(sec, l, v, b))
      && (b in h'.given && b !in h.given ==> HandsOver(sec, reg, l, v, b))
  {
    var p := PlanFor(sec, reg, l, v);
    VouchingOps(sec, reg, l, v);
    PlanVouches(p, l, h, v);
    OpVouches(p.a, l, h, v);
    OpVouches(p.b, Row1(p, l, v), Hist1(p, l, h, v), v);
    if p.b.Backfill? && b in HistPlan(p, l, h, v).corroborated && b !in h.corroborated {
      NewlyCorroborated(l, Hist1(p, l, h, v), v, b);
    }
  }

  /** A process comes to be vouched for only by being handed over - it held the pid that a bind,
      attach or resume of this lease named at that moment - or by being corroborated right then
      by a heartbeat's back-fill. A bystander that inherits a pid is never vouched for. */
  lemma VouchingIsEarned(s: Sys, a: Birth, sec: Section, v: View, t: Token, b: Birth)
    requires Inv(s) && Sound(s, a, sec, v) && t in s.hist
    ensures var s' := Commit(s, sec, v);
      && t in s'.hist
      && (b in s'.hist[t].corroborated && b !in s.hist[t].corroborated ==>
            HasToken(s.reg, t) && Corroborates(sec, RowOf(s.reg, t), v, b))
      && (b in s'.hist[t].given && b !in s.hist[t].given ==>
            HasToken(s.reg, t) && HandsOver(sec, s.reg, RowOf(s.reg, t), v, b))
  {
    CommitHist(s, a, sec, v, t);
    if HasToken(s.reg, t) {
      HistOfRow(sec, s.reg, s.hist, v, RowOf(s.reg, t));
      RowVouching(sec, s.reg, RowOf(s.reg, t), s.hist[t], v, b);
    }
  }

  // The step vouches for `b`: it mints the lease with the pid of `b`, hands that pid to it, or
  // finds `b` corroborated.
  ghost predicate Earns(s: Sys, lb: Label, t: Token, b: Birth)
    requires Enabled(s, lb)
  {
    || (t !in s.hist && t in Next(s, lb).hist && (lb.Once? || lb.Pass?)
        && Next(s, lb).hist[t].minted.owner.server.pid.Some?
        && b in Holder(Next(s, lb).hist[t].minted.owner.server.pid.value, lb.v))
    || (lb.Once? && HasToken(s.reg, t)
        && (Corroborates(lb.sec, RowOf(s.reg, t), lb.v, b) || HandsOver(lb.sec, s.reg, RowOf(s.reg, t), lb.v, b)))
  }

  predicate IsVouched(hist: map<Token, Hist>, t: Token, b: Birth) {
    t in hist && (b in hist[t].given || b in hist[t].corroborated)
  }

  // A mark, a settle or a claim vouches for nobody.
  lemma QuietVouches(sec: Section, reg: seq<Lease>, l: Lease, v: View, b: Birth)
    requires sec.GcMark? || sec.ReleaseMark? || sec.Settle? || sec.Claim?
    ensures !Corroborates(sec, l, v, b) && !HandsOver(sec, reg, l, v, b)
  {
  }

  lemma FirstVouched(sec: Section, reg: seq<Lease>, hist: map<Token, Hist>, v: View, t: Token)
    requires t !in hist && t in HistAfter(sec, reg, hist, v)
    ensures Mints(sec, reg, v).Some? && Mints(sec, reg, v).value.token == t
    ensures HistAfter(sec, reg, hist, v)[t] == FirstHist(Mints(sec, reg, v).value, v)
  {
  }

  lemma CommitVouches(s: Sys, a: Birth, sec: Section, v: View, t: Token, b: Birth)
    requires Inv(s) && Sound(s, a, sec, v) && IsVouched(Commit(s, sec, v).hist, t, b) && t in s.hist
    ensures IsVouched(s.hist, t, b)
      || (HasToken(s.reg, t) && (Corroborates(sec, RowOf(s.reg, t), v, b) || HandsOver(sec, s.reg, RowOf(s.reg, t), v, b)))
  {
    VouchingIsEarned(s, a, sec, v, t, b);
  }

  predicate Quiet(sec: Section) { sec.GcMark? || sec.ReleaseMark? || sec.Settle? || sec.Claim? }

  lemma QuietCommit(s: Sys, a: Birth, sec: Section, v: View, t: Token, b: Birth)
    requires Inv(s) && Sound(s, a, sec, v) && IsVouched(Commit(s, sec, v).hist, t, b) && t in s.hist && Quiet(sec)
    ensures IsVouched(s.hist, t, b)
  {
    CommitVouches(s, a, sec, v, t, b);
    if HasToken(s.reg, t) { QuietVouches(sec, s.reg, RowOf(s.reg, t), v, b); }
  }

  lemma QuietTwice(s: Sys, s1: Sys, a: Birth, settle: Section, sec: Section, v: View, t: Token, b: Birth)
    requires Inv(s) && Sound(s, a, settle, v) && Quiet(settle) && s1.hist == Commit(s, settle, v).hist
    requires Inv(s1) && Sound(s1, a, sec, v) && Quiet(sec)
    requires t in s.hist && t in s1.hist && IsVouched(Commit(s1, sec, v).hist, t, b)
    ensures IsVouched(s.hist, t, b)
  {
    QuietCommit(s1, a, sec, v, t, b);
    QuietCommit(s, a, settle, v, t, b);
  }

  lemma PassMints(s: Sys, lb: Label, s1: Sys, sec: Section, t: Token, b: Birth)
    requires Enabled(s, lb) && lb.Pass? && t !in s.hist && s1.hist.Keys == s.hist.Keys
    requires Next(s, lb).hist == HistAfter(sec, s1.reg, s1.hist, lb.v) && sec.Claim?
    requires IsVouched(Next(s, lb).hist, t, b)
    ensures Earns(s, lb, t, b)
  {
    FirstVouched(sec, s1.reg, s1.hist, lb.v, t);
  }

  lemma SettleKeys(s: Sys, a: Birth, v: View)
    requires a in s.agents && s.agents[a].job.task.Acquire?
    ensures AfterSettle(s, a, v).hist.Keys == s.hist.Keys
  {
  }

  lemma PassVouches(s: Sys, lb: Label, t: Token, b: Birth)
    requires Inv(s) && lb.Pass? && Enabled(s, lb) && IsVouched(Next(s, lb).hist, t, b)
    ensures IsVouched(s.hist, t, b) || Earns(s, lb, t, b)
  {
    PassCommits(s, lb);
    SettleKeys(s, lb.a, lb.v);
    var s1 := AfterSettle(s, lb.a, lb.v);
    var sec := ClaimOf(s.agents[lb.a].job.task, lb.newToken, lb.bindable, lb.waiting);
    if t in s.hist {
      QuietTwice(s, s1, lb.a, Settle(s.agents[lb.a].job.outcomes), sec, lb.v, t, b);
    } else {
      PassMints(s, lb, s1, sec, t, b);
    }
  }

  lemma OnceVouches(s: Sys, lb: Label, t: Token, b: Birth)
    requires Inv(s) && lb.Once? && Enabled(s, lb) && IsVouched(Next(s, lb).hist, t, b)
    ensures IsVouched(s.hist, t, b) || Earns(s, lb, t, b)
  {
    if t in s.hist {
      CommitVouches(s, lb.a, lb.sec, lb.v, t, b);
    } else {
      FirstVouched(lb.sec, s.reg, s.hist, lb.v, t);
    }
  }

  lemma BeginVouches(s: Sys, lb: Label, t: Token, b: Birth)
    requires Inv(s) && lb.Begin? && Enabled(s, lb) && IsVouched(Next(s, lb).hist, t, b)
    ensures IsVouched(s.hist, t, b)
  {
    QuietCommit(s, lb.a, lb.sec, lb.v, t, b);
  }

  lemma FinishVouches(s: Sys, lb: Label, t: Token, b: Birth)
    requires Inv(s) && lb.Finish? && Enabled(s, lb) && IsVouched(Next(s, lb).hist, t, b)
    ensures IsVouched(s.hist, t, b)
  {
    SettleIsSound(s, lb.a, lb.v);
    QuietCommit(s, lb.a, Settle(s.agents[lb.a].job.outcomes), lb.v, t, b);
  }

  lemma StepVouches(s: Sys, lb: Label, t: Token, b: Birth)
    requires Inv(s) && Enabled(s, lb) && IsVouched(Next(s, lb).hist, t, b)
    ensures IsVouched(s.hist, t, b) || Earns(s, lb, t, b)
  {
    if lb.Once? { OnceVouches(s, lb, t, b); }
    else if lb.Begin? { BeginVouches(s, lb, t, b); }
    else if lb.Finish? { FinishVouches(s, lb, t, b); }
    else if lb.Pass? { PassVouches(s, lb, t, b); }
    else { OtherSteps(s, lb); }
  }

  /** In every run, a process that a lease's fingerprints speak for was at some earlier step given
      to it - by the acquire that minted it, a bind, an attach or a resume - or corroborated for it
      by a heartbeat. A bystander that inherits a pid is never recorded. */
  lemma {:induction false} NoBystanderRecorded(states: seq<Sys>, labels: seq<Label>, i: nat, t: Token, b: Birth)
    requires Run(states, labels) && i < |states| && IsVouched(states[i].hist, t, b)
    ensures exists k :: 0 <= k < i && Enabled(states[k], labels[k]) && Earns(states[k], labels[k], t, b)
  {
    if i > 0 {
      RunKeeps(states, labels, i - 1);
      assert Enabled(states[i - 1], labels[i - 1]) && states[i] == Next(states[i - 1], labels[i - 1]);
      StepVouches(states[i - 1], labels[i - 1], t, b);
      if IsVouched(states[i - 1].hist, t, b) {
        NoBystanderRecorded(states, labels, i - 1, t, b);
      }
    }
  }

  // A fingerprint the row records of its server.
  predicate Records(l: Lease, f: Fingerprint) {
    l.owner.server.fp == Some(f) || l.owner.server.started == Some(f)
  }

  /** In every reachable state, whichever fingerprint a row records is that of a process given to
      the lease, or corroborated for it, at an earlier step. */
  lemma FingerprintsAreEarned(states: seq<Sys>, labels: seq<Label>, i: nat, l: Lease, f: Fingerprint)
    requires Run(states, labels) && i < |states| && l in states[i].reg && Records(l, f)
    ensures exists k :: 0 <= k < i && Enabled(states[k], labels[k]) && Earns(states[k], labels[k], l.token, f.birth)
  {
    RunKeeps(states, labels, i);
    assert RowInv(l, states[i].hist[l.token]);
    NoBystanderRecorded(states, labels, i, l.token, f.birth);
  }

  /** So every signal of a run reaches a process that was given to the lease or corroborated for it
      at an earlier step, or one that is corroborated at this very moment. */
  lemma SignalsReachOwn(states: seq<Sys>, labels: seq<Label>, i: nat)
    requires Run(states, labels) && i < |labels| && SignalOf(states[i], labels[i]).Some?
    ensures var (l, pid, proof) := SignalOf(states[i], labels[i]).value;
      && pid in labels[i].v.live
      && var b := labels[i].v.live[pid];
         || Corroboration(l, pid, labels[i].v).Some?
         || exists k :: 0 <= k < i && Enabled(states[k], labels[k]) && Earns(states[k], labels[k], l.token, b)
  {
    RunKeeps(states, labels, i);
    SignalSafety(states[i], labels[i]);
    var (l, pid, proof) := SignalOf(states[i], labels[i]).value;
    if proof == ByFingerprint {
      NoBystanderRecorded(states, labels, i, l.token, labels[i].v.live[pid]);
    }
  }

  // ---- resume -----------------------------------------------------------------------------------

  function Stamps(parks: seq<ParkEvent>): nat {
    if parks == [] then 0 else Stamps(parks[..|parks| - 1]) + if parks[|parks| - 1].Stamped? then 1 else 0
  }

  function Resumes(parks: seq<ParkEvent>): nat {
    if parks == [] then 0 else Resumes(parks[..|parks| - 1]) + if parks[|parks| - 1].Resumed? then 1 else 0
  }

  lemma {:induction false} AlternationCounts(parks: seq<ParkEvent>)
    requires Alternates(parks)
    ensures Resumes(parks) <= Stamps(parks) <= Resumes(parks) + 1
    ensures parks != [] ==> (Stamps(parks) == Resumes(parks) <==> parks[|parks| - 1].Resumed?)
  {
    if parks != [] {
      var before := parks[..|parks| - 1];
      assert before != [] ==> before[0] == parks[0];
      forall i | 0 <= i < |before| - 1 ensures before[i].Stamped? <==> before[i + 1].Resumed? {
        assert before[i] == parks[i] && before[i + 1] == parks[i + 1];
      }
      AlternationCounts(before);
      if before != [] { assert before[|before| - 1] == parks[|parks| - 2]; }
    }
  }

  lemma {:induction false} PairedCounts(parks: seq<ParkEvent>)
    requires Paired(parks)
    ensures Resumes(parks) <= Stamps(parks)
    ensures parks != [] && parks[|parks| - 1].Stamped? ==> Resumes(parks) < Stamps(parks)
  {
    if parks != [] {
      var before := parks[..|parks| - 1];
      forall i | 0 <= i < |before| && before[i].Resumed? ensures i > 0 && before[i - 1].Stamped? {
        assert before[i] == parks[i] && before[i - 1] == parks[i - 1];
      }
      PairedCounts(before);
      if before != [] { assert before[|before| - 1] == parks[|parks| - 2]; }
    }
  }

  /** In every run, whatever times out: each successful resume takes the lease out of the park that
      was stamped just before it, so that the resumes never exceed the stamps. On a token that never
      lapsed they alternate strictly, and the row is parked exactly while one stamp is ahead. */
  lemma ResumesAlternate(states: seq<Sys>, labels: seq<Label>, i: nat, t: Token)
    requires Run(states, labels) && i < |states| && t in states[i].hist
    ensures var parks := states[i].hist[t].parks;
      && Paired(parks) && Resumes(parks) <= Stamps(parks)
      && (t !in states[i].lapsed ==>
            && Alternates(parks)
            && (HasToken(states[i].reg, t) ==>
                  (RowOf(states[i].reg, t).parkedAt.Some? <==> Stamps(parks) == Resumes(parks) + 1)))
  {
    RunKeeps(states, labels, i);
    PairedCounts(states[i].hist[t].parks);
    if t !in states[i].lapsed { AlternationCounts(states[i].hist[t].parks); }
    if HasToken(states[i].reg, t) { assert RowInv(RowOf(states[i].reg, t), states[i].hist[t]); }
  }

  lemma {:induction false} NothingRewritten(sec: Section, reg: seq<Lease>, rest: seq<Lease>, v: View)
    requires forall l :: l in rest ==> !Removes(sec, l, v) && Row(sec, reg, l, v) == l
    ensures Rewrite(sec, reg, rest, v) == rest
  {
    if rest != [] { NothingRewritten(sec, reg, rest[1..], v); }
  }

  lemma WinningResume(reg: seq<Lease>, l: Lease, pid: Pid, present: Option<bool>, v: View)
    requires AnswerResume(l, pid, present, v) == ResumeDone
    ensures var r := Row(ResumeLease(l.token, pid, present), reg, l, v);
      && l.parkedAt.Some? && r == ApplyOp(Unpark(pid), l, v)
      && r.parkedAt.None? && r.parkTtl.None? && r.parkedBoot.None?
      && (pid != 0 ==> r.owner.server.pid == Some(pid))
      && r.owner.returnToPark && SameIdentity(r, l)
  {
  }

  lemma LosingResume(reg: seq<Lease>, token: Token, pid: Pid, present: Option<bool>, v: View, l: Lease)
    requires l.token == token ==> AnswerResume(l, pid, present, v) != ResumeDone
    ensures Row(ResumeLease(token, pid, present), reg, l, v) == l
  {
  }

  /** A resume either wins - the row is unparked, holds the given pid and none of the three park
      keys - or changes nothing in the registry. */
  lemma ResumeIsCompareAndSet(reg: seq<Lease>, token: Token, pid: Pid, present: Option<bool>, v: View)
    requires UniqueTokens(reg)
    ensures var reg' := Apply(ResumeLease(token, pid, present), reg, v);
      if HasToken(reg, token) && AnswerResume(RowOf(reg, token), pid, present, v) == ResumeDone
      then
        && RowOf(reg, token).parkedAt.Some? && HasToken(reg', token)
        && var r := RowOf(reg', token);
           && r.parkedAt.None? && r.parkTtl.None? && r.parkedBoot.None?
           && (pid != 0 ==> r.owner.server.pid == Some(pid))
           && r.owner.returnToPark && SameIdentity(r, RowOf(reg, token))
      else reg' == reg
  {
    var sec := ResumeLease(token, pid, present);
    if HasToken(reg, token) && AnswerResume(RowOf(reg, token), pid, present, v) == ResumeDone {
      var l := RowOf(reg, token);
      RewriteTokens(sec, reg, reg, v);
      RewriteKeeps(sec, reg, reg, v, l);
      RowKeepsToken(sec, reg, l, v);
      RowOfUnique(Apply(sec, reg, v), Row(sec, reg, l, v));
      WinningResume(reg, l, pid, present, v);
    } else {
      forall l | l in reg ensures Row(sec, reg, l, v) == l {
        RowOfUnique(reg, l);
        LosingResume(reg, token, pid, present, v, l);
      }
      NothingRewritten(sec, reg, reg, v);
    }
  }
}
