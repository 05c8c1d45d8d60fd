/** What one critical section does to the registry as a whole: rows keep their invariants,
    ports stay disjoint, exclusive holds stay unique, and a row another live process is
    reclaiming is left to it. */
module ReclaimRows {
  import opened Options
  import opened Leases
  import opened Liveness
  import opened RowOps
  import opened Sections
  import opened Ports
  import opened ReclaimSystem

  ghost predicate RowsInv(reg: seq<Lease>, hist: map<Token, Hist>) {
    && UniqueTokens(reg)
    && forall l :: l in reg ==> l.token in hist && RowInv(l, hist[l.token])
  }

  predicate NoDuplicates(ps: seq<int>) {
    forall i, j :: 0 <= i < j < |ps| ==> ps[i] != ps[j]
  }

  predicate Disjoint(a: seq<int>, b: seq<int>) { forall p :: p in a ==> p !in b }

  // Pooled leases hold pairwise disjoint, duplicate-free ports, none of them declared.
  ghost predicate PortsInv(reg: seq<Lease>, declared: set<int>) {
    && (forall l :: l in reg && l.mode != Shared ==> NoDuplicates(l.ports) && forall p :: p in l.ports ==> p !in declared)
    && (forall l, m :: l in reg && m in reg && l.token != m.token && l.mode != Shared && m.mode != Shared ==>
          Disjoint(l.ports, m.ports))
  }

  // At most one exclusive hold per database.
  ghost predicate ExclusiveInv(reg: seq<Lease>) {
    forall l, m :: l in reg && m in reg && l.mode == Exclusive && m.mode == Exclusive && l.dbName == m.dbName ==>
      l.token == m.token
  }

  // The settle of a section only parks rows that may be parked.
  ghost predicate SettlesFairly(sec: Section, reg: seq<Lease>) {
    sec.Settle? ==> forall l :: l in reg && l.token in sec.outcomes && sec.outcomes[l.token] == ParkRow ==> l.mode != Shared
  }

  ghost predicate MintsFresh(sec: Section, reg: seq<Lease>, hist: map<Token, Hist>, declared: set<int>, v: View) {
    Mints(sec, reg, v).Some? ==>
      && Mints(sec, reg, v).value.token !in hist
      && (sec.Claim? ==> ValidRequest(sec.req, declared))
  }

  // ---- rows of the registry after a commit ---------------------------------------

  lemma ApplyOrigin(sec: Section, reg: seq<Lease>, v: View, r: Lease) returns (l: Lease)
    requires r in Apply(sec, reg, v)
    ensures (l in reg && !Removes(sec, l, v) && r == Row(sec, reg, l, v))
         || (Mints(sec, reg, v) == Some(l) && r == Shedded(l, v))
  {
    if r in Rewrite(sec, reg, reg, v) {
      l := RewriteOrigin(sec, reg, reg, v, r);
    } else {
      l := Mints(sec, reg, v).value;
    }
  }

  lemma HasTokenOf(reg: seq<Lease>, l: Lease)
    requires l in reg
    ensures HasToken(reg, l.token)
  {
    var i :| 0 <= i < |reg| && reg[i] == l;
    assert reg[i].token == l.token;
  }

  lemma ApplyUnique(sec: Section, reg: seq<Lease>, hist: map<Token, Hist>, v: View)
    requires RowsInv(reg, hist)
    requires Mints(sec, reg, v).Some? ==> Mints(sec, reg, v).value.token !in hist
    ensures UniqueTokens(Apply(sec, reg, v))
  {
    RewriteTokens(sec, reg, reg, v);
    var rs := Rewrite(sec, reg, reg, v);
    forall i | 0 <= i < |rs| && Mints(sec, reg, v).Some? ensures rs[i].token != Mints(sec, reg, v).value.token {
      assert rs[i] in rs;
      var j :| 0 <= j < |reg| && reg[j].token == rs[i].token;
      assert reg[j] in reg;
    }
  }

  lemma ApplyRow(sec: Section, reg: seq<Lease>, hist: map<Token, Hist>, v: View, l: Lease)
    requires RowsInv(reg, hist) && l in reg && !Removes(sec, l, v)
    requires Mints(sec, reg, v).Some? ==> Mints(sec, reg, v).value.token !in hist
    ensures HasToken(Apply(sec, reg, v), l.token)
    ensures RowOf(Apply(sec, reg, v), l.token) == Row(sec, reg, l, v)
  {
    ApplyUnique(sec, reg, hist, v);
    RewriteKeeps(sec, reg, reg, v, l);
    RowKeepsToken(sec, reg, l, v);
    RowOfUnique(Apply(sec, reg, v), Row(sec, reg, l, v));
  }

  // The history of a row that was already there.
  lemma HistOfRow(sec: Section, reg: seq<Lease>, hist: map<Token, Hist>, v: View, l: Lease)
    requires RowsInv(reg, hist) && l in reg
    requires Mints(sec, reg, v).Some? ==> Mints(sec, reg, v).value.token !in hist
    ensures l.token in HistAfter(sec, reg, hist, v)
    ensures HistAfter(sec, reg, hist, v)[l.token] == HistPlan(PlanFor(sec, reg, l, v), l, hist[l.token], v)
  {
    RowOfUnique(reg, l);
  }

  lemma MintedRow(sec: Section, reg: seq<Lease>, v: View)
    requires Mints(sec, reg, v).Some?
    ensures var m := Mints(sec, reg, v).value;
      RowInv(Shedded(m, v), FirstHist(m, v)) && m.reclaiming.None? && m.parkedAt.None?
  {
  }

  lemma RowsKept(sec: Section, reg: seq<Lease>, hist: map<Token, Hist>, declared: set<int>, v: View)
    requires RowsInv(reg, hist) && SettlesFairly(sec, reg) && MintsFresh(sec, reg, hist, declared, v)
    ensures RowsInv(Apply(sec, reg, v), HistAfter(sec, reg, hist, v))
  {
    ApplyUnique(sec, reg, hist, v);
    var hist' := HistAfter(sec, reg, hist, v);
    forall r | r in Apply(sec, reg, v) ensures r.token in hist' && RowInv(r, hist'[r.token]) {
      var l := ApplyOrigin(sec, reg, v, r);
      if l in reg && r == Row(sec, reg, l, v) {
        RowKeepsToken(sec, reg, l, v);
        HistOfRow(sec, reg, hist, v, l);
        SectionAllowed(sec, reg, l, v);
        PlanKeepsRow(PlanFor(sec, reg, l, v), l, hist[l.token], v);
      } else {
        MintedRow(sec, reg, v);
      }
    }
  }

  // ---- ports and exclusive holds ---------------------------------------------------

  // A pooled row never gains a port.
  lemma PortsShrink(sec: Section, reg: seq<Lease>, l: Lease, v: View)
    requires l.mode != Shared
    ensures Row(sec, reg, l, v).ports in {l.ports, []}
  {
    var p := PlanFor(sec, reg, l, v);
    IdentityKept(p.a, l, v);
    IdentityKept(p.b, Row1(p, l, v), v);
    IdentityKept(p.c, Row2(p, l, v), v);
    IdentityKept(p.d, Row3(p, l, v), v);
  }

  lemma MintedPorts(sec: Section, reg: seq<Lease>, declared: set<int>, v: View)
    requires Mints(sec, reg, v).Some? && (sec.Claim? ==> ValidRequest(sec.req, declared))
    ensures var m := Mints(sec, reg, v).value; m.mode != Shared ==>
      && NoDuplicates(m.ports)
      && forall p :: p in m.ports ==> p !in declared && p !in PortsInUse(reg)
  {
    if sec.Claim? && sec.req.nPorts > 0 {
      PickPortsFirstFit(sec.req.base, sec.req.size, sec.req.nPorts, PortsInUse(reg) + sec.req.reserved, sec.bindable);
    }
  }

  lemma PortsKept(sec: Section, reg: seq<Lease>, hist: map<Token, Hist>, declared: set<int>, v: View)
    requires RowsInv(reg, hist) && MintsFresh(sec, reg, hist, declared, v) && PortsInv(reg, declared)
    ensures PortsInv(Apply(sec, reg, v), declared)
  {
    var reg' := Apply(sec, reg, v);
    forall r | r in reg' && r.mode != Shared
      ensures NoDuplicates(r.ports) && forall p :: p in r.ports ==> p !in declared
    {
      var l := ApplyOrigin(sec, reg, v, r);
      if l in reg && r == Row(sec, reg, l, v) {
        RowKeepsToken(sec, reg, l, v);
        PortsShrink(sec, reg, l, v);
      } else {
        MintedPorts(sec, reg, declared, v);
      }
    }
    forall r, q | r in reg' && q in reg' && r.token != q.token && r.mode != Shared && q.mode != Shared
      ensures Disjoint(r.ports, q.ports)
    {
      PairDisjoint(sec, reg, declared, v, r, q);
    }
  }

  lemma PairDisjoint(sec: Section, reg: seq<Lease>, declared: set<int>, v: View, r: Lease, q: Lease)
    requires PortsInv(reg, declared) && (Mints(sec, reg, v).Some? && sec.Claim? ==> ValidRequest(sec.req, declared))
    requires r in Apply(sec, reg, v) && q in Apply(sec, reg, v)
    requires r.token != q.token && r.mode != Shared && q.mode != Shared
    ensures Disjoint(r.ports, q.ports)
  {
    var l := ApplyOrigin(sec, reg, v, r);
    var m := ApplyOrigin(sec, reg, v, q);
    RowKeepsToken(sec, reg, l, v);
    RowKeepsToken(sec, reg, m, v);
    if l.mode != Shared { PortsShrink(sec, reg, l, v); }
    if m.mode != Shared { PortsShrink(sec, reg, m, v); }
    if Mints(sec, reg, v).Some? { MintedPorts(sec, reg, declared, v); }
  }

  lemma ExclusiveKept(sec: Section, reg: seq<Lease>, v: View)
    requires ExclusiveInv(reg)
    ensures ExclusiveInv(Apply(sec, reg, v))
  {
    var reg' := Apply(sec, reg, v);
    forall r, q | r in reg' && q in reg' && r.mode == Exclusive && q.mode == Exclusive && r.dbName == q.dbName
      ensures r.token == q.token
    {
      var l := ApplyOrigin(sec, reg, v, r);
      var m := ApplyOrigin(sec, reg, v, q);
      RowKeepsToken(sec, reg, l, v);
      RowKeepsToken(sec, reg, m, v);
      if l in reg && m in reg && r == Row(sec, reg, l, v) && q == Row(sec, reg, m, v) {
      } else {
        assert sec.Claim? ==> !exists k :: k in reg && sec.req.mode == Exclusive && HoldsDb(k, sec.req);
      }
    }
  }

  // ---- a row in the hands of another live process ------------------------------------

  /** The row carries the marker of a process that the observer either sees running or cannot
      see at all, and that is not the observer itself. */
  predicate HeldByAnother(l: Lease, v: View) {
    && l.reclaiming.Some?
    && var m := l.reclaiming.value;
       && (m.host == v.here ==> m.byPid in v.live)
       && !(m.host == v.here && m.byPid == v.me)
  }

  // Unless its marker lapsed and was overridden, such a row keeps its marker and its park.
  lemma HeldRowUndisturbed(sec: Section, reg: seq<Lease>, l: Lease, h: Hist, v: View)
    requires HeldByAnother(l, v) && l in reg && l.token !in Overridden(sec, reg, v)
    ensures !Removes(sec, l, v)
    ensures var r := Row(sec, reg, l, v); var h' := HistPlan(PlanFor(sec, reg, l, v), l, h, v);
      && r.reclaiming == l.reclaiming && r.parkedAt == l.parkedAt && h'.parks == h.parks
  {
    assert !IsMine(l, v);
    assert InProgress(l, v) || LapsedMarker(l, v);
    var p := PlanFor(sec, reg, l, v);
    assert !ActsExclusively(p) by {
      if InProgress(l, v) {
      } else {
        assert ActsExclusively(p) ==> l.token in Overridden(sec, reg, v);
      }
    }
    assert !Exclusionary(p.c) && !Exclusionary(p.d) && !Settles(p.a) && !Settles(p.b) && !Settles(p.c) && !Settles(p.d);
    CalmOp(p.a, l, h, v);
    CalmOp(p.b, Row1(p, l, v), Hist1(p, l, h, v), v);
    CalmOp(p.c, Row2(p, l, v), Hist2(p, l, h, v), v);
    CalmOp(p.d, Row3(p, l, v), Hist3(p, l, h, v), v);
  }

  // An op that neither needs exclusivity nor settles leaves marker and park alone.
  lemma CalmOp(op: Op, l: Lease, h: Hist, v: View)
    requires !Exclusionary(op) && !Settles(op)
    ensures ApplyOp(op, l, v).reclaiming == l.reclaiming && ApplyOp(op, l, v).parkedAt == l.parkedAt
    ensures HistOp(op, l, h, v).parks == h.parks
  {
  }

  predicate Grows(h: Hist, h': Hist) {
    h'.minted == h.minted && h.given <= h'.given && h.corroborated <= h'.corroborated
  }

  lemma OpGrows(op: Op, l: Lease, h: Hist, v: View)
    ensures Grows(h, HistOp(op, l, h, v))
  {
  }

  lemma HistGrows(p: Plan, l: Lease, h: Hist, v: View)
    ensures Grows(h, HistPlan(p, l, h, v))
  {
    OpGrows(p.a, l, h, v);
    OpGrows(p.b, Row1(p, l, v), Hist1(p, l, h, v), v);
    OpGrows(p.c, Row2(p, l, v), Hist2(p, l, h, v), v);
    OpGrows(p.d, Row3(p, l, v), Hist3(p, l, h, v), v);
  }
}
