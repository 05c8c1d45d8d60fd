/** What a critical section may do to one row, and the invariant of a row with its history. */
module RowOps {
  import opened Options
  import opened Leases
  import opened Liveness

  datatype Op =
    | Nop
    | Beat                      // refresh heartbeat_at
    | Backfill                  // record the fingerprint of a corroborated server
    | Reanchor                  // the caller's own session vouches for the row again
    | Shed                      // clear a provably gone server of a live session
    | BindServer(pid: Pid)
    | AttachServer(pid: Pid)    // a shared row learns its render server
    | SetPorts(ports: seq<int>) // a shared row learns its actual port
    | Adopt
    | StampPark(ttl: int)
    | Unpark(pid: Pid)          // the set half of resume
    | Mark(reason: Reason, verb: Verb)
    | SettleKeep
    | SettleOrphan
    | SettlePark

  function Backfilled(l: Lease, v: View): Lease {
    var s := l.owner.server;
    if l.owner.host != v.here || s.pid.None? || s.pid.value !in v.live then l
    else
      var pid := s.pid.value;
      var recorded := RecordedFp(s, pid);
      if recorded.Some? then
        if s.fp.None? && !recorded.value.legacy && FpVerdict(recorded.value, pid, v) == Match
        then l.(owner := l.owner.(server := Server(s.pid, PidFields(pid, v).started,
                                                   recorded, Some(pid))))
        else l
      else
        var fields := PidFields(pid, v);
        if Corroboration(l, pid, v).None? || (fields.fp.None? && fields.started.None?) then l
        else l.(owner := l.owner.(server := fields))
  }

  // The owner after a server pid is recorded by bind or resume: identity, run and host stay.
  function OwnerServing(o: Owner, pid: Pid, v: View): Owner {
    var served := if pid != 0 then o.(server := PidFields(pid, v), gone := None) else o;
    if v.caller.anchor.Some? then served.(session := Some(Session(v.caller.anchor.value, v.now)))
    else served
  }

  function Parked(l: Lease, ttl: int, v: View): Lease {
    l.(owner := l.owner.(server := NO_SERVER, gone := None),
       parkedAt := Some(v.now), parkTtl := Some(ttl), parkedBoot := v.boot)
  }

  function ReturnBudget(parkTtl: Option<int>): int {
    if parkTtl.Some? then parkTtl.value else DEFAULT_PARK_TTL_S
  }

  function MarkedReturn(o: Owner, parkTtl: Option<int>): Owner {
    o.(returnToPark := true, returnTtl := Some(ReturnBudget(parkTtl)))
  }

  // The budget a re-park restores. A recorded budget of 0 is read as "none recorded".
  function ReparkBudget(o: Owner): int {
    if o.returnTtl.Some? && o.returnTtl.value != 0 then o.returnTtl.value else DEFAULT_PARK_TTL_S
  }

  function Reparked(l: Lease, v: View): Lease {
    Parked(l.(owner := l.owner.(returnToPark := false, returnTtl := None), orphaned := false),
           ReparkBudget(l.owner), v)
  }

  function ApplyOp(op: Op, l: Lease, v: View): Lease {
    match op
    case Nop => l
    case Beat => l.(heartbeatAt := v.now)
    case Backfill => Backfilled(l, v)
    case Reanchor => Touched(l, v)
    case Shed => Shedded(l, v)
    case BindServer(pid) => l.(owner := OwnerServing(l.owner, pid, v))
    case AttachServer(pid) => l.(owner := l.owner.(server := PidFields(pid, v)))
    case SetPorts(ports) => l.(ports := ports)
    case Adopt =>
      var o := if v.caller.anchor.Some?
               then l.owner.(session := Some(Session(v.caller.anchor.value, v.now))) else l.owner;
      l.(owner := if l.parkedAt.Some? then MarkedReturn(o, l.parkTtl) else o, heartbeatAt := v.now)
    case StampPark(ttl) => Parked(l, ttl, v)
    case Unpark(pid) =>
      l.(owner := MarkedReturn(OwnerServing(l.owner, pid, v), l.parkTtl),
         parkedAt := None, parkTtl := None, parkedBoot := None, heartbeatAt := v.now)
    case Mark(reason, verb) =>
      l.(reclaiming := Some(Marker(v.me, v.here, v.now, reason, verb)))
    case SettleKeep => l.(reclaiming := None)
    case SettleOrphan => l.(reclaiming := None, orphaned := true, ports := [])
    case SettlePark => Reparked(l.(reclaiming := None), v)
  }

  // ---- the guards every critical section respects ---------------------------

  predicate IsMine(l: Lease, v: View) {
    l.reclaiming.Some? && l.reclaiming.value.byPid == v.me && l.reclaiming.value.host == v.here
  }

  // The ops that must not run on a row another live process is reclaiming.
  predicate Exclusionary(op: Op) {
    op.Mark? || op.StampPark? || op.Unpark? || op.Adopt?
  }

  predicate Settles(op: Op) { op.SettleKeep? || op.SettleOrphan? || op.SettlePark? }

  predicate Allowed(op: Op, l: Lease, v: View) {
    && (Exclusionary(op) ==> !InProgress(l, v))
    && (Settles(op) ==> IsMine(l, v))
    && (op.StampPark? ==> l.parkedAt.None? && l.mode != Shared)
    && (op.Unpark? ==> l.parkedAt.Some?)
    && (op.Adopt? ==> v.caller.anchor.Some?)
    && (op.SetPorts? ==> l.mode == Shared)
    && (op.SettlePark? ==> l.mode != Shared)
  }

  // ---- the history of one lease ---------------------------------------------

  datatype ParkEvent = Stamped(budget: int) | Resumed

  /** `minted` is the row as acquire wrote it; `given` the processes whose pid a caller handed
      to acquire, bind or resume; `corroborated` those proven by an independent observation. */
  datatype Hist = Hist(minted: Lease, given: set<Birth>, corroborated: set<Birth>,
                       parks: seq<ParkEvent>)

  function Holder(pid: Pid, v: View): set<Birth> {
    if pid in v.live then {v.live[pid]} else {}
  }

  function HistOp(op: Op, l: Lease, h: Hist, v: View): Hist {
    match op
    case Backfill =>
      if Backfilled(l, v) != l && l.owner.server.pid.Some?
         && RecordedFp(l.owner.server, l.owner.server.pid.value).None?
      then h.(corroborated := h.corroborated + Holder(l.owner.server.pid.value, v)) else h
    case BindServer(pid) => h.(given := h.given + Holder(pid, v))
    case AttachServer(pid) => h.(given := h.given + Holder(pid, v))
    case StampPark(ttl) => h.(parks := h.parks + [Stamped(ttl)])
    case Unpark(pid) => h.(given := h.given + Holder(pid, v), parks := h.parks + [Resumed])
    case SettlePark => h.(parks := h.parks + [Stamped(ReparkBudget(l.owner))])
    case _ => h
  }

  predicate Vouched(h: Hist, f: Option<Fingerprint>) {
    f.Some? ==> f.value.birth in h.given || f.value.birth in h.corroborated
  }

  predicate ServerVouched(s: Server, h: Hist) {
    Vouched(h, s.fp) && Vouched(h, s.started)
  }

  // What acquire fixes once and nothing ever changes.
  predicate SameIdentity(l: Lease, m: Lease) {
    && l.token == m.token && l.mode == m.mode && l.series == m.series && l.dbName == m.dbName
    && l.dropOnRelease == m.dropOnRelease && l.owner.host == m.owner.host
    && l.owner.runId == m.owner.runId && l.owner.startedAt == m.owner.startedAt
    && l.ttl == m.ttl && l.ttlExplicit == m.ttlExplicit
  }

  // The budget of the last park stamp (the events end "stamped" or "stamped, resumed").
  function LastBudget(parks: seq<ParkEvent>): Option<int> {
    if parks == [] then None
    else
      match parks[|parks| - 1]
      case Stamped(b) => Some(b)
      case Resumed =>
        if |parks| >= 2 && parks[|parks| - 2].Stamped? then Some(parks[|parks| - 2].budget) else None
  }

  predicate ParkStateMatches(l: Lease, parks: seq<ParkEvent>) {
    && (l.parkedAt.Some? <==> parks != [] && parks[|parks| - 1].Stamped?)
    && (l.parkedAt.Some? <==> l.parkTtl.Some?)
    && (l.parkedAt.None? ==> l.parkedBoot.None?)
    && (parks != [] ==> LastBudget(parks).Some?)
    && (l.parkedAt.Some? ==> l.parkTtl == LastBudget(parks))
    && (l.parkedAt.None? && parks != [] ==>
          l.owner.returnToPark && l.owner.returnTtl == LastBudget(parks))
    && (l.owner.returnToPark ==> parks != [])
  }

  predicate RowInv(l: Lease, h: Hist) {
    && SameIdentity(l, h.minted)
    && (l.mode != Shared ==> l.ports == h.minted.ports || l.ports == [])
    && ServerVouched(l.owner.server, h)
    && ParkStateMatches(l, h.parks)
    && (l.mode == Shared ==> h.parks == [])
  }

  // Where the lease stands between park and resume.
  predicate SamePark(l: Lease, m: Lease) {
    && l.parkedAt == m.parkedAt && l.parkTtl == m.parkTtl && l.parkedBoot == m.parkedBoot
    && l.owner.returnToPark == m.owner.returnToPark && l.owner.returnTtl == m.owner.returnTtl
  }

  predicate MovesPark(op: Op) { op.StampPark? || op.Unpark? || op.SettlePark? || op.Adopt? }

  lemma ParkUntouched(op: Op, l: Lease, h: Hist, v: View)
    requires !MovesPark(op)
    ensures SamePark(ApplyOp(op, l, v), l) && HistOp(op, l, h, v).parks == h.parks
  {
    if op.Backfill? { BackfillOnlyServer(l, v); }
  }

  lemma StampedMatches(l: Lease, parks: seq<ParkEvent>, ttl: int, v: View)
    ensures ParkStateMatches(Parked(l, ttl, v), parks + [Stamped(ttl)])
  {
  }

  lemma ResumedMatches(l: Lease, parks: seq<ParkEvent>, pid: Pid, v: View)
    requires ParkStateMatches(l, parks) && l.parkedAt.Some?
    ensures ParkStateMatches(ApplyOp(Unpark(pid), l, v), parks + [Resumed])
  {
    assert (parks + [Resumed])[|parks| - 1] == parks[|parks| - 1];
  }

  lemma AdoptedMatches(l: Lease, parks: seq<ParkEvent>, v: View)
    requires ParkStateMatches(l, parks)
    ensures ParkStateMatches(ApplyOp(Adopt, l, v), parks)
  {
  }

  lemma ParkStateKept(op: Op, l: Lease, h: Hist, v: View)
    requires RowInv(l, h) && Allowed(op, l, v)
    ensures ParkStateMatches(ApplyOp(op, l, v), HistOp(op, l, h, v).parks)
  {
    match op
    case StampPark(ttl) => StampedMatches(l, h.parks, ttl, v);
    case SettlePark =>
      StampedMatches(l.(reclaiming := None, owner := l.owner.(returnToPark := false, returnTtl := None), orphaned := false),
                     h.parks, ReparkBudget(l.owner), v);
    case Unpark(pid) => ResumedMatches(l, h.parks, pid, v);
    case Adopt => AdoptedMatches(l, h.parks, v);
    case _ => ParkUntouched(op, l, h, v);
  }

  lemma ParkedIdentity(l: Lease, ttl: int, v: View)
    ensures SameIdentity(Parked(l, ttl, v), l)
  {
  }

  lemma ServedIdentity(l: Lease, pid: Pid, v: View)
    ensures SameIdentity(ApplyOp(Unpark(pid), l, v), l) && SameIdentity(ApplyOp(BindServer(pid), l, v), l)
    ensures SameIdentity(ApplyOp(AttachServer(pid), l, v), l)
  {
  }

  lemma TouchedIdentity(l: Lease, v: View)
    ensures SameIdentity(Touched(l, v), l) && SameIdentity(Shedded(l, v), l) && SameIdentity(ApplyOp(Adopt, l, v), l)
  {
  }

  lemma IdentityKept(op: Op, l: Lease, v: View)
    ensures SameIdentity(ApplyOp(op, l, v), l)
    ensures !op.SetPorts? ==> ApplyOp(op, l, v).ports in {l.ports, []}
  {
    RowPortsKept(op, l, v);
    match op
    case Backfill => BackfillOnlyServer(l, v);
    case BindServer(pid) => ServedIdentity(l, pid, v);
    case AttachServer(pid) => ServedIdentity(l, pid, v);
    case Unpark(pid) => ServedIdentity(l, pid, v);
    case Reanchor => TouchedIdentity(l, v);
    case Shed => TouchedIdentity(l, v);
    case Adopt => TouchedIdentity(l, v);
    case StampPark(ttl) => ParkedIdentity(l, ttl, v);
    case SettlePark =>
      ParkedIdentity(l.(reclaiming := None, owner := l.owner.(returnToPark := false, returnTtl := None), orphaned := false),
                     ReparkBudget(l.owner), v);
    case _ =>
  }

  lemma RowPortsKept(op: Op, l: Lease, v: View)
    ensures !op.SetPorts? ==> ApplyOp(op, l, v).ports == l.ports || ApplyOp(op, l, v).ports == []
  {
    if op.Backfill? { BackfillOnlyServer(l, v); }
  }

  lemma BackfillOnlyServer(l: Lease, v: View)
    ensures Backfilled(l, v) == l.(owner := l.owner.(server := Backfilled(l, v).owner.server))
  {
  }

  lemma ServerKept(op: Op, l: Lease, h: Hist, v: View)
    requires ServerVouched(l.owner.server, h)
    ensures ServerVouched(ApplyOp(op, l, v).owner.server, HistOp(op, l, h, v))
  {
    match op
    case Backfill => BackfillVouched(l, h, v);
    case BindServer(pid) => FieldsVouched(pid, h, v);
    case AttachServer(pid) => FieldsVouched(pid, h, v);
    case Unpark(pid) => FieldsVouched(pid, h, v);
    case Reanchor =>
    case Shed =>
    case _ =>
  }

  // A pid's recorded fingerprint is that of the process that holds it.
  lemma FieldsVouched(pid: Pid, h: Hist, v: View)
    ensures ServerVouched(PidFields(pid, v), h.(given := h.given + Holder(pid, v)))
  {
  }

  // Every guarded op keeps the row's invariant.
  lemma OpKeepsRow(op: Op, l: Lease, h: Hist, v: View)
    requires RowInv(l, h) && Allowed(op, l, v)
    ensures RowInv(ApplyOp(op, l, v), HistOp(op, l, h, v))
  {
    ParkStateKept(op, l, h, v);
    IdentityKept(op, l, v);
    ServerKept(op, l, h, v);
    assert HistOp(op, l, h, v).minted == h.minted;
    assert l.mode == Shared ==> HistOp(op, l, h, v).parks == h.parks;
  }

  // The back-fill records only a process that is already vouched for or that is corroborated
  // at this moment: never a bystander that inherited the pid.
  lemma BackfillVouched(l: Lease, h: Hist, v: View)
    requires ServerVouched(l.owner.server, h)
    ensures ServerVouched(Backfilled(l, v).owner.server, HistOp(Backfill, l, h, v))
    ensures forall b :: b in HistOp(Backfill, l, h, v).corroborated - h.corroborated ==>
              && l.owner.server.pid.Some? && l.owner.server.pid.value in v.live
              && b == v.live[l.owner.server.pid.value]
              && Corroboration(l, l.owner.server.pid.value, v).Some?
  {
  }

  // ---- up to four ops on one row --------------------------------------------

  datatype Plan = Plan(a: Op, b: Op, c: Op, d: Op)

  const NOTHING := Plan(Nop, Nop, Nop, Nop)

  function Row1(p: Plan, l: Lease, v: View): Lease { ApplyOp(p.a, l, v) }
  function Row2(p: Plan, l: Lease, v: View): Lease { ApplyOp(p.b, Row1(p, l, v), v) }
  function Row3(p: Plan, l: Lease, v: View): Lease { ApplyOp(p.c, Row2(p, l, v), v) }
  function ApplyPlan(p: Plan, l: Lease, v: View): Lease { ApplyOp(p.d, Row3(p, l, v), v) }

  function Hist1(p: Plan, l: Lease, h: Hist, v: View): Hist { HistOp(p.a, l, h, v) }
  function Hist2(p: Plan, l: Lease, h: Hist, v: View): Hist { HistOp(p.b, Row1(p, l, v), Hist1(p, l, h, v), v) }
  function Hist3(p: Plan, l: Lease, h: Hist, v: View): Hist { HistOp(p.c, Row2(p, l, v), Hist2(p, l, h, v), v) }
  function HistPlan(p: Plan, l: Lease, h: Hist, v: View): Hist { HistOp(p.d, Row3(p, l, v), Hist3(p, l, h, v), v) }

  predicate PlanAllowed(p: Plan, l: Lease, v: View) {
    && Allowed(p.a, l, v) && Allowed(p.b, Row1(p, l, v), v)
    && Allowed(p.c, Row2(p, l, v), v) && Allowed(p.d, Row3(p, l, v), v)
  }

  lemma PlanKeepsRow(p: Plan, l: Lease, h: Hist, v: View)
    requires RowInv(l, h) && PlanAllowed(p, l, v)
    ensures RowInv(ApplyPlan(p, l, v), HistPlan(p, l, h, v))
  {
    OpKeepsRow(p.a, l, h, v);
    OpKeepsRow(p.b, Row1(p, l, v), Hist1(p, l, h, v), v);
    OpKeepsRow(p.c, Row2(p, l, v), Hist2(p, l, h, v), v);
    OpKeepsRow(p.d, Row3(p, l, v), Hist3(p, l, h, v), v);
  }
}
