/** Shedding, seen on the whole registry: what every write that ends in a shed leaves behind, for
    this allocator and for a reader from before session anchors. */
module Shedding {
  import opened Options
  import opened Leases
  import opened Liveness
  import opened RowOps
  import opened Sections
  import opened Ports
  import opened ReclaimRows

  // The sections that shed every row of the machine before they write.
  predicate Sheds(sec: Section, reg: seq<Lease>, v: View) {
    match sec
    case Heartbeat(only, session) => only.Some? || session.Some?
    case Bind(token, _) => HasToken(reg, token)
    case AdoptLease(token, sameTree) => HasToken(reg, token) && AnswerAdopt(RowOf(reg, token), sameTree, v) == AdoptDone
    case AttachShared(_, _, _) => true
    case GcMark(_) => true
    case Claim(req, _, tried, bindable, waiting) => Decide(reg, req, tried, bindable, waiting, v).Grant?
    case _ => false
  }

  lemma ShedIsLast(sec: Section, reg: seq<Lease>, l: Lease, v: View)
    requires Sheds(sec, reg, v)
    ensures PlanFor(sec, reg, l, v).d == Shed
  {
  }

  // Every row of the new registry has just been shed.
  lemma EveryRowIsShed(sec: Section, reg: seq<Lease>, v: View, r: Lease) returns (l: Lease)
    requires Sheds(sec, reg, v) && r in Apply(sec, reg, v)
    ensures r == Shedded(l, v)
  {
    l := ApplyOrigin(sec, reg, v, r);
    if l in reg && r == Row(sec, reg, l, v) {
      ShedIsLast(sec, reg, l, v);
      l := Row3(PlanFor(sec, reg, l, v), l, v);
    }
  }

  /** After such a write no row of a live session names a server that is dead or provably another
      process, and shedding again would change nothing. */
  lemma WritesShed(sec: Section, reg: seq<Lease>, v: View, r: Lease)
    requires Sheds(sec, reg, v) && r in Apply(sec, reg, v)
    ensures ShedEligible(r, v) ==> !ServerProvablyGone(r, v)
    ensures Shedded(r, v) == r
  {
    var l := EveryRowIsShed(sec, reg, v, r);
    ShedKeepsVerdict(l, false, v);
    ShedProtectsAcrossVersions(l, v, v, None);
  }

  // Its recorded server is alive, and the old reader measures another start time at that pid.
  predicate LooksRecycled(l: Lease, lstart: Option<Fingerprint>) {
    && l.owner.server.pid.Some? && l.owner.server.started.Some?
    && lstart.Some? && l.owner.server.started != lstart
  }

  /** The row of a live session is condemned by the old reader after such a write exactly when its
      heartbeat is older than its ttl_s with no start time to go by, or when that reader takes the
      live server for another process, which this one could not prove. */
  lemma OldReaderAfterWrite(sec: Section, reg: seq<Lease>, v: View, r: Lease, lstart: Option<Fingerprint>)
    requires Sheds(sec, reg, v) && r in Apply(sec, reg, v) && ShedEligible(r, v)
    ensures OldReaderCondemns(r, lstart, v) <==>
      || LooksRecycled(r, lstart)
      || (v.now - r.heartbeatAt > r.ttl && !(r.owner.server.pid.Some? && r.owner.server.started.Some?))
  {
    WritesShed(sec, reg, v, r);
  }

  // A section that sheds names no row's server dead on its own account.
  lemma OnlyTheShedClears(op: Op, l: Lease, v: View)
    requires !op.StampPark? && !op.SettlePark? && !op.Shed? && (op.AttachServer? ==> op.pid != 0)
    ensures l.owner.server.pid.Some? ==> ApplyOp(op, l, v).owner.server.pid.Some?
  {
  }

  lemma PlanClears(sec: Section, reg: seq<Lease>, l: Lease, v: View)
    requires Sheds(sec, reg, v) && l.owner.server.pid.Some?
    ensures Row3(PlanFor(sec, reg, l, v), l, v).owner.server.pid.Some?
  {
    var p := PlanFor(sec, reg, l, v);
    OnlyTheShedClears(p.a, l, v);
    OnlyTheShedClears(p.b, Row1(p, l, v), v);
    OnlyTheShedClears(p.c, Row2(p, l, v), v);
  }

  /** A row whose server such a write cleared stays protected on both sides: by its live session
      here, and from the old reader for ttl_s after the write. */
  lemma ClearedStaysProtected(sec: Section, reg: seq<Lease>, v: View, l: Lease, auto: bool, later: View, lstart: Option<Fingerprint>)
    requires Sheds(sec, reg, v) && l in reg && l.owner.server.pid.Some?
    requires Row(sec, reg, l, v).owner.server.pid.None?
    ensures Judge(Row(sec, reg, l, v), auto, v) == Judgment(None, BySession, false)
    ensures later.now - v.now <= l.ttl ==> !OldReaderCondemns(Row(sec, reg, l, v), lstart, later)
  {
    var before := Row3(PlanFor(sec, reg, l, v), l, v);
    ShedIsLast(sec, reg, l, v);
    PlanClears(sec, reg, l, v);
    RowKeepsToken(sec, reg, l, v);
    ShedClears(before, auto, v, later, lstart);
  }

  lemma ShedClears(l: Lease, auto: bool, v: View, later: View, lstart: Option<Fingerprint>)
    requires l.owner.server.pid.Some? && Shedded(l, v).owner.server.pid.None?
    ensures Judge(Shedded(l, v), auto, v) == Judgment(None, BySession, false)
    ensures later.now - v.now <= Shedded(l, v).ttl ==> !OldReaderCondemns(Shedded(l, v), lstart, later)
  {
    ShedKeepsVerdict(l, auto, v);
    ShedProtectsAcrossVersions(l, v, later, lstart);
  }

  // The verdict on every row is the one it had before the shed.
  lemma VerdictsUnmoved(sec: Section, reg: seq<Lease>, l: Lease, auto: bool, v: View)
    requires Sheds(sec, reg, v)
    ensures Judge(Row(sec, reg, l, v), auto, v) == Judge(Row3(PlanFor(sec, reg, l, v), l, v), auto, v)
  {
    ShedIsLast(sec, reg, l, v);
    ShedKeepsVerdict(Row3(PlanFor(sec, reg, l, v), l, v), auto, v);
  }
}
