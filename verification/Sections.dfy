/** The allocator's critical sections: for each one, what it does to every row of the registry,
    which rows it removes, which row it appends, and how it answers its caller. */
module Sections {
  import opened Options
  import opened Leases
  import opened Liveness
  import opened RowOps
  import opened Ports

  /** What an acquire asks for, resolved against the catalog: its database name, its port pool
      and the declared ports no pooled lease may take. */
  datatype Request = Request(mode: Mode, series: string, dbName: string, pid: Pid,
                             nPorts: int, ttl: Option<int>, noCreate: bool,
                             base: int, size: int, reserved: set<int>)

  // Which leases a heartbeat touches, beside or instead of one token.
  datatype SessionFilter = SessionFilter(anchor: Option<Anchor>, sessionId: string)

  datatype Scope = All | DeadSessions | OfAnchor(anchor: Anchor)

  datatype Outcome = DeleteRow | KeepRow | OrphanRow | ParkRow

  // The two kinds of capacity an acquire may reclaim, each at most once.
  datatype Kind = Hold | Pool

  datatype Section =
    | Heartbeat(only: Option<Token>, session: Option<SessionFilter>)
    | Bind(token: Token, pid: Pid)
    | ParkLease(token: Token, force: bool, ttl: int)
    | ResumeLease(token: Token, pid: Pid, present: Option<bool>)
    | AdoptLease(token: Token, sameTree: bool)
    | AttachShared(newToken: Token, req: Request, port: Option<int>)
    | GcMark(scope: Scope)
    | ReleaseMark(token: Token, force: bool)
    | Settle(outcomes: map<Token, Outcome>)
    | Claim(req: Request, newToken: Token, tried: set<Kind>, bindable: set<int>, waiting: bool)

  // ---- ownership --------------------------------------------------------------

  predicate Refused(l: Lease, run: RunId, force: bool) {
    l.owner.runId != "" && l.owner.runId != run && !force
  }

  predicate OffHost(l: Lease, v: View) { l.owner.host != "" && l.owner.host != v.here }

  predicate LeaseOfAnchor(l: Lease, a: Option<Anchor>, sessionId: string) {
    && l.owner.session.Some?
    && var s := l.owner.session.value.anchor;
       || (a.Some? && (if a.value.started.Some? then SameAnchor(s, a.value) else s.pid == a.value.pid))
       || (sessionId != "" && s.sessionId == sessionId)
  }

  // ---- park and resume --------------------------------------------------------

  datatype ParkAnswer = ParkDone | ParkBusy | ParkNotOwner | ParkShared | ParkNotRunning

  function AnswerPark(l: Lease, force: bool, v: View): ParkAnswer {
    if InProgress(l, v) then ParkBusy
    else if Refused(l, v.caller.run, force) then ParkNotOwner
    else if l.mode == Shared then ParkShared
    else if l.parkedAt.Some? || (l.orphaned && l.owner.server.pid.None?) then ParkNotRunning
    else ParkDone
  }

  datatype ResumeAnswer = ResumeDone | ResumeBusy | ResumeRace | NotParked | DbGone
                        | WrongHost | PidNotAlive | Unproven

  function AnswerResume(l: Lease, pid: Pid, present: Option<bool>, v: View): ResumeAnswer {
    var holder := l.owner.server.pid;
    if InProgress(l, v) then ResumeBusy
    else if l.parkedAt.None? then
      if !OffHost(l, v) && holder.Some? && holder.value in v.live && holder.value != pid
      then ResumeRace else NotParked
    else if present == Some(false) then DbGone
    else if OffHost(l, v) then WrongHost
    else if pid !in v.live then PidNotAlive
    else if OwnershipProof(l, pid, v).None? then Unproven
    else ResumeDone
  }

  datatype AdoptAnswer = AdoptDone | NoAnchor | AdoptNotOwner | AdoptWrongHost | AdoptBusy | OtherTree

  function AnswerAdopt(l: Lease, sameTree: bool, v: View): AdoptAnswer {
    if v.caller.anchor.None? then NoAnchor
    else if l.owner.runId != v.caller.run || v.caller.run == "" then AdoptNotOwner
    else if OffHost(l, v) then AdoptWrongHost
    else if InProgress(l, v) then AdoptBusy
    else if l.parkedAt.Some? && !sameTree then OtherTree
    else AdoptDone
  }

  // ---- gc ---------------------------------------------------------------------

  function GcReason(l: Lease, scope: Scope, v: View): Option<Reason> {
    if InProgress(l, v) then None
    else match scope
      case OfAnchor(a) =>
        if LeaseOfAnchor(l, Some(a), "") && l.parkedAt.None? && l.mode != Shared
        then Some(SessionEnded) else None
      case _ => Judge(l, scope.DeadSessions?, v).reason
  }

  // Whether judging the row re-anchored it onto the caller's resumed session.
  predicate GcTouches(l: Lease, scope: Scope, v: View) {
    !InProgress(l, v) && !scope.OfAnchor? && Judge(l, scope.DeadSessions?, v).touch
  }

  // A lease taken out of a deliberate park goes back to it when its owner is gone.
  predicate GcParks(l: Lease, reason: Reason) {
    l.owner.returnToPark && OwnerGone(reason) && l.mode != Shared
  }

  // ---- acquire ----------------------------------------------------------------

  predicate HoldsDb(l: Lease, req: Request) { l.mode == Exclusive && l.dbName == req.dbName }

  predicate HoldsPool(l: Lease, req: Request) {
    exists p :: p in l.ports && InPool(p, req.base, req.size)
  }

  predicate AnyReclaimable(reg: seq<Lease>, req: Request, kind: Kind, v: View) {
    exists l :: l in reg && Contends(l, req, kind) && CapacityReason(l, v).Some?
  }

  predicate Contends(l: Lease, req: Request, kind: Kind) {
    if kind == Hold then HoldsDb(l, req) else HoldsPool(l, req)
  }

  predicate CapacityTouches(l: Lease, v: View) {
    && l.mode != Shared && l.parkedAt.None? && !l.orphaned && !InProgress(l, v)
    && Judge(l, true, v).touch
  }

  datatype Decision = Grant(ports: seq<int>) | Take(kind: Kind) | Wait | Conflict
                    | Exhausted(outsideRegistry: bool)

  /** What one pass of the acquire loop decides: refuse, mark holders whose owner is provably
      gone, wait for freed ports, or write the lease. */
  function Decide(reg: seq<Lease>, req: Request, tried: set<Kind>, bindable: set<int>,
                  waiting: bool, v: View): Decision
  {
    var held := req.mode == Exclusive && exists l :: l in reg && HoldsDb(l, req);
    if held && Hold !in tried && AnyReclaimable(reg, req, Hold, v) then Take(Hold)
    else if held then Conflict
    else
      var ports := PickPorts(req.base, req.size, req.nPorts, PortsInUse(reg) + req.reserved, bindable);
      if ports.Some? then Grant(ports.value)
      else if Pool !in tried && AnyReclaimable(reg, req, Pool, v) then Take(Pool)
      else if waiting then Wait
      else Exhausted(!exists l :: l in reg && HoldsPool(l, req))
  }

  function Minted(token: Token, req: Request, ports: seq<int>, v: View): Lease {
    Lease(token, req.mode, req.series, req.dbName, req.mode == Ephemeral && !req.noCreate, ports,
          Owner(v.here, v.caller.run, v.now, PidFields(req.pid, v),
                if v.caller.anchor.Some? then Some(Session(v.caller.anchor.value, v.now)) else None,
                None, false, None),
          None, None, None, false, None,
          v.now, if req.ttl.Some? then req.ttl.value else DEFAULT_TTL_S, req.ttl.Some?)
  }

  // The first shared row of this render target.
  function FirstShared(reg: seq<Lease>, req: Request): Option<Token> {
    if reg == [] then None
    else if reg[0].mode == Shared && reg[0].series == req.series && reg[0].dbName == req.dbName
    then Some(reg[0].token)
    else FirstShared(reg[1..], req)
  }

  // ---- the effect of a section on one row ---------------------------------------

  function If(b: bool, op: Op): Op { if b then op else Nop }

  predicate Hit(l: Lease, token: Option<Token>, session: Option<SessionFilter>) {
    && (token.Some? ==> l.token == token.value)
    && (session.Some? ==> LeaseOfAnchor(l, session.value.anchor, session.value.sessionId))
  }

  function SettleOp(o: Outcome): Op {
    match o
    case DeleteRow => Nop
    case KeepRow => SettleKeep
    case OrphanRow => SettleOrphan
    case ParkRow => SettlePark
  }

  // The marks always stand in the plan's second place, the shed in its last.
  function PlanFor(sec: Section, reg: seq<Lease>, l: Lease, v: View): Plan {
    match sec
    case Heartbeat(token, session) =>
      if token.None? && session.None? then NOTHING
      else
        var hit := Hit(l, token, session);
        Plan(If(hit, Beat), If(hit, Backfill), If(hit, Reanchor), Shed)
    case Bind(token, pid) =>
      if HasToken(reg, token) then Plan(If(l.token == token, BindServer(pid)), Nop, Nop, Shed)
      else NOTHING
    case ParkLease(token, force, ttl) =>
      Plan(If(l.token == token && AnswerPark(l, force, v) == ParkDone, StampPark(ttl)), Nop, Nop, Nop)
    case ResumeLease(token, pid, present) =>
      Plan(If(l.token == token && AnswerResume(l, pid, present, v) == ResumeDone, Unpark(pid)),
           Nop, Nop, Nop)
    case AdoptLease(token, sameTree) =>
      if HasToken(reg, token) && AnswerAdopt(RowOf(reg, token), sameTree, v) == AdoptDone
      then Plan(If(l.token == token && AnswerAdopt(l, sameTree, v) == AdoptDone, Adopt), Nop, Nop, Shed)
      else NOTHING
    case AttachShared(_, req, port) =>
      var here := FirstShared(reg, req) == Some(l.token) && l.mode == Shared;
      Plan(If(here && req.pid != 0, AttachServer(req.pid)),
           If(here && port.Some?, SetPorts(if port.Some? then [port.value] else [])),
           If(here, Beat), Shed)
    case GcMark(scope) =>
      var reason := GcReason(l, scope, v);
      Plan(If(GcTouches(l, scope, v), Reanchor),
           if reason.Some? then Mark(reason.value, GcVerb) else Nop, Nop, Shed)
    case ReleaseMark(token, force) =>
      Plan(Nop, If(l.token == token && !InProgress(l, v) && !Refused(l, v.caller.run, force),
                   Mark(Released, ReleaseVerb)), Nop, Nop)
    case Settle(outcomes) =>
      Plan(if l.token in outcomes && IsMine(l, v) then SettleOp(outcomes[l.token]) else Nop,
           Nop, Nop, Nop)
    case Claim(req, _, tried, bindable, waiting) =>
      match Decide(reg, req, tried, bindable, waiting, v)
      case Take(kind) =>
        var reason := CapacityReason(l, v);
        if Contends(l, req, kind)
        then Plan(If(CapacityTouches(l, v), Reanchor),
                  if reason.Some? then Mark(reason.value, CapacityVerb) else Nop, Nop, Nop)
        else NOTHING
      case Grant(_) => Plan(Nop, Nop, Nop, Shed)
      case _ => NOTHING
  }

  predicate Removes(sec: Section, l: Lease, v: View) {
    sec.Settle? && l.token in sec.outcomes && IsMine(l, v) && sec.outcomes[l.token] == DeleteRow
  }

  // The row a section mints, if any, before the shed that ends the section.
  function Mints(sec: Section, reg: seq<Lease>, v: View): Option<Lease> {
    match sec
    case AttachShared(newToken, req, port) =>
      if FirstShared(reg, req).Some? then None
      else Some(Minted(newToken, req.(mode := Shared), if port.Some? then [port.value] else [], v))
    case Claim(req, newToken, tried, bindable, waiting) =>
      var d := Decide(reg, req, tried, bindable, waiting, v);
      if d.Grant? then Some(Minted(newToken, req, d.ports, v)) else None
    case _ => None
  }

  // ---- the effect on the whole registry -------------------------------------------

  function Row(sec: Section, reg: seq<Lease>, l: Lease, v: View): Lease {
    ApplyPlan(PlanFor(sec, reg, l, v), l, v)
  }

  function Rewrite(sec: Section, reg: seq<Lease>, rest: seq<Lease>, v: View): seq<Lease> {
    if rest == [] then []
    else
      (if Removes(sec, rest[0], v) then [] else [Row(sec, reg, rest[0], v)])
      + Rewrite(sec, reg, rest[1..], v)
  }

  function Apply(sec: Section, reg: seq<Lease>, v: View): seq<Lease> {
    var m := Mints(sec, reg, v);
    Rewrite(sec, reg, reg, v) + if m.Some? then [Shedded(m.value, v)] else []
  }

  // Every section respects the guards of the ops it runs.
  lemma MarkingAllowed(sec: Section, reg: seq<Lease>, l: Lease, v: View)
    requires sec.GcMark? || sec.Claim? || sec.ReleaseMark?
    ensures PlanAllowed(PlanFor(sec, reg, l, v), l, v)
  {
  }

  lemma VerbAllowed(sec: Section, reg: seq<Lease>, l: Lease, v: View)
    requires sec.Heartbeat? || sec.Bind? || sec.ParkLease? || sec.ResumeLease? || sec.AdoptLease? || sec.AttachShared?
    ensures PlanAllowed(PlanFor(sec, reg, l, v), l, v)
  {
  }

  lemma SectionAllowed(sec: Section, reg: seq<Lease>, l: Lease, v: View)
    requires sec.Settle? && l.token in sec.outcomes && sec.outcomes[l.token] == ParkRow ==> l.mode != Shared
    ensures PlanAllowed(PlanFor(sec, reg, l, v), l, v)
  {
    if !sec.Settle? {
      if sec.GcMark? || sec.Claim? || sec.ReleaseMark? {
        MarkingAllowed(sec, reg, l, v);
      } else {
        VerbAllowed(sec, reg, l, v);
      }
    }
  }

  // ---- rows of the new registry and where they come from --------------------------

  lemma {:induction false} RewriteOrigin(sec: Section, reg: seq<Lease>, rest: seq<Lease>, v: View, r: Lease)
    returns (l: Lease)
    requires r in Rewrite(sec, reg, rest, v)
    ensures l in rest && !Removes(sec, l, v) && r == Row(sec, reg, l, v)
  {
    if !Removes(sec, rest[0], v) && r == Row(sec, reg, rest[0], v) {
      l := rest[0];
    } else {
      l := RewriteOrigin(sec, reg, rest[1..], v, r);
    }
  }

  lemma {:induction false} RewriteKeeps(sec: Section, reg: seq<Lease>, rest: seq<Lease>, v: View, l: Lease)
    requires l in rest && !Removes(sec, l, v)
    ensures Row(sec, reg, l, v) in Rewrite(sec, reg, rest, v)
  {
    if l != rest[0] { RewriteKeeps(sec, reg, rest[1..], v, l); }
  }

  lemma RowKeepsToken(sec: Section, reg: seq<Lease>, l: Lease, v: View)
    ensures SameIdentity(Row(sec, reg, l, v), l)
  {
    var p := PlanFor(sec, reg, l, v);
    IdentityKept(p.a, l, v);
    IdentityKept(p.b, Row1(p, l, v), v);
    IdentityKept(p.c, Row2(p, l, v), v);
    IdentityKept(p.d, Row3(p, l, v), v);
  }

  lemma {:induction false} RewriteTokens(sec: Section, reg: seq<Lease>, rest: seq<Lease>, v: View)
    requires UniqueTokens(rest)
    ensures UniqueTokens(Rewrite(sec, reg, rest, v))
    ensures forall r :: r in Rewrite(sec, reg, rest, v) ==> HasToken(rest, r.token)
  {
    if rest != [] {
      RewriteTokens(sec, reg, rest[1..], v);
      RowKeepsToken(sec, reg, rest[0], v);
      var tail := Rewrite(sec, reg, rest[1..], v);
      forall r | r in tail ensures HasToken(rest, r.token) && r.token != rest[0].token {
        var i :| 0 <= i < |rest[1..]| && rest[1..][i].token == r.token;
        assert rest[i + 1].token == r.token;
      }
      assert rest[0].token == rest[0].token && HasToken(rest, rest[0].token);
    }
  }
}
