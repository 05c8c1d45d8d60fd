/** Process identity, session anchors, and the one liveness judgment of the allocator. */
module Liveness {
  import opened Options
  import opened Leases

  datatype Verdict = Match | Mismatch | Unknown
  datatype AnchorLife = Alive | Dead | Unsure

  // Is the process now at `pid` the one whose fingerprint was recorded?
  function FpVerdict(f: Fingerprint, pid: Pid, v: View): Verdict {
    if pid !in v.live || (f, pid) !in v.comparable then Unknown
    else if v.live[pid] == f.birth then Match
    else if f.legacy then Unknown
    else Mismatch
  }

  // A matching or refuting verdict is always right about the process at the pid.
  lemma VerdictIsHonest(f: Fingerprint, pid: Pid, v: View)
    ensures FpVerdict(f, pid, v) == Match ==> pid in v.live && v.live[pid] == f.birth
    ensures FpVerdict(f, pid, v) == Mismatch ==> pid in v.live && v.live[pid] != f.birth
  {
  }

  // The owner keys recorded for a pid at the moment it is learned.
  function PidFields(pid: Pid, v: View): Server {
    if pid == 0 then NO_SERVER
    else
      var strong := if pid in v.live && pid in v.readable
                    then Some(Fingerprint(false, v.live[pid])) else None;
      var legacy := if pid in v.live && pid in v.legacyReadable
                    then Some(Fingerprint(true, v.live[pid])) else None;
      Server(Some(pid), legacy, strong, if strong.Some? then Some(pid) else None)
  }

  // The fingerprint to trust for the process at `pid`: `fp` while it was measured on this
  // very pid, else `started`.
  function RecordedFp(s: Server, pid: Pid): Option<Fingerprint> {
    if s.fp.Some? && s.fpPid == Some(pid) then s.fp else s.started
  }

  function AnchorState(a: Anchor, v: View): AnchorLife {
    if a.pid !in v.live then Dead
    else if a.started.None? then Unsure
    else match FpVerdict(a.started.value, a.pid, v)
      case Match => Alive
      case Mismatch => Dead
      case Unknown => Unsure
  }

  // The state of a lease's own anchor, which means nothing off its host.
  function LeaseAnchor(l: Lease, v: View): AnchorLife
    requires l.owner.session.Some?
  {
    if l.owner.host != v.here then Unsure else AnchorState(l.owner.session.value.anchor, v)
  }

  predicate SameAnchor(a: Anchor, b: Anchor) {
    a.pid == b.pid && a.started.Some? && a.started == b.started
  }

  predicate IsCallersSession(s: Session, c: Caller) {
    || (c.anchor.Some? && SameAnchor(s.anchor, c.anchor.value))
    || (c.sessionId != "" && s.anchor.sessionId == c.sessionId)
  }

  // Re-anchor the lease onto the caller when it belongs to the caller's session.
  function Touched(l: Lease, v: View): Lease {
    if l.owner.session.Some? && v.caller.anchor.Some?
       && IsCallersSession(l.owner.session.value, v.caller)
    then l.(owner := l.owner.(session := Some(Session(v.caller.anchor.value, v.now))))
    else l
  }

  function Max(a: int, b: int): int { if a > b then a else b }

  function TtlThreshold(l: Lease): int {
    if l.ttlExplicit then l.ttl else Max(l.ttl, LEGACY_UNPROVABLE_TTL_S)
  }

  function LastTouch(l: Lease): int {
    var base := Max(l.heartbeatAt, l.owner.startedAt);
    if l.owner.session.Some? then Max(base, l.owner.session.value.seenAt) else base
  }

  datatype Protection = BySession | ByServerPid | ByPark | ByTtl | ByNone

  // `touch` says the judgment re-anchored the row onto the caller's resumed session.
  datatype Judgment = Judgment(reason: Option<Reason>, shield: Protection, touch: bool)

  predicate ParkBudgetSpent(l: Lease, v: View)
    requires l.parkedAt.Some?
  {
    && !(l.parkedBoot.Some? && v.boot.Some? && l.parkedBoot != v.boot)
    && v.now - l.parkedAt.value > (if l.parkTtl.Some? then l.parkTtl.value else DEFAULT_PARK_TTL_S)
  }

  // The arms below the session anchor: the recorded server pid, then the TTL.
  function JudgeServer(l: Lease, auto: bool, v: View): Judgment {
    var s := l.owner.server;
    var onHost := l.owner.host == v.here && s.pid.Some?;
    if onHost && s.pid.value !in v.live then Judgment(Some(PidDead), ByNone, false)
    else
      var fp := if onHost then RecordedFp(s, s.pid.value) else None;
      var verdict := if fp.Some? then FpVerdict(fp.value, s.pid.value, v) else Unknown;
      if verdict == Match then Judgment(None, ByServerPid, false)
      else if verdict == Mismatch then Judgment(Some(PidRecycled), ByNone, false)
      else if auto then Judgment(None, ByNone, false)
      else if v.now - LastTouch(l) > TtlThreshold(l) then Judgment(Some(TtlUnprovable), ByNone, false)
      else Judgment(None, ByTtl, false)
  }

  // Which arm condemns the lease, or what protects it. `auto` is the automatic reading: no
  // TTL arm, and a grace window after a session ends.
  function Judge(l: Lease, auto: bool, v: View): Judgment {
    if l.parkedAt.Some? then
      if ParkBudgetSpent(l, v) then Judgment(Some(ParkExpired), ByNone, false)
      else Judgment(None, ByPark, false)
    else if l.owner.session.Some? && l.mode != Shared then
      match LeaseAnchor(l, v)
      case Alive => Judgment(None, BySession, false)
      case Dead =>
        if IsCallersSession(l.owner.session.value, v.caller) then Judgment(None, BySession, true)
        else if auto && v.now - LastTouch(l) <= ANCHOR_GRACE_S then Judgment(None, BySession, false)
        else Judgment(Some(SessionEnded), ByNone, false)
      case Unsure => JudgeServer(l, auto, v)
    else JudgeServer(l, auto, v)
  }

  // True while another live process holds the row's marker; an off-host marker is honoured
  // for a bounded time because its process cannot be probed.
  predicate InProgress(l: Lease, v: View) {
    && l.reclaiming.Some?
    && var m := l.reclaiming.value;
       if m.host != v.here then v.now - m.at < RECLAIM_MARKER_OFFHOST_S else m.byPid in v.live
  }

  // The marker belongs to a process of another host and has outlived its bound.
  predicate LapsedMarker(l: Lease, v: View) {
    l.reclaiming.Some? && l.reclaiming.value.host != v.here && !InProgress(l, v)
  }

  predicate OwnerGone(r: Reason) { r == SessionEnded || r == PidDead || r == PidRecycled }

  // The reason an acquire may take capacity from this lease, if any.
  function CapacityReason(l: Lease, v: View): Option<Reason> {
    if l.mode == Shared || l.parkedAt.Some? || l.orphaned || InProgress(l, v) then None
    else
      var r := Judge(l, true, v).reason;
      if r.Some? && OwnerGone(r.value) then r else None
  }

  // The very process recorded as the lease's server, or as its anchor, is still running here.
  predicate ServerRuns(l: Lease, v: View) {
    && l.owner.host == v.here && l.owner.server.pid.Some?
    && var pid := l.owner.server.pid.value; var fp := RecordedFp(l.owner.server, pid);
       pid in v.live && (fp.Some? ==> v.live[pid] == fp.value.birth)
  }

  predicate SessionRuns(l: Lease, v: View) {
    && l.owner.host == v.here && l.owner.session.Some?
    && var a := l.owner.session.value.anchor;
       a.started.Some? && a.pid in v.live && v.live[a.pid] == a.started.value.birth
  }

  /** "The owner is gone" is always true: the process it speaks of is not running, whatever a
      probe that failed to answer left open, and every other host's lease is left to the TTL. */
  lemma OwnerGoneIsProof(l: Lease, auto: bool, v: View)
    ensures var reason := Judge(l, auto, v).reason;
      && (reason == Some(SessionEnded) ==> !SessionRuns(l, v))
      && (reason in {Some(PidDead), Some(PidRecycled)} ==> !ServerRuns(l, v))
      && (reason.Some? && OwnerGone(reason.value) ==> l.owner.host == v.here && l.parkedAt.None?)
  {
  }

  /** The automatic reading is the deliberate one less two things: it never acts on elapsed
      time alone, and it waits out a grace window after a session ends. */
  lemma AutomaticReading(l: Lease, v: View)
    ensures var manual := Judge(l, false, v).reason;
      var inGrace := v.now - LastTouch(l) <= ANCHOR_GRACE_S;
      Judge(l, true, v).reason ==
        if manual == Some(TtlUnprovable) || (manual == Some(SessionEnded) && inGrace) then None else manual
  {
  }

  // ---- ownership of a pid ---------------------------------------------------

  datatype Proof = ByFingerprint | ByCmdline | ByPort

  // An observation of the running process itself that only this lease's server can satisfy.
  function Corroboration(l: Lease, pid: Pid, v: View): Option<Proof> {
    if l.dbName != "" && (pid, l.dbName) in v.cmdline then Some(ByCmdline)
    else if exists p :: p in l.ports && (pid, p) in v.listening then Some(ByPort)
    else None
  }

  // A mismatch stops the ladder: nothing of this lease is left at that pid.
  function OwnershipProof(l: Lease, pid: Pid, v: View): Option<Proof> {
    var fp := RecordedFp(l.owner.server, pid);
    if fp.None? then Corroboration(l, pid, v)
    else match FpVerdict(fp.value, pid, v)
      case Match => Some(ByFingerprint)
      case Mismatch => None
      case Unknown => Corroboration(l, pid, v)
  }

  // The process group a stop of this lease signals: on this host, alive, and proven ours.
  function StopTarget(l: Lease, v: View): Option<(Pid, Proof)> {
    var pid := l.owner.server.pid;
    if l.owner.host != v.here || pid.None? || pid.value !in v.live then None
    else
      var proof := OwnershipProof(l, pid.value, v);
      if proof.None? then None else Some((pid.value, proof.value))
  }

  // ---- shedding -------------------------------------------------------------

  // The reason the recorded server is provably gone while its session lives, if it is.
  predicate ShedEligible(l: Lease, v: View) {
    && l.parkedAt.None? && l.mode != Shared && !InProgress(l, v)
    && l.owner.host == v.here && l.owner.session.Some? && LeaseAnchor(l, v) == Alive
  }

  predicate ServerProvablyGone(l: Lease, v: View) {
    && l.owner.server.pid.Some?
    && var pid := l.owner.server.pid.value;
       || pid !in v.live
       || (RecordedFp(l.owner.server, pid).Some?
           && FpVerdict(RecordedFp(l.owner.server, pid).value, pid, v) == Mismatch)
  }

  function Shedded(l: Lease, v: View): Lease {
    if ShedEligible(l, v) && ServerProvablyGone(l, v)
    then l.(owner := l.owner.(server := NO_SERVER, gone := l.owner.server.pid), heartbeatAt := v.now)
    else l
  }

  /** A reader from before session anchors: it compares the bare lstart with `==`, takes a dead
      pid or a different lstart as "owner gone", and otherwise looks only at the heartbeat.
      `lstart` is what that reader measures at the pid now. */
  predicate OldReaderCondemns(l: Lease, lstart: Option<Fingerprint>, v: View) {
    var s := l.owner.server;
    if l.parkedAt.Some? then ParkBudgetSpent(l, v)
    else if l.owner.host == v.here && s.pid.Some? then
      || s.pid.value !in v.live
      || (if s.started.Some? then lstart.Some? && s.started != lstart
          else v.now - l.heartbeatAt > l.ttl)
    else v.now - l.heartbeatAt > l.ttl
  }

  // Shedding never changes this allocator's own verdict, and shedding twice is shedding once.
  lemma ShedKeepsVerdict(l: Lease, auto: bool, v: View)
    ensures Judge(Shedded(l, v), auto, v) == Judge(l, auto, v)
    ensures Shedded(l, v) != l ==> Judge(l, auto, v) == Judgment(None, BySession, false)
    ensures Shedded(Shedded(l, v), v) == Shedded(l, v)
  {
  }

  // After a shed no eligible row names a dead or recycled process; a row it changed is safe
  // from the old reader for as long as its heartbeat is within ttl_s.
  lemma ShedProtectsAcrossVersions(l: Lease, v: View, later: View, lstart: Option<Fingerprint>)
    ensures ShedEligible(Shedded(l, v), v) ==> !ServerProvablyGone(Shedded(l, v), v)
    ensures (Shedded(l, v) != l && later.now - v.now <= l.ttl) ==>
              !OldReaderCondemns(Shedded(l, v), lstart, later)
    ensures (Shedded(l, v) != l && l.owner.server.pid.value !in v.live) ==>
              OldReaderCondemns(l, lstart, v)
  {
  }
}
