/** The lease registry's data: rows, their owners, process identity, and what one allocator
    process can observe while it holds the registry lock. */
module Leases {
  import opened Options

  type Token = string
  type Host = string
  type RunId = string
  type Pid = nat
  // The identity of one process: two processes never share a birth, whatever their pids.
  type Birth = nat

  const DEFAULT_TTL_S: int := 24 * 3600
  const LEGACY_UNPROVABLE_TTL_S: int := 24 * 3600
  const ANCHOR_GRACE_S: int := 1800
  const DEFAULT_PARK_TTL_S: int := 48 * 3600
  const RECLAIM_MARKER_OFFHOST_S: int := 3600

  datatype Mode = Ephemeral | Exclusive | Shared

  // A recorded start-time fingerprint. It was measured on the process `birth`; a legacy one
  // (bare `ps -o lstart=`) can confirm an identity but never refute it.
  datatype Fingerprint = Fingerprint(legacy: bool, birth: Birth)

  // The four owner keys that describe the recorded server process.
  datatype Server = Server(pid: Option<Pid>, started: Option<Fingerprint>,
                           fp: Option<Fingerprint>, fpPid: Option<Pid>)

  const NO_SERVER := Server(None, None, None, None)

  // The long-lived agent process of a session.
  datatype Anchor = Anchor(pid: Pid, started: Option<Fingerprint>, sessionId: string)

  datatype Session = Session(anchor: Anchor, seenAt: int)

  datatype Owner = Owner(host: Host, runId: RunId, startedAt: int, server: Server,
                         session: Option<Session>, gone: Option<Pid>,
                         returnToPark: bool, returnTtl: Option<int>)

  // Why a row was marked. The first five condemn a lease; a release gives its own reason.
  datatype Reason = SessionEnded | PidDead | PidRecycled | TtlUnprovable | ParkExpired | Released

  datatype Verb = GcVerb | ReleaseVerb | CapacityVerb

  datatype Marker = Marker(byPid: Pid, host: Host, at: int, reason: Reason, verb: Verb)

  datatype Lease = Lease(
    token: Token, mode: Mode, series: string, dbName: string, dropOnRelease: bool,
    ports: seq<int>, owner: Owner,
    parkedAt: Option<int>, parkTtl: Option<int>, parkedBoot: Option<string>,
    orphaned: bool, reclaiming: Option<Marker>,
    heartbeatAt: int, ttl: int, ttlExplicit: bool)

  // Who is calling: the run it names ("" for none), its session anchor and session id.
  datatype Caller = Caller(run: RunId, anchor: Option<Anchor>, sessionId: string)

  /** Everything one allocator process observes in one critical section. `live` maps the pids
      of this host to the processes that hold them; the remaining sets are the answers of the
      probes, and any probe may fail to answer at any moment. */
  datatype View = View(
    here: Host, me: Pid, now: int, boot: Option<string>, caller: Caller,
    live: map<Pid, Birth>,
    readable: set<Pid>,                     // the TZ-free fingerprint can be measured
    legacyReadable: set<Pid>,               // the bare lstart can be measured
    comparable: set<(Fingerprint, Pid)>,    // this recorded value can be compared now
    cmdline: set<(Pid, string)>,            // an Odoo server invocation for this database
    listening: set<(Pid, int)>)             // the pid's group listens on this port
  {
    // The observing process is itself running.
    ghost predicate Valid() { me in live }
  }

  predicate UniqueTokens(reg: seq<Lease>) {
    forall i, j :: 0 <= i < j < |reg| ==> reg[i].token != reg[j].token
  }

  predicate HasToken(reg: seq<Lease>, t: Token) {
    exists i :: 0 <= i < |reg| && reg[i].token == t
  }

  // The row of `t` in a registry that has one.
  function RowOf(reg: seq<Lease>, t: Token): (r: Lease)
    requires HasToken(reg, t)
    ensures r in reg && r.token == t
  {
    if reg[0].token == t then reg[0] else RowOf(reg[1..], t)
  }

  lemma {:induction false} RowOfUnique(reg: seq<Lease>, r: Lease)
    requires UniqueTokens(reg) && r in reg
    ensures HasToken(reg, r.token) && RowOf(reg, r.token) == r
  {
    var i :| 0 <= i < |reg| && reg[i] == r;
    if reg[0].token != r.token {
      assert reg[1..][i - 1] == r;
      RowOfUnique(reg[1..], r);
    }
  }
}
