/** The acquire loop: settle, decide, reclaim capacity outside the lock, try again - against
    arbitrary changes other processes make to the registry in between. */
module AcquireLoop {
  import opened Options
  import opened Leases
  import opened Liveness
  import opened RowOps
  import opened Sections
  import opened Ports
  import opened ReclaimRows
  import opened ReclaimSafety
  import opened LeaseRegistry

  const PORT_FREE_WAIT_MS := 5000
  const PORT_RETRY_MS := 250

  // The tokens whose rows carry the marker of the observing process.
  function MyMarks(reg: seq<Lease>, v: View): set<Token> {
    set l | l in reg && IsMine(l, v) :: l.token
  }

  // A later observation by the same, still running process.
  predicate SameProcess(v: View, later: View) {
    later.here == v.here && later.me == v.me && later.caller == v.caller && later.me in later.live
  }

  // ---- the rest of the world, between two critical sections ------------------------------

  /** Other processes rewrite the registry at will. Being other processes they hold other pids,
      so they never write this one's marker, and a fresh uuid token is never theirs. */
  method Interfere(r: Registry, v: View, newToken: Token)
    requires r.Valid() && !HasToken(r.leases, newToken)
    modifies r`leases
    ensures r.Valid() && !HasToken(r.leases, newToken)
    ensures MyMarks(r.leases, v) <= MyMarks(old(r.leases), v)
  {
  }

  // What this process observes when it next takes the lock, and which ports bind then.
  method Observe(v: View) returns (later: View, bindable: set<int>)
    requires v.me in v.live
    ensures SameProcess(v, later)
  {
    later, bindable := v, {};
  }

  method Sleep(clock: int, ms: nat) returns (later: int)
    ensures later >= clock + ms
  {
    later := clock + ms;
  }

  // ---- marks made and unmade --------------------------------------------------------------

  lemma SettleClearsMine(reg: seq<Lease>, outcomes: map<Token, Outcome>, v: View)
    ensures MyMarks(Apply(Settle(outcomes), reg, v), v) <= MyMarks(reg, v) - outcomes.Keys
  {
    var sec := Settle(outcomes);
    forall t | t in MyMarks(Apply(sec, reg, v), v) ensures t in MyMarks(reg, v) && t !in outcomes {
      var r :| r in Apply(sec, reg, v) && IsMine(r, v) && r.token == t;
      var l := RewriteOrigin(sec, reg, reg, v, r);
      RowKeepsToken(sec, reg, l, v);
      SettledIsUnmarked(outcomes, reg, l, v);
    }
  }

  lemma SettledIsUnmarked(outcomes: map<Token, Outcome>, reg: seq<Lease>, l: Lease, v: View)
    requires !Removes(Settle(outcomes), l, v) && IsMine(Row(Settle(outcomes), reg, l, v), v)
    ensures IsMine(l, v) && l.token !in outcomes
  {
  }

  lemma ClaimMarksWork(sec: Section, reg: seq<Lease>, v: View)
    requires sec.Claim?
    ensures var d := Decide(reg, sec.req, sec.tried, sec.bindable, sec.waiting, v);
      var reg' := Apply(sec, reg, v);
      MyMarks(reg', v) <= MyMarks(reg, v) + if d.Take? then Tokens(CapacityWork(reg, sec.req, d.kind, v)) else {}
  {
    var d := Decide(reg, sec.req, sec.tried, sec.bindable, sec.waiting, v);
    var reg' := Apply(sec, reg, v);
    if d.Take? { CapacityWorkExact(reg, sec.req, d.kind, v); }
    forall t | t in MyMarks(reg', v) && t !in MyMarks(reg, v)
      ensures d.Take? && t in Tokens(CapacityWork(reg, sec.req, d.kind, v))
    {
      var r :| r in reg' && IsMine(r, v) && r.token == t;
      var l := ApplyOrigin(sec, reg, v, r);
      RowKeepsToken(sec, reg, l, v);
      if l in reg && r == Row(sec, reg, l, v) {
        assert !IsMine(l, v);
        UntakenKeepsMark(sec, reg, l, v);
      } else {
        MintedRow(sec, reg, v);
      }
    }
  }

  lemma UntakenKeepsMark(sec: Section, reg: seq<Lease>, l: Lease, v: View)
    requires sec.Claim? && !IsMine(l, v) && IsMine(Row(sec, reg, l, v), v)
    ensures var d := Decide(reg, sec.req, sec.tried, sec.bindable, sec.waiting, v);
      d.Take? && Taken(l, sec.req, d.kind, v)
  {
    var d := Decide(reg, sec.req, sec.tried, sec.bindable, sec.waiting, v);
    if d.Take? { TakeRow(sec, reg, l, d.kind, v); }
  }

  function Tokens(work: seq<(Lease, Reason)>): set<Token> {
    set w | w in work :: w.0.token
  }

  /** Phase B of a capacity reclaim, outside the lock: stop each marked owner's server through
      the ownership gate. It deletes nothing but exclusive holds and drops no database. */
  method CapacityReclaim(work: seq<(Lease, Reason)>, delete: bool, v: View)
    returns (outcomes: map<Token, Outcome>, stopped: nat)
    ensures outcomes.Keys == Tokens(work)
    ensures forall t :: t in outcomes ==> outcomes[t] == if delete then DeleteRow else OrphanRow
    ensures stopped == 0 <==> forall w :: w in work ==> StopTarget(w.0, v).None?
  {
    outcomes, stopped := map[], 0;
    for i := 0 to |work|
      invariant outcomes.Keys == Tokens(work[..i])
      invariant forall t :: t in outcomes ==> outcomes[t] == if delete then DeleteRow else OrphanRow
      invariant stopped == 0 <==> forall w :: w in work[..i] ==> StopTarget(w.0, v).None?
    {
      assert work[..i + 1] == work[..i] + [work[i]];
      if StopTarget(work[i].0, v).Some? { stopped := stopped + 1; }
      outcomes := outcomes[work[i].0.token := if delete then DeleteRow else OrphanRow];
    }
    assert work[..|work|] == work;
  }

  // ---- the loop --------------------------------------------------------------------------------

  datatype Exit = Acquired(row: Lease) | ExclusiveConflict | PoolExhausted(outsideRegistry: bool)

  // The lease a granted acquire wrote is what it asked for.
  predicate Serves(row: Lease, req: Request, newToken: Token) {
    && row.token == newToken && row.mode == req.mode && row.dbName == req.dbName
    && (row.dropOnRelease <==> req.mode == Ephemeral && !req.noCreate)
    && |row.ports| == (if req.nPorts > 0 then req.nPorts else 0) && NoDuplicates(row.ports)
    && forall p :: p in row.ports ==> InPool(p, req.base, req.size) && p !in req.reserved
  }

  // One critical section of the loop: settle the pass before, then decide on the result.
  method SettleAndClaim(r: Registry, req: Request, newToken: Token, tried: set<Kind>, pending: map<Token, Outcome>,
                        bindable: set<int>, waiting: bool, v: View)
    returns (d: Decision, work: seq<(Lease, Reason)>)
    requires r.Valid() && !HasToken(r.leases, newToken) && req.mode != Shared
    modifies r
    ensures r.Valid() && (HasToken(r.leases, newToken) <==> d.Grant?)
    ensures MyMarks(r.leases, v) <= (MyMarks(old(r.leases), v) - pending.Keys) + Tokens(work)
    ensures d.Take? ==> d.kind !in tried
    ensures !d.Take? ==> work == []
    ensures d.Wait? ==> waiting
    ensures d.Grant? ==> var row := Minted(newToken, req, d.ports, v);
              Serves(row, req, newToken) && r.appended == old(r.appended) + [row]
    ensures !d.Grant? ==> r.appended == old(r.appended)
    ensures d.Conflict? ==> req.mode == Exclusive && exists l :: l in r.leases && HoldsDb(l, req)
    ensures d.Exhausted? ==> req.nPorts > 0
  {
    SettleClearsMine(r.leases, pending, v);
    SettleUnique(r.leases, pending, v, newToken);
    if pending != map[] {
      var _ := r.SettleMarked(pending, v);
    }
    ghost var reg := r.leases;
    ghost var sec := Claim(req, newToken, tried, bindable, waiting);
    ClaimMarksWork(sec, reg, v);
    ClaimUnique(sec, reg, v);
    DecisionFacts(sec, reg, v);
    d, work := r.ClaimPass(req, newToken, tried, bindable, waiting, v);
  }

  // What each decision says about the registry it was taken on.
  lemma DecisionFacts(sec: Section, reg: seq<Lease>, v: View)
    requires sec.Claim? && sec.req.mode != Shared
    ensures var d := Decide(reg, sec.req, sec.tried, sec.bindable, sec.waiting, v);
      && (d.Take? ==> d.kind !in sec.tried)
      && (d.Wait? ==> sec.waiting)
      && (d.Grant? ==> Serves(Minted(sec.newToken, sec.req, d.ports, v), sec.req, sec.newToken))
      && (d.Conflict? ==> sec.req.mode == Exclusive && Apply(sec, reg, v) == reg)
      && (d.Conflict? ==> exists l :: l in reg && HoldsDb(l, sec.req))
      && (d.Exhausted? ==> sec.req.nPorts > 0)
  {
    var d := Decide(reg, sec.req, sec.tried, sec.bindable, sec.waiting, v);
    if d.Grant? { GrantedPorts(sec.req, d.ports, PortsInUse(reg) + sec.req.reserved, sec.bindable); }
    if d.Conflict? { RefusalApply(sec, reg, v); }
  }

  /** The loop terminates whatever the others do: each pass either tries a kind of capacity not
      tried before, or waits inside the one port-free window. On success exactly one row is
      appended, with the n pool ports asked for; a refusal appends none; and on every return no
      row carries a marker this process has placed. */
  method AcquireLease(r: Registry, req: Request, newToken: Token, v0: View, clock0: int) returns (exit: Exit)
    requires r.Valid() && !HasToken(r.leases, newToken) && v0.me in v0.live && req.mode != Shared
    modifies r
    ensures r.Valid()
    ensures MyMarks(r.leases, v0) <= MyMarks(old(r.leases), v0)
    ensures exit.Acquired? ==>
              Serves(exit.row, req, newToken) && r.appended == old(r.appended) + [exit.row] && HasToken(r.leases, newToken)
    ensures !exit.Acquired? ==> r.appended == old(r.appended) && !HasToken(r.leases, newToken)
    ensures exit.ExclusiveConflict? ==> req.mode == Exclusive && exists l :: l in r.leases && HoldsDb(l, req)
    ensures exit.PoolExhausted? ==> req.nPorts > 0
  {
    var pending: map<Token, Outcome> := map[];
    var tried: set<Kind> := {};
    var deadline: Option<int> := None;
    var clock, v := clock0, v0;
    while true
      invariant r.Valid() && !HasToken(r.leases, newToken) && r.appended == old(r.appended)
      invariant SameProcess(v0, v)
      invariant MyMarks(r.leases, v0) <= MyMarks(old(r.leases), v0) + pending.Keys
      invariant deadline.Some? ==> Pool in tried
      decreases 2 - |tried|, if deadline.Some? then deadline.value - clock else 0
    {
      var bindable;
      v, bindable := Observe(v);
      KindsBound(tried);
      MarksOfProcess(r.leases, v0, v);
      var waiting := deadline.Some? && clock < deadline.value;
      var d, work := SettleAndClaim(r, req, newToken, tried, pending, bindable, waiting, v);
      MarksOfProcess(r.leases, v0, v);
      match d {
        case Grant(ports) => return Acquired(Minted(newToken, req, ports, v));
        case Conflict => return ExclusiveConflict;
        case Exhausted(outside) => return PoolExhausted(outside);
        case Wait =>
          pending := map[];
          clock := Sleep(clock, PORT_RETRY_MS);
        case Take(kind) =>
          KindsBound(tried + {kind});
          tried := tried + {kind};
          var stopped;
          pending, stopped := CapacityReclaim(work, kind == Hold, v);
          clock := Sleep(clock, 0);
          if stopped > 0 && Pool in tried && deadline.None? {
            deadline := Some(clock + PORT_FREE_WAIT_MS);
          }
      }
      Interfere(r, v0, newToken);
    }
  }

  lemma MarksOfProcess(reg: seq<Lease>, v: View, later: View)
    requires SameProcess(v, later)
    ensures MyMarks(reg, later) == MyMarks(reg, v)
  {
    forall l | l in reg ensures IsMine(l, later) <==> IsMine(l, v) { }
  }

  lemma KindsBound(tried: set<Kind>)
    ensures |tried| <= 2
  {
    forall k | k in tried ensures k in {Hold, Pool} {
      match k case Hold => case Pool =>
    }
    SubsetBound(tried, {Hold, Pool});
  }

  lemma {:induction false} SubsetBound<T>(a: set<T>, b: set<T>)
    requires a <= b
    ensures |a| <= |b|
  {
    if a != {} {
      var x :| x in a;
      SubsetBound(a - {x}, b - {x});
    }
  }

  lemma SettleUnique(reg: seq<Lease>, outcomes: map<Token, Outcome>, v: View, newToken: Token)
    requires UniqueTokens(reg) && !HasToken(reg, newToken)
    ensures UniqueTokens(Apply(Settle(outcomes), reg, v)) && !HasToken(Apply(Settle(outcomes), reg, v), newToken)
  {
    RewriteTokens(Settle(outcomes), reg, reg, v);
  }

  lemma ClaimUnique(sec: Section, reg: seq<Lease>, v: View)
    requires sec.Claim? && UniqueTokens(reg) && !HasToken(reg, sec.newToken)
    ensures var reg' := Apply(sec, reg, v);
      && UniqueTokens(reg')
      && (HasToken(reg', sec.newToken) <==> Decide(reg, sec.req, sec.tried, sec.bindable, sec.waiting, v).Grant?)
  {
    RewriteTokens(sec, reg, reg, v);
    var rs, reg' := Rewrite(sec, reg, reg, v), Apply(sec, reg, v);
    forall i | 0 <= i < |rs| ensures rs[i].token != sec.newToken { assert rs[i] in rs; }
    if Mints(sec, reg, v).Some? { assert reg'[|rs|].token == sec.newToken; }
  }

  lemma GrantedPorts(req: Request, ports: seq<int>, used: set<int>, bindable: set<int>)
    requires PickPorts(req.base, req.size, req.nPorts, used, bindable) == Some(ports) && req.reserved <= used
    ensures |ports| == (if req.nPorts > 0 then req.nPorts else 0) && NoDuplicates(ports)
    ensures forall p :: p in ports ==> InPool(p, req.base, req.size) && p !in req.reserved
  {
    if req.nPorts > 0 { PickPortsFirstFit(req.base, req.size, req.nPorts, used, bindable); }
  }
}
