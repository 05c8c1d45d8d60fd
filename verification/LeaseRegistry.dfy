/** The registry as the verbs use it: a list of rows read and rewritten in place, one critical
    section per method, each proved against the section it implements. */
module LeaseRegistry {
  import opened Options
  import opened Leases
  import opened Liveness
  import opened RowOps
  import opened Sections
  import opened Ports
  import opened ReclaimSystem

  // ---- the sections as pointwise rewrites -------------------------------------------

  // A section that removes nothing rewrites the registry row by row.
  lemma {:induction false} RewritePointwise(sec: Section, reg: seq<Lease>, rest: seq<Lease>, v: View)
    requires forall l :: l in rest ==> !Removes(sec, l, v)
    ensures |Rewrite(sec, reg, rest, v)| == |rest|
    ensures forall i :: 0 <= i < |rest| ==> Rewrite(sec, reg, rest, v)[i] == Row(sec, reg, rest[i], v)
  {
    if rest != [] {
      RewritePointwise(sec, reg, rest[1..], v);
      var tail := Rewrite(sec, reg, rest[1..], v);
      var all := Rewrite(sec, reg, rest, v);
      assert all == [Row(sec, reg, rest[0], v)] + tail;
      forall i | 0 <= i < |rest| ensures all[i] == Row(sec, reg, rest[i], v) {
        if i > 0 { assert all[i] == tail[i - 1] && rest[1..][i - 1] == rest[i]; }
      }
    }
  }

  lemma RowsRewritten(sec: Section, reg: seq<Lease>, v: View, rows: seq<Lease>)
    requires !sec.Settle? && |rows| == |reg|
    requires forall i :: 0 <= i < |reg| ==> rows[i] == Row(sec, reg, reg[i], v)
    ensures rows == Rewrite(sec, reg, reg, v)
    ensures Mints(sec, reg, v).None? ==> rows == Apply(sec, reg, v)
  {
    RewritePointwise(sec, reg, reg, v);
  }

  lemma {:induction false} RewriteSplit(sec: Section, reg: seq<Lease>, a: seq<Lease>, b: seq<Lease>, v: View)
    ensures Rewrite(sec, reg, a + b, v) == Rewrite(sec, reg, a, v) + Rewrite(sec, reg, b, v)
  {
    if a == [] {
      assert a + b == b;
    } else {
      assert (a + b)[1..] == a[1..] + b;
      RewriteSplit(sec, reg, a[1..], b, v);
    }
  }

  // The work list without the warrants.
  function Work(items: seq<Item>): seq<(Lease, Reason)> {
    seq(|items|, i requires 0 <= i < |items| => (items[i].snap, items[i].reason))
  }

  lemma {:induction false} MarkedSplit(sec: Section, reg: seq<Lease>, a: seq<Lease>, b: seq<Lease>, v: View)
    ensures Marked(sec, reg, a + b, false, v) == Marked(sec, reg, a, false, v) + Marked(sec, reg, b, false, v)
  {
    if a == [] {
      assert a + b == b;
    } else {
      assert (a + b)[1..] == a[1..] + b;
      MarkedSplit(sec, reg, a[1..], b, v);
      var p := PlanFor(sec, reg, a[0], v);
      var first := if p.b.Mark? then [Item(Row2(p, a[0], v), p.b.reason, WarrantFor(sec, a[0], false, v))] else [];
      Associates(first, Marked(sec, reg, a[1..], false, v), Marked(sec, reg, b, false, v));
    }
  }

  lemma Associates<T>(a: seq<T>, b: seq<T>, c: seq<T>)
    ensures a + (b + c) == (a + b) + c
  {
  }

  lemma MarkedNext(sec: Section, reg: seq<Lease>, i: nat, v: View)
    requires i < |reg|
    ensures var p := PlanFor(sec, reg, reg[i], v);
      Work(Marked(sec, reg, reg[..i + 1], false, v)) == Work(Marked(sec, reg, reg[..i], false, v))
        + if p.b.Mark? then [(Row2(p, reg[i], v), p.b.reason)] else []
  {
    assert reg[..i + 1] == reg[..i] + [reg[i]];
    MarkedSplit(sec, reg, reg[..i], [reg[i]], v);
    assert Marked(sec, reg, [reg[i]][1..], false, v) == [];
  }

  // ---- the passes of the multi-pass sections over one row --------------------------------

  function HeartbeatPass(l: Lease, only: Option<Token>, session: Option<SessionFilter>, v: View): Lease {
    if Hit(l, only, session) then Touched(Backfilled(l.(heartbeatAt := v.now), v), v) else l
  }

  lemma HeartbeatRow(reg: seq<Lease>, l: Lease, only: Option<Token>, session: Option<SessionFilter>, v: View)
    requires only.Some? || session.Some?
    ensures Row(Heartbeat(only, session), reg, l, v) == Shedded(HeartbeatPass(l, only, session, v), v)
  {
  }

  function JudgePass(l: Lease, scope: Scope, v: View): Lease {
    if GcTouches(l, scope, v) then Touched(l, v) else l
  }

  function MarkPass(l: Lease, scope: Scope, v: View): Lease {
    var reason := GcReason(l, scope, v);
    if reason.Some?
    then JudgePass(l, scope, v).(reclaiming := Some(Marker(v.me, v.here, v.now, reason.value, GcVerb)))
    else JudgePass(l, scope, v)
  }

  lemma GcRowMarks(reg: seq<Lease>, l: Lease, scope: Scope, v: View)
    ensures var p := PlanFor(GcMark(scope), reg, l, v);
      && p.c == Nop && p.d == Shed && Row2(p, l, v) == MarkPass(l, scope, v)
      && (p.b.Mark? <==> GcReason(l, scope, v).Some?)
      && (p.b.Mark? ==> p.b.reason == GcReason(l, scope, v).value)
  {
    var p := PlanFor(GcMark(scope), reg, l, v);
    assert Row1(p, l, v) == JudgePass(l, scope, v);
  }

  lemma GcRow(reg: seq<Lease>, l: Lease, scope: Scope, v: View)
    ensures Row(GcMark(scope), reg, l, v) == Shedded(MarkPass(l, scope, v), v)
  {
    GcRowMarks(reg, l, scope, v);
    ShedLast(PlanFor(GcMark(scope), reg, l, v), l, v);
  }

  lemma ShedLast(p: Plan, l: Lease, v: View)
    requires p.c == Nop && p.d == Shed
    ensures ApplyPlan(p, l, v) == Shedded(Row2(p, l, v), v)
  {
  }

  lemma GcWorkNext(reg: seq<Lease>, i: nat, scope: Scope, v: View)
    requires i < |reg|
    ensures Work(Marked(GcMark(scope), reg, reg[..i + 1], false, v))
         == Work(Marked(GcMark(scope), reg, reg[..i], false, v))
          + if GcReason(reg[i], scope, v).Some? then [(MarkPass(reg[i], scope, v), GcReason(reg[i], scope, v).value)] else []
  {
    MarkedNext(GcMark(scope), reg, i, v);
    GcRowMarks(reg, reg[i], scope, v);
  }

  function SettlePass(l: Lease, outcomes: map<Token, Outcome>, v: View): seq<Lease> {
    if l.token !in outcomes || !IsMine(l, v) then [l]
    else if outcomes[l.token] == DeleteRow then []
    else [ApplyOp(SettleOp(outcomes[l.token]), l, v)]
  }

  // The tokens of the rows a settle reaches.
  function Settled(rows: seq<Lease>, outcomes: map<Token, Outcome>, v: View): set<Token> {
    set l | l in rows && l.token in outcomes && IsMine(l, v) :: l.token
  }

  lemma SettleNext(reg: seq<Lease>, i: nat, outcomes: map<Token, Outcome>, v: View)
    requires i < |reg|
    ensures Settled(reg[..i + 1], outcomes, v) == Settled(reg[..i], outcomes, v)
      + if reg[i].token in outcomes && IsMine(reg[i], v) then {reg[i].token} else {}
    ensures Rewrite(Settle(outcomes), reg, reg[..i + 1], v)
         == Rewrite(Settle(outcomes), reg, reg[..i], v) + SettlePass(reg[i], outcomes, v)
  {
    var sec := Settle(outcomes);
    assert reg[..i + 1] == reg[..i] + [reg[i]];
    RewriteSplit(sec, reg, reg[..i], [reg[i]], v);
    assert Rewrite(sec, reg, [reg[i]][1..], v) == [];
    assert Rewrite(sec, reg, [reg[i]], v) == if Removes(sec, reg[i], v) then [] else [Row(sec, reg, reg[i], v)];
  }

  // What a capacity mark does to one row, and the work list it yields.
  function CapacityPass(l: Lease, req: Request, kind: Kind, v: View): Lease {
    if !Contends(l, req, kind) then l
    else
      var judged := if CapacityTouches(l, v) then Touched(l, v) else l;
      var reason := CapacityReason(l, v);
      if reason.Some?
      then judged.(reclaiming := Some(Marker(v.me, v.here, v.now, reason.value, CapacityVerb))) else judged
  }

  predicate Taken(l: Lease, req: Request, kind: Kind, v: View) {
    Contends(l, req, kind) && CapacityReason(l, v).Some?
  }

  function CapacityWork(rest: seq<Lease>, req: Request, kind: Kind, v: View): seq<(Lease, Reason)> {
    if rest == [] then []
    else
      (if Taken(rest[0], req, kind, v)
       then [(CapacityPass(rest[0], req, kind, v), CapacityReason(rest[0], v).value)] else [])
      + CapacityWork(rest[1..], req, kind, v)
  }

  lemma {:induction false} CapacityWorkSplit(a: seq<Lease>, b: seq<Lease>, req: Request, kind: Kind, v: View)
    ensures CapacityWork(a + b, req, kind, v) == CapacityWork(a, req, kind, v) + CapacityWork(b, req, kind, v)
  {
    if a == [] {
      assert a + b == b;
    } else {
      assert (a + b)[1..] == a[1..] + b;
      CapacityWorkSplit(a[1..], b, req, kind, v);
    }
  }

  lemma CapacityWorkNext(reg: seq<Lease>, i: nat, req: Request, kind: Kind, v: View)
    requires i < |reg|
    ensures CapacityWork(reg[..i + 1], req, kind, v) == CapacityWork(reg[..i], req, kind, v)
      + if Taken(reg[i], req, kind, v)
        then [(CapacityPass(reg[i], req, kind, v), CapacityReason(reg[i], v).value)] else []
  {
    assert reg[..i + 1] == reg[..i] + [reg[i]];
    CapacityWorkSplit(reg[..i], [reg[i]], req, kind, v);
    assert CapacityWork([reg[i]][1..], req, kind, v) == [];
  }

  lemma {:induction false} CapacityWorkExact(rest: seq<Lease>, req: Request, kind: Kind, v: View)
    ensures CapacityWork(rest, req, kind, v) != [] <==> exists l :: l in rest && Taken(l, req, kind, v)
    ensures forall l :: l in rest && Taken(l, req, kind, v) ==>
              exists w :: w in CapacityWork(rest, req, kind, v) && w.0.token == l.token
  {
    if rest != [] {
      CapacityWorkExact(rest[1..], req, kind, v);
      var tail := CapacityWork(rest[1..], req, kind, v);
      forall l | l in rest && Taken(l, req, kind, v)
        ensures exists w :: w in CapacityWork(rest, req, kind, v) && w.0.token == l.token
      {
        if l == rest[0] {
          assert CapacityWork(rest, req, kind, v)[0].0.token == l.token;
        } else {
          assert l in rest[1..];
          var w :| w in tail && w.0.token == l.token;
          assert w in CapacityWork(rest, req, kind, v);
        }
      }
    }
  }

  lemma TakeRow(sec: Section, reg: seq<Lease>, l: Lease, kind: Kind, v: View)
    requires sec.Claim? && Decide(reg, sec.req, sec.tried, sec.bindable, sec.waiting, v) == Take(kind)
    ensures Row(sec, reg, l, v) == CapacityPass(l, sec.req, kind, v)
    ensures var p := PlanFor(sec, reg, l, v);
      && (p.b.Mark? <==> Taken(l, sec.req, kind, v))
      && (p.b.Mark? ==> p.b.reason == CapacityReason(l, v).value && Row2(p, l, v) == CapacityPass(l, sec.req, kind, v))
  {
  }

  lemma {:induction false} TakeWork(sec: Section, reg: seq<Lease>, rest: seq<Lease>, kind: Kind, v: View)
    requires sec.Claim? && Decide(reg, sec.req, sec.tried, sec.bindable, sec.waiting, v) == Take(kind)
    ensures Work(Marked(sec, reg, rest, false, v)) == CapacityWork(rest, sec.req, kind, v)
  {
    if rest != [] {
      TakeRow(sec, reg, rest[0], kind, v);
      TakeWork(sec, reg, rest[1..], kind, v);
      var p := PlanFor(sec, reg, rest[0], v);
      var head := if p.b.Mark? then [Item(Row2(p, rest[0], v), p.b.reason, WarrantFor(sec, rest[0], false, v))] else [];
      assert Marked(sec, reg, rest, false, v) == head + Marked(sec, reg, rest[1..], false, v);
    }
  }

  // The three ways a claim ends, as whole registries.
  lemma TakeApply(sec: Section, reg: seq<Lease>, rows: seq<Lease>, kind: Kind, v: View)
    requires sec.Claim? && Decide(reg, sec.req, sec.tried, sec.bindable, sec.waiting, v) == Take(kind)
    requires |rows| == |reg| && forall k :: 0 <= k < |reg| ==> rows[k] == CapacityPass(reg[k], sec.req, kind, v)
    ensures Apply(sec, reg, v) == rows
  {
    forall k | 0 <= k < |reg| ensures rows[k] == Row(sec, reg, reg[k], v) { TakeRow(sec, reg, reg[k], kind, v); }
    RowsRewritten(sec, reg, v, rows);
  }

  lemma RefusalApply(sec: Section, reg: seq<Lease>, v: View)
    requires sec.Claim?
    requires var d := Decide(reg, sec.req, sec.tried, sec.bindable, sec.waiting, v); !d.Take? && !d.Grant?
    ensures Apply(sec, reg, v) == reg
  {
    RowsRewritten(sec, reg, v, reg);
  }

  // A minting section sheds every row, the new one included.
  lemma MintApply(sec: Section, reg: seq<Lease>, rows: seq<Lease>, lease: Lease, v: View)
    requires Mints(sec, reg, v) == Some(lease)
    requires |rows| == |reg| + 1 && rows[|reg|] == Shedded(lease, v)
    requires forall k :: 0 <= k < |reg| ==> rows[k] == Shedded(reg[k], v)
    ensures Apply(sec, reg, v) == rows
  {
    forall k | 0 <= k < |reg| ensures rows[..|reg|][k] == Row(sec, reg, reg[k], v) { MintRow(sec, reg, reg[k], v); }
    RowsRewritten(sec, reg, v, rows[..|reg|]);
    assert rows == rows[..|reg|] + [Shedded(lease, v)];
  }

  lemma MintRow(sec: Section, reg: seq<Lease>, l: Lease, v: View)
    requires Mints(sec, reg, v).Some?
    ensures Row(sec, reg, l, v) == Shedded(l, v)
  {
  }

  function AttachPass(l: Lease, here: bool, req: Request, port: Option<int>, v: View): Lease {
    if !here then l
    else
      l.(owner := if req.pid != 0 then l.owner.(server := PidFields(req.pid, v)) else l.owner,
         ports := if port.Some? then [port.value] else l.ports, heartbeatAt := v.now)
  }

  lemma AttachRow(newToken: Token, req: Request, port: Option<int>, reg: seq<Lease>, l: Lease, v: View)
    ensures Row(AttachShared(newToken, req, port), reg, l, v)
         == Shedded(AttachPass(l, FirstShared(reg, req) == Some(l.token) && l.mode == Shared, req, port, v), v)
  {
  }

  // The rows after a park, done or refused.
  lemma ParkRows(token: Token, force: bool, ttl: int, reg: seq<Lease>, v: View, rows: seq<Lease>)
    requires UniqueTokens(reg) && |rows| == |reg|
    requires if HasToken(reg, token) && AnswerPark(RowOf(reg, token), force, v) == ParkDone then
        forall i :: 0 <= i < |reg| ==> rows[i] == if reg[i].token == token then Parked(reg[i], ttl, v) else reg[i]
      else rows == reg
    ensures rows == Apply(ParkLease(token, force, ttl), reg, v)
  {
    var sec := ParkLease(token, force, ttl);
    forall i | 0 <= i < |reg| ensures rows[i] == Row(sec, reg, reg[i], v) {
      RowOfUnique(reg, reg[i]);
    }
    RowsRewritten(sec, reg, v, rows);
  }

  // The rows after an adoption, given or refused.
  lemma AdoptRows(token: Token, sameTree: bool, reg: seq<Lease>, v: View, rows: seq<Lease>)
    requires UniqueTokens(reg) && |rows| == |reg|
    requires if HasToken(reg, token) && AnswerAdopt(RowOf(reg, token), sameTree, v) == AdoptDone then
        forall i :: 0 <= i < |reg| ==>
          rows[i] == Shedded(if reg[i].token == token then ApplyOp(Adopt, reg[i], v) else reg[i], v)
      else rows == reg
    ensures rows == Apply(AdoptLease(token, sameTree), reg, v)
  {
    var sec := AdoptLease(token, sameTree);
    forall i | 0 <= i < |reg| ensures rows[i] == Row(sec, reg, reg[i], v) {
      RowOfUnique(reg, reg[i]);
    }
    RowsRewritten(sec, reg, v, rows);
  }

  // The rows after a resume, won or lost.
  lemma ResumeRows(token: Token, pid: Pid, present: Option<bool>, reg: seq<Lease>, v: View, rows: seq<Lease>)
    requires UniqueTokens(reg) && |rows| == |reg|
    requires if HasToken(reg, token) && AnswerResume(RowOf(reg, token), pid, present, v) == ResumeDone then
        forall i :: 0 <= i < |reg| ==> rows[i] == if reg[i].token == token then ApplyOp(Unpark(pid), reg[i], v) else reg[i]
      else rows == reg
    ensures rows == Apply(ResumeLease(token, pid, present), reg, v)
  {
    var sec := ResumeLease(token, pid, present);
    forall i | 0 <= i < |reg| ensures rows[i] == Row(sec, reg, reg[i], v) {
      RowOfUnique(reg, reg[i]);
      ResumedRow(token, pid, present, reg, reg[i], v);
    }
    RowsRewritten(sec, reg, v, rows);
  }

  lemma ResumedRow(token: Token, pid: Pid, present: Option<bool>, reg: seq<Lease>, l: Lease, v: View)
    ensures Row(ResumeLease(token, pid, present), reg, l, v)
      == if l.token == token && AnswerResume(l, pid, present, v) == ResumeDone then ApplyOp(Unpark(pid), l, v) else l
  {
  }

  class Registry {
    var leases: seq<Lease>
    // The rows the current process has appended: the account of its own writes.
    ghost var appended: seq<Lease>

    ghost predicate Valid() reads this { UniqueTokens(leases) }

    constructor ()
      ensures Valid() && leases == [] && appended == []
    {
      leases := [];
      appended := [];
    }

    // Every row of the machine sheds a provably gone server.
    method ShedGoneServers(v: View) returns (changed: nat)
      modifies this`leases
      ensures |leases| == old(|leases|)
      ensures forall i :: 0 <= i < |leases| ==> leases[i] == Shedded(old(leases)[i], v)
      ensures changed == 0 <==> leases == old(leases)
    {
      changed := 0;
      for i := 0 to |leases|
        invariant |leases| == old(|leases|)
        invariant forall k :: 0 <= k < i ==> leases[k] == Shedded(old(leases)[k], v)
        invariant forall k :: i <= k < |leases| ==> leases[k] == old(leases)[k]
        invariant changed == 0 <==> forall k :: 0 <= k < i ==> leases[k] == old(leases)[k]
      {
        var shed := Shedded(leases[i], v);
        if shed != leases[i] { changed := changed + 1; }
        leases := leases[i := shed];
      }
    }

    method BeatHeart(only: Option<Token>, session: Option<SessionFilter>, v: View) returns (touched: seq<Token>)
      requires Valid() && (only.Some? || session.Some?)
      modifies this`leases
      ensures leases == Apply(Heartbeat(only, session), old(leases), v)
      ensures forall t :: t in touched <==> exists l :: l in old(leases) && l.token == t && Hit(l, only, session)
    {
      ghost var reg := leases;
      touched := [];
      for i := 0 to |leases|
        invariant |leases| == |reg|
        invariant forall k :: 0 <= k < i ==> leases[k] == HeartbeatPass(reg[k], only, session, v)
        invariant forall k :: i <= k < |leases| ==> leases[k] == reg[k]
        invariant forall t :: t in touched <==> exists l :: l in reg[..i] && l.token == t && Hit(l, only, session)
      {
        var lease := leases[i];
        assert reg[..i + 1] == reg[..i] + [lease];
        if Hit(lease, only, session) {
          touched := touched + [lease.token];
          lease := lease.(heartbeatAt := v.now);
          lease := Backfilled(lease, v);
          lease := Touched(lease, v);
          leases := leases[i := lease];
        }
      }
      assert reg[..|reg|] == reg;
      var _ := ShedGoneServers(v);
      forall k | 0 <= k < |reg| ensures leases[k] == Row(Heartbeat(only, session), reg, reg[k], v) {
        HeartbeatRow(reg, reg[k], only, session, v);
      }
      RowsRewritten(Heartbeat(only, session), reg, v, leases);
    }

    method BindServer(token: Token, pid: Pid, v: View) returns (found: bool)
      requires Valid() && pid != 0
      modifies this`leases
      ensures leases == Apply(Bind(token, pid), old(leases), v)
      ensures found <==> HasToken(old(leases), token)
    {
      ghost var reg := leases;
      ghost var sec := Bind(token, pid);
      found := false;
      for i := 0 to |leases|
        invariant |leases| == |reg|
        invariant found <==> exists k :: 0 <= k < i && reg[k].token == token
        invariant forall k :: 0 <= k < i ==>
          leases[k] == if reg[k].token == token then ApplyOp(RowOps.BindServer(pid), reg[k], v) else reg[k]
        invariant forall k :: i <= k < |leases| ==> leases[k] == reg[k]
      {
        if leases[i].token == token {
          leases := leases[i := leases[i].(owner := OwnerServing(leases[i].owner, pid, v))];
          found := true;
        }
      }
      if found {
        var _ := ShedGoneServers(v);
      }
      RowsRewritten(sec, reg, v, leases);
    }

    // The position of a token, or the number of rows.
    method Find(token: Token) returns (i: nat)
      ensures i <= |leases|
      ensures i < |leases| ==> leases[i].token == token
      ensures i == |leases| <==> !HasToken(leases, token)
    {
      i := 0;
      while i < |leases| && leases[i].token != token
        invariant i <= |leases| && forall k :: 0 <= k < i ==> leases[k].token != token
      {
        i := i + 1;
      }
    }

    // Park stops the server it can prove before it clears the pid; `signal` is that stop.
    method Park(token: Token, force: bool, ttl: int, v: View)
      returns (answer: Option<ParkAnswer>, signal: Option<(Pid, Proof)>)
      requires Valid()
      modifies this`leases
      ensures leases == Apply(ParkLease(token, force, ttl), old(leases), v)
      ensures answer == if HasToken(old(leases), token)
                        then Some(AnswerPark(RowOf(old(leases), token), force, v)) else None
      ensures signal == if answer == Some(ParkDone) then StopTarget(RowOf(old(leases), token), v) else None
    {
      ghost var reg := leases;
      answer, signal := None, None;
      var i := Find(token);
      if i < |leases| {
        assert leases[i] in reg;
        RowOfUnique(reg, leases[i]);
        answer := Some(AnswerPark(leases[i], force, v));
        if answer == Some(ParkDone) {
          signal := StopTarget(leases[i], v);
          leases := leases[i := Parked(leases[i], ttl, v)];
        }
      }
      ParkRows(token, force, ttl, reg, v, leases);
    }

    method Resume(token: Token, pid: Pid, present: Option<bool>, v: View) returns (answer: Option<ResumeAnswer>)
      requires Valid()
      modifies this`leases
      ensures leases == Apply(ResumeLease(token, pid, present), old(leases), v)
      ensures answer == if HasToken(old(leases), token)
                        then Some(AnswerResume(RowOf(old(leases), token), pid, present, v)) else None
    {
      ghost var reg := leases;
      answer := None;
      var i := Find(token);
      if i < |leases| {
        assert leases[i] in reg;
        RowOfUnique(reg, leases[i]);
        answer := Some(AnswerResume(leases[i], pid, present, v));
        if answer == Some(ResumeDone) {
          var target := ResumeRow(leases[i], pid, v);
          leases := leases[i := target];
        }
      }
      ResumeRows(token, pid, present, reg, v, leases);
    }

    // The set half of a resume: the three park keys go, the server and the way back are recorded.
    method ResumeRow(lease: Lease, pid: Pid, v: View) returns (target: Lease)
      ensures target == ApplyOp(Unpark(pid), lease, v)
    {
      var budget := lease.parkTtl;
      target := lease.(parkedAt := None, parkTtl := None, parkedBoot := None);
      target := target.(owner := OwnerServing(target.owner, pid, v));
      target := target.(owner := MarkedReturn(target.owner, budget), heartbeatAt := v.now);
    }

    method AdoptLeaseOf(token: Token, sameTree: bool, v: View) returns (answer: Option<AdoptAnswer>)
      requires Valid()
      modifies this`leases
      ensures leases == Apply(AdoptLease(token, sameTree), old(leases), v)
      ensures answer == if HasToken(old(leases), token)
                        then Some(AnswerAdopt(RowOf(old(leases), token), sameTree, v)) else None
    {
      ghost var reg := leases;
      answer := None;
      var i := Find(token);
      if i < |leases| {
        assert leases[i] in reg;
        RowOfUnique(reg, leases[i]);
        answer := Some(AnswerAdopt(leases[i], sameTree, v));
        if answer == Some(AdoptDone) {
          var target := leases[i];
          var owner := target.owner.(session := Some(Session(v.caller.anchor.value, v.now)));
          if target.parkedAt.Some? { owner := MarkedReturn(owner, target.parkTtl); }
          leases := leases[i := target.(owner := owner, heartbeatAt := v.now)];
          var _ := ShedGoneServers(v);
        }
      }
      AdoptRows(token, sameTree, reg, v, leases);
    }

    // Phase A of release: validate ownership and mark, under the lock.
    method MarkForRelease(token: Token, force: bool, v: View) returns (work: Option<Lease>)
      requires Valid()
      modifies this`leases
      ensures leases == Apply(ReleaseMark(token, force), old(leases), v)
      ensures work.Some? <==> (
        && HasToken(old(leases), token) && !InProgress(RowOf(old(leases), token), v)
        && !Refused(RowOf(old(leases), token), v.caller.run, force))
      ensures work.Some? ==> work.value == ApplyOp(Mark(Released, ReleaseVerb), RowOf(old(leases), token), v)
    {
      ghost var reg := leases;
      work := None;
      var i := Find(token);
      if i < |leases| {
        assert leases[i] in reg;
        RowOfUnique(reg, leases[i]);
        if !InProgress(leases[i], v) && !Refused(leases[i], v.caller.run, force) {
          var lease := leases[i].(reclaiming := Some(Marker(v.me, v.here, v.now, Released, ReleaseVerb)));
          leases := leases[i := lease];
          work := Some(lease);
        }
      }
      RowsRewritten(ReleaseMark(token, force), reg, v, leases);
    }

    // The verdict on every row, re-anchoring those of a resumed session.
    method GcTargets(scope: Scope, v: View) returns (targets: seq<Option<Reason>>)
      modifies this`leases
      ensures |targets| == |leases| == |old(leases)|
      ensures forall k :: 0 <= k < |leases| ==>
        targets[k] == GcReason(old(leases)[k], scope, v) && leases[k] == JudgePass(old(leases)[k], scope, v)
    {
      ghost var reg := leases;
      targets := [];
      for i := 0 to |leases|
        invariant |leases| == |reg| && |targets| == i
        invariant forall k :: 0 <= k < i ==>
          targets[k] == GcReason(reg[k], scope, v) && leases[k] == JudgePass(reg[k], scope, v)
        invariant forall k :: i <= k < |leases| ==> leases[k] == reg[k]
      {
        targets := targets + [GcReason(leases[i], scope, v)];
        if GcTouches(leases[i], scope, v) { leases := leases[i := Touched(leases[i], v)]; }
      }
    }

    /** Phase A of gc: judge every row (a resumed session re-anchors its own), mark the condemned
        ones, then shed; the work list holds the detached snapshots in registry order. */
    method MarkForGc(scope: Scope, v: View) returns (work: seq<(Lease, Reason)>)
      requires Valid() && v.Valid()
      modifies this`leases
      ensures leases == Apply(GcMark(scope), old(leases), v)
      ensures work == Work(Marked(GcMark(scope), old(leases), old(leases), false, v))
    {
      ghost var reg := leases;
      var targets := GcTargets(scope, v);
      work := [];
      for i := 0 to |leases|
        invariant |leases| == |reg| == |targets|
        invariant work == Work(Marked(GcMark(scope), reg, reg[..i], false, v))
        invariant forall k :: 0 <= k < |reg| ==> targets[k] == GcReason(reg[k], scope, v)
        invariant forall k :: 0 <= k < i ==> leases[k] == MarkPass(reg[k], scope, v)
        invariant forall k :: i <= k < |leases| ==> leases[k] == JudgePass(reg[k], scope, v)
      {
        GcWorkNext(reg, i, scope, v);
        if targets[i].Some? {
          var lease := leases[i].(reclaiming := Some(Marker(v.me, v.here, v.now, targets[i].value, GcVerb)));
          leases := leases[i := lease];
          work := work + [(lease, targets[i].value)];
        }
      }
      assert reg[..|reg|] == reg;
      var _ := ShedGoneServers(v);
      forall k | 0 <= k < |reg| ensures leases[k] == Row(GcMark(scope), reg, reg[k], v) {
        GcRow(reg, reg[k], scope, v);
      }
      RowsRewritten(GcMark(scope), reg, v, leases);
    }

    // One row under the outcomes: what is left of it, and whether its marker is this process's.
    method SettleOne(lease: Lease, outcomes: map<Token, Outcome>, v: View) returns (rows: seq<Lease>, mine: bool)
      ensures rows == SettlePass(lease, outcomes, v)
      ensures mine == (lease.token in outcomes && IsMine(lease, v))
    {
      if lease.token !in outcomes || !IsMine(lease, v) {
        return [lease], false;
      }
      match outcomes[lease.token] {
        case DeleteRow => rows := [];
        case KeepRow => rows := [lease.(reclaiming := None)];
        case OrphanRow => rows := [lease.(reclaiming := None, orphaned := true, ports := [])];
        case ParkRow => rows := [Reparked(lease.(reclaiming := None), v)];
      }
      mine := true;
    }

    /** Phase C: apply the outcomes to the rows this process marked; a row whose marker is no
        longer its own, or that is gone, is left exactly as it is. */
    method SettleMarked(outcomes: map<Token, Outcome>, v: View) returns (settled: set<Token>)
      modifies this`leases
      ensures leases == Apply(Settle(outcomes), old(leases), v)
      ensures settled == Settled(old(leases), outcomes, v)
    {
      ghost var reg := leases;
      var kept: seq<Lease> := [];
      settled := {};
      for i := 0 to |leases|
        invariant leases == reg
        invariant kept == Rewrite(Settle(outcomes), reg, reg[..i], v)
        invariant settled == Settled(reg[..i], outcomes, v)
      {
        SettleNext(reg, i, outcomes, v);
        var rows, mine := SettleOne(leases[i], outcomes, v);
        kept := kept + rows;
        if mine { settled := settled + {leases[i].token}; }
      }
      assert reg[..|reg|] == reg;
      leases := kept;
    }

    // The index of the first row of a shared render target, or the number of rows.
    method FindShared(req: Request) returns (i: nat)
      ensures i <= |leases|
      ensures i < |leases| ==> leases[i].mode == Shared && FirstShared(leases, req) == Some(leases[i].token)
      ensures i == |leases| ==> FirstShared(leases, req).None?
    {
      i := 0;
      while i < |leases| && !(leases[i].mode == Shared && leases[i].series == req.series && leases[i].dbName == req.dbName)
        invariant i <= |leases| && FirstShared(leases, req) == FirstShared(leases[i..], req)
      {
        i := i + 1;
      }
    }

    // Attach to the live render target of (series, database), else register one.
    method AttachRenderServer(newToken: Token, req: Request, port: Option<int>, v: View)
      returns (token: Token, attached: bool)
      requires Valid() && !HasToken(leases, newToken)
      modifies this`leases
      ensures leases == Apply(AttachShared(newToken, req, port), old(leases), v)
      ensures attached <==> FirstShared(old(leases), req).Some?
      ensures token == if attached then FirstShared(old(leases), req).value else newToken
    {
      ghost var reg := leases;
      var i := FindShared(req);
      attached := i < |leases|;
      if attached {
        var existing := leases[i];
        token := existing.token;
        if req.pid != 0 { existing := existing.(owner := existing.owner.(server := PidFields(req.pid, v))); }
        if port.Some? { existing := existing.(ports := [port.value]); }
        leases := leases[i := existing.(heartbeatAt := v.now)];
        var _ := ShedGoneServers(v);
        forall k | 0 <= k < |reg| ensures leases[k] == Row(AttachShared(newToken, req, port), reg, reg[k], v) {
          AttachRow(newToken, req, port, reg, reg[k], v);
        }
        RowsRewritten(AttachShared(newToken, req, port), reg, v, leases);
      } else {
        token := newToken;
        var lease := Minted(newToken, req.(mode := Shared), if port.Some? then [port.value] else [], v);
        leases := leases + [lease];
        var _ := ShedGoneServers(v);
        MintApply(AttachShared(newToken, req, port), reg, leases, lease, v);
      }
    }

    // Phase A of a capacity reclaim, on the rows that were read: nothing is written here.
    method CapacityMark(req: Request, kind: Kind, v: View) returns (rows: seq<Lease>, work: seq<(Lease, Reason)>)
      ensures |rows| == |leases|
      ensures forall k :: 0 <= k < |rows| ==> rows[k] == CapacityPass(leases[k], req, kind, v)
      ensures work == CapacityWork(leases, req, kind, v)
      ensures work != [] <==> AnyReclaimable(leases, req, kind, v)
    {
      rows, work := leases, [];
      for i := 0 to |leases|
        invariant |rows| == |leases| && work == CapacityWork(leases[..i], req, kind, v)
        invariant forall k :: 0 <= k < i ==> rows[k] == CapacityPass(leases[k], req, kind, v)
        invariant forall k :: i <= k < |leases| ==> rows[k] == leases[k]
      {
        CapacityWorkNext(leases, i, req, kind, v);
        if Contends(rows[i], req, kind) {
          var reason := CapacityReason(rows[i], v);
          if CapacityTouches(rows[i], v) { rows := rows[i := Touched(rows[i], v)]; }
          if reason.Some? {
            rows := rows[i := rows[i].(reclaiming := Some(Marker(v.me, v.here, v.now, reason.value, CapacityVerb)))];
            work := work + [(rows[i], reason.value)];
          }
        }
      }
      assert leases[..|leases|] == leases;
      CapacityWorkExact(leases, req, kind, v);
    }

    /** The decision of one pass, under the lock, on the settled registry: it writes the marks of
        a capacity reclaim or the new lease, and nothing at all when it refuses or waits. */
    method ClaimPass(req: Request, newToken: Token, tried: set<Kind>, bindable: set<int>, waiting: bool, v: View)
      returns (d: Decision, work: seq<(Lease, Reason)>)
      requires Valid() && !HasToken(leases, newToken)
      modifies this
      ensures d == Decide(old(leases), req, tried, bindable, waiting, v)
      ensures leases == Apply(Claim(req, newToken, tried, bindable, waiting), old(leases), v)
      ensures work == if d.Take? then CapacityWork(old(leases), req, d.kind, v) else []
      ensures appended == old(appended) + if d.Grant? then [Minted(newToken, req, d.ports, v)] else []
    {
      ghost var reg := leases;
      ghost var sec := Claim(req, newToken, tried, bindable, waiting);
      var rows: seq<Lease>;
      work := [];
      var held := req.mode == Exclusive && exists l :: l in leases && HoldsDb(l, req);
      if held && Hold !in tried {
        rows, work := CapacityMark(req, Hold, v);
      }
      if held {
        if work == [] {
          RefusalApply(sec, reg, v);
          return Conflict, [];
        }
        TakeApply(sec, reg, rows, Hold, v);
        leases := rows;
        return Take(Hold), work;
      }
      var ports := FindPorts(req.base, req.size, req.nPorts, PortsInUse(leases) + req.reserved, bindable);
      if ports.Some? {
        var lease := Minted(newToken, req, ports.value, v);
        leases := leases + [lease];
        appended := appended + [lease];
        var _ := ShedGoneServers(v);
        MintApply(sec, reg, leases, lease, v);
        return Grant(ports.value), [];
      }
      if Pool !in tried {
        rows, work := CapacityMark(req, Pool, v);
        if work != [] {
          TakeApply(sec, reg, rows, Pool, v);
          leases := rows;
          return Take(Pool), work;
        }
      }
      RefusalApply(sec, reg, v);
      d := if waiting then Wait else Exhausted(!exists l :: l in leases && HoldsPool(l, req));
    }
  }
}
