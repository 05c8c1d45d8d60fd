/** Choosing ports for a lease: first fit over a pool, avoiding every port any row holds. */
module Ports {
  import opened Options
  import opened Leases

  // Every port any row holds, whatever its state: a row being reclaimed, parked or orphaned
  // keeps the ports it still lists.
  function PortsInUse(reg: seq<Lease>): (used: set<int>)
    ensures forall l, p :: l in reg && p in l.ports ==> p in used
  {
    set l, p | l in reg && p in l.ports :: p
  }

  predicate InPool(p: int, base: int, size: int) { base <= p < base + size }

  predicate Usable(p: int, used: set<int>, bindable: set<int>) { p !in used && p in bindable }

  // The usable ports of [lo, hi), in ascending order.
  function UsableFrom(lo: int, hi: int, used: set<int>, bindable: set<int>): (ps: seq<int>)
    decreases hi - lo
  {
    if lo >= hi then []
    else (if Usable(lo, used, bindable) then [lo] else []) + UsableFrom(lo + 1, hi, used, bindable)
  }

  function PickPorts(base: int, size: int, n: int, used: set<int>, bindable: set<int>): Option<seq<int>> {
    if n <= 0 then Some([])
    else
      var us := UsableFrom(base, base + size, used, bindable);
      if |us| >= n then Some(us[..n]) else None
  }

  lemma {:induction false} UsableSplit(lo: int, mid: int, hi: int, used: set<int>, bindable: set<int>)
    requires lo <= mid <= hi
    ensures UsableFrom(lo, hi, used, bindable)
         == UsableFrom(lo, mid, used, bindable) + UsableFrom(mid, hi, used, bindable)
    decreases mid - lo
  {
    if lo < mid { UsableSplit(lo + 1, mid, hi, used, bindable); }
  }

  lemma {:induction false} UsableMembers(lo: int, hi: int, used: set<int>, bindable: set<int>)
    ensures forall p :: p in UsableFrom(lo, hi, used, bindable) <==>
                          lo <= p < hi && Usable(p, used, bindable)
    decreases hi - lo
  {
    if lo < hi { UsableMembers(lo + 1, hi, used, bindable); }
  }

  predicate Ascending(ps: seq<int>) {
    forall i, j :: 0 <= i < j < |ps| ==> ps[i] < ps[j]
  }

  lemma {:induction false} UsableAscending(lo: int, hi: int, used: set<int>, bindable: set<int>)
    ensures Ascending(UsableFrom(lo, hi, used, bindable))
    decreases hi - lo
  {
    if lo < hi {
      UsableAscending(lo + 1, hi, used, bindable);
      UsableMembers(lo + 1, hi, used, bindable);
      var us, rest := UsableFrom(lo, hi, used, bindable), UsableFrom(lo + 1, hi, used, bindable);
      if Usable(lo, used, bindable) {
        assert us == [lo] + rest;
        forall i, j | 0 <= i < j < |us| ensures us[i] < us[j] {
          assert us[j] == rest[j - 1] && rest[j - 1] in rest;
          if i > 0 { assert us[i] == rest[i - 1] < rest[j - 1]; } else { assert us[0] == lo; }
        }
      } else {
        assert us == rest;
      }
    }
  }

  lemma {:induction false} UsableCount(lo: int, hi: int, used: set<int>, bindable: set<int>)
    ensures |UsableFrom(lo, hi, used, bindable)|
         == |set p | lo <= p < hi && Usable(p, used, bindable)|
    decreases hi - lo
  {
    var rest := set p | lo + 1 <= p < hi && Usable(p, used, bindable);
    var all := set p | lo <= p < hi && Usable(p, used, bindable);
    if lo < hi {
      UsableCount(lo + 1, hi, used, bindable);
      if Usable(lo, used, bindable) {
        assert all == rest + {lo};
      } else {
        assert all == rest;
      }
    } else {
      assert all == {};
    }
  }

  /** The pick is first fit, and it fails exactly when fewer than n ports of the pool are
      usable: the ports are ascending (so duplicate-free), in the pool, held by nobody,
      bindable, and no usable port below the last one was passed over. */
  lemma PickPortsFirstFit(base: int, size: int, n: int, used: set<int>, bindable: set<int>)
    requires n > 0
    ensures var usable := set p | base <= p < base + size && Usable(p, used, bindable);
      match PickPorts(base, size, n, used, bindable)
      case None => |usable| < n
      case Some(ps) =>
        && |usable| >= n == |ps|
        && (forall p :: p in ps ==> p in usable)
        && Ascending(ps)
        && (forall p :: p in usable && p < ps[n - 1] ==> p in ps)
  {
    UsableMembers(base, base + size, used, bindable);
    UsableAscending(base, base + size, used, bindable);
    UsableCount(base, base + size, used, bindable);
    var us := UsableFrom(base, base + size, used, bindable);
    if |us| >= n {
      assert forall p :: p in us[..n] ==> p in us;
      forall p | p in us && p < us[n - 1] ensures p in us[..n] {
        var i :| 0 <= i < |us| && us[i] == p;
        assert i < n - 1;
        assert us[..n][i] == p;
      }
    }
  }

  // The loop over the pool: take each port that no row holds and that binds, until n are found.
  method FindPorts(base: int, size: int, n: int, used: set<int>, bindable: set<int>)
    returns (ports: Option<seq<int>>)
    ensures ports == PickPorts(base, size, n, used, bindable)
  {
    if n <= 0 { return Some([]); }
    var chosen: seq<int> := [];
    var p := base;
    while p < base + size
      invariant p <= Max(base, base + size) && base <= p
      invariant chosen == UsableFrom(base, p, used, bindable) && |chosen| < n
      decreases base + size - p
    {
      UsableSplit(base, p, p + 1, used, bindable);
      UsableSplit(base, p + 1, base + size, used, bindable);
      if p !in used && p in bindable {
        chosen := chosen + [p];
        if |chosen| == n {
          var us := UsableFrom(base, base + size, used, bindable);
          assert us[..n] == chosen;
          return Some(chosen);
        }
      }
      p := p + 1;
    }
    assert size >= 0 ==> p == base + size;
    return None;
  }

  function Max(a: int, b: int): int { if a > b then a else b }
}
