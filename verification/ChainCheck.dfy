/** Template extensions that insert siblings next to a node: exactly which of them break a
    conditional chain of the template they extend. */
module ChainCheck {
  import opened Options

  // The conditional directive a node carries.
  datatype Directive = Unconditional | If | Elif | Else

  // A t-elif or t-else may follow this node.
  predicate Opens(d: Directive) { d.If? || d.Elif? }

  // This node belongs to the chain of the node before it.
  predicate Continues(d: Directive) { d.Elif? || d.Else? }

  // Every t-elif or t-else directly follows a t-if or t-elif.
  predicate WellFormed(nodes: seq<Directive>) {
    forall i :: 0 <= i < |nodes| && Continues(nodes[i]) ==> i > 0 && Opens(nodes[i - 1])
  }

  /** The node whose condition decides first whether node `i` is shown. */
  function Head(nodes: seq<Directive>, i: nat): (h: nat)
    requires i < |nodes|
    ensures h <= i
  {
    if Continues(nodes[i]) && i > 0 && Opens(nodes[i - 1]) then Head(nodes, i - 1) else i
  }

  function Splice(nodes: seq<Directive>, k: nat, inserted: seq<Directive>): seq<Directive>
    requires k <= |nodes|
  {
    nodes[..k] + inserted + nodes[k..]
  }

  // Where a node stands after `n` nodes went in at `k`.
  function Moved(i: nat, k: nat, n: nat): nat { if i < k then i else i + n }

  predicate HeadChanges(nodes: seq<Directive>, k: nat, inserted: seq<Directive>, i: nat)
    requires k <= |nodes| && i < |nodes|
  {
    Head(Splice(nodes, k, inserted), Moved(i, k, |inserted|)) != Moved(Head(nodes, i), k, |inserted|)
  }

  // ---- the check ----------------------------------------------------------------------------

  datatype Position = Before | After

  datatype Insertion = Insertion(target: nat, position: Position, inserted: seq<Directive>)

  function At(e: Insertion): nat { if e.position == After then e.target + 1 else e.target }

  predicate Breaks(nodes: seq<Directive>, e: Insertion)
    requires e.target < |nodes|
  {
    && e.inserted != []
    && 0 < At(e) < |nodes|
    && Opens(nodes[At(e) - 1]) && Continues(nodes[At(e)])
    && exists i :: 0 <= i < |e.inserted| && !e.inserted[i].Elif?
  }

  // The insertions, by their place in the list, that the check blocks.
  method CheckInsertions(nodes: seq<Directive>, edits: seq<Insertion>) returns (blocked: seq<nat>)
    requires forall e <- edits :: e.target < |nodes|
    ensures forall x :: x in blocked <==> 0 <= x < |edits| && Breaks(nodes, edits[x])
    ensures forall x, y :: 0 <= x < y < |blocked| ==> blocked[x] < blocked[y]
  {
    blocked := [];
    for n := 0 to |edits|
      invariant forall x :: x in blocked <==> 0 <= x < n && Breaks(nodes, edits[x])
      invariant forall x, y :: 0 <= x < y < |blocked| ==> blocked[x] < blocked[y]
      invariant forall x :: 0 <= x < |blocked| ==> blocked[x] < n
    {
      var e := edits[n];
      assert e in edits;
      if e.inserted == [] {
        continue;
      }
      var a, b: Option<Directive> := None, None;
      if e.position == After {
        a := Some(nodes[e.target]);
        b := if e.target + 1 < |nodes| then Some(nodes[e.target + 1]) else None;
      } else {
        a := if e.target > 0 then Some(nodes[e.target - 1]) else None;
        b := Some(nodes[e.target]);
      }
      if a.None? || b.None? {
        continue;
      }
      if !(Opens(a.value) && Continues(b.value)) {
        continue;
      }
      var allElif := true;
      for j := 0 to |e.inserted|
        invariant allElif <==> forall i :: 0 <= i < j ==> e.inserted[i].Elif?
      {
        allElif := allElif && e.inserted[j].Elif?;
      }
      if !allElif {
        blocked := blocked + [n];
      }
    }
  }

  // ---- the check is exact -----------------------------------------------------------------------

  predicate AllElif(inserted: seq<Directive>) { forall i :: 0 <= i < |inserted| ==> inserted[i].Elif? }

  lemma SpliceAt(nodes: seq<Directive>, k: nat, inserted: seq<Directive>, i: nat)
    requires k <= |nodes|
    ensures i < k ==> Splice(nodes, k, inserted)[i] == nodes[i]
    ensures i < |inserted| ==> Splice(nodes, k, inserted)[k + i] == inserted[i]
    ensures k <= i < |nodes| ==> Splice(nodes, k, inserted)[i + |inserted|] == nodes[i]
  {
  }

  // Nodes before the splice keep their heads.
  lemma {:induction false} HeadBefore(nodes: seq<Directive>, k: nat, inserted: seq<Directive>, i: nat)
    requires i < k <= |nodes|
    ensures Head(Splice(nodes, k, inserted), i) == Head(nodes, i)
  {
    if i > 0 {
      HeadBefore(nodes, k, inserted, i - 1);
    }
  }

  // Inserted t-elif nodes only lengthen the chain.
  lemma {:induction false} HeadThrough(nodes: seq<Directive>, k: nat, inserted: seq<Directive>, i: nat)
    requires 0 < k <= |nodes| && Opens(nodes[k - 1]) && AllElif(inserted) && i < |inserted|
    ensures Head(Splice(nodes, k, inserted), k + i) == Head(nodes, k - 1)
  {
    SpliceAt(nodes, k, inserted, i);
    if i == 0 {
      HeadBefore(nodes, k, inserted, k - 1);
    } else {
      SpliceAt(nodes, k, inserted, i - 1);
      HeadThrough(nodes, k, inserted, i - 1);
    }
  }

  // A node that is no t-elif stops the walk back: nothing inserted reaches a head before the splice.
  lemma {:induction false} HeadStops(nodes: seq<Directive>, k: nat, inserted: seq<Directive>, j: nat, i: nat)
    requires k <= |nodes| && j <= i < |inserted| && !inserted[j].Elif?
    requires i > j || !Continues(inserted[j])
    ensures Head(Splice(nodes, k, inserted), k + i) >= k
  {
    SpliceAt(nodes, k, inserted, i);
    if i > j {
      SpliceAt(nodes, k, inserted, i - 1);
      if Opens(inserted[i - 1]) {
        HeadStops(nodes, k, inserted, j, i - 1);
      }
    }
  }

  // A t-elif or t-else that follows no t-if or t-elif: it belongs to no chain.
  predicate Stray(nodes: seq<Directive>, k: nat) {
    k < |nodes| && Continues(nodes[k]) && (k == 0 || !Opens(nodes[k - 1]))
  }

  // When the node after the splice changes its head.
  predicate Cuts(nodes: seq<Directive>, k: nat, inserted: seq<Directive>) {
    && k < |nodes| && inserted != [] && Continues(nodes[k])
    && if Stray(nodes, k) then Opens(inserted[|inserted| - 1]) else !AllElif(inserted)
  }

  lemma HeadAt(nodes: seq<Directive>, k: nat, inserted: seq<Directive>)
    requires k < |nodes| && inserted != []
    ensures HeadChanges(nodes, k, inserted, k) <==> Cuts(nodes, k, inserted)
  {
    var n := |inserted|;
    SpliceAt(nodes, k, inserted, k);
    SpliceAt(nodes, k, inserted, n - 1);
    if Continues(nodes[k]) && !Stray(nodes, k) {
      if AllElif(inserted) {
        HeadThrough(nodes, k, inserted, n - 1);
      } else if Opens(inserted[n - 1]) {
        var j :| 0 <= j < n && !inserted[j].Elif?;
        if inserted[n - 1].Elif? {
          HeadStops(nodes, k, inserted, j, n - 1);
        } else {
          HeadStops(nodes, k, inserted, n - 1, n - 1);
        }
      }
    }
  }

  // Nodes after it follow it.
  lemma {:induction false} HeadAfter(nodes: seq<Directive>, k: nat, inserted: seq<Directive>, i: nat)
    requires k <= i < |nodes| && inserted != []
    requires !HeadChanges(nodes, k, inserted, k)
    ensures !HeadChanges(nodes, k, inserted, i)
  {
    if i > k {
      SpliceAt(nodes, k, inserted, i);
      SpliceAt(nodes, k, inserted, i - 1);
      HeadAfter(nodes, k, inserted, i - 1);
    }
  }

  lemma SomeHeadChanges(nodes: seq<Directive>, k: nat, inserted: seq<Directive>)
    requires k <= |nodes| && inserted != []
    ensures (exists i :: 0 <= i < |nodes| && HeadChanges(nodes, k, inserted, i)) <==> Cuts(nodes, k, inserted)
  {
    if k < |nodes| {
      HeadAt(nodes, k, inserted);
    }
    if !Cuts(nodes, k, inserted) {
      forall i | 0 <= i < |nodes| ensures !HeadChanges(nodes, k, inserted, i) {
        if i < k {
          HeadBefore(nodes, k, inserted, i);
        } else {
          HeadAfter(nodes, k, inserted, i);
        }
      }
    }
  }

  /** In any list of siblings, some node already there comes to answer to another condition if and
      only if the check blocks the insertion, or the insertion ends in a t-if or t-elif just before
      a stray t-elif or t-else. */
  lemma BlocksOrAdopts(nodes: seq<Directive>, e: Insertion)
    requires e.target < |nodes| && e.inserted != []
    ensures (exists i :: 0 <= i < |nodes| && HeadChanges(nodes, At(e), e.inserted, i))
      <==> Breaks(nodes, e) || (Stray(nodes, At(e)) && Opens(e.inserted[|e.inserted| - 1]))
  {
    SomeHeadChanges(nodes, At(e), e.inserted);
  }

  /** So the check is exact just when no such t-elif or t-else is adopted: it then blocks an
      insertion if and only if some node would answer to another condition. */
  lemma BlocksExactly(nodes: seq<Directive>, e: Insertion)
    requires e.target < |nodes| && e.inserted != []
    ensures (Breaks(nodes, e) <==> exists i :: 0 <= i < |nodes| && HeadChanges(nodes, At(e), e.inserted, i))
      <==> !(Stray(nodes, At(e)) && Opens(e.inserted[|e.inserted| - 1]))
    ensures WellFormed(nodes) ==> !Stray(nodes, At(e))
  {
    BlocksOrAdopts(nodes, e);
  }

  /** In a template that is not well formed the check can miss a change: a stray t-elif at the
      front joins the chain of a t-if put before it. */
  lemma StrayElifIsMissed()
    ensures var nodes, e := [Elif], Insertion(0, Before, [If]);
      !WellFormed(nodes) && !Breaks(nodes, e) && HeadChanges(nodes, At(e), e.inserted, 0)
  {
    assert Splice([Elif], 0, [If]) == [If, Elif];
    assert Head([If, Elif], 1) == 0;
  }
}
