/** Throwaway databases: the names acquire mints, the gates of a drop, and the sweep of
    databases no lease refers to. */
module Throwaway {
  import opened Options

  predicate IsHexDigit(c: char) { '0' <= c <= '9' || 'a' <= c <= 'f' }

  predicate HasShape(name: string, prefix: string) {
    && prefix != "" && |name| == |prefix| + 11
    && name[..|prefix|] == prefix && name[|prefix|..|prefix| + 3] == "_t_"
    && forall i :: |prefix| + 3 <= i < |name| ==> IsHexDigit(name[i])
  }

  // The throwaway shape for some declared prefix; the empty prefix never counts.
  predicate EphemeralShaped(name: string, prefixes: seq<string>) {
    exists p :: p in prefixes && HasShape(name, p)
  }

  // The name acquire mints for a pool: prefix, "_t_", eight hex digits.
  function MintName(prefix: string, hex: string): string { prefix + "_t_" + hex }

  predicate EightHex(hex: string) { |hex| == 8 && forall i :: 0 <= i < 8 ==> IsHexDigit(hex[i]) }

  // A name acquire minted, whatever prefix the catalog gives, the empty one included.
  ghost predicate ThrowawayName(name: string) {
    exists prefix, hex :: EightHex(hex) && name == MintName(prefix, hex)
  }

  lemma MintedNameHasShape(prefix: string, hex: string)
    requires EightHex(hex)
    ensures HasShape(MintName(prefix, hex), prefix) <==> prefix != ""
  {
    var name := MintName(prefix, hex);
    assert name[..|prefix|] == prefix;
    assert name[|prefix|..|prefix| + 3] == "_t_";
    forall i | |prefix| + 3 <= i < |name| ensures IsHexDigit(name[i]) {
      assert name[i] == hex[i - |prefix| - 3];
    }
  }

  /** A minted name is recognised as a throwaway exactly under a catalog that declares its prefix;
      one minted with the empty prefix never is, so nothing but Odoo itself may drop it. */
  lemma MintedNameIsRecognised(prefix: string, hex: string, prefixes: seq<string>)
    requires EightHex(hex)
    ensures EphemeralShaped(MintName(prefix, hex), prefixes) <==> prefix != "" && prefix in prefixes
    ensures ClientDropAllowed(MintName(prefix, hex), true, prefixes) <==> prefix != "" && prefix in prefixes
  {
    var name := MintName(prefix, hex);
    MintedNameHasShape(prefix, hex);
    forall p | HasShape(name, p) ensures p == prefix {
      assert name[..|p|] == p && |p| == |prefix| && name[..|prefix|] == prefix;
    }
  }

  // ---- the drop of one database ------------------------------------------------

  // What the through-Odoo drop reported.
  datatype OdooDrop = NoInterpreter | DropOk | RouteUnavailable | AuthDenied | Unreachable | DropError

  predicate RouteNeverRan(r: OdooDrop) { !r.DropOk? && !r.DropError? }

  predicate ClientDropAllowed(name: string, dropOnRelease: bool, prefixes: seq<string>) {
    name != "" && dropOnRelease && EphemeralShaped(name, prefixes)
  }

  /** True when the database is dropped, False when it is kept for a retry. The client surface
      is consulted only when the Odoo route never reached the database, only for a throwaway,
      and its claim is refused when the database is still observed. */
  function DropSucceeds(name: string, dropOnRelease: bool, prefixes: seq<string>, odoo: OdooDrop,
                        clientOk: bool, stillThere: Option<bool>): bool
  {
    if name == "" then true
    else match odoo
      case DropOk => true
      case DropError => false
      case _ => ClientDropAllowed(name, dropOnRelease, prefixes) && clientOk && stillThere != Some(true)
  }

  /** A throwaway database goes by Odoo's own drop, or, when that route never reached it, through
      a client - but only under a catalog that declares its non-empty prefix, and only when it is
      not observed to be still there. A drop that Odoo started and failed is never retried around. */
  lemma DropsByOdooOrDeclared(prefix: string, hex: string, prefixes: seq<string>, odoo: OdooDrop, clientOk: bool, stillThere: Option<bool>)
    requires EightHex(hex)
    ensures DropSucceeds(MintName(prefix, hex), true, prefixes, odoo, clientOk, stillThere) <==>
      odoo.DropOk? || (RouteNeverRan(odoo) && prefix != "" && prefix in prefixes && clientOk && stillThere != Some(true))
    ensures DropSucceeds(MintName(prefix, hex), false, prefixes, odoo, clientOk, stillThere) <==> odoo.DropOk?
  {
    MintedNameIsRecognised(prefix, hex, prefixes);
  }

  // ---- reap-orphans ------------------------------------------------------------

  datatype Db = Db(name: string, age: Option<int>)

  predicate Reapable(db: Db, leased: set<string>, prefixes: seq<string>, minAge: int) {
    && EphemeralShaped(db.name, prefixes) && db.name !in leased
    && db.age.Some? && db.age.value >= minAge
  }

  // A shaped, unleased database this pass declines, because its age is unknown or too young.
  predicate Declined(db: Db, leased: set<string>, prefixes: seq<string>, minAge: int) {
    && EphemeralShaped(db.name, prefixes) && db.name !in leased
    && (db.age.None? || db.age.value < minAge)
  }

  function Select(dbs: seq<Db>, keep: Db -> bool): seq<Db> {
    if dbs == [] then [] else (if keep(dbs[0]) then [dbs[0]] else []) + Select(dbs[1..], keep)
  }

  lemma {:induction false} SelectAppend(a: seq<Db>, b: seq<Db>, keep: Db -> bool)
    ensures Select(a + b, keep) == Select(a, keep) + Select(b, keep)
  {
    if a == [] {
      assert a + b == b;
    } else {
      assert (a + b)[1..] == a[1..] + b;
      SelectAppend(a[1..], b, keep);
      var first: seq<Db> := if keep(a[0]) then [a[0]] else [];
      assert first + (Select(a[1..], keep) + Select(b, keep)) == (first + Select(a[1..], keep)) + Select(b, keep);
    }
  }

  lemma SelectNext(dbs: seq<Db>, i: nat, keep: Db -> bool)
    requires i < |dbs|
    ensures Select(dbs[..i + 1], keep) == Select(dbs[..i], keep) + if keep(dbs[i]) then [dbs[i]] else []
  {
    assert dbs[..i + 1] == dbs[..i] + [dbs[i]];
    SelectAppend(dbs[..i], [dbs[i]], keep);
    assert [dbs[i]][1..] == [];
  }

  method ReapCandidates(dbs: seq<Db>, leased: set<string>, prefixes: seq<string>, minAge: int)
    returns (candidates: seq<Db>, skipped: seq<Db>)
    ensures candidates == Select(dbs, db => Reapable(db, leased, prefixes, minAge))
    ensures skipped == Select(dbs, db => Declined(db, leased, prefixes, minAge))
  {
    ghost var reap := (db: Db) => Reapable(db, leased, prefixes, minAge);
    ghost var decline := (db: Db) => Declined(db, leased, prefixes, minAge);
    candidates, skipped := [], [];
    for i := 0 to |dbs|
      invariant candidates == Select(dbs[..i], reap)
      invariant skipped == Select(dbs[..i], decline)
    {
      var db := dbs[i];
      SelectNext(dbs, i, reap);
      SelectNext(dbs, i, decline);
      if !EphemeralShaped(db.name, prefixes) || db.name in leased { continue; }
      if db.age.None? || db.age.value < minAge {
        skipped := skipped + [db];
        continue;
      }
      candidates := candidates + [db];
    }
    assert dbs[..|dbs|] == dbs;
  }

  lemma {:induction false} SelectExact(dbs: seq<Db>, keep: Db -> bool)
    ensures forall db :: db in Select(dbs, keep) <==> db in dbs && keep(db)
  {
    if dbs != [] { SelectExact(dbs[1..], keep); }
  }

  /** The sweep proposes a database exactly when it has the throwaway shape, no row that was
      read names it, and its age is proven and old enough; every other shaped, unleased
      database is reported as skipped. */
  lemma ReapExactly(dbs: seq<Db>, leased: set<string>, prefixes: seq<string>, minAge: int, db: Db)
    requires db in dbs && EphemeralShaped(db.name, prefixes)
    ensures var taken := Select(dbs, x => Reapable(x, leased, prefixes, minAge));
      var declined := Select(dbs, x => Declined(x, leased, prefixes, minAge));
      && (db in taken <==> db.name !in leased && db.age.Some? && db.age.value >= minAge)
      && (db.name !in leased ==> (db in declined <==> db !in taken))
      && (db.name in leased ==> db !in taken && db !in declined)
  {
    SelectExact(dbs, x => Reapable(x, leased, prefixes, minAge));
    SelectExact(dbs, x => Declined(x, leased, prefixes, minAge));
  }
}
