/** The steps of a catalog edit add up to one simultaneous edit: each span of a given key becomes
    one line where it stands, absent keys follow the last assignment, all other lines stay. */
module CatalogEdits {
  import opened Options
  import opened TomlLines
  import opened CatalogUpsert

  // ---- sorting the replacements -------------------------------------------------------------------

  predicate Descending(rs: seq<Replacement>) {
    forall i, j :: 0 <= i < j < |rs| ==> rs[i].first > rs[j].first
  }

  predicate Rising(rs: seq<Replacement>) {
    forall i, j :: 0 <= i < j < |rs| ==> rs[i].first < rs[j].first
  }

  predicate Apart(rs: seq<Replacement>) {
    forall i, j :: 0 <= i < j < |rs| ==> rs[i].first != rs[j].first
  }

  lemma {:induction false} InsertsDown(r: Replacement, rs: seq<Replacement>)
    requires Descending(rs) && forall x <- rs :: x.first != r.first
    ensures Descending(InsertDown(r, rs))
    ensures forall x :: x in InsertDown(r, rs) <==> x == r || x in rs
  {
    if rs != [] && !Above(r, rs[0]) {
      assert rs == [rs[0]] + rs[1..];
      InsertsDown(r, rs[1..]);
      forall x | x in InsertDown(r, rs[1..]) ensures rs[0].first > x.first {
        assert rs[0] in rs;
        if x in rs[1..] {
          var i :| 0 <= i < |rs| - 1 && rs[1..][i] == x;
          assert rs[i + 1] == x;
        }
      }
      DownCons(rs[0], InsertDown(r, rs[1..]));
    } else if rs != [] {
      assert rs[0] in rs;
    }
  }

  lemma DownCons(r: Replacement, rs: seq<Replacement>)
    requires Descending(rs) && forall x <- rs :: r.first > x.first
    ensures Descending([r] + rs)
  {
  }

  lemma {:induction false} SortsDown(rs: seq<Replacement>)
    requires Apart(rs)
    ensures Descending(SortDown(rs)) && forall x :: x in SortDown(rs) <==> x in rs
  {
    if rs != [] {
      var k := |rs| - 1;
      SortsDown(rs[..k]);
      assert rs == rs[..k] + [rs[k]];
      forall x | x in rs[..k] ensures x.first != rs[k].first {
        var i :| 0 <= i < k && rs[i] == x;
      }
      InsertsDown(rs[k], SortDown(rs[..k]));
    }
  }

  ghost predicate SameElements(a: seq<Replacement>, b: seq<Replacement>) { forall x :: x in a <==> x in b }

  lemma {:induction false} DescendingUnique(a: seq<Replacement>, b: seq<Replacement>)
    requires Descending(a) && Descending(b) && SameElements(a, b)
    ensures a == b
  {
    if a == [] {
      assert forall j :: 0 <= j < |b| ==> b[j] in b;
    } else {
      assert a[0] in a && a[0] in b;
      var j :| 0 <= j < |b| && b[j] == a[0];
      assert b[0] in b && b[0] in a;
      var i :| 0 <= i < |a| && a[i] == b[0];
      assert j == 0 && i == 0;
      forall x ensures x in a[1..] <==> x in b[1..] {
        RestOf(a, x);
        RestOf(b, x);
      }
      DescendingUnique(a[1..], b[1..]);
      assert a == [a[0]] + a[1..] && b == [b[0]] + b[1..];
    }
  }

  lemma RestOf(a: seq<Replacement>, x: Replacement)
    requires a != [] && Descending(a)
    ensures x in a[1..] <==> x in a && x != a[0]
  {
    assert forall i :: 0 < i < |a| ==> a[1..][i - 1] == a[i];
    if x in a[1..] {
      var i :| 0 <= i < |a| - 1 && a[1..][i] == x;
      assert a[i + 1] == x;
    }
  }

  function Reversed(rs: seq<Replacement>): (r: seq<Replacement>)
    ensures |r| == |rs| && forall i :: 0 <= i < |rs| ==> r[i] == rs[|rs| - 1 - i]
  {
    if rs == [] then [] else Reversed(rs[1..]) + [rs[0]]
  }

  // ---- one simultaneous edit ------------------------------------------------------------------------

  predicate DistinctKeys(pairs: seq<Pair>) {
    forall i, j :: 0 <= i < j < |pairs| ==> pairs[i].key != pairs[j].key
  }

  function PairFor(pairs: seq<Pair>, key: string): Option<Pair> {
    if pairs == [] then None else if pairs[0].key == key then Some(pairs[0]) else PairFor(pairs[1..], key)
  }

  lemma {:induction false} PairForIs(pairs: seq<Pair>, key: string)
    ensures var p := PairFor(pairs, key);
      if p.Some? then p.value in pairs && p.value.key == key else forall x <- pairs :: x.key != key
  {
    if pairs != [] {
      PairForIs(pairs[1..], key);
      assert pairs == [pairs[0]] + pairs[1..];
    }
  }

  predicate AllWithin(keys: seq<KeySpan>, n: nat) {
    forall i :: 0 <= i < |keys| ==> keys[i].first <= keys[i].last < n
  }

  // The replacement of one key's span, if the key is given.
  function KeyEdit(style: Style, lines: seq<string>, k: KeySpan, pairs: seq<Pair>): seq<Replacement>
    requires k.first <= k.last < |lines|
  {
    var pair := PairFor(pairs, k.key);
    if pair.None? then [] else [Replacement(k.first, k.last, style.rewrite(lines[k.first..k.last + 1], pair.value))]
  }

  // The replacements in the order their keys stand in the block.
  function InOrder(style: Style, lines: seq<string>, keys: seq<KeySpan>, pairs: seq<Pair>): seq<Replacement>
    requires AllWithin(keys, |lines|)
  {
    if keys == [] then [] else KeyEdit(style, lines, keys[0], pairs) + InOrder(style, lines, keys[1..], pairs)
  }

  // Keys stand one after the other, each once.
  predicate Ascending(keys: seq<KeySpan>) {
    && (forall i, j :: 0 <= i < j < |keys| ==> keys[i].last < keys[j].first && keys[i].key != keys[j].key)
    && (forall i :: 0 <= i < |keys| ==> keys[i].first <= keys[i].last)
  }

  predicate IsReplacement(style: Style, lines: seq<string>, k: KeySpan, pair: Pair, r: Replacement) {
    k.first <= k.last < |lines| && k.key == pair.key
    && r == Replacement(k.first, k.last, style.rewrite(lines[k.first..k.last + 1], pair))
  }

  lemma {:induction false} InOrderOnly(style: Style, lines: seq<string>, keys: seq<KeySpan>, pairs: seq<Pair>, r: Replacement)
      returns (k: KeySpan, pair: Pair)
    requires AllWithin(keys, |lines|) && r in InOrder(style, lines, keys, pairs)
    ensures k in keys && pair in pairs && IsReplacement(style, lines, k, pair, r)
  {
    PairForIs(pairs, keys[0].key);
    assert keys == [keys[0]] + keys[1..];
    if r in InOrder(style, lines, keys[1..], pairs) {
      k, pair := InOrderOnly(style, lines, keys[1..], pairs, r);
    } else {
      k, pair := keys[0], PairFor(pairs, keys[0].key).value;
    }
  }

  lemma {:induction false} InOrderAll(style: Style, lines: seq<string>, keys: seq<KeySpan>, pairs: seq<Pair>, k: KeySpan, pair: Pair, r: Replacement)
    requires AllWithin(keys, |lines|) && DistinctKeys(pairs)
    requires k in keys && pair in pairs && IsReplacement(style, lines, k, pair, r)
    ensures r in InOrder(style, lines, keys, pairs)
  {
    assert keys == [keys[0]] + keys[1..];
    if k == keys[0] {
      PairForIs(pairs, k.key);
      OnlyPair(pairs, pair, PairFor(pairs, k.key).value);
    } else {
      InOrderAll(style, lines, keys[1..], pairs, k, pair, r);
    }
  }

  lemma OnlyPair(pairs: seq<Pair>, a: Pair, b: Pair)
    requires DistinctKeys(pairs) && a in pairs && b in pairs && a.key == b.key
    ensures a == b
  {
    var i :| 0 <= i < |pairs| && pairs[i] == a;
    var j :| 0 <= j < |pairs| && pairs[j] == b;
  }

  lemma OnlyKey(keys: seq<KeySpan>, a: KeySpan, b: KeySpan)
    requires Ascending(keys) && a in keys && b in keys && a.key == b.key
    ensures a == b
  {
    var i :| 0 <= i < |keys| && keys[i] == a;
    var j :| 0 <= j < |keys| && keys[j] == b;
  }

  lemma {:induction false} ReplacementsOnly(style: Style, lines: seq<string>, b: Block, pairs: seq<Pair>, r: Replacement)
      returns (k: KeySpan, pair: Pair)
    requires Within(b, |lines|) && r in Replacements(style, lines, b, pairs)
    ensures k in b.keys && pair in pairs && IsReplacement(style, lines, k, pair, r)
  {
    var n := |pairs| - 1;
    FindKeyIn(b.keys, pairs[n].key);
    assert pairs == pairs[..n] + [pairs[n]];
    if r in Replacements(style, lines, b, pairs[..n]) {
      k, pair := ReplacementsOnly(style, lines, b, pairs[..n], r);
    } else {
      k, pair := FindKey(b.keys, pairs[n].key).value, pairs[n];
    }
  }

  lemma {:induction false} ReplacementsAll(style: Style, lines: seq<string>, b: Block, pairs: seq<Pair>, k: KeySpan, pair: Pair, r: Replacement)
    requires Within(b, |lines|) && Ascending(b.keys)
    requires k in b.keys && pair in pairs && IsReplacement(style, lines, k, pair, r)
    ensures r in Replacements(style, lines, b, pairs)
  {
    var n := |pairs| - 1;
    assert pairs == pairs[..n] + [pairs[n]];
    if pair == pairs[n] {
      KnownOf(b.keys, k);
      FindKeyIn(b.keys, pair.key);
      OnlyKey(b.keys, k, FindKey(b.keys, pair.key).value);
    } else {
      ReplacementsAll(style, lines, b, pairs[..n], k, pair, r);
    }
  }

  lemma KnownOf(keys: seq<KeySpan>, k: KeySpan)
    requires k in keys
    ensures Knows(keys, k.key)
  {
    var i :| 0 <= i < |keys| && keys[i] == k;
    assert keys[i].key == k.key;
  }

  lemma WithinAll(b: Block, n: nat)
    requires Within(b, n)
    ensures AllWithin(b.keys, n)
  {
  }

  lemma {:induction false} InOrderAscends(style: Style, lines: seq<string>, keys: seq<KeySpan>, pairs: seq<Pair>)
    requires AllWithin(keys, |lines|) && Ascending(keys)
    ensures Rising(InOrder(style, lines, keys, pairs))
  {
    if keys != [] {
      InOrderAscends(style, lines, keys[1..], pairs);
      var rest := InOrder(style, lines, keys[1..], pairs);
      forall i | 0 <= i < |rest| ensures keys[0].first < rest[i].first {
        var k, _ := InOrderOnly(style, lines, keys[1..], pairs, rest[i]);
        var j :| 0 <= j < |keys| - 1 && keys[1..][j] == k;
        assert keys[j + 1] == k;
      }
    }
  }

  lemma {:induction false} ReplacementsApart(style: Style, lines: seq<string>, b: Block, pairs: seq<Pair>)
    requires Within(b, |lines|) && Ascending(b.keys) && DistinctKeys(pairs)
    ensures Apart(Replacements(style, lines, b, pairs))
  {
    if pairs != [] {
      var n := |pairs| - 1;
      ReplacementsApart(style, lines, b, pairs[..n]);
      var before, k := Replacements(style, lines, b, pairs[..n]), FindKey(b.keys, pairs[n].key);
      FindKeyIn(b.keys, pairs[n].key);
      forall i | 0 <= i < |before| && k.Some? ensures before[i].first != k.value.first {
        var k', pair := ReplacementsOnly(style, lines, b, pairs[..n], before[i]);
        var j :| 0 <= j < n && pairs[..n][j] == pair;
        DifferentSpans(b.keys, k', k.value);
      }
    }
  }

  lemma DifferentSpans(keys: seq<KeySpan>, a: KeySpan, b: KeySpan)
    requires Ascending(keys) && a in keys && b in keys && a.key != b.key
    ensures a.first != b.first
  {
    var i :| 0 <= i < |keys| && keys[i] == a;
    var j :| 0 <= j < |keys| && keys[j] == b;
  }

  /** Sorted from the bottom up, the replacements are those of the block's keys in reverse. */
  lemma SortedInOrder(style: Style, lines: seq<string>, b: Block, pairs: seq<Pair>)
    requires Within(b, |lines|) && Ascending(b.keys) && DistinctKeys(pairs)
    ensures AllWithin(b.keys, |lines|)
    ensures SortDown(Replacements(style, lines, b, pairs)) == Reversed(InOrder(style, lines, b.keys, pairs))
  {
    WithinAll(b, |lines|);
    var rs, up := Replacements(style, lines, b, pairs), InOrder(style, lines, b.keys, pairs);
    ReplacementsApart(style, lines, b, pairs);
    SortsDown(rs);
    InOrderAscends(style, lines, b.keys, pairs);
    SameReplacements(style, lines, b, pairs);
    ReversedDescends(up);
    DescendingUnique(SortDown(rs), Reversed(up));
  }

  lemma SameReplacements(style: Style, lines: seq<string>, b: Block, pairs: seq<Pair>)
    requires Within(b, |lines|) && Ascending(b.keys) && DistinctKeys(pairs) && AllWithin(b.keys, |lines|)
    requires Apart(Replacements(style, lines, b, pairs))
    ensures SameElements(SortDown(Replacements(style, lines, b, pairs)), Reversed(InOrder(style, lines, b.keys, pairs)))
  {
    var rs, up := Replacements(style, lines, b, pairs), InOrder(style, lines, b.keys, pairs);
    SortsDown(rs);
    forall r ensures r in SortDown(rs) <==> r in Reversed(up) {
      ReversedHas(up, r);
      if r in rs {
        var k, pair := ReplacementsOnly(style, lines, b, pairs, r);
        InOrderAll(style, lines, b.keys, pairs, k, pair, r);
      }
      if r in up {
        var k, pair := InOrderOnly(style, lines, b.keys, pairs, r);
        ReplacementsAll(style, lines, b, pairs, k, pair, r);
      }
    }
  }

  lemma ReversedDescends(up: seq<Replacement>)
    requires Rising(up)
    ensures Descending(Reversed(up))
  {
    var down := Reversed(up);
    forall i, j | 0 <= i < j < |down| ensures down[i].first > down[j].first {
      assert down[i] == up[|up| - 1 - i] && down[j] == up[|up| - 1 - j];
    }
  }

  lemma ReversedHas(rs: seq<Replacement>, r: Replacement)
    ensures r in Reversed(rs) <==> r in rs
  {
    if r in rs {
      var i :| 0 <= i < |rs| && rs[i] == r;
      assert Reversed(rs)[|rs| - 1 - i] == r;
    }
    if r in Reversed(rs) {
      var i :| 0 <= i < |rs| && Reversed(rs)[i] == r;
    }
  }

  // ---- the block in pieces ----------------------------------------------------------------------------

  // The keys of a block's body that are not known yet, where they first stand.
  function NewKeys(body: seq<Piece>, at: nat, known: set<string>): seq<KeySpan> {
    if body == [] then []
    else
      var p, next := body[0], at + |LinesIn(body[0])|;
      if p.Set? && p.span != [] && p.key !in known
      then [KeySpan(p.key, at, next - 1)] + NewKeys(body[1..], next, known + {p.key})
      else NewKeys(body[1..], next, known)
  }

  // Headers stand outside a block's body.
  predicate IsBody(body: seq<Piece>) {
    forall i :: 0 <= i < |body| ==> (body[i].Set? || body[i].Inert?) && LinesIn(body[i]) != []
  }

  function Absorb(b: Block, body: seq<Piece>, at: nat): Block
    decreases |body|
  {
    if body == [] then b
    else Absorb(if body[0].Set? && body[0].span != [] then Noted(b, body[0], at) else b, body[1..], at + |LinesIn(body[0])|)
  }

  function Names(keys: seq<KeySpan>): set<string> { set k | k in keys :: k.key }

  lemma NamesKnow(keys: seq<KeySpan>, key: string)
    ensures Knows(keys, key) <==> key in Names(keys)
  {
    if Knows(keys, key) {
      var i :| 0 <= i < |keys| && keys[i].key == key;
      assert keys[i] in keys;
    }
    if key in Names(keys) {
      var k :| k in keys && k.key == key;
      KnownOf(keys, k);
    }
  }

  predicate KeysAbsorbed(b: Block, body: seq<Piece>, at: nat) {
    Absorb(b, body, at).keys == b.keys + NewKeys(body, at, Names(b.keys))
  }

  lemma NotedKeys(b: Block, p: Piece, at: nat, more: seq<KeySpan>)
    requires p.Set? && p.span != []
    ensures var k := KeySpan(p.key, at, at + |p.span| - 1);
      && Names(Noted(b, p, at).keys) == Names(b.keys) + {p.key}
      && Noted(b, p, at).keys + more == b.keys + (if p.key in Names(b.keys) then more else [k] + more)
  {
    NamesKnow(b.keys, p.key);
    var k := KeySpan(p.key, at, at + |p.span| - 1);
    if p.key in Names(b.keys) {
      assert Names(b.keys) + {p.key} == Names(b.keys);
    } else {
      assert Names(b.keys + [k]) == Names(b.keys) + {p.key};
    }
  }

  lemma AbsorbStep(b: Block, p: Piece, rest: seq<Piece>, at: nat)
    ensures Absorb(b, [p] + rest, at)
      == Absorb(if p.Set? && p.span != [] then Noted(b, p, at) else b, rest, at + |LinesIn(p)|)
  {
    assert ([p] + rest)[1..] == rest;
  }

  // `whole` and `news` are the keys after the assignment and the ones it and the rest add.
  lemma AbsorbsSet(b: Block, p: Piece, at: nat, more: seq<KeySpan>, whole: seq<KeySpan>, news: seq<KeySpan>, known: set<string>)
    requires p.Set? && p.span != [] && known == Names(b.keys)
    requires whole == Noted(b, p, at).keys + more
    requires news == if p.key !in known then [KeySpan(p.key, at, at + |p.span| - 1)] + more else more
    ensures whole == b.keys + news
  {
    NotedKeys(b, p, at, more);
  }

  lemma NotedNames(b: Block, p: Piece, at: nat, rest: seq<Piece>, next: nat)
    requires p.Set? && p.span != [] && KeysAbsorbed(Noted(b, p, at), rest, next)
    ensures Absorb(Noted(b, p, at), rest, next).keys
      == Noted(b, p, at).keys + NewKeys(rest, next, KnownAfter(p, Names(b.keys)))
  {
    NotedKeys(b, p, at, []);
  }

  lemma AbsorbsOther(b: Block, p: Piece, rest: seq<Piece>, at: nat)
    requires !(p.Set? && p.span != []) && KeysAbsorbed(b, rest, at + |LinesIn(p)|)
    ensures KeysAbsorbed(b, [p] + rest, at)
  {
    AbsorbStep(b, p, rest, at);
    NewKeysFirst(p, rest, at, Names(b.keys));
  }

  // The keys of the whole body, from those after its first assignment and the ones the rest adds.
  lemma AbsorbsRest(b: Block, p: Piece, rest: seq<Piece>, at: nat, known: set<string>, noted: Block, more: seq<KeySpan>)
    requires p.Set? && p.span != [] && known == Names(b.keys) && noted == Noted(b, p, at)
    requires more == NewKeys(rest, at + |LinesIn(p)|, KnownAfter(p, known))
    requires Absorb(noted, rest, at + |LinesIn(p)|).keys == noted.keys + more
    ensures Absorb(b, [p] + rest, at).keys == b.keys + NewKeys([p] + rest, at, known)
  {
    AbsorbStep(b, p, rest, at);
    NewKeysFirst(p, rest, at, known);
    AbsorbsSet(b, p, at, more, noted.keys + more, NewKeys([p] + rest, at, known), known);
  }

  lemma AbsorbsFirst(b: Block, p: Piece, rest: seq<Piece>, at: nat)
    requires p.Set? && p.span != [] && KeysAbsorbed(Noted(b, p, at), rest, at + |LinesIn(p)|)
    ensures KeysAbsorbed(b, [p] + rest, at)
  {
    var next, known := at + |LinesIn(p)|, Names(b.keys);
    NotedNames(b, p, at, rest, next);
    AbsorbsRest(b, p, rest, at, known, Noted(b, p, at), NewKeys(rest, next, KnownAfter(p, known)));
  }

  lemma {:induction false} AbsorbedKeys(b: Block, body: seq<Piece>, at: nat)
    ensures KeysAbsorbed(b, body, at)
    decreases |body|
  {
    if body == [] {
      assert b.keys + [] == b.keys;
    } else {
      var p, rest := body[0], body[1..];
      if p.Set? && p.span != [] {
        AbsorbedKeys(Noted(b, p, at), rest, at + |LinesIn(p)|);
        AbsorbsFirst(b, p, rest, at);
      } else {
        AbsorbedKeys(b, rest, at + |LinesIn(p)|);
        AbsorbsOther(b, p, rest, at);
      }
      assert body == [p] + rest;
    }
  }

  // The line the last assignment ends on: `last` when there is none.
  function LastLine(body: seq<Piece>, at: nat, last: nat): int {
    if LastSet(body) == 0 then last else at + |Flat(body[..LastSet(body)])| - 1
  }

  lemma NotedLast(b: Block, p: Piece, at: nat)
    requires p.Set? && p.span != []
    ensures Noted(b, p, at).lastKv == at + |p.span| - 1
  {
  }

  lemma {:induction false} AbsorbedLast(b: Block, body: seq<Piece>, at: nat)
    requires IsBody(body)
    ensures Absorb(b, body, at).lastKv == LastLine(body, at, b.lastKv)
    decreases |body|
  {
    if body != [] {
      var p, rest, next := body[0], body[1..], at + |LinesIn(body[0])|;
      AbsorbStep(b, p, rest, at);
      assert body == [p] + rest;
      if p.Set? {
        NotedLast(b, p, at);
        AbsorbedLast(Noted(b, p, at), rest, next);
        LastLater(body, at, b.lastKv, next - 1);
      } else {
        AbsorbedLast(b, rest, next);
        LastLater(body, at, b.lastKv, b.lastKv);
      }
    }
  }

  lemma LastLater(body: seq<Piece>, at: nat, last: nat, last': nat)
    requires body != [] && IsBody(body) && last' == if body[0].Set? then at + |LinesIn(body[0])| - 1 else last
    ensures LastLine(body, at, last) == LastLine(body[1..], at + |LinesIn(body[0])|, last')
  {
    LastSetRest(body);
    if LastSet(body) > 0 {
      FlatFront(body, LastSet(body));
    }
  }

  lemma FlatFront(body: seq<Piece>, k: nat)
    requires 0 < k <= |body|
    ensures |Flat(body[..k])| == |LinesIn(body[0])| + |Flat(body[1..][..k - 1])|
  {
    assert body[..k] == [body[0]] + body[1..][..k - 1];
    FlatFirst(body[0], body[1..][..k - 1]);
  }

  // How many pieces lead up to the last assignment, it included.
  function LastSet(body: seq<Piece>): (k: nat)
    ensures k <= |body|
    ensures k > 0 ==> body[k - 1].Set?
    ensures forall i :: k <= i < |body| ==> !body[i].Set?
  {
    if body == [] then 0
    else if body[|body| - 1].Set? then |body|
    else LastSet(body[..|body| - 1])
  }

  lemma LastSetRest(body: seq<Piece>)
    requires body != []
    ensures LastSet(body) == if LastSet(body[1..]) > 0 then LastSet(body[1..]) + 1 else if body[0].Set? then 1 else 0
  {
    var k, r := LastSet(body), LastSet(body[1..]);
    assert forall i :: 1 <= i < |body| ==> body[i] == body[1..][i - 1];
    if r > 0 {
      assert body[r].Set?;
    }
  }

  predicate StandIn(keys: seq<KeySpan>, from: nat, to: nat, known: set<string>) {
    forall i :: 0 <= i < |keys| ==> from <= keys[i].first <= keys[i].last < to && keys[i].key !in known
  }

  lemma KeyBefore(k: KeySpan, keys: seq<KeySpan>, to: nat, known: set<string>)
    requires Ascending(keys) && StandIn(keys, k.last + 1, to, known + {k.key}) && k.key !in known
    requires k.first <= k.last < to
    ensures Ascending([k] + keys) && StandIn([k] + keys, k.first, to, known)
  {
    var all := [k] + keys;
    forall i | 0 <= i < |keys| ensures k.last < keys[i].first && keys[i].key != k.key {
      assert keys[i].key !in known + {k.key};
    }
    forall i, j | 0 <= i < j < |all| ensures all[i].last < all[j].first && all[i].key != all[j].key {
      assert all[j] == keys[j - 1];
      assert i > 0 ==> all[i] == keys[i - 1];
    }
    forall i | 0 <= i < |all| ensures k.first <= all[i].first <= all[i].last < to && all[i].key !in known {
      assert i > 0 ==> all[i] == keys[i - 1];
    }
  }

  lemma {:induction false} NewKeysStand(body: seq<Piece>, at: nat, known: set<string>)
    ensures Ascending(NewKeys(body, at, known))
    ensures StandIn(NewKeys(body, at, known), at, at + |Flat(body)|, known)
    decreases |body|
  {
    if body != [] {
      var p, next := body[0], at + |LinesIn(body[0])|;
      if p.Set? && p.span != [] && p.key !in known {
        NewKeysStand(body[1..], next, known + {p.key});
        KeyBefore(KeySpan(p.key, at, next - 1), NewKeys(body[1..], next, known + {p.key}), at + |Flat(body)|, known);
      } else {
        NewKeysStand(body[1..], next, known);
      }
    }
  }

  // Assignments of the pairs' keys replaced, the first of each key.
  function EditSets(style: Style, body: seq<Piece>, known: set<string>, pairs: seq<Pair>): seq<Piece> {
    if body == [] then []
    else
      var p := body[0];
      var known' := if p.Set? && p.span != [] then known + {p.key} else known;
      [if p.Set? && p.span != [] && p.key !in known && PairFor(pairs, p.key).Some?
       then style.piece(style.rewrite(p.span, PairFor(pairs, p.key).value)) else p]
      + EditSets(style, body[1..], known', pairs)
  }

  lemma {:induction false} FlatSplits(a: seq<Piece>, b: seq<Piece>)
    ensures Flat(a + b) == Flat(a) + Flat(b)
  {
    if a == [] {
      assert a + b == b;
    } else {
      assert (a + b)[1..] == a[1..] + b;
      FlatSplits(a[1..], b);
    }
  }

  lemma {:induction false} ReplaceAllSplits(out: seq<string>, a: seq<Replacement>, b: seq<Replacement>)
    ensures ReplaceAll(out, a + b) == ReplaceAll(ReplaceAll(out, a), b)
    decreases |a|
  {
    if a == [] {
      assert a + b == b;
    } else {
      assert (a + b)[1..] == a[1..] + b;
      ReplaceAllSplits(ReplaceAt(out, a[0]), a[1..], b);
    }
  }

  lemma ReplacesSpan(before: seq<string>, span: seq<string>, after: seq<string>, line: string)
    requires span != []
    ensures ReplaceAt(before + span + after, Replacement(|before|, |before| + |span| - 1, line)) == before + [line] + after
  {
  }

  // ---- the steps make the simultaneous edit --------------------------------------------------------------

  predicate Touches(p: Piece, known: set<string>, pairs: seq<Pair>) {
    p.Set? && p.span != [] && p.key !in known && PairFor(pairs, p.key).Some?
  }

  function KnownAfter(p: Piece, known: set<string>): set<string> {
    if p.Set? && p.span != [] then known + {p.key} else known
  }

  // The replacements of a body that starts at line `at`.
  function EditsOf(style: Style, body: seq<Piece>, at: nat, known: set<string>, pairs: seq<Pair>): seq<Replacement> {
    if body == [] then []
    else
      var p, next := body[0], at + |LinesIn(body[0])|;
      (if Touches(p, known, pairs)
       then [Replacement(at, next - 1, style.rewrite(p.span, PairFor(pairs, p.key).value))] else [])
      + EditsOf(style, body[1..], next, KnownAfter(p, known), pairs)
  }

  lemma WithinCons(k: KeySpan, rest: seq<KeySpan>, n: nat)
    requires k.first <= k.last < n && AllWithin(rest, n)
    ensures AllWithin([k] + rest, n)
  {
  }

  lemma InOrderCons(style: Style, lines: seq<string>, k: KeySpan, rest: seq<KeySpan>, pairs: seq<Pair>)
    requires k.first <= k.last < |lines| && AllWithin(rest, |lines|)
    ensures AllWithin([k] + rest, |lines|)
    ensures InOrder(style, lines, [k] + rest, pairs) == KeyEdit(style, lines, k, pairs) + InOrder(style, lines, rest, pairs)
  {
    WithinCons(k, rest, |lines|);
    var all := [k] + rest;
    assert all[0] == k && all[1..] == rest;
  }

  // The replacements of the new keys are those of the body.
  predicate EditsMatch(style: Style, lines: seq<string>, keys: seq<KeySpan>, edits: seq<Replacement>, pairs: seq<Pair>) {
    AllWithin(keys, |lines|) && InOrder(style, lines, keys, pairs) == edits
  }

  lemma EditsCons(style: Style, lines: seq<string>, k: KeySpan, keys: seq<KeySpan>, edits: seq<Replacement>,
                  pairs: seq<Pair>, edits': seq<Replacement>)
    requires k.first <= k.last < |lines| && EditsMatch(style, lines, keys, edits, pairs)
    requires edits' == KeyEdit(style, lines, k, pairs) + edits
    ensures EditsMatch(style, lines, [k] + keys, edits', pairs)
  {
    InOrderCons(style, lines, k, keys, pairs);
  }

  lemma EditsFirst(style: Style, lines: seq<string>, p: Piece, at: nat, known: set<string>, pairs: seq<Pair>,
                   keys: seq<KeySpan>, edits: seq<Replacement>)
    requires p.Set? && p.span != [] && p.key !in known
    requires at + |p.span| <= |lines| && lines[at..at + |p.span|] == p.span
    requires EditsMatch(style, lines, keys, edits, pairs)
    ensures EditsMatch(style, lines, [KeySpan(p.key, at, at + |p.span| - 1)] + keys,
      if Touches(p, known, pairs)
      then [Replacement(at, at + |p.span| - 1, style.rewrite(p.span, PairFor(pairs, p.key).value))] + edits else edits,
      pairs)
  {
    var k := KeySpan(p.key, at, at + |p.span| - 1);
    assert lines[k.first..k.last + 1] == p.span;
    assert [] + edits == edits;
    EditsCons(style, lines, k, keys, edits, pairs,
              if Touches(p, known, pairs)
              then [Replacement(at, at + |p.span| - 1, style.rewrite(p.span, PairFor(pairs, p.key).value))] + edits else edits);
  }

  lemma NewKeysFirst(p: Piece, rest: seq<Piece>, at: nat, known: set<string>)
    ensures var next := at + |LinesIn(p)|;
      NewKeys([p] + rest, at, known) ==
        if p.Set? && p.span != [] && p.key !in known
        then [KeySpan(p.key, at, next - 1)] + NewKeys(rest, next, KnownAfter(p, known))
        else NewKeys(rest, next, KnownAfter(p, known))
  {
    assert ([p] + rest)[1..] == rest;
    assert p.Set? && p.key in known ==> known + {p.key} == known;
  }

  predicate HasBody(lines: seq<string>, body: seq<Piece>, at: nat) {
    at + |Flat(body)| <= |lines| && lines[at..at + |Flat(body)|] == Flat(body)
  }

  lemma HasFirst(lines: seq<string>, p: Piece, rest: seq<Piece>, at: nat)
    requires HasBody(lines, [p] + rest, at)
    ensures at + |LinesIn(p)| <= |lines| && lines[at..at + |LinesIn(p)|] == LinesIn(p)
    ensures HasBody(lines, rest, at + |LinesIn(p)|)
  {
    FlatFirst(p, rest);
    SliceParts(lines, at, LinesIn(p), Flat(rest));
  }

  // A first piece that assigns nothing new edits nothing.
  lemma EditsSame(style: Style, p: Piece, rest: seq<Piece>, at: nat, known: set<string>, pairs: seq<Pair>)
    requires !(p.Set? && p.span != [] && p.key !in known)
    ensures NewKeys([p] + rest, at, known) == NewKeys(rest, at + |LinesIn(p)|, KnownAfter(p, known))
    ensures EditsOf(style, [p] + rest, at, known, pairs) == EditsOf(style, rest, at + |LinesIn(p)|, KnownAfter(p, known), pairs)
  {
    NewKeysFirst(p, rest, at, known);
    FirstEdit(style, p, rest, at, known, pairs);
  }

  lemma {:induction false} EditsAre(style: Style, lines: seq<string>, body: seq<Piece>, at: nat, known: set<string>, pairs: seq<Pair>)
    requires HasBody(lines, body, at)
    ensures EditsMatch(style, lines, NewKeys(body, at, known), EditsOf(style, body, at, known, pairs), pairs)
    decreases |body|
  {
    if body != [] {
      var p, rest := body[0], body[1..];
      var next, known' := at + |LinesIn(p)|, KnownAfter(p, known);
      assert body == [p] + rest;
      HasFirst(lines, p, rest, at);
      EditsAre(style, lines, rest, next, known', pairs);
      if p.Set? && p.span != [] && p.key !in known {
        NewKeysFirst(p, rest, at, known);
        FirstEdit(style, p, rest, at, known, pairs);
        EditsFirst(style, lines, p, at, known, pairs, NewKeys(rest, next, known'), EditsOf(style, rest, next, known', pairs));
      } else {
        EditsSame(style, p, rest, at, known, pairs);
      }
    }
  }

  lemma SliceParts(lines: seq<string>, at: nat, head: seq<string>, tail: seq<string>)
    requires at + |head| + |tail| <= |lines| && lines[at..at + |head| + |tail|] == head + tail
    ensures lines[at..at + |head|] == head && lines[at + |head|..at + |head| + |tail|] == tail
  {
    var slice := lines[at..at + |head| + |tail|];
    assert slice[..|head|] == head && slice[|head|..] == tail;
  }

  lemma ReversedCons(r: Replacement, rs: seq<Replacement>)
    ensures Reversed([r] + rs) == Reversed(rs) + [r]
  {
    assert ([r] + rs)[1..] == rs;
  }

  // The replacement of a span, once those below it are made.
  lemma ReplacesFirst(all: seq<string>, edits: seq<Replacement>, before: seq<string>, span: seq<string>, tail: seq<string>, line: string)
    requires ReplaceAll(all, Reversed(edits)) == before + span + tail && span != []
    ensures ReplaceAll(all, Reversed([Replacement(|before|, |before| + |span| - 1, line)] + edits)) == before + [line] + tail
  {
    var r := Replacement(|before|, |before| + |span| - 1, line);
    ReversedCons(r, edits);
    ReplaceAllSplits(all, Reversed(edits), [r]);
    ReplacesSpan(before, span, tail, line);
    assert [r][1..] == [];
  }

  lemma Regroup(a: seq<string>, b: seq<string>, c: seq<string>, d: seq<string>)
    ensures a + (b + c) + d == (a + b) + c + d
    ensures (a + b) + c + d == a + b + (c + d)
  {
  }

  ghost predicate Plain(style: Style) { forall line :: LinesIn(style.piece(line)) == [line] }

  lemma FirstEdited(style: Style, p: Piece, rest: seq<Piece>, known: set<string>, pairs: seq<Pair>)
    requires Plain(style)
    ensures Flat(EditSets(style, [p] + rest, known, pairs)) ==
      (if Touches(p, known, pairs) then [style.rewrite(p.span, PairFor(pairs, p.key).value)] else LinesIn(p))
      + Flat(EditSets(style, rest, KnownAfter(p, known), pairs))
  {
    assert ([p] + rest)[1..] == rest;
    var more := EditSets(style, rest, KnownAfter(p, known), pairs);
    var first := if Touches(p, known, pairs) then style.piece(style.rewrite(p.span, PairFor(pairs, p.key).value)) else p;
    assert EditSets(style, [p] + rest, known, pairs) == [first] + more;
    assert ([first] + more)[1..] == more;
  }

  lemma FirstEdit(style: Style, p: Piece, rest: seq<Piece>, at: nat, known: set<string>, pairs: seq<Pair>)
    ensures var edits := EditsOf(style, rest, at + |LinesIn(p)|, KnownAfter(p, known), pairs);
      EditsOf(style, [p] + rest, at, known, pairs) ==
        if Touches(p, known, pairs)
        then [Replacement(at, at + |p.span| - 1, style.rewrite(p.span, PairFor(pairs, p.key).value))] + edits
        else edits
  {
    assert ([p] + rest)[1..] == rest;
  }

  // One piece more, by the result for the rest: nothing to do, or one span to replace.
  lemma SplicesMore(before: seq<string>, span: seq<string>, flat: seq<string>, after: seq<string>,
                    edits: seq<Replacement>, edited: seq<string>)
    requires ReplaceAll((before + span) + flat + after, Reversed(edits)) == (before + span) + edited + after
    ensures ReplaceAll(before + (span + flat) + after, Reversed(edits)) == before + (span + edited) + after
  {
    Regroup(before, span, flat, after);
    Regroup(before, span, edited, after);
  }

  lemma SplicesOne(before: seq<string>, span: seq<string>, flat: seq<string>, after: seq<string>,
                   edits: seq<Replacement>, edited: seq<string>, line: string)
    requires ReplaceAll((before + span) + flat + after, Reversed(edits)) == (before + span) + edited + after
    requires span != []
    ensures ReplaceAll(before + (span + flat) + after,
                       Reversed([Replacement(|before|, |before| + |span| - 1, line)] + edits))
      == before + ([line] + edited) + after
  {
    Regroup(before, span, flat, after);
    Regroup(before, span, edited, after);
    ReplacesFirst(before + (span + flat) + after, edits, before, span, edited + after, line);
    Regroup(before, [line], edited, after);
  }

  // Replacing the spans of the body from the bottom up replaces each where it stands.
  predicate Spliced(before: seq<string>, flat: seq<string>, after: seq<string>, edits: seq<Replacement>, edited: seq<string>) {
    ReplaceAll(before + flat + after, Reversed(edits)) == before + edited + after
  }

  lemma SplicedMore(before: seq<string>, span: seq<string>, flat: seq<string>, after: seq<string>,
                    edits: seq<Replacement>, edited: seq<string>, line: Option<string>,
                    flat': seq<string>, edits': seq<Replacement>, edited': seq<string>)
    requires Spliced(before + span, flat, after, edits, edited) && (line.Some? ==> span != [])
    requires flat' == span + flat
    requires edits' == if line.Some? then [Replacement(|before|, |before| + |span| - 1, line.value)] + edits else edits
    requires edited' == if line.Some? then [line.value] + edited else span + edited
    ensures Spliced(before, flat', after, edits', edited')
  {
    if line.Some? {
      SplicesOne(before, span, flat, after, edits, edited, line.value);
    } else {
      SplicesMore(before, span, flat, after, edits, edited);
    }
  }

  lemma FlatFirst(p: Piece, rest: seq<Piece>)
    ensures Flat([p] + rest) == LinesIn(p) + Flat(rest)
  {
    assert ([p] + rest)[1..] == rest;
  }

  // The line that replaces the first piece, if it is edited.
  function FirstLine(style: Style, p: Piece, known: set<string>, pairs: seq<Pair>): Option<string> {
    if Touches(p, known, pairs) then Some(style.rewrite(p.span, PairFor(pairs, p.key).value)) else None
  }

  lemma EditedFlatFirst(style: Style, body: seq<Piece>, known: set<string>, pairs: seq<Pair>)
    requires Plain(style) && body != []
    ensures var line := FirstLine(style, body[0], known, pairs);
      Flat(EditSets(style, body, known, pairs)) ==
        (if line.Some? then [line.value] else LinesIn(body[0]))
        + Flat(EditSets(style, body[1..], KnownAfter(body[0], known), pairs))
  {
    FirstEdited(style, body[0], body[1..], known, pairs);
    assert body == [body[0]] + body[1..];
  }

  lemma EditsFlatFirst(style: Style, body: seq<Piece>, at: nat, known: set<string>, pairs: seq<Pair>)
    requires body != []
    ensures var line := FirstLine(style, body[0], known, pairs);
      var edits := EditsOf(style, body[1..], at + |LinesIn(body[0])|, KnownAfter(body[0], known), pairs);
      EditsOf(style, body, at, known, pairs) ==
        if line.Some? then [Replacement(at, at + |LinesIn(body[0])| - 1, line.value)] + edits else edits
  {
    FirstEdit(style, body[0], body[1..], at, known, pairs);
    assert body == [body[0]] + body[1..];
  }

  lemma SplicedStep(style: Style, before: seq<string>, body: seq<Piece>, after: seq<string>, known: set<string>,
                    pairs: seq<Pair>, edits: seq<Replacement>, edited: seq<string>)
    requires Plain(style) && body != []
    requires edits == EditsOf(style, body[1..], |before| + |LinesIn(body[0])|, KnownAfter(body[0], known), pairs)
    requires edited == Flat(EditSets(style, body[1..], KnownAfter(body[0], known), pairs))
    requires Spliced(before + LinesIn(body[0]), Flat(body[1..]), after, edits, edited)
    ensures Spliced(before, Flat(body), after, EditsOf(style, body, |before|, known, pairs),
                    Flat(EditSets(style, body, known, pairs)))
  {
    EditsFlatFirst(style, body, |before|, known, pairs);
    EditedFlatFirst(style, body, known, pairs);
    SplicedMore(before, LinesIn(body[0]), Flat(body[1..]), after, edits, edited, FirstLine(style, body[0], known, pairs),
                Flat(body), EditsOf(style, body, |before|, known, pairs), Flat(EditSets(style, body, known, pairs)));
  }

  lemma {:induction false} SplicesBody(style: Style, before: seq<string>, body: seq<Piece>, after: seq<string>,
                                       known: set<string>, pairs: seq<Pair>)
    requires Plain(style)
    ensures Spliced(before, Flat(body), after, EditsOf(style, body, |before|, known, pairs),
                    Flat(EditSets(style, body, known, pairs)))
    decreases |body|
  {
    if body != [] {
      var known' := KnownAfter(body[0], known);
      SplicesBody(style, before + LinesIn(body[0]), body[1..], after, known', pairs);
      SplicedStep(style, before, body, after, known, pairs,
                  EditsOf(style, body[1..], |before + LinesIn(body[0])|, known', pairs),
                  Flat(EditSets(style, body[1..], known', pairs)));
    }
  }

  // Nothing is edited among lines that assign nothing.
  lemma {:induction false} NoEdits(style: Style, body: seq<Piece>, at: nat, known: set<string>, pairs: seq<Pair>)
    requires forall i :: 0 <= i < |body| ==> !body[i].Set?
    ensures EditsOf(style, body, at, known, pairs) == []
    decreases |body|
  {
    if body != [] {
      NoEdits(style, body[1..], at + |LinesIn(body[0])|, known, pairs);
    }
  }

  lemma {:induction false} EditsEnd(style: Style, body: seq<Piece>, tail: seq<Piece>, at: nat, known: set<string>, pairs: seq<Pair>)
    requires forall i :: 0 <= i < |tail| ==> !tail[i].Set?
    ensures EditsOf(style, body + tail, at, known, pairs) == EditsOf(style, body, at, known, pairs)
    decreases |body|
  {
    if body == [] {
      assert body + tail == tail;
      NoEdits(style, tail, at, known, pairs);
    } else {
      var p, rest := body[0], body[1..];
      assert body == [p] + rest && body + tail == [p] + (rest + tail);
      FirstEdit(style, p, rest, at, known, pairs);
      FirstEdit(style, p, rest + tail, at, known, pairs);
      EditsEnd(style, rest, tail, at + |LinesIn(p)|, KnownAfter(p, known), pairs);
    }
  }

  // Lines of their own, as pieces.
  function AsPieces(style: Style, lines: seq<string>): seq<Piece> {
    seq(|lines|, i requires 0 <= i < |lines| => style.piece(lines[i]))
  }

  lemma {:induction false} FlatPieces(style: Style, lines: seq<string>)
    requires Plain(style)
    ensures Flat(AsPieces(style, lines)) == lines
  {
    if lines != [] {
      FlatPieces(style, lines[1..]);
      FlatFirst(style.piece(lines[0]), AsPieces(style, lines[1..]));
      assert AsPieces(style, lines) == [style.piece(lines[0])] + AsPieces(style, lines[1..]);
      assert lines == [lines[0]] + lines[1..];
    }
  }

  /** The simultaneous edit of a block: each first assignment of a given key is replaced, and the
      lines to insert follow the last assignment. */
  function Edited(style: Style, body: seq<Piece>, inserted: seq<string>, pairs: seq<Pair>): seq<Piece> {
    EditSets(style, body[..LastSet(body)], {}, pairs) + AsPieces(style, inserted) + body[LastSet(body)..]
  }

  // The block whose header ends `before`.
  function BlockOf(before: seq<string>, body: seq<Piece>): Block
    requires before != []
  {
    Absorb(Block("", "", |before| - 1, []), body, |before|)
  }

  lemma StandsBefore(keys: seq<KeySpan>, from: nat, to: nat)
    requires StandIn(keys, from, to, {})
    ensures forall i :: 0 <= i < |keys| ==> keys[i].first <= keys[i].last <= to - 1
  {
  }

  lemma BlockKeysAre(before: seq<string>, body: seq<Piece>)
    requires before != []
    ensures BlockOf(before, body).keys == NewKeys(body, |before|, {})
    ensures BlockOf(before, body).keys == NewKeys(body[..LastSet(body)], |before|, {})
  {
    var k := LastSet(body);
    AbsorbedKeys(Block("", "", |before| - 1, []), body, |before|);
    assert Names([]) == {} && [] + NewKeys(body, |before|, {}) == NewKeys(body, |before|, {});
    NewKeysEnd(body[..k], body[k..], |before|, {});
    assert body == body[..k] + body[k..];
  }

  lemma BlockWithin(before: seq<string>, body: seq<Piece>, n: nat)
    requires before != []
    ensures var b, k := BlockOf(before, body), LastSet(body);
      b.lastKv + 1 == |before| + |Flat(body[..k])| && b.lastKv < n ==> Within(b, n) && Ascending(b.keys)
  {
    var k := LastSet(body);
    BlockKeysAre(before, body);
    NewKeysStand(body[..k], |before|, {});
    StandsBefore(NewKeys(body[..k], |before|, {}), |before|, |before| + |Flat(body[..k])|);
  }

  lemma BlockStands(before: seq<string>, body: seq<Piece>, after: seq<string>)
    requires before != [] && IsBody(body)
    ensures var b := BlockOf(before, body);
      && Within(b, |before + Flat(body) + after|) && Ascending(b.keys)
      && b.keys == NewKeys(body, |before|, {})
      && b.lastKv + 1 == |before| + |Flat(body[..LastSet(body)])|
  {
    var k := LastSet(body);
    BlockKeysAre(before, body);
    AbsorbedLast(Block("", "", |before| - 1, []), body, |before|);
    FlatShorter(body, k);
    BlockWithin(before, body, |before + Flat(body) + after|);
  }

  lemma FlatShorter(body: seq<Piece>, k: nat)
    requires k <= |body|
    ensures |Flat(body[..k])| <= |Flat(body)|
    ensures k == 0 ==> |Flat(body[..k])| == 0
  {
    assert body == body[..k] + body[k..];
    FlatSplits(body[..k], body[k..]);
  }

  lemma {:induction false} NewKeysEnd(body: seq<Piece>, tail: seq<Piece>, at: nat, known: set<string>)
    requires forall i :: 0 <= i < |tail| ==> !tail[i].Set?
    ensures NewKeys(body + tail, at, known) == NewKeys(body, at, known)
    decreases |body|, |tail|
  {
    if body == [] {
      assert body + tail == tail;
      if tail != [] {
        NewKeysEnd([], tail[1..], at + |LinesIn(tail[0])|, known);
        assert [] + tail[1..] == tail[1..];
      }
    } else {
      var p, rest := body[0], body[1..];
      assert body == [p] + rest && body + tail == [p] + (rest + tail);
      NewKeysFirst(p, rest, at, known);
      NewKeysFirst(p, rest + tail, at, known);
      NewKeysEnd(rest, tail, at + |LinesIn(p)|, KnownAfter(p, known));
    }
  }

  lemma InsertsAfter(before: seq<string>, head: seq<string>, tail: seq<string>, after: seq<string>, inserted: seq<string>)
    ensures var lines, at := before + (head + tail) + after, |before| + |head|;
      lines[..at] + inserted + lines[at..] == before + head + (inserted + tail + after)
  {
    var lines := before + (head + tail) + after;
    assert lines == (before + head) + (tail + after);
  }

  lemma OutParts(before: seq<string>, front: seq<Piece>, back: seq<Piece>, after: seq<string>, at: nat, inserted: seq<string>)
    requires at == |before| + |Flat(front)|
    ensures var lines := before + Flat(front + back) + after;
      && at <= |lines|
      && lines[..at] + inserted + lines[at..] == before + Flat(front) + (inserted + Flat(back) + after)
  {
    FlatSplits(front, back);
    InsertsAfter(before, Flat(front), Flat(back), after, inserted);
  }

  lemma OutFirst(before: seq<string>, body: seq<Piece>, after: seq<string>, at: nat, inserted: seq<string>)
    requires at == |before| + |Flat(body[..LastSet(body)])|
    ensures var lines, k := before + Flat(body) + after, LastSet(body);
      && at <= |lines|
      && lines[..at] + inserted + lines[at..] == before + Flat(body[..k]) + (inserted + Flat(body[k..]) + after)
  {
    var k := LastSet(body);
    assert body == body[..k] + body[k..];
    OutParts(before, body[..k], body[k..], after, at, inserted);
  }

  lemma FrontEdits(style: Style, body: seq<Piece>, at: nat, pairs: seq<Pair>)
    ensures EditsOf(style, body, at, {}, pairs) == EditsOf(style, body[..LastSet(body)], at, {}, pairs)
  {
    var k := LastSet(body);
    assert body == body[..k] + body[k..];
    EditsEnd(style, body[..k], body[k..], at, {}, pairs);
  }

  lemma SortedEdits(style: Style, before: seq<string>, body: seq<Piece>, after: seq<string>, b: Block, pairs: seq<Pair>)
    requires DistinctKeys(pairs) && Within(b, |before + Flat(body) + after|) && Ascending(b.keys)
    requires b.keys == NewKeys(body, |before|, {})
    ensures SortDown(Replacements(style, before + Flat(body) + after, b, pairs))
      == Reversed(EditsOf(style, body[..LastSet(body)], |before|, {}, pairs))
  {
    var lines := before + Flat(body) + after;
    SortedInOrder(style, lines, b, pairs);
    BodyThere(before, body, after);
    EditsAre(style, lines, body, |before|, {}, pairs);
    FrontEdits(style, body, |before|, pairs);
  }

  /** Inserting first and then replacing from the bottom up is the simultaneous edit. */
  lemma SequentialIsEdited(style: Style, before: seq<string>, body: seq<Piece>, after: seq<string>, pairs: seq<Pair>)
    requires Plain(style) && before != [] && IsBody(body) && DistinctKeys(pairs)
    ensures var lines, b := before + Flat(body) + after, BlockOf(before, body);
      && Within(b, |lines|)
      && Sequential(style, lines, b, pairs)
         == before + Flat(Edited(style, body, Insertions(BlockIndent(lines, b), b, pairs), pairs)) + after
  {
    BlockStands(before, body, after);
    SequentialParts(style, before, body, after, BlockOf(before, body), pairs);
  }

  lemma SequentialBy(style: Style, lines: seq<string>, b: Block, pairs: seq<Pair>, inserted: seq<string>,
                     out: seq<string>, edits: seq<Replacement>)
    requires Within(b, |lines|) && inserted == Insertions(BlockIndent(lines, b), b, pairs)
    requires lines[..b.lastKv + 1] + inserted + lines[b.lastKv + 1..] == out
    requires SortDown(Replacements(style, lines, b, pairs)) == Reversed(edits)
    ensures Sequential(style, lines, b, pairs) == ReplaceAll(out, Reversed(edits))
  {
  }

  lemma Together(out: seq<string>, before: seq<string>, head: seq<string>, tail: seq<string>, after: seq<string>,
                 inserted: seq<string>, edits: seq<Replacement>, edited: seq<string>, flat: seq<string>)
    requires out == before + head + (inserted + tail + after)
    requires Spliced(before, head, inserted + tail + after, edits, edited) && flat == edited + inserted + tail
    ensures ReplaceAll(out, Reversed(edits)) == before + flat + after
  {
    Regroup4(before, edited, inserted, tail, after);
  }

  lemma SequentialParts(style: Style, before: seq<string>, body: seq<Piece>, after: seq<string>, b: Block, pairs: seq<Pair>)
    requires Plain(style) && DistinctKeys(pairs) && Within(b, |before + Flat(body) + after|) && Ascending(b.keys)
    requires b.keys == NewKeys(body, |before|, {}) && b.lastKv + 1 == |before| + |Flat(body[..LastSet(body)])|
    ensures var lines := before + Flat(body) + after;
      Sequential(style, lines, b, pairs)
      == before + Flat(Edited(style, body, Insertions(BlockIndent(lines, b), b, pairs), pairs)) + after
  {
    var lines, k := before + Flat(body) + after, LastSet(body);
    var inserted := Insertions(BlockIndent(lines, b), b, pairs);
    var edits := EditsOf(style, body[..k], |before|, {}, pairs);
    var out := before + Flat(body[..k]) + (inserted + Flat(body[k..]) + after);
    OutFirst(before, body, after, b.lastKv + 1, inserted);
    SortedEdits(style, before, body, after, b, pairs);
    SequentialBy(style, lines, b, pairs, inserted, out, edits);
    EditedTogether(style, before, body, after, inserted, out, pairs);
  }

  lemma EditedTogether(style: Style, before: seq<string>, body: seq<Piece>, after: seq<string>, inserted: seq<string>,
                       out: seq<string>, pairs: seq<Pair>)
    requires Plain(style)
    requires out == before + Flat(body[..LastSet(body)]) + (inserted + Flat(body[LastSet(body)..]) + after)
    ensures ReplaceAll(out, Reversed(EditsOf(style, body[..LastSet(body)], |before|, {}, pairs)))
      == before + Flat(Edited(style, body, inserted, pairs)) + after
  {
    var k := LastSet(body);
    SplicesBody(style, before, body[..k], inserted + Flat(body[k..]) + after, {}, pairs);
    EditedFlat(style, body, inserted, pairs);
    Together(out, before, Flat(body[..k]), Flat(body[k..]), after, inserted,
             EditsOf(style, body[..k], |before|, {}, pairs), Flat(EditSets(style, body[..k], {}, pairs)),
             Flat(Edited(style, body, inserted, pairs)));
  }

  lemma BodyThere(before: seq<string>, body: seq<Piece>, after: seq<string>)
    ensures HasBody(before + Flat(body) + after, body, |before|)
  {
  }

  lemma EditedFlat(style: Style, body: seq<Piece>, inserted: seq<string>, pairs: seq<Pair>)
    requires Plain(style)
    ensures Flat(Edited(style, body, inserted, pairs)) ==
      Flat(EditSets(style, body[..LastSet(body)], {}, pairs)) + inserted + Flat(body[LastSet(body)..])
  {
    var head := EditSets(style, body[..LastSet(body)], {}, pairs);
    FlatPieces(style, inserted);
    FlatSplits(head, AsPieces(style, inserted));
    FlatSplits(head + AsPieces(style, inserted), body[LastSet(body)..]);
  }

  lemma Regroup4(a: seq<string>, b: seq<string>, c: seq<string>, d: seq<string>, e: seq<string>)
    ensures a + b + (c + d + e) == a + (b + c + d) + e
  {
  }
}
