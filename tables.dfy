/**
  * Keyed tables as the store holds them (`map` from primary key to row), the
  * `WHERE` filter and `SUM` aggregate of SQL over them, and the listings a
  * `SELECT` returns: each matching row exactly once, optionally in `ORDER BY`
  * order.
  */
module Tables {
  import opened Text

  /** Every row sits under its own primary key. */
  predicate KeyedBy<V>(t: map<string, V>, id: V -> string)
  {
    forall k | k in t :: id(t[k]) == k
  }

  /** `WHERE p`. */
  function Where<V>(t: map<string, V>, p: V -> bool): (r: map<string, V>)
    ensures forall k :: k in r <==> k in t && p(t[k])
    ensures forall k | k in r :: r[k] == t[k]
  {
    map k | k in t && p(t[k]) :: t[k]
  }

  /** A filter every row passes keeps the whole table. */
  lemma WhereAll<V>(t: map<string, V>, p: V -> bool)
    requires forall k | k in t :: p(t[k])
    ensures Where(t, p) == t
  {
    assert forall k :: k in Where(t, p) <==> k in t;
  }

  // ----- SUM over a table -----

  /** The sum of `f` over the rows of `t`, in no particular order. */
  ghost function SumMap<V>(t: map<string, V>, f: V -> int): int
    decreases |t|
  {
    if t == map[] then 0
    else
      var k :| k in t;
      f(t[k]) + SumMap(t - {k}, f)
  }

  lemma RemoveKeyCard<V>(t: map<string, V>, k: string)
    requires k in t
    ensures |t - {k}| == |t| - 1
  {
    assert (t - {k}).Keys == t.Keys - {k};
  }

  /** The sum does not depend on which row is taken first. */
  lemma {:induction false} SumMapRemove<V>(t: map<string, V>, f: V -> int, k: string)
    requires k in t
    ensures SumMap(t, f) == f(t[k]) + SumMap(t - {k}, f)
    decreases |t|
  {
    var j :| j in t && SumMap(t, f) == f(t[j]) + SumMap(t - {j}, f);
    if j != k {
      RemoveKeyCard(t, j);
      RemoveKeyCard(t, k);
      SumMapRemove(t - {j}, f, k);
      SumMapRemove(t - {k}, f, j);
      assert t - {j} - {k} == t - {k} - {j};
    }
  }

  /** Writing one row changes the sum by the difference of that row's terms. */
  lemma SumMapUpdate<V>(t: map<string, V>, f: V -> int, k: string, v: V)
    ensures SumMap(t[k := v], f) == SumMap(t, f) - (if k in t then f(t[k]) else 0) + f(v)
  {
    SumMapRemove(t[k := v], f, k);
    assert t[k := v] - {k} == t - {k};
    if k in t {
      SumMapRemove(t, f, k);
    } else {
      assert t - {k} == t;
    }
  }

  /** Deleting one row removes its term. */
  lemma SumMapDelete<V>(t: map<string, V>, f: V -> int, k: string)
    ensures SumMap(t - {k}, f) == SumMap(t, f) - (if k in t then f(t[k]) else 0)
  {
    if k in t {
      SumMapRemove(t, f, k);
    } else {
      assert t - {k} == t;
    }
  }

  lemma {:induction false} SumMapNonNegative<V>(t: map<string, V>, f: V -> int)
    requires forall k | k in t :: f(t[k]) >= 0
    ensures SumMap(t, f) >= 0
    decreases |t|
  {
    if t != map[] {
      var k :| k in t;
      SumMapRemove(t, f, k);
      RemoveKeyCard(t, k);
      SumMapNonNegative(t - {k}, f);
    }
  }

  /** Terms that are zero everywhere sum to zero. */
  lemma {:induction false} SumMapZero<V>(t: map<string, V>, f: V -> int)
    requires forall k | k in t :: f(t[k]) == 0
    ensures SumMap(t, f) == 0
    decreases |t|
  {
    if t != map[] {
      var k :| k in t;
      SumMapRemove(t, f, k);
      RemoveKeyCard(t, k);
      SumMapZero(t - {k}, f);
    }
  }

  /** Two term functions that agree on every row give the same sum. */
  lemma {:induction false} SumMapCongruent<V>(t: map<string, V>, f: V -> int, g: V -> int)
    requires forall k | k in t :: f(t[k]) == g(t[k])
    ensures SumMap(t, f) == SumMap(t, g)
    decreases |t|
  {
    if t != map[] {
      var k :| k in t;
      SumMapRemove(t, f, k);
      SumMapRemove(t, g, k);
      RemoveKeyCard(t, k);
      SumMapCongruent(t - {k}, f, g);
    }
  }

  /** Summing over `WHERE p` is summing the terms of the rows that satisfy `p`. */
  lemma {:induction false} SumMapWhere<V>(t: map<string, V>, p: V -> bool, f: V -> int)
    ensures SumMap(Where(t, p), f) == SumMap(t, x => if p(x) then f(x) else 0)
    decreases |t|
  {
    if t != map[] {
      var k :| k in t;
      var g := x => if p(x) then f(x) else 0;
      SumMapRemove(t, g, k);
      RemoveKeyCard(t, k);
      SumMapWhere(t - {k}, p, f);
      if p(t[k]) {
        SumMapRemove(Where(t, p), f, k);
        assert Where(t, p) - {k} == Where(t - {k}, p);
      } else {
        assert Where(t, p) == Where(t - {k}, p);
      }
    }
  }

  // ----- Listings -----

  /** `rs` lists the rows of `t`, each exactly once. */
  predicate Lists<V(==)>(rs: seq<V>, t: map<string, V>, id: V -> string)
  {
    && (forall i, j | 0 <= i < j < |rs| :: id(rs[i]) != id(rs[j]))
    && (forall i | 0 <= i < |rs| :: id(rs[i]) in t && t[id(rs[i])] == rs[i])
    && (forall k | k in t :: t[k] in rs)
  }

  function SumSeq<V>(s: seq<V>, f: V -> int): int
  {
    if |s| == 0 then 0 else f(s[0]) + SumSeq(s[1..], f)
  }

  lemma {:induction false} SumSeqAppend<V>(s: seq<V>, x: V, f: V -> int)
    ensures SumSeq(s + [x], f) == SumSeq(s, f) + f(x)
    decreases |s|
  {
    if |s| == 0 {
      assert s + [x] == [x];
    } else {
      assert (s + [x])[1..] == s[1..] + [x];
      SumSeqAppend(s[1..], x, f);
    }
  }

  /** One more element of a prefix adds its term to the sum. */
  lemma SumSeqPrefix<V>(s: seq<V>, i: int, f: V -> int)
    requires 0 <= i < |s|
    ensures SumSeq(s[..i + 1], f) == SumSeq(s[..i], f) + f(s[i])
  {
    assert s[..i + 1] == s[..i] + [s[i]];
    SumSeqAppend(s[..i], s[i], f);
  }

  /** The entries of `u` under the keys in `keys`. */
  function Restrict<V>(u: map<string, V>, keys: set<string>): (r: map<string, V>)
    ensures r.Keys == u.Keys * keys && forall k | k in r :: r[k] == u[k]
  {
    map k | k in u && k in keys :: u[k]
  }

  /** Restricting to one more key of `u` adds that entry; to a key outside `u`, nothing. */
  lemma RestrictInsert<V>(t: map<string, V>, u: map<string, V>, keys: set<string>, k: string)
    ensures k in u ==> t + Restrict(u, keys + {k}) == (t + Restrict(u, keys))[k := u[k]]
    ensures k !in u ==> Restrict(u, keys + {k}) == Restrict(u, keys)
  {
  }

  /** Restricting to a superset of the keys changes nothing. */
  lemma RestrictCovering<V>(u: map<string, V>, keys: set<string>)
    requires u.Keys <= keys
    ensures Restrict(u, keys) == u
  {
  }

  /** Restricting to no keys, or rekeying none, leaves nothing; adding nothing to a table changes nothing. */
  lemma NoKeys<V, W>(t: map<string, V>, u: map<string, V>, key: map<string, string>, val: map<string, W>)
    requires Injective(key)
    ensures Restrict(u, {}) == map[] && t + map[] == t && Rekeyed({}, key, val) == map[]
  {
  }

  /** Intersecting with a superset changes nothing. */
  lemma IntersectCovering(a: set<string>, b: set<string>)
    requires a <= b
    ensures a * b == a
  {
  }

  /** The ids of the rows `rs`. */
  function IdsOf<V>(rs: seq<V>, id: V -> string): (r: set<string>)
    ensures forall i | 0 <= i < |rs| :: id(rs[i]) in r
    ensures forall k | k in r :: exists i | 0 <= i < |rs| :: id(rs[i]) == k
    decreases |rs|
  {
    if |rs| == 0 then {} else IdsOf(rs[..|rs| - 1], id) + {id(rs[|rs| - 1])}
  }

  /** Updating the right operand of a map union updates the union. */
  lemma UnionUpdate<V>(t: map<string, V>, u: map<string, V>, x: string, v: V)
    ensures t + u[x := v] == (t + u)[x := v]
  {
  }

  /** No two keys of `key` map to the same new key. */
  predicate Injective(key: map<string, string>)
  {
    forall i, j | i in key && j in key && i != j :: key[i] != key[j]
  }

  /** The values of `val` for `keys`, each moved to the new key `key[k]`. */
  function Rekeyed<W>(keys: set<string>, key: map<string, string>, val: map<string, W>): (r: map<string, W>)
    requires keys <= key.Keys && keys <= val.Keys && Injective(key)
    ensures forall k | k in keys :: key[k] in r && r[key[k]] == val[k]
  {
    map k | k in keys :: key[k] := val[k]
  }

  /** Rekeying one more key under an injective renaming adds one entry under a new key. */
  lemma RekeyedInsert<W>(keys: set<string>, key: map<string, string>, val: map<string, W>, k: string)
    requires keys <= key.Keys && keys <= val.Keys && k in key && k in val && k !in keys && Injective(key)
    ensures key[k] !in Rekeyed(keys, key, val)
    ensures Rekeyed(keys + {k}, key, val) == Rekeyed(keys, key, val)[key[k] := val[k]]
  {
    var before := Rekeyed(keys, key, val);
    forall x | x in before
      ensures x != key[k]
    {
      var j :| j in keys && key[j] == x;
      assert j != k;
    }
    var after := Rekeyed(keys + {k}, key, val);
    forall x | x in after
      ensures x in before[key[k] := val[k]] && after[x] == before[key[k] := val[k]][x]
    {
      var j :| j in keys + {k} && key[j] == x;
      if j != k {
        assert x in before;
      }
    }
  }

  /** A listing extended by a row under a new key lists the extended table. */
  lemma ListsAppend<V>(rs: seq<V>, t: map<string, V>, id: V -> string, x: V)
    requires Lists(rs, t, id) && id(x) !in t
    ensures Lists(rs + [x], t[id(x) := x], id)
  {
    var r := rs + [x];
    assert forall i | 0 <= i < |rs| :: r[i] == rs[i];
    forall k | k in t || k == id(x)
      ensures t[id(x) := x][k] in r
    {
      if k != id(x) {
        var i :| 0 <= i < |rs| && rs[i] == t[k];
        assert r[i] == t[k];
      } else {
        assert r[|rs|] == x;
      }
    }
  }

  /** Summing over any listing of a table gives the table's sum. */
  lemma {:induction false} SumOfListing<V>(rs: seq<V>, t: map<string, V>, id: V -> string, f: V -> int)
    requires KeyedBy(t, id) && Lists(rs, t, id)
    ensures SumSeq(rs, f) == SumMap(t, f)
    decreases |rs|
  {
    if |rs| == 0 {
      assert t.Keys == {};
    } else {
      var k := id(rs[0]);
      assert rs[0] in rs;
      var rest := t - {k};
      forall i | 0 <= i < |rs[1..]|
        ensures id(rs[1..][i]) in rest && rest[id(rs[1..][i])] == rs[1..][i]
      {
        assert id(rs[0]) != id(rs[i + 1]);
      }
      forall k' | k' in rest
        ensures rest[k'] in rs[1..]
      {
        var j :| 0 <= j < |rs| && rs[j] == t[k'];
        assert j != 0;
        assert rs[1..][j - 1] == rest[k'];
      }
      assert Lists(rs[1..], rest, id);
      SumOfListing(rs[1..], rest, id, f);
      SumMapRemove(t, f, k);
    }
  }

  lemma ListingLength<V>(rs: seq<V>, t: map<string, V>, id: V -> string)
    requires KeyedBy(t, id) && Lists(rs, t, id)
    ensures |rs| == |t|
  {
    SumOfListing(rs, t, id, _ => 1);
    CountSeq(rs);
    CountMap(t);
  }

  /** Every key of a table is the id of some row of its listing. */
  lemma ListingCoversKeys<V>(rs: seq<V>, t: map<string, V>, id: V -> string)
    requires KeyedBy(t, id) && Lists(rs, t, id)
    ensures forall k | k in t :: exists j | 0 <= j < |rs| :: id(rs[j]) == k
  {
    forall k | k in t
      ensures exists j | 0 <= j < |rs| :: id(rs[j]) == k
    {
      var j :| 0 <= j < |rs| && rs[j] == t[k];
    }
  }

  lemma {:induction false} CountSeq<V>(s: seq<V>)
    ensures SumSeq(s, _ => 1) == |s|
    decreases |s|
  {
    if |s| > 0 {
      CountSeq(s[1..]);
    }
  }

  lemma {:induction false} CountMap<V>(t: map<string, V>)
    ensures SumMap(t, _ => 1) == |t|
    decreases |t|
  {
    if t != map[] {
      var k :| k in t;
      SumMapRemove(t, _ => 1, k);
      RemoveKeyCard(t, k);
      CountMap(t - {k});
    }
  }

  // ----- ORDER BY -----

  predicate Precedes(a: string, b: string, descending: bool)
  {
    if descending then StrLe(b, a) else StrLe(a, b)
  }

  predicate SortedBy<V>(s: seq<V>, key: V -> string, descending: bool)
  {
    forall i, j | 0 <= i < j < |s| :: Precedes(key(s[i]), key(s[j]), descending)
  }

  /** Places `x` before the first row it precedes. */
  function InsertBy<V>(s: seq<V>, x: V, key: V -> string, descending: bool): seq<V>
  {
    if |s| == 0 then [x]
    else if Precedes(key(x), key(s[0]), descending) then [x] + s
    else [s[0]] + InsertBy(s[1..], x, key, descending)
  }

  lemma {:induction false} InsertByContents<V>(s: seq<V>, x: V, key: V -> string, descending: bool)
    ensures multiset(InsertBy(s, x, key, descending)) == multiset(s) + multiset{x}
    decreases |s|
  {
    if |s| > 0 && !Precedes(key(x), key(s[0]), descending) {
      InsertByContents(s[1..], x, key, descending);
      assert s == [s[0]] + s[1..];
    }
  }

  lemma {:induction false} InsertBySorted<V>(s: seq<V>, x: V, key: V -> string, descending: bool)
    requires SortedBy(s, key, descending)
    ensures SortedBy(InsertBy(s, x, key, descending), key, descending)
    decreases |s|
  {
    if |s| > 0 {
      if Precedes(key(x), key(s[0]), descending) {
        forall j | 0 <= j < |s|
          ensures Precedes(key(x), key(s[j]), descending)
        {
          if j > 0 {
            if descending {
              StrLeTransitive(key(s[j]), key(s[0]), key(x));
            } else {
              StrLeTransitive(key(x), key(s[0]), key(s[j]));
            }
          }
        }
      } else {
        StrLeTotal(key(x), key(s[0]));
        var r := InsertBy(s[1..], x, key, descending);
        InsertBySorted(s[1..], x, key, descending);
        InsertByContents(s[1..], x, key, descending);
        forall j | 0 <= j < |r|
          ensures Precedes(key(s[0]), key(r[j]), descending)
        {
          assert r[j] in multiset(r);
          if r[j] != x {
            assert r[j] in multiset(s[1..]);
            var i :| 0 <= i < |s[1..]| && s[1..][i] == r[j];
            assert s[i + 1] == r[j];
          }
        }
      }
    }
  }

  /** A `SELECT ... WHERE p` without `ORDER BY`: the matching rows, in iteration order. */
  method ListWhere<V(==)>(t: map<string, V>, p: V -> bool, id: V -> string) returns (rs: seq<V>)
    requires KeyedBy(t, id)
    ensures Lists(rs, Where(t, p), id)
  {
    rs := [];
    var rest := t;
    while rest != map[]
      invariant rest.Keys <= t.Keys && forall k | k in rest :: rest[k] == t[k]
      invariant forall i, j | 0 <= i < j < |rs| :: id(rs[i]) != id(rs[j])
      invariant forall i | 0 <= i < |rs| :: id(rs[i]) in t && id(rs[i]) !in rest && t[id(rs[i])] == rs[i] && p(rs[i])
      invariant forall k | k in t && k !in rest && p(t[k]) :: t[k] in rs
      decreases |rest|
    {
      var k :| k in rest;
      if p(rest[k]) {
        rs := rs + [rest[k]];
      }
      RemoveKeyCard(rest, k);
      rest := rest - {k};
    }
  }

  /** A `SELECT` of a whole table. */
  method ListAll<V(==)>(t: map<string, V>, id: V -> string) returns (rs: seq<V>)
    requires KeyedBy(t, id)
    ensures Lists(rs, t, id)
  {
    var all := (v: V) => true;
    rs := ListWhere(t, all, id);
    assert Where(t, all) == t;
  }

  /** `SELECT SUM(f) ... WHERE p`, with an empty sum read as 0 (`fetchone()[0] or 0`). */
  method SumWhere<V>(t: map<string, V>, p: V -> bool, f: V -> int) returns (s: int)
    ensures s == SumMap(Where(t, p), f)
  {
    s := 0;
    var rest := t;
    while rest != map[]
      invariant rest.Keys <= t.Keys && forall k | k in rest :: rest[k] == t[k]
      invariant s + SumMap(Where(rest, p), f) == SumMap(Where(t, p), f)
      decreases |rest|
    {
      var k :| k in rest;
      if p(rest[k]) {
        SumMapRemove(Where(rest, p), f, k);
        assert Where(rest, p) - {k} == Where(rest - {k}, p);
        s := s + f(rest[k]);
      } else {
        assert Where(rest, p) == Where(rest - {k}, p);
      }
      RemoveKeyCard(rest, k);
      rest := rest - {k};
    }
  }

  /** Inserting a matching row of `t` not yet listed keeps the loop invariants of `SelectOrdered`. */
  lemma InsertKeepsListing<V>(t: map<string, V>, p: V -> bool, id: V -> string, key: V -> string, descending: bool,
                                  rest: map<string, V>, rs: seq<V>, k: string)
    requires KeyedBy(t, id)
    requires k in rest && rest.Keys <= t.Keys && (forall k | k in rest :: rest[k] == t[k]) && p(rest[k])
    requires forall i | 0 <= i < |rs| :: id(rs[i]) in t && id(rs[i]) !in rest && t[id(rs[i])] == rs[i] && p(rs[i])
    requires forall k | k in t && k !in rest && p(t[k]) :: t[k] in rs
    requires forall y | y in multiset(rs) :: multiset(rs)[y] <= 1
    requires SortedBy(rs, key, descending)
    ensures var rs' := InsertBy(rs, rest[k], key, descending);
      && (forall i | 0 <= i < |rs'| :: id(rs'[i]) in t && id(rs'[i]) !in rest - {k} && t[id(rs'[i])] == rs'[i] && p(rs'[i]))
      && (forall k' | k' in t && k' !in rest - {k} && p(t[k']) :: t[k'] in rs')
      && (forall y | y in multiset(rs') :: multiset(rs')[y] <= 1)
      && SortedBy(rs', key, descending)
  {
    var x := rest[k];
    assert x !in rs by {
      forall i | 0 <= i < |rs| ensures rs[i] != x {
        assert id(rs[i]) != k;
      }
    }
    var rs' := InsertBy(rs, x, key, descending);
    InsertByContents(rs, x, key, descending);
    InsertBySorted(rs, x, key, descending);
    forall i | 0 <= i < |rs'|
      ensures id(rs'[i]) in t && id(rs'[i]) !in rest - {k} && t[id(rs'[i])] == rs'[i] && p(rs'[i])
    {
      assert rs'[i] in multiset(rs');
      if rs'[i] != x {
        assert rs'[i] in rs;
        var j :| 0 <= j < |rs| && rs[j] == rs'[i];
      }
    }
    forall k' | k' in t && k' !in rest - {k} && p(t[k'])
      ensures t[k'] in rs'
    {
      assert t[k'] in multiset(rs');
    }
  }

  /** A `SELECT ... WHERE p ORDER BY key`: the matching rows, each once, sorted. */
  method SelectOrdered<V(==)>(t: map<string, V>, p: V -> bool, id: V -> string, key: V -> string, descending: bool)
    returns (rs: seq<V>)
    requires KeyedBy(t, id)
    ensures Lists(rs, Where(t, p), id)
    ensures SortedBy(rs, key, descending)
  {
    rs := [];
    var rest := t;
    while rest != map[]
      invariant rest.Keys <= t.Keys && forall k | k in rest :: rest[k] == t[k]
      invariant forall i | 0 <= i < |rs| :: id(rs[i]) in t && id(rs[i]) !in rest && t[id(rs[i])] == rs[i] && p(rs[i])
      invariant forall k | k in t && k !in rest && p(t[k]) :: t[k] in rs
      invariant forall y | y in multiset(rs) :: multiset(rs)[y] <= 1
      invariant SortedBy(rs, key, descending)
      decreases |rest|
    {
      var k :| k in rest;
      if p(rest[k]) {
        InsertKeepsListing(t, p, id, key, descending, rest, rs, k);
        rs := InsertBy(rs, rest[k], key, descending);
      }
      RemoveKeyCard(rest, k);
      rest := rest - {k};
    }
    forall i, j | 0 <= i < j < |rs|
      ensures id(rs[i]) != id(rs[j])
    {
      DistinctPositions(rs, i, j);
    }
  }

  lemma MultisetTwoPositions<V>(s: seq<V>, i: int, j: int)
    requires 0 <= i < j < |s| && s[i] == s[j]
    ensures multiset(s)[s[i]] >= 2
  {
    assert s == s[..i] + [s[i]] + s[i + 1..j] + [s[j]] + s[j + 1..];
  }

  /** A sequence whose multiset holds every element at most once has no repeated element. */
  lemma DistinctPositions<V>(s: seq<V>, i: int, j: int)
    requires 0 <= i < j < |s|
    requires forall y | y in multiset(s) :: multiset(s)[y] <= 1
    ensures s[i] != s[j]
  {
    if s[i] == s[j] {
      MultisetTwoPositions(s, i, j);
      assert false;
    }
  }

  // ----- Stable sort (Python's list.sort) -----

  /** Places `x` after every element whose key is not greater, as a stable sort must. */
  function InsertStable<V>(sorted: seq<V>, x: V, key: V -> string): seq<V>
  {
    if |sorted| == 0 then [x]
    else if StrLt(key(x), key(sorted[0])) then [x] + sorted
    else [sorted[0]] + InsertStable(sorted[1..], x, key)
  }

  /** `list.sort(key=key)`: insertion sort, stable. */
  function SortStable<V>(s: seq<V>, key: V -> string): seq<V>
  {
    if |s| == 0 then [] else InsertStable(SortStable(s[..|s| - 1], key), s[|s| - 1], key)
  }

  /** A stable sort of two elements swaps them exactly when the second key is strictly smaller. */
  lemma SortStableTwo<V>(a: V, b: V, key: V -> string)
    ensures SortStable([a, b], key) == if StrLt(key(b), key(a)) then [b, a] else [a, b]
  {
    assert [a, b][..1] == [a] && [a, b][1] == b;
    assert SortStable([a], key) == [a] by {
      assert [a][..0] == [];
    }
    assert SortStable([a, b], key) == InsertStable([a], b, key);
    assert [a][1..] == [];
    if !StrLt(key(b), key(a)) {
      assert InsertStable([a], b, key) == [a] + InsertStable([], b, key);
    }
  }

  function Reverse<V>(s: seq<V>): (r: seq<V>)
    ensures |r| == |s|
  {
    if |s| == 0 then [] else [s[|s| - 1]] + Reverse(s[..|s| - 1])
  }

  lemma {:induction false} ReverseAt<V>(s: seq<V>, k: int)
    requires 0 <= k < |s|
    ensures Reverse(s)[k] == s[|s| - 1 - k]
    decreases |s|
  {
    if k > 0 {
      ReverseAt(s[..|s| - 1], k - 1);
    }
  }

  predicate StrictlyDecreasing<V>(s: seq<V>, key: V -> string)
  {
    forall i, j | 0 <= i < j < |s| :: StrLt(key(s[j]), key(s[i]))
  }

  predicate StrictlyIncreasing<V>(s: seq<V>, key: V -> string)
  {
    forall i, j | 0 <= i < j < |s| :: StrLt(key(s[i]), key(s[j]))
  }

  /** Reversing a list whose keys strictly decrease gives one whose keys strictly increase. */
  lemma ReverseOfDecreasing<V>(s: seq<V>, key: V -> string)
    requires StrictlyDecreasing(s, key)
    ensures StrictlyIncreasing(Reverse(s), key)
  {
    forall i, j | 0 <= i < j < |s|
      ensures StrLt(key(Reverse(s)[i]), key(Reverse(s)[j]))
    {
      ReverseAt(s, i);
      ReverseAt(s, j);
    }
  }

  /** Sorting a list whose keys strictly decrease reverses it. */
  lemma {:induction false} SortStableOfDecreasing<V>(s: seq<V>, key: V -> string)
    requires StrictlyDecreasing(s, key)
    ensures SortStable(s, key) == Reverse(s)
    decreases |s|
  {
    if |s| > 0 {
      var p := s[..|s| - 1];
      assert StrictlyDecreasing(p, key);
      SortStableOfDecreasing(p, key);
      if |p| > 0 {
        ReverseAt(p, 0);
        assert StrLt(key(s[|s| - 1]), key(s[|s| - 2]));
      }
    }
  }
}
