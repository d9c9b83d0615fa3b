/** Order-independent sums over maps, and the ascending listing of a finite set of
    naturals.  Go iterates over a map in an arbitrary order; these definitions give such
    loops one meaning whatever order they take. */
module Sums {

  ghost function Total<K>(m: map<K, nat>): nat
    decreases |m|
  {
    if m == map[] then 0
    else
      var k :| k in m;
      m[k] + Total(m - {k})
  }

  /** The sum does not depend on which entry is taken out first. */
  lemma {:induction false} TotalRemove<K>(m: map<K, nat>, k: K)
    requires k in m
    ensures Total(m) == m[k] + Total(m - {k})
    decreases |m|
  {
    var j :| j in m && Total(m) == m[j] + Total(m - {j});
    if j != k {
      TotalRemove(m - {j}, k);
      TotalRemove(m - {k}, j);
      assert m - {j} - {k} == m - {k} - {j};
    }
  }

  lemma TotalInsert<K>(m: map<K, nat>, k: K, v: nat)
    requires k !in m
    ensures Total(m[k := v]) == v + Total(m)
  {
    assert m[k := v] - {k} == m;
    TotalRemove(m[k := v], k);
  }

  /** Splitting a map in two parts splits its sum. */
  lemma {:induction false} TotalSplit<K>(m: map<K, nat>, part: set<K>)
    requires part <= m.Keys
    ensures Total(m) == Total(m - part) + Total(m - (m.Keys - part))
    decreases |part|
  {
    if part == {} {
      assert m - part == m;
      assert m - (m.Keys - part) == map[];
    } else {
      var k :| k in part;
      var rest := m - {k};
      TotalRemove(m, k);
      TotalSplit(rest, part - {k});
      assert rest - (part - {k}) == m - part;
      var inside := m - (m.Keys - part);
      TotalRemove(inside, k);
      assert inside - {k} == rest - (rest.Keys - (part - {k}));
    }
  }

  lemma SubsetSize<T>(a: set<T>, b: set<T>)
    requires a <= b
    ensures |a| <= |b| && (|a| == |b| ==> a == b)
  {
    assert b == a + (b - a);
  }

  ghost predicate IsLeast(k: nat, s: set<nat>) {
    k in s && forall q :: q in s ==> k <= q
  }

  lemma {:induction false} LeastExists(s: set<nat>)
    requires s != {}
    ensures exists k :: IsLeast(k, s)
    decreases |s|
  {
    var k :| k in s;
    if s == {k} {
      assert IsLeast(k, s);
    } else {
      LeastExists(s - {k});
      var j :| IsLeast(j, s - {k});
      assert forall q :: q in s ==> q == k || q in s - {k};
      assert IsLeast(if j < k then j else k, s);
    }
  }

  ghost predicate Ascending(s: seq<nat>) {
    forall i, j :: 0 <= i < j < |s| ==> s[i] < s[j]
  }

  /** `s` lists the members of `keys`, each once, in ascending order. */
  ghost predicate ListsAscending(s: seq<nat>, keys: set<nat>) {
    Ascending(s) && forall q :: q in s <==> q in keys
  }

  lemma {:induction false} ListingLength(s: seq<nat>, keys: set<nat>)
    requires ListsAscending(s, keys)
    ensures |s| == |keys|
    decreases |s|
  {
    if s == [] {
      assert keys == {};
    } else {
      assert s[0] in s;
      assert forall q :: q in s <==> q == s[0] || q in s[1..];
      ListingLength(s[1..], keys - {s[0]});
    }
  }

  /** There is only one ascending listing, so sorting has one result. */
  lemma {:induction false} ListingUnique(a: seq<nat>, b: seq<nat>, keys: set<nat>)
    requires ListsAscending(a, keys) && ListsAscending(b, keys)
    ensures a == b
    decreases |a|
  {
    if a == [] {
      assert forall i :: 0 <= i < |b| ==> b[i] in b;
    } else {
      assert a[0] in a && a[0] in b;
      assert b[0] in b && b[0] in a;
      assert a[0] == b[0];
      assert forall q :: q in a <==> q == a[0] || q in a[1..];
      assert forall q :: q in b <==> q == b[0] || q in b[1..];
      ListingUnique(a[1..], b[1..], keys - {a[0]});
      assert a == [a[0]] + a[1..] && b == [b[0]] + b[1..];
    }
  }

  lemma ListsCons(k: nat, rest: seq<nat>, keys: set<nat>)
    requires IsLeast(k, keys) && ListsAscending(rest, keys - {k})
    ensures ListsAscending([k] + rest, keys)
  {
    var s := [k] + rest;
    forall i, j | 0 <= i < j < |s| ensures s[i] < s[j] {
      assert s[j] == rest[j - 1] && rest[j - 1] in keys - {k};
    }
    forall q ensures q in s <==> q in keys {
      assert q in s <==> q == k || q in rest;
    }
  }

  lemma ListsSnoc(rest: seq<nat>, k: nat, keys: set<nat>)
    requires ListsAscending(rest, keys) && forall q :: q in keys ==> q < k
    ensures ListsAscending(rest + [k], keys + {k})
  {
    var s := rest + [k];
    forall i, j | 0 <= i < j < |s| ensures s[i] < s[j] {
      assert s[i] == rest[i] && rest[i] in keys;
    }
  }

  /** The members of a set in ascending order. */
  ghost function Listing(keys: set<nat>): (s: seq<nat>)
    ensures ListsAscending(s, keys)
    decreases |keys|
  {
    if keys == {} then []
    else
      LeastExists(keys);
      var k :| IsLeast(k, keys);
      ListsCons(k, Listing(keys - {k}), keys);
      [k] + Listing(keys - {k})
  }

  /** Collects a set of naturals and sorts it, as `slices.Sort` over collected map keys. */
  method SortKeys(keys: set<nat>) returns (s: seq<nat>)
    ensures s == Listing(keys)
  {
    hide ListsAscending, Listing;
    s := [];
    ghost var done: set<nat> := {};
    var todo := keys;
    EmptyListing();
    while todo != {}
      invariant done + todo == keys
      invariant ListsAscending(s, done)
      invariant forall x, y :: x in done && y in todo ==> x < y
      decreases |todo|
    {
      var q := Least(todo);
      ListsSnoc(s, q, done);
      todo := todo - {q};
      s, done := s + [q], done + {q};
    }
    assert done == keys;
    ListingUnique(s, Listing(keys), keys);
  }

  lemma EmptyListing()
    ensures ListsAscending([], {})
  {}

  method Least(keys: set<nat>) returns (q: nat)
    requires keys != {}
    ensures IsLeast(q, keys)
  {
    q :| q in keys;
    var todo := keys - {q};
    while todo != {}
      invariant todo <= keys && q in keys
      invariant forall x :: x in keys ==> x in todo || q <= x
      decreases |todo|
    {
      var x :| x in todo;
      todo := todo - {x};
      if x < q {
        q := x;
      }
    }
  }
}
