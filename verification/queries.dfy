/** SELECT ... ORDER BY ... LIMIT over a table held as a map. */
module Queries {

  /** The sort key of a row: the column of the ORDER BY, then what breaks ties. */
  datatype Rank = Rank(major: int, minor: int)
  {
    predicate Before(other: Rank) {
      major < other.major || (major == other.major && minor <= other.minor)
    }
  }

  function By(column: int): Rank {
    Rank(column, 0)
  }

  predicate Distinct<K(==)>(keys: seq<K>) {
    forall i, j :: 0 <= i < j < |keys| ==> keys[i] != keys[j]
  }

  predicate InOrder<K>(rank: map<K, Rank>, keys: seq<K>)
    requires forall k <- keys :: k in rank
  {
    forall i, j :: 0 <= i < j < |keys| ==> rank[keys[i]].Before(rank[keys[j]])
  }

  /** The `limit` rows of `rank` that sort first, in order. */
  ghost predicate FirstByRank<K(!new)>(rank: map<K, Rank>, limit: nat, keys: seq<K>) {
    && Distinct(keys) && (forall k <- keys :: k in rank) && InOrder(rank, keys)
    && (forall k, i :: k in rank && k !in keys && 0 <= i < |keys| ==> rank[keys[i]].Before(rank[k]))
    && |keys| <= limit && (|keys| < limit ==> forall k :: k in rank ==> k in keys)
  }

  /** All rows of `rank`, in order. */
  ghost predicate AllByRank<K(!new)>(rank: map<K, Rank>, keys: seq<K>) {
    Distinct(keys) && (forall k :: k in rank <==> k in keys) && InOrder(rank, keys)
  }

  lemma AnyOf<K>(pool: set<K>) returns (k: K)
    requires pool != {}
    ensures k in pool
  {
    k :| k in pool;
  }

  lemma {:induction false} SomeKeyIsFirst<K>(rank: map<K, Rank>, pool: set<K>)
    requires pool != {} && pool <= rank.Keys
    ensures exists k :: k in pool && forall m :: m in pool ==> rank[k].Before(rank[m])
  {
    var k :| k in pool;
    if pool != {k} {
      SomeKeyIsFirst(rank, pool - {k});
      var n :| n in pool - {k} && forall m :: m in pool - {k} ==> rank[n].Before(rank[m]);
      assert forall m :: m in pool ==> m == k || m in pool - {k};
      var least := if rank[k].Before(rank[n]) then k else n;
      assert least in pool && forall m :: m in pool ==> rank[least].Before(rank[m]);
    }
  }

  method OrderAndLimit<K(==, !new)>(rank: map<K, Rank>, limit: nat) returns (keys: seq<K>)
    ensures FirstByRank(rank, limit, keys)
  {
    keys := [];
    var pool := rank.Keys;
    while pool != {} && |keys| < limit
      invariant pool <= rank.Keys && |keys| <= limit && Distinct(keys)
      invariant forall k :: k in rank <==> k in pool || k in keys
      invariant forall k <- keys :: k !in pool
      invariant InOrder(rank, keys)
      invariant forall k, i :: k in pool && 0 <= i < |keys| ==> rank[keys[i]].Before(rank[k])
      decreases |pool|
    {
      SomeKeyIsFirst(rank, pool);
      var k :| k in pool && forall m :: m in pool ==> rank[k].Before(rank[m]);
      keys := keys + [k];
      pool := pool - {k};
    }
  }

  lemma {:induction false} KeysAreFew<K>(pool: set<K>, keys: seq<K>)
    requires Distinct(keys) && forall k <- keys :: k in pool
    ensures |keys| <= |pool|
  {
    if keys != [] {
      var last := keys[|keys| - 1];
      assert last in keys && forall k <- keys[..|keys| - 1] :: k in keys && k != last;
      KeysAreFew(pool - {last}, keys[..|keys| - 1]);
    }
  }

  /** Without a LIMIT. */
  method Order<K(==, !new)>(rank: map<K, Rank>) returns (keys: seq<K>)
    ensures AllByRank(rank, keys)
  {
    keys := OrderAndLimit(rank, |rank| + 1);
    KeysAreFew(rank.Keys, keys);
  }

  /** When no two rows tie, there is only one order. */
  lemma {:induction false} OrderIsUnique<K>(rank: map<K, Rank>, a: seq<K>, b: seq<K>)
    requires Distinct(a) && Distinct(b) && (forall k :: k in a <==> k in b) && (forall k <- a :: k in rank)
    requires InOrder(rank, a) && InOrder(rank, b)
    requires forall i, j :: i in a && j in a && rank[i] == rank[j] ==> i == j
    ensures a == b
  {
    if a != [] {
      assert a[0] in b;
    }
    if b != [] {
      assert b[0] in a;
    }
    if a != [] && b != [] {
      var i :| 0 <= i < |b| && b[i] == a[0];
      var j :| 0 <= j < |a| && a[j] == b[0];
      assert rank[a[0]] == rank[b[0]];
      SameTails(a, b);
      OrderIsUnique(rank, a[1..], b[1..]);
    }
  }

  lemma {:induction false} DistinctByCount<K>(s: seq<K>)
    ensures Distinct(s) <==> forall x :: multiset(s)[x] <= 1
  {
    if s != [] {
      var n := |s| - 1;
      assert s == s[..n] + [s[n]];
      DistinctByCount(s[..n]);
      assert multiset(s) == multiset(s[..n]) + multiset{s[n]};
      if Distinct(s) {
        assert forall k :: 0 <= k < n ==> s[..n][k] == s[k] && s[k] != s[n];
        assert s[n] !in s[..n] && multiset(s[..n])[s[n]] == 0;
      }
      if forall x :: multiset(s)[x] <= 1 {
        assert forall x :: multiset(s[..n])[x] <= multiset(s)[x];
        assert multiset(s[..n])[s[n]] == multiset(s)[s[n]] - 1;
        assert s[n] !in multiset(s[..n]) && forall k :: 0 <= k < n ==> s[k] in s[..n];
      }
    }
  }

  lemma SamePermuted<K>(a: seq<K>, b: seq<K>)
    requires multiset(a) == multiset(b)
    ensures Distinct(a) <==> Distinct(b)
  {
    DistinctByCount(a);
    DistinctByCount(b);
  }

  lemma DistinctTogether<K>(a: seq<K>, b: seq<K>)
    requires Distinct(a) && Distinct(b) && forall k <- a :: k !in b
    ensures Distinct(a + b)
  {
    forall i, j | 0 <= i < j < |a + b|
      ensures (a + b)[i] != (a + b)[j]
    {
      assert i < |a| ==> (a + b)[i] in a;
      assert j >= |a| ==> (a + b)[j] in b;
    }
  }

  lemma SameTails<K>(a: seq<K>, b: seq<K>)
    requires Distinct(a) && Distinct(b) && (forall k :: k in a <==> k in b) && |a| > 0 && |b| > 0 && a[0] == b[0]
    ensures forall k :: k in a[1..] <==> k in b[1..]
  {
    forall k
      ensures k in a[1..] <==> k in b[1..]
    {
      assert k in a[1..] <==> k in a && k != a[0] by { assert a == [a[0]] + a[1..]; }
      assert k in b[1..] <==> k in b && k != b[0] by { assert b == [b[0]] + b[1..]; }
    }
  }
}
