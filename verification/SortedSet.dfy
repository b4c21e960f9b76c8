/** A Redis sorted set: members with scores, ordered by score and then by member. */
module SortedSet {
  import opened Domain

  type ZSet = map<CustomerId, int>

  predicate Before(z: ZSet, a: CustomerId, b: CustomerId)
    requires a in z && b in z
  {
    z[a] < z[b] || (z[a] == z[b] && a < b)
  }

  function Ahead(z: ZSet, c: CustomerId): set<CustomerId>
    requires c in z
  {
    set x | x in z && Before(z, x, c)
  }

  /** ZRANK: the number of members with a smaller key. */
  function Rank(z: ZSet, c: CustomerId): nat
    requires c in z
  {
    |Ahead(z, c)|
  }

  predicate IsFirst(z: ZSet, m: CustomerId) {
    m in z && forall x | x in z :: x == m || Before(z, m, x)
  }

  lemma {:induction false} FirstExists(z: ZSet)
    requires z != map[]
    ensures exists m :: IsFirst(z, m)
    decreases |z|
  {
    var c :| c in z;
    var rest := z - {c};
    if rest == map[] {
      assert forall x | x in z :: x == c || x in rest;
      assert IsFirst(z, c);
    } else {
      FirstExists(rest);
      var m :| IsFirst(rest, m);
      assert forall x | x in z :: x == c || x in rest;
      assert IsFirst(z, if Before(z, c, m) then c else m);
    }
  }

  ghost function First(z: ZSet): (m: CustomerId)
    requires z != map[]
    ensures IsFirst(z, m)
  {
    FirstExists(z);
    var m :| IsFirst(z, m); m
  }

  /** ZPOPMIN with a count: up to n members, smallest key first. */
  ghost function Batch(z: ZSet, n: int): seq<CustomerId>
    decreases |z|
  {
    if n <= 0 || z == map[] then [] else [First(z)] + Batch(z - {First(z)}, n - 1)
  }

  function Members(s: seq<CustomerId>): set<CustomerId> {
    set x | x in s
  }

  /** Taking the first member away moves everybody else up by one. */
  lemma RankWithoutFirst(z: ZSet, c: CustomerId)
    requires z != map[] && c in z && c != First(z)
    ensures Rank(z - {First(z)}, c) == Rank(z, c) - 1
  {
    assert Ahead(z - {First(z)}, c) == Ahead(z, c) - {First(z)};
  }

  lemma FirstHasRankZero(z: ZSet)
    requires z != map[]
    ensures Rank(z, First(z)) == 0
  {
    assert Ahead(z, First(z)) == {};
  }

  /** What a batch is, without saying how it is popped: the members whose rank is below n. */
  lemma {:induction false} BatchIsRankBelow(z: ZSet, n: int, c: CustomerId)
    ensures c in Batch(z, n) <==> c in z && Rank(z, c) < n
    decreases |z|
  {
    if n > 0 && z != map[] {
      var m := First(z);
      BatchIsRankBelow(z - {m}, n - 1, c);
      FirstHasRankZero(z);
      if c in z && c != m { RankWithoutFirst(z, c); }
    }
  }

  lemma {:induction false} BatchSize(z: ZSet, n: int)
    ensures |Batch(z, n)| == if n <= 0 then 0 else if n <= |z| then n else |z|
    ensures |Members(Batch(z, n))| == |Batch(z, n)|
    decreases |z|
  {
    if n > 0 && z != map[] {
      var m := First(z);
      var b := Batch(z - {m}, n - 1);
      BatchSize(z - {m}, n - 1);
      BatchIsRankBelow(z - {m}, n - 1, m);
      assert Members([m] + b) == Members(b) + {m};
    }
  }

  /** Batches come out in key order. */
  lemma {:induction false} BatchInOrder(z: ZSet, n: int, i: nat, j: nat)
    requires i < j < |Batch(z, n)|
    ensures Batch(z, n)[i] in z && Batch(z, n)[j] in z && Before(z, Batch(z, n)[i], Batch(z, n)[j])
    decreases |z|
  {
    var m := First(z);
    if i > 0 {
      BatchInOrder(z - {m}, n - 1, i - 1, j - 1);
    } else {
      BatchIsRankBelow(z - {m}, n - 1, Batch(z - {m}, n - 1)[j - 1]);
    }
  }

  /** Rank and order say the same thing. */
  lemma RankOrder(z: ZSet, a: CustomerId, b: CustomerId)
    requires a in z && b in z && Before(z, a, b)
    ensures Rank(z, a) < Rank(z, b)
  {
    assert Ahead(z, a) + {a} <= Ahead(z, b);
    SubsetSize(Ahead(z, a) + {a}, Ahead(z, b));
  }

  lemma SubsetSize<T>(a: set<T>, b: set<T>)
    requires a <= b
    ensures |a| <= |b|
  {
    assert b == a + (b - a);
  }

  lemma RankBelowSize(z: ZSet, c: CustomerId)
    requires c in z
    ensures Rank(z, c) < |z|
  {
    assert Ahead(z, c) + {c} <= z.Keys;
    SubsetSize(Ahead(z, c) + {c}, z.Keys);
    assert |z.Keys| == |z|;
  }
}
