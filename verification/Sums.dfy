/** Sums of the values of a finite map and of a sequence, and how one update moves them. */
module Sums {

  ghost function Sum<K>(m: map<K, real>): real
    decreases |m|
  {
    if m == map[] then 0.0
    else
      var k :| k in m;
      m[k] + Sum(m - {k})
  }

  lemma SumSplit<K>(m: map<K, real>) returns (k: K)
    requires m != map[]
    ensures k in m && Sum(m) == m[k] + Sum(m - {k})
  {
    k :| k in m && Sum(m) == m[k] + Sum(m - {k});
  }

  /** Any key may be taken out first. */
  lemma {:induction false} SumRemove<K>(m: map<K, real>, k: K)
    requires k in m
    ensures Sum(m) == m[k] + Sum(m - {k})
    decreases |m|
  {
    var k0 := SumSplit(m);
    if k0 != k {
      SumRemove(m - {k0}, k);
      SumRemove(m - {k}, k0);
      assert m - {k0} - {k} == m - {k} - {k0};
    }
  }

  lemma SumUpdate<K>(m: map<K, real>, k: K, v: real)
    ensures Sum(m[k := v]) == Sum(m) - (if k in m then m[k] else 0.0) + v
  {
    var m' := m[k := v];
    SumRemove(m', k);
    if k in m {
      SumRemove(m, k);
      assert m' - {k} == m - {k};
    } else {
      assert m' - {k} == m;
    }
  }

  lemma {:induction false} SumNonNegative<K>(m: map<K, real>)
    requires forall k <- m :: m[k] >= 0.0
    ensures Sum(m) >= 0.0
    decreases |m|
  {
    if m != map[] {
      var k := SumSplit(m);
      SumNonNegative(m - {k});
    }
  }

  /** One value is a lower bound of the sum when none is negative. */
  lemma SumAtLeast<K>(m: map<K, real>, k: K)
    requires k in m
    requires forall j <- m :: m[j] >= 0.0
    ensures Sum(m) >= m[k]
  {
    SumRemove(m, k);
    SumNonNegative(m - {k});
  }

  lemma {:induction false} SumZero<K>(m: map<K, real>)
    requires forall k <- m :: m[k] == 0.0
    ensures Sum(m) == 0.0
    decreases |m|
  {
    if m != map[] {
      var k := SumSplit(m);
      SumZero(m - {k});
    }
  }

  /** Keys without weight may be left out. */
  lemma {:induction false} SumOfPart<K>(m: map<K, real>, keys: set<K>)
    requires forall k <- m | k !in keys :: m[k] == 0.0
    ensures Sum(m) == Sum(map k | k in m && k in keys :: m[k])
    decreases |m|
  {
    var part := map k | k in m && k in keys :: m[k];
    if k :| k in m && k !in keys {
      SumRemove(m, k);
      SumOfPart(m - {k}, keys);
      assert (map j | j in m - {k} && j in keys :: (m - {k})[j]) == part;
    } else {
      assert part == m;
    }
  }

  function SumSeq(s: seq<real>): real
  {
    if s == [] then 0.0 else s[0] + SumSeq(s[1..])
  }

  /** A duplicate-free listing of every key that carries weight adds up to the map's sum. */
  lemma {:induction false} SumOfListing<K>(m: map<K, real>, ks: seq<K>)
    requires forall i, j | 0 <= i < j < |ks| :: ks[i] != ks[j]
    requires forall k <- ks :: k in m
    requires forall k <- m | k !in ks :: m[k] == 0.0
    ensures Sum(m) == SumSeq(seq(|ks|, i requires 0 <= i < |ks| => m[ks[i]]))
    decreases |ks|
  {
    var listed := seq(|ks|, i requires 0 <= i < |ks| => m[ks[i]]);
    if ks == [] {
      SumZero(m);
    } else {
      var rest := m - {ks[0]};
      SumRemove(m, ks[0]);
      forall k <- ks[1..] ensures k in rest {
        var i :| 0 <= i < |ks[1..]| && ks[1..][i] == k;
        assert ks[0] != ks[i + 1];
      }
      SumOfListing(rest, ks[1..]);
      assert listed[1..] == seq(|ks[1..]|, i requires 0 <= i < |ks[1..]| => rest[ks[1..][i]]);
    }
  }
}
