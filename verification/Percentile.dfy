/** The nearest-rank 95th percentile of a batch of latencies. */
module Percentile {
  import opened Text
  import opened Collections

  function Insert(v: real, s: seq<real>): seq<real> {
    if s == [] || v <= s[0] then [v] + s else [s[0]] + Insert(v, s[1..])
  }

  function Sort(s: seq<real>): seq<real> {
    if s == [] then [] else Insert(s[0], Sort(s[1..]))
  }

  predicate Ordered(s: seq<real>) {
    forall i, j :: 0 <= i < j < |s| ==> s[i] <= s[j]
  }

  /** How many samples are at or below `x`. */
  function AtMost(s: seq<real>, x: real): nat {
    if s == [] then 0 else (if s[0] <= x then 1 else 0) + AtMost(s[1..], x)
  }

  lemma {:induction false} InsertIsFaithful(v: real, s: seq<real>, x: real)
    requires Ordered(s)
    ensures Ordered(Insert(v, s)) && |Insert(v, s)| == |s| + 1
    ensures forall y :: y in Insert(v, s) <==> y == v || y in s
    ensures AtMost(Insert(v, s), x) == AtMost([v], x) + AtMost(s, x)
  {
    var r := Insert(v, s);
    if s == [] || v <= s[0] {
      assert r[1..] == s;
    } else {
      InsertIsFaithful(v, s[1..], x);
      assert r[1..] == Insert(v, s[1..]);
      assert s == [s[0]] + s[1..];
      forall j | 0 < j < |r| ensures r[0] <= r[j] {
        assert r[j] in Insert(v, s[1..]);
      }
    }
    assert [v][1..] == [];
  }

  lemma {:induction false} SortIsFaithful(s: seq<real>, x: real)
    ensures Ordered(Sort(s)) && |Sort(s)| == |s|
    ensures forall y :: y in Sort(s) <==> y in s
    ensures AtMost(Sort(s), x) == AtMost(s, x)
  {
    if s != [] {
      SortIsFaithful(s[1..], x);
      InsertIsFaithful(s[0], Sort(s[1..]), x);
      assert s == [s[0]] + s[1..];
      assert [s[0]][1..] == [];
    }
  }

  /** In ascending order, what is at or below `x` is a prefix. */
  lemma {:induction false} AtMostIsPrefix(s: seq<real>, x: real, k: nat)
    requires Ordered(s) && k <= |s|
    ensures (forall i :: 0 <= i < k ==> s[i] <= x) ==> AtMost(s, x) >= k
    ensures (forall i :: k <= i < |s| ==> x < s[i]) ==> AtMost(s, x) <= k
  {
    if s != [] && k > 0 {
      AtMostIsPrefix(s[1..], x, k - 1);
      assert forall i :: 0 <= i < |s| - 1 ==> s[1..][i] == s[i + 1];
    } else if s != [] {
      AtMostIsPrefix(s[1..], x, 0);
      assert forall i :: 0 <= i < |s| - 1 ==> s[1..][i] == s[i + 1];
    }
  }

  function Rank(n: nat): int {
    (95 * n + 99) / 100 - 1
  }

  /** Enough samples lie at or below `x`. */
  predicate Covers(s: seq<real>, x: real) {
    100 * AtMost(s, x) >= 95 * |s|
  }

  lemma RankBounds(n: nat)
    requires n > 0
    ensures 0 <= Rank(n) < n && 100 * (Rank(n) + 1) >= 95 * n > 100 * Rank(n)
  {
  }

  /** The element at the rank covers 95 percent of the samples, and no smaller value does. */
  lemma RankIsLeastCovering(s: seq<real>)
    requires s != []
    ensures |Sort(s)| == |s| && 0 <= Rank(|s|) < |s|
    ensures var v := Sort(s)[Rank(|s|)];
            v in s && Covers(s, v) && forall x :: x < v ==> !Covers(s, x)
  {
    var sorted := Sort(s);
    RankBounds(|s|);
    SortIsFaithful(s, 0.0);
    var k: nat := Rank(|s|);
    var v := sorted[k];
    assert v in sorted;
    RankCovers(s, k);
    forall x | x < v ensures !Covers(s, x) {
      SmallerDoesNotCover(s, k, x);
    }
  }

  lemma RankCovers(s: seq<real>, k: nat)
    requires k < |s| == |Sort(s)| && 100 * (k + 1) >= 95 * |s|
    ensures Covers(s, Sort(s)[k])
  {
    SortIsFaithful(s, Sort(s)[k]);
    AtMostIsPrefix(Sort(s), Sort(s)[k], k + 1);
  }

  lemma SmallerDoesNotCover(s: seq<real>, k: nat, x: real)
    requires k < |s| == |Sort(s)| && 100 * k < 95 * |s| && x < Sort(s)[k]
    ensures !Covers(s, x)
  {
    SortIsFaithful(s, x);
    AtMostIsPrefix(Sort(s), x, k);
  }

  /** nearestRankP95: nothing for no samples, else the least value that 95 percent of them do not exceed. */
  method NearestRankP95(values: seq<real>) returns (r: Option<real>)
    ensures r.None? <==> values == []
    ensures r.Some? ==> r.value in values && Covers(values, r.value) && forall x :: x < r.value ==> !Covers(values, x)
    ensures r == P95(values)
  {
    if |values| == 0 {
      return None;
    }
    var sorted := Sort(values);
    RankIsLeastCovering(values);
    var index := (95 * |sorted| + 99) / 100 - 1;
    r := Some(sorted[index]);
  }

  function P95(values: seq<real>): Option<real> {
    if values == [] then None
    else
      RankIsLeastCovering(values);
      Some(Sort(values)[Rank(|values|)])
  }

  lemma {:induction false} AtMostSplits(a: seq<real>, b: seq<real>, x: real)
    ensures AtMost(a + b, x) == AtMost(a, x) + AtMost(b, x)
  {
    if a == [] {
      assert a + b == b;
    } else {
      AtMostSplits(a[1..], b, x);
      assert (a + b)[1..] == a[1..] + b;
    }
  }

  lemma AtMostWithout(b: seq<real>, i: nat, x: real)
    requires i < |b|
    ensures AtMost(b, x) == AtMost(Without(b, i), x) + AtMost([b[i]], x)
  {
    assert b == b[..i] + [b[i]] + b[i + 1..];
    AtMostSplits(b[..i], [b[i]], x);
    AtMostSplits(b[..i] + [b[i]], b[i + 1..], x);
    AtMostSplits(b[..i], b[i + 1..], x);
  }

  lemma MultisetWithout(b: seq<real>, i: nat)
    requires i < |b|
    ensures multiset(Without(b, i)) == multiset(b) - multiset{b[i]}
  {
    assert b == b[..i] + [b[i]] + b[i + 1..];
  }

  /** Dropping one sample, and the same one wherever else it stands, leaves the same samples. */
  lemma DropSame(a: seq<real>, b: seq<real>) returns (i: nat)
    requires a != [] && multiset(a) == multiset(b)
    ensures i < |b| && b[i] == a[0] && multiset(a[1..]) == multiset(Without(b, i))
  {
    assert a[0] in multiset(b);
    i :| i < |b| && b[i] == a[0];
    MultisetWithout(b, i);
    assert a == [a[0]] + a[1..];
    assert multiset(a) == multiset{a[0]} + multiset(a[1..]);
    assert multiset(a[1..]) == multiset(a) - multiset{a[0]};
  }

  lemma {:induction false} AtMostIgnoresOrder(a: seq<real>, b: seq<real>, x: real)
    requires multiset(a) == multiset(b)
    ensures AtMost(a, x) == AtMost(b, x) && |a| == |b|
    decreases |a|
  {
    if a == [] {
      assert |multiset(a)| == |a| && |multiset(b)| == |b|;
    } else {
      var i := DropSame(a, b);
      AtMostIgnoresOrder(a[1..], Without(b, i), x);
      AtMostWithout(b, i, x);
      assert [b[i]][1..] == [];
    }
  }

  /** The percentile does not depend on the order the samples arrived in. */
  lemma P95IgnoresOrder(a: seq<real>, b: seq<real>)
    requires multiset(a) == multiset(b)
    ensures P95(a) == P95(b)
  {
    AtMostIgnoresOrder(a, b, 0.0);
    if a != [] {
      RankIsLeastCovering(a);
      RankIsLeastCovering(b);
      var p, q := P95(a).value, P95(b).value;
      AtMostIgnoresOrder(a, b, p);
      AtMostIgnoresOrder(a, b, q);
      assert Covers(b, p) && Covers(a, q);
    }
  }
}
