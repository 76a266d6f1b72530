/**
 Python's `sorted(items, key=..., reverse=True)`: descending, with equal keys left in their
 original order. The result is given as the list of original positions, which is determined
 by the keys alone. Also `list[:k]`, where a negative k counts from the end.
 */
module StableSort {

  /** Item i goes before item j. */
  predicate Before(keys: seq<real>, i: nat, j: nat)
    requires i < |keys| && j < |keys|
  {
    keys[i] > keys[j] || (keys[i] == keys[j] && i < j)
  }

  predicate Positions(p: seq<nat>, n: nat) {
    forall a :: 0 <= a < |p| ==> p[a] < n
  }

  ghost predicate Distinct(p: seq<nat>) {
    forall a, b :: 0 <= a < b < |p| ==> p[a] != p[b]
  }

  /** p lists the items of `keys` in stable descending order. */
  ghost predicate Ranking(keys: seq<real>, p: seq<nat>) {
    && |p| == |keys| && Positions(p, |keys|)
    && forall a, b :: 0 <= a < b < |p| ==> Before(keys, p[a], p[b])
  }

  lemma RankingDistinct(keys: seq<real>, p: seq<nat>)
    requires Ranking(keys, p)
    ensures Distinct(p)
  {
    forall a, b | 0 <= a < b < |p| ensures p[a] != p[b] {
      assert Before(keys, p[a], p[b]);
    }
  }

  function Order(keys: seq<real>): (p: seq<nat>)
    ensures Ranking(keys, p)
  {
    if keys == [] then []
    else
      var n := |keys| - 1;
      var p := Order(keys[..n]);
      Widen(keys, p);
      Insert(keys, p, |p|)
  }

  /** The items before the last are ranked; the last one goes in after everything not smaller than it. */
  ghost predicate RanksFront(keys: seq<real>, p: seq<nat>) {
    && |keys| > 0 && |p| == |keys| - 1 && Positions(p, |keys| - 1)
    && forall a, b :: 0 <= a < b < |p| ==> Before(keys, p[a], p[b])
  }

  lemma Widen(keys: seq<real>, p: seq<nat>)
    requires |keys| > 0 && Ranking(keys[..|keys| - 1], p)
    ensures RanksFront(keys, p)
  {
    forall a, b | 0 <= a < b < |p| ensures Before(keys, p[a], p[b]) {
      assert Before(keys[..|keys| - 1], p[a], p[b]);
    }
  }

  function Insert(keys: seq<real>, p: seq<nat>, at: nat): (q: seq<nat>)
    requires RanksFront(keys, p) && at <= |p|
    requires forall a :: at <= a < |p| ==> keys[p[a]] < keys[|keys| - 1]
    ensures Ranking(keys, q)
    decreases at
  {
    var n := |keys| - 1;
    if at > 0 && keys[p[at - 1]] < keys[n] then Insert(keys, p, at - 1)
    else
      InsertedRanks(keys, p, at);
      p[..at] + [n] + p[at..]
  }

  lemma InsertedRanks(keys: seq<real>, p: seq<nat>, at: nat)
    requires RanksFront(keys, p) && at <= |p|
    requires forall a :: at <= a < |p| ==> keys[p[a]] < keys[|keys| - 1]
    requires at > 0 ==> keys[p[at - 1]] >= keys[|keys| - 1]
    ensures Ranking(keys, p[..at] + [|keys| - 1] + p[at..])
  {
    var q := p[..at] + [|keys| - 1] + p[at..];
    forall a, b | 0 <= a < b < |q| ensures Before(keys, q[a], q[b]) {
      if a < at && b == at && a < at - 1 {
        assert Before(keys, p[a], p[at - 1]);
      } else if a != at && b != at {
        var a', b' := if a < at then a else a - 1, if b < at then b else b - 1;
        assert q[a] == p[a'] && q[b] == p[b'];
        assert Before(keys, p[a'], p[b']);
      }
    }
  }

  // ----- Distinct positions fill up a range -----

  function Elements(p: seq<nat>): (s: set<nat>)
    ensures forall x :: x in s <==> x in p
  {
    if p == [] then {} else Elements(p[..|p| - 1]) + {p[|p| - 1]}
  }

  lemma {:induction false} ElementsCount(p: seq<nat>)
    requires Distinct(p)
    ensures |Elements(p)| == |p|
  {
    if p != [] {
      var init := p[..|p| - 1];
      ElementsCount(init);
      assert p[|p| - 1] !in init;
    }
  }

  lemma {:induction false} SubsetSize<T>(a: set<T>, b: set<T>)
    requires a <= b
    ensures |a| <= |b|
    decreases a
  {
    if a != {} {
      var x :| x in a;
      SubsetSize(a - {x}, b - {x});
    }
  }

  lemma {:induction false} BoundedCount(s: set<nat>, n: nat)
    requires forall x :: x in s ==> x < n
    ensures |s| <= n
    ensures |s| == n ==> forall x: nat :: x < n ==> x in s
    decreases n
  {
    if n == 0 {
      assert s == {};
    } else {
      BoundedCount(s - {n - 1}, n - 1);
      assert n - 1 !in s ==> s - {n - 1} == s;
      if |s| == n {
        forall x: nat | x < n ensures x in s {
          assert x < n - 1 ==> x in s - {n - 1};
        }
      }
    }
  }

  /** n distinct positions below n leave none out. */
  lemma Hits(p: seq<nat>, n: nat, i: nat)
    requires Distinct(p) && Positions(p, n) && |p| == n && i < n
    ensures i in p
  {
    ElementsCount(p);
    BoundedCount(Elements(p), n);
  }

  /** The keys determine the ranking. */
  lemma RankingUnique(keys: seq<real>, p: seq<nat>, q: seq<nat>)
    requires Ranking(keys, p) && Ranking(keys, q)
    ensures p == q
  {
    RankingDistinct(keys, p);
    RankingDistinct(keys, q);
    AgreeUpTo(keys, p, q, |keys|);
  }

  lemma {:induction false} AgreeUpTo(keys: seq<real>, p: seq<nat>, q: seq<nat>, n: nat)
    requires Ranking(keys, p) && Ranking(keys, q) && Distinct(p) && Distinct(q) && n <= |keys|
    ensures forall a :: 0 <= a < n ==> p[a] == q[a]
  {
    if n > 0 {
      AgreeUpTo(keys, p, q, n - 1);
      LeadsRest(keys, p, q, n - 1);
      LeadsRest(keys, q, p, n - 1);
    }
  }

  /** Where two rankings first could differ, each one's item is not after the other's. */
  lemma LeadsRest(keys: seq<real>, p: seq<nat>, q: seq<nat>, a: nat)
    requires Ranking(keys, p) && Ranking(keys, q) && Distinct(p) && Distinct(q) && a < |keys|
    requires forall c :: 0 <= c < a ==> p[c] == q[c]
    ensures p[a] == q[a] || Before(keys, q[a], p[a])
  {
    Hits(q, |keys|, p[a]);
    var b :| 0 <= b < |q| && q[b] == p[a];
    if b > a {
      assert Before(keys, q[a], q[b]);
    }
  }

  // ----- list[:k] -----

  function SliceLength(n: nat, k: int): (m: nat)
    ensures m <= n
  {
    if k >= n then n else if k >= 0 then k else if n + k >= 0 then n + k else 0
  }

  function Take<T>(s: seq<T>, k: int): seq<T> {
    s[..SliceLength(|s|, k)]
  }

  /** The first k, or all but the last -k if k is negative; no more than there are, and no fewer than none. */
  lemma TakeIsFront<T>(s: seq<T>, k: int)
    ensures Take(s, k) <= s
    ensures k >= 0 ==> |Take(s, k)| == if k < |s| then k else |s|
    ensures k < 0 ==> |Take(s, k)| == if -k < |s| then |s| - -k else 0
  {
  }

  // ----- Sums of positions -----

  function Sum(p: seq<nat>): nat {
    if p == [] then 0 else Sum(p[..|p| - 1]) + p[|p| - 1]
  }

  lemma {:induction false} SumWithout(p: seq<nat>, i: nat)
    requires i < |p|
    ensures Sum(p) == Sum(p[..i] + p[i + 1..]) + p[i]
  {
    var n := |p| - 1;
    if i < n {
      SumWithout(p[..n], i);
      assert p[..n][..i] + p[..n][i + 1..] == (p[..i] + p[i + 1..])[..n - 1];
    } else {
      assert p[..i] + p[i + 1..] == p[..n];
    }
  }

  /** 0 + 1 + ... + (k - 1) */
  function Triangle(k: nat): nat {
    if k == 0 then 0 else Triangle(k - 1) + (k - 1)
  }

  function Largest(p: seq<nat>): (i: nat)
    requires p != []
    ensures i < |p| && forall a :: 0 <= a < |p| ==> p[a] <= p[i]
  {
    if |p| == 1 then 0
    else
      var i := Largest(p[..|p| - 1]);
      if p[|p| - 1] > p[i] then |p| - 1
      else
        assert forall a :: 0 <= a < |p| - 1 ==> p[a] == p[..|p| - 1][a];
        i
  }

  lemma LargestAtLeast(p: seq<nat>)
    requires p != [] && Distinct(p)
    ensures p[Largest(p)] >= |p| - 1
  {
    var top := p[Largest(p)];
    ElementsCount(p);
    BoundedCount(Elements(p), top + 1);
  }

  /** k distinct positions add up to at least 0 + ... + (k - 1), and to exactly that just when they are the first k. */
  lemma {:induction false} LeastSum(p: seq<nat>)
    requires Distinct(p)
    ensures Sum(p) >= Triangle(|p|)
    ensures Sum(p) == Triangle(|p|) <==> Positions(p, |p|)
    decreases |p|
  {
    if p != [] {
      var i := Largest(p);
      LargestAtLeast(p);
      SumWithout(p, i);
      var rest := p[..i] + p[i + 1..];
      WithoutOne(p, i);
      LeastSum(rest);
      assert Positions(p, |p|) ==> p[i] == |p| - 1;
    }
  }

  /** Leaving one of them out. */
  lemma WithoutOne(p: seq<nat>, i: nat)
    requires Distinct(p) && i < |p|
    ensures var rest := p[..i] + p[i + 1..];
            && Distinct(rest)
            && (p[i] == |p| - 1 ==> (Positions(p, |p|) <==> Positions(rest, |rest|)))
            && (p[i] > |p| - 1 ==> !Positions(p, |p|))
  {
    var rest := p[..i] + p[i + 1..];
    assert forall a :: 0 <= a < |rest| ==> rest[a] == p[if a < i then a else a + 1];
    if p[i] == |p| - 1 && Positions(rest, |rest|) {
      forall a | 0 <= a < |p| ensures p[a] < |p| {
        if a != i { assert p[a] == rest[if a < i then a else a - 1]; }
      }
    }
  }
}
