/** `Array.prototype.filter` and the facts about it that the pages rely on. */
module Seqs {

  /**
   * `a` is an order-preserving sublist of `b` (greedy matching from the left,
   * which finds an embedding whenever one exists).
   */
  ghost predicate IsSubsequence<T>(a: seq<T>, b: seq<T>)
    decreases |b|
  {
    if a == [] then true
    else if b == [] then false
    else if a[0] == b[0] then IsSubsequence(a[1..], b[1..])
    else IsSubsequence(a, b[1..])
  }

  lemma {:induction false} SubsequenceDropHead<T>(a: seq<T>, b: seq<T>)
    requires a != [] && IsSubsequence(a, b)
    ensures IsSubsequence(a[1..], b)
    decreases |b|
  {
    if a[0] == b[0] {
      SubsequenceSkip(a[1..], b);
    } else {
      SubsequenceDropHead(a, b[1..]);
      SubsequenceSkip(a[1..], b);
    }
  }

  lemma {:induction false} SubsequenceSkip<T>(a: seq<T>, b: seq<T>)
    requires b != [] && IsSubsequence(a, b[1..])
    ensures IsSubsequence(a, b)
    decreases |b|, 1
  {
    if a != [] && a[0] == b[0] {
      SubsequenceDropHead(a, b[1..]);
    }
  }

  lemma {:induction false} SubsequenceShorter<T>(a: seq<T>, b: seq<T>)
    requires IsSubsequence(a, b)
    ensures |a| <= |b|
    decreases |b|
  {
    if a != [] {
      if a[0] == b[0] {
        SubsequenceShorter(a[1..], b[1..]);
      } else {
        SubsequenceShorter(a, b[1..]);
      }
    }
  }

  /** `s.filter(p)`: keeps, in order, exactly the elements that satisfy `p`. */
  function Filter<T(!new)>(s: seq<T>, p: T -> bool): (r: seq<T>)
    ensures |r| <= |s|
    ensures forall i :: 0 <= i < |r| ==> r[i] in s && p(r[i])
    ensures forall i :: 0 <= i < |s| && p(s[i]) ==> s[i] in r
    ensures IsSubsequence(r, s)
    decreases |s|
  {
    if s == [] then []
    else
      var rest := Filter(s[1..], p);
      if p(s[0]) then
        assert ([s[0]] + rest)[1..] == rest;
        [s[0]] + rest
      else
        SubsequenceSkip(rest, s);
        rest
  }

  /**
   * Filtering keeps multiplicities: each value occurs in the result as often as in `s` when it
   * satisfies `p`, and not at all otherwise.
   */
  lemma {:induction false} FilterCounts<T(!new)>(s: seq<T>, p: T -> bool)
    ensures forall x :: multiset(Filter(s, p))[x] == if p(x) then multiset(s)[x] else 0
    decreases |s|
  {
    if s != [] {
      FilterCounts(s[1..], p);
      assert s == [s[0]] + s[1..];
      assert multiset(s) == multiset{s[0]} + multiset(s[1..]);
      if p(s[0]) {
        assert Filter(s, p) == [s[0]] + Filter(s[1..], p);
        assert multiset(Filter(s, p)) == multiset{s[0]} + multiset(Filter(s[1..], p));
      }
    }
  }

  /** Filtering with a predicate every element satisfies returns the list unchanged. */
  lemma {:induction false} FilterKeepsAll<T(!new)>(s: seq<T>, p: T -> bool)
    requires forall i :: 0 <= i < |s| ==> p(s[i])
    ensures Filter(s, p) == s
    decreases |s|
  {
    if s != [] {
      FilterKeepsAll(s[1..], p);
      assert [s[0]] + s[1..] == s;
    }
  }

  /** `s.filter(p).length`. */
  function Count<T(!new)>(s: seq<T>, p: T -> bool): (n: nat)
    ensures n <= |s|
  {
    |Filter(s, p)|
  }

  /** Counting under a stronger predicate never gives more. */
  lemma {:induction false} CountMonotone<T(!new)>(s: seq<T>, p: T -> bool, q: T -> bool)
    requires forall i :: 0 <= i < |s| && p(s[i]) ==> q(s[i])
    ensures Count(s, p) <= Count(s, q)
    decreases |s|
  {
    if s != [] {
      CountMonotone(s[1..], p, q);
    }
  }

  /** Every pair of neighbours is in order under `cmp` (negative or zero). */
  ghost predicate AdjacentOrdered<T>(t: seq<T>, cmp: (T, T) -> int)
  {
    forall i :: 0 < i < |t| ==> cmp(t[i - 1], t[i]) <= 0
  }

  /** Swapping the arguments of `cmp` flips a positive result to a negative one. */
  ghost predicate Antisymmetric<T(!new)>(cmp: (T, T) -> int)
  {
    forall a: T, b: T :: cmp(a, b) > 0 ==> cmp(b, a) < 0
  }

  /**
   * Inserts `x` into `t` from the right, stopping at the first element that does not
   * compare greater than `x`; equal elements keep `x` after them, which keeps the sort stable.
   */
  function InsertLast<T>(t: seq<T>, x: T, cmp: (T, T) -> int): (r: seq<T>)
    ensures multiset(r) == multiset(t) + multiset{x}
    ensures |r| == |t| + 1
    ensures r[|r| - 1] == x || (|t| > 0 && r[|r| - 1] == t[|t| - 1])
    decreases |t|
  {
    if |t| == 0 || cmp(t[|t| - 1], x) <= 0 then t + [x]
    else
      assert t == t[..|t| - 1] + [t[|t| - 1]];
      InsertLast(t[..|t| - 1], x, cmp) + [t[|t| - 1]]
  }

  /** `array.sort(cmp)` on a copy: a stable insertion sort. */
  function SortBy<T>(s: seq<T>, cmp: (T, T) -> int): (r: seq<T>)
    ensures multiset(r) == multiset(s)
    ensures |r| == |s|
    decreases |s|
  {
    if |s| == 0 then []
    else
      assert s == s[..|s| - 1] + [s[|s| - 1]];
      InsertLast(SortBy(s[..|s| - 1], cmp), s[|s| - 1], cmp)
  }

  lemma {:induction false} InsertLastOrdered<T(!new)>(t: seq<T>, x: T, cmp: (T, T) -> int)
    requires Antisymmetric(cmp) && AdjacentOrdered(t, cmp)
    ensures AdjacentOrdered(InsertLast(t, x, cmp), cmp)
    decreases |t|
  {
    if |t| == 0 || cmp(t[|t| - 1], x) <= 0 {
    } else {
      var init := t[..|t| - 1];
      var last := t[|t| - 1];
      assert AdjacentOrdered(init, cmp) by {
        forall i | 0 < i < |init| ensures cmp(init[i - 1], init[i]) <= 0 {
          assert init[i - 1] == t[i - 1] && init[i] == t[i];
        }
      }
      InsertLastOrdered(init, x, cmp);
      var u := InsertLast(init, x, cmp);
      assert cmp(x, last) < 0;
      assert |init| > 0 ==> cmp(init[|init| - 1], last) <= 0;
      assert cmp(u[|u| - 1], last) <= 0;
    }
  }

  /** With an antisymmetric comparator the sorted copy has every neighbour pair in order. */
  lemma {:induction false} SortByOrdered<T(!new)>(s: seq<T>, cmp: (T, T) -> int)
    requires Antisymmetric(cmp)
    ensures AdjacentOrdered(SortBy(s, cmp), cmp)
    decreases |s|
  {
    if |s| > 0 {
      SortByOrdered(s[..|s| - 1], cmp);
      InsertLastOrdered(SortBy(s[..|s| - 1], cmp), s[|s| - 1], cmp);
    }
  }
}
