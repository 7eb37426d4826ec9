/** Python list built-ins used by the model: slicing with a possibly negative bound,
    `list(set(xs))` de-duplication, and order-preserving filtering helpers. */
module PySeq {

  function Min(a: int, b: int): int { if a <= b then a else b }

  function Max(a: int, b: int): int { if a <= b then b else a }

  /** Python's `s[:k]` for any integer `k`: a negative `k` drops `-k` elements from the end. */
  function Prefix<T>(s: seq<T>, k: int): (r: seq<T>)
    ensures |r| <= |s| && r == s[..|r|]
    ensures 0 <= k ==> |r| == Min(k, |s|)
    ensures k < 0 ==> |r| == Max(|s| + k, 0)
  {
    if 0 <= k then (if k <= |s| then s[..k] else s)
    else if -k <= |s| then s[..|s| + k]
    else []
  }

  /** Python's `s[i:i + n]` for a start inside the list and a non-negative length. */
  function Window<T>(s: seq<T>, i: nat, n: nat): (r: seq<T>)
    requires i <= |s|
    ensures |r| == Min(n, |s| - i)
    ensures forall j :: 0 <= j < |r| ==> r[j] == s[i + j]
  {
    if i + n <= |s| then s[i..i + n] else s[i..]
  }

  ghost predicate NoDuplicates<T>(s: seq<T>)
  {
    forall i, j :: 0 <= i < j < |s| ==> s[i] != s[j]
  }

  /** `xs` is obtained from `ys` by deleting some elements (order is kept). */
  ghost predicate IsSubsequence<T>(xs: seq<T>, ys: seq<T>)
    decreases |ys|
  {
    if xs == [] then true
    else if ys == [] then false
    else if xs[0] == ys[0] then IsSubsequence(xs[1..], ys[1..])
    else IsSubsequence(xs, ys[1..])
  }

  lemma {:induction false} SubsequenceElements<T>(xs: seq<T>, ys: seq<T>)
    requires IsSubsequence(xs, ys)
    ensures |xs| <= |ys|
    ensures forall x :: x in xs ==> x in ys
    decreases |ys|
  {
    if xs != [] && ys != [] {
      assert forall x :: x in xs ==> x == xs[0] || x in xs[1..];
      assert forall x :: x in ys[1..] ==> x in ys;
      if xs[0] == ys[0] {
        SubsequenceElements(xs[1..], ys[1..]);
      } else {
        SubsequenceElements(xs, ys[1..]);
      }
    }
  }

  lemma SubsequenceRefl<T>(xs: seq<T>)
    ensures IsSubsequence(xs, xs)
    decreases |xs|
  {
    if xs != [] {
      SubsequenceRefl(xs[1..]);
    }
  }

  /** The positions `j` of `s` with `p(s[j])`, in increasing order. */
  function Positions<T>(s: seq<T>, p: T -> bool): (r: seq<nat>)
    ensures |r| <= |s|
  {
    if s == [] then [] else Positions(s[..|s| - 1], p) + (if p(s[|s| - 1]) then [|s| - 1] else [])
  }

  /** `[f(j, x) for j, x in enumerate(s) if p(x)]`. */
  function FilterMap<T, U>(s: seq<T>, p: T -> bool, f: (nat, T) -> U): (r: seq<U>)
    ensures |r| <= |s|
  {
    if s == [] then [] else FilterMap(s[..|s| - 1], p, f) + (if p(s[|s| - 1]) then [f(|s| - 1, s[|s| - 1])] else [])
  }

  lemma FilterMapSnoc<T, U>(s: seq<T>, x: T, p: T -> bool, f: (nat, T) -> U)
    ensures FilterMap(s + [x], p, f) == FilterMap(s, p, f) + (if p(x) then [f(|s|, x)] else [])
  {
    assert (s + [x])[..|s|] == s;
  }

  /** The positions are exactly those whose element passes, in increasing order. */
  lemma {:induction false} PositionsExact<T>(s: seq<T>, p: T -> bool)
    ensures forall i :: 0 <= i < |Positions(s, p)| ==> Positions(s, p)[i] < |s| && p(s[Positions(s, p)[i]])
    ensures forall a, b :: 0 <= a < b < |Positions(s, p)| ==> Positions(s, p)[a] < Positions(s, p)[b]
    ensures forall j :: 0 <= j < |s| && p(s[j]) ==> j in Positions(s, p)
  {
    if s != [] {
      var init := s[..|s| - 1];
      PositionsExact(init, p);
      assert forall j :: 0 <= j < |init| ==> init[j] == s[j];
    }
  }

  /** The filtered list holds `f` of each passing position, in order. */
  lemma {:induction false} FilterMapExact<T, U>(s: seq<T>, p: T -> bool, f: (nat, T) -> U)
    ensures |FilterMap(s, p, f)| == |Positions(s, p)|
    ensures forall i :: 0 <= i < |FilterMap(s, p, f)| ==>
              Positions(s, p)[i] < |s| && FilterMap(s, p, f)[i] == f(Positions(s, p)[i], s[Positions(s, p)[i]])
  {
    PositionsExact(s, p);
    if s != [] {
      var init := s[..|s| - 1];
      FilterMapExact(init, p, f);
      PositionsExact(init, p);
      assert forall j :: 0 <= j < |init| ==> init[j] == s[j];
    }
  }

  /** `[f(x) for x in xs]`. */
  function Map<A, B>(xs: seq<A>, f: A -> B): (r: seq<B>)
    ensures |r| == |xs|
  {
    if xs == [] then [] else Map(xs[..|xs| - 1], f) + [f(xs[|xs| - 1])]
  }

  lemma MapSnoc<A, B>(xs: seq<A>, x: A, f: A -> B)
    ensures Map(xs + [x], f) == Map(xs, f) + [f(x)]
  {
    assert (xs + [x])[..|xs|] == xs;
  }

  /** Growing the mapped prefix by one element. */
  lemma MapPrefixSnoc<A, B>(xs: seq<A>, i: nat, f: A -> B, y: B)
    requires i < |xs| && y == f(xs[i])
    ensures Map(xs[..i + 1], f) == Map(xs[..i], f) + [y]
  {
    MapSnoc(xs[..i], xs[i], f);
    assert xs[..i + 1] == xs[..i] + [xs[i]];
  }

  lemma {:induction false} MapExact<A, B>(xs: seq<A>, f: A -> B)
    ensures forall i :: 0 <= i < |xs| ==> Map(xs, f)[i] == f(xs[i])
  {
    if xs != [] {
      var init := xs[..|xs| - 1];
      MapExact(init, f);
      assert forall i :: 0 <= i < |init| ==> init[i] == xs[i];
    }
  }

  /** `[x for x in s if p(x)]`. */
  function Filter<T>(s: seq<T>, p: T -> bool): (r: seq<T>)
    ensures |r| <= |s|
  {
    if s == [] then [] else Filter(s[..|s| - 1], p) + (if p(s[|s| - 1]) then [s[|s| - 1]] else [])
  }

  lemma FilterSnoc<T>(s: seq<T>, x: T, p: T -> bool)
    ensures Filter(s + [x], p) == Filter(s, p) + (if p(x) then [x] else [])
  {
    assert (s + [x])[..|s|] == s;
  }

  /** The kept elements are the elements of `s` at the passing positions, in order; so an
      element is kept exactly when it occurs in `s` and passes. */
  lemma {:induction false} FilterExact<T>(s: seq<T>, p: T -> bool)
    ensures |Filter(s, p)| == |Positions(s, p)|
    ensures forall i :: 0 <= i < |Filter(s, p)| ==>
              Positions(s, p)[i] < |s| && Filter(s, p)[i] == s[Positions(s, p)[i]]
    ensures forall x :: x in Filter(s, p) <==> x in s && p(x)
  {
    if s != [] {
      var init := s[..|s| - 1];
      FilterExact(init, p);
      PositionsExact(init, p);
      assert forall j :: 0 <= j < |init| ==> init[j] == s[j];
      assert forall x :: x in s <==> x in init || x == s[|s| - 1];
    }
  }

  /** The conjunction of two tests. */
  function Both<T>(p: T -> bool, q: T -> bool): T -> bool
  {
    x => p(x) && q(x)
  }

  /** Filtering twice is filtering once by both tests. */
  lemma {:induction false} FilterFilter<T>(s: seq<T>, p: T -> bool, q: T -> bool)
    ensures Filter(Filter(s, p), q) == Filter(s, Both(p, q))
  {
    if s != [] {
      var init := s[..|s| - 1];
      var x := s[|s| - 1];
      FilterFilter(init, p, q);
      assert Both(p, q)(x) == (p(x) && q(x));
      assert Filter(s, p) == Filter(init, p) + (if p(x) then [x] else []);
      assert Filter(s, Both(p, q)) == Filter(init, Both(p, q)) + (if p(x) && q(x) then [x] else []);
      if p(x) {
        FilterSnoc(Filter(init, p), x, q);
      } else {
        assert Filter(s, p) == Filter(init, p);
      }
    }
  }

  /** Something passes the test exactly when the filtered list is not empty. */
  lemma {:induction false} FilterNonEmpty<T>(s: seq<T>, p: T -> bool)
    ensures Filter(s, p) != [] <==> exists i :: 0 <= i < |s| && p(s[i])
  {
    if s != [] {
      var init := s[..|s| - 1];
      FilterNonEmpty(init, p);
      assert forall i :: 0 <= i < |init| ==> init[i] == s[i];
      if Filter(s, p) == [] {
        assert !p(s[|s| - 1]);
      }
    }
  }

  /** `[f(x) for x in s if p(x)]` holds `y` exactly when some passing element maps to `y`. */
  lemma {:induction false} MapFilterMember<T, U>(s: seq<T>, p: T -> bool, f: T -> U)
    ensures forall y :: y in Map(Filter(s, p), f) <==> exists i :: 0 <= i < |s| && p(s[i]) && y == f(s[i])
  {
    if s != [] {
      var init := s[..|s| - 1];
      var x := s[|s| - 1];
      MapFilterMember(init, p, f);
      assert forall i :: 0 <= i < |init| ==> init[i] == s[i];
      var before := Map(Filter(init, p), f);
      if p(x) {
        assert Filter(s, p) == Filter(init, p) + [x];
        MapSnoc(Filter(init, p), x, f);
        assert Map(Filter(s, p), f) == before + [f(x)];
      } else {
        assert Filter(s, p) == Filter(init, p);
      }
      forall y
        ensures y in Map(Filter(s, p), f) <==> exists i :: 0 <= i < |s| && p(s[i]) && y == f(s[i])
      {
        if y in before {
          var i :| 0 <= i < |init| && p(init[i]) && y == f(init[i]);
          assert p(s[i]) && y == f(s[i]);
        } else if y in Map(Filter(s, p), f) {
          assert p(s[|s| - 1]) && y == f(s[|s| - 1]);
        }
        if exists i :: 0 <= i < |s| && p(s[i]) && y == f(s[i]) {
          var i :| 0 <= i < |s| && p(s[i]) && y == f(s[i]);
          if i < |init| {
            assert p(init[i]) && y == f(init[i]);
          }
        }
      }
    }
  }

  /** `s[-n:]` for `n > 0`: the last `n` elements, or all of them. */
  function Last<T>(s: seq<T>, n: nat): (r: seq<T>)
    ensures |r| == Min(n, |s|)
    ensures r == s[|s| - |r|..]
  {
    if |s| <= n then s else s[|s| - n..]
  }

  /** The order-keeping de-duplication of `s` (first occurrences win). */
  function Dedup<T(==,!new)>(s: seq<T>): (r: seq<T>)
    ensures forall x :: x in r <==> x in s
    ensures NoDuplicates(r)
    ensures |r| <= |s|
  {
    if s == [] then []
    else
      var d := Dedup(s[..|s| - 1]);
      assert forall x :: x in s <==> x in s[..|s| - 1] || x == s[|s| - 1];
      if s[|s| - 1] in d then d else d + [s[|s| - 1]]
  }
}
