/**
 * JavaScript `Set`s as the tool uses them: a sequence without repeats in insertion order
 * (`Dedup`, what repeated `add` calls build and what `forEach` then visits), and the
 * lists the concordance checks build by walking one set and keeping what the other
 * lacks (`Without`).
 */
module OrderedSet {

  predicate NoDup<T(==)>(xs: seq<T>) {
    forall i, j :: 0 <= i < j < |xs| ==> xs[i] != xs[j]
  }

  /** The elements of xs in order of first occurrence: `new Set(xs)` iterated. */
  function Dedup<T(==,!new)>(xs: seq<T>): (d: seq<T>)
    ensures forall x :: x in d <==> x in xs
    ensures NoDup(d)
    ensures |d| <= |xs|
  {
    if |xs| == 0 then []
    else
      var d := Dedup(xs[..|xs| - 1]);
      var x := xs[|xs| - 1];
      assert forall y :: y in xs <==> y in xs[..|xs| - 1] || y == x by {
        assert xs == xs[..|xs| - 1] + [x];
      }
      if x in d then d else d + [x]
  }

  /** The elements of xs, in order, that are not in ys. */
  function Without<T(==,!new)>(xs: seq<T>, ys: seq<T>): (r: seq<T>)
    ensures forall x :: x in r <==> x in xs && x !in ys
    ensures |r| <= |xs|
  {
    if |xs| == 0 then []
    else
      var x := xs[|xs| - 1];
      assert forall y :: y in xs <==> y in xs[..|xs| - 1] || y == x by {
        assert xs == xs[..|xs| - 1] + [x];
      }
      Without(xs[..|xs| - 1], ys) + (if x in ys then [] else [x])
  }

  /** The members of a non-empty list are those of its front and its last element. */
  lemma InFront<T>(xs: seq<T>)
    requires |xs| > 0
    ensures forall x :: x in xs <==> x in xs[..|xs| - 1] || x == xs[|xs| - 1]
  {
    assert xs == xs[..|xs| - 1] + [xs[|xs| - 1]];
  }

  /** Filtering keeps a list free of repeats. */
  lemma {:induction false} WithoutNoDup<T(!new)>(xs: seq<T>, ys: seq<T>)
    requires NoDup(xs)
    ensures NoDup(Without(xs, ys))
  {
    if |xs| > 0 {
      var p := xs[..|xs| - 1];
      assert NoDup(p);
      WithoutNoDup(p, ys);
      assert xs[|xs| - 1] !in p;
    }
  }

  /** Without(xs, ys) is empty exactly when every element of xs is in ys. */
  lemma WithoutEmpty<T(!new)>(xs: seq<T>, ys: seq<T>)
    ensures Without(xs, ys) == [] <==> forall x :: x in xs ==> x in ys
  {
    if Without(xs, ys) != [] {
      assert Without(xs, ys)[0] in Without(xs, ys);
    }
  }

  /** One more element at the end of the walk adds at most that element at the end. */
  lemma WithoutSnoc<T(!new)>(xs: seq<T>, x: T, ys: seq<T>)
    ensures Without(xs + [x], ys) == Without(xs, ys) + (if x in ys then [] else [x])
  {
    assert (xs + [x])[..|xs + [x]| - 1] == xs;
  }

  /** One more `add` at the end of the walk. */
  lemma DedupSnoc<T(!new)>(xs: seq<T>, x: T)
    ensures Dedup(xs + [x]) == if x in Dedup(xs) then Dedup(xs) else Dedup(xs) + [x]
  {
    assert (xs + [x])[..|xs + [x]| - 1] == xs;
  }

  /** A list without repeats is its own set. */
  lemma {:induction false} DedupOfNoDup<T(!new)>(xs: seq<T>)
    requires NoDup(xs)
    ensures Dedup(xs) == xs
  {
    if |xs| > 0 {
      var p := xs[..|xs| - 1];
      assert NoDup(p);
      DedupOfNoDup(p);
      assert xs[|xs| - 1] !in p;
      assert p + [xs[|xs| - 1]] == xs;
    }
  }

  /** The elements of xs met again after their first occurrence, once per repeat, in order. */
  function Repeats<T(==,!new)>(xs: seq<T>): (r: seq<T>)
    ensures forall x :: x in r ==> x in xs
    ensures |r| <= |xs|
  {
    if |xs| == 0 then []
    else
      var p := xs[..|xs| - 1];
      var x := xs[|xs| - 1];
      assert forall y :: y in p ==> y in xs;
      Repeats(p) + (if x in p then [x] else [])
  }

  /** One more element at the end is a repeat iff it was met before. */
  lemma RepeatsSnoc<T(!new)>(xs: seq<T>, x: T)
    ensures Repeats(xs + [x]) == Repeats(xs) + (if x in xs then [x] else [])
  {
    assert (xs + [x])[..|xs + [x]| - 1] == xs;
  }

  /** How many times x occurs in xs. */
  function Count<T(==)>(xs: seq<T>, x: T): nat {
    if |xs| == 0 then 0 else Count(xs[..|xs| - 1], x) + (if xs[|xs| - 1] == x then 1 else 0)
  }

  /** One more element adds one to its own count and leaves the others. */
  lemma CountSnoc<T>(xs: seq<T>, x: T, y: T)
    ensures Count(xs + [x], y) == Count(xs, y) + (if x == y then 1 else 0)
  {
    assert (xs + [x])[..|xs|] == xs;
  }

  /** An element is counted iff it occurs. */
  lemma {:induction false} CountZero<T>(xs: seq<T>, x: T)
    ensures Count(xs, x) == 0 <==> x !in xs
  {
    if |xs| > 0 {
      InFront(xs);
      CountZero(xs[..|xs| - 1], x);
    }
  }

  /** Every element of a list without repeats occurs at most once. */
  lemma {:induction false} CountOfNoDup<T(!new)>(xs: seq<T>, x: T)
    requires NoDup(xs)
    ensures Count(xs, x) <= 1
    ensures Count(xs, x) == 1 <==> x in xs
  {
    if |xs| > 0 {
      var p := xs[..|xs| - 1];
      assert NoDup(p);
      CountOfNoDup(p, x);
      InFront(xs);
      assert xs[|xs| - 1] !in p;
    }
  }

  /** A list without repeats has no repeats to report. */
  lemma {:induction false} RepeatsOfNoDup<T(!new)>(xs: seq<T>)
    requires NoDup(xs)
    ensures Repeats(xs) == []
  {
    if |xs| > 0 {
      var p := xs[..|xs| - 1];
      assert NoDup(p);
      RepeatsOfNoDup(p);
      assert xs[|xs| - 1] !in p;
    }
  }

  /** Every element is either the first of its kind or a repeat. */
  lemma {:induction false} DedupRepeatsCount<T(!new)>(xs: seq<T>)
    ensures |Dedup(xs)| + |Repeats(xs)| == |xs|
  {
    if |xs| > 0 {
      DedupRepeatsCount(xs[..|xs| - 1]);
    }
  }

  /** `xs.forEach(x => set.add(x))` on a set built from `pre`. */
  method AddAll<T(==,!new)>(acc: seq<T>, ghost pre: seq<T>, xs: seq<T>) returns (r: seq<T>)
    requires acc == Dedup(pre)
    ensures r == Dedup(pre + xs)
  {
    r := acc;
    var i := 0;
    assert pre + xs[..0] == pre;
    while i < |xs|
      invariant 0 <= i <= |xs|
      invariant r == Dedup(pre + xs[..i])
    {
      assert pre + xs[..i + 1] == (pre + xs[..i]) + [xs[i]];
      DedupSnoc(pre + xs[..i], xs[i]);
      if xs[i] !in r {
        r := r + [xs[i]];
      }
      i := i + 1;
    }
    assert xs[..i] == xs;
  }

  /** `new Set(xs)`. */
  method CollectSet<T(==,!new)>(xs: seq<T>) returns (d: seq<T>)
    ensures d == Dedup(xs)
    ensures NoDup(d) && forall x :: x in d <==> x in xs
  {
    d := AddAll([], [], xs);
    assert [] + xs == xs;
  }

  /** Walking xs and pushing what ys lacks. */
  method Difference<T(==,!new)>(xs: seq<T>, ys: seq<T>) returns (r: seq<T>)
    ensures r == Without(xs, ys)
    ensures forall x :: x in r <==> x in xs && x !in ys
  {
    r := [];
    var i := 0;
    while i < |xs|
      invariant 0 <= i <= |xs|
      invariant r == Without(xs[..i], ys)
    {
      assert xs[..i + 1] == xs[..i] + [xs[i]];
      WithoutSnoc(xs[..i], xs[i], ys);
      if xs[i] !in ys {
        r := r + [xs[i]];
      }
      i := i + 1;
    }
    assert xs[..i] == xs;
  }
}
