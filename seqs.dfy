/** List operations the application writes with `filter`, `includes` and spread:
    filtering, removing every occurrence of a value, and the add-or-remove toggle used
    by the checkbox handlers. */
module Seqs {

  /** `s.filter(p)`: the elements of `s` that satisfy `p`, in their original order. */
  function Filter<T>(s: seq<T>, p: T -> bool): (r: seq<T>)
    ensures |r| <= |s|
    ensures forall k :: 0 <= k < |r| ==> r[k] in s && p(r[k])
    ensures forall k :: 0 <= k < |s| && p(s[k]) ==> s[k] in r
    decreases |s|
  {
    if s == [] then [] else (if p(s[0]) then [s[0]] else []) + Filter(s[1..], p)
  }

  /** Each element's contribution, concatenated in order (`flatMap`). */
  function Gather<T, U>(xs: seq<T>, f: T -> seq<U>): seq<U>
    decreases |xs|
  {
    if xs == [] then [] else Gather(xs[..|xs| - 1], f) + f(xs[|xs| - 1])
  }

  lemma {:induction false} GatherConcat<T, U>(a: seq<T>, b: seq<T>, f: T -> seq<U>)
    ensures Gather(a + b, f) == Gather(a, f) + Gather(b, f)
    decreases |b|
  {
    if b == [] {
      assert a + b == a;
    } else {
      var b' := b[..|b| - 1];
      assert (a + b)[..|a + b| - 1] == a + b';
      assert (a + b)[|a + b| - 1] == b[|b| - 1];
      GatherConcat(a, b', f);
    }
  }

  lemma FilterConcat<T>(a: seq<T>, b: seq<T>, p: T -> bool)
    ensures Filter(a + b, p) == Filter(a, p) + Filter(b, p)
    decreases |a|
  {
    if a == [] {
      assert a + b == b;
    } else {
      assert (a + b)[0] == a[0];
      assert (a + b)[1..] == a[1..] + b;
      FilterConcat(a[1..], b, p);
    }
  }

  /** `a` is obtained from `b` by deleting elements: nothing is added and order is kept. */
  ghost predicate IsSubseq<T>(a: seq<T>, b: seq<T>)
    decreases |b|
  {
    if a == [] then true
    else if b == [] then false
    else (a[0] == b[0] && IsSubseq(a[1..], b[1..])) || IsSubseq(a, b[1..])
  }

  lemma {:induction false} FilterIsSubseq<T>(s: seq<T>, p: T -> bool)
    ensures IsSubseq(Filter(s, p), s)
    decreases |s|
  {
    if s != [] {
      FilterIsSubseq(s[1..], p);
      if p(s[0]) {
        assert Filter(s, p) == [s[0]] + Filter(s[1..], p);
        assert Filter(s, p)[1..] == Filter(s[1..], p);
      } else {
        assert Filter(s, p) == Filter(s[1..], p);
      }
    }
  }

  /** Each element occurs in `s.filter(p)` exactly as often as in `s` when it satisfies
      `p`, and not at all otherwise. */
  lemma {:induction false} FilterCount<T>(s: seq<T>, p: T -> bool)
    ensures forall x :: multiset(Filter(s, p))[x] == if p(x) then multiset(s)[x] else 0
    decreases |s|
  {
    if s != [] {
      FilterCount(s[1..], p);
      assert s == [s[0]] + s[1..];
      assert Filter(s, p) == (if p(s[0]) then [s[0]] else []) + Filter(s[1..], p);
    }
  }

  lemma {:induction false} SubseqTransitive<T>(a: seq<T>, b: seq<T>, c: seq<T>)
    requires IsSubseq(a, b) && IsSubseq(b, c)
    ensures IsSubseq(a, c)
    decreases |c|
  {
    if a != [] {
      if IsSubseq(b, c[1..]) {
        SubseqTransitive(a, b, c[1..]);
      } else {
        assert b[0] == c[0] && IsSubseq(b[1..], c[1..]);
        if a[0] == b[0] && IsSubseq(a[1..], b[1..]) {
          SubseqTransitive(a[1..], b[1..], c[1..]);
        } else {
          SubseqTransitive(a, b[1..], c[1..]);
        }
      }
    }
  }

  /** `xs.filter(y => y !== x)`: every occurrence of `x` removed, every other element kept;
      `WithoutOrderAndCount` states that the kept ones stay in order and as often as they
      occur. */
  function Without<T(==)>(xs: seq<T>, x: T): (r: seq<T>)
    ensures x !in r
    ensures forall k :: 0 <= k < |r| ==> r[k] in xs
    ensures forall k :: 0 <= k < |xs| && xs[k] != x ==> xs[k] in r
    decreases |xs|
  {
    if xs == [] then [] else (if xs[0] == x then [] else [xs[0]]) + Without(xs[1..], x)
  }

  /** Removing `x` keeps the order of the other elements and how often each occurs. */
  lemma {:induction false} WithoutOrderAndCount<T>(xs: seq<T>, x: T)
    ensures IsSubseq(Without(xs, x), xs)
    ensures forall y :: multiset(Without(xs, x))[y] == if y == x then 0 else multiset(xs)[y]
    decreases |xs|
  {
    if xs != [] {
      var rest := Without(xs[1..], x);
      WithoutOrderAndCount(xs[1..], x);
      assert xs == [xs[0]] + xs[1..];
      if xs[0] == x {
        assert Without(xs, x) == rest;
      } else {
        assert Without(xs, x) == [xs[0]] + rest;
        assert Without(xs, x)[1..] == rest;
      }
    }
  }

  lemma {:induction false} WithoutConcat<T>(a: seq<T>, b: seq<T>, x: T)
    ensures Without(a + b, x) == Without(a, x) + Without(b, x)
    decreases |a|
  {
    if a == [] {
      assert a + b == b;
    } else {
      assert (a + b)[0] == a[0];
      assert (a + b)[1..] == a[1..] + b;
      WithoutConcat(a[1..], b, x);
    }
  }

  lemma {:induction false} WithoutAbsent<T>(xs: seq<T>, x: T)
    requires x !in xs
    ensures Without(xs, x) == xs
    decreases |xs|
  {
    if xs != [] {
      WithoutAbsent(xs[1..], x);
    }
  }

  /** The checkbox toggle: remove `x` (every occurrence) when present, else append it
      at the end (`[...xs, x]`). */
  function Toggle<T(==)>(xs: seq<T>, x: T): (r: seq<T>)
    ensures x in r <==> x !in xs
    ensures forall k :: 0 <= k < |r| && r[k] != x ==> r[k] in xs
    ensures forall k :: 0 <= k < |xs| && xs[k] != x ==> xs[k] in r
    ensures x !in xs ==> r == xs + [x]
    ensures x in xs ==> r == Without(xs, x)
  {
    if x in xs then Without(xs, x) else xs + [x]
  }

  /** Apart from `x`, a toggle keeps exactly the same entries in the same order. */
  lemma ToggleKeepsOthers<T>(xs: seq<T>, x: T)
    ensures Without(Toggle(xs, x), x) == Without(xs, x)
  {
    if x !in xs {
      WithoutConcat(xs, [x], x);
      assert Without([x], x) == [];
    } else {
      WithoutAbsent(Without(xs, x), x);
    }
  }

  /** Adding a value and then toggling it again restores the list. */
  lemma ToggleTwice<T>(xs: seq<T>, x: T)
    requires x !in xs
    ensures Toggle(Toggle(xs, x), x) == xs
  {
    WithoutConcat(xs, [x], x);
    assert Without([x], x) == [];
    WithoutAbsent(xs, x);
  }

  ghost predicate NoDuplicates<T>(xs: seq<T>) {
    forall i, j :: 0 <= i < j < |xs| ==> xs[i] != xs[j]
  }

  lemma {:induction false} WithoutNoDuplicates<T>(xs: seq<T>, x: T)
    requires NoDuplicates(xs)
    ensures NoDuplicates(Without(xs, x))
    decreases |xs|
  {
    if xs != [] {
      WithoutNoDuplicates(xs[1..], x);
      assert xs[0] !in xs[1..];
    }
  }

  /** A list of distinct entries stays duplicate-free under toggling. */
  lemma ToggleNoDuplicates<T>(xs: seq<T>, x: T)
    requires NoDuplicates(xs)
    ensures NoDuplicates(Toggle(xs, x))
  {
    if x in xs {
      WithoutNoDuplicates(xs, x);
    }
  }
}
