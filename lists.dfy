/**
 * The two list edits the forms share: `list.filter(i => i !== item)` and the
 * toggle-membership idiom `list.includes(item) ? list.filter(...) : [...list, item]`
 * (the post-property wizard's `toggleArrayItem` and the filter sidebar's `toggleFilter`).
 */
module Lists {

  /** No value occurs twice. */
  predicate NoDup<T(==)>(xs: seq<T>) {
    forall i, j :: 0 <= i < j < |xs| ==> xs[i] != xs[j]
  }

  /** `xs` is `ys` with some entries left out, the rest in the same order. */
  predicate IsSubsequence<T(==)>(xs: seq<T>, ys: seq<T>)
    decreases |ys|
  {
    xs == [] || (ys != [] && ((xs[0] == ys[0] && IsSubsequence(xs[1..], ys[1..])) || IsSubsequence(xs, ys[1..])))
  }

  lemma {:induction false} PrefixIsSubsequence<T>(xs: seq<T>, ys: seq<T>, k: nat)
    requires IsSubsequence(xs, ys) && k <= |xs|
    ensures IsSubsequence(xs[..k], ys)
    decreases |ys|
  {
    if k > 0 {
      if xs[0] == ys[0] && IsSubsequence(xs[1..], ys[1..]) {
        PrefixIsSubsequence(xs[1..], ys[1..], k - 1);
        assert xs[..k][1..] == xs[1..][..k - 1];
      } else {
        PrefixIsSubsequence(xs, ys[1..], k);
      }
    }
  }

  /**
   * `xs.filter(i => i !== x)`: every copy of `x` goes, everything else stays in
   * order. Being a subsequence of `xs` that keeps every other value as often as
   * `xs` holds it pins the result down.
   */
  function RemoveAll<T(==)>(xs: seq<T>, x: T): (r: seq<T>)
    ensures x !in r
    ensures multiset(r) == multiset(xs)[x := 0]
    ensures IsSubsequence(r, xs)
    ensures x !in xs ==> r == xs
  {
    if xs == [] then []
    else
      var rest := RemoveAll(xs[1..], x);
      assert xs == [xs[0]] + xs[1..];
      if xs[0] == x then rest
      else
        assert ([xs[0]] + rest)[1..] == rest;
        [xs[0]] + rest
  }

  lemma {:induction false} RemoveAllKeepsNoDup<T>(xs: seq<T>, x: T)
    requires NoDup(xs)
    ensures NoDup(RemoveAll(xs, x))
  {
    if xs != [] {
      var rest := RemoveAll(xs[1..], x);
      assert NoDup(xs[1..]);
      RemoveAllKeepsNoDup(xs[1..], x);
      if xs[0] != x {
        assert xs[0] !in xs[1..] by {
          forall j | 0 <= j < |xs| - 1 ensures xs[1..][j] != xs[0] {
            assert xs[1..][j] == xs[j + 1];
          }
        }
        assert xs[0] !in rest by {
          assert multiset(rest)[xs[0]] == multiset(xs[1..])[xs[0]];
        }
      }
    }
  }

  /** Removes `x` if it is present, otherwise appends it at the end. */
  function Toggle<T(==,!new)>(xs: seq<T>, x: T): (r: seq<T>)
    ensures x in r <==> x !in xs
    ensures forall y :: y != x ==> (y in r <==> y in xs)
    ensures x !in xs ==> r == xs + [x]
    ensures x in xs ==> r == RemoveAll(xs, x)
  {
    if x in xs then
      var r := RemoveAll(xs, x);
      assert forall y :: y != x ==> (y in r <==> y in xs) by {
        forall y | y != x ensures y in r <==> y in xs {
          assert multiset(r)[y] == multiset(xs)[y];
        }
      }
      r
    else xs + [x]
  }

  /** Toggling an absent value twice gives the list back exactly. */
  lemma {:induction false} ToggleTwiceRestores<T(!new)>(xs: seq<T>, x: T)
    requires x !in xs
    ensures Toggle(Toggle(xs, x), x) == xs
  {
    RemoveAllAppended(xs, x);
  }

  lemma {:induction false} RemoveAllAppended<T>(xs: seq<T>, x: T)
    requires x !in xs
    ensures RemoveAll(xs + [x], x) == xs
  {
    if xs == [] {
      assert RemoveAll([x], x) == RemoveAll([x][1..], x);
    } else {
      assert (xs + [x])[1..] == xs[1..] + [x];
      RemoveAllAppended(xs[1..], x);
      assert xs == [xs[0]] + xs[1..];
    }
  }

  /** A duplicate-free list stays duplicate-free under any sequence of toggles. */
  lemma ToggleKeepsNoDup<T(!new)>(xs: seq<T>, x: T)
    requires NoDup(xs)
    ensures NoDup(Toggle(xs, x))
  {
    if x in xs {
      RemoveAllKeepsNoDup(xs, x);
    }
  }
}
