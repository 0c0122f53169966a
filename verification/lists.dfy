/**
  The list helpers the command uses on string slices: "every element is
  allowed" (`utils.ContainsOnly`) and order-preserving filtering
  (`utils.Filter`). Membership (`utils.Contains`) is Dafny's `in`.
 */
module Lists {

  /** Every element of `xs` is one of `allowed`; vacuously true of the empty list. */
  predicate ContainsOnly<T(==)>(xs: seq<T>, allowed: seq<T>)
    ensures |xs| == 0 ==> ContainsOnly(xs, allowed)
    ensures |xs| > 0 ==> (ContainsOnly(xs, allowed) <==> xs[0] in allowed && ContainsOnly(xs[1..], allowed))
  {
    forall x :: x in xs ==> x in allowed
  }

  /** The elements of `xs` that `keep` accepts, in their original order. */
  function Filter<T(==)>(xs: seq<T>, keep: T -> bool): (r: seq<T>)
    ensures |r| <= |xs|
    ensures forall x :: x in r ==> x in xs && keep(x)
    ensures forall x :: x in xs && keep(x) ==> x in r
  {
    if |xs| == 0 then []
    else (if keep(xs[0]) then [xs[0]] else []) + Filter(xs[1..], keep)
  }

  /** Filtering a concatenation filters each half and keeps them in order. */
  lemma {:induction false} FilterAppend<T>(a: seq<T>, b: seq<T>, keep: T -> bool)
    ensures Filter(a + b, keep) == Filter(a, keep) + Filter(b, keep)
    decreases |a|
  {
    if |a| > 0 {
      assert (a + b)[0] == a[0];
      assert (a + b)[1..] == a[1..] + b;
      FilterAppend(a[1..], b, keep);
    } else {
      assert a + b == b;
    }
  }

  /** Filtering removes every copy of each rejected value and no copy of any accepted one. */
  lemma {:induction false} FilterCount<T>(xs: seq<T>, keep: T -> bool, x: T)
    ensures multiset(Filter(xs, keep))[x] == if keep(x) then multiset(xs)[x] else 0
    decreases |xs|
  {
    if |xs| > 0 {
      FilterCount(xs[1..], keep, x);
      assert xs == [xs[0]] + xs[1..];
    }
  }

  /** A list whose elements are all accepted is left exactly as it is. */
  lemma {:induction false} FilterKeepsAll<T>(xs: seq<T>, keep: T -> bool)
    requires forall x :: x in xs ==> keep(x)
    ensures Filter(xs, keep) == xs
    decreases |xs|
  {
    if |xs| > 0 {
      assert forall x :: x in xs[1..] ==> x in xs;
      FilterKeepsAll(xs[1..], keep);
      assert xs == [xs[0]] + xs[1..];
    }
  }
}
