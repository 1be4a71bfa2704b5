/**
 * The two list computations the PATCH handler performs on `followingIds`:
 * `filter((id) => id !== x)` (unfollow, and the first half of follow) and
 * filter-then-append (follow). Both keep the remaining ids in their order.
 */
module Following {
  import opened Db

  /** `xs.filter((id) => id !== x)`: every occurrence of `x` dropped, the rest kept in order. */
  function Without(xs: seq<UserId>, x: UserId): (r: seq<UserId>)
    ensures x !in r
    ensures |r| <= |xs|
    ensures x in xs ==> |r| < |xs|
    ensures forall y :: y in r ==> y in xs
    ensures forall y :: y != x ==> multiset(r)[y] == multiset(xs)[y]
  {
    if xs == [] then []
    else
      assert xs == [xs[0]] + xs[1..];
      (if xs[0] == x then [] else [xs[0]]) + Without(xs[1..], x)
  }

  /** `[...xs.filter((id) => id !== x), x]`: `x` moved to (or added at) the tail. */
  function FollowList(xs: seq<UserId>, x: UserId): (r: seq<UserId>) {
    Without(xs, x) + [x]
  }

  /** No id occurs twice. */
  predicate NoDuplicates(xs: seq<UserId>) {
    forall i, j :: 0 <= i < j < |xs| ==> xs[i] != xs[j]
  }

  /** Filtering distributes over concatenation: the kept ids stay in their relative order. */
  lemma {:induction false} WithoutAppend(a: seq<UserId>, b: seq<UserId>, x: UserId)
    ensures Without(a + b, x) == Without(a, x) + Without(b, x)
  {
    if a == [] {
      assert a + b == b;
    } else {
      var head := if a[0] == x then [] else [a[0]];
      assert (a + b)[0] == a[0] && (a + b)[1..] == a[1..] + b;
      assert Without(a + b, x) == head + Without(a[1..] + b, x);
      WithoutAppend(a[1..], b, x);
      assert Without(a, x) == head + Without(a[1..], x);
    }
  }

  /** Filtering out an id that is absent changes nothing. */
  lemma {:induction false} WithoutAbsent(xs: seq<UserId>, x: UserId)
    requires x !in xs
    ensures Without(xs, x) == xs
  {
    if xs != [] {
      assert xs[0] != x;
      WithoutAbsent(xs[1..], x);
    }
  }

  /** An id survives the filter exactly when it was in the list and is not `x`. */
  lemma {:induction false} WithoutKeepsOthers(xs: seq<UserId>, x: UserId)
    ensures forall y :: y in Without(xs, x) <==> y in xs && y != x
  {
    if xs != [] {
      WithoutKeepsOthers(xs[1..], x);
      assert xs == [xs[0]] + xs[1..];
    }
  }

  /** Filtering a list without duplicates leaves a list without duplicates. */
  lemma {:induction false} WithoutNoDuplicates(xs: seq<UserId>, x: UserId)
    requires NoDuplicates(xs)
    ensures NoDuplicates(Without(xs, x))
  {
    if xs != [] {
      WithoutNoDuplicates(xs[1..], x);
      if xs[0] != x {
        assert xs[0] !in xs[1..];
        assert xs[0] !in Without(xs[1..], x);
      }
    }
  }

  /**
   * Follow: the followed id occurs exactly once, at the tail; the ids before it are
   * the old list with that id filtered out; every other id keeps its multiplicity,
   * and the membership is the old membership plus the followed id.
   */
  lemma FollowListShape(xs: seq<UserId>, x: UserId)
    ensures var r := FollowList(xs, x);
      |r| > 0 && r[|r| - 1] == x && r[..|r| - 1] == Without(xs, x)
      && multiset(r)[x] == 1
      && (forall y :: y != x ==> multiset(r)[y] == multiset(xs)[y])
      && (forall y :: y in r <==> y in xs || y == x)
  {
    var r := FollowList(xs, x);
    assert r[..|r| - 1] == Without(xs, x);
    assert multiset(r) == multiset(Without(xs, x)) + multiset{x};
    assert multiset(Without(xs, x))[x] == 0;
    WithoutKeepsOthers(xs, x);
  }

  /** Following an id twice gives the same list as following it once. */
  lemma FollowListIdempotent(xs: seq<UserId>, x: UserId)
    ensures FollowList(FollowList(xs, x), x) == FollowList(xs, x)
  {
    WithoutAppend(Without(xs, x), [x], x);
    WithoutAbsent(Without(xs, x), x);
  }

  /** Following keeps a list free of duplicates. */
  lemma FollowListNoDuplicates(xs: seq<UserId>, x: UserId)
    requires NoDuplicates(xs)
    ensures NoDuplicates(FollowList(xs, x))
  {
    WithoutNoDuplicates(xs, x);
  }

  /**
   * Unfollowing what was just followed gives the old list with that id filtered out;
   * in particular, when the id was not followed before, the old list exactly.
   */
  lemma FollowThenUnfollow(xs: seq<UserId>, x: UserId)
    ensures Without(FollowList(xs, x), x) == Without(xs, x)
    ensures x !in xs ==> Without(FollowList(xs, x), x) == xs
  {
    WithoutAppend(Without(xs, x), [x], x);
    WithoutAbsent(Without(xs, x), x);
    if x !in xs {
      WithoutAbsent(xs, x);
    }
  }
}
