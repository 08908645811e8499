/** Facts about sets and sequences that several components count with. */
module Collections {

  ghost predicate Distinct<T>(xs: seq<T>)
  {
    forall i, j :: 0 <= i < j < |xs| ==> xs[i] != xs[j]
  }

  lemma AppendDistinct<T>(xs: seq<T>, x: T)
    requires Distinct(xs) && x !in xs
    ensures Distinct(xs + [x])
  {
  }

  lemma LastOfDistinct<T>(xs: seq<T>)
    requires Distinct(xs) && xs != []
    ensures var last, rest := xs[|xs| - 1], xs[..|xs| - 1];
            last !in rest && Distinct(rest) && forall x :: x in xs <==> x in rest || x == last
  {
    assert xs == xs[..|xs| - 1] + [xs[|xs| - 1]];
  }

  /** The sequence without its k-th element. */
  function Without<T>(xs: seq<T>, k: nat): seq<T>
    requires k < |xs|
  {
    xs[..k] + xs[k + 1..]
  }

  lemma WithoutDistinct<T>(xs: seq<T>, k: nat)
    requires Distinct(xs) && k < |xs|
    ensures Distinct(Without(xs, k))
    ensures forall x :: x in Without(xs, k) <==> x in xs && x != xs[k]
  {
    assert xs == xs[..k] + [xs[k]] + xs[k + 1..];
  }

  lemma SubsetSize<T>(a: set<T>, b: set<T>)
    requires a <= b
    ensures |a| <= |b|
  {
    assert b == a + (b - a);
  }

  lemma AtMostOne<T>(g: set<T>)
    requires |g| <= 1
    ensures forall p, q :: p in g && q in g ==> p == q
  {
    forall p, q | p in g && q in g ensures p == q {
      SubsetSize({p, q}, g);
    }
  }

  /** A list shorter than a set misses one of its elements. */
  lemma {:induction false} Unlisted<T>(list: seq<T>, elements: set<T>) returns (x: T)
    requires |list| < |elements|
    ensures x in elements && x !in list
  {
    if list == [] {
      x :| x in elements;
    } else {
      var rest := elements - {list[0]};
      assert |rest| >= |elements| - 1;
      x := Unlisted(list[1..], rest);
      assert list == [list[0]] + list[1..];
    }
  }

  /** Distinct elements taken from a list are no more than the list has. */
  lemma {:induction false} DistinctFits<T>(xs: seq<T>, list: seq<T>)
    requires Distinct(xs) && forall x :: x in xs ==> x in list
    ensures |xs| <= |list|
  {
    if xs == [] {
    } else {
      var last, rest := xs[|xs| - 1], xs[..|xs| - 1];
      LastOfDistinct(xs);
      var k :| 0 <= k < |list| && list[k] == last;
      assert list == list[..k] + [list[k]] + list[k + 1..];
      DistinctFits(rest, Without(list, k));
    }
  }
}
