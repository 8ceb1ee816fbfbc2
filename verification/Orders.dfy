/** Total orders, the canonical sort used by Python's `sorted`, and two counting facts. */
module Orders {

  ghost predicate TotalOrder<T(!new)>(le: (T, T) -> bool) {
    && (forall x, y :: le(x, y) || le(y, x))
    && (forall x, y :: le(x, y) && le(y, x) ==> x == y)
    && (forall x, y, z :: le(x, y) && le(y, z) ==> le(x, z))
  }

  ghost predicate Preorder<T(!new)>(le: (T, T) -> bool) {
    && (forall x, y :: le(x, y) || le(y, x))
    && (forall x, y, z :: le(x, y) && le(y, z) ==> le(x, z))
  }

  ghost predicate Sorted<T>(le: (T, T) -> bool, xs: seq<T>) {
    forall i, j :: 0 <= i < j < |xs| ==> le(xs[i], xs[j])
  }

  ghost predicate Distinct<T>(xs: seq<T>) {
    forall i, j :: 0 <= i < j < |xs| ==> xs[i] != xs[j]
  }

  // Insertion keeps equal elements in their original order, as a stable sort does.
  function Insert<T>(le: (T, T) -> bool, x: T, xs: seq<T>): (r: seq<T>)
    ensures multiset(r) == multiset(xs) + multiset{x}
  {
    if xs == [] || le(x, xs[0]) then [x] + xs
    else
      assert xs == [xs[0]] + xs[1..];
      [xs[0]] + Insert(le, x, xs[1..])
  }

  function SortSeq<T>(le: (T, T) -> bool, xs: seq<T>): (r: seq<T>)
    ensures multiset(r) == multiset(xs)
    ensures |r| == |xs|
  {
    if xs == [] then []
    else
      assert xs == [xs[0]] + xs[1..];
      var r := Insert(le, xs[0], SortSeq(le, xs[1..]));
      assert |r| == |multiset(r)|;
      r
  }

  // Sorted, and elements that compare equal keep the order in which `before` relates them.
  ghost predicate StablySorted<T>(le: (T, T) -> bool, before: (T, T) -> bool, xs: seq<T>) {
    forall i, j :: 0 <= i < j < |xs| ==> le(xs[i], xs[j]) && (le(xs[j], xs[i]) ==> before(xs[i], xs[j]))
  }

  lemma {:induction false} InsertStable<T(!new)>(le: (T, T) -> bool, before: (T, T) -> bool, x: T, xs: seq<T>)
    requires Preorder(le) && StablySorted(le, before, xs) && (forall y :: y in xs ==> before(x, y))
    ensures StablySorted(le, before, Insert(le, x, xs))
  {
    if xs != [] && !le(x, xs[0]) {
      var tail := Insert(le, x, xs[1..]);
      InsertStable(le, before, x, xs[1..]);
      forall j | 0 <= j < |tail|
        ensures le(xs[0], tail[j]) && (le(tail[j], xs[0]) ==> before(xs[0], tail[j]))
      {
        assert tail[j] in multiset(tail);
      }
    }
  }

  lemma SameMultisetSameMembers<T>(xs: seq<T>, ys: seq<T>, x: T)
    requires multiset(xs) == multiset(ys)
    ensures x in xs <==> x in ys
    ensures |xs| == |ys|
  {
    assert x in xs <==> x in multiset(xs);
    assert x in ys <==> x in multiset(ys);
    assert |xs| == |multiset(xs)| && |ys| == |multiset(ys)|;
  }

  lemma {:induction false} SortSeqStable<T(!new)>(le: (T, T) -> bool, before: (T, T) -> bool, xs: seq<T>)
    requires Preorder(le) && forall i, j :: 0 <= i < j < |xs| ==> before(xs[i], xs[j])
    ensures StablySorted(le, before, SortSeq(le, xs))
  {
    if xs != [] {
      var tail := SortSeq(le, xs[1..]);
      SortSeqStable(le, before, xs[1..]);
      forall y | y in tail ensures before(xs[0], y) { SameMultisetSameMembers(tail, xs[1..], y); }
      InsertStable(le, before, xs[0], tail);
    }
  }

  lemma SortSeqSorted<T(!new)>(le: (T, T) -> bool, xs: seq<T>)
    requires Preorder(le)
    ensures Sorted(le, SortSeq(le, xs))
  {
    SortSeqStable(le, (x, y) => true, xs);
  }

  lemma SortedHeadIsLeast<T(!new)>(le: (T, T) -> bool, xs: seq<T>, x: T)
    requires TotalOrder(le) && Sorted(le, xs) && x in xs
    ensures le(xs[0], x)
  {
    var i :| 0 <= i < |xs| && xs[i] == x;
    if i == 0 { assert le(xs[0], xs[0]); }
  }

  lemma TailMultiset<T>(xs: seq<T>)
    requires xs != []
    ensures multiset(xs[1..]) == multiset(xs) - multiset{xs[0]}
  {
    assert xs == [xs[0]] + xs[1..];
  }

  // The canonical form does not depend on the order in which elements arrived.
  lemma {:induction false} SortedIsUnique<T(!new)>(le: (T, T) -> bool, xs: seq<T>, ys: seq<T>)
    requires TotalOrder(le) && Sorted(le, xs) && Sorted(le, ys)
    requires multiset(xs) == multiset(ys)
    ensures xs == ys
  {
    if xs == [] || ys == [] {
      assert |multiset(xs)| == |xs| && |multiset(ys)| == |ys|;
    } else {
      SameMultisetSameMembers(xs, ys, xs[0]);
      SameMultisetSameMembers(xs, ys, ys[0]);
      SortedHeadIsLeast(le, xs, ys[0]);
      SortedHeadIsLeast(le, ys, xs[0]);
      TailMultiset(xs);
      TailMultiset(ys);
      SortedIsUnique(le, xs[1..], ys[1..]);
      assert xs == [xs[0]] + xs[1..] && ys == [ys[0]] + ys[1..];
    }
  }

  function Elements<T>(xs: seq<T>): (r: set<T>) {
    set x | x in xs
  }

  lemma {:induction false} DistinctCardinality<T>(xs: seq<T>)
    ensures |Elements(xs)| <= |xs|
    ensures |Elements(xs)| == |xs| <==> Distinct(xs)
  {
    if xs != [] {
      var last := xs[|xs| - 1];
      var init := xs[..|xs| - 1];
      assert xs == init + [last];
      assert Elements(xs) == Elements(init) + {last};
      DistinctCardinality(init);
      if last in init {
        assert Elements(xs) == Elements(init);
        assert !Distinct(xs) by {
          var i :| 0 <= i < |init| && init[i] == last;
          assert xs[i] == xs[|xs| - 1];
        }
      } else {
        assert Distinct(xs) <==> Distinct(init) by {
          if Distinct(init) {
            forall i, j | 0 <= i < j < |xs| ensures xs[i] != xs[j] {
              if j == |xs| - 1 { assert xs[i] in init; } else { assert xs[i] == init[i] && xs[j] == init[j]; }
            }
          }
          if Distinct(xs) {
            forall i, j | 0 <= i < j < |init| ensures init[i] != init[j] {
              assert xs[i] == init[i] && xs[j] == init[j];
            }
          }
        }
      }
    }
  }

  lemma SubsetOfEqualSize<T>(a: set<T>, b: set<T>)
    requires a <= b
    ensures |a| <= |b|
    ensures |a| == |b| ==> a == b
  {
    assert b == a + (b - a);
    assert |b| == |a| + |b - a|;
  }

  lemma {:induction false} InjectiveImage<S, T>(xs: set<S>, ys: set<T>, f: S -> T)
    requires forall x, y :: x in xs && y in xs && f(x) == f(y) ==> x == y
    requires ys == set x | x in xs :: f(x)
    ensures |xs| == |ys|
    decreases xs
  {
    if xs != {} {
      var x :| x in xs;
      var rest := xs - {x};
      var image := set y | y in rest :: f(y);
      assert f(x) !in image;
      assert ys == image + {f(x)};
      InjectiveImage(rest, image, f);
    }
  }
}
