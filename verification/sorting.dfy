/** Sorting by a strict order, and why the result does not depend on where one starts. */
module Sorting {
  import opened Lists

  ghost predicate Ordering<T(!new)>(less: (T, T) -> bool) {
    && (forall x :: !less(x, x))
    && (forall x, y, z :: less(x, y) && less(y, z) ==> less(x, z))
  }

  /** Of two different elements one comes first. */
  ghost predicate Comparable<T(!new)>(less: (T, T) -> bool, xs: seq<T>) {
    forall x, y :: x in xs && y in xs ==> x == y || less(x, y) || less(y, x)
  }

  ghost predicate Sorted<T>(less: (T, T) -> bool, xs: seq<T>) {
    forall i, j :: 0 <= i < j < |xs| ==> xs[i] == xs[j] || less(xs[i], xs[j])
  }

  /** Where a new element goes. */
  method Slot<T(==, !new)>(less: (T, T) -> bool, xs: seq<T>, x: T) returns (k: nat)
    requires forall y :: y in xs ==> x == y || less(x, y) || less(y, x)
    ensures k <= |xs| && (k > 0 ==> xs[k - 1] == x || less(xs[k - 1], x))
    ensures forall a :: k <= a < |xs| ==> less(x, xs[a])
  {
    k := |xs|;
    while k > 0 && less(x, xs[k - 1])
      invariant 0 <= k <= |xs| && forall a :: k <= a < |xs| ==> less(x, xs[a])
    {
      k := k - 1;
    }
  }

  method Insert<T(==, !new)>(less: (T, T) -> bool, xs: seq<T>, x: T) returns (ys: seq<T>)
    requires Ordering(less) && Sorted(less, xs)
    requires forall y :: y in xs ==> x == y || less(x, y) || less(y, x)
    ensures Sorted(less, ys) && multiset(ys) == multiset(xs) + multiset{x}
  {
    var k := Slot(less, xs, x);
    ys := xs[..k] + [x] + xs[k..];
    Slotted(less, xs, k, x);
  }

  lemma {:induction false} Slotted<T(!new)>(less: (T, T) -> bool, xs: seq<T>, k: nat, x: T)
    requires Ordering(less) && Sorted(less, xs) && k <= |xs|
    requires k > 0 ==> xs[k - 1] == x || less(xs[k - 1], x)
    requires forall a :: k <= a < |xs| ==> less(x, xs[a])
    ensures Sorted(less, xs[..k] + [x] + xs[k..])
    ensures multiset(xs[..k] + [x] + xs[k..]) == multiset(xs) + multiset{x}
  {
    assert xs == xs[..k] + xs[k..];
    Inserted(less, xs[..k], x, xs[k..]);
    Counted(xs[..k], x, xs[k..]);
  }

  lemma {:induction false} Counted<T>(front: seq<T>, x: T, back: seq<T>)
    ensures multiset(front + [x] + back) == multiset(front + back) + multiset{x}
  {
  }

  lemma {:induction false} Inserted<T(!new)>(less: (T, T) -> bool, front: seq<T>, x: T, back: seq<T>)
    requires Ordering(less) && Sorted(less, front + back)
    requires front != [] ==> front[|front| - 1] == x || less(front[|front| - 1], x)
    requires forall a :: 0 <= a < |back| ==> less(x, back[a])
    ensures Sorted(less, front + [x] + back)
  {
    var xs, ys := front + back, front + [x] + back;
    forall a | 0 <= a < |front| ensures front[a] == x || less(front[a], x) {
      assert xs[a] == front[a] && xs[|front| - 1] == front[|front| - 1];
    }
    forall i, j | 0 <= i < j < |ys| ensures ys[i] == ys[j] || less(ys[i], ys[j]) {
      var k := |front|;
      if i != k && j != k {
        assert ys[i] == xs[if i < k then i else i - 1] && ys[j] == xs[if j < k then j else j - 1];
      }
    }
  }

  method Sort<T(==, !new)>(less: (T, T) -> bool, xs: seq<T>) returns (ys: seq<T>)
    requires Ordering(less) && Comparable(less, xs)
    ensures Sorted(less, ys) && multiset(ys) == multiset(xs)
  {
    ys := [];
    for i := 0 to |xs|
      invariant Sorted(less, ys) && multiset(ys) == multiset(xs[..i])
    {
      OneMore(xs, i);
      NextComparable(less, xs, i, ys);
      ys := Insert(less, ys, xs[i]);
    }
    All(xs);
  }

  lemma {:induction false} NextComparable<T(!new)>(less: (T, T) -> bool, xs: seq<T>, i: nat, ys: seq<T>)
    requires Comparable(less, xs) && i < |xs| && multiset(ys) == multiset(xs[..i])
    ensures forall y :: y in ys ==> xs[i] == y || less(xs[i], y) || less(y, xs[i])
  {
    forall y | y in ys ensures y in xs {
      assert y in multiset(xs[..i]);
    }
    assert xs[i] in xs;
  }

  lemma {:induction false} LessComesFirst<T(!new)>(less: (T, T) -> bool, xs: seq<T>, i: nat, k: nat)
    requires Ordering(less) && Sorted(less, xs) && i < |xs| && k < |xs| && less(xs[i], xs[k])
    ensures i < k
  {
  }

  lemma {:induction false} FirstIsLeast<T(!new)>(less: (T, T) -> bool, xs: seq<T>, x: T)
    requires Sorted(less, xs) && x in xs
    ensures x == xs[0] || less(xs[0], x)
  {
  }

  lemma {:induction false} Tail<T>(xs: seq<T>)
    requires xs != []
    ensures multiset(xs[1..]) == multiset(xs) - multiset{xs[0]}
  {
    assert xs == [xs[0]] + xs[1..];
  }

  lemma {:induction false} SameSize<T>(xs: seq<T>, ys: seq<T>)
    requires multiset(xs) == multiset(ys)
    ensures |xs| == |ys|
    ensures xs != [] ==> xs[0] in ys && ys[0] in xs
  {
    assert |xs| == |multiset(xs)| == |multiset(ys)| == |ys|;
    if xs != [] {
      assert ys[0] in multiset(ys) && xs[0] in multiset(xs);
    }
  }

  /** One collection has one sorted form. */
  lemma {:induction false} SortedUnique<T(!new)>(less: (T, T) -> bool, xs: seq<T>, ys: seq<T>)
    requires Ordering(less) && Sorted(less, xs) && Sorted(less, ys) && multiset(xs) == multiset(ys)
    ensures xs == ys
    decreases |xs|
  {
    SameSize(xs, ys);
    if xs != [] {
      FirstIsLeast(less, xs, ys[0]);
      FirstIsLeast(less, ys, xs[0]);
      assert xs[0] == ys[0];
      Tail(xs);
      Tail(ys);
      SortedUnique(less, xs[1..], ys[1..]);
      assert xs == [xs[0]] + xs[1..] && ys == [ys[0]] + ys[1..];
    }
  }

  // ----- text -----

  /** Text in the order of its characters. */
  predicate TextLess(a: string, b: string) {
    if b == "" then false
    else if a == "" then true
    else a[0] < b[0] || (a[0] == b[0] && TextLess(a[1..], b[1..]))
  }

  lemma {:induction false} TextOrder(a: string, b: string, c: string)
    ensures !TextLess(a, a)
    ensures TextLess(a, b) && TextLess(b, c) ==> TextLess(a, c)
    ensures a == b || TextLess(a, b) || TextLess(b, a)
    decreases |a| + |b| + |c|
  {
    if a != "" && b != "" && c != "" {
      TextOrder(a[1..], b[1..], c[1..]);
      assert a == [a[0]] + a[1..] && b == [b[0]] + b[1..];
    } else if a != "" && b != "" {
      TextOrder(a[1..], b[1..], "");
      assert a == [a[0]] + a[1..] && b == [b[0]] + b[1..];
    } else if a != "" {
      TextOrder(a[1..], "", "");
    }
  }

  lemma {:induction false} TextOrdering(xs: seq<string>)
    ensures Ordering(TextLess) && Comparable(TextLess, xs)
  {
    forall a: string, b: string, c: string
      ensures !TextLess(a, a) && (TextLess(a, b) && TextLess(b, c) ==> TextLess(a, c))
              && (a == b || TextLess(a, b) || TextLess(b, a))
    {
      TextOrder(a, b, c);
    }
  }
}
