/** Distinct sequences and the enumeration of a finite set in an unspecified order,
    which is how iteration over a Rust `HashSet` or `HashMap` is modelled. */
module Sets {

  predicate Distinct<T(==,!new)>(xs: seq<T>) {
    forall i, j :: 0 <= i < j < |xs| ==> xs[i] != xs[j]
  }

  /** A key that grows along the sequence tells its elements apart. */
  lemma IncreasingDistinct<T(!new)>(xs: seq<T>, key: T -> int)
    requires forall i :: 0 < i < |xs| ==> key(xs[i - 1]) < key(xs[i])
    ensures Distinct(xs)
  {
    forall i, j | 0 <= i < j < |xs| ensures xs[i] != xs[j] {
      IncreasingBetween(xs, key, i, j);
    }
  }

  lemma {:induction false} IncreasingBetween<T(!new)>(xs: seq<T>, key: T -> int, i: nat, j: nat)
    requires forall k :: 0 < k < |xs| ==> key(xs[k - 1]) < key(xs[k])
    requires i < j < |xs|
    ensures key(xs[i]) < key(xs[j])
    decreases j - i
  {
    if i + 1 < j {
      IncreasingBetween(xs, key, i, j - 1);
    }
  }

  /** Two sequences without repeats and without common elements make one. */
  lemma DistinctConcat<T(!new)>(a: seq<T>, b: seq<T>)
    requires Distinct(a) && Distinct(b)
    requires forall x :: x in a ==> x !in b
    ensures Distinct(a + b)
  {
    var ab := a + b;
    forall i, j | 0 <= i < j < |ab| ensures ab[i] != ab[j] {
      if j < |a| {
        assert ab[i] == a[i] && ab[j] == a[j];
      } else if i < |a| {
        assert ab[i] == a[i] && ab[j] == b[j - |a|];
        assert a[i] in a && b[j - |a|] in b;
      } else {
        assert ab[i] == b[i - |a|] && ab[j] == b[j - |a|];
      }
    }
  }

  /** `xs` lists every element of `s` exactly once. */
  predicate IsEnumeration<T(==,!new)>(xs: seq<T>, s: set<T>) {
    Distinct(xs) && (forall x :: x in xs ==> x in s) && (forall x :: x in s ==> x in xs)
  }

  lemma {:induction false} EnumerationSize<T(!new)>(xs: seq<T>, s: set<T>)
    requires IsEnumeration(xs, s)
    ensures |xs| == |s|
    decreases |xs|
  {
    if xs != [] {
      var init := xs[..|xs| - 1];
      var last := xs[|xs| - 1];
      assert xs == init + [last];
      assert last !in init;
      assert IsEnumeration(init, s - {last});
      EnumerationSize(init, s - {last});
    } else {
      assert forall x :: x !in s;
      assert s == {};
    }
  }

  /** The elements of `s`, one by one, in an order the model does not fix. */
  method Enumerate<T(==,!new)>(s: set<T>) returns (xs: seq<T>)
    ensures IsEnumeration(xs, s)
    ensures |xs| == |s|
  {
    xs := [];
    var rest := s;
    while rest != {}
      invariant rest <= s
      invariant Distinct(xs)
      invariant forall x :: x in xs <==> x in s && x !in rest
      decreases |rest|
    {
      var x :| x in rest;
      xs := xs + [x];
      rest := rest - {x};
    }
    EnumerationSize(xs, s);
  }

  /** The images under `make` of the elements `keep` accepts, in their order
      (a `for` loop that pushes one item per accepted element). */
  function FilterMap<T, U>(xs: seq<T>, keep: T -> bool, make: T -> U): (r: seq<U>)
    ensures |r| <= |xs|
    decreases |xs|
  {
    if xs == [] then []
    else FilterMap(xs[..|xs| - 1], keep, make) + (if keep(xs[|xs| - 1]) then [make(xs[|xs| - 1])] else [])
  }

  lemma FilterMapSingle<T, U>(x: T, keep: T -> bool, make: T -> U)
    ensures FilterMap([x], keep, make) == if keep(x) then [make(x)] else []
  {
    assert [x][..0] == [];
  }

  lemma {:induction false} FilterMapMembers<T, U>(xs: seq<T>, keep: T -> bool, make: T -> U)
    ensures forall y :: y in FilterMap(xs, keep, make) <==> exists x :: x in xs && keep(x) && y == make(x)
    decreases |xs|
  {
    if xs != [] {
      var init, last := xs[..|xs| - 1], xs[|xs| - 1];
      FilterMapMembers(init, keep, make);
      assert xs == init + [last];
      forall y ensures y in FilterMap(xs, keep, make) <==> exists x :: x in xs && keep(x) && y == make(x) {
        if y in FilterMap(init, keep, make) {
          var x :| x in init && keep(x) && y == make(x);
          assert x in xs;
        }
        if exists x :: x in xs && keep(x) && y == make(x) {
          var x :| x in xs && keep(x) && y == make(x);
          if x != last {
            assert x in init;
          }
        }
      }
    }
  }
}
