/** What sort.SliceStable promises, and that the promise determines the result. */
module StableSorting {

  /** `less` is a strict weak order: asymmetric, with a transitive "not after". */
  ghost predicate StrictWeak<T(!new)>(less: (T, T) -> bool) {
    && (forall a, b {:trigger less(a, b)} :: less(a, b) ==> !less(b, a))
    && (forall a, b, c {:trigger less(b, a), less(c, b)} :: !less(b, a) && !less(c, b) ==> !less(c, a))
  }

  predicate Same<T>(less: (T, T) -> bool, a: T, b: T) { !less(a, b) && !less(b, a) }

  predicate Sorted<T>(less: (T, T) -> bool, xs: seq<T>) {
    forall i, j | 0 <= i < j < |xs| :: !less(xs[j], xs[i])
  }

  /** The elements that `less` does not tell from `t`, in order. */
  function ClassOf<T>(less: (T, T) -> bool, t: T, xs: seq<T>): seq<T> {
    if xs == [] then []
    else if Same(less, t, xs[0]) then [xs[0]] + ClassOf(less, t, xs[1..])
    else ClassOf(less, t, xs[1..])
  }

  /** Sorted, and each class of equals is as it was. */
  ghost predicate IsStableSort<T(!new)>(less: (T, T) -> bool, xs: seq<T>, ys: seq<T>) {
    Sorted(less, ys) && forall t :: ClassOf(less, t, ys) == ClassOf(less, t, xs)
  }

  /** `x` goes in front of the first element that must follow it. */
  function Insert<T>(less: (T, T) -> bool, x: T, ys: seq<T>): seq<T> {
    if ys == [] then [x]
    else if less(ys[0], x) || Same(less, ys[0], x) then [ys[0]] + Insert(less, x, ys[1..])
    else [x] + ys
  }

  function StableSort<T>(less: (T, T) -> bool, xs: seq<T>): (ys: seq<T>) {
    if xs == [] then [] else Insert(less, xs[|xs| - 1], StableSort(less, xs[..|xs| - 1]))
  }

  lemma ClassOfCons<T>(less: (T, T) -> bool, t: T, x: T, xs: seq<T>)
    ensures ClassOf(less, t, [x] + xs) == if Same(less, t, x) then [x] + ClassOf(less, t, xs) else ClassOf(less, t, xs)
  {
    assert ([x] + xs)[1..] == xs;
  }

  lemma {:induction false} ClassOfConcat<T>(less: (T, T) -> bool, t: T, xs: seq<T>, ys: seq<T>)
    ensures ClassOf(less, t, xs + ys) == ClassOf(less, t, xs) + ClassOf(less, t, ys)
  {
    if xs == [] {
      assert xs + ys == ys;
    } else {
      assert xs + ys == [xs[0]] + (xs[1..] + ys);
      ClassOfConcat(less, t, xs[1..], ys);
      ClassOfCons(less, t, xs[0], xs[1..] + ys);
    }
  }

  lemma {:induction false} ClassOfMembers<T(!new)>(less: (T, T) -> bool, t: T, xs: seq<T>, x: T)
    ensures x in ClassOf(less, t, xs) <==> x in xs && Same(less, t, x)
  {
    if xs == [] {
    } else {
      ClassOfMembers(less, t, xs[1..], x);
      assert x in xs <==> x == xs[0] || x in xs[1..];
    }
  }

  lemma {:induction false} InsertMembers<T(!new)>(less: (T, T) -> bool, x: T, ys: seq<T>, z: T)
    ensures z in Insert(less, x, ys) <==> z == x || z in ys
  {
    if ys == [] {
    } else {
      assert z in ys <==> z == ys[0] || z in ys[1..];
      if less(ys[0], x) || Same(less, ys[0], x) {
        InsertMembers(less, x, ys[1..], z);
      }
    }
  }

  lemma SortedCons<T(!new)>(less: (T, T) -> bool, x: T, ys: seq<T>)
    requires Sorted(less, ys) && forall y <- ys :: !less(y, x)
    ensures Sorted(less, [x] + ys)
  {
    forall i, j | 0 <= i < j < |ys| + 1 ensures !less(([x] + ys)[j], ([x] + ys)[i]) {
      assert ([x] + ys)[j] == ys[j - 1] && ys[j - 1] in ys;
    }
  }

  lemma {:induction false} InsertSorted<T(!new)>(less: (T, T) -> bool, x: T, ys: seq<T>)
    requires StrictWeak(less) && Sorted(less, ys)
    ensures Sorted(less, Insert(less, x, ys))
  {
    if ys == [] {
    } else {
      var rest := ys[1..];
      assert forall y <- rest :: !less(y, ys[0]);
      if less(ys[0], x) || Same(less, ys[0], x) {
        InsertSorted(less, x, rest);
        forall z | z in Insert(less, x, rest) ensures !less(z, ys[0]) {
          InsertMembers(less, x, rest, z);
        }
        SortedCons(less, ys[0], Insert(less, x, rest));
      } else {
        assert less(x, ys[0]);
        forall y | y in ys ensures !less(y, x) {
          assert y == ys[0] || y in rest;
        }
        SortedCons(less, x, ys);
      }
    }
  }

  lemma {:induction false} InsertStable<T(!new)>(less: (T, T) -> bool, x: T, ys: seq<T>, t: T)
    requires StrictWeak(less) && Sorted(less, ys)
    ensures ClassOf(less, t, Insert(less, x, ys)) == ClassOf(less, t, ys + [x])
  {
    ClassOfConcat(less, t, ys, [x]);
    ClassOfCons(less, t, x, []);
    assert [x] + [] == [x];
    if ys == [] {
    } else {
      var rest := ys[1..];
      if less(ys[0], x) || Same(less, ys[0], x) {
        InsertStable(less, x, rest, t);
        ClassOfConcat(less, t, rest, [x]);
        ClassOfCons(less, t, ys[0], Insert(less, x, rest));
      } else {
        ClassOfCons(less, t, x, ys);
        if Same(less, t, x) {
          NobodyEqual(less, t, x, ys);
        }
      }
    }
  }

  lemma {:induction false} NobodyEqual<T(!new)>(less: (T, T) -> bool, t: T, x: T, ys: seq<T>)
    requires StrictWeak(less) && Sorted(less, ys) && Same(less, t, x)
    requires ys != [] ==> less(x, ys[0])
    ensures ClassOf(less, t, ys) == []
  {
    if ys == [] {
    } else {
      assert !Same(less, t, ys[0]);
      NobodyEqual(less, t, x, ys[1..]);
    }
  }

  /** The function is a stable sort. */
  lemma {:induction false} StableSortIsStable<T(!new)>(less: (T, T) -> bool, xs: seq<T>)
    requires StrictWeak(less)
    ensures IsStableSort(less, xs, StableSort(less, xs))
  {
    if xs == [] {
    } else {
      var init, x := xs[..|xs| - 1], xs[|xs| - 1];
      StableSortIsStable(less, init);
      InsertSorted(less, x, StableSort(less, init));
      forall t ensures ClassOf(less, t, StableSort(less, xs)) == ClassOf(less, t, xs) {
        InsertStable(less, x, StableSort(less, init), t);
        ClassOfConcat(less, t, StableSort(less, init), [x]);
        ClassOfConcat(less, t, init, [x]);
        assert xs == init + [x];
      }
    }
  }

  /** Two sorted lists with the same classes are the same list. */
  lemma {:induction false} SameClassesSameList<T(!new)>(less: (T, T) -> bool, ys: seq<T>, zs: seq<T>)
    requires StrictWeak(less) && Sorted(less, ys) && Sorted(less, zs)
    requires forall t :: ClassOf(less, t, ys) == ClassOf(less, t, zs)
    ensures ys == zs
  {
    if zs == [] {
    } else {
      assert ClassOf(less, zs[0], zs)[0] == zs[0];
    }
    if ys == [] {
    } else {
      var y := ys[0];
      assert ClassOf(less, y, ys)[0] == y;
      ClassOfMembers(less, y, zs, y);
      var z := zs[0];
      assert ClassOf(less, z, zs)[0] == z;
      ClassOfMembers(less, z, ys, z);
      assert !less(z, y) && !less(y, z);
      assert ClassOf(less, y, zs)[0] == z;
      assert y == z;
      forall t ensures ClassOf(less, t, ys[1..]) == ClassOf(less, t, zs[1..]) {
        assert ClassOf(less, t, ys) == ClassOf(less, t, zs);
        if Same(less, t, y) {
          assert ClassOf(less, t, ys)[1..] == ClassOf(less, t, ys[1..]);
          assert ClassOf(less, t, zs)[1..] == ClassOf(less, t, zs[1..]);
        }
      }
      SameClassesSameList(less, ys[1..], zs[1..]);
    }
  }

  /** Any stable sort gives this result. */
  lemma StableSortIsUnique<T(!new)>(less: (T, T) -> bool, xs: seq<T>, ys: seq<T>)
    requires StrictWeak(less)
    ensures IsStableSort(less, xs, ys) <==> ys == StableSort(less, xs)
  {
    StableSortIsStable(less, xs);
    if IsStableSort(less, xs, ys) {
      forall t ensures ClassOf(less, t, ys) == ClassOf(less, t, StableSort(less, xs)) {
        assert ClassOf(less, t, ys) == ClassOf(less, t, xs);
      }
      SameClassesSameList(less, ys, StableSort(less, xs));
    }
  }

  lemma SortMembers<T(!new)>(less: (T, T) -> bool, xs: seq<T>, x: T)
    requires StrictWeak(less)
    ensures x in StableSort(less, xs) <==> x in xs
  {
    StableSortIsStable(less, xs);
    ClassOfMembers(less, x, xs, x);
    ClassOfMembers(less, x, StableSort(less, xs), x);
    assert ClassOf(less, x, StableSort(less, xs)) == ClassOf(less, x, xs);
  }

  lemma {:induction false} InsertLength<T>(less: (T, T) -> bool, x: T, ys: seq<T>)
    ensures |Insert(less, x, ys)| == |ys| + 1
  {
    if ys == [] {
    } else {
      InsertLength(less, x, ys[1..]);
    }
  }

  lemma {:induction false} SortLength<T>(less: (T, T) -> bool, xs: seq<T>)
    ensures |StableSort(less, xs)| == |xs|
  {
    if xs == [] {
    } else {
      SortLength(less, xs[..|xs| - 1]);
      InsertLength(less, xs[|xs| - 1], StableSort(less, xs[..|xs| - 1]));
    }
  }

  // ------------------------------------------------------------------ order among equals

  /** In the stable sort of a + b, an element from b never precedes an equal one from a: `fromB` marks the former. */
  lemma TiesKeepOrder<T(!new)>(less: (T, T) -> bool, fromB: T -> bool, a: seq<T>, b: seq<T>, i: nat, j: nat)
    requires StrictWeak(less)
    requires (forall x <- a :: !fromB(x)) && (forall x <- b :: fromB(x))
    requires i < j < |StableSort(less, a + b)|
    requires Same(less, StableSort(less, a + b)[i], StableSort(less, a + b)[j]) && fromB(StableSort(less, a + b)[i])
    ensures fromB(StableSort(less, a + b)[j])
  {
    var ys := StableSort(less, a + b);
    var t := ys[i];
    var ca, cb := ClassOf(less, t, a), ClassOf(less, t, b);
    assert ClassOf(less, t, ys) == ca + cb by {
      StableSortIsStable(less, a + b);
      ClassOfConcat(less, t, a, b);
    }
    var p, q := ClassPositions(less, t, ys, i, j);
    forall x | x in ca ensures !fromB(x) { ClassOfMembers(less, t, a, x); }
    forall x | x in cb ensures fromB(x) { ClassOfMembers(less, t, b, x); }
    SecondPart(fromB, ca, cb, p, q);
  }

  lemma SecondPart<T>(fromB: T -> bool, a: seq<T>, b: seq<T>, p: nat, q: nat)
    requires (forall x <- a :: !fromB(x)) && (forall x <- b :: fromB(x))
    requires p < q < |a + b| && fromB((a + b)[p])
    ensures fromB((a + b)[q])
  {
    forall i | 0 <= i < |a| ensures !fromB(a[i]) { assert a[i] in a; }
    assert (a + b)[q] == b[q - |a|];
  }

  /** Members of one class keep their relative order in it. */
  lemma {:induction false} ClassPositions<T(!new)>(less: (T, T) -> bool, t: T, ys: seq<T>, i: nat, j: nat)
    returns (p: nat, q: nat)
    requires i < j < |ys| && Same(less, t, ys[i]) && Same(less, t, ys[j])
    ensures p < q < |ClassOf(less, t, ys)| && ClassOf(less, t, ys)[p] == ys[i] && ClassOf(less, t, ys)[q] == ys[j]
    decreases |ys|
  {
    if i == 0 {
      p := 0;
      var q' := ClassPosition(less, t, ys[1..], j - 1);
      q := q' + 1;
    } else {
      p, q := ClassPositions(less, t, ys[1..], i - 1, j - 1);
      if Same(less, t, ys[0]) {
        p, q := p + 1, q + 1;
      }
    }
  }

  lemma {:induction false} ClassPosition<T(!new)>(less: (T, T) -> bool, t: T, ys: seq<T>, j: nat) returns (q: nat)
    requires j < |ys| && Same(less, t, ys[j])
    ensures q < |ClassOf(less, t, ys)| && ClassOf(less, t, ys)[q] == ys[j]
    decreases |ys|
  {
    if j == 0 {
      q := 0;
    } else {
      q := ClassPosition(less, t, ys[1..], j - 1);
      if Same(less, t, ys[0]) {
        q := q + 1;
      }
    }
  }
}
