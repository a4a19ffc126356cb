/** Lists in which the first element with a key decides. Environment variables (keyed by name) and
    Maven dependencies (keyed by group and artifact) are both kept in such lists. */
module FirstWins {
  import opened Outcomes

  /** The first element with key `k`. */
  function Find<T, K(==)>(xs: seq<T>, key: T -> K, k: K): (r: Option<T>)
    ensures r.Some? ==> key(r.value) == k && r.value in xs
    ensures r.None? ==> forall i :: 0 <= i < |xs| ==> key(xs[i]) != k
  {
    if xs == [] then None
    else if key(xs[0]) == k then Some(xs[0])
    else Find(xs[1..], key, k)
  }

  /** The elements whose key is not `k`, in their order. */
  function Without<T, K(==)>(xs: seq<T>, key: T -> K, k: K): (r: seq<T>)
    ensures |r| <= |xs|
    ensures forall i :: 0 <= i < |r| ==> r[i] in xs && key(r[i]) != k
    ensures forall i :: 0 <= i < |xs| && key(xs[i]) != k ==> xs[i] in r
  {
    if xs == [] then []
    else (if key(xs[0]) == k then [] else [xs[0]]) + Without(xs[1..], key, k)
  }

  predicate Unique<T, K(==)>(xs: seq<T>, key: T -> K) {
    forall i, j :: 0 <= i < j < |xs| ==> key(xs[i]) != key(xs[j])
  }

  /** What a loop builds that appends every element whose key it has not met yet. */
  function Distinct<T, K(==)>(xs: seq<T>, key: T -> K): seq<T> {
    if xs == [] then []
    else
      var d, x := Distinct(xs[..|xs| - 1], key), xs[|xs| - 1];
      if Find(d, key, key(x)).None? then d + [x] else d
  }

  /** Appends `x` unless its key is taken. */
  function AddNew<T, K(==)>(xs: seq<T>, key: T -> K, x: T): seq<T> {
    if Find(xs, key, key(x)).None? then xs + [x] else xs
  }

  lemma {:induction false} FindConcat<T, K>(xs: seq<T>, ys: seq<T>, key: T -> K, k: K)
    ensures Find(xs + ys, key, k) == Find(xs, key, k).OrElse(Find(ys, key, k))
  {
    if xs == [] {
      assert xs + ys == ys;
    } else {
      assert (xs + ys)[1..] == xs[1..] + ys;
      FindConcat(xs[1..], ys, key, k);
    }
  }

  /** Where the keys are unique, every element is found. */
  lemma {:induction false} FindUnique<T, K>(xs: seq<T>, key: T -> K, i: nat)
    requires Unique(xs, key) && i < |xs|
    ensures Find(xs, key, key(xs[i])) == Some(xs[i])
  {
    if i > 0 {
      assert key(xs[0]) != key(xs[i]);
      FindUnique(xs[1..], key, i - 1);
    }
  }

  /** Dropping later duplicates changes no lookup. */
  lemma {:induction false} FindDistinct<T, K>(xs: seq<T>, key: T -> K, k: K)
    ensures Find(Distinct(xs, key), key, k) == Find(xs, key, k)
  {
    if xs != [] {
      var front, x := xs[..|xs| - 1], xs[|xs| - 1];
      FindDistinct(front, key, k);
      FindDistinct(front, key, key(x));
      assert xs == front + [x];
      FindConcat(front, [x], key, k);
      FindConcat(Distinct(front, key), [x], key, k);
    }
  }

  lemma {:induction false} DistinctIsUnique<T, K>(xs: seq<T>, key: T -> K)
    ensures Unique(Distinct(xs, key), key)
  {
    if xs != [] {
      DistinctIsUnique(xs[..|xs| - 1], key);
    }
  }

  lemma {:induction false} DistinctOfUnique<T, K>(xs: seq<T>, key: T -> K)
    requires Unique(xs, key)
    ensures Distinct(xs, key) == xs
  {
    if xs != [] {
      var front := xs[..|xs| - 1];
      DistinctOfUnique(front, key);
      assert xs == front + [xs[|xs| - 1]];
    }
  }

  /** Distinct can be taken of the first part first. */
  lemma {:induction false} DistinctOfFront<T, K>(xs: seq<T>, ys: seq<T>, key: T -> K)
    ensures Distinct(xs + ys, key) == Distinct(Distinct(xs, key) + ys, key)
  {
    var d := Distinct(xs, key);
    if ys == [] {
      assert xs + ys == xs && d + ys == d;
      DistinctIsUnique(xs, key);
      DistinctOfUnique(d, key);
    } else {
      var front := ys[..|ys| - 1];
      assert (xs + ys)[..|xs + ys| - 1] == xs + front;
      assert (d + ys)[..|d + ys| - 1] == d + front;
      DistinctOfFront(xs, front, key);
    }
  }

  /** Distinct can be taken of the second part first. */
  lemma {:induction false} DistinctOfBack<T, K>(xs: seq<T>, ys: seq<T>, key: T -> K)
    ensures Distinct(xs + ys, key) == Distinct(xs + Distinct(ys, key), key)
  {
    if ys != [] {
      var front, y := ys[..|ys| - 1], ys[|ys| - 1];
      var d := Distinct(front, key);
      assert (xs + ys)[..|xs + ys| - 1] == xs + front;
      DistinctOfBack(xs, front, key);
      if Find(d, key, key(y)).None? {
        assert Distinct(ys, key) == d + [y];
        assert (xs + (d + [y]))[..|xs + d|] == xs + d;
      } else {
        FindConcat(xs, d, key, key(y));
        FindDistinct(xs + d, key, key(y));
      }
    }
  }

  lemma {:induction false} WithoutConcat<T, K>(xs: seq<T>, ys: seq<T>, key: T -> K, k: K)
    ensures Without(xs + ys, key, k) == Without(xs, key, k) + Without(ys, key, k)
  {
    if xs == [] {
      assert xs + ys == ys;
    } else {
      assert (xs + ys)[1..] == xs[1..] + ys;
      WithoutConcat(xs[1..], ys, key, k);
    }
  }

  lemma DistinctSnoc<T, K>(xs: seq<T>, x: T, key: T -> K)
    ensures Distinct(xs + [x], key) == AddNew(Distinct(xs, key), key, x)
  {
    assert (xs + [x])[..|xs + [x]| - 1] == xs;
  }

  lemma AddNewBehind<T, K>(h: T, xs: seq<T>, x: T, key: T -> K)
    ensures AddNew([h] + xs, key, x) == if key(h) == key(x) then [h] + xs else [h] + AddNew(xs, key, x)
  {
    assert ([h] + xs)[1..] == xs;
    assert ([h] + xs) + [x] == [h] + (xs + [x]);
  }

  lemma WithoutSnoc<T, K>(xs: seq<T>, x: T, key: T -> K, k: K)
    ensures Without(xs + [x], key, k) == if key(x) == k then Without(xs, key, k) else Without(xs, key, k) + [x]
  {
    WithoutConcat(xs, [x], key, k);
    assert [x][1..] == [];
    assert Without(xs, key, k) + [] == Without(xs, key, k);
  }

  /** First-occurrence order: the head stays, and what follows is what remains once its key is struck
      out. With the empty case this determines Distinct. */
  lemma {:induction false} DistinctFromHead<T, K>(xs: seq<T>, key: T -> K)
    requires xs != []
    ensures Distinct(xs, key) == [xs[0]] + Distinct(Without(xs[1..], key, key(xs[0])), key)
  {
    var h, k := xs[0], key(xs[0]);
    if |xs| == 1 {
      assert xs[..0] == [];
    } else {
      var front, x := xs[..|xs| - 1], xs[|xs| - 1];
      var mid := front[1..];
      var w := Without(mid, key, k);
      DistinctFromHead(front, key);
      assert xs == front + [x] && xs[1..] == mid + [x];
      DistinctSnoc(front, x, key);
      AddNewBehind(h, Distinct(w, key), x, key);
      WithoutSnoc(mid, x, key, k);
      DistinctSnoc(w, x, key);
    }
  }
}
