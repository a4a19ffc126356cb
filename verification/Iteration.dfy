/** Applying a function again and again. */
module Iteration {
  function Iterated<T>(f: T -> T, x: T, n: nat): T
    decreases n
  {
    if n == 0 then x else Iterated(f, f(x), n - 1)
  }

  lemma {:induction false} FixedForever<T>(f: T -> T, x: T, n: nat)
    requires f(x) == x
    ensures Iterated(f, x, n) == x
    decreases n
  {
    if n > 0 {
      FixedForever(f, x, n - 1);
    }
  }

  /** What `f` keeps, any number of steps keep. */
  lemma {:induction false} KeptForever<T(!new)>(f: T -> T, kept: T -> bool, x: T, n: nat)
    requires kept(x) && forall y :: kept(y) ==> kept(f(y))
    ensures kept(Iterated(f, x, n))
    decreases n
  {
    if n > 0 {
      KeptForever(f, kept, f(x), n - 1);
    }
  }

  lemma IteratedOnce<T>(f: T -> T, x: T, n: nat)
    ensures Iterated(f, x, n + 1) == Iterated(f, f(x), n)
  {}

  /** A fixed point behind `x`, `y` and `z`. */
  lemma Settles<T>(f: T -> T, x: T, y: T, z: T, n: nat)
    requires f(f(x)) == y && f(y) == z == f(z)
    ensures n >= 2 ==> Iterated(f, x, n) == if n == 2 then y else z
  {
    if n >= 2 {
      IteratedOnce(f, x, n - 1);
      IteratedOnce(f, f(x), n - 2);
      if n > 2 {
        IteratedOnce(f, y, n - 3);
        FixedForever(f, z, n - 3);
      }
    }
  }
}
