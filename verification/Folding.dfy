/** Repeating a step, and folding a step over a list, keep what one step keeps. */
module Folding {
  function Iterate<T>(f: T -> T, w: T, n: nat): T
    decreases n
  {
    if n == 0 then w else Iterate(f, f(w), n - 1)
  }

  function Fold<T, B>(step: (T, B) -> T, w: T, items: seq<B>): T
    decreases items
  {
    if items == [] then w else Fold(step, step(w, items[0]), items[1..])
  }

  ghost predicate Injective<T(!new)>(f: T -> T) {
    forall x, y :: f(x) == f(y) ==> x == y
  }

  ghost predicate StepInjective<T(!new), B(!new)>(step: (T, B) -> T) {
    forall x, y, b :: step(x, b) == step(y, b) ==> x == y
  }

  ghost predicate Linear<T(!new)>(xor: (T, T) -> T, f: T -> T) {
    forall x, y :: f(xor(x, y)) == xor(f(x), f(y))
  }

  ghost predicate StepLinear<T(!new)>(xor: (T, T) -> T, step: (T, T) -> T) {
    forall x, y, b, c :: step(xor(x, y), xor(b, c)) == xor(step(x, b), step(y, c))
  }

  lemma {:induction false} IterateInjective<T(!new)>(f: T -> T, x: T, y: T, n: nat)
    requires Injective(f) && Iterate(f, x, n) == Iterate(f, y, n)
    ensures x == y
    decreases n
  {
    if n > 0 { IterateInjective(f, f(x), f(y), n - 1); }
  }

  lemma {:induction false} IterateLinear<T(!new)>(xor: (T, T) -> T, f: T -> T, x: T, y: T, n: nat)
    requires Linear(xor, f)
    ensures Iterate(f, xor(x, y), n) == xor(Iterate(f, x, n), Iterate(f, y, n))
    decreases n
  {
    if n > 0 {
      assert f(xor(x, y)) == xor(f(x), f(y));
      IterateLinear(xor, f, f(x), f(y), n - 1);
    }
  }

  lemma {:induction false} FoldInjective<T(!new), B(!new)>(step: (T, B) -> T, x: T, y: T, items: seq<B>)
    requires StepInjective(step) && Fold(step, x, items) == Fold(step, y, items)
    ensures x == y
    decreases items
  {
    if items != [] { FoldInjective(step, step(x, items[0]), step(y, items[0]), items[1..]); }
  }

  lemma {:induction false} FoldAppend<T, B>(step: (T, B) -> T, w: T, p: seq<B>, q: seq<B>)
    ensures Fold(step, w, p + q) == Fold(step, Fold(step, w, p), q)
    decreases p
  {
    if p == [] {
      assert p + q == q;
    } else {
      FoldAppend(step, step(w, p[0]), p[1..], q);
      assert (p + q)[1..] == p[1..] + q;
    }
  }

  /** The lists combined position by position. */
  function Zip<T>(xor: (T, T) -> T, u: seq<T>, v: seq<T>): (r: seq<T>)
    requires |u| == |v|
    ensures |r| == |u| && forall i :: 0 <= i < |u| ==> r[i] == xor(u[i], v[i])
  {
    if u == [] then [] else [xor(u[0], v[0])] + Zip(xor, u[1..], v[1..])
  }

  lemma {:induction false} FoldLinear<T(!new)>(xor: (T, T) -> T, step: (T, T) -> T, x: T, y: T, u: seq<T>, v: seq<T>)
    requires StepLinear(xor, step) && |u| == |v|
    ensures Fold(step, xor(x, y), Zip(xor, u, v)) == xor(Fold(step, x, u), Fold(step, y, v))
    decreases |u|
  {
    if u != [] {
      assert step(xor(x, y), xor(u[0], v[0])) == xor(step(x, u[0]), step(y, v[0]));
      FoldLinear(xor, step, step(x, u[0]), step(y, v[0]), u[1..], v[1..]);
      assert Zip(xor, u, v)[1..] == Zip(xor, u[1..], v[1..]);
    }
  }
}
