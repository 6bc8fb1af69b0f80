/** Small definitions shared by every module: optional values and sums over sequences. */
module Common {

  datatype Option<+T> = None | Some(value: T)

  function Lookup<K, V>(m: map<K, V>, k: K): Option<V> {
    if k in m then Some(m[k]) else None
  }

  /** The sum of f over the elements of xs. */
  function Sum<T>(xs: seq<T>, f: T -> nat): nat {
    if xs == [] then 0 else Sum(xs[..|xs| - 1], f) + f(xs[|xs| - 1])
  }

  lemma {:induction false} SumAppend<T>(xs: seq<T>, x: T, f: T -> nat)
    ensures Sum(xs + [x], f) == Sum(xs, f) + f(x)
  {
    assert (xs + [x])[..|xs|] == xs;
  }

  lemma {:induction false} SumUpdate<T>(xs: seq<T>, i: nat, y: T, f: T -> nat)
    requires i < |xs|
    ensures Sum(xs[i := y], f) == Sum(xs, f) - f(xs[i]) + f(y)
    ensures f(xs[i]) <= Sum(xs, f)
  {
    var n := |xs| - 1;
    if i == n {
      assert xs[i := y][..n] == xs[..n];
    } else {
      assert xs[i := y][..n] == xs[..n][i := y];
      SumUpdate(xs[..n], i, y, f);
    }
  }

  lemma {:induction false} SumFirst<T>(xs: seq<T>, f: T -> nat)
    requires xs != []
    ensures Sum(xs, f) == f(xs[0]) + Sum(xs[1..], f)
  {
    var n := |xs| - 1;
    if n > 0 {
      SumFirst(xs[..n], f);
      assert xs[1..][..n - 1] == xs[..n][1..];
    }
  }

  /** Two different positions contribute independently. */
  lemma {:induction false} SumTwo<T>(xs: seq<T>, i: nat, j: nat, f: T -> nat)
    requires i < |xs| && j < |xs| && i != j
    ensures f(xs[i]) + f(xs[j]) <= Sum(xs, f)
  {
    var n := |xs| - 1;
    if i == n {
      SumUpdate(xs[..n], j, xs[j], f);
    } else if j == n {
      SumUpdate(xs[..n], i, xs[i], f);
    } else {
      SumTwo(xs[..n], i, j, f);
    }
  }

  lemma {:induction false} SumZero<T>(xs: seq<T>, f: T -> nat)
    requires forall i | 0 <= i < |xs| :: f(xs[i]) == 0
    ensures Sum(xs, f) == 0
  {
    if xs != [] {
      SumZero(xs[..|xs| - 1], f);
    }
  }

  lemma {:induction false} SumPositive<T>(xs: seq<T>, f: T -> nat) returns (i: nat)
    requires Sum(xs, f) > 0
    ensures i < |xs| && f(xs[i]) > 0
  {
    i := |xs| - 1;
    if f(xs[i]) == 0 {
      i := SumPositive(xs[..|xs| - 1], f);
    }
  }

  /** If f exceeds g by at most c times h at every element, so do the sums. */
  lemma {:induction false} SumBound<T>(xs: seq<T>, f: T -> nat, g: T -> nat, h: T -> nat, c: nat)
    requires forall i | 0 <= i < |xs| :: f(xs[i]) <= g(xs[i]) + c * h(xs[i])
    ensures Sum(xs, f) <= Sum(xs, g) + c * Sum(xs, h)
  {
    if xs != [] {
      SumBound(xs[..|xs| - 1], f, g, h, c);
    }
  }
}
