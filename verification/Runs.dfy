/** Step systems and their finite runs. */
module Runs {

  /** `next` matters only where `enabled` holds. */
  datatype System<!S, !T> = System(enabled: (S, T) -> bool, next: (S, T) -> S)

  ghost predicate Valid<S, T>(sys: System<S, T>, s: S, steps: seq<T>)
    decreases |steps|, 0
  {
    steps == [] ||
    (var n := |steps| - 1;
     Valid(sys, s, steps[..n]) && sys.enabled(After(sys, s, steps[..n]), steps[n]))
  }

  ghost function After<S, T>(sys: System<S, T>, s: S, steps: seq<T>): S
    requires Valid(sys, s, steps)
    decreases |steps|, 1
  {
    if steps == [] then s
    else var n := |steps| - 1; sys.next(After(sys, s, steps[..n]), steps[n])
  }

  /** Some run leads from s to t. */
  ghost predicate Reaches<S(!new), T(!new)>(sys: System<S, T>, s: S, t: S) {
    exists steps :: Valid(sys, s, steps) && After(sys, s, steps) == t
  }

  lemma {:induction false} Extend<S, T>(sys: System<S, T>, s: S, steps: seq<T>, step: T)
    requires Valid(sys, s, steps) && sys.enabled(After(sys, s, steps), step)
    ensures Valid(sys, s, steps + [step])
    ensures After(sys, s, steps + [step]) == sys.next(After(sys, s, steps), step)
  {
    assert (steps + [step])[..|steps|] == steps;
  }

  lemma {:induction false} Concat<S, T>(sys: System<S, T>, s: S, xs: seq<T>, ys: seq<T>)
    requires Valid(sys, s, xs) && Valid(sys, After(sys, s, xs), ys)
    ensures Valid(sys, s, xs + ys)
    ensures After(sys, s, xs + ys) == After(sys, After(sys, s, xs), ys)
    decreases |ys|
  {
    if ys == [] {
      assert xs + ys == xs;
    } else {
      var n := |ys| - 1;
      Concat(sys, s, xs, ys[..n]);
      assert (xs + ys)[..|xs| + n] == xs + ys[..n];
    }
  }

  lemma {:induction false} Single<S, T>(sys: System<S, T>, s: S, step: T)
    requires sys.enabled(s, step)
    ensures Valid(sys, s, [step]) && After(sys, s, [step]) == sys.next(s, step)
  {
    assert [step][..0] == [];
  }

  /** A step, a run, and another step. */
  lemma Framed<S, T>(sys: System<S, T>, s: S, first: T, middle: seq<T>, last: T, t: S)
    requires sys.enabled(s, first) && Valid(sys, sys.next(s, first), middle)
    requires t == After(sys, sys.next(s, first), middle) && sys.enabled(t, last)
    ensures Valid(sys, s, [first] + middle + [last]) && After(sys, s, [first] + middle + [last]) == sys.next(t, last)
  {
    Single(sys, s, first);
    Concat(sys, s, [first], middle);
    Extend(sys, s, [first] + middle, last);
  }

  lemma {:induction false} Prefix<S, T>(sys: System<S, T>, s: S, steps: seq<T>, n: nat)
    requires Valid(sys, s, steps) && n <= |steps|
    ensures Valid(sys, s, steps[..n])
    decreases |steps|
  {
    if n == |steps| {
      assert steps[..n] == steps;
    } else {
      var m := |steps| - 1;
      assert steps[..m][..n] == steps[..n];
      Prefix(sys, s, steps[..m], n);
    }
  }

  /** What the start has and every step keeps holds after every run. */
  lemma {:induction false} Invariant<S(!new), T(!new)>(sys: System<S, T>, inv: S -> bool, s: S, steps: seq<T>)
    requires Valid(sys, s, steps) && inv(s)
    requires forall t, x :: inv(t) && sys.enabled(t, x) ==> inv(sys.next(t, x))
    ensures inv(After(sys, s, steps))
    decreases |steps|
  {
    if steps != [] {
      Invariant(sys, inv, s, steps[..|steps| - 1]);
    }
  }

  /** The same for runs that take certain steps only. */
  lemma {:induction false} InvariantUnder<S(!new), T(!new)>(
    sys: System<S, T>, inv: S -> bool, taken: T -> bool, s: S, steps: seq<T>)
    requires Valid(sys, s, steps) && inv(s) && forall k :: 0 <= k < |steps| ==> taken(steps[k])
    requires forall t, x :: inv(t) && taken(x) && sys.enabled(t, x) ==> inv(sys.next(t, x))
    ensures inv(After(sys, s, steps))
    decreases |steps|
  {
    if steps != [] {
      InvariantUnder(sys, inv, taken, s, steps[..|steps| - 1]);
    }
  }

  lemma ReachesStep<S(!new), T(!new)>(sys: System<S, T>, s: S, t: S, step: T)
    requires Reaches(sys, s, t) && sys.enabled(t, step)
    ensures Reaches(sys, s, sys.next(t, step))
  {
    var steps :| Valid(sys, s, steps) && After(sys, s, steps) == t;
    Extend(sys, s, steps, step);
  }
}
