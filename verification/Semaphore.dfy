/** The semaphore and the wait group count exactly what they are meant to count. */
module Semaphore {
  import opened Common
  import opened DispatcherSteps

  function HoldsSlot(): Adder -> nat {
    (a: Adder) => if a.HoldSlot? then 1 else 0
  }

  function HoldsToken(): Group -> nat {
    (g: Group) => if g.worker.Released? || g.worker.Finished? then 0 else 1
  }

  function Unfinished(): Group -> nat {
    (g: Group) => if g.worker.Finished? then 0 else 1
  }

  /** Tokens are held by adders between acquire and re-check and by workers that have not
      released theirs; the wait group counts the workers that have not finished. */
  ghost predicate Counted(s: State) {
    && s.sem == Sum(s.adders, HoldsSlot()) + Sum(s.groups, HoldsToken())
    && s.sem <= s.max
    && s.wg == Sum(s.groups, Unfinished())
  }

  /** Tokens not accounted for by a holder: zero in every reachable state. */
  function Spare(s: State): int {
    s.sem - Sum(s.adders, HoldsSlot()) - Sum(s.groups, HoldsToken())
  }

  lemma RouteMovesNoToken(s: State, i: nat)
    requires Enabled(s, Route(i))
    ensures Spare(Do(s, Route(i))) == Spare(s)
  {
    AdderSum(s, Route(i), HoldsSlot());
    GroupSum(s, Route(i), HoldsToken());
  }

  lemma RecheckMovesToken(s: State, i: nat)
    requires Enabled(s, Recheck(i))
    ensures Spare(Do(s, Recheck(i))) == Spare(s)
  {
    AdderSum(s, Recheck(i), HoldsSlot());
    GroupSum(s, Recheck(i), HoldsToken());
  }

  lemma TokensMove(s: State, step: Step)
    requires Enabled(s, step)
    ensures Spare(Do(s, step)) == Spare(s)
  {
    if step.Route? {
      RouteMovesNoToken(s, step.i);
    } else if step.Recheck? {
      RecheckMovesToken(s, step.i);
    } else {
      AdderSum(s, step, HoldsSlot());
      GroupSum(s, step, HoldsToken());
    }
  }

  lemma WaitGroupMoves(s: State, step: Step)
    requires Enabled(s, step)
    ensures var t := Do(s, step);
      Sum(t.groups, Unfinished()) + s.wg == Sum(s.groups, Unfinished()) + t.wg
  {
    GroupSum(s, step, Unfinished());
    if Mover(step).Some? {
      CallLeavesWork(s, step);
      CallMovesNoCount(s, step);
    } else {
      WorkerMovesCount(s, step);
    }
  }

  lemma CallMovesNoCount(s: State, step: Step)
    requires Enabled(s, step) && Mover(step).Some?
    ensures var t := Do(s, step);
      if t.groups != s.groups && Touched(s, step).None? then |t.groups| > |s.groups| && t.wg == s.wg + 1
      else t.wg == s.wg
  {
  }

  lemma WorkerMovesCount(s: State, step: Step)
    requires Enabled(s, step) && Mover(step).None?
    ensures var t := Do(s, step);
      match Touched(s, step)
      case Some(g) =>
        g < |s.groups| == |t.groups| && t.wg + Unfinished()(s.groups[g]) == s.wg + Unfinished()(t.groups[g])
      case None => t.groups == s.groups && t.wg == s.wg
  {
  }

  lemma StepKeepsCounted(s: State, step: Step)
    requires Counted(s) && Enabled(s, step)
    ensures Counted(Do(s, step))
  {
    TokensMove(s, step);
    WaitGroupMoves(s, step);
    assert Do(s, step).sem <= s.max && Do(s, step).max == s.max;
  }

  lemma ReachableCounted(s: State)
    requires Reachable(s)
    ensures Counted(s)
  {
    forall t, x | Counted(t) && Enabled(t, x)
      ensures Counted(Do(t, x))
    {
      StepKeepsCounted(t, x);
    }
    ReachableHas(s, t => Counted(t));
  }

  lemma TwoWorkersTwoSlots(s: State, g: nat, h: nat)
    requires Reachable(s) && g < |s.groups| && h < |s.groups| && g != h
    requires !Stopped(s.groups[g].worker) && !Stopped(s.groups[h].worker)
    ensures s.max >= 2
  {
    ReachableCounted(s);
    SumTwo(s.groups, g, h, HoldsToken());
  }

  /** Receiving from the semaphore never blocks where the code does it, and Wg.Done never
      goes below zero; Shutdown's wait ends only when no worker is inside ProcessTX. */
  lemma ReleasesNeverBlock(s: State)
    requires Reachable(s)
    ensures Counted(s)
    ensures forall i :: 0 <= i < |s.adders| && s.adders[i].HoldSlot? ==> 0 < s.sem
    ensures forall g :: 0 <= g < |s.groups| && s.groups[g].worker.Exiting? ==> 0 < s.sem
    ensures forall g :: 0 <= g < |s.groups| && s.groups[g].worker.Released? ==> 0 < s.wg
    ensures s.wg == 0 ==> forall g :: 0 <= g < |s.groups| ==> Flight(s.groups[g].worker) == []
    ensures s.wg == 0 ==> s.sem == Sum(s.adders, HoldsSlot())
  {
    ReachableCounted(s);
    forall i | 0 <= i < |s.adders|
      ensures HoldsSlot()(s.adders[i]) <= s.sem
    {
      SumUpdate(s.adders, i, s.adders[i], HoldsSlot());
    }
    forall g | 0 <= g < |s.groups|
      ensures HoldsToken()(s.groups[g]) <= s.sem && Unfinished()(s.groups[g]) <= s.wg
    {
      SumUpdate(s.groups, g, s.groups[g], HoldsToken());
      SumUpdate(s.groups, g, s.groups[g], Unfinished());
    }
    if s.wg == 0 {
      forall g | 0 <= g < |s.groups|
        ensures Flight(s.groups[g].worker) == [] && HoldsToken()(s.groups[g]) == 0
      {
        assert Unfinished()(s.groups[g]) == 0;
      }
      SumZero(s.groups, HoldsToken());
    }
  }
}
