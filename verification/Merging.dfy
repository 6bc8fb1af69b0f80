/** One merge at a time: who may flag a group, close its DrainReady, read its channel,
    and how long the merger's drain loop can run. */
module Merging {
  import opened Common
  import opened MergeForest
  import opened DispatcherSteps
  import opened DispatcherInvariants
  import Runs

  /** Adder a is merging group b away. */
  predicate MergesAway(a: Adder, b: nat) {
    (a.MergeWait? || a.Draining?) && a.from == b
  }

  /** Each group is merged at most once and leaves the index for good; DrainReady is
      closed at most once, and from then on one adder is the only reader of the channel;
      the second relabel loop changes nothing. */
  lemma MergeOwnership(s: State, b: nat)
    requires Reachable(s) && b < |s.groups|
    ensures s.groups[b].merging ==> forall x :: x in s.index ==> s.index[x] != b
    ensures forall j, k :: 0 <= j < k < |s.log| ==> s.log[j].src != s.log[k].src
    ensures forall i, j :: 0 <= i < j < |s.adders| ==> !(MergesAway(s.adders[i], b) && MergesAway(s.adders[j], b))
    ensures s.groups[b].drainReady ==> s.groups[b].merging && !Enabled(s, Stop(b)) && !Enabled(s, Recv(b))
  {
    ReachableInv(s);
    assert GroupOk(s.groups[b]);
    forall i, j | 0 <= i < j < |s.adders|
      ensures !(MergesAway(s.adders[i], b) && MergesAway(s.adders[j], b))
    {
      if MergesAway(s.adders[i], b) && MergesAway(s.adders[j], b) {
        assert AdderOk(s.adders[i], i, s.groups, s.log, s.routed, s.mu);
        assert AdderOk(s.adders[j], j, s.groups, s.log, s.routed, s.mu);
        OneEntryPerSource(s.log, Merge(b, s.adders[i].into, i), Merge(b, s.adders[j].into, j));
      }
    }
  }

  /** In no reachable state does a chain of merges come back to where it began; a chain that
      cannot be extended ends in the group that the index uses for its start. */
  lemma MergesAreAcyclic(s: State, path: seq<nat>)
    requires Reachable(s) && IsChain(s.log, path) && |path| > 0
    ensures |path| > 1 ==> path[0] != path[|path| - 1]
    ensures !IsSource(s.log, path[|path| - 1]) ==> path[|path| - 1] == Rep(s.log, path[0])
  {
    ReachableInv(s);
    ForestIsAcyclic(s.log, path);
  }

  lemma OneEntryPerSource(log: Log, m: Merge, n: Merge)
    requires WellFormed(log) && m in log && n in log && m.src == n.src
    ensures m == n
  {
  }

  /** Only the merger that owns the mutex takes payments out of a merged group, and only
      after DrainReady is closed; its closing relabel loop changes nothing. */
  lemma DrainOwnership(s: State, i: nat)
    requires Reachable(s)
    ensures Enabled(s, Take(i)) ==> s.groups[s.adders[i].from].drainReady && s.mu == Some(i)
    ensures Enabled(s, EndDrain(i)) ==> Do(s, EndDrain(i)).index == s.index
  {
    ReachableInv(s);
    if i < |s.adders| {
      assert AdderOk(s.adders[i], i, s.groups, s.log, s.routed, s.mu);
      if Enabled(s, EndDrain(i)) {
        SecondRelabelIsIdle(s, i);
      }
    }
  }

  /** A call that is on its way to a merged group was so before the merge: no step makes a
      new one. */
  lemma NoNewSenders(s: State, step: Step, i: nat, b: nat)
    requires Reachable(s) && Enabled(s, step) && b < |s.groups| && s.groups[b].merging
    requires i < |Do(s, step).adders| && Target(Do(s, step).adders[i]) == Some(b)
    ensures i < |s.adders| && Target(s.adders[i]) == Some(b)
  {
    ReachableInv(s);
    if step.Route? {
      RouteTargetsLive(s, step.i);
    } else if step.Recheck? {
      RecheckTargetsLive(s, step.i);
    } else {
      OthersKeepTargets(s, step, i);
    }
  }

  lemma OthersKeepTargets(s: State, step: Step, i: nat)
    requires Enabled(s, step) && !step.Route? && !step.Recheck?
    requires i < |Do(s, step).adders| && Target(Do(s, step).adders[i]).Some?
    ensures i < |s.adders| && Target(s.adders[i]) == Target(Do(s, step).adders[i])
  {
  }

  lemma RouteTargetsLive(s: State, i: nat)
    requires IndexOk(s.index, s.groups) && Enabled(s, Route(i))
    ensures var a := Do(s, Route(i)).adders[i];
      Target(a).Some? ==> Target(a).value < |s.groups| && !s.groups[Target(a).value].merging
    ensures Do(s, Route(i)).adders == s.adders[i := Do(s, Route(i)).adders[i]]
  {
  }

  lemma RecheckTargetsLive(s: State, i: nat)
    requires IndexOk(s.index, s.groups) && Enabled(s, Recheck(i))
    ensures var g := Target(Do(s, Recheck(i)).adders[i]);
      g.Some? && (g.value < |s.groups| ==> !s.groups[g.value].merging)
    ensures Do(s, Recheck(i)).adders == s.adders[i := Do(s, Recheck(i)).adders[i]]
  {
    RecheckMoves(s, i);
    RecheckAims(s, i);
  }

  /** A re-check sends the payment to an indexed group or to a new one. */
  lemma RecheckAims(s: State, i: nat)
    requires Enabled(s, Recheck(i))
    ensures var a := Do(s, Recheck(i)).adders[i];
      a.Sending? && (a.target == |s.groups| || exists x :: x in s.index && s.index[x] == a.target)
  {
    var p := s.pay[i];
    assert p.cred in s.index || p.deb in s.index || Do(s, Recheck(i)).adders[i] == Sending(|s.groups|);
  }

  // ----- the drain loop -----

  function SendsTo(b: nat): Adder -> nat {
    (a: Adder) => if a == Sending(b) then 1 else 0
  }

  /** What the drain of group b can still find: its buffer and the adders already holding
      b as their target. */
  function Drainable(s: State, b: nat): nat
    requires b < |s.groups|
  {
    |s.groups[b].ch| + Sum(s.adders, SendsTo(b))
  }

  /** Adder i holds the mutex and drains group b. */
  predicate Drains(s: State, i: nat, b: nat) {
    i < |s.adders| && b < |s.groups| && s.adders[i].Draining? && s.adders[i].from == b
  }

  /** What the drain step needs to know about the state. */
  ghost predicate DrainAlone(s: State, i: nat, b: nat) {
    && Drains(s, i, b) && s.mu.Some? && s.adders[i].into != b
    && Stopped(s.groups[b].worker)
    && forall j :: 0 <= j < |s.adders| && s.adders[j].Draining? ==> j == i
  }

  lemma DrainsAlone(s: State, i: nat, b: nat)
    requires Inv(s) && Drains(s, i, b)
    ensures DrainAlone(s, i, b)
  {
    assert AdderOk(s.adders[i], i, s.groups, s.log, s.routed, s.mu);
    var k :| 0 <= k < |s.log| && s.log[k] == Merge(b, s.adders[i].into, i);
    assert GroupOk(s.groups[b]);
    forall j | 0 <= j < |s.adders| && s.adders[j].Draining?
      ensures j == i
    {
      assert AdderOk(s.adders[j], j, s.groups, s.log, s.routed, s.mu);
    }
  }

  /** While the merger drains, payments taken so far plus payments still to be found do
      not grow; and each iteration takes exactly one. */
  lemma DrainStep(s: State, step: Step, i: nat, b: nat)
    requires Enabled(s, step) && DrainAlone(s, i, b) && Drains(Do(s, step), i, b)
    ensures var t := Do(s, step);
      && |t.groups[b].drained| + Drainable(t, b) <= |s.groups[b].drained| + Drainable(s, b)
      && |t.groups[b].drained| == |s.groups[b].drained| + (if step == Take(i) then 1 else 0)
  {
    AdderSum(s, step, SendsTo(b));
  }

  /** Throughout the run, adder i keeps draining group b. */
  ghost predicate DrainsThroughout(s: State, steps: seq<Step>, i: nat, b: nat) {
    && Runs.Valid(Machine(), s, steps)
    && forall n :: 0 <= n <= |steps| ==>
         Runs.Valid(Machine(), s, steps[..n]) && Drains(Runs.After(Machine(), s, steps[..n]), i, b)
  }

  /** The drain loop takes at most as many payments as its group's buffer held plus the
      adders that already held the group as their target when the mutex was taken. */
  lemma {:induction false} DrainIsBounded(s: State, steps: seq<Step>, i: nat, b: nat)
    requires Inv(s) && DrainsThroughout(s, steps, i, b)
    ensures var t := Runs.After(Machine(), s, steps);
      && Inv(t) && Drains(s, i, b) && Drains(t, i, b)
      && |t.groups[b].drained| - |s.groups[b].drained| <= Drainable(s, b) - Drainable(t, b)
    decreases |steps|
  {
    assert steps[..|steps|] == steps && steps[..0] == [];
    if steps != [] {
      var n := |steps| - 1;
      assert forall m :: 0 <= m <= n ==> steps[..n][..m] == steps[..m];
      DrainIsBounded(s, steps[..n], i, b);
      var u := Runs.After(Machine(), s, steps[..n]);
      StepKeepsInv(u, steps[n]);
      DrainsAlone(u, i, b);
      DrainStep(u, steps[n], i, b);
    }
  }
}
