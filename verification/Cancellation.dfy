/** A cancelled group is not left alone: when payments are still routed and sent to it. */
module Cancellation {
  import opened Common
  import opened DispatcherSteps
  import opened DispatcherInvariants
  import opened Serialisation
  import opened Workload
  import opened TwoWorkers

  /** Some call can send its payment to a group that has been cancelled. */
  ghost predicate FeedsCancelled(s: State) {
    exists i: nat :: Enabled(s, Send(i)) && s.groups[s.adders[i].target].cancelled
  }

  /** Some call is at its send to a group that has been flagged for a merge. */
  ghost predicate AimsAtMerged(s: State) {
    exists i: nat :: Aims(s, i)
  }

  predicate Aims(s: State, i: nat) {
    i < |s.adders| && s.adders[i].Sending? && s.adders[i].target < |s.groups| && s.groups[s.adders[i].target].merging
  }

  /** Some call is about to be routed to a group that has been cancelled. */
  ghost predicate RoutesToCancelled(s: State) {
    exists step :: JoinsCancelled(s, step)
  }

  predicate JoinsCancelled(s: State, step: Step) {
    && (step.Route? || step.Recheck?) && Enabled(s, step)
    && var a := Do(s, step).adders[step.i];
       a.Sending? && a.target < |s.groups| && s.groups[a.target].cancelled
  }

  // ----- without slots there are no groups -----

  ghost predicate Slotless(s: State) {
    s.max == 0 ==> s.sem == 0 && s.groups == [] && s.index == map[] && !s.split
  }

  lemma ReachableSlotless(s: State)
    requires Reachable(s)
    ensures Slotless(s)
  {
    forall t, x | Slotless(t) && Enabled(t, x)
      ensures Slotless(Do(t, x))
    {
      StepSlotless(t, x);
    }
    ReachableHas(s, t => Slotless(t));
  }

  lemma StepSlotless(s: State, step: Step)
    requires Slotless(s) && Enabled(s, step)
    ensures Slotless(Do(s, step))
  {
  }

  // ----- the keys of the index are IBANs of routed payments -----

  ghost predicate Keyed(s: State) {
    Inv(s) && KeysRouted(s)
  }

  /** The index gains at most the IBANs of payment i, which is then routed. */
  lemma KeysGrow(s: State, t: State, i: nat)
    requires KeysRouted(s) && t.pay == s.pay && s.routed <= t.routed
    requires forall x :: x in t.index ==> x in s.index || (i in t.routed && i < |s.pay| && Uses(s.pay[i], x))
    ensures KeysRouted(t)
  {
    forall x | Indexed(t, x)
      ensures exists r :: UsedBy(t, r, x)
    {
      if x in s.index {
        assert Indexed(s, x);
        var r :| UsedBy(s, r, x);
        assert UsedBy(t, r, x);
      } else {
        assert UsedBy(t, i, x);
      }
    }
  }

  lemma RouteKeysGrow(s: State, i: nat)
    requires Enabled(s, Route(i))
    ensures var t := Do(s, Route(i));
      && t.pay == s.pay && s.routed <= t.routed
      && forall x :: x in t.index ==> x in s.index || (i in t.routed && Uses(s.pay[i], x))
  {
  }

  lemma RecheckKeysGrow(s: State, i: nat)
    requires Enabled(s, Recheck(i))
    ensures var t := Do(s, Recheck(i));
      && t.pay == s.pay && s.routed <= t.routed
      && forall x :: x in t.index ==> x in s.index || (i in t.routed && Uses(s.pay[i], x))
  {
  }

  lemma StepKeyed(s: State, step: Step)
    requires Keyed(s) && Enabled(s, step)
    ensures Keyed(Do(s, step))
  {
    StepKeepsInv(s, step);
    if step.Route? {
      RouteKeysGrow(s, step.i);
      KeysGrow(s, Do(s, step), step.i);
    } else if step.Recheck? {
      RecheckKeysGrow(s, step.i);
      KeysGrow(s, Do(s, step), step.i);
    } else {
      Components.OtherStepIsQuiet(s, step);
      SameKeys(s, Do(s, step));
    }
  }

  lemma SameKeys(s: State, t: State)
    requires Keyed(s) && t.index == s.index && t.routed == s.routed && s.pay <= t.pay
    ensures KeysRouted(t)
  {
    forall x | Indexed(t, x)
      ensures exists r :: UsedBy(t, r, x)
    {
      assert Indexed(s, x);
      var r :| UsedBy(s, r, x);
      assert UsedBy(t, r, x);
    }
  }

  lemma ReachableKeyed(s: State)
    requires Reachable(s)
    ensures Keyed(s)
  {
    forall t, x | Keyed(t) && Enabled(t, x)
      ensures Keyed(Do(t, x))
    {
      StepKeyed(t, x);
    }
    ReachableHas(s, t => Keyed(t));
  }

  // ----- schedules -----

  /** The first payment of a workload has a group of its own and is about to be sent. */
  lemma FirstGroup(max: nat, w: seq<Payment>, i: nat) returns (s: State)
    requires max >= 1 && i < |w|
    ensures Reachable(s) && s == Init(max).(pay := w, adders := s.adders, groups := [NewGroup(0)], wg := 1, sem := 1,
                                            index := map[][w[i].deb := 0][w[i].cred := 0], routed := {i})
    ensures |s.adders| == |w| && s.adders[i] == Sending(0)
    ensures forall j :: 0 <= j < |w| && j != i ==> s.adders[j].Start?
  {
    s := AllSubmitted(max, w);
    s := RouteAndAcquire(s, i);
    s := OpenGroup(s, i);
  }

  /** Its watcher cancels the group before the payment has been sent. */
  lemma FirstGroupCancelled(max: nat, w: seq<Payment>, i: nat) returns (s: State)
    requires max >= 1 && i < |w|
    ensures Reachable(s)
    ensures s == Init(max).(pay := w, adders := s.adders, groups := [NewGroup(0).(cancelled := true)], wg := 1,
      sem := 1,
                            index := map[][w[i].deb := 0][w[i].cred := 0], routed := {i})
    ensures |s.adders| == |w| && s.adders[i] == Sending(0)
    ensures forall j :: 0 <= j < |w| && j != i ==> s.adders[j].Start?
  {
    s := FirstGroup(max, w, i);
    s := CancelEarly(s, 0);
  }

  /** A group whose worker has left before anything was sent. */
  function DeadGroup(id: nat): Group {
    NewGroup(id).(cancelled := true, worker := Released)
  }

  /** The watcher of a new group cancels it, and its worker gives the slot back. */
  lemma LeaveAtOnce(s: State, g: nat) returns (t: State)
    requires Reachable(s) && g < |s.groups| && s.groups[g] == NewGroup(g) && 0 < s.sem
    ensures Reachable(t) && t == s.(groups := s.groups[g := DeadGroup(g)], sem := s.sem - 1)
  {
    t := CancelEarly(s, g);
    t := StopUnused(t, g);
    t := GiveSlotBack(t, g);
    assert t.groups == s.groups[g := DeadGroup(g)];
  }

  lemma GiveSlotBack(s: State, g: nat) returns (t: State)
    requires Reachable(s) && g < |s.groups| && s.groups[g].worker.Exiting? && 0 < s.sem
    ensures Reachable(t) && t == s.(groups := s.groups[g := s.groups[g].(worker := Released)], sem := s.sem - 1)
  {
    Go(s, Release(g));
    t := Do(s, Release(g));
  }

  lemma CancelEarly(s: State, g: nat) returns (t: State)
    requires Reachable(s) && g < |s.groups| && s.groups[g] == NewGroup(g)
    ensures Reachable(t) && t == s.(groups := s.groups[g := NewGroup(g).(cancelled := true)])
  {
    Go(s, Watch(g));
    t := Do(s, Watch(g));
  }

  /** Cancelled, or after a shutdown, a worker with nothing to read returns. */
  lemma StopUnused(s: State, g: nat) returns (t: State)
    requires Reachable(s) && g < |s.groups| && s.groups[g].worker.Idle? && (s.groups[g].cancelled || s.root)
    requires !s.groups[g].merging && s.groups[g].ch == []
    ensures Reachable(t) && t == s.(groups := s.groups[g := s.groups[g].(worker := Exiting)])
  {
    Go(s, Stop(g));
    t := Do(s, Stop(g));
    Go(t, DrainOut(g));
    t := Do(t, DrainOut(g));
    assert t.groups == s.groups[g := s.groups[g].(worker := Exiting)];
  }

  /** Call i opens a group, whose worker leaves at once. */
  lemma OpenDead(s: State, i: nat) returns (t: State)
    requires Reachable(s) && IsAdder(s, i) && |s.adders| == |s.pay| && s.adders[i].WaitSlot? && s.mu.None?
    requires s.sem < s.max && s.pay[i].cred !in s.index && s.pay[i].deb !in s.index
    ensures var g := |s.groups|;
      && Reachable(t)
      && t == s.(adders := s.adders[i := Sending(g)], groups := s.groups + [DeadGroup(g)], wg := s.wg + 1,
                 index := s.index[s.pay[i].deb := g][s.pay[i].cred := g], routed := s.routed + {i})
  {
    t := AcquireSlot(s, i);
    t := OpenGroup(t, i);
    t := LeaveAtOnce(t, |s.groups|);
    assert t.adders == s.adders[i := Sending(|s.groups|)];
  }

  /** Payment k opens a second group, even with one slot, while the first group is dead. */
  lemma SecondGroup(max: nat, w: seq<Payment>, i: nat, k: nat) returns (s: State)
    requires max >= 1 && i < |w| && k < |w| && i != k && !Conflict(w[i], w[k])
    ensures Reachable(s) && s.max == max && s.pay == w && |s.adders| == |w| && s.mu.None? && !s.root && |s.groups| == 2
    ensures s.adders[k] == Sending(1) && s.groups[1] == NewGroup(1)
    ensures s.index == map[][w[i].deb := 0][w[i].cred := 0][w[k].deb := 1][w[k].cred := 1]
    ensures forall j :: 0 <= j < |w| && j != i && j != k ==> s.adders[j].Start?
  {
    s := AllSubmitted(max, w);
    s := WaitForSlot(s, i);
    s := OpenDead(s, i);
    s := RouteAndAcquire(s, k);
    s := OpenGroup(s, k);
  }

  /** Payment k is about to be sent to a group that payment j has begun to merge away. */
  lemma AimsAfterMerge(max: nat, w: seq<Payment>, i: nat, j: nat, k: nat) returns (s: State)
    requires max >= 1 && Spans(w, i, j, k)
    ensures Reachable(s) && s.max == max && s.pay == w && Aims(s, k) && Enabled(s, Send(k))
  {
    s := SecondGroup(max, w, i, k);
    s := StartMerge(s, j);
  }

  lemma NonTransitiveSpans(w: seq<Payment>) returns (i: nat, j: nat, k: nat)
    requires !Transitive(w)
    ensures Spans(w, i, j, k)
  {
    var a: nat, b: nat, c: nat :| Shares(w, a, b) && Shares(w, b, c) && !Shares(w, a, c);
    if Uses(w[a], w[b].cred) && Uses(w[c], w[b].deb) {
      i, j, k := a, b, c;
    } else {
      i, j, k := c, b, a;
    }
  }

  // ----- exactly when -----

  /** A payment can be sent to a cancelled group exactly if there is a slot and a payment:
      the watcher alone can cancel a group before its first payment has been sent. */
  lemma CancelledGroupIsFedExactly(max: nat, w: seq<Payment>)
    ensures (exists s :: Reachable(s) && s.max == max && s.pay <= w && FeedsCancelled(s)) <==> max >= 1 && w != []
  {
    if max >= 1 && w != [] {
      var s := FirstGroupCancelled(max, w, 0);
      assert Enabled(s, Send(0));
      assert FeedsCancelled(s);
    }
    forall s | Reachable(s) && s.max == max && s.pay <= w && FeedsCancelled(s)
      ensures max >= 1 && w != []
    {
      ReachableSlotless(s);
    }
  }

  /** A call can be routed to an already cancelled group exactly if there is a slot and two
      payments of the workload share an IBAN; no merge is needed. */
  lemma CancelledGroupIsJoinedExactly(max: nat, w: seq<Payment>)
    ensures (exists s :: Reachable(s) && s.max == max && s.pay <= w && RoutesToCancelled(s)) <==>
      max >= 1 && exists i: nat, j: nat :: i != j && Shares(w, i, j)
  {
    if max >= 1 && exists i: nat, j: nat :: i != j && Shares(w, i, j) {
      var i: nat, j: nat :| i != j && Shares(w, i, j);
      var s := SharerJoinsCancelled(max, w, i, j);
    }
    forall s | Reachable(s) && s.max == max && s.pay <= w && RoutesToCancelled(s)
      ensures max >= 1 && exists i: nat, j: nat :: i != j && Shares(w, i, j)
    {
      ReachableSlotless(s);
      var step :| JoinsCancelled(s, step);
      var r := JoinSharesIban(s, step);
      assert Shares(w, r, step.i);
    }
  }

  lemma SharerJoinsCancelled(max: nat, w: seq<Payment>, i: nat, j: nat) returns (s: State)
    requires max >= 1 && i != j && Shares(w, i, j)
    ensures Reachable(s) && s.max == max && s.pay == w && RoutesToCancelled(s)
  {
    s := FirstGroupCancelled(max, w, i);
    assert JoinsCancelled(s, Route(j));
  }

  lemma JoinSharesIban(s: State, step: Step) returns (r: nat)
    requires Reachable(s) && JoinsCancelled(s, step)
    ensures r != step.i && Shares(s.pay, r, step.i)
  {
    ReachableKeyed(s);
    var p := s.pay[step.i];
    NotYetRouted(s, step.i);
    var x := if p.cred in s.index then p.cred else p.deb;
    assert Indexed(s, x);
    r :| UsedBy(s, r, x);
  }

  /** A call can be at its send to a group flagged for a merge exactly if there is a slot and
      sharing an IBAN is not transitive on the workload: without a payment that bridges two
      others nothing is ever merged. */
  lemma MergedGroupIsFedExactly(max: nat, w: seq<Payment>)
    ensures (exists s :: Reachable(s) && s.max == max && s.pay <= w && AimsAtMerged(s)) <==> max >= 1 && !Transitive(w)
  {
    if max >= 1 && !Transitive(w) {
      var i, j, k := NonTransitiveSpans(w);
      var s := AimsAfterMerge(max, w, i, j, k);
      assert AimsAtMerged(s);
    }
    forall s | Reachable(s) && s.max == max && s.pay <= w && AimsAtMerged(s)
      ensures max >= 1 && !Transitive(w)
    {
      ReachableSlotless(s);
      if Transitive(w) {
        PrefixIsTransitive(s.pay, w);
        ReachableCalm(s);
      }
    }
  }
}
