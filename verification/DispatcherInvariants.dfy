/** What holds in every reachable state of the dispatcher, whatever the interleaving. */
module DispatcherInvariants {
  import opened Common
  import opened MergeForest
  import opened DispatcherSteps

  /** One group by itself: FIFO factorisation of its history, and what a closed
      DrainReady says about its worker. */
  ghost predicate GroupOk(g: Group) {
    && g.sent == g.done + Flight(g.worker) + g.drained + g.ch
    && |g.ch| <= CHAN_BUFFER
    && (g.drained != [] ==> g.drainReady)
    && (g.drainReady ==> g.merging && Stopped(g.worker))
    && (g.merging ==> g.cancelled)
  }

  ghost predicate GroupsOk(groups: seq<Group>, log: Log, routed: set<nat>) {
    forall g :: 0 <= g < |groups| ==>
      && groups[g].id == g
      && GroupOk(groups[g])
      && (groups[g].merging <==> IsSource(log, g))
      && (forall p :: p in groups[g].sent ==> p in routed)
  }

  /** The index never points at a group that is being, or has been, merged away. */
  ghost predicate IndexOk(index: map<Iban, nat>, groups: seq<Group>) {
    forall x :: x in index ==> index[x] < |groups| && !groups[index[x]].merging
  }

  ghost predicate LogOk(log: Log, groups: seq<Group>) {
    && WellFormed(log)
    && (forall k :: 0 <= k < |log| ==> log[k].src < |groups| && log[k].dst < |groups|)
  }

  ghost predicate AdderOk(a: Adder, i: nat, groups: seq<Group>, log: Log, routed: set<nat>, mu: Option<nat>) {
    match a
    case MergeWait(into, from) => i in routed && Merge(from, into, i) in log
    case Draining(into, from, hand) =>
      && i in routed && Merge(from, into, i) in log && mu == Some(i)
      && from < |groups| && groups[from].drainReady
      && (hand.Some? ==>
            var out := groups[from].drained; out != [] && hand.value == out[|out| - 1])
    case Sending(g) => i in routed && g < |groups|
    case Sent => i in routed
    case Rejected => true
    case _ => i !in routed
  }

  ghost predicate AddersOk(s: State) {
    && |s.adders| == |s.pay|
    && (forall i :: i in s.routed ==> i < |s.adders|)
    && (forall i :: 0 <= i < |s.adders| ==> AdderOk(s.adders[i], i, s.groups, s.log, s.routed, s.mu))
  }

  ghost predicate MutexOk(s: State) {
    s.mu.Some? ==> s.mu.value < |s.adders| && s.adders[s.mu.value].Draining?
  }

  ghost predicate Inv(s: State) {
    && GroupsOk(s.groups, s.log, s.routed)
    && IndexOk(s.index, s.groups)
    && LogOk(s.log, s.groups)
    && AddersOk(s)
    && MutexOk(s)
  }

  // ----- what a change of one part keeps -----

  lemma IsSourceStep(log: Log, m: Merge)
    ensures forall g :: IsSource(log + [m], g) <==> IsSource(log, g) || g == m.src
  {
    forall g
      ensures IsSource(log + [m], g) <==> IsSource(log, g) || g == m.src
    {
      if IsSource(log, g) {
        var k :| 0 <= k < |log| && log[k].src == g;
        assert (log + [m])[k].src == g;
      }
      if g == m.src {
        assert (log + [m])[|log|].src == g;
      }
    }
  }

  /** Replacing one group by another that is as far merged keeps the groups, the
      index and the log in order. */
  lemma GroupUpdate(s: State, g: nat, x: Group)
    requires Inv(s) && g < |s.groups|
    requires GroupOk(x) && x.id == g && x.merging == s.groups[g].merging
    requires forall p :: p in x.sent ==> p in s.routed
    ensures GroupsOk(s.groups[g := x], s.log, s.routed)
    ensures IndexOk(s.index, s.groups[g := x])
    ensures LogOk(s.log, s.groups[g := x])
  {
  }

  /** t only adds to s, as far as an adder that does not move itself can see. */
  ghost predicate Grows(s: State, t: State) {
    && |s.groups| <= |t.groups|
    && (forall m :: m in s.log ==> m in t.log)
    && (forall g :: 0 <= g < |s.groups| && s.groups[g].drainReady ==> t.groups[g].drainReady)
  }

  lemma OthersStayOk(s: State, t: State, i: nat)
    requires AddersOk(s) && MutexOk(s) && Grows(s, t) && |t.pay| == |t.adders|
    requires |t.adders| == |s.adders|
    requires forall j :: 0 <= j < |s.adders| && j != i ==> t.adders[j] == s.adders[j]
    requires s.routed <= t.routed <= s.routed + {i}
    requires i in t.routed ==> i < |s.adders|
    requires s.mu.Some? && s.mu.value != i ==>
      t.mu == s.mu && forall g :: 0 <= g < |s.groups| ==> t.groups[g].drained == s.groups[g].drained
    requires i < |s.adders| ==> AdderOk(t.adders[i], i, t.groups, t.log, t.routed, t.mu)
    ensures AddersOk(t)
  {
    forall j | 0 <= j < |t.adders|
      ensures AdderOk(t.adders[j], j, t.groups, t.log, t.routed, t.mu)
    {
      if j != i {
        assert AdderOk(s.adders[j], j, s.groups, s.log, s.routed, s.mu);
        assert t.adders[j] == s.adders[j];
        assert j in t.routed <==> j in s.routed;
      }
    }
  }

  // ----- the steps of `add` -----

  lemma SubmitKeepsInv(s: State, p: Payment)
    requires Inv(s)
    ensures Inv(Do(s, Submit(p)))
  {
    var t := Do(s, Submit(p));
    forall j | 0 <= j < |t.adders|
      ensures AdderOk(t.adders[j], j, t.groups, t.log, t.routed, t.mu)
    {
      if j < |s.adders| {
        assert AdderOk(s.adders[j], j, s.groups, s.log, s.routed, s.mu);
      }
    }
  }

  lemma MergeKeepsLog(s: State, m: Merge)
    requires GroupsOk(s.groups, s.log, s.routed) && LogOk(s.log, s.groups)
    requires m.src < |s.groups| && m.dst < |s.groups| && m.src != m.dst
    requires !s.groups[m.src].merging && !s.groups[m.dst].merging
    ensures WellFormed(s.log + [m])
    ensures forall k :: 0 <= k < |s.log + [m]| ==>
      (s.log + [m])[k].src < |s.groups| && (s.log + [m])[k].dst < |s.groups|
  {
    assert forall k :: 0 <= k < |s.log| ==> s.groups[s.log[k].src].merging;
  }

  lemma MergeKeepsInv(s: State, i: nat, a: nat, b: nat)
    requires Inv(s) && i < |s.adders| && s.adders[i].Start? && s.mu.None?
    requires a < |s.groups| && b < |s.groups| && a != b
    requires !s.groups[a].merging && !s.groups[b].merging
    ensures Inv(BeginMerge(s, i, a, b))
  {
    var t := BeginMerge(s, i, a, b);
    var m := Merge(b, a, i);
    IsSourceStep(s.log, m);
    MergeKeepsLog(s, m);
    assert t.log[|s.log|] == m;
    assert forall n :: n in s.log ==> n in t.log;
    OthersStayOk(s, t, i);
  }

  lemma ConnectKeepsInv(s: State, i: nat, g: nat, index: map<Iban, nat>)
    requires Inv(s) && i < |s.adders| && s.mu.None? && g < |s.groups| && IndexOk(index, s.groups)
    ensures Inv(Connect(s, i, g, index))
  {
    OthersStayOk(s, Connect(s, i, g, index), i);
  }

  lemma RouteKeepsInv(s: State, i: nat)
    requires Inv(s) && Enabled(s, Route(i))
    ensures Inv(Do(s, Route(i)))
  {
    var p := s.pay[i];
    if s.root {
      OthersStayOk(s, Do(s, Route(i)), i);
    } else {
      match (Lookup(s.index, p.cred), Lookup(s.index, p.deb))
      case (None, None) =>
        assert AdderOk(s.adders[i], i, s.groups, s.log, s.routed, s.mu);
        OthersStayOk(s, Do(s, Route(i)), i);
      case (Some(a), None) => ConnectKeepsInv(s, i, a, s.index[p.deb := a]);
      case (None, Some(b)) => ConnectKeepsInv(s, i, b, s.index[p.cred := b]);
      case (Some(a), Some(b)) =>
        if a == b {
          ConnectKeepsInv(s, i, a, s.index);
        } else {
          MergeKeepsInv(s, i, a, b);
        }
    }
  }

  lemma NewGroupKeepsInv(s: State)
    requires Inv(s)
    ensures Inv(s.(groups := s.groups + [NewGroup(|s.groups|)]))
  {
    var n := |s.groups|;
    var t := s.(groups := s.groups + [NewGroup(n)]);
    assert t.groups[n] == NewGroup(n) && forall g :: 0 <= g < n ==> t.groups[g] == s.groups[g];
    assert !IsSource(s.log, n);
    OthersStayOk(s, t, |s.adders|);
  }

  lemma RecheckKeepsInv(s: State, i: nat)
    requires Inv(s) && Enabled(s, Recheck(i))
    ensures Inv(Do(s, Recheck(i)))
  {
    var p := s.pay[i];
    var gA, gB := Lookup(s.index, p.cred), Lookup(s.index, p.deb);
    if gA.Some? || gB.Some? {
      var g := if gA.Some? then gA.value else gB.value;
      ConnectKeepsInv(s, i, g, s.index[p.deb := g][p.cred := g]);
    } else {
      var g := |s.groups|;
      NewGroupKeepsInv(s);
      ConnectKeepsInv(s.(groups := s.groups + [NewGroup(g)]), i, g, s.index[p.deb := g][p.cred := g]);
    }
  }

  lemma SelectStepKeepsInv(s: State, step: Step)
    requires Inv(s) && Enabled(s, step)
    requires step.Acquire? || step.GiveUp? || step.LockDrain?
    ensures Inv(Do(s, step))
  {
    assert AdderOk(s.adders[step.i], step.i, s.groups, s.log, s.routed, s.mu);
    OthersStayOk(s, Do(s, step), step.i);
  }

  lemma PutInKeepsOk(g: Group, p: nat)
    requires GroupOk(g) && |g.ch| < CHAN_BUFFER
    ensures GroupOk(PutIn(g, p))
  {
  }

  lemma TakeOutKeepsOk(g: Group)
    requires GroupOk(g) && g.ch != [] && g.drainReady
    ensures GroupOk(TakeOut(g))
  {
    assert g.ch == [g.ch[0]] + g.ch[1..];
  }

  lemma ReceiveKeepsOk(g: Group)
    requires GroupOk(g) && g.ch != [] && (g.worker.Idle? || g.worker.FinalDrain?)
    ensures GroupOk(Receive(g))
  {
    assert g.ch == [g.ch[0]] + g.ch[1..];
  }

  lemma CompleteKeepsOk(g: Group)
    requires GroupOk(g) && (g.worker.Busy? || g.worker.FinalBusy?)
    ensures GroupOk(Complete(g))
  {
  }

  lemma SendKeepsInv(s: State, i: nat)
    requires Inv(s) && Enabled(s, Send(i))
    ensures Inv(Do(s, Send(i)))
  {
    var g := s.adders[i].target;
    assert AdderOk(s.adders[i], i, s.groups, s.log, s.routed, s.mu);
    PutInKeepsOk(s.groups[g], i);
    GroupUpdate(s, g, PutIn(s.groups[g], i));
    OthersStayOk(s, Do(s, Send(i)), i);
  }

  lemma PutKeepsInv(s: State, i: nat)
    requires Inv(s) && Enabled(s, Put(i))
    ensures Inv(Do(s, Put(i)))
  {
    var a, b := s.adders[i].into, s.adders[i].from;
    var q := s.adders[i].hand.value;
    assert AdderOk(s.adders[i], i, s.groups, s.log, s.routed, s.mu);
    assert q in s.groups[b].sent;
    PutInKeepsOk(s.groups[a], q);
    GroupUpdate(s, a, PutIn(s.groups[a], q));
    OthersStayOk(s, Do(s, Put(i)), i);
  }

  lemma TakeKeepsInv(s: State, i: nat)
    requires Inv(s) && Enabled(s, Take(i))
    ensures Inv(Do(s, Take(i)))
  {
    var b := s.adders[i].from;
    assert AdderOk(s.adders[i], i, s.groups, s.log, s.routed, s.mu);
    TakeOutKeepsOk(s.groups[b]);
    GroupUpdate(s, b, TakeOut(s.groups[b]));
    OthersStayOk(s, Do(s, Take(i)), i);
  }

  /** The relabel loop after the drain finds nothing left to relabel. */
  lemma SecondRelabelIsIdle(s: State, i: nat)
    requires Inv(s) && Enabled(s, EndDrain(i))
    ensures Do(s, EndDrain(i)).index == s.index
  {
    assert AdderOk(s.adders[i], i, s.groups, s.log, s.routed, s.mu);
  }

  lemma EndDrainKeepsInv(s: State, i: nat)
    requires Inv(s) && Enabled(s, EndDrain(i))
    ensures Inv(Do(s, EndDrain(i)))
  {
    assert AdderOk(s.adders[i], i, s.groups, s.log, s.routed, s.mu);
    SecondRelabelIsIdle(s, i);
    OthersStayOk(s, Do(s, EndDrain(i)), i);
  }

  // ----- the steps of a worker and of the contexts -----

  lemma WorkerStepKeepsInv(s: State, g: nat, x: Group, t: State)
    requires Inv(s) && g < |s.groups|
    requires GroupOk(x) && x.id == g && x.merging == s.groups[g].merging
    requires x.sent == s.groups[g].sent && x.drained == s.groups[g].drained
    requires s.groups[g].drainReady ==> x.drainReady
    requires t == s.(groups := s.groups[g := x], sem := t.sem, wg := t.wg)
    ensures Inv(t)
  {
    GroupUpdate(s, g, x);
    OthersStayOk(s, t, |s.adders|);
  }

  lemma AdderMoveKeepsInv(s: State, step: Step)
    requires Inv(s) && Enabled(s, step) && Mover(step).Some?
    ensures Inv(Do(s, step))
  {
    match step
    case Route(i) => RouteKeepsInv(s, i);
    case Recheck(i) => RecheckKeepsInv(s, i);
    case Take(i) => TakeKeepsInv(s, i);
    case Put(i) => PutKeepsInv(s, i);
    case EndDrain(i) => EndDrainKeepsInv(s, i);
    case Send(i) => SendKeepsInv(s, i);
    case _ => SelectStepKeepsInv(s, step);
  }

  lemma StepKeepsInv(s: State, step: Step)
    requires Inv(s) && Enabled(s, step)
    ensures Inv(Do(s, step))
  {
    if Mover(step).Some? {
      AdderMoveKeepsInv(s, step);
    } else if step.Submit? {
      SubmitKeepsInv(s, step.p);
    } else if step == Shutdown {
      OthersStayOk(s, Do(s, step), |s.adders|);
    } else {
      WorkerMoveKeepsInv(s, step);
    }
  }

  lemma WorkerMoveKeepsInv(s: State, step: Step)
    requires Inv(s) && Enabled(s, step) && Mover(step).None? && !step.Submit? && !step.Shutdown?
    ensures Inv(Do(s, step))
  {
    var t := Do(s, step);
    match step
    case Recv(g) => ReceiveKeepsOk(s.groups[g]); WorkerStepKeepsInv(s, g, t.groups[g], t);
    case Finish(g) => CompleteKeepsOk(s.groups[g]); WorkerStepKeepsInv(s, g, t.groups[g], t);
    case Stop(g) => WorkerStepKeepsInv(s, g, t.groups[g], t);
    case DrainOut(g) => WorkerStepKeepsInv(s, g, t.groups[g], t);
    case Release(g) => WorkerStepKeepsInv(s, g, t.groups[g], t);
    case WgDone(g) => WorkerStepKeepsInv(s, g, t.groups[g], t);
    case Watch(g) => WorkerStepKeepsInv(s, g, t.groups[g], t);
  }

  lemma ReachableInv(s: State)
    requires Reachable(s)
    ensures Inv(s)
  {
    forall t, x | Inv(t) && Enabled(t, x)
      ensures Inv(Do(t, x))
    {
      StepKeepsInv(t, x);
    }
    ReachableHas(s, t => Inv(t));
  }
}
