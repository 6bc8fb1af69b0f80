/** The dispatcher does a bounded amount of work for a finite number of calls. */
module Termination {
  import opened Common
  import opened MergeForest
  import opened DispatcherSteps
  import opened DispatcherInvariants
  import Runs

  // ----- the payments held never exceed the calls made -----

  /** How many payments an adder holds or will still send. */
  function Load(): Adder -> nat {
    (a: Adder) => if a.Sent? || a.Rejected? then 0
                  else if a.Draining? && a.hand.Some? then 2 else 1
  }

  function Each(c: nat): nat -> nat {
    (p: nat) => c
  }

  function Buffered(): Group -> nat {
    (g: Group) => Sum(g.ch, Each(1))
  }

  /** Payments still held by adders or channels. */
  function Held(s: State): nat {
    Sum(s.adders, Load()) + Sum(s.groups, Buffered())
  }

  lemma RouteHolds(s: State, i: nat)
    requires Enabled(s, Route(i))
    ensures Held(Do(s, Route(i))) <= Held(s)
  {
    AdderSum(s, Route(i), Load());
    RouteBuffers(s, i);
  }

  /** Routing may flag a group, and leaves every buffer alone. */
  lemma RouteBuffers(s: State, i: nat)
    requires Enabled(s, Route(i))
    ensures Sum(Do(s, Route(i)).groups, Buffered()) == Sum(s.groups, Buffered())
  {
    GroupSum(s, Route(i), Buffered());
  }

  lemma RecheckHolds(s: State, i: nat)
    requires Enabled(s, Recheck(i))
    ensures Held(Do(s, Recheck(i))) <= Held(s)
  {
    AdderSum(s, Recheck(i), Load());
    GroupSum(s, Recheck(i), Buffered());
  }

  lemma ChannelHolds(s: State, step: Step)
    requires Enabled(s, step) && (step.Take? || step.Put? || step.Send?)
    ensures Held(Do(s, step)) <= Held(s)
  {
    match step
    case Take(i) => TakeHolds(s, i);
    case Put(i) => PutHolds(s, i);
    case Send(i) => SendHolds(s, i);
  }

  lemma TakeHolds(s: State, i: nat)
    requires Enabled(s, Take(i))
    ensures Held(Do(s, Take(i))) <= Held(s)
  {
    AdderSum(s, Take(i), Load());
    GroupSum(s, Take(i), Buffered());
    SumFirst(s.groups[s.adders[i].from].ch, Each(1));
  }

  lemma PutHolds(s: State, i: nat)
    requires Enabled(s, Put(i))
    ensures Held(Do(s, Put(i))) <= Held(s)
  {
    AdderSum(s, Put(i), Load());
    GroupSum(s, Put(i), Buffered());
    SumAppend(s.groups[s.adders[i].into].ch, s.adders[i].hand.value, Each(1));
  }

  lemma SendHolds(s: State, i: nat)
    requires Enabled(s, Send(i))
    ensures Held(Do(s, Send(i))) <= Held(s)
  {
    AdderSum(s, Send(i), Load());
    GroupSum(s, Send(i), Buffered());
    SumAppend(s.groups[s.adders[i].target].ch, i, Each(1));
  }

  lemma HeldShrinks(s: State, step: Step)
    requires Enabled(s, step)
    ensures Held(Do(s, step)) <= Held(s) + if step.Submit? then 1 else 0
  {
    if step.Route? {
      RouteHolds(s, step.i);
    } else if step.Recheck? {
      RecheckHolds(s, step.i);
    } else if step.Take? || step.Put? || step.Send? {
      ChannelHolds(s, step);
    } else if Mover(step).Some? {
      SelectHolds(s, step);
    } else {
      WorkerHolds(s, step);
    }
  }

  lemma SelectHolds(s: State, step: Step)
    requires Enabled(s, step) && (step.Acquire? || step.GiveUp? || step.LockDrain? || step.EndDrain?)
    ensures Held(Do(s, step)) <= Held(s)
  {
    AdderSum(s, step, Load());
    GroupSum(s, step, Buffered());
  }

  lemma WorkerHolds(s: State, step: Step)
    requires Enabled(s, step) && Mover(step).None?
    ensures Held(Do(s, step)) <= Held(s) + if step.Submit? then 1 else 0
  {
    AdderSum(s, step, Load());
    WorkerBuffers(s, step);
  }

  /** A worker only takes out of its buffer. */
  lemma WorkerBuffers(s: State, step: Step)
    requires Enabled(s, step) && Mover(step).None?
    ensures Sum(Do(s, step).groups, Buffered()) <= Sum(s.groups, Buffered())
  {
    GroupSum(s, step, Buffered());
    if step.Recv? {
      SumFirst(s.groups[step.g].ch, Each(1));
    }
  }

  ghost predicate Bounded(s: State) {
    Inv(s) && Held(s) <= |s.adders|
  }

  lemma StepKeepsBounded(s: State, step: Step)
    requires Bounded(s) && Enabled(s, step)
    ensures Bounded(Do(s, step))
  {
    StepKeepsInv(s, step);
    HeldShrinks(s, step);
    if Mover(step).Some? {
      CallMoves(s, step);
    } else {
      CallsStand(s, step);
    }
  }

  lemma ReachableBounded(s: State)
    requires Reachable(s)
    ensures Bounded(s)
  {
    forall t, x | Bounded(t) && Enabled(t, x)
      ensures Bounded(Do(t, x))
    {
      StepKeepsBounded(t, x);
    }
    ReachableHas(s, t => Bounded(t));
  }

  // ----- fuel -----

  /** An upper bound on the steps an adder and its payment can still cause when n calls
      were made. A payment in a group of depth d may be drained d times before a worker
      takes it; a call not yet routed may still merge two groups and so deepen n others. */
  function AdderWeight(log: Log, n: nat): Adder -> nat {
    (a: Adder) =>
      match a
      case Start => 2 * n + 11
      case WaitSlot => 10
      case HoldSlot => 9
      case MergeWait(into, _) => 2 * Depth(log, into) + 5
      case Draining(into, _, None) => 2 * Depth(log, into) + 4
      case Draining(into, _, Some(_)) => 4 * Depth(log, into) + 7
      case Sending(g) => 2 * Depth(log, g) + 3
      case _ => 0
  }

  function WorkerLeft(w: Worker): nat {
    match w
    case Idle => 4
    case Busy(_) => 4 + 1
    case FinalDrain => 3
    case FinalBusy(_) => 3 + 1
    case Exiting => 2
    case Released => 1
    case Finished => 0
  }

  function GroupWeight(log: Log): Group -> nat {
    (g: Group) => Sum(g.ch, Each(2 * Depth(log, g.id) + 2)) + WorkerLeft(g.worker) + if g.cancelled then 0 else 1
  }

  /** A bound on the steps still possible if no further call of `add` is made. */
  function Fuel(s: State): nat {
    Sum(s.adders, AdderWeight(s.log, |s.adders|)) + Sum(s.groups, GroupWeight(s.log)) + if s.root then 0 else 1
  }

  // ----- a merge makes payments heavier, but only by two each -----

  lemma DepthGrowsByOne(log: Log, m: Merge, g: nat)
    ensures Depth(log, g) <= Depth(log + [m], g) <= Depth(log, g) + 1
  {
    RepStep(log, m, g);
  }

  lemma AdderRise(log: Log, m: Merge, n: nat, a: Adder)
    ensures AdderWeight(log + [m], n)(a) <= AdderWeight(log, n)(a) + 2 * Load()(a)
  {
    if Target(a).Some? {
      DepthGrowsByOne(log, m, Target(a).value);
    }
  }

  lemma GroupRise(log: Log, m: Merge, g: Group)
    ensures GroupWeight(log + [m])(g) <= GroupWeight(log)(g) + 2 * Buffered()(g)
  {
    DepthGrowsByOne(log, m, g.id);
    SumBound(g.ch, Each(2 * Depth(log + [m], g.id) + 2), Each(2 * Depth(log, g.id) + 2), Each(1), 2);
  }

  lemma MergeRaisesWeight(s: State, m: Merge)
    ensures var n := |s.adders|;
      Sum(s.adders, AdderWeight(s.log + [m], n)) + Sum(s.groups, GroupWeight(s.log + [m]))
      <= Sum(s.adders, AdderWeight(s.log, n)) + Sum(s.groups, GroupWeight(s.log)) + 2 * Held(s)
  {
    var n := |s.adders|;
    forall i | 0 <= i < |s.adders|
      ensures AdderWeight(s.log + [m], n)(s.adders[i]) <= AdderWeight(s.log, n)(s.adders[i]) + 2 * Load()(s.adders[i])
    {
      AdderRise(s.log, m, n, s.adders[i]);
    }
    forall g | 0 <= g < |s.groups|
      ensures GroupWeight(s.log + [m])(s.groups[g]) <= GroupWeight(s.log)(s.groups[g]) + 2 * Buffered()(s.groups[g])
    {
      GroupRise(s.log, m, s.groups[g]);
    }
    SumBound(s.adders, AdderWeight(s.log + [m], n), AdderWeight(s.log, n), Load(), 2);
    SumBound(s.groups, GroupWeight(s.log + [m]), GroupWeight(s.log), Buffered(), 2);
  }

  // ----- every step burns fuel -----

  /** The group the index names is a root. */
  lemma RootIsShallow(s: State, x: Iban)
    requires Inv(s) && x in s.index
    ensures Depth(s.log, s.index[x]) == 0
  {
    RepOfRoot(s.log, s.index[x]);
  }

  lemma EntryIsDeeper(s: State, i: nat)
    requires Inv(s) && i < |s.adders| && s.adders[i].Draining?
    ensures Depth(s.log, s.adders[i].from) == Depth(s.log, s.adders[i].into) + 1
  {
    assert AdderOk(s.adders[i], i, s.groups, s.log, s.routed, s.mu);
    var k :| 0 <= k < |s.log| && s.log[k] == Merge(s.adders[i].from, s.adders[i].into, i);
    EdgeSharesRoot(s.log, k);
  }

  lemma PutInWeight(log: Log, g: Group, p: nat)
    ensures GroupWeight(log)(PutIn(g, p)) == GroupWeight(log)(g) + 2 * Depth(log, g.id) + 2
  {
    SumAppend(g.ch, p, Each(2 * Depth(log, g.id) + 2));
  }

  lemma TakeOutWeight(log: Log, g: Group)
    requires g.ch != []
    ensures GroupWeight(log)(TakeOut(g)) == GroupWeight(log)(g) - 2 * Depth(log, g.id) - 2
  {
    SumFirst(g.ch, Each(2 * Depth(log, g.id) + 2));
  }

  lemma ReceiveWeight(log: Log, g: Group)
    requires g.ch != [] && (g.worker.Idle? || g.worker.FinalDrain?)
    ensures GroupWeight(log)(Receive(g)) < GroupWeight(log)(g)
  {
    SumFirst(g.ch, Each(2 * Depth(log, g.id) + 2));
  }

  /** Adder i moves and no group changes. */
  lemma MoverBurns(s: State, t: State, i: nat)
    requires i < |s.adders| == |t.adders| && t.adders == s.adders[i := t.adders[i]]
    requires t.groups == s.groups && t.log == s.log && t.root == s.root
    requires AdderWeight(s.log, |s.adders|)(t.adders[i]) < AdderWeight(s.log, |s.adders|)(s.adders[i])
    ensures Fuel(t) < Fuel(s)
  {
    SumUpdate(s.adders, i, t.adders[i], AdderWeight(s.log, |s.adders|));
  }

  /** Group g changes and no adder moves. */
  lemma GroupBurns(s: State, t: State, g: nat)
    requires g < |s.groups| == |t.groups| && t.groups == s.groups[g := t.groups[g]]
    requires t.adders == s.adders && t.log == s.log && t.root == s.root
    requires GroupWeight(s.log)(t.groups[g]) < GroupWeight(s.log)(s.groups[g])
    ensures Fuel(t) < Fuel(s)
  {
    SumUpdate(s.groups, g, t.groups[g], GroupWeight(s.log));
  }

  /** Adder i moves a payment in or out of group g. */
  lemma ChannelBurns(s: State, t: State, i: nat, g: nat)
    requires i < |s.adders| == |t.adders| && t.adders == s.adders[i := t.adders[i]]
    requires g < |s.groups| == |t.groups| && t.groups == s.groups[g := t.groups[g]]
    requires t.log == s.log && t.root == s.root
    requires AdderWeight(s.log, |s.adders|)(t.adders[i]) + GroupWeight(s.log)(t.groups[g])
             < AdderWeight(s.log, |s.adders|)(s.adders[i]) + GroupWeight(s.log)(s.groups[g])
    ensures Fuel(t) < Fuel(s)
  {
    SumUpdate(s.adders, i, t.adders[i], AdderWeight(s.log, |s.adders|));
    SumUpdate(s.groups, g, t.groups[g], GroupWeight(s.log));
  }

  lemma TakeBurns(s: State, i: nat)
    requires Inv(s) && Enabled(s, Take(i))
    ensures Fuel(Do(s, Take(i))) < Fuel(s)
  {
    var b := s.adders[i].from;
    EntryIsDeeper(s, i);
    TakeOutWeight(s.log, s.groups[b]);
    assert s.groups[b].id == b;
    ChannelBurns(s, Do(s, Take(i)), i, b);
  }

  lemma PutBurns(s: State, i: nat)
    requires Inv(s) && Enabled(s, Put(i))
    ensures Fuel(Do(s, Put(i))) < Fuel(s)
  {
    var a := s.adders[i].into;
    PutInWeight(s.log, s.groups[a], s.adders[i].hand.value);
    assert s.groups[a].id == a;
    ChannelBurns(s, Do(s, Put(i)), i, a);
  }

  lemma SendBurns(s: State, i: nat)
    requires Inv(s) && Enabled(s, Send(i))
    ensures Fuel(Do(s, Send(i))) < Fuel(s)
  {
    var g := s.adders[i].target;
    PutInWeight(s.log, s.groups[g], i);
    assert s.groups[g].id == g;
    ChannelBurns(s, Do(s, Send(i)), i, g);
  }

  /** A re-check spends its adder's nine steps on three for the adder and five for a new
      group. */
  lemma NewGroupBurns(s: State, t: State, i: nat, n: nat)
    requires Inv(s) && n == |s.groups| && i < |s.adders| && s.adders[i].HoldSlot?
    requires t.groups == s.groups + [NewGroup(n)] && t.adders == s.adders[i := Sending(n)]
    requires t.log == s.log && t.root == s.root
    ensures Fuel(t) < Fuel(s)
  {
    assert !IsSource(s.log, n);
    RepOfRoot(s.log, n);
    assert GroupWeight(s.log)(NewGroup(n)) == 5;
    SumAppend(s.groups, NewGroup(n), GroupWeight(s.log));
    SumUpdate(s.adders, i, Sending(n), AdderWeight(s.log, |s.adders|));
  }

  lemma RecheckBurns(s: State, i: nat)
    requires Inv(s) && Enabled(s, Recheck(i))
    ensures Fuel(Do(s, Recheck(i))) < Fuel(s)
  {
    if s.pay[i].cred in s.index || s.pay[i].deb in s.index {
      LateJoinBurns(s, i);
    } else {
      NewGroupBurns(s, Do(s, Recheck(i)), i, |s.groups|);
    }
  }

  lemma LateJoinBurns(s: State, i: nat)
    requires Inv(s) && Enabled(s, Recheck(i)) && (s.pay[i].cred in s.index || s.pay[i].deb in s.index)
    ensures Fuel(Do(s, Recheck(i))) < Fuel(s)
  {
    var p := s.pay[i];
    RootIsShallow(s, if p.cred in s.index then p.cred else p.deb);
    MoverBurns(s, Do(s, Recheck(i)), i);
  }

  lemma SelectBurns(s: State, step: Step)
    requires Enabled(s, step) && (step.Acquire? || step.GiveUp? || step.LockDrain? || step.EndDrain?)
    ensures Fuel(Do(s, step)) < Fuel(s)
  {
    MoverBurns(s, Do(s, step), step.i);
  }

  lemma WorkerBurns(s: State, step: Step, g: nat)
    requires Enabled(s, step) && Mover(step).None? && Touched(s, step) == Some(g)
    ensures Fuel(Do(s, step)) < Fuel(s)
  {
    var t := Do(s, step);
    if step.Recv? {
      ReceiveWeight(s.log, s.groups[g]);
    } else {
      assert t.groups[g].ch == s.groups[g].ch && t.groups[g].id == s.groups[g].id;
    }
    GroupBurns(s, t, g);
  }

  /** Routing without a merge. */
  lemma ConnectBurns(s: State, i: nat)
    requires Inv(s) && Enabled(s, Route(i)) && Do(s, Route(i)).log == s.log
    ensures Fuel(Do(s, Route(i))) < Fuel(s)
  {
    ConnectFrame(s, i);
    ConnectLightens(s, i);
    MoverBurns(s, Do(s, Route(i)), i);
  }

  lemma ConnectFrame(s: State, i: nat)
    requires Enabled(s, Route(i)) && Do(s, Route(i)).log == s.log
    ensures var t := Do(s, Route(i));
      t.adders == s.adders[i := t.adders[i]] && t.groups == s.groups && t.root == s.root
  {
  }

  lemma ConnectLightens(s: State, i: nat)
    requires Inv(s) && Enabled(s, Route(i)) && Do(s, Route(i)).log == s.log
    ensures AdderWeight(s.log, |s.adders|)(Do(s, Route(i)).adders[i]) < AdderWeight(s.log, |s.adders|)(s.adders[i])
  {
    var p := s.pay[i];
    RouteJoins(s, i);
    if p.cred in s.index {
      RootIsShallow(s, p.cred);
    } else if p.deb in s.index {
      RootIsShallow(s, p.deb);
    }
  }

  lemma RouteJoins(s: State, i: nat)
    requires Enabled(s, Route(i)) && Do(s, Route(i)).log == s.log
    ensures var (a, p) := (Do(s, Route(i)).adders[i], s.pay[i]);
      || a.Rejected? || a.WaitSlot?
      || (p.cred in s.index && a == Sending(s.index[p.cred]))
      || (p.cred !in s.index && p.deb in s.index && a == Sending(s.index[p.deb]))
  {
  }

  /** A merge makes payments heavier, but uses up one call that had not been routed. */
  lemma MergeBurns(s: State, i: nat, a: nat, b: nat)
    requires Bounded(s) && i < |s.adders| && s.adders[i].Start?
    requires a < |s.groups| && b < |s.groups| && a != b && !s.groups[a].merging
    ensures Fuel(BeginMerge(s, i, a, b)) < Fuel(s)
  {
    var log := s.log + [Merge(b, a, i)];
    MergeRaisesWeight(s, Merge(b, a, i));
    RepOfRoot(s.log, a);
    RepStep(s.log, Merge(b, a, i), a);
    SumUpdate(s.adders, i, MergeWait(a, b), AdderWeight(log, |s.adders|));
    var x := s.groups[b].(merging := true, cancelled := true);
    assert GroupWeight(log)(x) <= GroupWeight(log)(s.groups[b]);
    SumUpdate(s.groups, b, x, GroupWeight(log));
  }

  lemma RouteBurns(s: State, i: nat)
    requires Bounded(s) && Enabled(s, Route(i))
    ensures Fuel(Do(s, Route(i))) < Fuel(s)
  {
    if Do(s, Route(i)).log == s.log {
      ConnectBurns(s, i);
    } else {
      MergeBurns(s, i, s.index[s.pay[i].cred], s.index[s.pay[i].deb]);
    }
  }

  /** Every step but a new call burns fuel, with or without a shutdown. */
  lemma StepBurns(s: State, step: Step)
    requires Bounded(s) && Enabled(s, step) && !step.Submit?
    ensures Fuel(Do(s, step)) < Fuel(s)
  {
    if Mover(step).Some? {
      CallBurns(s, step);
    } else if step.Shutdown? {
      ShutdownBurns(s);
    } else {
      WorkerBurns(s, step, Touched(s, step).value);
    }
  }

  lemma ShutdownBurns(s: State)
    requires Enabled(s, Shutdown)
    ensures Fuel(Do(s, Shutdown)) < Fuel(s)
  {
  }

  lemma CallBurns(s: State, step: Step)
    requires Bounded(s) && Enabled(s, step) && Mover(step).Some?
    ensures Fuel(Do(s, step)) < Fuel(s)
  {
    match step
    case Route(i) => RouteBurns(s, i);
    case Recheck(i) => RecheckBurns(s, i);
    case Take(i) => TakeBurns(s, i);
    case Put(i) => PutBurns(s, i);
    case Send(i) => SendBurns(s, i);
    case _ => SelectBurns(s, step);
  }

  /** No run is infinite once calls stop: from any reachable state at most Fuel(s) further
      steps can be taken. */
  lemma RunsAreBounded(s: State, steps: seq<Step>)
    requires Reachable(s) && Runs.Valid(Machine(), s, steps)
    requires forall k :: 0 <= k < |steps| ==> !steps[k].Submit?
    ensures |steps| <= Fuel(s)
  {
    ReachableBounded(s);
    BoundedRuns(s, steps);
  }

  lemma {:induction false} BoundedRuns(s: State, steps: seq<Step>)
    requires Bounded(s) && Runs.Valid(Machine(), s, steps)
    requires forall k :: 0 <= k < |steps| ==> !steps[k].Submit?
    ensures var t := Runs.After(Machine(), s, steps);
      Bounded(t) && |steps| + Fuel(t) <= Fuel(s)
    decreases |steps|
  {
    if steps != [] {
      var n := |steps| - 1;
      BoundedRuns(s, steps[..n]);
      var t := Runs.After(Machine(), s, steps[..n]);
      StepBurns(t, steps[n]);
      StepKeepsBounded(t, steps[n]);
    }
  }

  /** The dispatcher just started, with the given calls of `add` under way. */
  function Fresh(max: nat, pay: seq<Payment>): State {
    Init(max).(pay := pay, adders := seq(|pay|, _ => Start))
  }

  /** With n calls in all, the whole life of the dispatcher takes at most n (2n + 11) + 1
      steps, whatever the interleaving and whenever the shutdown comes. */
  lemma LifeIsBounded(max: nat, pay: seq<Payment>, steps: seq<Step>)
    requires Runs.Valid(Machine(), Fresh(max, pay), steps)
    requires forall k :: 0 <= k < |steps| ==> !steps[k].Submit?
    ensures |steps| <= |pay| * (2 * |pay| + 11) + 1
  {
    var s := Fresh(max, pay);
    SumStarts(|pay|, Load(), 1);
    SumStarts(|pay|, AdderWeight(s.log, |pay|), 2 * |pay| + 11);
    BoundedRuns(s, steps);
  }

  lemma {:induction false} SumStarts(n: nat, f: Adder -> nat, c: nat)
    requires f(Start) == c
    ensures Sum(seq(n, _ => Start), f) == n * c
  {
    if n > 0 {
      SumStarts(n - 1, f, c);
      assert seq(n, _ => Start)[..n - 1] == seq(n - 1, _ => Start);
    }
  }
}
