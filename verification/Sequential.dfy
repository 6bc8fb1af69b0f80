/** Calls of `add` that follow one another, as in the recovery loop: the next call begins
    when the last one has returned, while workers run freely. Such runs never split a group
    and are strictly serial. */
module Sequential {
  import opened Common
  import opened MergeForest
  import opened DispatcherSteps
  import opened DispatcherInvariants
  import opened Serialisation
  import Components
  import Runs

  predicate Returned(a: Adder) {
    a.Sent? || a.Rejected?
  }

  predicate AllReturned(s: State) {
    forall i :: 0 <= i < |s.adders| ==> Returned(s.adders[i])
  }

  predicate Allowed(s: State, step: Step) {
    Enabled(s, step) && (step.Submit? ==> AllReturned(s))
  }

  function Machine(): Runs.System<State, Step> {
    Runs.System((s: State, step: Step) => Allowed(s, step), (s: State, step: Step) => Next(s, step))
  }

  ghost predicate ReachableInTurn(s: State) {
    Runs.Reaches(Machine(), Init(s.max), s)
  }

  // ----- the invariant -----

  /** The last call, the only one that may not have returned. */
  function Active(s: State): Adder {
    if s.adders == [] then Sent else s.adders[|s.adders| - 1]
  }

  ghost predicate OneActive(s: State) {
    forall i :: 0 <= i < |s.adders| - 1 ==> Returned(s.adders[i])
  }

  /** A call that waits for a slot, or holds one, still finds neither IBAN indexed. */
  ghost predicate NewcomerUnknown(s: State) {
    forall i :: 0 <= i < |s.adders| && i < |s.pay| && IsNewcomer(s.adders[i]) ==>
      s.pay[i].cred !in s.index && s.pay[i].deb !in s.index
  }

  predicate IsNewcomer(a: Adder) {
    a.WaitSlot? || a.HoldSlot?
  }

  ghost predicate TargetsLive(s: State) {
    forall i :: 0 <= i < |s.adders| && Target(s.adders[i]).Some? ==> IsLive(s.groups, Target(s.adders[i]).value)
  }

  predicate IsLive(groups: seq<Group>, g: nat) {
    g < |groups| && !groups[g].merging
  }

  /** Payment p is in the channel of the group or with its worker. */
  predicate Holds(g: Group, p: nat) {
    p in g.ch || p in Flight(g.worker)
  }

  predicate Empty(g: Group) {
    g.ch == [] && Flight(g.worker) == []
  }

  predicate Unrelated(pay: seq<Payment>, p: nat, q: nat) {
    p < |pay| && q < |pay| && !Conflict(pay[p], pay[q])
  }

  /** The group that a merger is emptying. */
  function Source(a: Adder): Option<nat> {
    match a
    case MergeWait(_, from) => Some(from)
    case Draining(_, from, _) => Some(from)
    case _ => None
  }

  /** Merged groups other than x hold nothing any more. */
  ghost predicate CleanBut(groups: seq<Group>, x: Option<nat>) {
    forall g :: 0 <= g < |groups| && groups[g].merging && x != Some(g) ==> Empty(groups[g])
  }

  /** Nothing will ever be sent again: the root is cancelled and no call is past its first check. */
  predicate Halted(s: State) {
    s.root && (Active(s).Start? || Returned(Active(s)))
  }

  ghost predicate HoldUnrelated(groups: seq<Group>, pay: seq<Payment>) {
    forall g, h, p, q ::
      0 <= g < |groups| && 0 <= h < |groups| && g != h && Holds(groups[g], p) && Holds(groups[h], q) ==>
      Unrelated(pay, p, q)
  }

  /** Merged groups are empty, except the one being emptied, unless nothing is ever sent again;
      and no two groups hold related payments, except while one is poured into the other. */
  ghost predicate Tidy(s: State) {
    && (CleanBut(s.groups, Source(Active(s))) || Halted(s))
    && (Active(s).Draining? || HoldUnrelated(s.groups, s.pay))
  }

  ghost predicate InTurn(s: State) {
    && Inv(s) && Routed(s) && !s.split
    && OneActive(s) && NewcomerUnknown(s) && TargetsLive(s) && Tidy(s)
  }

  // ----- when groups hold disjoint payments -----

  lemma HeldIsIndexed(s: State, g: nat, p: nat)
    requires Inv(s) && Routed(s) && g < |s.groups| && Holds(s.groups[g], p)
    ensures IndexedAt(s, p, g)
  {
    assert GroupOk(s.groups[g]);
    assert p in s.groups[g].sent;
  }

  /** Payments of two groups that were never merged away share no IBAN. */
  lemma RootsDisjoint(s: State, g: nat, h: nat, p: nat, q: nat)
    requires Inv(s) && Routed(s) && IsLive(s.groups, g) && IsLive(s.groups, h) && g != h
    requires Holds(s.groups[g], p) && Holds(s.groups[h], q)
    ensures Unrelated(s.pay, p, q)
  {
    HeldIsIndexed(s, g, p);
    HeldIsIndexed(s, h, q);
    RepOfRoot(s.log, g);
    RepOfRoot(s.log, h);
  }

  lemma CleanIsDisjoint(s: State)
    requires Inv(s) && Routed(s) && CleanBut(s.groups, None)
    ensures HoldUnrelated(s.groups, s.pay)
  {
    forall g, h, p, q |
      0 <= g < |s.groups| && 0 <= h < |s.groups| && g != h && Holds(s.groups[g], p) && Holds(s.groups[h], q)
      ensures Unrelated(s.pay, p, q)
    {
      assert !Empty(s.groups[g]) && !Empty(s.groups[h]);
      RootsDisjoint(s, g, h, p, q);
    }
  }

  // ----- steps of workers -----

  /** A group that holds no more than it did. */
  ghost predicate Less(g: Group, next: Group) {
    next.merging == g.merging && (forall p :: Holds(next, p) ==> Holds(g, p)) && (Empty(g) ==> Empty(next))
  }

  ghost predicate Shrinks(groups: seq<Group>, next: seq<Group>) {
    |next| == |groups| && forall g :: 0 <= g < |groups| ==> Less(groups[g], next[g])
  }

  lemma ShrinkKeeps(groups: seq<Group>, next: seq<Group>, x: Option<nat>, pay: seq<Payment>)
    requires Shrinks(groups, next)
    ensures CleanBut(groups, x) ==> CleanBut(next, x)
    ensures HoldUnrelated(groups, pay) ==> HoldUnrelated(next, pay)
  {
    if HoldUnrelated(groups, pay) {
      forall g, h, p, q | 0 <= g < |next| && 0 <= h < |next| && g != h && Holds(next[g], p) && Holds(next[h], q)
        ensures Unrelated(pay, p, q)
      {
        assert Less(groups[g], next[g]) && Less(groups[h], next[h]);
      }
    }
  }

  lemma ReceiveHoldsLess(g: Group)
    requires g.ch != [] && (g.worker.Idle? || g.worker.FinalDrain?)
    ensures Less(g, Receive(g))
  {
  }

  lemma WorkerHoldsLess(s: State, step: Step, g: nat)
    requires Enabled(s, step) && Mover(step).None? && Touched(s, step) == Some(g)
    ensures g < |s.groups| && Do(s, step).groups == s.groups[g := Do(s, step).groups[g]]
    ensures Less(s.groups[g], Do(s, step).groups[g])
  {
    if step.Recv? {
      ReceiveHoldsLess(s.groups[g]);
    }
  }

  lemma WorkerShrinks(s: State, step: Step)
    requires Enabled(s, step) && Mover(step).None? && !step.Submit?
    ensures Shrinks(s.groups, Do(s, step).groups)
  {
    if Touched(s, step).Some? {
      WorkerHoldsLess(s, step, Touched(s, step).value);
    }
  }

  /** The adders, the index and the payments stay as they are, and contents shrink. */
  lemma ShrinkInTurn(s: State, t: State)
    requires InTurn(s) && Inv(t) && Routed(t) && !t.split
    requires t.adders == s.adders && t.index == s.index && t.pay == s.pay && (s.root ==> t.root)
    requires Shrinks(s.groups, t.groups)
    ensures InTurn(t)
  {
    ShrinkKeeps(s.groups, t.groups, Source(Active(s)), s.pay);
    forall i | 0 <= i < |t.adders| && Target(t.adders[i]).Some?
      ensures IsLive(t.groups, Target(t.adders[i]).value)
    {
      var g := Target(s.adders[i]).value;
      assert IsLive(s.groups, g);
      assert Less(s.groups[g], t.groups[g]);
    }
  }

  lemma WorkerFrame(s: State, step: Step)
    requires Enabled(s, step) && Mover(step).None? && !step.Submit?
    ensures var t := Do(s, step);
      t.adders == s.adders && t.index == s.index && t.pay == s.pay && (s.root ==> t.root) && t.split == s.split
  {
  }

  lemma WorkerInTurn(s: State, step: Step)
    requires InTurn(s) && Enabled(s, step) && Mover(step).None? && !step.Submit?
    ensures InTurn(Do(s, step))
  {
    WorkerFrame(s, step);
    StepKeepsInv(s, step);
    StepKeepsRouted(s, step);
    WorkerShrinks(s, step);
    ShrinkInTurn(s, Do(s, step));
  }

  // ----- steps of the one active call -----

  lemma LongerPay(groups: seq<Group>, pay: seq<Payment>, p: Payment)
    requires HoldUnrelated(groups, pay)
    ensures HoldUnrelated(groups, pay + [p])
  {
    forall g, h, a, b | 0 <= g < |groups| && 0 <= h < |groups| && g != h && Holds(groups[g], a) && Holds(groups[h], b)
      ensures Unrelated(pay + [p], a, b)
    {
      assert Unrelated(pay, a, b);
    }
  }

  lemma SubmitInTurn(s: State, p: Payment)
    requires InTurn(s) && Allowed(s, Submit(p))
    ensures InTurn(Do(s, Submit(p)))
  {
    SubmitKeepsInv(s, p);
    AdderMoveKeepsRouted(s, Submit(p));
    LongerPay(s.groups, s.pay, p);
    NewCallInTurn(s, Do(s, Submit(p)));
  }

  /** A new call finds that all others have returned. */
  lemma NewCallInTurn(s: State, t: State)
    requires InTurn(s) && AllReturned(s) && Inv(t) && Routed(t)
    requires t.adders == s.adders + [Start] && s.pay <= t.pay && t.groups == s.groups && t.index == s.index
    requires t.root == s.root && t.split == s.split && HoldUnrelated(t.groups, t.pay)
    ensures InTurn(t)
  {
    assert Returned(Active(s)) && Active(t) == Start;
  }

  lemma CanMove(s: State, step: Step)
    requires Enabled(s, step) && Mover(step).Some?
    ensures Mover(step).value < |s.adders| && !Returned(s.adders[Mover(step).value])
  {
  }

  lemma OnlyLastMoves(s: State, step: Step)
    requires OneActive(s) && Enabled(s, step) && Mover(step).Some?
    ensures Mover(step).value == |s.adders| - 1 && OneActive(Do(s, step))
    ensures |Do(s, step).adders| == |s.adders|
    ensures Active(s) == s.adders[Mover(step).value] && Active(Do(s, step)) == Do(s, step).adders[Mover(step).value]
  {
    CallMoves(s, step);
    CanMove(s, step);
  }

  /** Since every other call has returned, only the active one has to be looked at. */
  lemma ActiveInTurn(t: State)
    requires Inv(t) && Routed(t) && !t.split && OneActive(t) && t.adders != [] && Tidy(t)
    requires var p := t.pay[|t.adders| - 1]; IsNewcomer(Active(t)) ==> p.cred !in t.index && p.deb !in t.index
    requires Target(Active(t)).Some? ==> IsLive(t.groups, Target(Active(t)).value)
    ensures InTurn(t)
  {
    OnlyActiveIsLeft(t);
  }

  lemma OnlyActiveIsLeft(t: State)
    requires |t.adders| == |t.pay| && OneActive(t) && t.adders != []
    requires var p := t.pay[|t.adders| - 1]; IsNewcomer(Active(t)) ==> p.cred !in t.index && p.deb !in t.index
    requires Target(Active(t)).Some? ==> IsLive(t.groups, Target(Active(t)).value)
    ensures NewcomerUnknown(t) && TargetsLive(t)
  {
  }

  lemma CleanInTurn(t: State)
    requires Inv(t) && Routed(t) && !t.split && OneActive(t) && t.adders != [] && CleanBut(t.groups, None)
    requires Source(Active(t)).None?
    requires var p := t.pay[|t.adders| - 1]; IsNewcomer(Active(t)) ==> p.cred !in t.index && p.deb !in t.index
    requires Target(Active(t)).Some? ==> IsLive(t.groups, Target(Active(t)).value)
    ensures InTurn(t)
  {
    CleanIsDisjoint(t);
    ActiveInTurn(t);
  }

  /** Flagging a group leaves its content and its worker's payment where they are. */
  lemma FlagKeepsTidy(groups: seq<Group>, b: nat, pay: seq<Payment>)
    requires b < |groups| && CleanBut(groups, None) && HoldUnrelated(groups, pay)
    ensures var next := groups[b := groups[b].(merging := true, cancelled := true)];
      CleanBut(next, Some(b)) && HoldUnrelated(next, pay)
  {
    var next := groups[b := groups[b].(merging := true, cancelled := true)];
    forall g, h, p, q | 0 <= g < |next| && 0 <= h < |next| && g != h && Holds(next[g], p) && Holds(next[h], q)
      ensures Unrelated(pay, p, q)
    {
      assert Holds(groups[g], p) && Holds(groups[h], q);
    }
  }

  lemma MergeInTurn(s: State, a: nat, b: nat, t: State)
    requires InTurn(s) && s.adders != [] && Active(s) == Start && !s.root
    requires IsLive(s.groups, a) && IsLive(s.groups, b) && a != b
    requires t.adders == s.adders[|s.adders| - 1 := MergeWait(a, b)] && t.pay == s.pay && t.split == s.split
    requires t.groups == s.groups[b := s.groups[b].(merging := true, cancelled := true)] && Inv(t) && Routed(t)
    ensures InTurn(t)
  {
    FlagKeepsTidy(s.groups, b, s.pay);
    assert Active(t) == MergeWait(a, b) && Tidy(t);
    ActiveInTurn(t);
  }

  lemma ConnectInTurn(s: State, g: nat, t: State)
    requires InTurn(s) && s.adders != [] && IsLive(t.groups, g)
    requires t.adders == s.adders[|s.adders| - 1 := Sending(g)] && CleanBut(t.groups, None)
    requires Inv(t) && Routed(t) && !t.split
    ensures InTurn(t)
  {
    assert Active(t) == Sending(g);
    CleanInTurn(t);
  }

  lemma RouteInTurn(s: State, i: nat)
    requires InTurn(s) && Enabled(s, Route(i))
    ensures InTurn(Do(s, Route(i)))
  {
    var t := Do(s, Route(i));
    OnlyLastMoves(s, Route(i));
    RouteKeepsInv(s, i);
    RouteKeepsRouted(s, i);
    var p := s.pay[i];
    if s.root {
      ActiveInTurn(t);
    } else {
      match (Lookup(s.index, p.cred), Lookup(s.index, p.deb))
      case (None, None) => CleanInTurn(t);
      case (Some(a), None) => ConnectInTurn(s, a, t);
      case (None, Some(b)) => ConnectInTurn(s, b, t);
      case (Some(a), Some(b)) =>
        if a == b {
          ConnectInTurn(s, a, t);
        } else {
          MergeInTurn(s, a, b, t);
        }
    }
  }

  /** The re-check finds what the first look-up found: neither IBAN is indexed. */
  lemma RecheckFindsNothing(s: State, i: nat)
    requires InTurn(s) && Enabled(s, Recheck(i))
    ensures var t := Do(s, Recheck(i));
      t.split == s.split && t.adders == s.adders[i := Sending(|s.groups|)]
        && t.groups == s.groups + [NewGroup(|s.groups|)]
  {
    assert IsNewcomer(s.adders[i]);
  }

  lemma RecheckInTurn(s: State, i: nat)
    requires InTurn(s) && Enabled(s, Recheck(i))
    ensures InTurn(Do(s, Recheck(i)))
  {
    OnlyLastMoves(s, Recheck(i));
    RecheckFindsNothing(s, i);
    RecheckKeepsInv(s, i);
    RecheckKeepsRouted(s, i);
    HoldingIsClean(s);
    NewGroupIsClean(s.groups);
    ConnectInTurn(s, |s.groups|, Do(s, Recheck(i)));
  }

  lemma HoldingIsClean(s: State)
    requires Tidy(s) && Active(s).HoldSlot?
    ensures CleanBut(s.groups, None)
  {
  }

  lemma NewGroupIsClean(groups: seq<Group>)
    requires CleanBut(groups, None)
    ensures var next := groups + [NewGroup(|groups|)]; CleanBut(next, None) && IsLive(next, |groups|)
  {
  }

  lemma SelectInTurn(s: State, step: Step)
    requires InTurn(s) && Enabled(s, step) && (step.Acquire? || step.GiveUp? || step.LockDrain?)
    ensures InTurn(Do(s, step))
  {
    OnlyLastMoves(s, step);
    SelectStepKeepsInv(s, step);
    AdderMoveKeepsRouted(s, step);
    PcInTurn(s, Do(s, step));
  }

  /** Only the program counter of the active call, the semaphore and the mutex move. */
  lemma PcInTurn(s: State, t: State)
    requires InTurn(s) && s.adders != [] && Inv(t) && Routed(t) && OneActive(t)
    requires t == s.(adders := s.adders[|s.adders| - 1 := Active(t)], sem := t.sem, mu := t.mu)
    requires (Active(t).HoldSlot? && Active(s).WaitSlot?)
      || (Active(t).Rejected? && s.root && !Active(s).Draining?)
      || (Active(t).Draining? && Active(s).MergeWait?
          && Target(Active(t)) == Target(Active(s)) && Source(Active(t)) == Source(Active(s)))
    ensures InTurn(t)
  {
    assert IsNewcomer(Active(t)) ==> IsNewcomer(s.adders[|s.adders| - 1]);
    assert Target(Active(t)).Some? ==> IsLive(s.groups, Target(s.adders[|s.adders| - 1]).value);
    ActiveInTurn(t);
  }

  /** The group being emptied has no worker any more. */
  lemma DrainedIsStopped(s: State)
    requires Inv(s) && s.adders != [] && Active(s).Draining?
    ensures var b := Active(s).from; b < |s.groups| && s.groups[b].merging && Flight(s.groups[b].worker) == []
  {
    var n := |s.adders| - 1;
    assert AdderOk(s.adders[n], n, s.groups, s.log, s.routed, s.mu);
    assert GroupOk(s.groups[s.adders[n].from]);
  }

  /** The active call goes on draining; the channels of live groups may have grown. */
  lemma DrainingInTurn(s: State, t: State)
    requires InTurn(s) && s.adders != [] && Inv(t) && Routed(t) && OneActive(t) && !t.split
    requires t.pay == s.pay && t.index == s.index && t.adders == s.adders[|s.adders| - 1 := Active(t)]
    requires Active(s).Draining? && Active(t).Draining? && Active(t).into == Active(s).into
      && Active(t).from == Active(s).from
    requires |t.groups| == |s.groups|
    requires forall g :: 0 <= g < |s.groups| ==>
      && t.groups[g].merging == s.groups[g].merging
      && (t.groups[g].merging && Active(s).from != g ==> t.groups[g] == s.groups[g])
    ensures InTurn(t)
  {
    assert IsLive(s.groups, Target(s.adders[|s.adders| - 1]).value);
    ActiveInTurn(t);
  }

  lemma TakeInTurn(s: State, i: nat)
    requires InTurn(s) && Enabled(s, Take(i))
    ensures InTurn(Do(s, Take(i)))
  {
    OnlyLastMoves(s, Take(i));
    TakeKeepsInv(s, i);
    DrainKeepsRouted(s, Take(i));
    DrainingInTurn(s, Do(s, Take(i)));
  }

  lemma PutInTurn(s: State, i: nat)
    requires InTurn(s) && Enabled(s, Put(i))
    ensures InTurn(Do(s, Put(i)))
  {
    OnlyLastMoves(s, Put(i));
    PutKeepsInv(s, i);
    PutKeepsRouted(s, i);
    PutSends(s, i);
    PutKeepsMerged(s, i);
    DrainingInTurn(s, Do(s, Put(i)));
  }

  /** A merger puts payments into a live group only. */
  lemma PutKeepsMerged(s: State, i: nat)
    requires TargetsLive(s) && Enabled(s, Put(i))
    ensures var t := Do(s, Put(i));
      && |t.groups| == |s.groups| && t.split == s.split
      && t.adders[i].Draining? && t.adders[i].into == s.adders[i].into && t.adders[i].from == s.adders[i].from
      && forall g :: 0 <= g < |s.groups| ==>
        t.groups[g].merging == s.groups[g].merging && (t.groups[g].merging ==> t.groups[g] == s.groups[g])
  {
    assert IsLive(s.groups, Target(s.adders[i]).value);
  }

  lemma EndDrainInTurn(s: State, i: nat)
    requires InTurn(s) && Enabled(s, EndDrain(i))
    ensures InTurn(Do(s, EndDrain(i)))
  {
    OnlyLastMoves(s, EndDrain(i));
    EndDrainKeepsInv(s, i);
    DrainKeepsRouted(s, EndDrain(i));
    EndDrainSendsNothing(s, i);
    DrainedIsClean(s, i);
    ConnectInTurn(s, s.adders[i].into, Do(s, EndDrain(i)));
  }

  /** At the end of the drain no merged group holds anything. */
  lemma DrainedIsClean(s: State, i: nat)
    requires InTurn(s) && i == |s.adders| - 1 && Enabled(s, EndDrain(i))
    ensures CleanBut(s.groups, None) && IsLive(s.groups, s.adders[i].into)
  {
    DrainedIsStopped(s);
    assert IsLive(s.groups, Target(s.adders[i]).value);
  }

  lemma SendInTurn(s: State, i: nat)
    requires InTurn(s) && Enabled(s, Send(i))
    ensures InTurn(Do(s, Send(i)))
  {
    OnlyLastMoves(s, Send(i));
    SendKeepsInv(s, i);
    SendKeepsRouted(s, i);
    SendIsClean(s, i);
    CleanInTurn(Do(s, Send(i)));
  }

  lemma SendIsClean(s: State, i: nat)
    requires InTurn(s) && i == |s.adders| - 1 && Enabled(s, Send(i))
    ensures var t := Do(s, Send(i));
      CleanBut(t.groups, None) && t.adders == s.adders[i := Sent] && t.split == s.split
  {
    assert IsLive(s.groups, Target(s.adders[i]).value);
    SendKeepsClean(s.groups, s.adders[i].target, i);
  }

  lemma SendKeepsClean(groups: seq<Group>, g: nat, p: nat)
    requires CleanBut(groups, None) && IsLive(groups, g)
    ensures CleanBut(groups[g := PutIn(groups[g], p)], None)
  {
  }

  lemma StepInTurn(s: State, step: Step)
    requires InTurn(s) && Allowed(s, step)
    ensures InTurn(Do(s, step))
  {
    match step
    case Submit(p) => SubmitInTurn(s, p);
    case Route(i) => RouteInTurn(s, i);
    case Recheck(i) => RecheckInTurn(s, i);
    case Take(i) => TakeInTurn(s, i);
    case Put(i) => PutInTurn(s, i);
    case EndDrain(i) => EndDrainInTurn(s, i);
    case Send(i) => SendInTurn(s, i);
    case Acquire(_) => SelectInTurn(s, step);
    case GiveUp(_) => SelectInTurn(s, step);
    case LockDrain(_) => SelectInTurn(s, step);
    case _ => WorkerInTurn(s, step);
  }

  // ----- runs -----

  lemma ReachedInTurn(s: State)
    requires ReachableInTurn(s)
    ensures InTurn(s)
  {
    forall t, x | InTurn(t) && Allowed(t, x)
      ensures InTurn(Do(t, x))
    {
      StepInTurn(t, x);
    }
    var steps :| Runs.Valid(Machine(), Init(s.max), steps) && Runs.After(Machine(), Init(s.max), steps) == s;
    Runs.Invariant(Machine(), (t: State) => InTurn(t), Init(s.max), steps);
  }

  lemma {:induction false} RunInTurn(s: State, steps: seq<Step>)
    requires Runs.Valid(Machine(), s, steps)
    ensures Runs.Valid(DispatcherSteps.Machine(), s, steps)
    ensures Runs.After(DispatcherSteps.Machine(), s, steps) == Runs.After(Machine(), s, steps)
    decreases |steps|
  {
    if steps != [] {
      RunInTurn(s, steps[..|steps| - 1]);
    }
  }

  lemma InTurnIsReachable(s: State)
    requires ReachableInTurn(s)
    ensures Reachable(s)
  {
    var steps :| Runs.Valid(Machine(), Init(s.max), steps) && Runs.After(Machine(), Init(s.max), steps) == s;
    RunInTurn(Init(s.max), steps);
  }

  /** With one call of `add` at a time, conflicting payments are never processed at once,
      not even while groups merge, and no group is ever split. */
  lemma OneCallAtATimeIsSerial(s: State)
    requires ReachableInTurn(s)
    ensures Reachable(s) && Serial(s) && !s.split
  {
    ReachedInTurn(s);
    InTurnIsReachable(s);
    forall p: nat, q: nat, g: nat, h: nat | InFlight(s, p, g) && InFlight(s, q, h) && g != h
      ensures p < |s.pay| && q < |s.pay| && !Conflict(s.pay[p], s.pay[q])
    {
      FlightsUnrelated(s, p, q, g, h);
    }
  }

  lemma FlightsUnrelated(s: State, p: nat, q: nat, g: nat, h: nat)
    requires InTurn(s) && InFlight(s, p, g) && InFlight(s, q, h) && g != h
    ensures Unrelated(s.pay, p, q)
  {
    assert Holds(s.groups[g], p) && Holds(s.groups[h], q);
    if Active(s).Draining? {
      DrainedIsStopped(s);
      assert !Empty(s.groups[g]) && !Empty(s.groups[h]);
      RootsDisjoint(s, g, h, p, q);
    }
  }

  /** With one call of `add` at a time, the index always is the partition into connected
      components. */
  lemma OneCallAtATimeKeepsComponents(s: State, x: Iban, y: Iban)
    requires ReachableInTurn(s) && x in s.index
    ensures y in s.index && s.index[x] == s.index[y] <==> Components.Connected(Components.PaymentGraph(s), x, y)
  {
    OneCallAtATimeIsSerial(s);
    Components.GroupsAreComponents(s, x, y);
  }
}
