/** What the dispatcher is for: payments that share an IBAN are not processed at once. */
module Serialisation {
  import opened Common
  import opened MergeForest
  import opened DispatcherSteps
  import opened DispatcherInvariants

  predicate Conflict(p: Payment, q: Payment) {
    p.cred == q.cred || p.cred == q.deb || p.deb == q.cred || p.deb == q.deb
  }

  /** Payment p is inside ProcessTX, called by the worker of group g. */
  predicate InFlight(s: State, p: nat, g: nat) {
    g < |s.groups| && Flight(s.groups[g].worker) == [p]
  }

  /** ProcessTX, called by the worker of group g, has returned for payment p. */
  predicate ProcessedAt(s: State, p: nat, g: nat) {
    g < |s.groups| && p in s.groups[g].done
  }

  ghost predicate Processed(s: State, p: nat) {
    exists g: nat :: ProcessedAt(s, p, g)
  }

  predicate BegunAt(s: State, p: nat, g: nat) {
    InFlight(s, p, g) || ProcessedAt(s, p, g)
  }

  /** ProcessTX has been called for p. */
  ghost predicate Begun(s: State, p: nat) {
    exists g: nat :: BegunAt(s, p, g)
  }

  /** Group g is merging into another group, but its worker has not yet closed DrainReady. */
  predicate WindowOpen(s: State, g: nat) {
    g < |s.groups| && s.groups[g].merging && !s.groups[g].drainReady
  }

  /** No two payments that share an IBAN are in flight at once. */
  ghost predicate Serial(s: State) {
    forall p: nat, q: nat, g: nat, h: nat :: InFlight(s, p, g) && InFlight(s, q, h) && g != h ==>
      p < |s.pay| && q < |s.pay| && !Conflict(s.pay[p], s.pay[q])
  }

  // ----- the index follows the merge forest -----

  /** Both IBANs of payment p are indexed at the group that stands for g. */
  ghost predicate IndexedAt(s: State, p: nat, g: nat) {
    && p < |s.pay|
    && s.pay[p].cred in s.index && s.index[s.pay[p].cred] == Rep(s.log, g)
    && s.pay[p].deb in s.index && s.index[s.pay[p].deb] == Rep(s.log, g)
  }

  /** A merger has taken p out of a channel and is about to put it into group g. */
  predicate Carries(a: Adder, p: nat, g: nat) {
    a.Draining? && a.into == g && a.hand == Some(p)
  }

  ghost predicate TargetsOk(s: State) {
    forall i :: 0 <= i < |s.adders| && Target(s.adders[i]).Some? ==> IndexedAt(s, i, Target(s.adders[i]).value)
  }

  /** Every payment that ever entered the channel of g is indexed at the root of g. */
  ghost predicate SentOk(s: State) {
    forall g, p :: 0 <= g < |s.groups| && p in s.groups[g].sent ==> IndexedAt(s, p, g)
  }

  ghost predicate Routed(s: State) {
    TargetsOk(s) && SentOk(s)
  }

  lemma IndexIsRoot(s: State, x: Iban)
    requires Inv(s) && x in s.index
    ensures Rep(s.log, s.index[x]) == s.index[x]
  {
    RepOfRoot(s.log, s.index[x]);
  }

  /** A relabelling moves an IBAN exactly as the forest moves its group. */
  lemma MergeKeepsRouted(s: State, i: nat, a: nat, b: nat)
    requires Inv(s) && Routed(s) && i < |s.adders| && s.adders[i].Start?
    requires s.pay[i].cred in s.index && s.index[s.pay[i].cred] == a
    requires s.pay[i].deb in s.index && s.index[s.pay[i].deb] == b && a != b
    ensures Routed(BeginMerge(s, i, a, b))
  {
    MergeKeepsSent(s, i, a, b);
    MergeKeepsTargets(s, i, a, b);
  }

  lemma MergeKeepsSent(s: State, i: nat, a: nat, b: nat)
    requires SentOk(s) && i < |s.adders| && b < |s.groups|
    ensures SentOk(BeginMerge(s, i, a, b))
  {
    var t := BeginMerge(s, i, a, b);
    forall g, p | 0 <= g < |t.groups| && p in t.groups[g].sent
      ensures IndexedAt(t, p, g)
    {
      assert p in s.groups[g].sent;
      RelabelFollows(s, i, a, b, p, g);
    }
  }

  lemma MergeKeepsTargets(s: State, i: nat, a: nat, b: nat)
    requires Inv(s) && TargetsOk(s) && i < |s.adders| && s.adders[i].Start?
    requires s.pay[i].cred in s.index && s.index[s.pay[i].cred] == a
    requires s.pay[i].deb in s.index && s.index[s.pay[i].deb] == b && a != b
    ensures TargetsOk(BeginMerge(s, i, a, b))
  {
    var t := BeginMerge(s, i, a, b);
    IndexIsRoot(s, s.pay[i].cred);
    RepStep(s.log, Merge(b, a, i), a);
    forall j | 0 <= j < |t.adders| && Target(t.adders[j]).Some?
      ensures IndexedAt(t, j, Target(t.adders[j]).value)
    {
      if j != i {
        RelabelFollows(s, i, a, b, j, Target(s.adders[j]).value);
      }
    }
  }

  lemma RelabelFollows(s: State, i: nat, a: nat, b: nat, p: nat, g: nat)
    requires IndexedAt(s, p, g) && i < |s.adders| && b < |s.groups|
    ensures IndexedAt(BeginMerge(s, i, a, b), p, g)
  {
    RepStep(s.log, Merge(b, a, i), g);
  }

  /** Steps that change neither the index nor the log, send at most payments of the
      target's own tree, and give no adder a new target. */
  lemma QuietStepKeepsRouted(s: State, t: State)
    requires Routed(s) && t.index == s.index && t.log == s.log
    requires |s.pay| <= |t.pay| && forall p :: 0 <= p < |s.pay| ==> t.pay[p] == s.pay[p]
    requires |s.adders| <= |t.adders|
    requires forall i :: 0 <= i < |t.adders| && Target(t.adders[i]).Some? ==>
      i < |s.adders| && Target(t.adders[i]) == Target(s.adders[i])
    requires |t.groups| == |s.groups|
    requires forall g, p :: 0 <= g < |t.groups| && p in t.groups[g].sent ==>
      p in s.groups[g].sent || IndexedAt(s, p, g)
    ensures Routed(t)
  {
    forall g, p | 0 <= g < |t.groups| && p in t.groups[g].sent
      ensures IndexedAt(t, p, g)
    {
      assert IndexedAt(s, p, g);
    }
    forall j | 0 <= j < |t.adders| && Target(t.adders[j]).Some?
      ensures IndexedAt(t, j, Target(t.adders[j]).value)
    {
      assert IndexedAt(s, j, Target(s.adders[j]).value);
    }
  }

  /** An adder joins a group: the index gains its IBANs and loses nothing. */
  lemma ConnectKeepsRouted(s: State, i: nat, g: nat, index: map<Iban, nat>)
    requires Inv(s) && Routed(s) && i < |s.adders| && Rep(s.log, g) == g
    requires forall x :: x in s.index ==> x in index && index[x] == s.index[x]
    requires s.pay[i].cred in index && index[s.pay[i].cred] == g
    requires s.pay[i].deb in index && index[s.pay[i].deb] == g
    ensures Routed(Connect(s, i, g, index))
  {
    var t := Connect(s, i, g, index);
    forall h, p | 0 <= h < |t.groups| && p in t.groups[h].sent
      ensures IndexedAt(t, p, h)
    {
      assert p in s.groups[h].sent;
      assert IndexedAt(s, p, h);
    }
    forall j | 0 <= j < |t.adders| && Target(t.adders[j]).Some?
      ensures IndexedAt(t, j, Target(t.adders[j]).value)
    {
      if j != i {
        assert IndexedAt(s, j, Target(s.adders[j]).value);
      }
    }
  }

  lemma RouteKeepsRouted(s: State, i: nat)
    requires Inv(s) && Routed(s) && Enabled(s, Route(i))
    ensures Routed(Do(s, Route(i)))
  {
    var p := s.pay[i];
    if s.root {
      QuietStepKeepsRouted(s, Do(s, Route(i)));
    } else {
      match (Lookup(s.index, p.cred), Lookup(s.index, p.deb))
      case (None, None) => QuietStepKeepsRouted(s, Do(s, Route(i)));
      case (Some(a), None) => IndexIsRoot(s, p.cred); ConnectKeepsRouted(s, i, a, s.index[p.deb := a]);
      case (None, Some(b)) => IndexIsRoot(s, p.deb); ConnectKeepsRouted(s, i, b, s.index[p.cred := b]);
      case (Some(a), Some(b)) =>
        if a == b {
          IndexIsRoot(s, p.cred);
          ConnectKeepsRouted(s, i, a, s.index);
        } else {
          MergeKeepsRouted(s, i, a, b);
        }
    }
  }

  lemma JoinKeepsRouted(s: State, i: nat, g: nat, t: State)
    requires Inv(s) && Routed(s) && IsAdder(s, i) && Rep(s.log, g) == g
    requires forall x :: x in s.index && (x == s.pay[i].cred || x == s.pay[i].deb) ==> s.index[x] == g
    requires t == Connect(s, i, g, s.index[s.pay[i].deb := g][s.pay[i].cred := g]).(sem := t.sem)
    ensures Routed(t)
  {
    var c := Connect(s, i, g, s.index[s.pay[i].deb := g][s.pay[i].cred := g]);
    ConnectKeepsRouted(s, i, g, c.index);
    QuietStepKeepsRouted(c, t);
  }

  lemma RecheckKeepsRouted(s: State, i: nat)
    requires Inv(s) && Routed(s) && Enabled(s, Recheck(i)) && !Do(s, Recheck(i)).split
    ensures Routed(Do(s, Recheck(i)))
  {
    if s.pay[i].cred in s.index || s.pay[i].deb in s.index {
      LateJoinKeepsRouted(s, i);
    } else {
      OpenKeepsRouted(s, i);
    }
  }

  lemma LateJoinKeepsRouted(s: State, i: nat)
    requires Inv(s) && Routed(s) && Enabled(s, Recheck(i)) && !Do(s, Recheck(i)).split
    requires s.pay[i].cred in s.index || s.pay[i].deb in s.index
    ensures Routed(Do(s, Recheck(i)))
  {
    var p := s.pay[i];
    var x := if p.cred in s.index then p.cred else p.deb;
    IndexIsRoot(s, x);
    JoinKeepsRouted(s, i, s.index[x], Do(s, Recheck(i)));
  }

  lemma OpenKeepsRouted(s: State, i: nat)
    requires Inv(s) && Routed(s) && Enabled(s, Recheck(i))
    requires s.pay[i].cred !in s.index && s.pay[i].deb !in s.index
    ensures Routed(Do(s, Recheck(i)))
  {
    var g := |s.groups|;
    var u := s.(groups := s.groups + [NewGroup(g)], wg := s.wg + 1);
    NewGroupKeepsRouted(s, u);
    JoinKeepsRouted(u, i, g, Do(s, Recheck(i)));
  }

  lemma NewGroupKeepsRouted(s: State, u: State)
    requires Inv(s) && Routed(s)
    requires u == s.(groups := s.groups + [NewGroup(|s.groups|)], wg := u.wg)
    ensures Inv(u) && Routed(u) && Rep(u.log, |s.groups|) == |s.groups|
  {
    var n := |s.groups|;
    NewGroupKeepsInv(s);
    assert !IsSource(s.log, n);
    RepOfRoot(s.log, n);
    assert u.groups[n].sent == [] && forall g :: 0 <= g < n ==> u.groups[g] == s.groups[g];
    forall h, q | 0 <= h < |u.groups| && q in u.groups[h].sent
      ensures IndexedAt(u, q, h)
    {
      assert IndexedAt(s, q, h);
    }
    forall j | 0 <= j < |u.adders| && Target(u.adders[j]).Some?
      ensures IndexedAt(u, j, Target(u.adders[j]).value)
    {
      assert IndexedAt(s, j, Target(s.adders[j]).value);
    }
  }

  lemma CarriedPaymentsFollowIndex(s: State, p: nat, g: nat, i: nat)
    requires Inv(s) && Routed(s) && i < |s.adders| && Carries(s.adders[i], p, g)
    ensures IndexedAt(s, p, g)
  {
    var b := s.adders[i].from;
    assert AdderOk(s.adders[i], i, s.groups, s.log, s.routed, s.mu);
    var k :| 0 <= k < |s.log| && s.log[k] == Merge(b, g, i);
    EdgeSharesRoot(s.log, k);
    assert p in s.groups[b].sent;
    assert IndexedAt(s, p, b);
  }

  lemma PutKeepsRouted(s: State, i: nat)
    requires Inv(s) && Routed(s) && Enabled(s, Put(i))
    ensures Routed(Do(s, Put(i)))
  {
    var a, q := s.adders[i].into, s.adders[i].hand.value;
    CarriedPaymentsFollowIndex(s, q, a, i);
    PutSends(s, i);
    QuietStepKeepsRouted(s, Do(s, Put(i)));
  }

  lemma PutSends(s: State, i: nat)
    requires Enabled(s, Put(i))
    ensures var t := Do(s, Put(i));
      && t.index == s.index && t.log == s.log && t.pay == s.pay && |t.groups| == |s.groups|
      && t.adders == s.adders[i := t.adders[i]] && Target(t.adders[i]) == Target(s.adders[i])
      && forall g, p :: 0 <= g < |t.groups| && p in t.groups[g].sent ==>
        p in s.groups[g].sent || (g == s.adders[i].into && p == s.adders[i].hand.value)
  {
  }

  lemma SendKeepsRouted(s: State, i: nat)
    requires Inv(s) && Routed(s) && Enabled(s, Send(i))
    ensures Routed(Do(s, Send(i)))
  {
    assert IndexedAt(s, i, Target(s.adders[i]).value);
    QuietStepKeepsRouted(s, Do(s, Send(i)));
  }

  lemma AdderMoveKeepsRouted(s: State, step: Step)
    requires Inv(s) && Routed(s) && Enabled(s, step)
    requires step.Submit? || step.Acquire? || step.GiveUp? || step.LockDrain?
    ensures Routed(Do(s, step))
  {
    QuietStepKeepsRouted(s, Do(s, step));
  }

  lemma DrainKeepsRouted(s: State, step: Step)
    requires Inv(s) && Routed(s) && Enabled(s, step) && (step.Take? || step.EndDrain?)
    ensures Routed(Do(s, step))
  {
    if step.EndDrain? {
      EndDrainKeepsRouted(s, step.i);
    } else {
      TakeSendsNothing(s, step.i);
      QuietStepKeepsRouted(s, Do(s, step));
    }
  }

  lemma EndDrainKeepsRouted(s: State, i: nat)
    requires Inv(s) && Routed(s) && Enabled(s, EndDrain(i))
    ensures Routed(Do(s, EndDrain(i)))
  {
    SecondRelabelIsIdle(s, i);
    EndDrainSendsNothing(s, i);
    QuietStepKeepsRouted(s, Do(s, EndDrain(i)));
  }

  lemma EndDrainSendsNothing(s: State, i: nat)
    requires Enabled(s, EndDrain(i))
    ensures var t := Do(s, EndDrain(i));
      && t.log == s.log && t.pay == s.pay && t.groups == s.groups && t.split == s.split
      && t.adders == s.adders[i := Sending(s.adders[i].into)]
  {
  }

  lemma TakeSendsNothing(s: State, i: nat)
    requires Enabled(s, Take(i))
    ensures var t := Do(s, Take(i));
      && t.index == s.index && t.log == s.log && t.pay == s.pay && |t.groups| == |s.groups|
      && t.adders == s.adders[i := t.adders[i]] && Target(t.adders[i]) == Target(s.adders[i])
      && forall g :: 0 <= g < |s.groups| ==> t.groups[g].sent == s.groups[g].sent
  {
  }

  lemma WorkerMoveKeepsRouted(s: State, step: Step)
    requires Inv(s) && Routed(s) && Enabled(s, step)
    requires Mover(step).None? && !step.Submit?
    ensures Routed(Do(s, step))
  {
    QuietStepKeepsRouted(s, Do(s, step));
  }

  lemma StepKeepsRouted(s: State, step: Step)
    requires Inv(s) && Routed(s) && Enabled(s, step) && !Do(s, step).split
    ensures Routed(Do(s, step))
  {
    match step
    case Route(i) => RouteKeepsRouted(s, i);
    case Recheck(i) => RecheckKeepsRouted(s, i);
    case Put(i) => PutKeepsRouted(s, i);
    case Send(i) => SendKeepsRouted(s, i);
    case Submit(_) => AdderMoveKeepsRouted(s, step);
    case Acquire(_) => AdderMoveKeepsRouted(s, step);
    case GiveUp(_) => AdderMoveKeepsRouted(s, step);
    case LockDrain(_) => AdderMoveKeepsRouted(s, step);
    case Take(_) => DrainKeepsRouted(s, step);
    case EndDrain(_) => DrainKeepsRouted(s, step);
    case _ => WorkerMoveKeepsRouted(s, step);
  }

  ghost predicate RoutedUnlessSplit(s: State) {
    Inv(s) && (!s.split ==> Routed(s))
  }

  lemma ReachableRouted(s: State)
    requires Reachable(s)
    ensures RoutedUnlessSplit(s)
  {
    forall t, x | RoutedUnlessSplit(t) && Enabled(t, x)
      ensures RoutedUnlessSplit(Do(t, x))
    {
      StepKeepsInv(t, x);
      if !Do(t, x).split {
        StepKeepsRouted(t, x);
      }
    }
    ReachableHas(s, t => RoutedUnlessSplit(t));
  }

  // ----- the safety theorem -----

  /** Payment p is held at group g: in its channel, by its worker, by a merger that is
      moving it there, or by an adder that will send it there. */
  ghost predicate HeldAt(s: State, p: nat, g: nat) {
    g < |s.groups| &&
    (|| p in s.groups[g].ch
     || InFlight(s, p, g)
     || (p < |s.adders| && Target(s.adders[p]) == Some(g))
     || exists i :: 0 <= i < |s.adders| && Carries(s.adders[i], p, g))
  }

  /** In every state reached without a split, a payment held anywhere at group g has both
      IBANs indexed at the root of g. */
  lemma HeldPaymentsFollowIndex(s: State, p: nat, g: nat)
    requires Reachable(s) && !s.split && HeldAt(s, p, g)
    ensures IndexedAt(s, p, g) && !IsSource(s.log, Rep(s.log, g))
  {
    ReachableRouted(s);
    RepIsRoot(s.log, g);
    var grp := s.groups[g];
    assert GroupOk(grp);
    if i: nat :| i < |s.adders| && Carries(s.adders[i], p, g) {
      CarriedPaymentsFollowIndex(s, p, g, i);
    } else if p < |s.adders| && Target(s.adders[p]) == Some(g) {
    } else {
      assert p in Flight(grp.worker) || p in grp.ch;
      assert p in grp.sent;
    }
  }

  /** Without a split, two conflicting payments are in flight at once only through an open
      merge window. */
  lemma ConflictNeedsWindow(s: State, p: nat, q: nat, g: nat, h: nat)
    requires Reachable(s) && !s.split && g != h
    requires InFlight(s, p, g) && InFlight(s, q, h)
    ensures p < |s.pay| && q < |s.pay|
    ensures Conflict(s.pay[p], s.pay[q]) ==> WindowOpen(s, g) || WindowOpen(s, h)
  {
    ReachableInv(s);
    HeldPaymentsFollowIndex(s, p, g);
    HeldPaymentsFollowIndex(s, q, h);
    assert GroupOk(s.groups[g]) && GroupOk(s.groups[h]);
    if Conflict(s.pay[p], s.pay[q]) && !s.groups[g].merging && !s.groups[h].merging {
      RepOfRoot(s.log, g);
      RepOfRoot(s.log, h);
    }
  }

  /** With no split and no merge window open, conflicting payments are strictly serial;
      so they are throughout any run without merges. */
  lemma SerialOutsideWindows(s: State)
    requires Reachable(s) && !s.split
    requires (forall g: nat :: !WindowOpen(s, g)) || s.log == []
    ensures Serial(s)
  {
    ReachableInv(s);
    if s.log == [] {
      assert forall g :: 0 <= g < |s.groups| ==> !s.groups[g].merging;
    }
    forall p: nat, q: nat, g: nat, h: nat | InFlight(s, p, g) && InFlight(s, q, h) && g != h
      ensures p < |s.pay| && q < |s.pay| && !Conflict(s.pay[p], s.pay[q])
    {
      ConflictNeedsWindow(s, p, q, g, h);
    }
  }
}
