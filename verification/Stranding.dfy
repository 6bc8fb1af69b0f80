/** Payments that a call of `add` accepted and no worker will ever read: when they exist, and
    that nothing brings them back. */
module Stranding {
  import opened Common
  import opened DispatcherSteps
  import opened DispatcherInvariants
  import opened Serialisation
  import opened Workload
  import opened TwoWorkers
  import opened Cancellation
  import opened MergeForest
  import Conservation
  import Ordering
  import Runs
  import Semaphore

  /** The worker of group g has returned, and no call is to take over its channel: it was not
      a merge that ended the worker, or the merge is over. */
  ghost predicate Dead(s: State, g: nat) {
    && g < |s.groups| && Stopped(s.groups[g].worker)
    && (s.groups[g].drainReady ==> forall i :: 0 <= i < |s.adders| ==> !Takes(s.adders[i], g))
  }

  /** The call is to take over the channel of group g. */
  predicate Takes(a: Adder, g: nat) {
    (a.MergeWait? || a.Draining?) && a.from == g
  }

  /** The call for payment p has succeeded, and p lies in the channel of a dead group. */
  ghost predicate Stranded(s: State, p: nat, g: nat) {
    Dead(s, g) && p < |s.adders| && s.adders[p].Sent? && p in s.groups[g].ch
  }

  // ----- what is stranded stays so -----

  /** The worker of group g has returned; its channel begins with these payments. */
  ghost predicate Unread(s: State, g: nat, ch: seq<nat>) {
    Inv(s) && Dead(s, g) && ch <= s.groups[g].ch
  }

  /** Neither a worker nor a merger reads the channel of a dead group. */
  lemma StepReadsNoDead(s: State, step: Step, g: nat, ch: seq<nat>)
    requires Unread(s, g, ch) && Enabled(s, step)
    ensures Unread(Do(s, step), g, ch)
  {
    StepKeepsInv(s, step);
    if Mover(step).Some? {
      CallReadsNoDead(s, step, g);
    } else {
      WorkerReadsNoDead(s, step, g);
    }
  }

  lemma CallReadsNoDead(s: State, step: Step, g: nat)
    requires Inv(s) && Dead(s, g) && Enabled(s, step) && Mover(step).Some?
    ensures Dead(Do(s, step), g) && s.groups[g].ch <= Do(s, step).groups[g].ch
  {
    if step.Take? || step.Put? || step.Send? {
      ChannelReadsNoDead(s, step, g);
    } else {
      RoutingReadsNothing(s, step, g);
    }
    if s.groups[g].drainReady {
      NoNewTaker(s, step, g);
    }
  }

  /** A group that has been flagged for a merge gets no other merger. */
  lemma NoNewTaker(s: State, step: Step, g: nat)
    requires Inv(s) && Enabled(s, step) && Mover(step).Some? && g < |s.groups| && s.groups[g].merging
    requires forall i :: 0 <= i < |s.adders| ==> !Takes(s.adders[i], g)
    ensures forall i :: 0 <= i < |Do(s, step).adders| ==> !Takes(Do(s, step).adders[i], g)
  {
    CallMoves(s, step);
    if step.Route? {
      MergesTheLive(s, step.i);
    } else {
      MergersStay(s, step);
    }
  }

  lemma MergersStay(s: State, step: Step)
    requires Enabled(s, step) && Mover(step).Some? && !step.Route?
    ensures var (i, t) := (Mover(step).value, Do(s, step));
      i < |s.adders| && i < |t.adders| && forall g :: Takes(t.adders[i], g) ==> Takes(s.adders[i], g)
  {
  }

  lemma MergesTheLive(s: State, i: nat)
    requires IndexOk(s.index, s.groups) && Enabled(s, Route(i))
    ensures var a := Do(s, Route(i)).adders[i];
      !a.Draining? && (a.MergeWait? ==> a.from < |s.groups| && !s.groups[a.from].merging)
  {
  }

  lemma ChannelReadsNoDead(s: State, step: Step, g: nat)
    requires AddersOk(s) && Dead(s, g) && Enabled(s, step) && (step.Take? || step.Put? || step.Send?)
    ensures s.groups[g].ch <= Do(s, step).groups[g].ch && g < |Do(s, step).groups|
    ensures SameWork(s.groups[g], Do(s, step).groups[g])
  {
    CallLeavesWork(s, step);
    if step.Take? {
      assert AdderOk(s.adders[step.i], step.i, s.groups, s.log, s.routed, s.mu);
    }
  }

  lemma RoutingReadsNothing(s: State, step: Step, g: nat)
    requires g < |s.groups| && Enabled(s, step) && Mover(step).Some? && !step.Take? && !step.Put? && !step.Send?
    ensures var t := Do(s, step);
      && g < |t.groups| && t.groups[g].ch == s.groups[g].ch
      && t.groups[g].worker == s.groups[g].worker && t.groups[g].drainReady == s.groups[g].drainReady
  {
  }

  lemma WorkerReadsNoDead(s: State, step: Step, g: nat)
    requires Dead(s, g) && Enabled(s, step) && Mover(step).None?
    ensures Dead(Do(s, step), g) && s.groups[g].ch <= Do(s, step).groups[g].ch
  {
  }

  /** Over every run the channel of a dead group only grows, and the group stays dead. */
  lemma DeadGroupIsNeverRead(s: State, steps: seq<Step>, g: nat)
    requires Inv(s) && Dead(s, g) && Runs.Valid(Machine(), s, steps)
    ensures var t := Runs.After(Machine(), s, steps); Dead(t, g) && s.groups[g].ch <= t.groups[g].ch
  {
    var ch := s.groups[g].ch;
    forall t, x | Unread(t, g, ch) && Enabled(t, x)
      ensures Unread(Do(t, x), g, ch)
    {
      StepReadsNoDead(t, x, g, ch);
    }
    Runs.Invariant(Machine(), (t: State) => Unread(t, g, ch), s, steps);
  }

  /** ProcessTX is never called for a stranded payment, whatever happens. */
  lemma StrandedIsNeverProcessed(s: State, steps: seq<Step>, p: nat, g: nat)
    requires Reachable(s) && Stranded(s, p, g) && Runs.Valid(Machine(), s, steps)
    ensures var t := Runs.After(Machine(), s, steps); Dead(t, g) && p in t.groups[g].ch && !Begun(t, p)
  {
    var t := Runs.After(Machine(), s, steps);
    ReachableInv(s);
    DeadGroupIsNeverRead(s, steps, g);
    RunStaysReachable(s, steps);
    ReachableInv(t);
    assert GroupOk(t.groups[g]) && p in t.groups[g].sent;
    BufferedIsNotBegun(t, p, g);
  }

  lemma RunStaysReachable(s: State, steps: seq<Step>)
    requires Reachable(s) && Runs.Valid(Machine(), s, steps)
    ensures Reachable(Runs.After(Machine(), s, steps))
  {
    forall t: State, x | t.max == s.max && Enabled(t, x)
      ensures Do(t, x).max == s.max
    {
    }
    Runs.Invariant(Machine(), (t: State) => t.max == s.max, s, steps);
    var before :| Runs.Valid(Machine(), Init(s.max), before) && Runs.After(Machine(), Init(s.max), before) == s;
    Runs.Concat(Machine(), Init(s.max), before, steps);
  }

  lemma BufferedIsNotBegun(s: State, p: nat, g: nat)
    requires Reachable(s) && g < |s.groups| && p in s.groups[g].ch && p < |s.adders|
    ensures !Begun(s, p)
  {
    var place := Conservation.ExactlyOnePlace(s, p);
    assert Conservation.At(s, p, Conservation.InChannel(g));
    forall h: nat
      ensures !BegunAt(s, p, h)
    {
      if InFlight(s, p, h) {
        assert p in Flight(s.groups[h].worker);
        assert Conservation.At(s, p, Conservation.WithWorker(h));
      } else if ProcessedAt(s, p, h) {
        assert Conservation.At(s, p, Conservation.Processed(h));
      }
    }
  }

  // ----- a merge with a dead group -----

  /** Call m waits for the DrainReady of a dead group. */
  ghost predicate MergesDead(s: State, m: nat) {
    m < |s.adders| && s.adders[m].MergeWait? && Dead(s, s.adders[m].from)
  }

  ghost predicate WaitsInVain(s: State, m: nat, into: nat, from: nat) {
    Dead(s, from) && m < |s.adders| && (s.adders[m] == MergeWait(into, from) || s.adders[m].Rejected?)
  }

  lemma StepWaitsInVain(s: State, step: Step, m: nat, into: nat, from: nat)
    requires WaitsInVain(s, m, into, from) && Inv(s) && Enabled(s, step)
    ensures WaitsInVain(Do(s, step), m, into, from)
  {
    if Mover(step).Some? {
      CallReadsNoDead(s, step, from);
      CallWaitsInVain(s, step, m, into, from);
    } else {
      WorkerReadsNoDead(s, step, from);
    }
  }

  lemma CallWaitsInVain(s: State, step: Step, m: nat, into: nat, from: nat)
    requires WaitsInVain(s, m, into, from) && Enabled(s, step) && Mover(step).Some?
    ensures var t := Do(s, step); m < |t.adders| && (t.adders[m] == s.adders[m] || t.adders[m].Rejected?)
  {
    if Mover(step) != Some(m) {
      assert Do(s, step).adders == s.adders[Mover(step).value := Do(s, step).adders[Mover(step).value]];
    }
  }

  /** A call that merges a dead group away never gets past its wait for DrainReady: it waits
      until the shutdown rejects it. */
  lemma DeadGroupIsNeverDrained(s: State, steps: seq<Step>, m: nat)
    requires Reachable(s) && MergesDead(s, m)
    requires Runs.Valid(Machine(), s, steps)
    ensures var t := Runs.After(Machine(), s, steps);
      m < |t.adders| && (t.adders[m] == s.adders[m] || t.adders[m].Rejected?)
  {
    var into, from := s.adders[m].into, s.adders[m].from;
    ReachableInv(s);
    forall t, x | Inv(t) && WaitsInVain(t, m, into, from) && Enabled(t, x)
      ensures Inv(Do(t, x)) && WaitsInVain(Do(t, x), m, into, from)
    {
      StepKeepsInv(t, x);
      StepWaitsInVain(t, x, m, into, from);
    }
    Runs.Invariant(Machine(), (t: State) => Inv(t) && WaitsInVain(t, m, into, from), s, steps);
  }

  // ----- schedules -----

  /** The only worker has finished, after its watcher's cancellation or the shutdown, before
      the first payment is sent. */
  lemma GoneBeforeSend(max: nat, w: seq<Payment>, i: nat, early: bool) returns (s: State)
    requires max >= 1 && i < |w|
    ensures Reachable(s) && s.max == max && s.pay == w && |s.adders| == |w| && s.adders[i] == Sending(0)
    ensures s.groups == [NewGroup(0).(cancelled := early, worker := Finished)] && s.wg == 0 && s.root == !early
    ensures w[i].cred in s.index && s.index[w[i].cred] == 0
  {
    s := FirstGroup(max, w, i);
    if early {
      s := CancelEarly(s, 0);
    } else {
      Go(s, Shutdown);
      s := Do(s, Shutdown);
    }
    s := StopUnused(s, 0);
    s := Depart(s, 0);
  }

  /** The deferred calls. */
  lemma Depart(s: State, g: nat) returns (t: State)
    requires Reachable(s) && g < |s.groups| && s.groups[g].worker.Exiting? && 0 < s.sem && 0 < s.wg
    ensures Reachable(t)
    ensures t == s.(groups := s.groups[g := s.groups[g].(worker := Finished)], sem := s.sem - 1, wg := s.wg - 1)
  {
    t := GiveSlotBack(s, g);
    Go(t, WgDone(g));
    t := Do(t, WgDone(g));
    assert t.groups == s.groups[g := s.groups[g].(worker := Finished)];
  }

  lemma SentTooLate(max: nat, w: seq<Payment>, i: nat, early: bool) returns (s: State)
    requires max >= 1 && i < |w|
    ensures Reachable(s) && s.max == max && s.pay == w && Stranded(s, i, 0)
    ensures |s.groups| == 1 && s.groups[0].cancelled == early && s.wg == 0 && s.root == !early
    ensures w[i].cred in s.index && s.index[w[i].cred] == 0
  {
    s := GoneBeforeSend(max, w, i, early);
    Go(s, Send(i));
    s := Do(s, Send(i));
  }

  /** Payment j begins to merge a group away whose worker has already returned. */
  lemma MergeMeetsDead(max: nat, w: seq<Payment>, i: nat, j: nat, k: nat) returns (s: State)
    requires max >= 1 && Spans(w, i, j, k)
    ensures Reachable(s) && s.max == max && s.pay == w && MergesDead(s, j)
  {
    s := AllSubmitted(max, w);
    s := WaitForSlot(s, i);
    s := OpenDead(s, i);
    s := WaitForSlot(s, k);
    s := OpenDead(s, k);
    s := StartMerge(s, j);
  }

  // ----- exactly when -----

  /** No shutdown has begun; the index points at a dead group, and accepted payments lie in it. */
  ghost predicate IndexesDead(s: State) {
    !s.root && exists p: nat, x :: x in s.index && Stranded(s, p, s.index[x])
  }

  /** Without a shutdown, the index can point at a group with accepted payments and no worker
      exactly if there is a slot and a payment. */
  lemma GroupLosesItsWorkerExactly(max: nat, w: seq<Payment>)
    ensures (exists s :: Reachable(s) && s.max == max && s.pay <= w && IndexesDead(s)) <==> max >= 1 && w != []
  {
    if max >= 1 && w != [] {
      var s := SentTooLate(max, w, 0, true);
      assert Stranded(s, 0, s.index[w[0].cred]);
      assert IndexesDead(s);
    }
    forall s | Reachable(s) && s.max == max && s.pay <= w && IndexesDead(s)
      ensures max >= 1 && w != []
    {
      var p: nat, x :| x in s.index && Stranded(s, p, s.index[x]);
      StrandedNeedsSlot(s, p, s.index[x]);
    }
  }

  /** A shutdown is over: every worker has finished, none was cancelled before, and an accepted
      payment has been left in a channel. */
  ghost predicate ShutDownOver(s: State) {
    && s.root && s.wg == 0 && (forall g :: 0 <= g < |s.groups| ==> !s.groups[g].cancelled)
    && exists p: nat, g: nat :: Stranded(s, p, g)
  }

  /** The wait of a shutdown can end with accepted payments unread, although every group lived
      until then, exactly if there is a slot and a payment. */
  lemma ShutdownStrandsExactly(max: nat, w: seq<Payment>)
    ensures (exists s :: Reachable(s) && s.max == max && s.pay <= w && ShutDownOver(s)) <==> max >= 1 && w != []
  {
    if max >= 1 && w != [] {
      var s := SentTooLate(max, w, 0, false);
      assert ShutDownOver(s);
    }
    forall s | Reachable(s) && s.max == max && s.pay <= w && ShutDownOver(s)
      ensures max >= 1 && w != []
    {
      var p: nat, g: nat :| Stranded(s, p, g);
      StrandedNeedsSlot(s, p, g);
    }
  }

  /** A call can come to wait for the DrainReady of a dead group exactly if there is a slot and
      sharing an IBAN is not transitive on the workload. */
  lemma MergeWaitsInVainExactly(max: nat, w: seq<Payment>)
    ensures (exists s, m: nat :: Reachable(s) && s.max == max && s.pay <= w && MergesDead(s, m)) <==>
      max >= 1 && !Transitive(w)
  {
    if max >= 1 && !Transitive(w) {
      var i, j, k := NonTransitiveSpans(w);
      var s := MergeMeetsDead(max, w, i, j, k);
    }
    forall s, m: nat | Reachable(s) && s.max == max && s.pay <= w && MergesDead(s, m)
      ensures max >= 1 && !Transitive(w)
    {
      ReachableSlotless(s);
      MergeIsLogged(s, m);
      if Transitive(w) {
        PrefixIsTransitive(s.pay, w);
        ReachableCalm(s);
      }
    }
  }

  lemma MergeIsLogged(s: State, m: nat)
    requires Reachable(s) && m < |s.adders| && s.adders[m].MergeWait?
    ensures s.log != []
  {
    ReachableInv(s);
    assert AdderOk(s.adders[m], m, s.groups, s.log, s.routed, s.mu);
  }

  lemma StrandedNeedsSlot(s: State, p: nat, g: nat)
    requires Reachable(s) && Stranded(s, p, g)
    ensures s.max >= 1 && p < |s.pay|
  {
    ReachableSlotless(s);
    ReachableInv(s);
  }

  // ----- a merge alone can strand a payment -----

  /** No shutdown has begun, and workers leave their loops only for a merger. */
  ghost predicate Undisturbed(s: State) {
    !s.root && forall g :: 0 <= g < |s.groups| ==>
      s.groups[g].worker.Idle? || s.groups[g].worker.Busy? || s.groups[g].drainReady
  }

  lemma UndisturbedBefore(s: State, step: Step)
    requires Enabled(s, step) && Undisturbed(Do(s, step))
    ensures Undisturbed(s)
  {
    if Mover(step).Some? {
      Ordering.CallRejects(s, step);
      CallLeavesWork(s, step);
    } else {
      WorkerDisturbs(s, step);
    }
  }

  lemma WorkerDisturbs(s: State, step: Step)
    requires Enabled(s, step) && Mover(step).None? && Undisturbed(Do(s, step))
    ensures Undisturbed(s)
  {
    var t := Do(s, step);
    GroupMoves(s, step);
    forall g | 0 <= g < |s.groups|
      ensures s.groups[g].worker.Idle? || s.groups[g].worker.Busy? || s.groups[g].drainReady
    {
      var x := t.groups[g];
      assert x.worker.Idle? || x.worker.Busy? || x.drainReady;
    }
  }

  /** With one slot at most one group is ever opened while its worker lives. */
  ghost predicate Alone(s: State) {
    Inv(s) && Semaphore.Counted(s) && (s.max <= 1 && Undisturbed(s) ==> s.log == [] && |s.groups| <= 1)
  }

  lemma StepStaysAlone(s: State, step: Step)
    requires Alone(s) && Enabled(s, step)
    ensures Alone(Do(s, step))
  {
    StepKeepsInv(s, step);
    Semaphore.StepKeepsCounted(s, step);
    SameMax(s, step);
    if s.max <= 1 && Undisturbed(Do(s, step)) {
      UndisturbedBefore(s, step);
      OneGroupStays(s, step);
    }
  }

  lemma OneGroupStays(s: State, step: Step)
    requires Inv(s) && Semaphore.Counted(s) && s.max <= 1 && Undisturbed(s) && s.log == [] && |s.groups| <= 1
    requires Enabled(s, step)
    ensures Do(s, step).log == [] && |Do(s, step).groups| <= 1
  {
    GroupMoves(s, step);
    if step.Recheck? {
      OneSlotOneGroup(s, step.i);
    } else if step.Route? {
      NothingToMerge(s, step.i);
    } else {
      LogStays(s, step);
    }
  }

  lemma OneSlotOneGroup(s: State, i: nat)
    requires Inv(s) && Semaphore.Counted(s) && s.max <= 1 && Undisturbed(s) && s.log == [] && Enabled(s, Recheck(i))
    ensures s.groups == [] && Do(s, Recheck(i)).log == []
  {
    SumUpdate(s.adders, i, s.adders[i], Semaphore.HoldsSlot());
    if s.groups != [] {
      LoopHoldsToken(s);
    }
  }

  /** A worker that is still in its loop holds a slot. */
  lemma LoopHoldsToken(s: State)
    requires Inv(s) && Undisturbed(s) && s.log == [] && s.groups != []
    ensures 1 <= Sum(s.groups, Semaphore.HoldsToken())
  {
    assert GroupOk(s.groups[0]) && !IsSource(s.log, 0);
    SumUpdate(s.groups, 0, s.groups[0], Semaphore.HoldsToken());
  }

  lemma NothingToMerge(s: State, i: nat)
    requires IndexOk(s.index, s.groups) && |s.groups| <= 1 && Enabled(s, Route(i))
    ensures Do(s, Route(i)).log == s.log
  {
  }

  lemma LogStays(s: State, step: Step)
    requires Enabled(s, step) && !step.Route? && !step.Recheck?
    ensures Do(s, step).log == s.log
  {
  }

  lemma ReachableAlone(s: State)
    requires Reachable(s)
    ensures Alone(s)
  {
    forall t, x | Alone(t) && Enabled(t, x)
      ensures Alone(Do(t, x))
    {
      StepStaysAlone(t, x);
    }
    ReachableHas(s, t => Alone(t));
  }

  /** The empty channel of k's group has been drained when k is sent to it. */
  lemma SentAfterDrain(max: nat, w: seq<Payment>, i: nat, j: nat, k: nat) returns (s: State)
    requires max >= 2 && Spans(w, i, j, k)
    ensures Reachable(s) && s.max == max && s.pay == w && Undisturbed(s) && Stranded(s, k, 1)
  {
    s := TwoGroupsOpen(max, w, i, k);
    s := StartMerge(s, j);
    s := MergeEmpty(s, j);
    s := SendFirst(s, k, 1);
  }

  /** A merge of an unused group runs from the cancellation to the end of the drain. */
  lemma MergeEmpty(s: State, j: nat) returns (t: State)
    requires Reachable(s) && IsAdder(s, j) && s.adders[j] == MergeWait(0, 1) && s.mu.None?
    requires |s.groups| == 2 && s.groups[1] == NewGroup(1).(merging := true, cancelled := true)
    ensures Reachable(t) && t.adders == s.adders[j := Sending(0)] && t.pay == s.pay && t.max == s.max
    ensures t.root == s.root
    ensures t.groups == s.groups[1 := Quit(s.groups[1])]
  {
    Go(s, Stop(1));
    t := Do(s, Stop(1));
    Go(t, LockDrain(j));
    t := Do(t, LockDrain(j));
    Go(t, EndDrain(j));
    t := Do(t, EndDrain(j));
  }

  /** An accepted payment is lost although no worker ended but for a merge: this happens under
      some schedule exactly if there are two slots and sharing an IBAN is not transitive. */
  lemma MergeStrandsExactly(max: nat, w: seq<Payment>)
    ensures (exists s, p: nat, g: nat ::
      Reachable(s) && s.max == max && s.pay <= w && Undisturbed(s) && Stranded(s, p, g)) <==>
      max >= 2 && !Transitive(w)
  {
    if max >= 2 && !Transitive(w) {
      var i, j, k := NonTransitiveSpans(w);
      var s := SentAfterDrain(max, w, i, j, k);
    }
    forall s, p: nat, g: nat |
      Reachable(s) && s.max == max && s.pay <= w && Undisturbed(s) && Stranded(s, p, g)
      ensures max >= 2 && !Transitive(w)
    {
      StrandedByMerge(s, p, g);
      if Transitive(w) {
        PrefixIsTransitive(s.pay, w);
        ReachableCalm(s);
      }
    }
  }

  lemma StrandedByMerge(s: State, p: nat, g: nat)
    requires Reachable(s) && Undisturbed(s) && Stranded(s, p, g)
    ensures s.max >= 2 && s.log != []
  {
    ReachableAlone(s);
    assert GroupOk(s.groups[g]) && s.groups[g].merging;
    assert IsSource(s.log, g);
  }

  // ----- the size of a channel -----

  /** n payments between the same accounts lie in the channel of the only group, whose worker has
      left; no later call has begun. */
  ghost predicate Piled(s: State, w: seq<Payment>, n: nat) {
    && Reachable(s) && s.pay == w && |s.adders| == |w| && s.mu.None? && !s.root && w != []
    && s.index == map[][w[0].deb := 0][w[0].cred := 0]
    && |s.groups| == 1 && Dead(s, 0) && |s.groups[0].ch| == n
    && forall j :: n <= j < |w| ==> s.adders[j].Start?
  }

  lemma PileOne(s: State, w: seq<Payment>, n: nat) returns (t: State)
    requires Piled(s, w, n) && n < |w| && n < CHAN_BUFFER && w[n].cred == w[0].cred && w[n].deb == w[0].deb
    ensures Piled(t, w, n + 1) && t.max == s.max
  {
    t := JoinPile(s, w, n);
    Go(t, Send(n));
    t := Do(t, Send(n));
  }

  lemma JoinPile(s: State, w: seq<Payment>, n: nat) returns (t: State)
    requires Piled(s, w, n) && n < |w| && w[n].cred == w[0].cred && w[n].deb == w[0].deb
    ensures Reachable(t) && t == s.(adders := s.adders[n := Sending(0)], routed := s.routed + {n})
  {
    Go(s, Route(n));
    t := Do(s, Route(n));
  }

  lemma {:induction false} PileUp(max: nat, w: seq<Payment>, n: nat) returns (s: State)
    requires max >= 1 && 1 <= n <= |w| && n <= CHAN_BUFFER
    requires forall i :: 0 <= i < |w| ==> w[i].cred == w[0].cred && w[i].deb == w[0].deb
    ensures Piled(s, w, n) && s.max == max
  {
    if n == 1 {
      s := AllSubmitted(max, w);
      s := WaitForSlot(s, 0);
      s := OpenDead(s, 0);
      s := SendFirst(s, 0, 0);
    } else {
      s := PileUp(max, w, n - 1);
      s := PileOne(s, w, n - 1);
    }
  }

  /** A channel takes a hundred payments and no more: the next call has to wait. */
  lemma ChannelTakesHundred(max: nat, w: seq<Payment>) returns (s: State)
    requires max >= 1 && |w| > 100
    requires forall i :: 0 <= i < |w| ==> w[i].cred == w[0].cred && w[i].deb == w[0].deb
    ensures forall t, g :: Reachable(t) && 0 <= g < |t.groups| ==> |t.groups[g].ch| <= 100
    ensures Reachable(s) && s.max == max && s.pay == w && |s.groups| == 1 && |s.groups[0].ch| == 100
    ensures |s.adders| == |w| && s.adders[100] == Sending(0) && !Enabled(s, Send(100))
  {
    forall t, g | Reachable(t) && 0 <= g < |t.groups|
      ensures |t.groups[g].ch| <= 100
    {
      ReachableInv(t);
      assert GroupOk(t.groups[g]);
    }
    s := PileUp(max, w, 100);
    s := JoinPile(s, w, 100);
  }
}
