/** Why workers return and calls are rejected, what everything waits for once nothing moves
    any more, and that this point is always reached. */
module Progress {
  import opened Common
  import opened MergeForest
  import opened DispatcherSteps
  import opened DispatcherInvariants
  import opened Serialisation
  import Sequential
  import opened Stranding
  import Conservation
  import Ordering
  import Runs
  import Semaphore
  import Termination

  // ----- why workers return and calls are rejected -----

  ghost predicate EndsForCause(s: State) {
    && (forall g :: 0 <= g < |s.groups| && !s.groups[g].worker.Idle? && !s.groups[g].worker.Busy? ==>
          s.groups[g].cancelled || s.root)
    && (forall i :: 0 <= i < |s.adders| && s.adders[i].Rejected? ==> s.root)
  }

  lemma StepEndsForCause(s: State, step: Step)
    requires EndsForCause(s) && Enabled(s, step)
    ensures EndsForCause(Do(s, step))
  {
    if Mover(step).Some? {
      CallMoves(s, step);
      CallLeavesWork(s, step);
      Ordering.CallRejects(s, step);
    } else {
      CallsStand(s, step);
      WorkerEndsForCause(s, step);
    }
  }

  lemma WorkerEndsForCause(s: State, step: Step)
    requires EndsForCause(s) && Enabled(s, step) && Mover(step).None?
    ensures s.root ==> Do(s, step).root
    ensures forall g :: 0 <= g < |Do(s, step).groups| ==> var x := Do(s, step).groups[g];
      x.worker.Idle? || x.worker.Busy? || x.cancelled || Do(s, step).root
  {
    GroupMoves(s, step);
  }

  /** A worker leaves its loop only because its group or the root is cancelled, and a call is
      rejected only because the root is. */
  lemma OnlyCancellationEnds(s: State)
    requires Reachable(s)
    ensures forall g :: 0 <= g < |s.groups| && !s.groups[g].worker.Idle? && !s.groups[g].worker.Busy? ==>
      s.groups[g].cancelled || s.root
    ensures forall i :: 0 <= i < |s.adders| && s.adders[i].Rejected? ==> s.root
  {
    forall t, x | EndsForCause(t) && Enabled(t, x)
      ensures EndsForCause(Do(t, x))
    {
      StepEndsForCause(t, x);
    }
    ReachableHas(s, t => EndsForCause(t));
  }

  /** When a worker returns, it leaves its channel to a merger, or has processed everything
      that was ever sent to its group. */
  lemma ReturnsWhenRead(s: State, step: Step, g: nat)
    requires Reachable(s) && Enabled(s, step) && g < |s.groups| && !Stopped(s.groups[g].worker)
    requires g < |Do(s, step).groups| && Stopped(Do(s, step).groups[g].worker)
    ensures var x := Do(s, step).groups[g]; (x.merging && x.drainReady) || x.done == x.sent
  {
    ReachableInv(s);
    assert GroupOk(s.groups[g]);
    if Mover(step).Some? {
      CallLeavesWork(s, step);
    } else {
      WorkerReturns(s, step, g);
    }
  }

  lemma WorkerReturns(s: State, step: Step, g: nat)
    requires GroupsOk(s.groups, s.log, s.routed) && Enabled(s, step) && Mover(step).None? && g < |s.groups|
    requires !Stopped(s.groups[g].worker)
    requires g < |Do(s, step).groups| && Stopped(Do(s, step).groups[g].worker)
    ensures var x := Do(s, step).groups[g]; (x.merging && x.drainReady) || x.done == x.sent
  {
    GroupMoves(s, step);
    assert step == Stop(g) || step == DrainOut(g);
    assert GroupOk(s.groups[g]);
  }

  // ----- nothing moves any more -----

  /** A step from outside: a new call, a watcher, a shutdown. */
  predicate Outer(step: Step) {
    step.Submit? || step.Watch? || step.Shutdown?
  }

  /** Only steps from outside are possible. */
  ghost predicate AtRest(s: State) {
    forall step :: Enabled(s, step) ==> Outer(step)
  }

  predicate Full(s: State, g: nat) {
    g < |s.groups| && |s.groups[g].ch| == CHAN_BUFFER
  }

  /** A worker at rest has finished, or waits for a payment with its channel empty. */
  predicate WorkerRests(s: State, g: nat)
    requires g < |s.groups|
  {
    var x := s.groups[g];
    x.worker.Finished? || (x.worker.Idle? && x.ch == [] && !x.cancelled && !s.root)
  }

  /** What a call waits for that cannot move: the mutex, a slot, the DrainReady of a dead group,
      room in a full channel. */
  ghost predicate CallRests(s: State, i: nat)
    requires i < |s.adders|
  {
    match s.adders[i]
    case Sent => true
    case Rejected => true
    case Start => s.mu.Some?
    case HoldSlot => s.mu.Some?
    case WaitSlot => !s.root && s.sem == s.max
    case MergeWait(_, _) => !s.root && (s.mu.Some? || MergesDead(s, i))
    case Draining(into, _, hand) => hand.Some? && Full(s, into)
    case Sending(g) => !s.root && Full(s, g)
  }

  lemma WorkersRest(s: State, g: nat)
    requires Reachable(s) && AtRest(s) && g < |s.groups|
    ensures WorkerRests(s, g)
  {
    Semaphore.ReleasesNeverBlock(s);
    if Stopped(s.groups[g].worker) {
      assert !Enabled(s, Release(g)) && !Enabled(s, WgDone(g));
    } else {
      ReaderRests(s, g);
    }
  }

  lemma ReaderRests(s: State, g: nat)
    requires AtRest(s) && g < |s.groups| && !Stopped(s.groups[g].worker)
    ensures WorkerRests(s, g)
  {
    assert !Enabled(s, Finish(g)) && !Enabled(s, DrainOut(g)) && !Enabled(s, Recv(g)) && !Enabled(s, Stop(g));
  }

  lemma CallsRest(s: State, i: nat)
    requires Reachable(s) && AtRest(s) && i < |s.adders|
    ensures CallRests(s, i)
  {
    ReachableInv(s);
    Semaphore.ReleasesNeverBlock(s);
    assert AdderOk(s.adders[i], i, s.groups, s.log, s.routed, s.mu);
    assert !Enabled(s, GiveUp(i));
    match s.adders[i]
    case Start => assert !Enabled(s, Route(i));
    case HoldSlot => assert !Enabled(s, Recheck(i));
    case WaitSlot => assert !Enabled(s, Acquire(i));
    case MergeWait(into, from) => MergerRests(s, i);
    case Draining(into, from, hand) => DrainRests(s, i);
    case Sending(g) => SenderRests(s, i);
    case _ =>
  }

  lemma SenderRests(s: State, i: nat)
    requires Inv(s) && AtRest(s) && i < |s.adders| && s.adders[i].Sending?
    ensures Full(s, s.adders[i].target)
  {
    assert AdderOk(s.adders[i], i, s.groups, s.log, s.routed, s.mu);
    assert !Enabled(s, Send(i));
    assert GroupOk(s.groups[s.adders[i].target]);
  }

  lemma DrainRests(s: State, i: nat)
    requires Inv(s) && AtRest(s) && i < |s.adders| && s.adders[i].Draining?
    ensures s.adders[i].hand.Some? && Full(s, s.adders[i].into)
  {
    assert AdderOk(s.adders[i], i, s.groups, s.log, s.routed, s.mu);
    assert !Enabled(s, Take(i)) && !Enabled(s, Put(i)) && !Enabled(s, EndDrain(i));
    assert GroupOk(s.groups[s.adders[i].into]);
  }

  /** The worker of a group that is being merged has finished; if it has closed DrainReady, only
      the mutex keeps the merger waiting. */
  lemma MergerRests(s: State, i: nat)
    requires Reachable(s) && AtRest(s) && i < |s.adders| && s.adders[i].MergeWait?
    ensures s.mu.Some? || MergesDead(s, i)
  {
    ReachableInv(s);
    assert AdderOk(s.adders[i], i, s.groups, s.log, s.routed, s.mu);
    var from := s.adders[i].from;
    assert from < |s.groups| && s.groups[from].merging && GroupOk(s.groups[from]);
    WorkersRest(s, from);
    assert !Enabled(s, LockDrain(i));
  }

  /** Once nothing moves, each worker has finished or waits in vain for a payment, and each call
      has returned or waits for a reason that only a step from outside removes. */
  lemma RestExplained(s: State)
    requires Reachable(s) && AtRest(s)
    ensures forall g :: 0 <= g < |s.groups| ==> WorkerRests(s, g)
    ensures forall i :: 0 <= i < |s.adders| ==> CallRests(s, i)
    ensures s.mu.Some? ==> exists g: nat :: Full(s, g)
  {
    forall g | 0 <= g < |s.groups|
      ensures WorkerRests(s, g)
    {
      WorkersRest(s, g);
    }
    forall i | 0 <= i < |s.adders|
      ensures CallRests(s, i)
    {
      CallsRest(s, i);
    }
    ReachableInv(s);
    if s.mu.Some? {
      assert CallRests(s, s.mu.value);
    }
  }

  /** Once nothing moves and no merger is stuck with the mutex, every accepted payment has been
      processed, or lies in the channel of a dead group. */
  lemma AcceptedIsProcessedAtRest(s: State, p: nat)
    requires Reachable(s) && AtRest(s) && s.mu.None? && p < |s.adders| && s.adders[p].Sent?
    ensures Processed(s, p) != exists g: nat :: Stranded(s, p, g)
  {
    var place := Conservation.ExactlyOnePlace(s, p);
    match place {
      case Processed(g) => assert ProcessedAt(s, p, g);
      case InChannel(g) => ReadByNobody(s, p, g);
      case WithWorker(g) => WorkersRest(s, g);
      case InHand(i) => NoHandAtRest(s, i);
      case _ =>
    }
    OnlyOneEnd(s, p, place);
  }

  lemma NoHandAtRest(s: State, i: nat)
    requires Reachable(s) && s.mu.None? && i < |s.adders|
    ensures !s.adders[i].Draining?
  {
    ReachableInv(s);
    assert AdderOk(s.adders[i], i, s.groups, s.log, s.routed, s.mu);
  }

  lemma ReadByNobody(s: State, p: nat, g: nat)
    requires Reachable(s) && AtRest(s) && s.mu.None? && p < |s.adders| && s.adders[p].Sent?
    requires g < |s.groups| && p in s.groups[g].ch
    ensures Stranded(s, p, g)
  {
    WorkersRest(s, g);
    ReachableInv(s);
    forall i | 0 <= i < |s.adders| && s.groups[g].drainReady
      ensures !Takes(s.adders[i], g)
    {
      NoHandAtRest(s, i);
      assert !Enabled(s, LockDrain(i));
    }
  }

  lemma OnlyOneEnd(s: State, p: nat, place: Conservation.Place)
    requires forall other :: Conservation.At(s, p, other) ==> other == place
    ensures place.InChannel? ==> !Processed(s, p)
    ensures place.Processed? ==> forall g: nat :: !Stranded(s, p, g)
  {
    forall g: nat
      ensures place.InChannel? ==> !ProcessedAt(s, p, g)
      ensures place.Processed? ==> !Stranded(s, p, g)
    {
      if ProcessedAt(s, p, g) {
        assert Conservation.At(s, p, Conservation.Processed(g));
      }
      if Stranded(s, p, g) {
        assert Conservation.At(s, p, Conservation.InChannel(g));
      }
    }
  }

  // ----- rest is always reached -----

  /** The run leads from s to t without steps from outside. */
  ghost predicate InnerRun(s: State, steps: seq<Step>, t: State) {
    && Runs.Valid(Machine(), s, steps) && Runs.After(Machine(), s, steps) == t
    && forall k :: 0 <= k < |steps| ==> !Outer(steps[k])
  }

  /** Some run without steps from outside leads to rest. */
  lemma RestIsReached(s: State) returns (steps: seq<Step>, t: State)
    requires Reachable(s)
    ensures InnerRun(s, steps, t) && AtRest(t) && |steps| <= Termination.Fuel(s)
  {
    Termination.ReachableBounded(s);
    steps, t := RunToRest(s, Termination.Fuel(s));
  }

  lemma {:induction false} RunToRest(s: State, fuel: nat) returns (steps: seq<Step>, t: State)
    requires Termination.Bounded(s) && Termination.Fuel(s) <= fuel
    ensures InnerRun(s, steps, t) && AtRest(t) && |steps| <= fuel
    decreases fuel
  {
    if AtRest(s) {
      steps, t := [], s;
    } else {
      var step := InnerStep(s);
      var rest;
      rest, t := RunToRest(Do(s, step), fuel - 1);
      FirstThenRest(s, step, rest, t);
      steps := [step] + rest;
    }
  }

  lemma InnerStep(s: State) returns (step: Step)
    requires Termination.Bounded(s) && !AtRest(s)
    ensures Enabled(s, step) && !Outer(step)
    ensures Termination.Bounded(Do(s, step)) && Termination.Fuel(Do(s, step)) < Termination.Fuel(s)
  {
    step :| Enabled(s, step) && !Outer(step);
    Termination.StepBurns(s, step);
    Termination.StepKeepsBounded(s, step);
  }

  lemma FirstThenRest(s: State, step: Step, rest: seq<Step>, t: State)
    requires Enabled(s, step) && !Outer(step) && InnerRun(Do(s, step), rest, t)
    ensures InnerRun(s, [step] + rest, t)
  {
    Runs.Single(Machine(), s, step);
    Runs.Concat(Machine(), s, [step], rest);
  }

  lemma SentForGood(s: State, steps: seq<Step>, p: nat)
    requires p < |s.adders| && s.adders[p].Sent? && Runs.Valid(Machine(), s, steps)
    ensures var t := Runs.After(Machine(), s, steps); p < |t.adders| && t.adders[p].Sent?
  {
    forall t: State, x | HasSent(t, p) && Enabled(t, x)
      ensures HasSent(Do(t, x), p)
    {
      StepKeepsSent(t, x, p);
    }
    Runs.Invariant(Machine(), (t: State) => HasSent(t, p), s, steps);
  }

  predicate HasSent(s: State, p: nat) {
    p < |s.adders| && s.adders[p].Sent?
  }

  lemma StepKeepsSent(s: State, step: Step, p: nat)
    requires HasSent(s, p) && Enabled(s, step)
    ensures HasSent(Do(s, step), p)
  {
    if Mover(step).Some? {
      CallMoves(s, step);
      Sequential.CanMove(s, step);
    } else {
      CallsStand(s, step);
    }
  }

  /** From every state the work that is left can be done without help from outside; then every
      payment accepted so far has been processed, or lies in the channel of a dead group for
      ever, unless a merger is stuck with the mutex in front of a full channel. */
  lemma AcceptedIsProcessedInTheEnd(s: State, p: nat) returns (steps: seq<Step>, t: State)
    requires Reachable(s) && HasSent(s, p)
    ensures InnerRun(s, steps, t) && AtRest(t) && |steps| <= Termination.Fuel(s)
    ensures Processed(t, p) || (exists g: nat :: Stranded(t, p, g)) || (t.mu.Some? && exists g: nat :: Full(t, g))
  {
    steps, t := RestIsReached(s);
    RunStaysReachable(s, steps);
    SentForGood(s, steps, p);
    if t.mu.None? {
      AcceptedIsProcessedAtRest(t, p);
    } else {
      RestExplained(t);
    }
  }

  /** With one call of `add` at a time, and as long as workers end in merges only, nothing is
      left behind: once nothing moves, every accepted payment has been processed. */
  lemma InTurnAllIsProcessed(s: State, p: nat)
    requires Sequential.ReachableInTurn(s) && AtRest(s) && s.mu.None? && Undisturbed(s) && HasSent(s, p)
    ensures Processed(s, p)
  {
    Sequential.InTurnIsReachable(s);
    Sequential.ReachedInTurn(s);
    AcceptedIsProcessedAtRest(s, p);
    if g: nat :| Stranded(s, p, g) {
      InTurnMergedIsEmpty(s, g);
    }
  }

  lemma InTurnMergedIsEmpty(s: State, g: nat)
    requires Sequential.InTurn(s) && Undisturbed(s) && Dead(s, g)
    ensures s.groups[g].ch == []
  {
    assert GroupOk(s.groups[g]);
    assert s.groups[g].merging;
    if Sequential.Source(Sequential.Active(s)) == Some(g) {
      assert Takes(s.adders[|s.adders| - 1], g);
    }
    assert Sequential.Empty(s.groups[g]);
  }
}
