/** The dispatcher as the program has it: groups and dispatcher are objects updated in
    place, and `Add` runs to its end, or to the point where it would block, before the next
    call. The ghost field `model` follows along in the step system. */
module Dispatcher {
  import opened Common
  import opened D = DispatcherSteps
  import opened DispatcherInvariants
  import opened Sequential
  import opened Components
  import Semaphore
  import Serialisation
  import Runs

  class Group {
    ghost const id: nat
    var ch: seq<nat>
    var cancelled: bool
    var merging: bool
    var drainReady: bool
    var worker: Worker
    ghost var sent: seq<nat>
    ghost var done: seq<nat>
    ghost var drained: seq<nat>

    ghost function Value(): D.Group
      reads this
    {
      D.Group(id, ch, cancelled, merging, drainReady, worker, sent, done, drained)
    }

    constructor (ghost id: nat)
      ensures this.id == id && Value() == NewGroup(id)
    {
      this.id := id;
      ch, cancelled, merging, drainReady, worker := [], false, false, false, Idle;
      sent, done, drained := [], [], [];
    }

    method Push(p: nat)
      requires |ch| < CHAN_BUFFER
      modifies this
      ensures Value() == PutIn(old(Value()), p)
    {
      ch, sent := ch + [p], sent + [p];
    }

    method Pop() returns (p: nat)
      requires ch != []
      modifies this
      ensures p == old(ch[0]) && Value() == TakeOut(old(Value()))
    {
      p := ch[0];
      ch, drained := ch[1..], drained + [p];
    }

    /** The worker receives a payment and calls ProcessTX. */
    method Begin()
      requires ch != [] && (worker.Idle? || worker.FinalDrain?)
      modifies this
      ensures Value() == Receive(old(Value()))
    {
      worker := if worker.Idle? then Busy(ch[0]) else FinalBusy(ch[0]);
      ch := ch[1..];
    }

    /** ProcessTX returns. */
    method End()
      requires worker.Busy? || worker.FinalBusy?
      modifies this
      ensures Value() == Complete(old(Value()))
    {
      done := done + [worker.tx];
      worker := if worker.Busy? then Idle else FinalDrain;
    }

    /** The worker sees the cancellation. */
    method SeeCancel()
      modifies this
      ensures Value() == Quit(old(Value()))
    {
      if merging {
        drainReady, worker := true, Exiting;
      } else {
        worker := FinalDrain;
      }
    }

    method Go(w: Worker)
      modifies this`worker
      ensures Value() == old(Value()).(worker := w)
    {
      worker := w;
    }
  }

  /** What is left of n payments after at most k have been taken. */
  function Left(n: nat, k: nat): nat {
    if k < n then n - k else 0
  }

  /** How a call of `Add` ends. A blocked call waits in a select: for a slot, for room in a
      channel, or for the worker of a group it wants to merge. A stuck one waits in the drain
      loop, with the mutex held, where it sees no shutdown. */
  datatype Outcome = Accepted | ShuttingDown | Blocked | Stuck

  /** Whether a payment that is to be sent behind n others fits into a channel. */
  function IfFits(n: nat): Outcome {
    if n < CHAN_BUFFER then Accepted else if n == CHAN_BUFFER then Blocked else Stuck
  }

  /** t is reached from s with one call of `add` at a time. */
  ghost predicate Leads(s: State, t: State) {
    Runs.Reaches(Sequential.Machine(), s, t)
  }

  lemma LeadsNowhere(s: State)
    ensures Leads(s, s)
  {
    assert Runs.Valid(Sequential.Machine(), s, []) && Runs.After(Sequential.Machine(), s, []) == s;
  }

  lemma LeadsOn(s: State, t: State, step: Step)
    requires Leads(s, t) && Allowed(t, step)
    ensures Leads(s, Do(t, step))
  {
    Runs.ReachesStep(Sequential.Machine(), s, t, step);
  }

  lemma LeadsThrough(s: State, t: State, u: State)
    requires Leads(s, t) && Leads(t, u)
    ensures Leads(s, u)
  {
    var xs :| Runs.Valid(Sequential.Machine(), s, xs) && Runs.After(Sequential.Machine(), s, xs) == t;
    var ys :| Runs.Valid(Sequential.Machine(), t, ys) && Runs.After(Sequential.Machine(), t, ys) == u;
    Runs.Concat(Sequential.Machine(), s, xs, ys);
  }

  lemma KeepsMax(s: State, step: Step)
    requires Enabled(s, step)
    ensures Do(s, step).max == s.max
  {
  }

  lemma StaysReachable(s: State, step: Step)
    requires ReachableInTurn(s) && Allowed(s, step)
    ensures ReachableInTurn(Do(s, step))
  {
    KeepsMax(s, step);
    LeadsOn(Init(s.max), s, step);
  }

  /** Only groups and counters differ: what a worker may change. */
  ghost predicate SameCalls(s: State, t: State) {
    t.adders == s.adders && t.pay == s.pay && t.index == s.index && t.mu == s.mu && |t.groups| == |s.groups|
  }

  lemma SlotIsHeld(s: State, g: nat)
    requires ReachableInTurn(s) && g < |s.groups|
    ensures s.groups[g].worker.Exiting? ==> 0 < s.sem
    ensures s.groups[g].worker.Released? ==> 0 < s.wg
  {
    InTurnIsReachable(s);
    Semaphore.ReleasesNeverBlock(s);
  }

  /** A worker that has nothing left, and from which nobody took anything, has processed
      everything that was ever sent, in the order in which it was sent. */
  lemma Emptied(s: State, g: nat)
    requires ReachableInTurn(s) && g < |s.groups| && Flight(s.groups[g].worker) == []
    ensures s.groups[g].ch == [] && !s.groups[g].merging ==> s.groups[g].done == s.groups[g].sent
    ensures s.groups[g].merging ==> s.groups[g].cancelled
  {
    ReachedInTurn(s);
    assert GroupOk(s.groups[g]);
  }

  lemma MutexIsFree(s: State)
    requires OneActive(s) && MutexOk(s) && s.adders != [] && !Active(s).Draining?
    ensures s.mu.None?
  {
  }

  lemma TurnOfMutex(s: State)
    requires ReachableInTurn(s)
    ensures OneActive(s) && MutexOk(s) && |s.adders| == |s.pay| && IndexOk(s.index, s.groups)
  {
    ReachedInTurn(s);
  }

  lemma IndexInBounds(s: State, x: Iban)
    requires IndexOk(s.index, s.groups)
    ensures x in s.index ==> s.index[x] < |s.groups|
  {
  }

  /** A call that has just begun finds the mutex free. */
  lemma CanRoute(s: State, i: nat)
    requires ReachableInTurn(s) && i == |s.adders| - 1 && s.adders[i].Start?
    ensures Enabled(s, Route(i)) && i < |s.pay|
    ensures s.pay[i].cred in s.index ==> s.index[s.pay[i].cred] < |s.groups|
  {
    TurnOfMutex(s);
    MutexIsFree(s);
    IndexInBounds(s, s.pay[i].cred);
    IndexInBounds(s, s.pay[i].deb);
  }

  lemma CanRecheck(s: State, i: nat)
    requires ReachableInTurn(s) && i == |s.adders| - 1 && s.adders[i].HoldSlot?
    ensures Enabled(s, Recheck(i)) && i < |s.pay|
  {
    TurnOfMutex(s);
    MutexIsFree(s);
    InTurnIsReachable(s);
    Semaphore.ReleasesNeverBlock(s);
  }

  lemma CanLock(s: State, i: nat)
    requires ReachableInTurn(s) && i == |s.adders| - 1 && s.adders[i].MergeWait?
    requires s.adders[i].from < |s.groups| && s.groups[s.adders[i].from].drainReady
    ensures Enabled(s, LockDrain(i))
  {
    TurnOfMutex(s);
    MutexIsFree(s);
  }

  /** The state after a re-check that finds no group. */
  function Opened(s: State, i: nat): State
    requires i < |s.adders| && i < |s.pay|
  {
    var g := |s.groups|;
    Connect(s, i, g, s.index[s.pay[i].deb := g][s.pay[i].cred := g]).(groups := s.groups + [NewGroup(g)],
      wg := s.wg + 1)
  }

  lemma RecheckOpens(s: State, i: nat)
    requires ReachableInTurn(s) && i == |s.adders| - 1 && s.adders[i].HoldSlot? && i < |s.pay|
    requires s.pay[i].cred !in s.index && s.pay[i].deb !in s.index
    ensures Advances(s, Opened(s, i), i) && ReachableInTurn(Opened(s, i))
  {
    CanRecheck(s, i);
    assert Do(s, Recheck(i)) == Opened(s, i);
    StaysReachable(s, Recheck(i));
    LeadsNowhere(s);
    LeadsOn(s, s, Recheck(i));
  }

  /** The state after a re-check that finds group g. */
  function JoinedLate(s: State, i: nat, g: nat): State
    requires i < |s.adders| && i < |s.pay| && 0 < s.sem
  {
    var (c, d) := (Lookup(s.index, s.pay[i].cred), Lookup(s.index, s.pay[i].deb));
    Connect(s, i, g, s.index[s.pay[i].deb := g][s.pay[i].cred := g]).(
      sem := s.sem - 1, split := s.split || (c.Some? && d.Some? && c != d))
  }

  lemma RecheckJoins(s: State, i: nat, g: nat)
    requires ReachableInTurn(s) && i == |s.adders| - 1 && s.adders[i].HoldSlot? && i < |s.pay|
    requires Lookup(s.index, s.pay[i].cred) == Some(g)
      || (s.pay[i].cred !in s.index && Lookup(s.index, s.pay[i].deb) == Some(g))
    ensures 0 < s.sem && Advances(s, JoinedLate(s, i, g), i) && ReachableInTurn(JoinedLate(s, i, g))
  {
    CanRecheck(s, i);
    assert Do(s, Recheck(i)) == JoinedLate(s, i, g);
    StaysReachable(s, Recheck(i));
    LeadsNowhere(s);
    LeadsOn(s, s, Recheck(i));
  }

  lemma RouteMerges(s: State, i: nat, a: nat, b: nat)
    requires ReachableInTurn(s) && i == |s.adders| - 1 && s.adders[i].Start? && i < |s.pay| && !s.root && a != b
    requires Lookup(s.index, s.pay[i].cred) == Some(a) && Lookup(s.index, s.pay[i].deb) == Some(b)
    ensures b < |s.groups| && Leads(s, BeginMerge(s, i, a, b)) && ReachableInTurn(BeginMerge(s, i, a, b))
  {
    CanRoute(s, i);
    assert Do(s, Route(i)) == BeginMerge(s, i, a, b);
    StaysReachable(s, Route(i));
    LeadsNowhere(s);
    LeadsOn(s, s, Route(i));
  }

  /** The group g that one of the two IBANs already has, or both. */
  lemma RouteJoins(s: State, i: nat, g: nat, x: Iban)
    requires ReachableInTurn(s) && i == |s.adders| - 1 && s.adders[i].Start? && i < |s.pay| && !s.root
    requires var (c, d) := (Lookup(s.index, s.pay[i].cred), Lookup(s.index, s.pay[i].deb));
      || (x == s.pay[i].deb && c == Some(g) && (d.None? || d == Some(g)))
      || (x == s.pay[i].cred && d == Some(g) && c.None?)
    ensures var t := Connect(s, i, g, s.index[x := g]); Leads(s, t) && ReachableInTurn(t)
  {
    CanRoute(s, i);
    if x in s.index {
      assert s.index[x := g] == s.index;
    }
    assert Do(s, Route(i)) == Connect(s, i, g, s.index[x := g]);
    StaysReachable(s, Route(i));
    LeadsNowhere(s);
    LeadsOn(s, s, Route(i));
  }

  lemma RouteWaits(s: State, i: nat)
    requires Enabled(s, Route(i)) && !s.root && s.pay[i].cred !in s.index && s.pay[i].deb !in s.index
    ensures Do(s, Route(i)) == SetAdder(s, i, WaitSlot)
  {
  }

  lemma ChannelFits(s: State, g: nat)
    requires ReachableInTurn(s) && g < |s.groups|
    ensures |s.groups[g].ch| <= CHAN_BUFFER
  {
    ReachedInTurn(s);
    assert GroupOk(s.groups[g]);
  }

  /** All calls but call i stand where they stood. */
  ghost predicate OnlyMoves(s: State, t: State, i: nat) {
    |t.adders| == |s.adders| && forall j :: 0 <= j < |s.adders| && j != i ==> t.adders[j] == s.adders[j]
  }

  /** t is reached from s, and of the calls only call i may have moved. */
  ghost predicate Advances(s: State, t: State, i: nat) {
    Leads(s, t) && OnlyMoves(s, t, i)
  }

  lemma AdvancesThrough(s: State, t: State, u: State, i: nat)
    requires Advances(s, t, i) && Advances(t, u, i)
    ensures Advances(s, u, i)
  {
    LeadsThrough(s, t, u);
  }

  /** A new call enters after all others have returned, and moves alone. */
  lemma EnteredAndMoved(s: State, t: State, u: State)
    requires AllReturned(s) && Leads(s, t) && |t.adders| == |s.adders| + 1 && t.adders[..|s.adders|] == s.adders
    requires Advances(t, u, |s.adders|)
    ensures Leads(s, u) && |u.adders| == |s.adders| + 1
    ensures forall j :: 0 <= j < |s.adders| ==> u.adders[j] == s.adders[j]
    ensures Returned(u.adders[|s.adders|]) ==> AllReturned(u)
  {
    LeadsThrough(s, t, u);
    assert forall j :: 0 <= j < |s.adders| ==> t.adders[..|s.adders|][j] == s.adders[j];
  }

  /** The outcome tells where the call stands. */
  ghost predicate StandsAt(a: Adder, outcome: Outcome) {
    match outcome
    case Accepted => a.Sent?
    case ShuttingDown => a.Rejected?
    case Blocked => a.WaitSlot? || a.MergeWait? || a.Sending?
    case Stuck => a.Draining?
  }

  lemma IndexedIsLive(s: State, x: Iban)
    requires ReachableInTurn(s) && x in s.index
    ensures s.index[x] < |s.groups| && !s.groups[s.index[x]].merging && !s.groups[s.index[x]].drainReady
  {
    ReachedInTurn(s);
    assert GroupOk(s.groups[s.index[x]]);
  }

  /** The group objects show what the model says. */
  ghost predicate ShowsGroups(groups: seq<Group>, values: seq<D.Group>)
    reads groups
  {
    |groups| == |values| && forall k :: 0 <= k < |groups| ==> groups[k].id == k && groups[k].Value() == values[k]
  }

  /** The map from IBANs to objects is the model's index. */
  ghost predicate ShowsIndex(groups: seq<Group>, ibans: map<Iban, Group>, index: map<Iban, nat>) {
    && (forall x :: x in ibans <==> x in index)
    && (forall x :: x in ibans ==> ibans[x].id < |groups| && groups[ibans[x].id] == ibans[x] && index[x] == ibans[x].id)
  }

  lemma RelabelShown(groups: seq<Group>, ibans: map<Iban, Group>, index: map<Iban, nat>,
          next: map<Iban, Group>, from: Group, into: Group)
    requires ShowsIndex(groups, ibans, index)
    requires from.id < |groups| && groups[from.id] == from && into.id < |groups| && groups[into.id] == into
    requires forall x :: x in next <==> x in ibans
    requires forall x :: x in next ==> next[x] == if ibans[x] == from then into else ibans[x]
    ensures ShowsIndex(groups, next, D.Relabel(index, from.id, into.id))
  {
  }

  lemma JoinShown(groups: seq<Group>, ibans: map<Iban, Group>, index: map<Iban, nat>, x: Iban, g: Group)
    requires ShowsIndex(groups, ibans, index) && g.id < |groups| && groups[g.id] == g
    ensures ShowsIndex(groups, ibans[x := g], index[x := g.id])
    ensures x in ibans && ibans[x] == g ==> ibans[x := g] == ibans
  {
  }

  lemma GrowShown(groups: seq<Group>, ibans: map<Iban, Group>, index: map<Iban, nat>, g: Group)
    requires ShowsIndex(groups, ibans, index) && g.id == |groups|
    ensures ShowsIndex(groups + [g], ibans, index)
  {
  }

  lemma LookedUp(groups: seq<Group>, ibans: map<Iban, Group>, index: map<Iban, nat>, x: Iban)
    requires ShowsIndex(groups, ibans, index)
    ensures Lookup(index, x) == if x in ibans then Some(ibans[x].id) else None
    ensures x in ibans ==> ibans[x].id < |groups| && groups[ibans[x].id] == ibans[x]
  {
  }

  class Dispatcher {
    const max: nat
    var pay: seq<Payment>
    var ibanToGroup: map<Iban, Group>
    var sem: nat
    var wg: nat
    var root: bool
    ghost var groups: seq<Group>
    ghost var model: State

    ghost predicate Valid()
      reads this, groups
    {
      Coupled() && ReachableInTurn(model)
    }

    /** The fields say what the model says. */
    ghost predicate Coupled()
      reads this, groups
    {
      && ShowsGroups(groups, model.groups) && ShowsIndex(groups, ibanToGroup, model.index)
      && model.max == max && model.pay == pay && model.sem == sem && model.wg == wg && model.root == root
    }

    constructor (max: nat)
      ensures Valid() && model == Init(max) && groups == []
    {
      this.max := max;
      pay, ibanToGroup, sem, wg, root := [], map[], 0, 0, false;
      groups, model := [], Init(max);
      LeadsNowhere(Init(max));
    }

    /** A group of this dispatcher. */
    ghost predicate Owns(g: Group)
      reads this
    {
      g.id < |groups| && groups[g.id] == g
    }

    function Find(x: Iban): Group?
      reads this`ibanToGroup
    {
      if x in ibanToGroup then ibanToGroup[x] else null
    }

    /** The group of the creditor's IBAN, or else that of the debtor's. */
    function Found(p: Payment): Group?
      reads this
    {
      if Find(p.cred) != null then Find(p.cred) else Find(p.deb)
    }

    ghost method Step(step: Step)
      requires ReachableInTurn(model) && Allowed(model, step)
      modifies this`model
      ensures model == Do(old(model), step) && ReachableInTurn(model)
      ensures Leads(old(model), model)
    {
      StaysReachable(model, step);
      LeadsNowhere(model);
      LeadsOn(model, model, step);
      model := Do(model, step);
    }

    // ----- the worker -----

    /** The worker takes the next payment and hands it to ProcessTX. */
    method ProcessNext(g: Group)
      requires Valid() && Owns(g) && g.ch != [] && (g.worker.Idle? || g.worker.FinalDrain?)
      modifies this`model, g
      ensures Valid() && model == Next(Next(old(model), Recv(g.id)), Finish(g.id)) && Leads(old(model), model)
      ensures SameCalls(old(model), model)
      ensures g.Value() == Complete(Receive(old(g.Value())))
    {
      BeginNext(g);
      ghost var mid := model;
      EndNext(g);
      LeadsThrough(old(model), mid, model);
    }

    method BeginNext(g: Group)
      requires Valid() && Owns(g) && g.ch != [] && (g.worker.Idle? || g.worker.FinalDrain?)
      modifies this`model, g
      ensures Valid() && model == Next(old(model), Recv(g.id)) && Leads(old(model), model)
      ensures SameCalls(old(model), model) && g.Value() == Receive(old(g.Value()))
    {
      g.Begin();
      Step(Recv(g.id));
    }

    method EndNext(g: Group)
      requires Valid() && Owns(g) && (g.worker.Busy? || g.worker.FinalBusy?)
      modifies this`model, g
      ensures Valid() && model == Next(old(model), Finish(g.id)) && Leads(old(model), model)
      ensures SameCalls(old(model), model) && g.Value() == Complete(old(g.Value()))
    {
      g.End();
      Step(Finish(g.id));
    }

    /** The worker sees the cancellation of its group. */
    method Stop(g: Group)
      requires Valid() && Owns(g) && g.worker.Idle? && (g.cancelled || root)
      modifies this`model, g
      ensures Valid() && model == Next(old(model), D.Stop(g.id)) && Leads(old(model), model)
      ensures SameCalls(old(model), model)
      ensures g.Value() == Quit(old(g.Value()))
    {
      g.SeeCancel();
      Step(D.Stop(g.id));
    }

    /** The final drain: the buffer is processed to its end. */
    method FinishBuffer(g: Group)
      requires Valid() && Owns(g) && g.worker.FinalDrain?
      modifies this`model, g
      ensures Valid() && Leads(old(model), model)
      ensures SameCalls(old(model), model)
      ensures g.worker.Exiting? && g.ch == [] && g.sent == old(g.sent)
      ensures g.merging == old(g.merging) && g.cancelled == old(g.cancelled) && g.drainReady == old(g.drainReady)
    {
      ghost var start := model;
      LeadsNowhere(start);
      while g.ch != []
        invariant Valid() && Owns(g) && g.worker.FinalDrain? && Leads(start, model)
        invariant SameCalls(start, model)
        invariant g.sent == old(g.sent)
        invariant g.merging == old(g.merging) && g.cancelled == old(g.cancelled) && g.drainReady == old(g.drainReady)
        decreases |g.ch|
      {
        ghost var before := model;
        ProcessNext(g);
        LeadsThrough(start, before, model);
      }
      ghost var before := model;
      LeaveBuffer(g);
      LeadsThrough(start, before, model);
    }

    method LeaveBuffer(g: Group)
      requires Valid() && Owns(g) && g.worker.FinalDrain? && g.ch == []
      modifies this`model, g
      ensures Valid() && model == Next(old(model), DrainOut(g.id)) && Leads(old(model), model)
      ensures SameCalls(old(model), model) && g.Value() == old(g.Value()).(worker := Exiting)
    {
      g.Go(Exiting);
      Step(DrainOut(g.id));
    }

    /** The deferred calls: the slot is released first, then the wait group is told. */
    method Leave(g: Group)
      requires Valid() && Owns(g) && g.worker.Exiting?
      modifies this`sem, this`wg, this`model, g
      ensures Valid() && model == Next(Next(old(model), Release(g.id)), WgDone(g.id)) && Leads(old(model), model)
      ensures SameCalls(old(model), model) && g.Value() == old(g.Value()).(worker := Finished)
    {
      FreeSlot(g);
      ghost var mid := model;
      Done(g);
      LeadsThrough(old(model), mid, model);
    }

    method FreeSlot(g: Group)
      requires Valid() && Owns(g) && g.worker.Exiting?
      modifies this`sem, this`model, g
      ensures Valid() && model == Next(old(model), Release(g.id)) && Leads(old(model), model)
      ensures SameCalls(old(model), model) && g.Value() == old(g.Value()).(worker := Released)
    {
      SlotIsHeld(model, g.id);
      sem := sem - 1;
      g.Go(Released);
      Step(Release(g.id));
    }

    method Done(g: Group)
      requires Valid() && Owns(g) && g.worker.Released?
      modifies this`wg, this`model, g
      ensures Valid() && model == Next(old(model), WgDone(g.id)) && Leads(old(model), model)
      ensures SameCalls(old(model), model) && g.Value() == old(g.Value()).(worker := Finished)
    {
      SlotIsHeld(model, g.id);
      wg := wg - 1;
      g.Go(Finished);
      Step(WgDone(g.id));
    }

    /** The select loop while it picks the channel: at most `more` times once the group or
        the root is cancelled. */
    method TakeWhilePicked(g: Group, more: nat)
      requires Valid() && Owns(g) && g.worker.Idle?
      modifies this`model, g
      ensures Valid() && Leads(old(model), model) && SameCalls(old(model), model)
      ensures g.worker.Idle? && |g.ch| == if g.cancelled || root then Left(|old(g.ch)|, more) else 0
      ensures g.merging == old(g.merging) && g.cancelled == old(g.cancelled) && g.sent == old(g.sent)
    {
      ghost var start := model;
      LeadsNowhere(start);
      var k := 0;
      while g.ch != [] && (k < more || !(g.cancelled || root))
        invariant Valid() && Owns(g) && g.worker.Idle? && Leads(start, model)
        invariant SameCalls(start, model)
        invariant g.merging == old(g.merging) && g.cancelled == old(g.cancelled) && g.sent == old(g.sent)
        invariant |g.ch| + k == |old(g.ch)| && (g.cancelled || root ==> k <= more)
        decreases |g.ch|
      {
        ghost var before := model;
        ProcessNext(g);
        LeadsThrough(start, before, model);
        k := k + 1;
      }
    }

    /** From the cancellation to the end of the goroutine. */
    method Exit(g: Group)
      requires Valid() && Owns(g) && g.worker.Idle? && (g.cancelled || root)
      modifies this`sem, this`wg, this`model, g
      ensures Valid() && Leads(old(model), model) && SameCalls(old(model), model)
      ensures g.merging == old(g.merging) && g.cancelled == old(g.cancelled) && g.sent == old(g.sent)
      ensures g.worker.Finished? && if g.merging then g.drainReady && g.ch == old(g.ch) else g.ch == []
    {
      ghost var start := model;
      Stop(g);
      ghost var before := model;
      if !g.merging {
        FinishBuffer(g);
        LeadsThrough(start, before, model);
        before := model;
      }
      Leave(g);
      LeadsThrough(start, before, model);
    }

    /** The body of `runWorker`, as far as it gets. */
    method TakeAndExit(g: Group, more: nat)
      requires Valid() && Owns(g) && g.worker.Idle?
      modifies this`sem, this`wg, this`model, g
      ensures Valid() && Leads(old(model), model) && SameCalls(old(model), model)
      ensures g.merging == old(g.merging) && g.cancelled == old(g.cancelled) && g.sent == old(g.sent)
      ensures if g.cancelled || root then g.worker.Finished? else g.worker.Idle?
      ensures if (g.cancelled || root) && g.merging then g.drainReady && |g.ch| == Left(|old(g.ch)|, more)
        else g.ch == []
    {
      ghost var start := model;
      TakeWhilePicked(g, more);
      if g.cancelled || root {
        ghost var before := model;
        Exit(g);
        LeadsThrough(start, before, model);
      }
    }

    /** `runWorker`: it takes payments until it is cancelled, then closes DrainReady or
        empties its buffer, and leaves; it waits if there is neither a payment nor a
        cancellation. Unless a merger takes its channel over, everything sent gets processed,
        in the order in which it was sent. */
    method RunWorker(g: Group, more: nat)
      requires Valid() && Owns(g) && g.worker.Idle?
      modifies this`sem, this`wg, this`model, g
      ensures Valid() && Leads(old(model), model) && SameCalls(old(model), model)
      ensures g.merging == old(g.merging) && g.cancelled == old(g.cancelled) && g.sent == old(g.sent)
      ensures if g.cancelled || root then g.worker.Finished? else g.worker.Idle?
      ensures if g.merging then g.drainReady && |g.ch| == Left(|old(g.ch)|, more) else g.ch == [] && g.done == g.sent
    {
      TakeAndExit(g, more);
      Emptied(model, g.id);
    }

    // ----- the pieces of Add -----

    /** A new call of `add`. */
    method Enter(tx: Payment) returns (i: nat)
      requires Valid() && AllReturned(model)
      modifies this`pay, this`model
      ensures Valid() && model == Next(old(model), Submit(tx)) && Leads(old(model), model)
      ensures i == |old(pay)| && i == |model.adders| - 1 && model.adders[i].Start? && pay == old(pay) + [tx]
    {
      i := |pay|;
      ReachedInTurn(model);
      pay := pay + [tx];
      Step(Submit(tx));
    }

    /** The loop that points all IBANs of one group at another. */
    method Relabel(from: Group, into: Group)
      modifies this`ibanToGroup
      ensures forall x :: x in ibanToGroup <==> x in old(ibanToGroup)
      ensures forall x :: x in ibanToGroup ==>
        ibanToGroup[x] == if old(ibanToGroup)[x] == from then into else old(ibanToGroup)[x]
    {
      var todo := ibanToGroup.Keys;
      while todo != {}
        invariant forall x :: x in ibanToGroup <==> x in old(ibanToGroup)
        invariant forall x :: x in todo ==> x in ibanToGroup
        invariant forall x :: x in ibanToGroup ==>
          ibanToGroup[x] == if old(ibanToGroup)[x] == from && x !in todo then into else old(ibanToGroup)[x]
        decreases |todo|
      {
        var x :| x in todo;
        if ibanToGroup[x] == from {
          ibanToGroup := ibanToGroup[x := into];
        }
        todo := todo - {x};
      }
    }

    /** Flags a group, points its IBANs at the other group and cancels its worker. */
    method Redirect(i: nat, gA: Group, gB: Group)
      requires Coupled() && i < |model.adders| && Owns(gA) && Owns(gB) && gA != gB
      modifies this`ibanToGroup, this`model, gB
      ensures Coupled() && model == D.BeginMerge(old(model), i, gA.id, gB.id)
      ensures gB.Value() == old(gB.Value()).(merging := true, cancelled := true)
    {
      gB.merging := true;
      Relabel(gB, gA);
      RelabelShown(groups, old(ibanToGroup), model.index, ibanToGroup, gB, gA);
      gB.cancelled := true;
      model := D.BeginMerge(model, i, gA.id, gB.id);
    }

    method BeginMerge(i: nat, gA: Group, gB: Group)
      requires Valid() && !root && i == |model.adders| - 1 && model.adders[i].Start? && i < |pay|
      requires Find(pay[i].cred) == gA && Find(pay[i].deb) == gB && gA != gB
      modifies this`ibanToGroup, this`model, gB
      ensures Valid() && Owns(gA) && Owns(gB) && Advances(old(model), model, i)
      ensures gB.merging && gB.cancelled && gB.worker == old(gB.worker)
      ensures gB.ch == old(gB.ch) && gB.drainReady == old(gB.drainReady)
      ensures model == D.BeginMerge(old(model), i, gA.id, gB.id)
    {
      LookedUp(groups, ibanToGroup, model.index, pay[i].cred);
      LookedUp(groups, ibanToGroup, model.index, pay[i].deb);
      RouteMerges(model, i, gA.id, gB.id);
      Redirect(i, gA, gB);
    }

    /** The IBAN x of the payment joins, or already is in, the group of the other IBAN. */
    method Join(i: nat, x: Iban, g: Group)
      requires Valid() && !root && i == |model.adders| - 1 && model.adders[i].Start? && i < |pay|
      requires JoinsBy(pay[i], x, g)
      modifies this`ibanToGroup, this`model
      ensures Valid() && Owns(g) && Advances(old(model), model, i)
      ensures model == Connect(old(model), i, g.id, old(model.index)[x := g.id])
    {
      JoinFollows(i, x, g);
      JoinGroup(i, x, g);
    }

    /** A joining branch, as far as the fields go. */
    method JoinGroup(i: nat, x: Iban, g: Group)
      requires Coupled() && Owns(g) && i < |model.adders| && (Find(x) == null || Find(x) == g)
      modifies this`ibanToGroup, this`model
      ensures Coupled() && model == Connect(old(model), i, g.id, old(model.index)[x := g.id])
    {
      PointOne(x, g);
      model := Connect(model, i, g.id, model.index[x := g.id]);
    }

    method PointOne(x: Iban, g: Group)
      requires ShowsIndex(groups, ibanToGroup, model.index) && Owns(g) && (Find(x) == null || Find(x) == g)
      modifies this`ibanToGroup
      ensures ShowsIndex(groups, ibanToGroup, model.index[x := g.id])
    {
      JoinShown(groups, ibanToGroup, model.index, x, g);
      if Find(x) == null {
        ibanToGroup := ibanToGroup[x := g];
      }
    }

    lemma JoinFollows(i: nat, x: Iban, g: Group)
      requires Valid() && !root && i == |model.adders| - 1 && model.adders[i].Start? && i < |pay|
      requires JoinsBy(pay[i], x, g)
      ensures Owns(g)
      ensures var t := Connect(model, i, g.id, model.index[x := g.id]); Leads(model, t) && ReachableInTurn(t)
    {
      LookedUp(groups, ibanToGroup, model.index, pay[i].cred);
      LookedUp(groups, ibanToGroup, model.index, pay[i].deb);
      RouteJoins(model, i, g.id, x);
    }

    /** Of the two IBANs of a payment, x is to be in g, which the other one already is in. */
    predicate JoinsBy(p: Payment, x: Iban, g: Group)
      reads this
    {
      || (x == p.deb && Find(p.cred) == g && (Find(x) == null || Find(x) == g))
      || (x == p.cred && Find(p.deb) == g && Find(x) == null)
    }

    method Wait(i: nat)
      requires Valid() && !root && i == |model.adders| - 1 && model.adders[i].Start? && i < |pay|
      requires Find(pay[i].cred) == null && Find(pay[i].deb) == null
      modifies this`model
      ensures Valid() && Advances(old(model), model, i) && model == SetAdder(old(model), i, WaitSlot)
    {
      CanRoute(model, i);
      RouteWaits(model, i);
      Step(D.Route(i));
    }

    /** The semaphore is taken if there is room; otherwise the call stays waiting. */
    method TakeSlot(i: nat) returns (taken: bool)
      requires Valid() && i < |model.adders| && i < |pay| && model.adders[i].WaitSlot?
      modifies this`sem, this`model
      ensures Valid() && Advances(old(model), model, i)
      ensures taken <==> old(sem) < max
      ensures model == if taken then SetAdder(old(model), i, HoldSlot).(sem := old(sem) + 1) else old(model)
    {
      LeadsNowhere(model);
      if sem >= max { return false; }
      sem := sem + 1;
      Step(Acquire(i));
      return true;
    }

    /** Both IBANs of the payment are pointed at g, and the model takes its re-check. */
    method PointBoth(i: nat, g: Group)
      requires ShowsIndex(groups, ibanToGroup, model.index) && Owns(g) && i < |pay|
      modifies this`ibanToGroup
      ensures ShowsIndex(groups, ibanToGroup, model.index[pay[i].deb := g.id][pay[i].cred := g.id])
    {
      JoinShown(groups, ibanToGroup, model.index, pay[i].deb, g);
      ibanToGroup := ibanToGroup[pay[i].deb := g];
      JoinShown(groups, ibanToGroup, model.index[pay[i].deb := g.id], pay[i].cred, g);
      ibanToGroup := ibanToGroup[pay[i].cred := g];
    }

    method JoinLate(i: nat, g: Group)
      requires Valid() && i == |model.adders| - 1 && model.adders[i].HoldSlot? && i < |pay|
      requires Find(pay[i].cred) == g || (Find(pay[i].cred) == null && Find(pay[i].deb) == g)
      modifies this`ibanToGroup, this`sem, this`model
      ensures Valid() && Owns(g) && Advances(old(model), model, i)
      ensures 0 < old(sem) && model == JoinedLate(old(model), i, g.id)
    {
      LateFollows(i, g);
      JoinLateGroup(i, g);
    }

    lemma LateFollows(i: nat, g: Group)
      requires Valid() && i == |model.adders| - 1 && model.adders[i].HoldSlot? && i < |pay|
      requires Find(pay[i].cred) == g || (Find(pay[i].cred) == null && Find(pay[i].deb) == g)
      ensures Owns(g) && 0 < sem
      ensures Advances(model, JoinedLate(model, i, g.id), i) && ReachableInTurn(JoinedLate(model, i, g.id))
    {
      LookedUp(groups, ibanToGroup, model.index, pay[i].cred);
      LookedUp(groups, ibanToGroup, model.index, pay[i].deb);
      RecheckJoins(model, i, g.id);
    }

    /** The first branch of the re-check, as far as the fields go. */
    method JoinLateGroup(i: nat, g: Group)
      requires Coupled() && Owns(g) && i < |pay| && i < |model.adders| && 0 < sem
      modifies this`ibanToGroup, this`sem, this`model
      ensures Coupled() && model == JoinedLate(old(model), i, g.id)
    {
      PointBoth(i, g);
      sem := sem - 1;
      model := JoinedLate(model, i, g.id);
    }

    method AddGroup() returns (g: Group)
      requires ShowsGroups(groups, model.groups) && ShowsIndex(groups, ibanToGroup, model.index)
      modifies this`groups
      ensures fresh(g) && groups == old(groups) + [g] && Owns(g) && g.ch == []
      ensures ShowsGroups(groups, model.groups + [NewGroup(|model.groups|)])
        && ShowsIndex(groups, ibanToGroup, model.index)
    {
      g := new Group(|groups|);
      GrowShown(groups, ibanToGroup, model.index, g);
      groups := groups + [g];
    }

    /** The second branch of the re-check, as far as the fields go. */
    method OpenGroup(i: nat) returns (g: Group)
      requires Coupled() && i < |pay| && i < |model.adders|
      modifies this`ibanToGroup, this`wg, this`groups, this`model
      ensures Coupled() && Owns(g) && fresh(g) && groups == old(groups) + [g] && g.ch == []
      ensures model == Opened(old(model), i) && g.id == |old(groups)|
    {
      g := AddGroup();
      PointBoth(i, g);
      wg := wg + 1;
      model := Opened(model, i);
    }

    /** A new group for the payment, and a new worker for the group. */
    method Open(i: nat) returns (g: Group)
      requires Valid() && i == |model.adders| - 1 && model.adders[i].HoldSlot? && i < |pay|
      requires Find(pay[i].cred) == null && Find(pay[i].deb) == null
      modifies this`ibanToGroup, this`wg, this`groups, this`model
      ensures Valid() && Owns(g) && Advances(old(model), model, i)
      ensures fresh(g) && groups == old(groups) + [g] && g.ch == []
      ensures model == Opened(old(model), i) && g.id == |old(groups)|
    {
      RecheckOpens(model, i);
      g := OpenGroup(i);
    }

    /** The second critical section: the IBANs are looked up again. */
    method Recheck(i: nat) returns (g: Group?)
      requires Valid() && i == |model.adders| - 1 && model.adders[i].HoldSlot? && i < |pay|
      modifies this`ibanToGroup, this`sem, this`wg, this`groups, this`model
      ensures Valid() && g != null && Owns(g) && Advances(old(model), model, i)
      ensures model.adders == old(model.adders)[i := Sending(g.id)]
      ensures if old(Find(pay[i].cred)) != null || old(Find(pay[i].deb)) != null
        then 0 < old(sem) && groups == old(groups) && g == old(Found(pay[i]))
          && model == JoinedLate(old(model), i, g.id)
        else fresh(g) && groups == old(groups) + [g] && g.ch == [] && model == Opened(old(model), i)
    {
      var gA, gB := Find(pay[i].cred), Find(pay[i].deb);
      if gA != null || gB != null {
        g := gA;
        if gA == null {
          g := gB;
        }
        JoinLate(i, g);
      } else {
        g := Open(i);
      }
    }

    // ----- draining -----

    method TakeOne(i: nat, gA: Group, gB: Group) returns (p: nat)
      requires Valid() && Owns(gA) && Owns(gB) && gA != gB && i < |model.adders| && i < |pay|
      requires model.adders[i] == Draining(gA.id, gB.id, None) && gB.ch != []
      modifies this`model, gB
      ensures Valid() && Advances(old(model), model, i) && p == old(gB.ch[0]) && gB.Value() == TakeOut(old(gB.Value()))
      ensures model.adders == old(model.adders)[i := Draining(gA.id, gB.id, Some(p))]
    {
      p := gB.Pop();
      Step(Take(i));
    }

    method PutOne(i: nat, gA: Group, gB: Group, p: nat)
      requires Valid() && Owns(gA) && Owns(gB) && gA != gB && i < |model.adders| && i < |pay|
      requires model.adders[i] == Draining(gA.id, gB.id, Some(p)) && |gA.ch| < CHAN_BUFFER
      modifies this`model, gA
      ensures Valid() && Advances(old(model), model, i) && gA.Value() == PutIn(old(gA.Value()), p)
      ensures model.adders == old(model.adders)[i := Draining(gA.id, gB.id, None)]
    {
      gA.Push(p);
      Step(Put(i));
    }

    method Lock(i: nat, gA: Group, gB: Group)
      requires Valid() && Owns(gA) && Owns(gB) && i == |model.adders| - 1 && i < |pay|
      requires model.adders[i] == MergeWait(gA.id, gB.id) && gB.drainReady
      modifies this`model
      ensures Valid() && Advances(old(model), model, i)
      ensures model.adders == old(model.adders)[i := Draining(gA.id, gB.id, None)]
    {
      CanLock(model, i);
      Step(LockDrain(i));
    }

    /** The loop over the channel of the merged group. It stops half way, with a payment in
        hand and the mutex held, if the channel of the other group is full. */
    method Pour(i: nat, gA: Group, gB: Group) returns (ok: bool)
      requires Valid() && Owns(gA) && Owns(gB) && gA != gB && i < |model.adders| && i < |pay|
      requires model.adders[i] == Draining(gA.id, gB.id, None)
      modifies this`model, gA, gB
      ensures Valid() && Advances(old(model), model, i)
      ensures if ok then model.adders[i] == Draining(gA.id, gB.id, None) && gB.ch == []
          && |gA.ch| == |old(gA.ch)| + |old(gB.ch)|
        else model.adders[i].Draining? && |gA.ch| == CHAN_BUFFER
      ensures ok <==> |old(gA.ch)| + |old(gB.ch)| <= CHAN_BUFFER
    {
      ghost var start := model;
      LeadsNowhere(start);
      ChannelFits(model, gA.id);
      while gB.ch != []
        invariant Valid() && Advances(start, model, i) && model.adders[i] == Draining(gA.id, gB.id, None)
        invariant |gA.ch| + |gB.ch| == |old(gA.ch)| + |old(gB.ch)| && |gA.ch| <= CHAN_BUFFER
        decreases |gB.ch|
      {
        ghost var before := model;
        var p := TakeOne(i, gA, gB);
        AdvancesThrough(start, before, model, i);
        if |gA.ch| >= CHAN_BUFFER { return false; }
        before := model;
        PutOne(i, gA, gB, p);
        AdvancesThrough(start, before, model, i);
      }
      return true;
    }

    method Unlock(i: nat, gA: Group, gB: Group)
      requires Valid() && Owns(gA) && Owns(gB) && i < |model.adders| && i < |pay|
      requires model.adders[i] == Draining(gA.id, gB.id, None) && gB.ch == []
      modifies this`ibanToGroup, this`model
      ensures Valid() && Advances(old(model), model, i)
      ensures model.adders == old(model.adders)[i := Sending(gA.id)]
    {
      Relabel(gB, gA);
      RelabelShown(groups, old(ibanToGroup), model.index, ibanToGroup, gB, gA);
      Step(EndDrain(i));
    }

    method Deliver(i: nat, g: Group) returns (sent: bool)
      requires Valid() && Owns(g) && i < |model.adders| && i < |pay| && model.adders[i] == Sending(g.id)
      modifies this`model, g
      ensures Valid() && Advances(old(model), model, i)
      ensures sent <==> old(|g.ch|) < CHAN_BUFFER
      ensures model.adders == if sent then old(model.adders)[i := Sent] else old(model.adders)
    {
      LeadsNowhere(model);
      if |g.ch| >= CHAN_BUFFER { return false; }
      g.Push(i);
      Step(Send(i));
      return true;
    }

    // ----- Add -----

    /** Neither IBAN has a group: wait for a slot, look again, open a group, send. */
    method AddNew(i: nat) returns (outcome: Outcome)
      requires Valid() && !root && i == |model.adders| - 1 && model.adders[i].Start? && i < |pay|
      requires Find(pay[i].cred) == null && Find(pay[i].deb) == null
      modifies this`ibanToGroup, this`sem, this`wg, this`groups, this`model
      ensures Valid() && Advances(old(model), model, i) && StandsAt(model.adders[i], outcome)
      ensures outcome == if old(sem) < max then Accepted else Blocked
      ensures old(groups) <= groups && forall k :: |old(groups)| <= k < |groups| ==> fresh(groups[k])
    {
      ghost var start := model;
      Wait(i);
      ghost var before := model;
      var taken := TakeSlot(i);
      AdvancesThrough(start, before, model, i);
      if !taken { return Blocked; }
      before := model;
      OpenAndSend(i);
      AdvancesThrough(start, before, model, i);
      return Accepted;
    }

    method OpenAndSend(i: nat)
      requires Valid() && i == |model.adders| - 1 && model.adders[i].HoldSlot? && i < |pay|
      requires Find(pay[i].cred) == null && Find(pay[i].deb) == null
      modifies this`ibanToGroup, this`sem, this`wg, this`groups, this`model
      ensures Valid() && Advances(old(model), model, i) && model.adders[i].Sent?
      ensures old(groups) <= groups && forall k :: |old(groups)| <= k < |groups| ==> fresh(groups[k])
    {
      ghost var start := model;
      var g := Recheck(i);
      ghost var before := model;
      var sent := Deliver(i, g);
      AdvancesThrough(start, before, model, i);
    }

    /** One IBAN has a group, or both have the same: join it and send. */
    method AddJoin(i: nat, x: Iban, g: Group) returns (outcome: Outcome)
      requires Valid() && !root && i == |model.adders| - 1 && model.adders[i].Start? && i < |pay|
      requires JoinsBy(pay[i], x, g)
      modifies this`ibanToGroup, this`model, g
      ensures Valid() && Advances(old(model), model, i) && StandsAt(model.adders[i], outcome)
      ensures outcome == IfFits(old(|g.ch|))
    {
      ghost var start := model;
      Join(i, x, g);
      ChannelFits(model, g.id);
      ghost var before := model;
      var sent := Deliver(i, g);
      AdvancesThrough(start, before, model, i);
      return if sent then Accepted else Blocked;
    }

    /** Flags and cancels the group; while the call waits for DrainReady, the worker of the
        group, if it has one, runs to its end. */
    method AwaitWorker(i: nat, gA: Group, gB: Group, more: nat) returns (ready: bool)
      requires Valid() && !root && i == |model.adders| - 1 && model.adders[i].Start? && i < |pay|
      requires Find(pay[i].cred) == gA && Find(pay[i].deb) == gB && gA != gB
      modifies this`ibanToGroup, this`sem, this`wg, this`model, gB
      ensures Valid() && Owns(gA) && Owns(gB) && Advances(old(model), model, i)
      ensures model.adders[i] == MergeWait(gA.id, gB.id)
      ensures ready == gB.drainReady == old(gB.worker.Idle?)
      ensures ready ==> |gB.ch| == Left(|old(gB.ch)|, more)
    {
      ghost var start := model;
      LookedUp(groups, ibanToGroup, model.index, pay[i].deb);
      IndexedIsLive(model, pay[i].deb);
      BeginMerge(i, gA, gB);
      if gB.worker.Idle? {
        ghost var before := model;
        RunWorker(gB, more);
        AdvancesThrough(start, before, model, i);
      }
      return gB.drainReady;
    }

    /** The third critical section. */
    method Drain(i: nat, gA: Group, gB: Group) returns (ok: bool)
      requires Valid() && Owns(gA) && Owns(gB) && gA != gB && i == |model.adders| - 1 && i < |pay|
      requires model.adders[i] == MergeWait(gA.id, gB.id) && gB.drainReady
      modifies this`ibanToGroup, this`model, gA, gB
      ensures Valid() && Advances(old(model), model, i)
      ensures ok <==> |old(gA.ch)| + |old(gB.ch)| <= CHAN_BUFFER
      ensures if ok then model.adders[i] == Sending(gA.id) && |gA.ch| == |old(gA.ch)| + |old(gB.ch)|
        else model.adders[i].Draining?
    {
      ghost var start := model;
      Lock(i, gA, gB);
      ghost var before := model;
      ok := Pour(i, gA, gB);
      AdvancesThrough(start, before, model, i);
      if ok {
        before := model;
        Unlock(i, gA, gB);
        AdvancesThrough(start, before, model, i);
      }
    }

    /** The IBANs have different groups: merge the debtor's into the creditor's, and send. */
    method AddMerge(i: nat, gA: Group, gB: Group, more: nat) returns (outcome: Outcome)
      requires Valid() && !root && i == |model.adders| - 1 && model.adders[i].Start? && i < |pay|
      requires Find(pay[i].cred) == gA && Find(pay[i].deb) == gB && gA != gB
      modifies this`ibanToGroup, this`sem, this`wg, this`model, gA, gB
      ensures Valid() && Advances(old(model), model, i) && StandsAt(model.adders[i], outcome)
      ensures outcome == if !old(gB.worker).Idle? then Blocked else IfFits(|old(gA.ch)| + Left(|old(gB.ch)|, more))
    {
      ghost var start := model;
      var ready := AwaitWorker(i, gA, gB, more);
      if !ready { return Blocked; }
      ghost var before := model;
      var ok := Drain(i, gA, gB);
      AdvancesThrough(start, before, model, i);
      if !ok { return Stuck; }
      before := model;
      var sent := Deliver(i, gA);
      AdvancesThrough(start, before, model, i);
      return if sent then Accepted else Blocked;
    }

    method Turn(i: nat)
      requires Valid() && root && i == |model.adders| - 1 && model.adders[i].Start? && i < |pay|
      modifies this`model
      ensures Valid() && Advances(old(model), model, i) && model.adders[i].Rejected?
    {
      CanRoute(model, i);
      Step(D.Route(i));
    }

    // ----- the contexts -----

    /** The watcher of a group cancels it. */
    method Watch(g: Group)
      requires Valid() && Owns(g)
      modifies this`model, g
      ensures Valid() && Leads(old(model), model) && g.Value() == old(g.Value()).(cancelled := true)
    {
      LeadsNowhere(model);
      if !g.cancelled {
        g.cancelled := true;
        Step(D.Watch(g.id));
      }
    }

    method CancelRoot()
      requires Valid()
      modifies this`root, this`model
      ensures Valid() && Leads(old(model), model) && root && model == old(model).(root := true)
    {
      LeadsNowhere(model);
      if !root {
        root := true;
        Step(D.Shutdown);
      }
    }

    // ----- all of Add -----

    ghost predicate OwnsIndexed()
      reads this`ibanToGroup, this`groups
    {
      forall x :: x in ibanToGroup ==> ibanToGroup[x] in groups
    }

    /** How far a call gets without a shutdown, told from the state before it. A merge succeeds
        if the merged group still has its worker, and what that leaves, and then the payment of
        the call itself, fit into the other channel. */
    ghost function Foretold(tx: Payment, more: nat): Outcome
      requires OwnsIndexed()
      reads this`root, this`sem, this`ibanToGroup, this`groups, groups
    {
      var gA, gB := Find(tx.cred), Find(tx.deb);
      if root then ShuttingDown
      else if gA == null && gB == null then (if sem < max then Accepted else Blocked)
      else if gA == null then IfFits(|gB.ch|)
      else if gB == null || gB == gA then IfFits(|gA.ch|)
      else if !gB.worker.Idle? then Blocked
      else IfFits(|gA.ch| + Left(|gB.ch|, more))
    }

    /** The body of `add` for the call that has just been entered, up to where it blocks. */
    method Route(i: nat, more: nat) returns (outcome: Outcome)
      requires Valid() && i == |model.adders| - 1 && model.adders[i].Start? && i < |pay|
      modifies this`ibanToGroup, this`sem, this`wg, this`groups, this`model, groups
      ensures Valid() && Advances(old(model), model, i) && StandsAt(model.adders[i], outcome)
      ensures old(groups) <= groups && forall k :: |old(groups)| <= k < |groups| ==> fresh(groups[k])
      ensures outcome == old(Foretold(pay[i], more))
    {
      if root {
        Turn(i);
        return ShuttingDown;
      }
      if Find(pay[i].cred) == null && Find(pay[i].deb) == null {
        outcome := AddNew(i);
      } else {
        outcome := RouteKnown(i, more);
      }
    }

    /** At least one of the two IBANs has a group. */
    method RouteKnown(i: nat, more: nat) returns (outcome: Outcome)
      requires Valid() && !root && i == |model.adders| - 1 && model.adders[i].Start? && i < |pay|
      requires Find(pay[i].cred) != null || Find(pay[i].deb) != null
      modifies this`ibanToGroup, this`sem, this`wg, this`model, groups
      ensures Valid() && Advances(old(model), model, i) && StandsAt(model.adders[i], outcome)
      ensures outcome == old(Foretold(pay[i], more))
    {
      var gA, gB := Find(pay[i].cred), Find(pay[i].deb);
      LookedUp(groups, ibanToGroup, model.index, pay[i].cred);
      LookedUp(groups, ibanToGroup, model.index, pay[i].deb);
      if gB == null {
        outcome := AddJoin(i, pay[i].deb, gA);
      } else if gA == null {
        outcome := AddJoin(i, pay[i].cred, gB);
      } else if gA == gB {
        outcome := AddJoin(i, pay[i].deb, gA);
      } else {
        outcome := AddMerge(i, gA, gB, more);
      }
    }

    /** The root is cancelled while the call waits in a select, and the call gives up. */
    method CancelWhileWaiting(i: nat)
      requires Valid() && !root && i < |model.adders| && i < |pay| && StandsAt(model.adders[i], Blocked)
      modifies this`root, this`model
      ensures Valid() && root && Advances(old(model), model, i) && model.adders[i].Rejected?
    {
      CancelRoot();
      ghost var mid := model;
      Step(D.GiveUp(i));
      AdvancesThrough(old(model), mid, model, i);
    }

    /** Without a shutdown the call would come to wait in a select. */
    ghost predicate WaitsInSelect(tx: Payment, more: nat)
      requires OwnsIndexed()
      reads this`root, this`sem, this`ibanToGroup, this`groups, groups
    {
      Foretold(tx, more).Blocked?
    }

    method RouteOrGiveUp(i: nat, more: nat, shutdown: bool) returns (outcome: Outcome)
      requires Valid() && i == |model.adders| - 1 && model.adders[i].Start? && i < |pay|
      modifies this`ibanToGroup, this`sem, this`wg, this`root, this`groups, this`model, groups
      ensures Valid() && Advances(old(model), model, i) && StandsAt(model.adders[i], outcome)
      ensures old(groups) <= groups && forall k :: |old(groups)| <= k < |groups| ==> fresh(groups[k])
      ensures outcome == if shutdown && old(WaitsInSelect(pay[i], more)) then ShuttingDown
        else old(Foretold(pay[i], more))
      ensures root == (old(root) || (shutdown && old(WaitsInSelect(pay[i], more))))
    {
      ghost var start := model;
      outcome := Route(i, more);
      if shutdown && outcome.Blocked? {
        ghost var blocked := model;
        CancelWhileWaiting(i);
        AdvancesThrough(start, blocked, model, i);
        outcome := ShuttingDown;
      }
    }

    /** `add`, run to its end or to where it blocks; if `shutdown`, the root is cancelled should
        the call come to wait in a select. The outcome is the one that the state before the call
        foretells; the new state is one that the step system reaches; no earlier call is
        disturbed; and a call that returns leaves room for the next one. */
    method Add(tx: Payment, more: nat, shutdown: bool) returns (outcome: Outcome)
      requires Valid() && AllReturned(model)
      modifies this`pay, this`ibanToGroup, this`sem, this`wg, this`root, this`groups, this`model, groups
      ensures Valid() && Leads(old(model), model)
      ensures outcome == if shutdown && old(WaitsInSelect(tx, more)) then ShuttingDown else old(Foretold(tx, more))
      ensures root == (old(root) || (shutdown && old(WaitsInSelect(tx, more))))
      ensures pay == old(pay) + [tx] && |model.adders| == |old(model.adders)| + 1
      ensures StandsAt(model.adders[|old(model.adders)|], outcome)
      ensures forall j :: 0 <= j < |old(model.adders)| ==> model.adders[j] == old(model.adders)[j]
      ensures outcome.Accepted? || outcome.ShuttingDown? ==> AllReturned(model)
      ensures old(groups) <= groups && forall k :: |old(groups)| <= k < |groups| ==> fresh(groups[k])
    {
      ghost var start := model;
      var i := Enter(tx);
      ghost var before := model;
      outcome := RouteOrGiveUp(i, more, shutdown);
      EnteredAndMoved(start, before, model);
    }

    // ----- what the objects promise -----

    /** The map sends two IBANs to the same object exactly if routed payments connect them, and
        no two workers process payments that share an IBAN. */
    lemma GroupsAreComponentsHere(x: Iban, y: Iban)
      requires Valid()
      ensures x in ibanToGroup ==>
        (y in ibanToGroup && ibanToGroup[x] == ibanToGroup[y] <==> Connected(PaymentGraph(model), x, y))
      ensures Serialisation.Serial(model)
    {
      OneCallAtATimeIsSerial(model);
      if x in ibanToGroup {
        OneCallAtATimeKeepsComponents(model, x, y);
      }
    }
  }
}
