/** The dispatcher as a step system. One step is one action between two points where
    goroutines can interleave: a critical section under the mutex, one channel
    operation, one select branch, or one deferred call. */
module DispatcherSteps {
  import opened Common
  import opened MergeForest
  import Runs

  type Iban = string

  const CHAN_BUFFER: nat := 100

  datatype Payment = Payment(txid: string, ete: string, cred: Iban, deb: Iban)

  /** Where a call of `add` stands. Adder i carries payment i. */
  datatype Adder =
    | Start                                            // not yet under the mutex
    | WaitSlot                                         // waiting for a semaphore slot
    | HoldSlot                                         // slot taken, before the re-check
    | MergeWait(into: nat, from: nat)                  // waiting for from.DrainReady
    | Draining(into: nat, from: nat, hand: Option<nat>) // moving from.Ch to into.Ch under the mutex
    | Sending(target: nat)                             // at the final send
    | Sent
    | Rejected

  /** Where the worker goroutine of a group stands. */
  datatype Worker =
    | Idle
    | Busy(tx: nat)        // inside ProcessTX
    | FinalDrain           // reading the buffer dry after cancellation
    | FinalBusy(tx: nat)   // inside ProcessTX during the final drain
    | Exiting              // returned, deferred calls still to run
    | Released             // semaphore slot given back
    | Finished             // Wg.Done called

  /** A group. The last three fields record its history: every payment ever put into
      the channel, every payment the worker finished, every payment a merger took. */
  datatype Group = Group(
    id: nat, ch: seq<nat>, cancelled: bool, merging: bool, drainReady: bool, worker: Worker,
    sent: seq<nat>, done: seq<nat>, drained: seq<nat>)

  datatype State = State(
    max: nat,                  // capacity of the semaphore
    pay: seq<Payment>,         // payments handed to `add`, in order of the calls
    adders: seq<Adder>,
    index: map<Iban, nat>,     // IbanToGroup
    groups: seq<Group>,
    mu: Option<nat>,           // the adder that holds the mutex between steps
    sem: nat,
    wg: nat,
    root: bool,                // root context cancelled
    log: Log,                  // merges so far
    routed: set<nat>,          // adders that got past routing
    split: bool)               // a re-check has moved an IBAN between two groups

  datatype Step =
    | Submit(p: Payment)
    | Route(i: nat) | Acquire(i: nat) | Recheck(i: nat) | GiveUp(i: nat)
    | LockDrain(i: nat) | Take(i: nat) | Put(i: nat) | EndDrain(i: nat) | Send(i: nat)
    | Recv(g: nat) | Finish(g: nat) | Stop(g: nat) | DrainOut(g: nat)
    | Release(g: nat) | WgDone(g: nat)
    | Watch(g: nat) | Shutdown

  function Init(max: nat): State {
    State(max, [], [], map[], [], None, 0, 0, false, [], {}, false)
  }

  function NewGroup(id: nat): Group {
    Group(id, [], false, false, false, Idle, [], [], [])
  }

  /** The payment a worker has in hand, if any. */
  function Flight(w: Worker): seq<nat> {
    match w
    case Busy(p) => [p]
    case FinalBusy(p) => [p]
    case _ => []
  }

  predicate Stopped(w: Worker) {
    w.Exiting? || w.Released? || w.Finished?
  }

  /** The group an adder is going to send its payment to. */
  function Target(a: Adder): Option<nat> {
    match a
    case MergeWait(into, _) => Some(into)
    case Draining(into, _, _) => Some(into)
    case Sending(g) => Some(g)
    case _ => None
  }

  function Relabel(index: map<Iban, nat>, from: nat, into: nat): map<Iban, nat> {
    map x | x in index :: if index[x] == from then into else index[x]
  }

  function SetAdder(s: State, i: nat, a: Adder): State
    requires i < |s.adders|
  {
    s.(adders := s.adders[i := a])
  }

  function SetGroup(s: State, g: nat, grp: Group): State
    requires g < |s.groups|
  {
    s.(groups := s.groups[g := grp])
  }

  // ----- the critical sections of `add` -----

  /** The first critical section: root check, two look-ups, and the switch. */
  function DoRoute(s: State, i: nat): State
    requires i < |s.adders| == |s.pay|
    requires s.pay[i].deb in s.index ==> s.index[s.pay[i].deb] < |s.groups|
  {
    if s.root then SetAdder(s, i, Rejected)
    else
      var p := s.pay[i];
      match (Lookup(s.index, p.cred), Lookup(s.index, p.deb))
      case (None, None) => SetAdder(s, i, WaitSlot)
      case (Some(a), None) => Connect(s, i, a, s.index[p.deb := a])
      case (None, Some(b)) => Connect(s, i, b, s.index[p.cred := b])
      case (Some(a), Some(b)) => if a == b then Connect(s, i, a, s.index) else BeginMerge(s, i, a, b)
  }

  function Connect(s: State, i: nat, g: nat, index: map<Iban, nat>): State
    requires i < |s.adders|
  {
    SetAdder(s, i, Sending(g)).(index := index, routed := s.routed + {i})
  }

  /** Flag group b, point its IBANs at group a, cancel its worker, release the mutex. */
  function BeginMerge(s: State, i: nat, a: nat, b: nat): State
    requires i < |s.adders| && b < |s.groups|
  {
    s.(adders := s.adders[i := MergeWait(a, b)],
       groups := s.groups[b := s.groups[b].(merging := true, cancelled := true)],
       index := Relabel(s.index, b, a),
       log := s.log + [Merge(b, a, i)],
       routed := s.routed + {i})
  }

  /** The second critical section, entered with a semaphore slot in hand. */
  function DoRecheck(s: State, i: nat): State
    requires i < |s.adders| == |s.pay| && 0 < s.sem
  {
    var p := s.pay[i];
    var gA, gB := Lookup(s.index, p.cred), Lookup(s.index, p.deb);
    if gA.Some? || gB.Some? then
      var g := if gA.Some? then gA.value else gB.value;
      Connect(s, i, g, s.index[p.deb := g][p.cred := g]).(
        sem := s.sem - 1,
        split := s.split || (gA.Some? && gB.Some? && gA != gB))
    else
      var g := |s.groups|;
      Connect(s, i, g, s.index[p.deb := g][p.cred := g]).(
        groups := s.groups + [NewGroup(g)], wg := s.wg + 1)
  }

  // ----- the step relation -----

  predicate IsAdder(s: State, i: nat) {
    i < |s.adders| && i < |s.pay|
  }

  predicate Enabled(s: State, step: Step) {
    match step
    case Submit(_) => true
    case Route(i) =>
      && IsAdder(s, i) && s.adders[i].Start? && s.mu.None? && |s.adders| == |s.pay|
      && (s.pay[i].deb in s.index ==> s.index[s.pay[i].deb] < |s.groups|)
    case Acquire(i) => IsAdder(s, i) && s.adders[i].WaitSlot? && s.sem < s.max
    case Recheck(i) =>
      IsAdder(s, i) && s.adders[i].HoldSlot? && s.mu.None? && |s.adders| == |s.pay| && 0 < s.sem
    case GiveUp(i) =>
      && IsAdder(s, i) && s.root
      && (s.adders[i].WaitSlot? || s.adders[i].MergeWait? || s.adders[i].Sending?)
    case LockDrain(i) =>
      && IsAdder(s, i) && s.adders[i].MergeWait? && s.mu.None?
      && s.adders[i].from < |s.groups| && s.groups[s.adders[i].from].drainReady
    case Take(i) =>
      && IsAdder(s, i) && s.adders[i].Draining? && s.adders[i].hand.None?
      && s.adders[i].from < |s.groups| && s.groups[s.adders[i].from].ch != []
    case Put(i) =>
      && IsAdder(s, i) && s.adders[i].Draining? && s.adders[i].hand.Some?
      && s.adders[i].into < |s.groups| && |s.groups[s.adders[i].into].ch| < CHAN_BUFFER
    case EndDrain(i) =>
      && IsAdder(s, i) && s.adders[i].Draining? && s.adders[i].hand.None?
      && s.adders[i].from < |s.groups| && s.groups[s.adders[i].from].ch == []
    case Send(i) =>
      && IsAdder(s, i) && s.adders[i].Sending?
      && s.adders[i].target < |s.groups| && |s.groups[s.adders[i].target].ch| < CHAN_BUFFER
    case Recv(g) =>
      && g < |s.groups| && (s.groups[g].worker.Idle? || s.groups[g].worker.FinalDrain?)
      && s.groups[g].ch != []
    case Finish(g) => g < |s.groups| && (s.groups[g].worker.Busy? || s.groups[g].worker.FinalBusy?)
    case Stop(g) => g < |s.groups| && s.groups[g].worker.Idle? && (s.groups[g].cancelled || s.root)
    case DrainOut(g) => g < |s.groups| && s.groups[g].worker.FinalDrain? && s.groups[g].ch == []
    case Release(g) => g < |s.groups| && s.groups[g].worker.Exiting? && 0 < s.sem
    case WgDone(g) => g < |s.groups| && s.groups[g].worker.Released? && 0 < s.wg
    case Watch(g) => g < |s.groups| && !s.groups[g].cancelled
    case Shutdown => !s.root
  }

  function Do(s: State, step: Step): State
    requires Enabled(s, step)
  {
    match step
    case Submit(p) => s.(pay := s.pay + [p], adders := s.adders + [Start])
    case Route(i) => DoRoute(s, i)
    case Acquire(i) => SetAdder(s, i, HoldSlot).(sem := s.sem + 1)
    case Recheck(i) => DoRecheck(s, i)
    case GiveUp(i) => SetAdder(s, i, Rejected)
    case LockDrain(i) =>
      SetAdder(s, i, Draining(s.adders[i].into, s.adders[i].from, None)).(mu := Some(i))
    case Take(i) =>
      var b := s.adders[i].from;
      var q := s.groups[b].ch[0];
      SetGroup(SetAdder(s, i, s.adders[i].(hand := Some(q))), b, TakeOut(s.groups[b]))
    case Put(i) =>
      var a := s.adders[i].into;
      SetGroup(SetAdder(s, i, s.adders[i].(hand := None)), a,
               PutIn(s.groups[a], s.adders[i].hand.value))
    case EndDrain(i) =>
      SetAdder(s, i, Sending(s.adders[i].into)).(
        index := Relabel(s.index, s.adders[i].from, s.adders[i].into), mu := None)
    case Send(i) =>
      var g := s.adders[i].target;
      SetGroup(SetAdder(s, i, Sent), g, PutIn(s.groups[g], i))
    case Recv(g) => SetGroup(s, g, Receive(s.groups[g]))
    case Finish(g) => SetGroup(s, g, Complete(s.groups[g]))
    case Stop(g) => SetGroup(s, g, Quit(s.groups[g]))
    case DrainOut(g) => SetGroup(s, g, s.groups[g].(worker := Exiting))
    case Release(g) => SetGroup(s, g, s.groups[g].(worker := Released)).(sem := s.sem - 1)
    case WgDone(g) => SetGroup(s, g, s.groups[g].(worker := Finished)).(wg := s.wg - 1)
    case Watch(g) => SetGroup(s, g, s.groups[g].(cancelled := true))
    case Shutdown => s.(root := true)
  }

  /** A payment enters the channel at its end. */
  function PutIn(g: Group, p: nat): Group {
    g.(ch := g.ch + [p], sent := g.sent + [p])
  }

  /** A merger takes the first payment of the channel. */
  function TakeOut(g: Group): Group
    requires g.ch != []
  {
    g.(ch := g.ch[1..], drained := g.drained + [g.ch[0]])
  }

  /** The worker takes the first payment of the channel. */
  function Receive(g: Group): Group
    requires g.ch != []
  {
    g.(ch := g.ch[1..],
       worker := if g.worker.Idle? then Busy(g.ch[0]) else FinalBusy(g.ch[0]))
  }

  /** ProcessTX has returned. */
  function Complete(g: Group): Group
    requires g.worker.Busy? || g.worker.FinalBusy?
  {
    g.(worker := if g.worker.Busy? then Idle else FinalDrain, done := g.done + [g.worker.tx])
  }

  /** The worker sees the cancellation: it closes DrainReady, or begins to read its buffer dry. */
  function Quit(g: Group): Group {
    if g.merging then g.(drainReady := true, worker := Exiting) else g.(worker := FinalDrain)
  }

  // ----- runs -----

  function Next(s: State, step: Step): State {
    if Enabled(s, step) then Do(s, step) else s
  }

  function Machine(): Runs.System<State, Step> {
    Runs.System((s: State, step: Step) => Enabled(s, step), (s: State, step: Step) => Next(s, step))
  }

  /** Some run of the dispatcher, started empty, leads to s. */
  ghost predicate Reachable(s: State) {
    Runs.Reaches(Machine(), Init(s.max), s)
  }

  /** An invariant of the initial states that every step keeps holds in s. */
  lemma ReachableHas(s: State, inv: State -> bool)
    requires Reachable(s) && inv(Init(s.max))
    requires forall t, x :: inv(t) && Enabled(t, x) ==> inv(Do(t, x))
    ensures inv(s)
  {
    var steps :| Runs.Valid(Machine(), Init(s.max), steps) && Runs.After(Machine(), Init(s.max), steps) == s;
    Runs.Invariant(Machine(), inv, Init(s.max), steps);
  }

  // ----- what one step touches -----

  /** The adder that a step moves, if any. */
  function Mover(step: Step): Option<nat> {
    match step
    case Route(i) => Some(i)
    case Acquire(i) => Some(i)
    case Recheck(i) => Some(i)
    case GiveUp(i) => Some(i)
    case LockDrain(i) => Some(i)
    case Take(i) => Some(i)
    case Put(i) => Some(i)
    case EndDrain(i) => Some(i)
    case Send(i) => Some(i)
    case _ => None
  }

  /** The existing group that a step changes, if any. */
  function Touched(s: State, step: Step): Option<nat>
    requires Enabled(s, step)
  {
    match step
    case Route(i) => if Do(s, step).adders[i].MergeWait? then Some(Do(s, step).adders[i].from) else None
    case Take(i) => Some(s.adders[i].from)
    case Put(i) => Some(s.adders[i].into)
    case Send(i) => Some(s.adders[i].target)
    case Recv(g) => Some(g)
    case Finish(g) => Some(g)
    case Stop(g) => Some(g)
    case DrainOut(g) => Some(g)
    case Release(g) => Some(g)
    case WgDone(g) => Some(g)
    case Watch(g) => Some(g)
    case _ => None
  }

  /** A step of a call moves that call only. */
  lemma CallMoves(s: State, step: Step)
    requires Enabled(s, step) && Mover(step).Some?
    ensures var (t, i) := (Do(s, step), Mover(step).value);
      i < |s.adders| == |t.adders| && t.adders == s.adders[i := t.adders[i]] && t.pay == s.pay && t.max == s.max
  {
    match step
    case Route(i) => RouteMoves(s, i);
    case Recheck(i) => RecheckMoves(s, i);
    case _ =>
  }

  lemma RouteMoves(s: State, i: nat)
    requires Enabled(s, Route(i))
    ensures var t := Do(s, Route(i));
      |s.adders| == |t.adders| && t.adders == s.adders[i := t.adders[i]] && t.pay == s.pay && t.max == s.max
  {
  }

  lemma RecheckMoves(s: State, i: nat)
    requires Enabled(s, Recheck(i))
    ensures var t := Do(s, Recheck(i));
      |s.adders| == |t.adders| && t.adders == s.adders[i := t.adders[i]] && t.pay == s.pay && t.max == s.max
  {
  }

  /** Any other step moves no call, and at most brings in a new one. */
  lemma CallsStand(s: State, step: Step)
    requires Enabled(s, step) && Mover(step).None?
    ensures var t := Do(s, step);
      && t.adders == (if step.Submit? then s.adders + [Start] else s.adders)
      && t.pay == (if step.Submit? then s.pay + [step.p] else s.pay) && t.max == s.max
  {
  }

  /** Sums over the adders change by what the mover contributes. */
  lemma AdderSum(s: State, step: Step, f: Adder -> nat)
    requires Enabled(s, step)
    ensures var t := Do(s, step);
      match Mover(step)
      case Some(i) => i < |s.adders| && i < |t.adders| && f(s.adders[i]) <= Sum(s.adders, f)
        && Sum(t.adders, f) == Sum(s.adders, f) - f(s.adders[i]) + f(t.adders[i])
      case None => Sum(t.adders, f) == Sum(s.adders, f) + (if step.Submit? then f(Start) else 0)
  {
    var t := Do(s, step);
    match Mover(step)
    case Some(i) =>
      CallMoves(s, step);
      SumUpdate(s.adders, i, t.adders[i], f);
    case None =>
      CallsStand(s, step);
      SumAppend(s.adders, Start, f);
  }

  /** At most one group changes, or a new one is added. */
  lemma GroupMoves(s: State, step: Step)
    requires Enabled(s, step)
    ensures var t := Do(s, step);
      match Touched(s, step)
      case Some(g) => g < |s.groups| == |t.groups| && t.groups == s.groups[g := t.groups[g]]
      case None => t.groups == s.groups || (step.Recheck? && t.groups == s.groups + [NewGroup(|s.groups|)])
  {
  }

  /** The step of a call leaves what workers do to the workers. */
  ghost predicate SameWork(g: Group, x: Group) {
    x.worker == g.worker && x.done == g.done && x.drainReady == g.drainReady && (g.cancelled ==> x.cancelled)
  }

  lemma CallLeavesWork(s: State, step: Step)
    requires Enabled(s, step) && Mover(step).Some?
    ensures var t := Do(s, step);
      && |s.groups| <= |t.groups|
      && (forall g :: 0 <= g < |s.groups| ==> SameWork(s.groups[g], t.groups[g]))
      && (forall g :: |s.groups| <= g < |t.groups| ==> t.groups[g] == NewGroup(g))
  {
    GroupMoves(s, step);
    if Touched(s, step).Some? {
      TouchLeavesWork(s, step);
    }
  }

  lemma TouchLeavesWork(s: State, step: Step)
    requires Enabled(s, step) && Mover(step).Some? && Touched(s, step).Some?
    ensures var (t, g) := (Do(s, step), Touched(s, step).value);
      g < |s.groups| == |t.groups| && SameWork(s.groups[g], t.groups[g])
  {
  }

  /** Sums over the groups change by what the touched group contributes, and grow by a
      new group when a re-check creates one. */
  lemma GroupSum(s: State, step: Step, f: Group -> nat)
    requires Enabled(s, step)
    ensures var t := Do(s, step);
      match Touched(s, step)
      case Some(g) => g < |s.groups| == |t.groups| && f(s.groups[g]) <= Sum(s.groups, f)
        && Sum(t.groups, f) == Sum(s.groups, f) - f(s.groups[g]) + f(t.groups[g])
      case None =>
        var added := if |t.groups| > |s.groups| then f(NewGroup(|s.groups|)) else 0;
        Sum(t.groups, f) == Sum(s.groups, f) + added
  {
    var t := Do(s, step);
    GroupMoves(s, step);
    match Touched(s, step)
    case Some(g) => SumUpdate(s.groups, g, t.groups[g], f);
    case None => SumAppend(s.groups, NewGroup(|s.groups|), f);
  }
}
