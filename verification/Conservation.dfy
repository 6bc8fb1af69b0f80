/** Every payment handed to `add` is in exactly one place: none is lost, none is doubled. */
module Conservation {
  import opened Common
  import opened DispatcherSteps

  datatype Place =
    | WithAdder            // its own call of `add` still carries it
    | Turned               // its own call of `add` was rejected
    | InHand(i: nat)       // adder i took it out of a channel and holds it
    | InChannel(g: nat)
    | WithWorker(g: nat)   // inside ProcessTX
    | Processed(g: nat)    // ProcessTX has returned

  predicate At(s: State, p: nat, place: Place) {
    match place
    case WithAdder => p < |s.adders| && !s.adders[p].Sent? && !s.adders[p].Rejected?
    case Turned => p < |s.adders| && s.adders[p].Rejected?
    case InHand(i) => i < |s.adders| && InHandOf(p)(s.adders[i]) > 0
    case InChannel(g) => g < |s.groups| && p in s.groups[g].ch
    case WithWorker(g) => g < |s.groups| && p in Flight(s.groups[g].worker)
    case Processed(g) => g < |s.groups| && p in s.groups[g].done
  }

  function InHandOf(p: nat): Adder -> nat {
    (a: Adder) => if a.Draining? && a.hand == Some(p) then 1 else 0
  }

  function Equals(p: nat): nat -> nat {
    (q: nat) => if q == p then 1 else 0
  }

  /** How often p occurs in xs. */
  function Times(xs: seq<nat>, p: nat): nat {
    Sum(xs, Equals(p))
  }

  lemma TimesPositive(xs: seq<nat>, p: nat)
    ensures p in xs <==> Times(xs, p) > 0
  {
    if k: nat :| k < |xs| && xs[k] == p {
      SumUpdate(xs, k, p, Equals(p));
    }
    if Times(xs, p) > 0 {
      var k := SumPositive(xs, Equals(p));
    }
  }

  function CopiesIn(p: nat): Group -> nat {
    (g: Group) => Times(g.ch, p) + Times(Flight(g.worker), p) + Times(g.done, p)
  }

  function Own(s: State, p: nat): nat {
    if p < |s.adders| && !s.adders[p].Sent? then 1 else 0
  }

  /** The number of copies of payment p in the whole dispatcher. */
  function Copies(s: State, p: nat): nat {
    Own(s, p) + Sum(s.adders, InHandOf(p)) + Sum(s.groups, CopiesIn(p))
  }

  lemma PutInCopies(g: Group, q: nat, p: nat)
    ensures CopiesIn(p)(PutIn(g, q)) == CopiesIn(p)(g) + if p == q then 1 else 0
  {
    SumAppend(g.ch, q, Equals(p));
  }

  lemma TakeOutCopies(g: Group, p: nat)
    requires g.ch != []
    ensures CopiesIn(p)(TakeOut(g)) == CopiesIn(p)(g) - if p == g.ch[0] then 1 else 0
  {
    SumFirst(g.ch, Equals(p));
  }

  lemma ReceiveCopies(g: Group, p: nat)
    requires g.ch != [] && (g.worker.Idle? || g.worker.FinalDrain?)
    ensures CopiesIn(p)(Receive(g)) == CopiesIn(p)(g)
  {
    SumFirst(g.ch, Equals(p));
    assert Receive(g).ch == g.ch[1..] && Receive(g).done == g.done;
    assert Flight(g.worker) == [] && Flight(Receive(g).worker) == [g.ch[0]];
    TimesOne(g.ch[0], p);
  }

  lemma TimesOne(q: nat, p: nat)
    ensures Times([q], p) == (if q == p then 1 else 0) && Times([], p) == 0
  {
    assert [] + [q] == [q];
    SumAppend([], q, Equals(p));
  }

  lemma CompleteCopies(g: Group, p: nat)
    requires g.worker.Busy? || g.worker.FinalBusy?
    ensures CopiesIn(p)(Complete(g)) == CopiesIn(p)(g)
  {
    assert Flight(Complete(g).worker) == [] && Flight(g.worker) == [] + [g.worker.tx];
    SumAppend([], g.worker.tx, Equals(p));
    SumAppend(g.done, g.worker.tx, Equals(p));
  }

  lemma SameCopies(g: Group, x: Group, p: nat)
    requires g.ch == x.ch && g.done == x.done && Flight(g.worker) == Flight(x.worker)
    ensures CopiesIn(p)(x) == CopiesIn(p)(g)
  {
  }

  /** One adder and one group move; whatever one of them loses, another one has to gain. */
  lemma MoveCopies(s: State, t: State, i: nat, g: nat, p: nat)
    requires i < |s.adders| && i < |t.adders| && t.adders == s.adders[i := t.adders[i]]
    requires g < |s.groups| && g < |t.groups| && t.groups == s.groups[g := t.groups[g]]
    ensures Copies(t, p) - Copies(s, p) == Own(t, p) - Own(s, p)
      + InHandOf(p)(t.adders[i]) - InHandOf(p)(s.adders[i]) + CopiesIn(p)(t.groups[g]) - CopiesIn(p)(s.groups[g])
  {
    SumUpdate(s.adders, i, t.adders[i], InHandOf(p));
    SumUpdate(s.groups, g, t.groups[g], CopiesIn(p));
  }

  /** An adder moves without sending or taking anything, and no channel changes. */
  lemma CallConserves(s: State, t: State, i: nat, p: nat)
    requires i < |s.adders| && i < |t.adders| && t.adders == s.adders[i := t.adders[i]] && t.groups == s.groups
    requires !s.adders[i].Sent? && !t.adders[i].Sent?
    requires InHandOf(p)(s.adders[i]) == 0 && InHandOf(p)(t.adders[i]) == 0
    ensures Copies(t, p) == Copies(s, p)
  {
    SumUpdate(s.adders, i, t.adders[i], InHandOf(p));
  }

  lemma MergeConserves(s: State, i: nat, a: nat, b: nat, p: nat)
    requires i < |s.adders| && s.adders[i].Start? && b < |s.groups|
    ensures Copies(BeginMerge(s, i, a, b), p) == Copies(s, p)
  {
    var t := BeginMerge(s, i, a, b);
    SameCopies(s.groups[b], t.groups[b], p);
    MoveCopies(s, t, i, b, p);
  }

  lemma RouteConserves(s: State, i: nat, p: nat)
    requires Enabled(s, Route(i))
    ensures Copies(Do(s, Route(i)), p) == Copies(s, p)
  {
    var t := Do(s, Route(i));
    if t.adders[i].MergeWait? {
      MergeConserves(s, i, t.adders[i].into, t.adders[i].from, p);
    } else {
      CallConserves(s, t, i, p);
    }
  }

  lemma RecheckConserves(s: State, i: nat, p: nat)
    requires Enabled(s, Recheck(i))
    ensures Copies(Do(s, Recheck(i)), p) == Copies(s, p)
  {
    var t := Do(s, Recheck(i));
    if t.groups == s.groups {
      CallConserves(s, t, i, p);
    } else {
      var n := NewGroup(|s.groups|);
      SumAppend(s.groups, n, CopiesIn(p));
      CallConserves(s.(groups := s.groups + [n]), t, i, p);
    }
  }

  lemma TakeConserves(s: State, i: nat, p: nat)
    requires Enabled(s, Take(i))
    ensures Copies(Do(s, Take(i)), p) == Copies(s, p)
  {
    TakeOutCopies(s.groups[s.adders[i].from], p);
    MoveCopies(s, Do(s, Take(i)), i, s.adders[i].from, p);
  }

  lemma PutConserves(s: State, i: nat, p: nat)
    requires Enabled(s, Put(i))
    ensures Copies(Do(s, Put(i)), p) == Copies(s, p)
  {
    PutInCopies(s.groups[s.adders[i].into], s.adders[i].hand.value, p);
    MoveCopies(s, Do(s, Put(i)), i, s.adders[i].into, p);
  }

  lemma SendConserves(s: State, i: nat, p: nat)
    requires Enabled(s, Send(i))
    ensures Copies(Do(s, Send(i)), p) == Copies(s, p)
  {
    PutInCopies(s.groups[s.adders[i].target], i, p);
    MoveCopies(s, Do(s, Send(i)), i, s.adders[i].target, p);
  }

  lemma SelectConserves(s: State, step: Step, p: nat)
    requires Enabled(s, step) && (step.Acquire? || step.GiveUp? || step.LockDrain? || step.EndDrain?)
    ensures Copies(Do(s, step), p) == Copies(s, p)
  {
    CallConserves(s, Do(s, step), step.i, p);
  }

  lemma WorkerKeepsCopies(s: State, step: Step, g: nat, p: nat)
    requires Enabled(s, step) && Mover(step).None? && Touched(s, step) == Some(g)
    ensures g < |s.groups| == |Do(s, step).groups|
    ensures CopiesIn(p)(Do(s, step).groups[g]) == CopiesIn(p)(s.groups[g])
  {
    if step.Recv? {
      ReceiveCopies(s.groups[g], p);
    } else if step.Finish? {
      CompleteCopies(s.groups[g], p);
    } else {
      SameCopies(s.groups[g], Do(s, step).groups[g], p);
    }
  }

  lemma WorkerConserves(s: State, step: Step, g: nat, p: nat)
    requires Enabled(s, step) && Mover(step).None? && Touched(s, step) == Some(g)
    ensures Copies(Do(s, step), p) == Copies(s, p)
  {
    WorkerKeepsCopies(s, step, g, p);
    GroupSum(s, step, CopiesIn(p));
    assert Do(s, step).adders == s.adders;
  }

  /** One step neither loses nor doubles a payment; Submit brings in exactly one. */
  lemma StepConserves(s: State, step: Step, p: nat)
    requires Enabled(s, step)
    ensures Copies(Do(s, step), p) == Copies(s, p) + if step.Submit? && p == |s.adders| then 1 else 0
  {
    match step
    case Route(i) => RouteConserves(s, i, p);
    case Recheck(i) => RecheckConserves(s, i, p);
    case Take(i) => TakeConserves(s, i, p);
    case Put(i) => PutConserves(s, i, p);
    case Send(i) => SendConserves(s, i, p);
    case Acquire(_) => SelectConserves(s, step, p);
    case GiveUp(_) => SelectConserves(s, step, p);
    case LockDrain(_) => SelectConserves(s, step, p);
    case EndDrain(_) => SelectConserves(s, step, p);
    case Submit(_) => AdderSum(s, step, InHandOf(p));
    case Shutdown =>
    case _ => WorkerConserves(s, step, Touched(s, step).value, p);
  }

  ghost predicate Conserved(s: State) {
    forall p: nat :: Copies(s, p) == if p < |s.adders| then 1 else 0
  }

  lemma StepKeepsConserved(s: State, step: Step)
    requires Conserved(s) && Enabled(s, step)
    ensures Conserved(Do(s, step))
  {
    AddersGrow(s, step);
    forall p: nat
      ensures Copies(Do(s, step), p) == if p < |Do(s, step).adders| then 1 else 0
    {
      StepConserves(s, step, p);
    }
  }

  lemma AddersGrow(s: State, step: Step)
    requires Enabled(s, step)
    ensures |Do(s, step).adders| == |s.adders| + if step.Submit? then 1 else 0
  {
    if Mover(step).Some? {
      CallMoves(s, step);
    } else {
      CallsStand(s, step);
    }
  }

  lemma ReachableConserved(s: State)
    requires Reachable(s)
    ensures Conserved(s)
  {
    forall t, x | Conserved(t) && Enabled(t, x)
      ensures Conserved(Do(t, x))
    {
      StepKeepsConserved(t, x);
    }
    ReachableHas(s, t => Conserved(t));
  }

  /** In every reachable state each submitted payment is in exactly one place, and there
      only once; so none reaches ProcessTX twice in one process life. */
  lemma ExactlyOnePlace(s: State, p: nat) returns (place: Place)
    requires Reachable(s) && p < |s.adders|
    ensures At(s, p, place)
    ensures forall other :: At(s, p, other) ==> other == place
    ensures forall g :: 0 <= g < |s.groups| ==>
      Times(s.groups[g].ch, p) + Times(Flight(s.groups[g].worker), p) + Times(s.groups[g].done, p) <= 1
  {
    ReachableConserved(s);
    assert Copies(s, p) == 1;
    place := SomePlace(s, p);
    forall other | At(s, p, other)
      ensures other == place
    {
      if other != place {
        TwoPlaces(s, p, place, other);
      }
    }
    forall g | 0 <= g < |s.groups|
      ensures CopiesIn(p)(s.groups[g]) <= 1
    {
      SumUpdate(s.groups, g, s.groups[g], CopiesIn(p));
    }
  }

  lemma SomePlace(s: State, p: nat) returns (place: Place)
    requires Copies(s, p) > 0
    ensures At(s, p, place)
  {
    if Own(s, p) > 0 {
      place := if s.adders[p].Rejected? then Turned else WithAdder;
    } else if Sum(s.adders, InHandOf(p)) > 0 {
      var i := SumPositive(s.adders, InHandOf(p));
      place := InHand(i);
    } else {
      var g := SumPositive(s.groups, CopiesIn(p));
      TimesIn(s.groups[g], p);
      place := if p in s.groups[g].ch then InChannel(g)
               else if p in Flight(s.groups[g].worker) then WithWorker(g) else Processed(g);
    }
  }

  lemma TimesIn(g: Group, p: nat)
    ensures p in g.ch <==> Times(g.ch, p) > 0
    ensures p in Flight(g.worker) <==> Times(Flight(g.worker), p) > 0
    ensures p in g.done <==> Times(g.done, p) > 0
  {
    TimesPositive(g.ch, p);
    TimesPositive(Flight(g.worker), p);
    TimesPositive(g.done, p);
  }

  /** A place of one of the three kinds that Copies adds up. */
  lemma PlaceCounts(s: State, p: nat, place: Place)
    requires At(s, p, place)
    ensures (place.WithAdder? || place.Turned?) ==> Own(s, p) == 1
    ensures place.InHand? ==> 1 <= Sum(s.adders, InHandOf(p))
    ensures (place.InChannel? || place.WithWorker? || place.Processed?) ==>
      place.g < |s.groups| && 1 <= CopiesIn(p)(s.groups[place.g]) <= Sum(s.groups, CopiesIn(p))
  {
    if place.InHand? {
      SumUpdate(s.adders, place.i, s.adders[place.i], InHandOf(p));
    } else if place.InChannel? || place.WithWorker? || place.Processed? {
      SumUpdate(s.groups, place.g, s.groups[place.g], CopiesIn(p));
      TimesIn(s.groups[place.g], p);
    }
  }

  lemma TwoPlaces(s: State, p: nat, one: Place, other: Place)
    requires At(s, p, one) && At(s, p, other) && one != other
    ensures Copies(s, p) >= 2
  {
    PlaceCounts(s, p, one);
    PlaceCounts(s, p, other);
    if one.InHand? && other.InHand? {
      SumTwo(s.adders, one.i, other.i, InHandOf(p));
    } else if (one.InChannel? || one.WithWorker? || one.Processed?)
      && (other.InChannel? || other.WithWorker? || other.Processed?) {
      if one.g != other.g {
        SumTwo(s.groups, one.g, other.g, CopiesIn(p));
      } else {
        SumUpdate(s.groups, one.g, s.groups[one.g], CopiesIn(p));
        TimesIn(s.groups[one.g], p);
      }
    }
  }
}
