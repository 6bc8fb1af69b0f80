/** First in, first out: within a group, and across a merge. */
module Fifo {
  import opened Common
  import opened MergeForest
  import opened DispatcherSteps
  import opened DispatcherInvariants
  import Merging

  /** xs can be read off ys in order, leaving out elements of ys. */
  ghost predicate Subsequence(xs: seq<nat>, ys: seq<nat>) {
    xs == [] ||
    (ys != [] &&
     (var m, n := |xs| - 1, |ys| - 1;
      (xs[m] == ys[n] && Subsequence(xs[..m], ys[..n])) || Subsequence(xs, ys[..n])))
  }

  lemma SubsequenceAppend(xs: seq<nat>, ys: seq<nat>, z: nat)
    requires Subsequence(xs, ys)
    ensures Subsequence(xs, ys + [z])
    ensures Subsequence(xs + [z], ys + [z])
  {
    assert (ys + [z])[..|ys|] == ys && (xs + [z])[..|xs|] == xs;
  }

  /** The drained payments of merge m that have already been put into its target. */
  ghost function Delivered(s: State, m: Merge): seq<nat>
    requires m.src < |s.groups| && m.adder < |s.adders|
  {
    var out := s.groups[m.src].drained;
    var a := s.adders[m.adder];
    if a.Draining? && a.from == m.src && a.hand.Some? && out != [] then out[..|out| - 1] else out
  }

  ghost predicate InOrder(s: State) {
    forall m :: m in s.log ==>
      m.src < |s.groups| && m.dst < |s.groups| && m.adder < |s.adders| &&
      Subsequence(Delivered(s, m), s.groups[m.dst].sent)
  }

  /** Sent sequences only grow at the end. */
  ghost predicate SentGrows(s: State, t: State) {
    |s.groups| <= |t.groups| && forall g :: 0 <= g < |s.groups| ==>
      t.groups[g].sent == s.groups[g].sent ||
      (t.groups[g].sent != [] && t.groups[g].sent[..|t.groups[g].sent| - 1] == s.groups[g].sent)
  }

  lemma {:induction false} SubsequenceGrows(xs: seq<nat>, ys: seq<nat>, zs: seq<nat>)
    requires Subsequence(xs, ys) && (zs == ys || (zs != [] && zs[..|zs| - 1] == ys))
    ensures Subsequence(xs, zs)
  {
    if zs != ys {
      assert zs[..|zs| - 1] == ys;
    }
  }

  /** A step that delivers nothing keeps the order. */
  lemma QuietKeepsOrder(s: State, t: State)
    requires InOrder(s) && t.log == s.log && |s.adders| <= |t.adders| && SentGrows(s, t)
    requires forall m :: m in s.log ==> m.src < |t.groups| && m.adder < |t.adders| && Delivered(t, m) == Delivered(s, m)
    ensures InOrder(t)
  {
    forall m | m in t.log
      ensures Subsequence(Delivered(t, m), t.groups[m.dst].sent)
    {
      SubsequenceGrows(Delivered(s, m), s.groups[m.dst].sent, t.groups[m.dst].sent);
    }
  }

  /** Adder i's own merge is the only one whose source it drains. */
  lemma OwnEntry(s: State, i: nat, m: Merge)
    requires Inv(s) && i < |s.adders| && s.adders[i].Draining? && m in s.log
    ensures m.src == s.adders[i].from ==> m == Merge(s.adders[i].from, s.adders[i].into, i)
  {
    assert AdderOk(s.adders[i], i, s.groups, s.log, s.routed, s.mu);
    if m.src == s.adders[i].from {
      Merging.OneEntryPerSource(s.log, m, Merge(s.adders[i].from, s.adders[i].into, i));
    }
  }

  lemma PutDelivers(s: State, i: nat, m: Merge)
    requires Enabled(s, Put(i)) && m.src < |s.groups| && m.adder < |s.adders|
    requires var b, out := s.adders[i].from, s.groups[m.src].drained;
      m.src == b && m.adder == i && out != [] && out[|out| - 1] == s.adders[i].hand.value
    ensures var t := Do(s, Put(i));
      Delivered(t, m) == Delivered(s, m) + [s.adders[i].hand.value]
  {
    var out := s.groups[m.src].drained;
    assert Do(s, Put(i)).groups[m.src].drained == out;
    assert out == out[..|out| - 1] + [out[|out| - 1]];
  }

  lemma PutKeepsEntry(s: State, i: nat, m: Merge)
    requires Inv(s) && InOrder(s) && Enabled(s, Put(i)) && m in s.log
    ensures var t := Do(s, Put(i));
      Subsequence(Delivered(t, m), t.groups[m.dst].sent)
  {
    assert AdderOk(s.adders[i], i, s.groups, s.log, s.routed, s.mu);
    OwnEntry(s, i, m);
    PutSent(s, i);
    SubsequenceAppend(Delivered(s, m), s.groups[m.dst].sent, s.adders[i].hand.value);
    if m.src == s.adders[i].from {
      PutDelivers(s, i, m);
    } else {
      PutSparesOthers(s, i, m);
    }
  }

  lemma PutSent(s: State, i: nat)
    requires Enabled(s, Put(i))
    ensures var t := Do(s, Put(i)); |t.groups| == |s.groups| && forall g :: 0 <= g < |s.groups| ==>
      t.groups[g].sent == s.groups[g].sent + if g == s.adders[i].into then [s.adders[i].hand.value] else []
  {
  }

  lemma PutSparesOthers(s: State, i: nat, m: Merge)
    requires Enabled(s, Put(i)) && m.src < |s.groups| && m.adder < |s.adders|
    requires m.src != s.adders[i].from
    ensures Delivered(Do(s, Put(i)), m) == Delivered(s, m)
  {
  }

  lemma PutKeepsOrder(s: State, i: nat)
    requires Inv(s) && InOrder(s) && Enabled(s, Put(i))
    ensures InOrder(Do(s, Put(i)))
  {
    forall m | m in s.log
      ensures Subsequence(Delivered(Do(s, Put(i)), m), Do(s, Put(i)).groups[m.dst].sent)
    {
      PutKeepsEntry(s, i, m);
    }
  }

  lemma TakeDelivers(s: State, i: nat, m: Merge)
    requires Inv(s) && InOrder(s) && Enabled(s, Take(i)) && m in s.log
    ensures Delivered(Do(s, Take(i)), m) == Delivered(s, m)
  {
    OwnEntry(s, i, m);
    TakeMovesToHand(s, i, m);
  }

  lemma TakeMovesToHand(s: State, i: nat, m: Merge)
    requires Enabled(s, Take(i)) && m.src < |s.groups| && m.adder < |s.adders|
    requires m.src == s.adders[i].from ==> m.adder == i
    ensures Delivered(Do(s, Take(i)), m) == Delivered(s, m)
  {
  }

  lemma TakeKeepsOrder(s: State, i: nat)
    requires Inv(s) && InOrder(s) && Enabled(s, Take(i))
    ensures InOrder(Do(s, Take(i)))
  {
    forall m | m in s.log
      ensures Delivered(Do(s, Take(i)), m) == Delivered(s, m)
    {
      TakeDelivers(s, i, m);
    }
    QuietKeepsOrder(s, Do(s, Take(i)));
  }

  lemma MergeSparesOthers(s: State, i: nat, a: nat, b: nat, m: Merge)
    requires i < |s.adders| && s.adders[i].Start? && b < |s.groups|
    requires m.src < |s.groups| && m.dst < |s.groups| && m.adder < |s.adders|
    ensures var t := BeginMerge(s, i, a, b);
      Delivered(t, m) == Delivered(s, m) && t.groups[m.dst].sent == s.groups[m.dst].sent
  {
  }

  lemma MergeKeepsOrder(s: State, i: nat, a: nat, b: nat)
    requires Inv(s) && InOrder(s) && i < |s.adders| && s.adders[i].Start?
    requires a < |s.groups| && b < |s.groups| && !s.groups[b].merging
    ensures InOrder(BeginMerge(s, i, a, b))
  {
    var t := BeginMerge(s, i, a, b);
    assert GroupOk(s.groups[b]) && s.groups[b].drained == [];
    forall m | m in t.log
      ensures m.src < |t.groups| && m.dst < |t.groups| && m.adder < |t.adders|
      ensures Subsequence(Delivered(t, m), t.groups[m.dst].sent)
    {
      if m in s.log {
        MergeSparesOthers(s, i, a, b, m);
      } else {
        assert m == Merge(b, a, i);
      }
    }
  }

  lemma IdleMoveKeepsOrder(s: State, t: State, i: nat)
    requires InOrder(s) && t.log == s.log && t.groups == s.groups
    requires i < |s.adders| == |t.adders| && t.adders == s.adders[i := t.adders[i]]
    requires !s.adders[i].Draining? && !t.adders[i].Draining?
    ensures InOrder(t)
  {
    QuietKeepsOrder(s, t);
  }

  lemma RouteKeepsOrder(s: State, i: nat)
    requires Inv(s) && InOrder(s) && Enabled(s, Route(i))
    ensures InOrder(Do(s, Route(i)))
  {
    var p := s.pay[i];
    if Do(s, Route(i)).adders[i].MergeWait? {
      MergeKeepsOrder(s, i, s.index[p.cred], s.index[p.deb]);
    } else {
      IdleMoveKeepsOrder(s, Do(s, Route(i)), i);
    }
  }

  lemma SendKeepsOrder(s: State, i: nat)
    requires InOrder(s) && Enabled(s, Send(i))
    ensures InOrder(Do(s, Send(i)))
  {
    QuietKeepsOrder(s, Do(s, Send(i)));
  }

  lemma AdderMoveKeepsOrder(s: State, step: Step)
    requires InOrder(s) && Enabled(s, step)
    requires step.Submit? || step.Acquire? || step.Recheck? || step.GiveUp? || step.LockDrain? || step.EndDrain?
    ensures InOrder(Do(s, step))
  {
    var t := Do(s, step);
    SentStays(s, step);
    forall m | m in s.log
      ensures Delivered(t, m) == Delivered(s, m)
    {
      DeliveredStays(s, step, m);
    }
    QuietKeepsOrder(s, t);
  }

  lemma SentStays(s: State, step: Step)
    requires Enabled(s, step)
    requires step.Submit? || step.Acquire? || step.Recheck? || step.GiveUp? || step.LockDrain? || step.EndDrain?
    ensures var t := Do(s, step); SentGrows(s, t) && t.log == s.log && |s.adders| <= |t.adders|
  {
  }

  lemma DeliveredStays(s: State, step: Step, m: Merge)
    requires Enabled(s, step) && m.src < |s.groups| && m.adder < |s.adders|
    requires step.Submit? || step.Acquire? || step.Recheck? || step.GiveUp? || step.LockDrain? || step.EndDrain?
    ensures var t := Do(s, step);
      m.src < |t.groups| && m.adder < |t.adders| && Delivered(t, m) == Delivered(s, m)
  {
  }

  lemma WorkerDrainsNothing(s: State, step: Step)
    requires Enabled(s, step) && Mover(step).None? && !step.Submit?
    ensures var t := Do(s, step);
      && t.adders == s.adders && t.log == s.log && |t.groups| == |s.groups|
      && forall g :: 0 <= g < |s.groups| ==>
        t.groups[g].sent == s.groups[g].sent && t.groups[g].drained == s.groups[g].drained
  {
  }

  lemma WorkerMoveKeepsOrder(s: State, step: Step)
    requires InOrder(s) && Enabled(s, step) && Mover(step).None? && !step.Submit?
    ensures InOrder(Do(s, step))
  {
    WorkerDrainsNothing(s, step);
    QuietKeepsOrder(s, Do(s, step));
  }

  lemma StepKeepsOrder(s: State, step: Step)
    requires Inv(s) && InOrder(s) && Enabled(s, step)
    ensures InOrder(Do(s, step))
  {
    match step
    case Route(i) => RouteKeepsOrder(s, i);
    case Put(i) => PutKeepsOrder(s, i);
    case Take(i) => TakeKeepsOrder(s, i);
    case Send(i) => SendKeepsOrder(s, i);
    case Submit(_) => AdderMoveKeepsOrder(s, step);
    case Acquire(_) => AdderMoveKeepsOrder(s, step);
    case Recheck(_) => AdderMoveKeepsOrder(s, step);
    case GiveUp(_) => AdderMoveKeepsOrder(s, step);
    case LockDrain(_) => AdderMoveKeepsOrder(s, step);
    case EndDrain(_) => AdderMoveKeepsOrder(s, step);
    case _ => WorkerMoveKeepsOrder(s, step);
  }

  ghost predicate Ordered(s: State) {
    Inv(s) && InOrder(s)
  }

  lemma ReachableOrdered(s: State)
    requires Reachable(s)
    ensures Ordered(s)
  {
    forall t, x | Ordered(t) && Enabled(t, x)
      ensures Ordered(Do(t, x))
    {
      StepKeepsInv(t, x);
      StepKeepsOrder(t, x);
    }
    ReachableHas(s, t => Ordered(t));
  }

  /** In every reachable state, what was ever sent to a group is, in this order: what its
      worker finished, what it has in hand, what a merger took out, what is still buffered;
      the middle two never coexist. So payments are processed in the order they were sent. */
  lemma FifoWithinGroup(s: State, g: nat)
    requires Reachable(s) && g < |s.groups|
    ensures var x := s.groups[g];
      && x.sent == x.done + Flight(x.worker) + x.drained + x.ch
      && (Flight(x.worker) == [] || x.drained == [])
      && x.done + Flight(x.worker) <= x.sent
  {
    ReachableInv(s);
    Factorises(s.groups[g]);
  }

  lemma Factorises(x: Group)
    requires GroupOk(x)
    ensures Flight(x.worker) == [] || x.drained == []
    ensures x.done + Flight(x.worker) <= x.sent
  {
    assert x.sent == (x.done + Flight(x.worker)) + (x.drained + x.ch);
  }

  /** What a merge has moved so far keeps its order in the send sequence of the group it
      moved to, whatever else is sent there in between. */
  lemma FifoAcrossMerge(s: State, m: Merge)
    requires Reachable(s) && m in s.log
    ensures m.src < |s.groups| && m.dst < |s.groups| && m.adder < |s.adders|
    ensures Subsequence(Delivered(s, m), s.groups[m.dst].sent)
  {
    ReachableOrdered(s);
  }
}
