/** In which order conflicting payments are processed: in the order of the calls of `add`,
    as long as these follow one another. */
module Ordering {
  import opened Common
  import opened MergeForest
  import opened DispatcherSteps
  import opened DispatcherInvariants
  import opened Serialisation
  import opened Sequential
  import opened Workload
  import Cancellation
  import Conservation
  import Fifo
  import Runs
  import Semaphore

  /** Whatever conflicts with a payment and was handed to `add` before it has been through
      ProcessTX before the payment gets there. */
  ghost predicate InCallOrder(s: State) {
    forall p: nat, q: nat :: p < q && Shares(s.pay, p, q) && Begun(s, q) ==> Processed(s, p)
  }

  // ----- the invariant -----

  /** Payment q is the n-th that was sent to group g. */
  predicate NthSent(s: State, q: nat, g: nat, n: nat) {
    g < |s.groups| && n < |s.groups[g].sent| && s.groups[g].sent[n] == q
  }

  /** p was sent to group g before the n-th, or has been processed. */
  ghost predicate Ahead(s: State, p: nat, g: nat, n: nat) {
    g < |s.groups| && n <= |s.groups[g].sent| && (p in s.groups[g].sent[..n] || Processed(s, p))
  }

  ghost predicate SentInOrder(s: State) {
    forall p: nat, q: nat, g: nat, n: nat :: p < q && Shares(s.pay, p, q) && NthSent(s, q, g, n) ==> Ahead(s, p, g, n)
  }

  /** A call is rejected only after the shutdown, and then no later call gets past its first check. */
  ghost predicate RejectionsLast(s: State) {
    forall j :: 0 <= j < |s.adders| && s.adders[j].Rejected? ==> s.root && (j < |s.adders| - 1 ==> Halted(s))
  }

  ghost predicate Orderly(s: State) {
    InTurn(s) && Conservation.Conserved(s) && Fifo.InOrder(s) && RejectionsLast(s) && SentInOrder(s)
  }

  // ----- rejections -----

  lemma StepRejectsLast(s: State, step: Step)
    requires OneActive(s) && RejectionsLast(s) && Allowed(s, step)
    ensures RejectionsLast(Do(s, step))
  {
    if Mover(step).Some? {
      MoveRejectsLast(s, step);
    } else {
      OtherRejectsLast(s, step);
    }
  }

  lemma MoveRejectsLast(s: State, step: Step)
    requires OneActive(s) && RejectionsLast(s) && Enabled(s, step) && Mover(step).Some?
    ensures RejectionsLast(Do(s, step))
  {
    OnlyLastMoves(s, step);
    CallMoves(s, step);
    CallRejects(s, step);
  }

  /** A call is rejected only after the shutdown, and from then on a new call is. */
  lemma CallRejects(s: State, step: Step)
    requires Enabled(s, step) && Mover(step).Some?
    ensures var (t, i) := (Do(s, step), Mover(step).value);
      && i < |s.adders| && i < |t.adders| && t.root == s.root && !Returned(s.adders[i])
      && (t.adders[i].Rejected? ==> s.root) && (s.root && s.adders[i].Start? ==> t.adders[i].Rejected?)
  {
  }

  lemma OtherRejectsLast(s: State, step: Step)
    requires OneActive(s) && RejectionsLast(s) && Allowed(s, step) && Mover(step).None?
    ensures RejectionsLast(Do(s, step))
  {
  }

  // ----- what was sent stays sent, what is processed stays processed -----

  ghost predicate Progresses(s: State, t: State) {
    && |s.groups| <= |t.groups|
    && (forall g, p :: 0 <= g < |s.groups| && p in s.groups[g].done ==> p in t.groups[g].done)
  }

  lemma StaysProcessed(s: State, t: State, p: nat)
    requires Progresses(s, t) && Processed(s, p)
    ensures Processed(t, p)
  {
    var g: nat :| ProcessedAt(s, p, g);
    assert ProcessedAt(t, p, g);
  }

  /** No payment is sent. */
  lemma NothingSentInOrder(s: State, t: State)
    requires SentInOrder(s) && Progresses(s, t) && s.pay <= t.pay
    requires forall g :: 0 <= g < |s.groups| ==>
      t.groups[g].sent == s.groups[g].sent && forall p :: p in s.groups[g].sent ==> p < |s.pay|
    requires forall g :: |s.groups| <= g < |t.groups| ==> t.groups[g].sent == []
    ensures SentInOrder(t)
  {
    forall p: nat, q: nat, g: nat, n: nat | p < q && Shares(t.pay, p, q) && NthSent(t, q, g, n)
      ensures Ahead(t, p, g, n)
    {
      assert q in s.groups[g].sent;
      assert Shares(s.pay, p, q) && NthSent(s, q, g, n);
      assert Ahead(s, p, g, n);
      if Processed(s, p) {
        StaysProcessed(s, t, p);
      }
    }
  }

  /** Payment x is sent to group h, and everything before it is ahead. */
  lemma OneSentInOrder(s: State, t: State, x: nat, h: nat)
    requires SentInOrder(s) && Progresses(s, t) && t.pay == s.pay && |t.groups| == |s.groups| && h < |s.groups|
    requires forall g :: 0 <= g < |s.groups| && g != h ==> t.groups[g].sent == s.groups[g].sent
    requires t.groups[h].sent == s.groups[h].sent + [x]
    requires forall p: nat :: p < x && Shares(s.pay, p, x) ==> p in s.groups[h].sent || Processed(s, p)
    ensures SentInOrder(t)
  {
    forall p: nat, q: nat, g: nat, n: nat | p < q && Shares(t.pay, p, q) && NthSent(t, q, g, n)
      ensures Ahead(t, p, g, n)
    {
      if g == h && n == |s.groups[h].sent| {
        assert t.groups[h].sent[..n] == s.groups[h].sent;
      } else {
        assert NthSent(s, q, g, n) && Ahead(s, p, g, n);
        assert t.groups[g].sent[..n] == s.groups[g].sent[..n];
      }
      if Processed(s, p) {
        StaysProcessed(s, t, p);
      }
    }
  }

  // ----- sending and moving -----

  lemma SentIsKnown(s: State)
    requires Inv(s)
    ensures forall g, p :: 0 <= g < |s.groups| && p in s.groups[g].sent ==> p < |s.pay|
  {
  }

  /** Where an earlier payment is when a later call sends: with a live group, or processed. */
  lemma EarlierIsHeld(s: State, p: nat) returns (h: nat)
    requires OneActive(s) && Conservation.Conserved(s) && RejectionsLast(s) && Active(s).Sending? && p < |s.adders| - 1
    ensures Processed(s, p) || (h < |s.groups| && Holds(s.groups[h], p))
  {
    h := 0;
    assert Returned(s.adders[p]) && !s.adders[p].Rejected?;
    var place := Conservation.SomePlace(s, p);
    match place
    case Processed(g) => assert ProcessedAt(s, p, g);
    case InChannel(g) => h := g;
    case WithWorker(g) => h := g;
    case InHand(i) => HandIsActive(s, p, i);
    case _ =>
  }

  lemma HandIsActive(s: State, p: nat, i: nat)
    requires OneActive(s) && Conservation.At(s, p, Conservation.InHand(i))
    ensures Active(s).Draining?
  {
  }

  /** A payment that conflicts with the one being sent was sent to the same group. */
  lemma EarlierIsThere(s: State, p: nat, h: nat)
    requires Inv(s) && Routed(s) && OneActive(s) && CleanBut(s.groups, None) && IsLive(s.groups, h)
    requires Conservation.Conserved(s) && RejectionsLast(s)
    requires Active(s) == Sending(h) && p < |s.adders| - 1 && Shares(s.pay, p, |s.adders| - 1)
    ensures p in s.groups[h].sent || Processed(s, p)
  {
    var g := EarlierIsHeld(s, p);
    if !Processed(s, p) {
      HeldIsThere(s, p, |s.adders| - 1, g, h);
    }
  }

  lemma SendingIsTidy(s: State, h: nat)
    requires InTurn(s) && Active(s) == Sending(h)
    ensures s.adders != [] && Target(s.adders[|s.adders| - 1]) == Some(h) && IsLive(s.groups, h)
    ensures CleanBut(s.groups, None)
  {
  }

  /** Two payments that share an IBAN and are indexed at live groups have the same group. */
  lemma HeldIsThere(s: State, p: nat, q: nat, g: nat, h: nat)
    requires Inv(s) && Routed(s) && CleanBut(s.groups, None) && IsLive(s.groups, h)
    requires g < |s.groups| && Holds(s.groups[g], p) && Shares(s.pay, p, q)
    requires q < |s.adders| && Target(s.adders[q]) == Some(h)
    ensures p in s.groups[h].sent
  {
    assert !Empty(s.groups[g]);
    assert IndexedAt(s, q, h);
    RepOfRoot(s.log, h);
    HeldIsIndexed(s, g, p);
    RepOfRoot(s.log, g);
    assert GroupOk(s.groups[g]);
  }

  lemma SendInOrder(s: State, i: nat)
    requires Orderly(s) && Enabled(s, Send(i))
    ensures SentInOrder(Do(s, Send(i)))
  {
    OnlyLastMoves(s, Send(i));
    var h := s.adders[i].target;
    SendingIsTidy(s, h);
    forall p: nat | p < i && Shares(s.pay, p, i)
      ensures p in s.groups[h].sent || Processed(s, p)
    {
      EarlierIsThere(s, p, h);
    }
    OneSentInOrder(s, Do(s, Send(i)), i, h);
  }

  /** The payment in a merger's hand stands after what was done and drained before it. */
  lemma HandPosition(x: Group) returns (n: nat)
    requires GroupOk(x) && x.drained != [] && Flight(x.worker) == []
    ensures n < |x.sent| && x.sent[n] == x.drained[|x.drained| - 1]
    ensures forall p :: p in x.sent[..n] ==> p in x.done || p in x.drained[..|x.drained| - 1]
  {
    n := |x.done| + |x.drained| - 1;
    assert x.sent[..n] == x.done + x.drained[..|x.drained| - 1];
  }

  lemma {:induction false} SubsequenceMembers(xs: seq<nat>, ys: seq<nat>, p: nat)
    requires Fifo.Subsequence(xs, ys) && p in xs
    ensures p in ys
    decreases |ys|
  {
    if |ys| > 0 && !(|xs| > 0 && xs[|xs| - 1] == ys[|ys| - 1] && p == xs[|xs| - 1]) {
      var n := |ys| - 1;
      if |xs| > 0 && xs[|xs| - 1] == ys[n] && Fifo.Subsequence(xs[..|xs| - 1], ys[..n]) {
        SubsequenceMembers(xs[..|xs| - 1], ys[..n], p);
      } else {
        SubsequenceMembers(xs, ys[..n], p);
      }
    }
  }

  /** What conflicts with the payment in a merger's hand, and came before, is out of the
      merged group already. */
  lemma HandIsNext(s: State, i: nat, p: nat)
    requires Inv(s) && Fifo.InOrder(s) && SentInOrder(s) && Enabled(s, Put(i))
    requires p < s.adders[i].hand.value && Shares(s.pay, p, s.adders[i].hand.value)
    ensures p in s.groups[s.adders[i].into].sent || Processed(s, p)
  {
    var b, q := s.adders[i].from, s.adders[i].hand.value;
    HandIsDrained(s, i);
    var n := HandPosition(s.groups[b]);
    assert NthSent(s, q, b, n) && Ahead(s, p, b, n);
    if !Processed(s, p) {
      NotProcessed(s, p, b);
      HandDelivers(s, i, p);
    }
  }

  lemma HandIsDrained(s: State, i: nat)
    requires Inv(s) && Enabled(s, Put(i))
    ensures var b := s.adders[i].from;
      && b < |s.groups| && GroupOk(s.groups[b]) && Flight(s.groups[b].worker) == [] && s.groups[b].drained != []
      && s.groups[b].drained[|s.groups[b].drained| - 1] == s.adders[i].hand.value
  {
    assert AdderOk(s.adders[i], i, s.groups, s.log, s.routed, s.mu);
    assert GroupOk(s.groups[s.adders[i].from]);
  }

  lemma NotProcessed(s: State, p: nat, g: nat)
    requires !Processed(s, p) && g < |s.groups|
    ensures p !in s.groups[g].done
  {
    assert !ProcessedAt(s, p, g);
  }

  lemma HandDelivers(s: State, i: nat, p: nat)
    requires Inv(s) && Fifo.InOrder(s) && Enabled(s, Put(i))
    requires var out := s.groups[s.adders[i].from].drained; out != [] && p in out[..|out| - 1]
    ensures p in s.groups[s.adders[i].into].sent
  {
    var m := Merge(s.adders[i].from, s.adders[i].into, i);
    assert AdderOk(s.adders[i], i, s.groups, s.log, s.routed, s.mu);
    assert m in s.log;
    SubsequenceMembers(Fifo.Delivered(s, m), s.groups[m.dst].sent, p);
  }

  lemma PutInOrder(s: State, i: nat)
    requires Inv(s) && Fifo.InOrder(s) && SentInOrder(s) && Enabled(s, Put(i))
    ensures SentInOrder(Do(s, Put(i)))
  {
    var a, q := s.adders[i].into, s.adders[i].hand.value;
    forall p: nat | p < q && Shares(s.pay, p, q)
      ensures p in s.groups[a].sent || Processed(s, p)
    {
      HandIsNext(s, i, p);
    }
    OneSentInOrder(s, Do(s, Put(i)), q, a);
  }

  // ----- every step -----

  lemma CallSendsNothing(s: State, step: Step)
    requires Enabled(s, step) && Mover(step).Some? && !step.Send? && !step.Put?
    ensures var t := Do(s, step);
      && Progresses(s, t) && s.pay <= t.pay
      && (forall g :: 0 <= g < |s.groups| ==> t.groups[g].sent == s.groups[g].sent)
      && (forall g :: |s.groups| <= g < |t.groups| ==> t.groups[g].sent == [])
  {
    CallMoves(s, step);
    CallLeavesWork(s, step);
    CallKeepsSends(s, step);
  }

  lemma CallKeepsSends(s: State, step: Step)
    requires Enabled(s, step) && Mover(step).Some? && !step.Send? && !step.Put?
    ensures forall g :: 0 <= g < |s.groups| ==>
      g < |Do(s, step).groups| && Do(s, step).groups[g].sent == s.groups[g].sent
  {
    GroupMoves(s, step);
  }

  lemma WorkerSendsNothing(s: State, step: Step)
    requires Enabled(s, step) && Mover(step).None?
    ensures var t := Do(s, step);
      && Progresses(s, t) && s.pay <= t.pay && |t.groups| == |s.groups|
      && (forall g :: 0 <= g < |s.groups| ==> t.groups[g].sent == s.groups[g].sent)
  {
    CallsStand(s, step);
    GroupMoves(s, step);
    if Touched(s, step).Some? {
      WorkerOnlyFinishes(s, step, Touched(s, step).value);
    }
  }

  lemma WorkerOnlyFinishes(s: State, step: Step, g: nat)
    requires Enabled(s, step) && Mover(step).None? && Touched(s, step) == Some(g)
    ensures var t := Do(s, step);
      g < |s.groups| == |t.groups| && t.groups[g].sent == s.groups[g].sent && s.groups[g].done <= t.groups[g].done
  {
  }

  lemma StepInOrder(s: State, step: Step)
    requires Orderly(s) && Allowed(s, step)
    ensures SentInOrder(Do(s, step))
  {
    if step.Send? {
      SendInOrder(s, step.i);
    } else if step.Put? {
      PutInOrder(s, step.i);
    } else {
      SentIsKnown(s);
      if Mover(step).Some? {
        CallSendsNothing(s, step);
      } else {
        WorkerSendsNothing(s, step);
      }
      NothingSentInOrder(s, Do(s, step));
    }
  }

  lemma StepOrderly(s: State, step: Step)
    requires Orderly(s) && Allowed(s, step)
    ensures Orderly(Do(s, step))
  {
    StepInTurn(s, step);
    Conservation.StepKeepsConserved(s, step);
    Fifo.StepKeepsOrder(s, step);
    StepRejectsLast(s, step);
    StepInOrder(s, step);
  }

  lemma ReachedOrderly(s: State)
    requires ReachableInTurn(s)
    ensures Orderly(s)
  {
    forall t, x | Orderly(t) && Allowed(t, x)
      ensures Orderly(Do(t, x))
    {
      StepOrderly(t, x);
    }
    var steps :| Runs.Valid(Sequential.Machine(), Init(s.max), steps)
      && Runs.After(Sequential.Machine(), Init(s.max), steps) == s;
    Runs.Invariant(Sequential.Machine(), (t: State) => Orderly(t), Init(s.max), steps);
  }

  // ----- the order of processing -----

  /** A payment that ProcessTX has been called for was sent after nothing but processed ones. */
  lemma BegunPosition(x: Group, q: nat) returns (n: nat)
    requires GroupOk(x) && (q in x.done || Flight(x.worker) == [q])
    ensures n < |x.sent| && x.sent[n] == q
    ensures forall p :: p in x.sent[..n] ==> p in x.done
  {
    if k: nat :| k < |x.done| && x.done[k] == q {
      n := k;
      assert x.sent[..n] == x.done[..k];
    } else {
      n := |x.done|;
      assert x.sent[..n] == x.done;
    }
  }

  lemma BegunInOrder(s: State, p: nat, q: nat, g: nat)
    requires Orderly(s) && p < q && Shares(s.pay, p, q) && BegunAt(s, q, g)
    ensures Processed(s, p)
  {
    assert GroupOk(s.groups[g]);
    var n := BegunPosition(s.groups[g], q);
    assert NthSent(s, q, g, n) && Ahead(s, p, g, n);
    if p in s.groups[g].sent[..n] {
      assert ProcessedAt(s, p, g);
    }
  }

  /** With one call of `add` at a time, conflicting payments are processed in the order of
      the calls, merges and early cancellations included. */
  lemma OneCallAtATimeIsInOrder(s: State)
    requires ReachableInTurn(s)
    ensures InCallOrder(s)
  {
    ReachedOrderly(s);
    forall p: nat, q: nat | p < q && Shares(s.pay, p, q) && Begun(s, q)
      ensures Processed(s, p)
    {
      var g: nat :| BegunAt(s, q, g);
      BegunInOrder(s, p, q, g);
    }
  }

  /** When calls overlap, the promised order holds under every schedule exactly if there is no
      slot to process anything, or no two payments share an IBAN. */
  lemma InCallOrderExactly(max: nat, w: seq<Payment>)
    ensures (forall s :: Reachable(s) && s.max == max && s.pay <= w ==> InCallOrder(s)) <==>
      max == 0 || forall p: nat, q: nat :: p < q ==> !Shares(w, p, q)
  {
    if max >= 1 && exists p: nat, q: nat :: p < q && Shares(w, p, q) {
      var p: nat, q: nat :| p < q && Shares(w, p, q);
      var s := LaterGoesFirst(max, w, p, q);
    }
    forall s | Reachable(s) && s.max == max && s.pay <= w && !InCallOrder(s)
      ensures max >= 1 && exists p: nat, q: nat :: p < q && Shares(w, p, q)
    {
      Cancellation.ReachableSlotless(s);
      var p: nat, q: nat :| p < q && Shares(s.pay, p, q) && Begun(s, q) && !Processed(s, p);
      assert Shares(w, p, q);
    }
  }

  lemma LaterGoesFirst(max: nat, w: seq<Payment>, p: nat, q: nat) returns (s: State)
    requires max >= 1 && p < q && Shares(w, p, q)
    ensures Reachable(s) && s.max == max && s.pay == w && !InCallOrder(s)
  {
    s := Cancellation.FirstGroup(max, w, q);
    s := SendAndReceive(s, q, 0);
    assert BegunAt(s, q, 0);
    StartIsNotProcessed(s, p);
  }

  lemma StartIsNotProcessed(s: State, p: nat)
    requires Reachable(s) && p < |s.adders| && s.adders[p].Start?
    ensures !Processed(s, p)
  {
    if Processed(s, p) {
      var g: nat :| ProcessedAt(s, p, g);
      var place := Conservation.ExactlyOnePlace(s, p);
      assert Conservation.At(s, p, Conservation.WithAdder);
      assert Conservation.At(s, p, Conservation.Processed(g));
    }
  }
}
