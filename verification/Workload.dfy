/** For which workloads the dispatcher keeps its promise under every schedule. */
module Workload {
  import opened Common
  import opened DispatcherSteps
  import opened DispatcherInvariants
  import opened Serialisation
  import Components
  import Runs
  import Semaphore

  predicate Shares(w: seq<Payment>, i: nat, j: nat) {
    i < |w| && j < |w| && Conflict(w[i], w[j])
  }

  /** Sharing an IBAN is a transitive relation on the workload: no payment bridges two
      payments that have no IBAN in common. */
  ghost predicate Transitive(w: seq<Payment>) {
    forall i: nat, j: nat, k: nat :: Shares(w, i, j) && Shares(w, j, k) ==> Shares(w, i, k)
  }

  lemma PrefixIsTransitive(v: seq<Payment>, w: seq<Payment>)
    requires v <= w && Transitive(w)
    ensures Transitive(v)
  {
    forall i: nat, j: nat, k: nat | Shares(v, i, j) && Shares(v, j, k)
      ensures Shares(v, i, k)
    {
      assert Shares(w, i, j) && Shares(w, j, k);
      assert Shares(w, i, k);
    }
  }

  // ----- on a transitive workload nothing is ever merged or split -----

  predicate Uses(p: Payment, x: Iban) {
    p.cred == x || p.deb == x
  }

  ghost predicate UsedBy(s: State, i: nat, x: Iban) {
    i in s.routed && i < |s.pay| && Uses(s.pay[i], x)
  }

  predicate Indexed(s: State, x: Iban) {
    x in s.index
  }

  /** Every indexed IBAN belongs to a routed payment. */
  ghost predicate KeysRouted(s: State) {
    forall x :: Indexed(s, x) ==> exists i :: UsedBy(s, i, x)
  }

  ghost predicate Quiet(s: State) {
    s.log == [] && !s.split && KeysRouted(s) && Components.EdgesStayTogether(s)
  }

  /** Two routed payments that share an IBAN are indexed at the same group. */
  lemma SharingIsTogether(s: State, p: nat, q: nat, x: Iban, y: Iban)
    requires Components.EdgesStayTogether(s) && UsedBy(s, p, x) && UsedBy(s, q, y) && Shares(s.pay, p, q)
    ensures x in s.index && y in s.index && s.index[x] == s.index[y]
  {
  }

  lemma NoBridge(s: State, i: nat)
    requires Quiet(s) && Transitive(s.pay) && i < |s.pay|
    requires s.pay[i].cred in s.index && s.pay[i].deb in s.index
    ensures s.index[s.pay[i].cred] == s.index[s.pay[i].deb]
  {
    var x, y := s.pay[i].cred, s.pay[i].deb;
    assert Indexed(s, x) && Indexed(s, y);
    var p :| UsedBy(s, p, x);
    var q :| UsedBy(s, q, y);
    assert Shares(s.pay, p, i) && Shares(s.pay, i, q);
    assert Shares(s.pay, p, q);
    SharingIsTogether(s, p, q, x, y);
  }

  /** Payment i is routed to group g; its IBANs were in g if they were indexed at all. */
  lemma RoutingStaysQuiet(s: State, t: State, i: nat, g: nat)
    requires Quiet(s) && i < |s.pay| && t.pay == s.pay && t.routed == s.routed + {i}
    requires t.index == s.index[s.pay[i].deb := g][s.pay[i].cred := g]
    requires forall x :: x in s.index && Uses(s.pay[i], x) ==> s.index[x] == g
    requires t.log == s.log && t.split == s.split
    ensures Quiet(t)
  {
    Components.JoinKeepsTogether(s, t, i, g);
    forall x | Indexed(t, x)
      ensures exists j :: UsedBy(t, j, x)
    {
      assert Uses(s.pay[i], x) || Indexed(s, x);
      if Uses(s.pay[i], x) {
        assert UsedBy(t, i, x);
      } else {
        var j :| UsedBy(s, j, x);
        assert UsedBy(t, j, x);
      }
    }
  }

  lemma RouteStaysQuiet(s: State, i: nat)
    requires Inv(s) && Quiet(s) && Transitive(s.pay) && Enabled(s, Route(i))
    ensures Quiet(Do(s, Route(i)))
  {
    var t := Do(s, Route(i));
    var p := s.pay[i];
    if p.cred in s.index && p.deb in s.index {
      NoBridge(s, i);
    }
    if !s.root && (p.cred in s.index || p.deb in s.index) {
      var g := if p.cred in s.index then s.index[p.cred] else s.index[p.deb];
      assert t.index == s.index[p.deb := g][p.cred := g];
      RoutingStaysQuiet(s, t, i, g);
    } else {
      SameRoutingStaysQuiet(s, t);
    }
  }

  lemma RecheckStaysQuiet(s: State, i: nat)
    requires Quiet(s) && Transitive(s.pay) && Enabled(s, Recheck(i))
    ensures Quiet(Do(s, Recheck(i)))
  {
    var t := Do(s, Recheck(i));
    if s.pay[i].cred in s.index && s.pay[i].deb in s.index {
      NoBridge(s, i);
    }
    RoutingStaysQuiet(s, t, i, t.index[s.pay[i].cred]);
  }

  lemma SameRoutingStaysQuiet(s: State, t: State)
    requires Quiet(s) && s.pay <= t.pay && t.log == s.log && t.split == s.split
    requires t.index == s.index && t.routed == s.routed && forall i :: i in s.routed ==> i < |s.pay|
    ensures Quiet(t)
  {
    assert forall i :: i in s.routed ==> i < |s.pay| && t.pay[i] == s.pay[i];
    forall x | Indexed(t, x)
      ensures exists j :: UsedBy(t, j, x)
    {
      assert Indexed(s, x);
      var j :| UsedBy(s, j, x);
      assert UsedBy(t, j, x);
    }
  }

  lemma StepStaysQuiet(s: State, step: Step)
    requires Inv(s) && Quiet(s) && Transitive(s.pay) && Enabled(s, step)
    ensures Quiet(Do(s, step))
  {
    if step.Route? {
      RouteStaysQuiet(s, step.i);
    } else if step.Recheck? {
      RecheckStaysQuiet(s, step.i);
    } else {
      if step.EndDrain? {
        SecondRelabelIsIdle(s, step.i);
      }
      SameRoutingStaysQuiet(s, Do(s, step));
    }
  }

  ghost predicate Calm(s: State) {
    Inv(s) && (Transitive(s.pay) ==> Quiet(s))
  }

  lemma ReachableCalm(s: State)
    requires Reachable(s)
    ensures Calm(s)
  {
    forall t, x | Calm(t) && Enabled(t, x)
      ensures Calm(Do(t, x))
    {
      StepStaysCalm(t, x);
    }
    ReachableHas(s, t => Calm(t));
  }

  lemma StepStaysCalm(s: State, step: Step)
    requires Calm(s) && Enabled(s, step)
    ensures Calm(Do(s, step))
  {
    StepKeepsInv(s, step);
    PayGrows(s, step);
    if Transitive(Do(s, step).pay) {
      PrefixIsTransitive(s.pay, Do(s, step).pay);
      StepStaysQuiet(s, step);
    }
  }

  lemma PayGrows(s: State, step: Step)
    requires Enabled(s, step)
    ensures s.pay <= Do(s, step).pay
  {
  }

  /** With any number of workers: on a transitive workload every schedule is serial. */
  lemma TransitiveIsSerial(s: State)
    requires Reachable(s) && Transitive(s.pay)
    ensures Serial(s)
  {
    ReachableCalm(s);
    SerialOutsideWindows(s);
  }

  /** With a single worker slot every schedule is serial, whatever the workload. */
  lemma OneWorkerIsSerial(s: State)
    requires Reachable(s) && s.max <= 1
    ensures Serial(s)
  {
    forall p: nat, q: nat, g: nat, h: nat | InFlight(s, p, g) && InFlight(s, q, h) && g != h
      ensures false
    {
      Semaphore.TwoWorkersTwoSlots(s, g, h);
    }
  }

  // ----- any other workload has a schedule that breaks the promise -----

  lemma Go(s: State, step: Step)
    requires Reachable(s) && Enabled(s, step)
    ensures Reachable(Do(s, step))
  {
    Runs.ReachesStep(Machine(), Init(s.max), s, step);
  }

  lemma Begin(max: nat) returns (s: State)
    ensures Reachable(s) && s == Init(max)
  {
    s := Init(max);
    assert Runs.Valid(Machine(), s, []) && Runs.After(Machine(), s, []) == s;
  }

  lemma {:induction false} AllSubmitted(max: nat, w: seq<Payment>) returns (s: State)
    ensures Reachable(s)
    ensures s == Init(max).(pay := w, adders := s.adders) && |s.adders| == |w|
    ensures forall i :: 0 <= i < |w| ==> s.adders[i].Start?
  {
    if w == [] {
      s := Begin(max);
    } else {
      var n := |w| - 1;
      s := AllSubmitted(max, w[..n]);
      s := SubmitOne(s, w[n]);
      assert w[..n] + [w[n]] == w;
    }
  }

  lemma SubmitOne(s: State, p: Payment) returns (t: State)
    requires Reachable(s)
    ensures Reachable(t) && t == s.(pay := s.pay + [p], adders := s.adders + [Start])
  {
    Go(s, Submit(p));
    t := Do(s, Submit(p));
  }

  /** Three calls pass the first look-up together and take a slot each. */
  lemma ThreeTakeSlots(max: nat, w: seq<Payment>, i: nat, j: nat, k: nat) returns (s: State)
    requires max >= 3 && i < |w| && j < |w| && k < |w| && i != j && j != k && i != k
    ensures Reachable(s)
    ensures s == Init(max).(pay := w, sem := 3, adders := s.adders) && |s.adders| == |w|
    ensures s.adders[i].HoldSlot? && s.adders[j].HoldSlot? && s.adders[k].HoldSlot?
  {
    s := AllSubmitted(max, w);
    s := RouteAndAcquire(s, i);
    s := RouteAndAcquire(s, j);
    s := RouteAndAcquire(s, k);
  }

  lemma RouteAndAcquire(s: State, i: nat) returns (t: State)
    requires Reachable(s) && |s.adders| == |s.pay| && i < |s.pay| && s.adders[i].Start? && s.mu.None? && !s.root
    requires s.pay[i].cred !in s.index && s.pay[i].deb !in s.index && s.sem < s.max
    ensures Reachable(t) && t == s.(adders := s.adders[i := HoldSlot], sem := s.sem + 1)
  {
    t := WaitForSlot(s, i);
    t := AcquireSlot(t, i);
  }

  lemma WaitForSlot(s: State, i: nat) returns (t: State)
    requires Reachable(s) && |s.adders| == |s.pay| && i < |s.pay| && s.adders[i].Start? && s.mu.None? && !s.root
    requires s.pay[i].cred !in s.index && s.pay[i].deb !in s.index
    ensures Reachable(t) && t == s.(adders := s.adders[i := WaitSlot])
  {
    Go(s, Route(i));
    t := Do(s, Route(i));
  }

  lemma AcquireSlot(s: State, i: nat) returns (t: State)
    requires Reachable(s) && IsAdder(s, i) && s.adders[i].WaitSlot? && s.sem < s.max
    ensures Reachable(t) && t == s.(adders := s.adders[i := HoldSlot], sem := s.sem + 1)
  {
    Go(s, Acquire(i));
    t := Do(s, Acquire(i));
  }

  /** The re-check of adder i finds neither IBAN and opens a new group. */
  lemma OpenGroup(s: State, i: nat) returns (t: State)
    requires Reachable(s) && IsAdder(s, i) && |s.adders| == |s.pay| && s.adders[i].HoldSlot? && s.mu.None? && 0 < s.sem
    requires s.pay[i].cred !in s.index && s.pay[i].deb !in s.index
    ensures var g := |s.groups|;
      && Reachable(t)
      && t == s.(adders := s.adders[i := Sending(g)], groups := s.groups + [NewGroup(g)], wg := s.wg + 1,
                 index := s.index[s.pay[i].deb := g][s.pay[i].cred := g], routed := s.routed + {i})
  {
    Go(s, Recheck(i));
    t := Do(s, Recheck(i));
  }

  /** The re-check of adder i finds two groups and moves the debtor's IBAN. */
  lemma SplitGroup(s: State, i: nat) returns (t: State)
    requires Reachable(s) && IsAdder(s, i) && |s.adders| == |s.pay| && s.adders[i].HoldSlot? && s.mu.None? && 0 < s.sem
    requires s.pay[i].cred in s.index && s.pay[i].deb in s.index
    ensures var g := s.index[s.pay[i].cred];
      && Reachable(t) && t.adders == s.adders[i := Sending(g)] && t.groups == s.groups && t.pay == s.pay
        && t.max == s.max
      && t.log == s.log && (g != s.index[s.pay[i].deb] ==> t.split)
  {
    Go(s, Recheck(i));
    t := Do(s, Recheck(i));
  }

  /** Payments i and k open a group each; the re-check of payment j then finds both. */
  lemma SplitHappens(max: nat, w: seq<Payment>, i: nat, j: nat, k: nat) returns (s: State)
    requires max >= 3 && i < |w| && j < |w| && k < |w| && i != j && j != k && i != k
    requires !Conflict(w[i], w[k]) && Uses(w[i], w[j].cred) && Uses(w[k], w[j].deb)
    ensures Reachable(s) && s.max == max && s.pay == w && |s.adders| == |w|
    ensures s.groups == [NewGroup(0), NewGroup(1)]
    ensures s.adders[i] == Sending(0) && s.adders[k] == Sending(1) && s.adders[j] == Sending(0)
    ensures s.split && s.log == []
  {
    s := ThreeTakeSlots(max, w, i, j, k);
    s := OpenGroup(s, i);
    s := OpenGroup(s, k);
    s := SplitGroup(s, j);
  }

  /** Adder i sends its payment and the worker of its group starts on it. */
  lemma SendAndReceive(s: State, i: nat, g: nat) returns (t: State)
    requires Reachable(s) && IsAdder(s, i) && s.adders[i] == Sending(g) && g < |s.groups|
    requires s.groups[g].worker.Idle? && s.groups[g].ch == []
    ensures Reachable(t)
    ensures g < |t.groups| && t == s.(adders := s.adders[i := Sent], groups := s.groups[g := t.groups[g]])
    ensures t.groups[g].worker == Busy(i) && t.groups[g].ch == [] && t.groups[g].drainReady == s.groups[g].drainReady
  {
    t := SendFirst(s, i, g);
    Go(t, Recv(g));
    t := Do(t, Recv(g));
  }

  lemma SendFirst(s: State, i: nat, g: nat) returns (t: State)
    requires Reachable(s) && IsAdder(s, i) && s.adders[i] == Sending(g) && g < |s.groups| && s.groups[g].ch == []
    ensures Reachable(t) && t == s.(adders := s.adders[i := Sent], groups := s.groups[g := PutIn(s.groups[g], i)])
  {
    Go(s, Send(i));
    t := Do(s, Send(i));
  }

  lemma FinishOne(s: State, g: nat) returns (t: State)
    requires Reachable(s) && g < |s.groups| && s.groups[g].worker.Busy?
    ensures Reachable(t) && g < |t.groups| && t == s.(groups := s.groups[g := t.groups[g]])
    ensures t.groups[g].worker.Idle? && t.groups[g].ch == s.groups[g].ch
  {
    Go(s, Finish(g));
    t := Do(s, Finish(g));
  }

  lemma BridgeBreaksPromise(max: nat, w: seq<Payment>, i: nat, j: nat, k: nat) returns (s: State)
    requires max >= 3 && i < |w| && j < |w| && k < |w| && i != j && j != k && i != k
    requires !Conflict(w[i], w[k]) && Uses(w[i], w[j].cred) && Uses(w[k], w[j].deb)
    ensures Reachable(s) && s.max == max && s.pay == w && !Serial(s) && s.split && s.log == []
  {
    s := SplitHappens(max, w, i, j, k);
    s := FirstDoneSecondBusy(s, i, k);
    s := SendAndReceive(s, j, 0);
    assert InFlight(s, j, 0) && InFlight(s, k, 1) && Conflict(w[j], w[k]);
  }

  /** The worker of group 0 processes payment i; that of group 1 is inside ProcessTX with k. */
  lemma FirstDoneSecondBusy(s: State, i: nat, k: nat) returns (t: State)
    requires Reachable(s) && IsAdder(s, i) && IsAdder(s, k) && i != k
    requires s.groups == [NewGroup(0), NewGroup(1)] && s.adders[i] == Sending(0) && s.adders[k] == Sending(1)
    ensures Reachable(t) && |t.groups| == 2 && t == s.(adders := s.adders[i := Sent][k := Sent], groups := t.groups)
    ensures t.groups[0].worker.Idle? && t.groups[0].ch == [] && t.groups[1].worker == Busy(k)
    ensures !t.groups[1].drainReady
  {
    t := SendAndReceive(s, i, 0);
    t := SendAndReceive(t, k, 1);
    t := FinishOne(t, 0);
  }

  lemma BridgedIsNotSerial(max: nat, w: seq<Payment>) returns (s: State)
    requires max >= 3 && !Transitive(w)
    ensures Reachable(s) && s.max == max && s.pay == w && !Serial(s) && s.split && s.log == []
  {
    var i: nat, j: nat, k: nat :| Shares(w, i, j) && Shares(w, j, k) && !Shares(w, i, k);
    if Uses(w[i], w[j].cred) && Uses(w[k], w[j].deb) {
      s := BridgeBreaksPromise(max, w, i, j, k);
    } else {
      s := BridgeBreaksPromise(max, w, k, j, i);
    }
  }

  /** With three or more workers the promise holds under every schedule of a workload
      exactly if sharing an IBAN is transitive on it. */
  lemma SerialExactlyWhenTransitive(max: nat, w: seq<Payment>)
    requires max >= 3
    ensures (forall s :: Reachable(s) && s.max == max && s.pay <= w ==> Serial(s)) <==> Transitive(w)
  {
    if Transitive(w) {
      forall s | Reachable(s) && s.max == max && s.pay <= w
        ensures Serial(s)
      {
        PrefixIsTransitive(s.pay, w);
        TransitiveIsSerial(s);
      }
    } else {
      var s := BridgedIsNotSerial(max, w);
    }
  }

  // ----- a merge begins -----

  lemma StartMerge(s: State, i: nat) returns (t: State)
    requires Reachable(s) && IsAdder(s, i) && |s.adders| == |s.pay| && s.adders[i].Start? && s.mu.None? && !s.root
    requires s.pay[i].cred in s.index && s.pay[i].deb in s.index && s.index[s.pay[i].cred] != s.index[s.pay[i].deb]
    requires s.index[s.pay[i].deb] < |s.groups|
    ensures Reachable(t) && t == BeginMerge(s, i, s.index[s.pay[i].cred], s.index[s.pay[i].deb])
  {
    Go(s, Route(i));
    t := Do(s, Route(i));
  }
}
