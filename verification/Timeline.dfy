/** The history a run of the dispatcher leaves behind, and why the history check accepts it. */
module Timeline {
  import opened Common
  import opened DispatcherSteps
  import opened DispatcherInvariants
  import opened Serialisation
  import Conservation
  import Workload
  import H = History
  import Runs
  import Sequential

  /** Payment p was inside ProcessTX from step `start` of the run to step `end`. */
  datatype Span = Span(p: nat, start: nat, end: nat)

  datatype Observed = Observed(open: map<nat, nat>, closed: seq<Span>)

  /** What an observer has noted when step x is taken as the n-th step in state s. */
  function Note(o: Observed, s: State, x: Step, n: nat): Observed
    requires Enabled(s, x)
  {
    match x
    case Recv(g) => o.(open := o.open[s.groups[g].ch[0] := n])
    case Finish(g) =>
      var p := s.groups[g].worker.tx;
      if p in o.open then Observed(o.open - {p}, o.closed + [Span(p, o.open[p], n)]) else o
    case _ => o
  }

  ghost function Observe(max: nat, steps: seq<Step>): Observed
    requires Runs.Valid(Machine(), Init(max), steps)
    decreases |steps|
  {
    if steps == [] then Observed(map[], [])
    else
      var n := |steps| - 1;
      Note(Observe(max, steps[..n]), Runs.After(Machine(), Init(max), steps[..n]), steps[n], n)
  }

  ghost predicate Separate(a: Span, b: Span) {
    a.end <= b.start || b.end <= a.start
  }

  ghost predicate OpenOk(o: Observed, s: State, n: nat) {
    && (forall p: nat, g: nat :: InFlight(s, p, g) ==> p in o.open)
    && (forall p :: p in o.open ==> o.open[p] < n && p < |s.pay| && exists g :: InFlight(s, p, g))
  }

  ghost predicate ClosedOk(o: Observed, s: State, n: nat) {
    forall k :: 0 <= k < |o.closed| ==> o.closed[k].end < n && o.closed[k].p < |s.pay| && Processed(s, o.closed[k].p)
  }

  /** A finished payment ended before any conflicting payment now in flight began. */
  ghost predicate OpenAfterClosed(o: Observed, pay: seq<Payment>) {
    forall k, q :: 0 <= k < |o.closed| && q in o.open && o.closed[k].p < |pay| && q < |pay|
                   && Conflict(pay[o.closed[k].p], pay[q]) ==>
      o.closed[k].end <= o.open[q]
  }

  ghost predicate ClosedApart(o: Observed, pay: seq<Payment>) {
    forall k, l :: 0 <= k < l < |o.closed| ==>
      && o.closed[k].p != o.closed[l].p
      && (o.closed[k].p < |pay| && o.closed[l].p < |pay| && Conflict(pay[o.closed[k].p], pay[o.closed[l].p])
          ==> Separate(o.closed[k], o.closed[l]))
  }

  ghost predicate Watched(o: Observed, s: State, n: nat) {
    OpenOk(o, s, n) && ClosedOk(o, s, n) && OpenAfterClosed(o, s.pay) && ClosedApart(o, s.pay)
  }

  // ----- one payment, one place -----

  lemma FlightIsKnown(s: State, p: nat, g: nat)
    requires Reachable(s) && g < |s.groups| && (p in Flight(s.groups[g].worker) || p in s.groups[g].ch)
    ensures p < |s.pay| == |s.adders|
  {
    ReachableInv(s);
    assert GroupOk(s.groups[g]);
    assert p in s.groups[g].sent;
  }

  lemma InFlightOnce(s: State, p: nat, g: nat, h: nat)
    requires Reachable(s) && InFlight(s, p, g) && h < |s.groups|
    ensures InFlight(s, p, h) ==> g == h
    ensures p !in s.groups[h].done && p !in s.groups[h].ch
  {
    FlightIsKnown(s, p, g);
    assert p in Flight(s.groups[g].worker);
    var place := Conservation.ExactlyOnePlace(s, p);
    assert Conservation.At(s, p, Conservation.WithWorker(g));
    if InFlight(s, p, h) {
      assert p in Flight(s.groups[h].worker);
      assert Conservation.At(s, p, Conservation.WithWorker(h));
    }
    if p in s.groups[h].done {
      assert Conservation.At(s, p, Conservation.Processed(h));
    }
    if p in s.groups[h].ch {
      assert Conservation.At(s, p, Conservation.InChannel(h));
    }
  }

  // ----- the observer stays right -----

  lemma RecvFlights(s: State, g: nat)
    requires Enabled(s, Recv(g))
    ensures InFlight(Do(s, Recv(g)), s.groups[g].ch[0], g)
    ensures forall q: nat, h: nat :: InFlight(Do(s, Recv(g)), q, h) <==>
      InFlight(s, q, h) || (q == s.groups[g].ch[0] && h == g)
  {
  }

  lemma RecvOpen(o: Observed, s: State, g: nat, n: nat)
    requires Enabled(s, Recv(g)) && OpenOk(o, s, n) && s.groups[g].ch[0] < |s.pay|
    ensures OpenOk(Note(o, s, Recv(g), n), Do(s, Recv(g)), n + 1)
  {
    var t := Do(s, Recv(g));
    var p := s.groups[g].ch[0];
    RecvFlights(s, g);
    forall q | q in o.open && q != p
      ensures exists h :: InFlight(t, q, h)
    {
      var h :| InFlight(s, q, h);
      assert InFlight(t, q, h);
    }
  }

  lemma RecvClosed(o: Observed, s: State, g: nat, n: nat)
    requires Enabled(s, Recv(g)) && ClosedOk(o, s, n)
    ensures ClosedOk(Note(o, s, Recv(g), n), Do(s, Recv(g)), n + 1)
  {
    var t := Do(s, Recv(g));
    forall q | Processed(s, q)
      ensures Processed(t, q)
    {
      var h: nat :| ProcessedAt(s, q, h);
      assert ProcessedAt(t, q, h);
    }
  }

  lemma RecvOrder(o: Observed, s: State, g: nat, n: nat)
    requires Enabled(s, Recv(g)) && Watched(o, s, n)
    ensures OpenAfterClosed(Note(o, s, Recv(g), n), s.pay)
    ensures ClosedApart(Note(o, s, Recv(g), n), s.pay)
  {
  }

  lemma RecvWatched(o: Observed, s: State, g: nat, n: nat)
    requires Reachable(s) && Enabled(s, Recv(g)) && Watched(o, s, n)
    ensures Watched(Note(o, s, Recv(g), n), Do(s, Recv(g)), n + 1)
  {
    FlightIsKnown(s, s.groups[g].ch[0], g);
    RecvOpen(o, s, g, n);
    RecvClosed(o, s, g, n);
    RecvOrder(o, s, g, n);
  }

  lemma FinishWatched(o: Observed, s: State, g: nat, n: nat)
    requires Reachable(s) && Serial(s) && Enabled(s, Finish(g)) && Watched(o, s, n)
    ensures Watched(Note(o, s, Finish(g), n), Do(s, Finish(g)), n + 1)
  {
    var t := Do(s, Finish(g));
    var p := s.groups[g].worker.tx;
    var o' := Note(o, s, Finish(g), n);
    assert InFlight(s, p, g);
    FlightIsKnown(s, p, g);
    forall h: nat | h < |s.groups|
      ensures (InFlight(s, p, h) ==> h == g) && p !in s.groups[h].done
    {
      InFlightOnce(s, p, g, h);
    }
    FinishOpen(o, s, g, n);
    FinishClosed(o, s, g, n);
    FinishOrder(o, s, g, n);
  }

  /** Payment p is in flight at g and nowhere else, and not finished anywhere. */
  ghost predicate Alone(s: State, p: nat, g: nat) {
    forall h: nat :: h < |s.groups| ==> (InFlight(s, p, h) ==> h == g) && p !in s.groups[h].done
  }

  lemma FinishFlights(s: State, g: nat)
    requires Enabled(s, Finish(g))
    ensures InFlight(s, s.groups[g].worker.tx, g)
    ensures forall q: nat, h: nat :: InFlight(Do(s, Finish(g)), q, h) <==> InFlight(s, q, h) && h != g
  {
  }

  lemma FinishOpen(o: Observed, s: State, g: nat, n: nat)
    requires Enabled(s, Finish(g)) && OpenOk(o, s, n) && Alone(s, s.groups[g].worker.tx, g)
    ensures OpenOk(Note(o, s, Finish(g), n), Do(s, Finish(g)), n + 1)
  {
    var t := Do(s, Finish(g));
    var p := s.groups[g].worker.tx;
    FinishFlights(s, g);
    forall q | q in o.open && q != p
      ensures exists h :: InFlight(t, q, h)
    {
      var h :| InFlight(s, q, h);
      assert InFlight(t, q, h);
    }
  }

  lemma FinishClosed(o: Observed, s: State, g: nat, n: nat)
    requires Enabled(s, Finish(g)) && OpenOk(o, s, n) && ClosedOk(o, s, n)
    ensures ClosedOk(Note(o, s, Finish(g), n), Do(s, Finish(g)), n + 1)
  {
    var t := Do(s, Finish(g));
    var p := s.groups[g].worker.tx;
    assert ProcessedAt(t, p, g);
    forall q | Processed(s, q)
      ensures Processed(t, q)
    {
      var h: nat :| ProcessedAt(s, q, h);
      assert ProcessedAt(t, q, h);
    }
  }

  lemma FinishOrder(o: Observed, s: State, g: nat, n: nat)
    requires Serial(s) && Enabled(s, Finish(g)) && Watched(o, s, n) && Alone(s, s.groups[g].worker.tx, g)
    ensures OpenAfterClosed(Note(o, s, Finish(g), n), s.pay) && ClosedApart(Note(o, s, Finish(g), n), s.pay)
  {
    var p := s.groups[g].worker.tx;
    assert InFlight(s, p, g);
    forall q | q in o.open && q != p
      ensures q < |s.pay| && !Conflict(s.pay[p], s.pay[q])
    {
      var h :| InFlight(s, q, h);
    }
    forall k | 0 <= k < |o.closed|
      ensures o.closed[k].p != p
    {
      assert Processed(s, o.closed[k].p);
    }
    CloseOne(o, s.pay, p, n);
  }

  /** A payment ends while everything that conflicts with it is closed. */
  lemma CloseOne(o: Observed, pay: seq<Payment>, p: nat, n: nat)
    requires OpenAfterClosed(o, pay) && ClosedApart(o, pay) && p in o.open && p < |pay|
    requires forall q :: q in o.open && q != p ==> q < |pay| && !Conflict(pay[p], pay[q])
    requires forall k :: 0 <= k < |o.closed| ==> o.closed[k].p != p
    ensures var e := Observed(o.open - {p}, o.closed + [Span(p, o.open[p], n)]);
      OpenAfterClosed(e, pay) && ClosedApart(e, pay)
  {
  }

  lemma OtherWatched(o: Observed, s: State, x: Step, n: nat)
    requires Reachable(s) && Enabled(s, x) && Watched(o, s, n) && !x.Recv? && !x.Finish?
    ensures Watched(o, Do(s, x), n + 1)
  {
    OtherKeepsFlights(s, x);
    SameFlightsWatched(o, s, Do(s, x), n);
  }

  ghost predicate SameFlights(s: State, t: State) {
    && |s.groups| <= |t.groups|
    && (forall h: nat :: h < |s.groups| ==>
          t.groups[h].done == s.groups[h].done && Flight(t.groups[h].worker) == Flight(s.groups[h].worker))
    && (forall h: nat :: |s.groups| <= h < |t.groups| ==>
          Flight(t.groups[h].worker) == [] && t.groups[h].done == [])
  }

  lemma OtherKeepsFlights(s: State, x: Step)
    requires Enabled(s, x) && !x.Recv? && !x.Finish?
    ensures s.pay <= Do(s, x).pay && SameFlights(s, Do(s, x))
  {
    if Mover(x).Some? {
      CallKeepsFlights(s, x);
    } else {
      ContextKeepsFlights(s, x);
    }
  }

  lemma CallKeepsFlights(s: State, x: Step)
    requires Enabled(s, x) && Mover(x).Some?
    ensures s.pay == Do(s, x).pay && SameFlights(s, Do(s, x))
  {
    CallMoves(s, x);
    CallLeavesWork(s, x);
  }

  lemma ContextKeepsFlights(s: State, x: Step)
    requires Enabled(s, x) && Mover(x).None? && !x.Recv? && !x.Finish?
    ensures s.pay <= Do(s, x).pay && SameFlights(s, Do(s, x))
  {
    CallsStand(s, x);
    GroupMoves(s, x);
  }

  lemma SameFlightsOpen(o: Observed, s: State, t: State, n: nat)
    requires OpenOk(o, s, n) && s.pay <= t.pay && SameFlights(s, t)
    ensures OpenOk(o, t, n + 1)
  {
    assert forall q: nat, h: nat :: InFlight(t, q, h) <==> InFlight(s, q, h);
  }

  lemma SameFlightsClosed(o: Observed, s: State, t: State, n: nat)
    requires ClosedOk(o, s, n) && s.pay <= t.pay && SameFlights(s, t)
    ensures ClosedOk(o, t, n + 1)
  {
    forall k | 0 <= k < |o.closed|
      ensures Processed(t, o.closed[k].p)
    {
      var h: nat :| ProcessedAt(s, o.closed[k].p, h);
      assert ProcessedAt(t, o.closed[k].p, h);
    }
  }

  lemma SameFlightsWatched(o: Observed, s: State, t: State, n: nat)
    requires Watched(o, s, n) && s.pay <= t.pay && SameFlights(s, t)
    ensures Watched(o, t, n + 1)
  {
    SameFlightsOpen(o, s, t, n);
    SameFlightsClosed(o, s, t, n);
    KnownStayApart(o, s.pay, t.pay);
  }

  /** What is noted of known payments does not depend on later ones. */
  lemma KnownStayApart(o: Observed, pay: seq<Payment>, more: seq<Payment>)
    requires OpenAfterClosed(o, pay) && ClosedApart(o, pay) && pay <= more
    requires forall k :: 0 <= k < |o.closed| ==> o.closed[k].p < |pay|
    requires forall p :: p in o.open ==> p < |pay|
    ensures OpenAfterClosed(o, more) && ClosedApart(o, more)
  {
    assert forall p: nat :: p < |pay| ==> more[p] == pay[p];
  }

  /** Every state along the run is serial. */
  ghost predicate SerialThroughout(max: nat, steps: seq<Step>) {
    && Runs.Valid(Machine(), Init(max), steps)
    && forall n :: 0 <= n <= |steps| ==>
         Runs.Valid(Machine(), Init(max), steps[..n]) && Serial(Runs.After(Machine(), Init(max), steps[..n]))
  }

  lemma StepWatched(o: Observed, s: State, x: Step, n: nat)
    requires Reachable(s) && Serial(s) && Enabled(s, x) && Watched(o, s, n)
    ensures Watched(Note(o, s, x, n), Do(s, x), n + 1)
  {
    if x.Recv? {
      RecvWatched(o, s, x.g, n);
    } else if x.Finish? {
      FinishWatched(o, s, x.g, n);
    } else {
      OtherWatched(o, s, x, n);
    }
  }

  lemma {:induction false} ObserverIsRight(max: nat, steps: seq<Step>)
    requires SerialThroughout(max, steps)
    ensures Watched(Observe(max, steps), Runs.After(Machine(), Init(max), steps), |steps|)
    decreases |steps|
  {
    if steps != [] {
      var n := |steps| - 1;
      assert forall m :: 0 <= m <= n ==> steps[..n][..m] == steps[..m];
      ObserverIsRight(max, steps[..n]);
      var s := Runs.After(Machine(), Init(max), steps[..n]);
      StartsAt(max, steps[..n]);
      var o := Observe(max, steps[..n]);
      StepWatched(o, s, steps[n], n);
    }
  }

  lemma StartsAt(max: nat, steps: seq<Step>)
    requires Runs.Valid(Machine(), Init(max), steps)
    ensures Reachable(Runs.After(Machine(), Init(max), steps))
    ensures Runs.After(Machine(), Init(max), steps).max == max
  {
    Runs.Invariant(Machine(), (s: State) => s.max == max, Init(max), steps);
  }

  // ----- the observer misses nothing -----

  /** Step n of the run is the one in which a worker takes payment p. */
  ghost predicate TakenAt(max: nat, steps: seq<Step>, p: nat, n: nat) {
    && n < |steps| && steps[n].Recv? && Runs.Valid(Machine(), Init(max), steps[..n])
    && var s := Runs.After(Machine(), Init(max), steps[..n]);
       Enabled(s, steps[n]) && s.groups[steps[n].g].ch[0] == p
  }

  /** Step n of the run is the one in which ProcessTX returns for payment p. */
  ghost predicate EndedAt(max: nat, steps: seq<Step>, p: nat, n: nat) {
    && n < |steps| && steps[n].Finish? && Runs.Valid(Machine(), Init(max), steps[..n])
    && var s := Runs.After(Machine(), Init(max), steps[..n]);
       Enabled(s, steps[n]) && s.groups[steps[n].g].worker.tx == p
  }

  /** Each processed payment has a span, and no payment has two. */
  ghost predicate Counts(o: Observed, s: State) {
    && (forall p: nat :: Processed(s, p) ==> exists k :: 0 <= k < |o.closed| && o.closed[k].p == p)
    && (forall k, l :: 0 <= k < l < |o.closed| ==> o.closed[k].p != o.closed[l].p)
  }

  /** Spans begin and end with the steps that they are about. */
  ghost predicate Dated(o: Observed, max: nat, steps: seq<Step>) {
    && (forall k :: 0 <= k < |o.closed| ==>
          TakenAt(max, steps, o.closed[k].p, o.closed[k].start) && EndedAt(max, steps, o.closed[k].p, o.closed[k].end))
    && (forall p :: p in o.open ==> TakenAt(max, steps, p, o.open[p]))
  }

  ghost predicate Complete(o: Observed, s: State, n: nat) {
    OpenOk(o, s, n) && ClosedOk(o, s, n) && Counts(o, s)
  }

  lemma RecvCounts(o: Observed, s: State, g: nat, n: nat)
    requires Reachable(s) && Enabled(s, Recv(g)) && Complete(o, s, n)
    ensures Complete(Note(o, s, Recv(g), n), Do(s, Recv(g)), n + 1)
  {
    FlightIsKnown(s, s.groups[g].ch[0], g);
    RecvOpen(o, s, g, n);
    RecvClosed(o, s, g, n);
    forall p: nat | Processed(Do(s, Recv(g)), p)
      ensures Processed(s, p)
    {
      var h: nat :| ProcessedAt(Do(s, Recv(g)), p, h);
      assert ProcessedAt(s, p, h);
    }
  }

  lemma FinishCounts(o: Observed, s: State, g: nat, n: nat)
    requires Reachable(s) && Enabled(s, Finish(g)) && Complete(o, s, n)
    ensures Complete(Note(o, s, Finish(g), n), Do(s, Finish(g)), n + 1)
  {
    FinishIsAlone(s, g);
    FinishOpen(o, s, g, n);
    FinishClosed(o, s, g, n);
    FinishCountsOne(o, s, g, n);
  }

  lemma FinishIsAlone(s: State, g: nat)
    requires Reachable(s) && Enabled(s, Finish(g))
    ensures Alone(s, s.groups[g].worker.tx, g)
  {
    var p := s.groups[g].worker.tx;
    assert InFlight(s, p, g);
    forall h: nat | h < |s.groups|
      ensures (InFlight(s, p, h) ==> h == g) && p !in s.groups[h].done
    {
      InFlightOnce(s, p, g, h);
    }
  }

  lemma FinishCountsOne(o: Observed, s: State, g: nat, n: nat)
    requires Enabled(s, Finish(g)) && OpenOk(o, s, n) && ClosedOk(o, s, n) && Counts(o, s)
    requires Alone(s, s.groups[g].worker.tx, g)
    ensures Counts(Note(o, s, Finish(g), n), Do(s, Finish(g)))
  {
    var x := s.groups[g].worker.tx;
    var e := Note(o, s, Finish(g), n);
    assert InFlight(s, x, g);
    assert e.closed[|o.closed|].p == x;
    forall p: nat | Processed(Do(s, Finish(g)), p)
      ensures exists k :: 0 <= k < |e.closed| && e.closed[k].p == p
    {
      if p != x {
        FinishProcessesOne(s, g, p);
        var k :| 0 <= k < |o.closed| && o.closed[k].p == p;
        assert e.closed[k].p == p;
      }
    }
    forall k | 0 <= k < |o.closed|
      ensures o.closed[k].p != x
    {
      assert Processed(s, o.closed[k].p);
    }
  }

  lemma FinishProcessesOne(s: State, g: nat, p: nat)
    requires Enabled(s, Finish(g)) && Processed(Do(s, Finish(g)), p) && p != s.groups[g].worker.tx
    ensures Processed(s, p)
  {
    var h: nat :| ProcessedAt(Do(s, Finish(g)), p, h);
    assert ProcessedAt(s, p, h);
  }

  lemma OtherCounts(o: Observed, s: State, x: Step, n: nat)
    requires Enabled(s, x) && !x.Recv? && !x.Finish? && Complete(o, s, n)
    ensures Complete(o, Do(s, x), n + 1)
  {
    OtherKeepsFlights(s, x);
    SameFlightsOpen(o, s, Do(s, x), n);
    SameFlightsClosed(o, s, Do(s, x), n);
    SameFlightsCount(o, s, Do(s, x));
  }

  lemma SameFlightsCount(o: Observed, s: State, t: State)
    requires Counts(o, s) && SameFlights(s, t)
    ensures Counts(o, t)
  {
    forall p: nat | Processed(t, p)
      ensures Processed(s, p)
    {
      var h: nat :| ProcessedAt(t, p, h);
      assert ProcessedAt(s, p, h);
    }
  }

  lemma LaterDated(o: Observed, max: nat, steps: seq<Step>, n: nat)
    requires n <= |steps| && Dated(o, max, steps[..n])
    ensures Dated(o, max, steps)
  {
    assert forall m :: 0 <= m <= n ==> steps[..n][..m] == steps[..m];
  }

  lemma NoteDated(o: Observed, max: nat, steps: seq<Step>, n: nat)
    requires n == |steps| - 1 && Runs.Valid(Machine(), Init(max), steps[..n]) && Dated(o, max, steps)
    requires Enabled(Runs.After(Machine(), Init(max), steps[..n]), steps[n])
    ensures Dated(Note(o, Runs.After(Machine(), Init(max), steps[..n]), steps[n], n), max, steps)
  {
  }

  /** What an observer of any run has noted is complete: every processed payment has exactly one
      span, from the step in which a worker took it to the step in which ProcessTX returned. */
  lemma {:induction false} ObserverMissesNothing(max: nat, steps: seq<Step>)
    requires Runs.Valid(Machine(), Init(max), steps)
    ensures Complete(Observe(max, steps), Runs.After(Machine(), Init(max), steps), |steps|)
    ensures Dated(Observe(max, steps), max, steps)
    decreases |steps|
  {
    if steps != [] {
      var n := |steps| - 1;
      var s := Runs.After(Machine(), Init(max), steps[..n]);
      ObserverMissesNothing(max, steps[..n]);
      StartsAt(max, steps[..n]);
      StepCounts(Observe(max, steps[..n]), s, steps[n], n);
      LaterDated(Observe(max, steps[..n]), max, steps, n);
      NoteDated(Observe(max, steps[..n]), max, steps, n);
    } else {
      assert Runs.After(Machine(), Init(max), steps) == Init(max);
    }
  }

  lemma StepCounts(o: Observed, s: State, x: Step, n: nat)
    requires Reachable(s) && Enabled(s, x) && Complete(o, s, n)
    ensures Complete(Note(o, s, x, n), Do(s, x), n + 1)
  {
    if x.Recv? {
      RecvCounts(o, s, x.g, n);
    } else if x.Finish? {
      FinishCounts(o, s, x.g, n);
    } else {
      OtherCounts(o, s, x, n);
    }
  }

  // ----- the records of a run -----

  /** The record of a processed payment, with times read from a clock. */
  function RecordOf(pay: seq<Payment>, clock: nat -> int, x: Span): H.Record
    requires x.p < |pay|
  {
    H.Record(pay[x.p].ete, clock(x.start), clock(x.end), pay[x.p].deb, pay[x.p].cred)
  }

  ghost function RecordsOf(max: nat, steps: seq<Step>, clock: nat -> int): seq<H.Record>
    requires SerialThroughout(max, steps)
  {
    ObserverIsRight(max, steps);
    var o, pay := Observe(max, steps).closed, Runs.After(Machine(), Init(max), steps).pay;
    seq(|o|, k requires 0 <= k < |o| && o[k].p < |pay| => RecordOf(pay, clock, o[k]))
  }

  ghost predicate DistinctEtes(pay: seq<Payment>) {
    forall p, q :: 0 <= p < q < |pay| ==> pay[p].ete != pay[q].ete
  }

  /** The history of every run that stays serial passes the check, whatever clock stamped
      it, as long as the clock never runs backwards and payments have distinct names. */
  lemma HistoryIsAccepted(max: nat, steps: seq<Step>, clock: nat -> int)
    requires SerialThroughout(max, steps)
    requires forall m: nat, n: nat :: m <= n ==> clock(m) <= clock(n)
    requires DistinctEtes(Runs.After(Machine(), Init(max), steps).pay)
    ensures var rs := RecordsOf(max, steps, clock);
      H.DistinctNames(rs) && H.Disjoint(rs) && H.FindsNothing(rs)
  {
    ObserverIsRight(max, steps);
    var rs := RecordsOf(max, steps, clock);
    var closed, pay := Observe(max, steps).closed, Runs.After(Machine(), Init(max), steps).pay;
    forall k, l | 0 <= k < l < |rs|
      ensures rs[k].ete != rs[l].ete
      ensures H.ShareIban(rs[k], rs[l]) ==> !H.Overlap(rs[k], rs[l])
    {
      var a, b := closed[k], closed[l];
      assert a.p != b.p;
      assert pay[a.p].ete != pay[b.p].ete;
      if H.ShareIban(rs[k], rs[l]) {
        assert Conflict(pay[a.p], pay[b.p]);
        assert Separate(a, b);
      }
    }
    H.SafetyIsExact(rs);
  }

  /** The history of such a run is complete: each processed payment has exactly one record, with
      its name and accounts, stamped when a worker took it and when ProcessTX returned. */
  lemma HistoryIsComplete(max: nat, steps: seq<Step>, clock: nat -> int, p: nat) returns (k: nat, m: nat, n: nat)
    requires SerialThroughout(max, steps) && Processed(Runs.After(Machine(), Init(max), steps), p)
    requires DistinctEtes(Runs.After(Machine(), Init(max), steps).pay)
    ensures var (rs, pay) := (RecordsOf(max, steps, clock), Runs.After(Machine(), Init(max), steps).pay);
      && p < |pay| && k < |rs| && TakenAt(max, steps, p, m) && EndedAt(max, steps, p, n)
      && rs[k] == H.Record(pay[p].ete, clock(m), clock(n), pay[p].deb, pay[p].cred)
      && forall l :: 0 <= l < |rs| && rs[l].ete == pay[p].ete ==> l == k
  {
    ObserverIsRight(max, steps);
    ObserverMissesNothing(max, steps);
    var closed := Observe(max, steps).closed;
    k :| 0 <= k < |closed| && closed[k].p == p;
    m, n := closed[k].start, closed[k].end;
    var rs, pay := RecordsOf(max, steps, clock), Runs.After(Machine(), Init(max), steps).pay;
    forall l | 0 <= l < |rs| && rs[l].ete == pay[p].ete
      ensures l == k
    {
      assert closed[l].p == p;
    }
  }

  /** On a transitive workload every run stays serial, so every history is accepted. */
  lemma TransitiveRunsAreSerial(max: nat, steps: seq<Step>)
    requires Runs.Valid(Machine(), Init(max), steps)
    requires Workload.Transitive(Runs.After(Machine(), Init(max), steps).pay)
    ensures SerialThroughout(max, steps)
  {
    forall n | 0 <= n <= |steps|
      ensures Runs.Valid(Machine(), Init(max), steps[..n]) && Serial(Runs.After(Machine(), Init(max), steps[..n]))
    {
      Runs.Prefix(Machine(), Init(max), steps, n);
      PaymentsGrow(max, steps, n);
      StartsAt(max, steps[..n]);
      var s := Runs.After(Machine(), Init(max), steps[..n]);
      Workload.PrefixIsTransitive(s.pay, Runs.After(Machine(), Init(max), steps).pay);
      Workload.TransitiveIsSerial(s);
    }
  }

  /** So does every run without a split and without an open merge window. */
  lemma WindowFreeRunsAreSerial(max: nat, steps: seq<Step>)
    requires Runs.Valid(Machine(), Init(max), steps)
    requires forall n :: 0 <= n <= |steps| && Runs.Valid(Machine(), Init(max), steps[..n]) ==>
      var s := Runs.After(Machine(), Init(max), steps[..n]);
      !s.split && forall g: nat :: !WindowOpen(s, g)
    ensures SerialThroughout(max, steps)
  {
    forall n | 0 <= n <= |steps|
      ensures Runs.Valid(Machine(), Init(max), steps[..n]) && Serial(Runs.After(Machine(), Init(max), steps[..n]))
    {
      Runs.Prefix(Machine(), Init(max), steps, n);
      StartsAt(max, steps[..n]);
      SerialOutsideWindows(Runs.After(Machine(), Init(max), steps[..n]));
    }
  }

  /** So does every run with one call of `add` at a time, such as the recovery of pending
      payments, merges and all. */
  lemma OneCallAtATimeRunsAreSerial(max: nat, steps: seq<Step>)
    requires Runs.Valid(Sequential.Machine(), Init(max), steps)
    ensures SerialThroughout(max, steps)
  {
    Sequential.RunInTurn(Init(max), steps);
    forall n | 0 <= n <= |steps|
      ensures Runs.Valid(Machine(), Init(max), steps[..n]) && Serial(Runs.After(Machine(), Init(max), steps[..n]))
    {
      Runs.Prefix(Sequential.Machine(), Init(max), steps, n);
      Sequential.RunInTurn(Init(max), steps[..n]);
      StartsAt(max, steps[..n]);
      Sequential.OneCallAtATimeIsSerial(Runs.After(Machine(), Init(max), steps[..n]));
    }
  }

  lemma {:induction false} PaymentsGrow(max: nat, steps: seq<Step>, n: nat)
    requires Runs.Valid(Machine(), Init(max), steps) && n <= |steps| && Runs.Valid(Machine(), Init(max), steps[..n])
    ensures Runs.After(Machine(), Init(max), steps[..n]).pay <= Runs.After(Machine(), Init(max), steps).pay
    decreases |steps|
  {
    if n == |steps| {
      assert steps[..n] == steps;
    } else {
      var m := |steps| - 1;
      assert steps[..m][..n] == steps[..n];
      PaymentsGrow(max, steps[..m], n);
      Workload.PayGrows(Runs.After(Machine(), Init(max), steps[..m]), steps[m]);
    }
  }
}
