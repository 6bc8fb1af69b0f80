/** When a re-check tears a connected component apart: which workloads can be split, and for
    which of them the index stops being the partition into connected components. */
module Splitting {
  import opened Common
  import opened MergeForest
  import opened DispatcherSteps
  import opened DispatcherInvariants
  import opened Serialisation
  import opened Workload
  import opened TwoWorkers
  import opened Cancellation
  import Components

  /** Payment j can take from k one of two IBANs: k has been given a group of its own, and the
      re-check of j moves the IBAN that both use. */
  predicate Detaches(w: seq<Payment>, i: nat, j: nat, k: nat) {
    Spans(w, i, j, k) && w[k].cred != w[k].deb
  }

  ghost predicate Detachable(w: seq<Payment>) {
    exists i: nat, j: nat, k: nat :: Detaches(w, i, j, k)
  }

  lemma LongerIsDetachable(v: seq<Payment>, w: seq<Payment>)
    requires v <= w && Detachable(v)
    ensures Detachable(w)
  {
    var i: nat, j: nat, k: nat :| Detaches(v, i, j, k);
    assert Detaches(w, i, j, k);
  }

  /** An indexed IBAN has its group in common with exactly what routed payments connect it to. */
  ghost predicate IndexIsPartition(s: State) {
    forall x, y :: x in s.index ==> (SameGroup(s, x, y) <==> Components.Connected(Components.PaymentGraph(s), x, y))
  }

  predicate SameGroup(s: State, x: Iban, y: Iban) {
    x in s.index && y in s.index && s.index[x] == s.index[y]
  }

  // ----- a harmless split -----

  /** Of the group that a re-check takes the debtor's IBAN from, only payments from that IBAN
      to itself can use it. */
  lemma OnlyLoops(s: State, j: nat, r: nat)
    requires Keyed(s) && Components.EdgesStayTogether(s) && !Detachable(s.pay)
    requires j < |s.pay| && j !in s.routed && s.pay[j].cred in s.index && s.pay[j].deb in s.index
    requires s.index[s.pay[j].cred] != s.index[s.pay[j].deb] && UsedBy(s, r, s.pay[j].deb)
    ensures s.pay[r].cred == s.pay[r].deb
  {
    assert Indexed(s, s.pay[j].cred);
    var q: nat :| UsedBy(s, q, s.pay[j].cred);
    assert !Conflict(s.pay[q], s.pay[r]);
    assert Spans(s.pay, q, j, r);
    assert !Detaches(s.pay, q, j, r);
  }

  lemma HarmlessSplit(s: State, j: nat)
    requires Keyed(s) && Components.EdgesStayTogether(s) && !Detachable(s.pay) && Enabled(s, Recheck(j))
    requires s.pay[j].cred in s.index && s.pay[j].deb in s.index && s.index[s.pay[j].cred] != s.index[s.pay[j].deb]
    ensures Components.EdgesStayTogether(Do(s, Recheck(j)))
  {
    NotYetRouted(s, j);
    forall r: nat | UsedBy(s, r, s.pay[j].deb)
      ensures s.pay[r].cred == s.pay[r].deb
    {
      OnlyLoops(s, j, r);
    }
    MovedAlone(s, Do(s, Recheck(j)), j, s.index[s.pay[j].cred]);
  }

  /** An IBAN moves to another group; whatever routed payment uses it uses no other. */
  lemma MovedAlone(s: State, t: State, j: nat, g: nat)
    requires Components.EdgesStayTogether(s) && j < |s.pay| && t.pay == s.pay && t.routed == s.routed + {j}
    requires s.pay[j].cred in s.index && s.index[s.pay[j].cred] == g
    requires t.index == s.index[s.pay[j].deb := g][s.pay[j].cred := g]
    requires forall r: nat :: UsedBy(s, r, s.pay[j].deb) ==> s.pay[r].cred == s.pay[r].deb
    ensures Components.EdgesStayTogether(t)
  {
    forall r | r in t.routed && r < |t.pay|
      ensures SameGroup(t, t.pay[r].cred, t.pay[r].deb)
    {
      if r != j {
        assert r in s.routed;
        if Uses(s.pay[r], s.pay[j].deb) {
          assert UsedBy(s, r, s.pay[j].deb);
        }
      }
    }
  }

  // ----- every schedule of an undetachable workload -----

  ghost predicate Whole(s: State) {
    Keyed(s) && (!Detachable(s.pay) ==> Components.EdgesStayTogether(s))
  }

  lemma RecheckStaysTogether(s: State, j: nat)
    requires Keyed(s) && Components.EdgesStayTogether(s) && !Detachable(s.pay) && Enabled(s, Recheck(j))
    ensures Components.EdgesStayTogether(Do(s, Recheck(j)))
  {
    var p := s.pay[j];
    if p.cred in s.index && p.deb in s.index && s.index[p.cred] != s.index[p.deb] {
      HarmlessSplit(s, j);
    } else {
      Components.RecheckKeepsTogether(s, j);
    }
  }

  lemma StepStaysTogether(s: State, step: Step)
    requires Keyed(s) && Components.EdgesStayTogether(s) && !Detachable(s.pay) && Enabled(s, step)
    ensures Components.EdgesStayTogether(Do(s, step))
  {
    if step.Route? {
      Components.RouteKeepsTogether(s, step.i);
    } else if step.Recheck? {
      RecheckStaysTogether(s, step.i);
    } else {
      Components.OtherStepIsQuiet(s, step);
      assert forall i :: i in s.routed ==> i < |s.pay|;
    }
  }

  lemma StepStaysWhole(s: State, step: Step)
    requires Whole(s) && Enabled(s, step)
    ensures Whole(Do(s, step))
  {
    StepKeyed(s, step);
    PayGrows(s, step);
    if !Detachable(Do(s, step).pay) {
      if Detachable(s.pay) {
        LongerIsDetachable(s.pay, Do(s, step).pay);
      }
      StepStaysTogether(s, step);
    }
  }

  lemma ReachableWhole(s: State)
    requires Reachable(s)
    ensures Whole(s)
  {
    forall t, x | Whole(t) && Enabled(t, x)
      ensures Whole(Do(t, x))
    {
      StepStaysWhole(t, x);
    }
    ReachableHas(s, t => Whole(t));
  }

  /** Splits included, the index is the partition into connected components. */
  lemma UndetachableIsPartition(s: State)
    requires Reachable(s) && !Detachable(s.pay)
    ensures IndexIsPartition(s)
  {
    ReachableWhole(s);
    Components.ReachablePartitioned(s);
    var e := Components.PaymentGraph(s);
    forall x, y | x in s.index && Components.Connected(e, x, y)
      ensures SameGroup(s, x, y)
    {
      var path :| Components.Joins(e, path, x, y);
      Components.PathStaysInGroup(s, path, x, y);
    }
  }

  // ----- the schedule that splits, with as little as one slot -----

  /** Three calls pass the first look-up together; none of them has a slot yet. */
  lemma ThreeWait(max: nat, w: seq<Payment>, i: nat, j: nat, k: nat) returns (s: State)
    requires i < |w| && j < |w| && k < |w| && i != j && j != k && i != k
    ensures Reachable(s) && s == Init(max).(pay := w, adders := s.adders) && |s.adders| == |w|
    ensures s.adders[i].WaitSlot? && s.adders[j].WaitSlot? && s.adders[k].WaitSlot?
  {
    s := AllSubmitted(max, w);
    s := WaitForSlot(s, i);
    s := WaitForSlot(s, j);
    s := WaitForSlot(s, k);
  }

  /** Payments i and k are about to be sent to a group each, and call j still waits. */
  lemma TwoDead(max: nat, w: seq<Payment>, i: nat, j: nat, k: nat) returns (s: State)
    requires max >= 1 && Spans(w, i, j, k)
    ensures Reachable(s) && s.max == max && s.pay == w && |s.adders| == |w| && s.mu.None? && s.sem == 0 && s.log == []
    ensures s.groups == [DeadGroup(0), DeadGroup(1)] && s.routed == {i, k}
    ensures s.adders[j].WaitSlot? && s.adders[k] == Sending(1)
    ensures s.index == map[][w[i].deb := 0][w[i].cred := 0][w[k].deb := 1][w[k].cred := 1]
  {
    s := ThreeWait(max, w, i, j, k);
    s := OpenDead(s, i);
    s := OpenDead(s, k);
  }

  /** The re-check of j has moved the debtor's IBAN, which k uses, to the group of i. */
  lemma SplitHappensWithOneSlot(max: nat, w: seq<Payment>, i: nat, j: nat, k: nat) returns (s: State)
    requires max >= 1 && Spans(w, i, j, k)
    ensures Reachable(s) && s.max == max && s.pay == w && |s.adders| == |w| && s.split && s.log == []
    ensures k in s.routed && |s.groups| == 2 && s.adders[k] == Sending(1)
    ensures w[j].deb in s.index && s.index[w[j].deb] == 0
    ensures forall x :: Uses(w[k], x) && x != w[j].deb ==> x in s.index && s.index[x] == 1
  {
    s := TwoDead(max, w, i, j, k);
    s := AcquireSlot(s, j);
    s := MoveDebtor(s, j);
  }

  lemma MoveDebtor(s: State, j: nat) returns (t: State)
    requires Reachable(s) && IsAdder(s, j) && |s.adders| == |s.pay| && s.adders[j].HoldSlot? && s.mu.None? && 0 < s.sem
    requires s.pay[j].cred in s.index && s.pay[j].deb in s.index
    ensures var g := s.index[s.pay[j].cred];
      && Reachable(t)
      && t == s.(adders := s.adders[j := Sending(g)], sem := s.sem - 1, routed := s.routed + {j},
                 index := s.index[s.pay[j].deb := g][s.pay[j].cred := g], split := t.split)
      && (g != s.index[s.pay[j].deb] ==> t.split)
  {
    Go(s, Recheck(j));
    t := Do(s, Recheck(j));
  }

  /** A payment with two IBANs connects them, but they have different groups. */
  lemma ComponentFallsApart(max: nat, w: seq<Payment>, i: nat, j: nat, k: nat) returns (s: State)
    requires max >= 1 && Detaches(w, i, j, k)
    ensures Reachable(s) && s.max == max && s.pay == w && k in s.routed
    ensures w[k].cred in s.index && w[k].deb in s.index && s.index[w[k].cred] != s.index[w[k].deb]
    ensures Components.Connected(Components.PaymentGraph(s), w[k].cred, w[k].deb)
  {
    s := SplitHappensWithOneSlot(max, w, i, j, k);
    assert (w[k].cred, w[k].deb) in Components.PaymentGraph(s);
    Components.EdgeConnects(Components.PaymentGraph(s), w[k].cred, w[k].deb);
  }

  // ----- exactly when -----

  /** All IBANs of a connected component point at one group, and only they, under every
      schedule exactly if there is no slot or no payment with two IBANs can be detached. */
  lemma IndexIsPartitionExactly(max: nat, w: seq<Payment>)
    ensures (forall s :: Reachable(s) && s.max == max && s.pay <= w ==> IndexIsPartition(s)) <==>
      max == 0 || !Detachable(w)
  {
    if max >= 1 && Detachable(w) {
      var i: nat, j: nat, k: nat :| Detaches(w, i, j, k);
      var s := ComponentFallsApart(max, w, i, j, k);
      assert !SameGroup(s, w[k].cred, w[k].deb);
    } else {
      forall s | Reachable(s) && s.max == max && s.pay <= w
        ensures IndexIsPartition(s)
      {
        if max == 0 {
          ReachableSlotless(s);
        } else {
          if Detachable(s.pay) {
            LongerIsDetachable(s.pay, w);
          }
          UndetachableIsPartition(s);
        }
      }
    }
  }

  /** Some re-check can find two different groups exactly if there is a slot and sharing an
      IBAN is not transitive on the workload. */
  lemma SplitExactly(max: nat, w: seq<Payment>)
    ensures (exists s :: Reachable(s) && s.max == max && s.pay <= w && s.split) <==> max >= 1 && !Transitive(w)
  {
    if max >= 1 && !Transitive(w) {
      var i, j, k := NonTransitiveSpans(w);
      var s := SplitHappensWithOneSlot(max, w, i, j, k);
    }
    forall s | Reachable(s) && s.max == max && s.pay <= w && s.split
      ensures max >= 1 && !Transitive(w)
    {
      ReachableSlotless(s);
      if Transitive(w) {
        PrefixIsTransitive(s.pay, w);
        ReachableCalm(s);
      }
    }
  }

  /** What is held at a group is indexed at its root. */
  ghost predicate HeldFollowsIndex(s: State) {
    forall p: nat, g: nat :: HeldAt(s, p, g) ==> IndexedAt(s, p, g)
  }

  /** Payments are held where the index points, under every schedule, exactly if there is no
      slot or sharing an IBAN is transitive on the workload. */
  lemma HeldFollowsIndexExactly(max: nat, w: seq<Payment>)
    ensures (forall s :: Reachable(s) && s.max == max && s.pay <= w ==> HeldFollowsIndex(s)) <==>
      max == 0 || Transitive(w)
  {
    if max >= 1 && !Transitive(w) {
      var i, j, k := NonTransitiveSpans(w);
      var s := SplitHappensWithOneSlot(max, w, i, j, k);
      assert HeldAt(s, k, 1) && !IndexedAt(s, k, 1);
    } else {
      forall s | Reachable(s) && s.max == max && s.pay <= w
        ensures HeldFollowsIndex(s)
      {
        UnsplitFollowsIndex(s, w);
      }
    }
  }

  lemma UnsplitFollowsIndex(s: State, w: seq<Payment>)
    requires Reachable(s) && s.pay <= w && (s.max == 0 || Transitive(w))
    ensures HeldFollowsIndex(s)
  {
    if s.split {
      ReachableSlotless(s);
      PrefixIsTransitive(s.pay, w);
      ReachableCalm(s);
    }
    forall p: nat, g: nat | HeldAt(s, p, g)
      ensures IndexedAt(s, p, g)
    {
      HeldPaymentsFollowIndex(s, p, g);
    }
  }
}
