/** With exactly two worker slots: which workloads are processed serially by every schedule. */
module TwoWorkers {
  import opened Common
  import opened DispatcherSteps
  import opened DispatcherInvariants
  import opened Serialisation
  import opened Workload
  import Components
  import Semaphore
  import Timeline

  /** Payment j would merge the group of k into the group of i, which have no IBAN in common. */
  predicate Spans(w: seq<Payment>, i: nat, j: nat, k: nat) {
    && i < |w| && j < |w| && k < |w| && i != j && j != k
    && Uses(w[i], w[j].cred) && Uses(w[k], w[j].deb) && !Conflict(w[i], w[k])
  }

  /** Besides, a fourth payment shares an IBAN with k, and can overtake it while the merge
      waits for k. */
  predicate Overtaken(w: seq<Payment>, i: nat, j: nat, k: nat, q: nat) {
    Spans(w, i, j, k) && q < |w| && q != j && q != k && Conflict(w[q], w[k])
  }

  ghost predicate Bridged(w: seq<Payment>) {
    exists i: nat, j: nat, k: nat, q: nat :: Overtaken(w, i, j, k, q)
  }

  lemma LongerIsBridged(v: seq<Payment>, w: seq<Payment>)
    requires v <= w && Bridged(v)
    ensures Bridged(w)
  {
    var i: nat, j: nat, k: nat, q: nat :| Overtaken(v, i, j, k, q);
    assert Overtaken(w, i, j, k, q);
  }

  // ----- a bridged workload has a bad schedule -----

  lemma JoinOne(s: State, i: nat, g: nat) returns (t: State)
    requires Reachable(s) && IsAdder(s, i) && |s.adders| == |s.pay| && s.adders[i].Start? && s.mu.None? && !s.root
    requires g < |s.groups| && (s.pay[i].cred in s.index || s.pay[i].deb in s.index)
    requires forall x :: x in s.index && Uses(s.pay[i], x) ==> s.index[x] == g
    ensures Reachable(t) && t.adders == s.adders[i := Sending(g)] && t.groups == s.groups && t.pay == s.pay
      && t.max == s.max
    ensures t.split == s.split
  {
    Go(s, Route(i));
    t := Do(s, Route(i));
  }

  lemma TwoGroupsOpen(max: nat, w: seq<Payment>, i: nat, k: nat) returns (s: State)
    requires max >= 2 && i < |w| && k < |w| && i != k && !Conflict(w[i], w[k])
    ensures Reachable(s) && s.max == max && s.pay == w && |s.adders| == |w| && s.mu.None? && !s.root && !s.split
    ensures s.groups == [NewGroup(0), NewGroup(1)] && s.adders[i] == Sending(0) && s.adders[k] == Sending(1)
    ensures forall j :: 0 <= j < |w| && j != i && j != k ==> s.adders[j].Start?
    ensures s.index == map[][w[i].deb := 0][w[i].cred := 0][w[k].deb := 1][w[k].cred := 1]
  {
    s := AllSubmitted(max, w);
    s := RouteAndAcquire(s, i);
    s := RouteAndAcquire(s, k);
    s := OpenGroup(s, i);
    s := OpenGroup(s, k);
  }

  /** Payment i is done, k is in flight, and j waits to merge k's group into i's. */
  lemma MergeWaits(max: nat, w: seq<Payment>, i: nat, j: nat, k: nat) returns (s: State)
    requires max >= 2 && Spans(w, i, j, k)
    ensures Reachable(s) && s.max == max && s.pay == w && |s.adders| == |w| && s.mu.None? && !s.root && !s.split
    ensures |s.groups| == 2
    ensures s.groups[0].worker.Idle? && s.groups[0].ch == [] && s.groups[1].worker == Busy(k) && WindowOpen(s, 1)
    ensures forall x :: x in s.index <==> Uses(w[i], x) || Uses(w[k], x)
    ensures forall x :: x in s.index ==> s.index[x] == 0
    ensures forall q :: 0 <= q < |w| && q != i && q != j && q != k ==> s.adders[q].Start?
  {
    s := OneDoneOneBusy(max, w, i, k);
    s := StartMerge(s, j);
  }

  lemma OneDoneOneBusy(max: nat, w: seq<Payment>, i: nat, k: nat) returns (s: State)
    requires max >= 2 && i < |w| && k < |w| && i != k && !Conflict(w[i], w[k])
    ensures Reachable(s) && s.max == max && s.pay == w && |s.adders| == |w| && s.mu.None? && !s.root && !s.split
    ensures |s.groups| == 2
    ensures s.groups[0].worker.Idle? && s.groups[0].ch == [] && s.groups[1].worker == Busy(k) && !s.groups[1].drainReady
    ensures forall j :: 0 <= j < |w| && j != i && j != k ==> s.adders[j].Start?
    ensures s.index == map[][w[i].deb := 0][w[i].cred := 0][w[k].deb := 1][w[k].cred := 1]
  {
    s := TwoGroupsOpen(max, w, i, k);
    s := FirstDoneSecondBusy(s, i, k);
  }

  /** Payment q overtakes k. */
  lemma Overtake(max: nat, w: seq<Payment>, i: nat, j: nat, k: nat, q: nat) returns (s: State)
    requires max >= 2 && Overtaken(w, i, j, k, q)
    ensures Reachable(s) && s.max == max && s.pay == w && !Serial(s)
    ensures !s.split && WindowOpen(s, 1) && InFlight(s, k, 1) && InFlight(s, q, 0)
  {
    s := MergeWaits(max, w, i, j, k);
    s := JoinOne(s, q, 0);
    s := SendAndReceive(s, q, 0);
    assert InFlight(s, k, 1) && InFlight(s, q, 0);
  }

  /** The merge window is real: with two workers and no split, two payments between the
      same accounts can be in flight at once, one with each of the merging groups. */
  lemma MergeWindowOverlap() returns (s: State)
    ensures Reachable(s) && s.max == 2 && !s.split && !Serial(s)
    ensures |s.pay| == 4 && s.pay[1].cred == s.pay[3].cred && s.pay[1].deb == s.pay[3].deb
    ensures InFlight(s, 1, 1) && InFlight(s, 3, 0) && WindowOpen(s, 1)
  {
    var w := [Payment("1", "1", "a", "b"), Payment("2", "2", "c", "d"),
              Payment("3", "3", "a", "c"), Payment("4", "4", "c", "d")];
    s := Overtake(2, w, 0, 2, 1, 3);
  }

  // ----- an unbridged workload has none -----

  /** All that k shares IBANs with is j. */
  lemma OnlyNeighbour(w: seq<Payment>, i: nat, j: nat, k: nat, q: nat)
    requires !Bridged(w) && Spans(w, i, j, k) && q < |w| && Conflict(w[q], w[k])
    ensures q == j || q == k
  {
    assert !Overtaken(w, i, j, k, q);
  }

  /** Payment p has been, or will be, sent to group g. */
  predicate Home(s: State, p: nat, g: nat) {
    g < |s.groups| && ((p < |s.adders| && Target(s.adders[p]) == Some(g)) || p in s.groups[g].sent)
  }

  predicate Arrived(s: State, p: nat, g: nat) {
    g < |s.groups| && ((p < |s.adders| && s.adders[p] == Sending(g)) || p in s.groups[g].sent)
  }

  predicate Merges(s: State, m: nat) {
    m < |s.adders| && (s.adders[m].MergeWait? || s.adders[m].Draining?)
  }

  predicate IndexedBoth(s: State, p: nat, g: nat) {
    && p < |s.pay| && s.pay[p].cred in s.index && s.pay[p].deb in s.index
    && s.index[s.pay[p].cred] == g && s.index[s.pay[p].deb] == g
  }

  predicate Attached(s: State, p: nat, g: nat) {
    g < |s.groups| && !s.groups[g].merging && IndexedBoth(s, p, g)
  }

  /** A routed payment has spanned p and some other payment. */
  ghost predicate Spanned(s: State, p: nat) {
    exists i, j :: j in s.routed && Spans(s.pay, i, j, p)
  }

  /** p is all that group g has ever had, and has been cut off by the payment that spanned it. */
  ghost predicate CutOff(s: State, p: nat, g: nat) {
    && (forall q: nat :: Home(s, q, g) ==> q == p)
    && (forall x :: x in s.index && s.index[x] == g ==> p < |s.pay| && Uses(s.pay[p], x))
    && Spanned(s, p)
  }

  ghost predicate Together(s: State) {
    forall p :: p in s.routed && p < |s.pay| ==>
      && s.pay[p].cred in s.index && s.pay[p].deb in s.index
      && (s.index[s.pay[p].cred] == s.index[s.pay[p].deb] || Spanned(s, p))
  }

  ghost predicate HomesOk(s: State) {
    forall p: nat, g: nat :: Home(s, p, g) ==> p in s.routed && p < |s.pay| && (Attached(s, p, g) || CutOff(s, p, g))
  }

  /** What a merging call can rely on. */
  ghost predicate MergerOk(s: State, m: nat)
    requires Merges(s, m)
  {
    && (exists i, k :: i in s.routed && k in s.routed && Spans(s.pay, i, m, k))
    && (forall q: nat :: Home(s, q, s.adders[m].from) ==>
          q != m && IndexedBoth(s, q, s.adders[m].into) && Shares(s.pay, q, m))
    && (forall p: nat, g: nat :: Home(s, p, g) && !Attached(s, p, g) && p != m && Shares(s.pay, p, m) ==>
          g == s.adders[m].from)
  }

  ghost predicate MergersOk(s: State) {
    forall m :: Merges(s, m) ==> MergerOk(s, m)
  }

  /** Of a payment that was cut off and one that conflicts with it, one is with a group
      whose worker has stopped. */
  ghost predicate OneStopped(s: State) {
    forall p: nat, g: nat, j: nat, h: nat ::
      Home(s, p, g) && !Attached(s, p, g) && Arrived(s, j, h) && p != j && Shares(s.pay, p, j) ==>
        Stopped(s.groups[g].worker) || Stopped(s.groups[h].worker)
  }

  ghost predicate Kept(s: State) {
    KeysRouted(s) && Together(s) && HomesOk(s) && MergersOk(s) && OneStopped(s)
  }

  // ----- the two groups that a payment is about to bridge -----

  lemma SpannedIsShy(s: State, p: nat, j: nat)
    requires !Bridged(s.pay) && Spanned(s, p) && j < |s.pay| && j !in s.routed && p in s.routed && p < |s.pay|
    ensures !Conflict(s.pay[j], s.pay[p])
  {
    var a, b :| b in s.routed && Spans(s.pay, a, b, p);
    if Conflict(s.pay[j], s.pay[p]) {
      OnlyNeighbour(s.pay, a, b, p, j);
    }
  }

  /** A group that a newcomer's IBAN is in has only attached payments. */
  lemma NewcomersGroup(s: State, j: nat, x: Iban, p: nat, g: nat)
    requires !Bridged(s.pay) && HomesOk(s) && j < |s.pay| && j !in s.routed
    requires Uses(s.pay[j], x) && x in s.index && s.index[x] == g && Home(s, p, g)
    ensures Attached(s, p, g)
  {
    if !Attached(s, p, g) {
      assert CutOff(s, p, g);
      SpannedIsShy(s, p, j);
    }
  }

  /** Routed payments that touch the IBANs of k are k itself; so its component is alone. */
  lemma {:induction false} Island(s: State, k: nat, path: seq<Iban>, x: Iban, y: Iban)
    requires k < |s.pay| && Components.Joins(Components.PaymentGraph(s), path, x, y) && Uses(s.pay[k], x)
    requires forall r :: r in s.routed && r < |s.pay| && Conflict(s.pay[r], s.pay[k]) ==> r == k
    ensures Uses(s.pay[k], y)
    decreases |path|
  {
    if |path| > 1 {
      var n := |path| - 1;
      var e := Components.PaymentGraph(s);
      var q := path[..n];
      assert forall l :: 0 <= l < |q| - 1 ==> Components.Linked(e, path[l], path[l + 1]);
      Island(s, k, q, x, path[n - 1]);
      assert Components.Linked(e, path[n - 1], path[n - 1 + 1]);
    }
  }

  /** The routed payment that uses an indexed IBAN of a newcomer is indexed at one group. */
  lemma UserOf(s: State, j: nat, x: Iban) returns (r: nat)
    requires !Bridged(s.pay) && KeysRouted(s) && Together(s) && j < |s.pay| && j !in s.routed
    requires Uses(s.pay[j], x) && x in s.index
    ensures r in s.routed && r < |s.pay| && r != j && Uses(s.pay[r], x) && IndexedBoth(s, r, s.index[x])
  {
    assert Indexed(s, x);
    r :| UsedBy(s, r, x);
    if Spanned(s, r) {
      SpannedIsShy(s, r, j);
    }
  }

  ghost predicate Lone(s: State, k: nat, b: nat) {
    && (forall p: nat :: Home(s, p, b) ==> p == k)
    && (forall x :: x in s.index && s.index[x] == b ==> k < |s.pay| && Uses(s.pay[k], x))
  }

  /** The group on the debtor's side has one payment only. */
  lemma Corner(s: State, j: nat, a: nat, b: nat) returns (i: nat, k: nat)
    requires Components.Partitioned(s) && Kept(s) && !Bridged(s.pay) && j < |s.pay| && j !in s.routed && a != b
    requires s.pay[j].cred in s.index && s.index[s.pay[j].cred] == a
    requires s.pay[j].deb in s.index && s.index[s.pay[j].deb] == b
    ensures i in s.routed && k in s.routed && Spans(s.pay, i, j, k)
    ensures IndexedBoth(s, i, a) && IndexedBoth(s, k, b) && Lone(s, k, b)
  {
    i := UserOf(s, j, s.pay[j].cred);
    k := UserOf(s, j, s.pay[j].deb);
    assert Spans(s.pay, i, j, k);
    forall r | r in s.routed && r < |s.pay| && Conflict(s.pay[r], s.pay[k])
      ensures r == k
    {
      OnlyNeighbour(s.pay, i, j, k, r);
    }
    forall x | x in s.index && s.index[x] == b
      ensures Uses(s.pay[k], x)
    {
      assert Components.Connected(Components.PaymentGraph(s), s.pay[k].cred, x);
      var path :| Components.Joins(Components.PaymentGraph(s), path, s.pay[k].cred, x);
      Island(s, k, path, s.pay[k].cred, x);
    }
    forall p: nat | Home(s, p, b)
      ensures p == k
    {
      NewcomersGroup(s, j, s.pay[j].deb, p, b);
    }
  }

  // ----- steps that route nothing -----

  /** Nothing is routed, sent or merged; workers only get further, calls only give up. */
  ghost predicate Settles(s: State, t: State) {
    Rests(s, t) && forall p: nat, g: nat :: Arrived(t, p, g) ==> Arrived(s, p, g)
  }

  /** The same, except that a merging call may have begun to send. */
  ghost predicate Rests(s: State, t: State) {
    && s.pay <= t.pay && t.index == s.index && t.routed == s.routed && |t.groups| == |s.groups|
    && (forall g :: 0 <= g < |s.groups| ==>
          t.groups[g].merging == s.groups[g].merging && (Stopped(s.groups[g].worker) ==> Stopped(t.groups[g].worker)))
    && (forall p: nat, g: nat :: Home(t, p, g) ==> Home(s, p, g))
    && (forall m: nat :: Merges(t, m) ==>
          Merges(s, m) && t.adders[m].into == s.adders[m].into && t.adders[m].from == s.adders[m].from)
  }

  lemma StillSpanned(s: State, t: State, p: nat)
    requires s.pay <= t.pay && s.routed <= t.routed && Spanned(s, p)
    ensures Spanned(t, p)
  {
    var i, j :| j in s.routed && Spans(s.pay, i, j, p);
    assert Spans(t.pay, i, j, p);
  }

  lemma SettledHomes(s: State, t: State)
    requires Rests(s, t) && HomesOk(s)
    ensures HomesOk(t)
  {
    forall p: nat, g: nat | Home(t, p, g)
      ensures p in t.routed && p < |t.pay| && (Attached(t, p, g) || CutOff(t, p, g))
    {
      assert Home(s, p, g);
      if !Attached(s, p, g) {
        StillSpanned(s, t, p);
      }
    }
  }

  lemma SettledTogether(s: State, t: State)
    requires Rests(s, t) && Together(s) && forall p :: p in s.routed ==> p < |s.pay|
    ensures Together(t)
  {
    forall p | p in t.routed && p < |t.pay|
      ensures t.pay[p].cred in t.index && t.pay[p].deb in t.index
      ensures t.index[t.pay[p].cred] == t.index[t.pay[p].deb] || Spanned(t, p)
    {
      if Spanned(s, p) {
        StillSpanned(s, t, p);
      }
    }
  }

  lemma SettledMerger(s: State, t: State, m: nat)
    requires Rests(s, t) && HomesOk(s) && Merges(t, m) && MergerOk(s, m) && m < |s.pay|
    ensures MergerOk(t, m)
  {
    var i, k :| i in s.routed && k in s.routed && Spans(s.pay, i, m, k);
    assert Spans(t.pay, i, m, k);
    forall p: nat, g: nat | Home(t, p, g) && !Attached(t, p, g) && p != m && Shares(t.pay, p, m)
      ensures g == t.adders[m].from
    {
      assert Home(s, p, g) && Shares(s.pay, p, m);
    }
    forall q: nat | Home(t, q, t.adders[m].from)
      ensures q != m && IndexedBoth(t, q, t.adders[m].into) && Shares(t.pay, q, m)
    {
      assert Home(s, q, s.adders[m].from);
    }
  }

  lemma SettledStopped(s: State, t: State)
    requires Settles(s, t) && OneStopped(s) && HomesOk(s) && forall p :: p in s.routed ==> p < |s.pay|
    requires forall p: nat, g: nat :: Arrived(s, p, g) ==> p in s.routed
    ensures OneStopped(t)
  {
    forall p: nat, g: nat, j: nat, h: nat |
      Home(t, p, g) && !Attached(t, p, g) && Arrived(t, j, h) && p != j && Shares(t.pay, p, j)
      ensures Stopped(t.groups[g].worker) || Stopped(t.groups[h].worker)
    {
      assert Home(s, p, g) && !Attached(s, p, g) && Arrived(s, j, h) && Shares(s.pay, p, j);
    }
  }

  lemma SettledKept(s: State, t: State)
    requires Settles(s, t) && Kept(s) && Inv(s)
    ensures Kept(t)
  {
    ArrivedIsRouted(s);
    RestedKept(s, t);
    SettledStopped(s, t);
  }

  lemma RestedKept(s: State, t: State)
    requires Rests(s, t) && Kept(s) && Inv(s)
    ensures KeysRouted(t) && Together(t) && HomesOk(t) && MergersOk(t)
  {
    ArrivedIsRouted(s);
    SettledKeys(s, t);
    SettledTogether(s, t);
    SettledHomes(s, t);
    forall m: nat | Merges(t, m)
      ensures MergerOk(t, m)
    {
      SettledMerger(s, t, m);
    }
  }

  lemma ArrivedIsRouted(s: State)
    requires Inv(s)
    ensures forall p :: p in s.routed ==> p < |s.pay|
    ensures forall p: nat, g: nat :: Arrived(s, p, g) ==> p in s.routed
    ensures forall p: nat, g: nat :: Home(s, p, g) ==> p in s.routed
  {
    forall p: nat, g: nat | Home(s, p, g)
      ensures p in s.routed
    {
      if p !in s.groups[g].sent {
        assert AdderOk(s.adders[p], p, s.groups, s.log, s.routed, s.mu);
      }
    }
    assert forall p: nat, g: nat :: Arrived(s, p, g) ==> Home(s, p, g);
  }

  lemma SettledKeys(s: State, t: State)
    requires Rests(s, t) && KeysRouted(s) && forall p :: p in s.routed ==> p < |s.pay|
    ensures KeysRouted(t)
  {
    forall x | Indexed(t, x)
      ensures exists i :: UsedBy(t, i, x)
    {
      assert Indexed(s, x);
      var i :| UsedBy(s, i, x);
      assert UsedBy(t, i, x);
    }
  }

  /** The steps of workers and contexts, and those of calls that route and move nothing. */
  lemma WorkerSettles(s: State, step: Step)
    requires Enabled(s, step) && Mover(step).None? && !step.Submit? && !step.Shutdown?
    ensures Settles(s, Do(s, step))
  {
    var t := Do(s, step);
    var g := Touched(s, step).value;
    assert t == s.(groups := s.groups[g := t.groups[g]], sem := t.sem, wg := t.wg);
    OneGroupSettles(s, t, g);
  }

  lemma OneGroupSettles(s: State, t: State, g: nat)
    requires g < |s.groups| == |t.groups| && t == s.(groups := s.groups[g := t.groups[g]], sem := t.sem, wg := t.wg)
    requires t.groups[g].sent == s.groups[g].sent && t.groups[g].merging == s.groups[g].merging
    requires Stopped(s.groups[g].worker) ==> Stopped(t.groups[g].worker)
    ensures Settles(s, t)
  {
  }

  lemma OutsideSettles(s: State, step: Step)
    requires step.Submit? || step == Shutdown
    requires Enabled(s, step)
    ensures Settles(s, Do(s, step))
  {
  }

  lemma SelectSettles(s: State, step: Step)
    requires Enabled(s, step) && (step.Acquire? || step.GiveUp? || step.LockDrain?)
    ensures Settles(s, Do(s, step))
  {
  }

  lemma TakeSettles(s: State, i: nat)
    requires Enabled(s, Take(i))
    ensures Settles(s, Do(s, Take(i)))
  {
  }

  lemma SendSettles(s: State, i: nat)
    requires Enabled(s, Send(i))
    ensures Settles(s, Do(s, Send(i)))
  {
  }

  /** Routing to WaitSlot or, after a shutdown, to Rejected. */
  lemma WaitSettles(s: State, i: nat)
    requires Enabled(s, Route(i)) && (s.root || (s.pay[i].cred !in s.index && s.pay[i].deb !in s.index))
    ensures Settles(s, Do(s, Route(i)))
  {
  }

  // ----- a payment joins a group, or opens one -----

  ghost predicate Joined(s: State, t: State, j: nat, g: nat) {
    && t.pay == s.pay && j < |s.pay| && j < |s.adders| && j !in s.routed && t.routed == s.routed + {j}
    && Target(s.adders[j]).None? && !Merges(s, j) && t.adders == s.adders[j := Sending(g)]
    && |s.groups| <= |t.groups| && g < |t.groups| && !t.groups[g].merging
    && (forall h :: 0 <= h < |s.groups| ==> t.groups[h] == s.groups[h])
    && (forall h :: |s.groups| <= h < |t.groups| ==> t.groups[h].sent == [])
    && (forall i :: 0 <= i < |s.adders| && Target(s.adders[i]).Some? ==> Target(s.adders[i]).value < |s.groups|)
    && t.index == s.index[s.pay[j].deb := g][s.pay[j].cred := g]
    && (forall x :: x in s.index && Uses(s.pay[j], x) ==> s.index[x] == g)
    && (g == |s.groups| || s.pay[j].cred in s.index || s.pay[j].deb in s.index)
  }

  ghost predicate MergersFlagged(s: State) {
    forall m: nat :: Merges(s, m) ==>
      && m in s.routed && s.adders[m].from < |s.groups| && s.groups[s.adders[m].from].merging
      && s.adders[m].into < |s.groups|
  }

  lemma MergersAreFlagged(s: State)
    requires Inv(s)
    ensures MergersFlagged(s)
  {
    forall m: nat | Merges(s, m)
      ensures m in s.routed && s.adders[m].from < |s.groups| && s.groups[s.adders[m].from].merging
      ensures s.adders[m].into < |s.groups|
    {
      assert AdderOk(s.adders[m], m, s.groups, s.log, s.routed, s.mu);
      var n :| 0 <= n < |s.log| && s.log[n].src == s.adders[m].from && s.log[n].dst == s.adders[m].into;
    }
  }

  lemma JoinedHome(s: State, t: State, j: nat, g: nat, p: nat, h: nat)
    requires Joined(s, t, j, g) && HomesOk(s)
    ensures Home(t, p, h) <==> Home(s, p, h) || (p == j && h == g)
    ensures Arrived(t, p, h) <==> Arrived(s, p, h) || (p == j && h == g)
    ensures Home(s, p, h) ==> p != j
  {
    assert Arrived(s, p, h) ==> Home(s, p, h);
  }

  lemma JoinedAttached(s: State, t: State, j: nat, g: nat, p: nat, h: nat)
    requires Joined(s, t, j, g) && Kept(s) && Home(s, p, h)
    ensures Attached(t, p, h) <==> Attached(s, p, h)
  {
  }

  /** Nothing that was cut off is in the group that a newcomer joins. */
  lemma JoinedGroupIsAttached(s: State, t: State, j: nat, g: nat, p: nat)
    requires Joined(s, t, j, g) && Kept(s) && !Bridged(s.pay) && Home(s, p, g)
    ensures Attached(s, p, g)
  {
    if s.pay[j].cred in s.index {
      NewcomersGroup(s, j, s.pay[j].cred, p, g);
    } else {
      NewcomersGroup(s, j, s.pay[j].deb, p, g);
    }
  }

  lemma JoinedHomes(s: State, t: State, j: nat, g: nat)
    requires Joined(s, t, j, g) && Kept(s) && !Bridged(s.pay)
    ensures HomesOk(t)
  {
    forall p: nat, h: nat | Home(t, p, h)
      ensures p in t.routed && p < |t.pay| && (Attached(t, p, h) || CutOff(t, p, h))
    {
      JoinedHome(s, t, j, g, p, h);
      if p != j {
        JoinedAttached(s, t, j, g, p, h);
        if !Attached(s, p, h) {
          JoinedCutOff(s, t, j, g, p, h);
        }
      }
    }
  }

  lemma JoinedCutOff(s: State, t: State, j: nat, g: nat, p: nat, h: nat)
    requires Joined(s, t, j, g) && Kept(s) && !Bridged(s.pay) && Home(s, p, h) && !Attached(s, p, h)
    ensures CutOff(t, p, h)
  {
    if h == g {
      JoinedGroupIsAttached(s, t, j, g, p);
    }
    StillSpanned(s, t, p);
    forall q: nat | Home(t, q, h)
      ensures q == p
    {
      JoinedHome(s, t, j, g, q, h);
    }
  }

  lemma JoinedTogether(s: State, t: State, j: nat, g: nat)
    requires Joined(s, t, j, g) && Together(s)
    ensures Together(t)
  {
    forall p | p in t.routed && p < |t.pay|
      ensures t.pay[p].cred in t.index && t.pay[p].deb in t.index
      ensures t.index[t.pay[p].cred] == t.index[t.pay[p].deb] || Spanned(t, p)
    {
      if p != j && Spanned(s, p) {
        StillSpanned(s, t, p);
      }
    }
  }

  lemma JoinedKeys(s: State, t: State, j: nat, g: nat)
    requires Joined(s, t, j, g) && KeysRouted(s)
    ensures KeysRouted(t)
  {
    forall x | Indexed(t, x)
      ensures exists i :: UsedBy(t, i, x)
    {
      if Uses(s.pay[j], x) {
        assert UsedBy(t, j, x);
      } else {
        assert Indexed(s, x);
        var i :| UsedBy(s, i, x);
        assert UsedBy(t, i, x);
      }
    }
  }

  /** A payment that was cut off shares nothing with one that is routed only now. */
  lemma CutOffIsShy(s: State, j: nat, p: nat, h: nat)
    requires Kept(s) && !Bridged(s.pay) && j < |s.pay| && j !in s.routed && Home(s, p, h) && !Attached(s, p, h)
    ensures !Shares(s.pay, p, j)
  {
    SpannedIsShy(s, p, j);
  }

  lemma JoinedMerger(s: State, t: State, j: nat, g: nat, m: nat)
    requires Joined(s, t, j, g) && MergersFlagged(s) && Kept(s) && Merges(t, m)
    ensures MergerOk(t, m)
  {
    assert MergerOk(s, m);
    var i, k :| i in s.routed && k in s.routed && Spans(s.pay, i, m, k);
    assert Spans(t.pay, i, m, k);
    forall q: nat | Home(t, q, t.adders[m].from)
      ensures q != m && IndexedBoth(t, q, t.adders[m].into) && Shares(t.pay, q, m)
    {
      JoinedSource(s, t, j, g, m, q);
    }
    forall p: nat, h: nat | Home(t, p, h) && !Attached(t, p, h) && p != m && Shares(t.pay, p, m)
      ensures h == t.adders[m].from
    {
      JoinedHome(s, t, j, g, p, h);
      JoinedAttached(s, t, j, g, p, h);
    }
  }

  lemma JoinedSource(s: State, t: State, j: nat, g: nat, m: nat, q: nat)
    requires Joined(s, t, j, g) && MergersFlagged(s) && HomesOk(s) && Merges(s, m) && MergerOk(s, m)
      && Home(t, q, s.adders[m].from)
    ensures q != m && IndexedBoth(t, q, s.adders[m].into) && Shares(t.pay, q, m)
  {
    JoinedHome(s, t, j, g, q, s.adders[m].from);
  }

  lemma JoinedStopped(s: State, t: State, j: nat, g: nat)
    requires Joined(s, t, j, g) && Kept(s) && !Bridged(s.pay)
    ensures OneStopped(t)
  {
    forall p: nat, h: nat, q: nat, l: nat |
      Home(t, p, h) && !Attached(t, p, h) && Arrived(t, q, l) && p != q && Shares(t.pay, p, q)
      ensures Stopped(t.groups[h].worker) || Stopped(t.groups[l].worker)
    {
      JoinedHome(s, t, j, g, p, h);
      JoinedAttached(s, t, j, g, p, h);
      JoinedHome(s, t, j, g, q, l);
      if q == j && p != j {
        CutOffIsShy(s, j, p, h);
      }
    }
  }

  lemma JoinedKept(s: State, t: State, j: nat, g: nat)
    requires Joined(s, t, j, g) && MergersFlagged(s) && Kept(s) && !Bridged(s.pay)
    ensures Kept(t)
  {
    JoinedKeys(s, t, j, g);
    JoinedTogether(s, t, j, g);
    JoinedHomes(s, t, j, g);
    forall m: nat | Merges(t, m)
      ensures MergerOk(t, m)
    {
      JoinedMerger(s, t, j, g, m);
    }
    JoinedStopped(s, t, j, g);
  }

  // ----- a payment merges or splits two groups -----

  /** Call j has pointed IBANs of group b at group a. Group b has only payment k. */
  ghost predicate Cut(s: State, t: State, i: nat, j: nat, k: nat, a: nat, b: nat) {
    && t.pay == s.pay && j < |s.pay| && j < |s.adders| && j !in s.routed && t.routed == s.routed + {j}
    && |t.adders| == |s.adders| && t.adders == s.adders[j := t.adders[j]]
    && Target(s.adders[j]).None? && Target(t.adders[j]) == Some(a)
    && a < |s.groups| && b < |s.groups| && a != b && !s.groups[a].merging && !s.groups[b].merging
    && |t.groups| == |s.groups|
    && (forall h :: 0 <= h < |s.groups| ==>
          && t.groups[h].sent == s.groups[h].sent && t.groups[h].worker == s.groups[h].worker
          && (h != b ==> t.groups[h].merging == s.groups[h].merging))
    && (forall x :: x in t.index <==> x in s.index)
    && (forall x :: x in s.index ==> t.index[x] == s.index[x] || (s.index[x] == b && t.index[x] == a))
    && IndexedBoth(t, j, a)
    && s.pay[j].cred in s.index && s.index[s.pay[j].cred] == a
    && i in s.routed && k in s.routed && Spans(s.pay, i, j, k)
    && IndexedBoth(s, i, a) && IndexedBoth(s, k, b) && Lone(s, k, b)
  }

  lemma CutHome(s: State, t: State, i: nat, j: nat, k: nat, a: nat, b: nat, p: nat, h: nat)
    requires Cut(s, t, i, j, k, a, b) && HomesOk(s)
    ensures Home(t, p, h) <==> Home(s, p, h) || (p == j && h == a)
    ensures Arrived(t, p, h) <==> Arrived(s, p, h) || (p == j && h == a && t.adders[j].Sending?)
    ensures Home(s, p, h) ==> p != j
  {
    assert Arrived(s, p, h) ==> Home(s, p, h);
  }

  lemma CutAttached(s: State, t: State, i: nat, j: nat, k: nat, a: nat, b: nat, p: nat, h: nat)
    requires Cut(s, t, i, j, k, a, b)
    ensures Attached(s, p, h) && h != b ==> Attached(t, p, h)
    ensures Attached(t, j, a) && !Attached(t, k, b)
  {
  }

  lemma CutCutOff(s: State, t: State, i: nat, j: nat, k: nat, a: nat, b: nat, p: nat, h: nat)
    requires Cut(s, t, i, j, k, a, b) && HomesOk(s) && !Bridged(s.pay) && Home(s, p, h)
    requires h == b || !Attached(s, p, h)
    ensures CutOff(t, p, h)
  {
    if h == b {
      assert Spans(t.pay, i, j, k) && p == k;
    } else {
      if h == a {
        NewcomersGroup(s, j, s.pay[j].cred, p, a);
      }
      StillSpanned(s, t, p);
    }
    forall q: nat | Home(t, q, h)
      ensures q == p
    {
      CutHome(s, t, i, j, k, a, b, q, h);
    }
  }

  lemma CutHomes(s: State, t: State, i: nat, j: nat, k: nat, a: nat, b: nat)
    requires Cut(s, t, i, j, k, a, b) && HomesOk(s) && !Bridged(s.pay)
    ensures HomesOk(t)
  {
    forall p: nat, h: nat | Home(t, p, h)
      ensures p in t.routed && p < |t.pay| && (Attached(t, p, h) || CutOff(t, p, h))
    {
      CutHome(s, t, i, j, k, a, b, p, h);
      CutAttached(s, t, i, j, k, a, b, p, h);
      if p != j && (h == b || !Attached(s, p, h)) {
        CutCutOff(s, t, i, j, k, a, b, p, h);
      }
    }
  }

  /** A payment that uses an IBAN of group b is k. */
  lemma OnlyUser(s: State, i: nat, j: nat, k: nat, b: nat, p: nat, x: Iban)
    requires !Bridged(s.pay) && Spans(s.pay, i, j, k) && Lone(s, k, b) && p < |s.pay| && p != j
    requires Uses(s.pay[p], x) && x in s.index && s.index[x] == b
    ensures p == k
  {
    OnlyNeighbour(s.pay, i, j, k, p);
  }

  lemma CutTogether(s: State, t: State, i: nat, j: nat, k: nat, a: nat, b: nat)
    requires Cut(s, t, i, j, k, a, b) && Together(s) && !Bridged(s.pay)
    ensures Together(t)
  {
    forall p | p in t.routed && p < |t.pay|
      ensures t.pay[p].cred in t.index && t.pay[p].deb in t.index
      ensures t.index[t.pay[p].cred] == t.index[t.pay[p].deb] || Spanned(t, p)
    {
      if p == k {
        assert Spans(t.pay, i, j, k);
      } else if p != j {
        if Spanned(s, p) {
          StillSpanned(s, t, p);
        } else if s.index[s.pay[p].cred] == b {
          OnlyUser(s, i, j, k, b, p, s.pay[p].cred);
        }
      }
    }
  }

  lemma CutKeys(s: State, t: State, i: nat, j: nat, k: nat, a: nat, b: nat)
    requires Cut(s, t, i, j, k, a, b) && KeysRouted(s)
    ensures KeysRouted(t)
  {
    forall x | Indexed(t, x)
      ensures exists r :: UsedBy(t, r, x)
    {
      assert Indexed(s, x);
      var r :| UsedBy(s, r, x);
      assert UsedBy(t, r, x);
    }
  }

  /** A merger shares IBANs with two routed payments; k, with none but itself. */
  lemma MergerIsNotLone(s: State, i: nat, j: nat, k: nat, m: nat)
    requires !Bridged(s.pay) && Spans(s.pay, i, j, k) && j !in s.routed && Merges(s, m) && MergerOk(s, m)
    ensures m != k
  {
    var x, c :| x in s.routed && c in s.routed && Spans(s.pay, x, m, c);
    if m == k {
      OnlyNeighbour(s.pay, i, j, k, x);
    }
  }

  lemma CutMerger(s: State, t: State, i: nat, j: nat, k: nat, a: nat, b: nat, m: nat)
    requires Cut(s, t, i, j, k, a, b) && MergersFlagged(s) && Kept(s) && !Bridged(s.pay) && Merges(s, m) && m != j
    ensures MergerOk(t, m)
  {
    assert MergerOk(s, m);
    MergerIsNotLone(s, i, j, k, m);
    assert Home(s, m, s.adders[m].into);
    var x, c :| x in s.routed && c in s.routed && Spans(s.pay, x, m, c);
    assert Spans(t.pay, x, m, c);
    forall q: nat | Home(t, q, t.adders[m].from)
      ensures q != m && IndexedBoth(t, q, t.adders[m].into) && Shares(t.pay, q, m)
    {
      CutSource(s, t, i, j, k, a, b, m, q);
    }
    forall p: nat, h: nat | Home(t, p, h) && !Attached(t, p, h) && p != m && Shares(t.pay, p, m)
      ensures h == t.adders[m].from
    {
      CutElsewhere(s, t, i, j, k, a, b, p, h, m);
    }
  }

  lemma CutSource(s: State, t: State, i: nat, j: nat, k: nat, a: nat, b: nat, m: nat, q: nat)
    requires Cut(s, t, i, j, k, a, b) && MergersFlagged(s) && HomesOk(s) && Merges(s, m) && MergerOk(s, m) && m != j
    requires Home(s, m, s.adders[m].into) && m != k && Home(t, q, s.adders[m].from)
    ensures q != m && IndexedBoth(t, q, s.adders[m].into) && Shares(t.pay, q, m)
  {
    CutHome(s, t, i, j, k, a, b, q, s.adders[m].from);
  }

  /** A payment that is cut off and conflicts with another call q was so before. */
  lemma CutElsewhere(s: State, t: State, i: nat, j: nat, k: nat, a: nat, b: nat, p: nat, h: nat, q: nat)
    requires Cut(s, t, i, j, k, a, b) && HomesOk(s) && !Bridged(s.pay)
    requires Home(t, p, h) && !Attached(t, p, h) && p != q && q != j && Shares(t.pay, p, q)
    ensures Home(s, p, h) && !Attached(s, p, h)
  {
    CutHome(s, t, i, j, k, a, b, p, h);
    CutAttached(s, t, i, j, k, a, b, p, h);
    if h == b {
      OnlyNeighbour(s.pay, i, j, k, q);
    }
  }

  lemma CutStopped(s: State, t: State, i: nat, j: nat, k: nat, a: nat, b: nat)
    requires Cut(s, t, i, j, k, a, b) && Kept(s) && !Bridged(s.pay)
    requires t.adders[j].Sending? ==> Stopped(s.groups[a].worker) || Stopped(s.groups[b].worker)
    ensures OneStopped(t)
  {
    forall p: nat, h: nat, q: nat, l: nat |
      Home(t, p, h) && !Attached(t, p, h) && Arrived(t, q, l) && p != q && Shares(t.pay, p, q)
      ensures Stopped(t.groups[h].worker) || Stopped(t.groups[l].worker)
    {
      CutHome(s, t, i, j, k, a, b, p, h);
      CutHome(s, t, i, j, k, a, b, q, l);
      CutAttached(s, t, i, j, k, a, b, p, h);
      if q != j {
        CutElsewhere(s, t, i, j, k, a, b, p, h, q);
      } else if h != b {
        CutOffIsShy(s, j, p, h);
      }
    }
  }

  lemma CutKept(s: State, t: State, i: nat, j: nat, k: nat, a: nat, b: nat)
    requires Cut(s, t, i, j, k, a, b) && MergersFlagged(s) && Kept(s) && !Bridged(s.pay)
    requires t.adders[j].Sending? ==> Stopped(s.groups[a].worker) || Stopped(s.groups[b].worker)
    requires Merges(t, j) ==> MergerOk(t, j)
    ensures Kept(t)
  {
    CutKeys(s, t, i, j, k, a, b);
    CutTogether(s, t, i, j, k, a, b);
    CutHomes(s, t, i, j, k, a, b);
    forall m: nat | Merges(t, m)
      ensures MergerOk(t, m)
    {
      if m != j {
        CutMerger(s, t, i, j, k, a, b, m);
      }
    }
    CutStopped(s, t, i, j, k, a, b);
  }

  lemma CutMakesMerger(s: State, t: State, i: nat, j: nat, k: nat, a: nat, b: nat)
    requires Cut(s, t, i, j, k, a, b) && Kept(s) && !Bridged(s.pay)
    requires Merges(t, j) && t.adders[j].into == a && t.adders[j].from == b && IndexedBoth(t, k, a)
    ensures MergerOk(t, j)
  {
    assert Spans(t.pay, i, j, k) && i in t.routed && k in t.routed;
    forall q: nat | Home(t, q, b)
      ensures q != j && IndexedBoth(t, q, a) && Shares(t.pay, q, j)
    {
      CutHome(s, t, i, j, k, a, b, q, b);
    }
    forall p: nat, h: nat | Home(t, p, h) && !Attached(t, p, h) && p != j && Shares(t.pay, p, j)
      ensures h == b
    {
      CutHome(s, t, i, j, k, a, b, p, h);
      CutAttached(s, t, i, j, k, a, b, p, h);
      if h != b {
        CutOffIsShy(s, j, p, h);
      }
    }
  }

  lemma NotYetRouted(s: State, j: nat)
    requires Inv(s) && j < |s.adders| && (s.adders[j].Start? || s.adders[j].WaitSlot? || s.adders[j].HoldSlot?)
    ensures j !in s.routed && j < |s.pay|
    ensures forall x :: x in s.index ==> IndexLive(s, s.index[x])
  {
    assert AdderOk(s.adders[j], j, s.groups, s.log, s.routed, s.mu);
  }

  predicate IndexLive(s: State, g: nat) {
    g < |s.groups| && !s.groups[g].merging
  }

  lemma MergeKept(s: State, j: nat, a: nat, b: nat)
    requires Components.Partitioned(s) && Kept(s) && !Bridged(s.pay) && j < |s.adders| && s.adders[j].Start?
      && j < |s.pay|
    requires Lookup(s.index, s.pay[j].cred) == Some(a) && Lookup(s.index, s.pay[j].deb) == Some(b) && a != b
    requires b < |s.groups|
    ensures Kept(BeginMerge(s, j, a, b))
  {
    var t := BeginMerge(s, j, a, b);
    NotYetRouted(s, j);
    MergersAreFlagged(s);
    var i, k := Corner(s, j, a, b);
    assert Cut(s, t, i, j, k, a, b);
    CutMakesMerger(s, t, i, j, k, a, b);
    CutKept(s, t, i, j, k, a, b);
  }

  /** With two slots, of which the splitting call holds one, one of two groups has no worker. */
  lemma OneHasNoWorker(s: State, j: nat, a: nat, b: nat)
    requires Semaphore.Counted(s) && s.max <= 2 && j < |s.adders| && s.adders[j].HoldSlot?
    requires a < |s.groups| && b < |s.groups| && a != b
    ensures Stopped(s.groups[a].worker) || Stopped(s.groups[b].worker)
  {
    SumUpdate(s.adders, j, s.adders[j], Semaphore.HoldsSlot());
    SumTwo(s.groups, a, b, Semaphore.HoldsToken());
  }

  lemma SplitCuts(s: State, i: nat, j: nat, k: nat, a: nat, b: nat)
    requires Enabled(s, Recheck(j)) && j !in s.routed
    requires Lookup(s.index, s.pay[j].cred) == Some(a) && Lookup(s.index, s.pay[j].deb) == Some(b) && a != b
    requires IndexLive(s, a) && IndexLive(s, b)
    requires i in s.routed && k in s.routed && Spans(s.pay, i, j, k)
    requires IndexedBoth(s, i, a) && IndexedBoth(s, k, b) && Lone(s, k, b)
    ensures Cut(s, Do(s, Recheck(j)), i, j, k, a, b) && Do(s, Recheck(j)).adders[j].Sending?
  {
    RecheckMoves(s, j);
  }

  lemma SplitCorner(s: State, j: nat, a: nat, b: nat) returns (i: nat, k: nat)
    requires Components.Partitioned(s) && Kept(s) && !Bridged(s.pay) && Enabled(s, Recheck(j))
    requires Lookup(s.index, s.pay[j].cred) == Some(a) && Lookup(s.index, s.pay[j].deb) == Some(b) && a != b
    ensures Cut(s, Do(s, Recheck(j)), i, j, k, a, b) && Do(s, Recheck(j)).adders[j].Sending?
  {
    NotYetRouted(s, j);
    i, k := Corner(s, j, a, b);
    SplitCuts(s, i, j, k, a, b);
  }

  lemma SplitKept(s: State, j: nat, a: nat, b: nat)
    requires Components.Partitioned(s) && Kept(s) && !Bridged(s.pay) && Semaphore.Counted(s) && s.max <= 2
    requires Enabled(s, Recheck(j))
    requires Lookup(s.index, s.pay[j].cred) == Some(a) && Lookup(s.index, s.pay[j].deb) == Some(b) && a != b
    ensures Kept(Do(s, Recheck(j)))
  {
    MergersAreFlagged(s);
    var i, k := SplitCorner(s, j, a, b);
    OneHasNoWorker(s, j, a, b);
    SplitCutKept(s, Do(s, Recheck(j)), i, j, k, a, b);
  }

  lemma SplitCutKept(s: State, t: State, i: nat, j: nat, k: nat, a: nat, b: nat)
    requires Cut(s, t, i, j, k, a, b) && MergersFlagged(s) && Kept(s) && !Bridged(s.pay) && t.adders[j].Sending?
    requires Stopped(s.groups[a].worker) || Stopped(s.groups[b].worker)
    ensures Kept(t)
  {
    CutKept(s, t, i, j, k, a, b);
  }

  lemma TargetsInRange(s: State)
    requires Inv(s)
    ensures forall i :: 0 <= i < |s.adders| && Target(s.adders[i]).Some? ==> Target(s.adders[i]).value < |s.groups|
  {
    MergersAreFlagged(s);
    forall i | 0 <= i < |s.adders| && Target(s.adders[i]).Some?
      ensures Target(s.adders[i]).value < |s.groups|
    {
      assert AdderOk(s.adders[i], i, s.groups, s.log, s.routed, s.mu);
      if Merges(s, i) {
        assert s.adders[i].into < |s.groups|;
      }
    }
  }

  lemma RouteKept(s: State, j: nat)
    requires Components.Partitioned(s) && Kept(s) && !Bridged(s.pay) && Enabled(s, Route(j))
    ensures Kept(Do(s, Route(j)))
  {
    var t := Do(s, Route(j));
    var p := s.pay[j];
    NotYetRouted(s, j);
    if s.root || (p.cred !in s.index && p.deb !in s.index) {
      WaitSettles(s, j);
      SettledKept(s, t);
    } else if p.cred in s.index && p.deb in s.index && s.index[p.cred] != s.index[p.deb] {
      MergeKept(s, j, s.index[p.cred], s.index[p.deb]);
    } else {
      MergersAreFlagged(s);
      TargetsInRange(s);
      RouteIsJoin(s, j);
      JoinedKept(s, t, j, t.index[p.cred]);
    }
  }

  lemma RouteIsJoin(s: State, j: nat)
    requires Inv(s) && Enabled(s, Route(j)) && !s.root && j !in s.routed
    requires s.pay[j].cred in s.index || s.pay[j].deb in s.index
    requires s.pay[j].cred in s.index && s.pay[j].deb in s.index ==> s.index[s.pay[j].cred] == s.index[s.pay[j].deb]
    requires forall i :: 0 <= i < |s.adders| && Target(s.adders[i]).Some? ==> Target(s.adders[i]).value < |s.groups|
    ensures var t := Do(s, Route(j)); s.pay[j].cred in t.index && Joined(s, t, j, t.index[s.pay[j].cred])
  {
    RouteMoves(s, j);
    RouteFinds(s, j, if s.pay[j].cred in s.index then s.index[s.pay[j].cred] else s.index[s.pay[j].deb]);
  }

  lemma RouteFinds(s: State, j: nat, g: nat)
    requires Enabled(s, Route(j)) && !s.root && (s.pay[j].cred in s.index || s.pay[j].deb in s.index)
    requires forall x :: x in s.index && Uses(s.pay[j], x) ==> s.index[x] == g
    ensures var t := Do(s, Route(j));
      && t.index == s.index[s.pay[j].deb := g][s.pay[j].cred := g] && t.adders[j] == Sending(g)
      && t.groups == s.groups && t.routed == s.routed + {j}
  {
  }

  lemma RecheckIsJoin(s: State, j: nat)
    requires Inv(s) && Enabled(s, Recheck(j)) && j !in s.routed
    requires s.pay[j].cred in s.index && s.pay[j].deb in s.index ==> s.index[s.pay[j].cred] == s.index[s.pay[j].deb]
    requires forall i :: 0 <= i < |s.adders| && Target(s.adders[i]).Some? ==> Target(s.adders[i]).value < |s.groups|
    ensures var t := Do(s, Recheck(j)); s.pay[j].cred in t.index && Joined(s, t, j, t.index[s.pay[j].cred])
  {
    if s.pay[j].cred in s.index || s.pay[j].deb in s.index {
      RecheckFinds(s, j, if s.pay[j].cred in s.index then s.index[s.pay[j].cred] else s.index[s.pay[j].deb]);
    } else {
      OpenIsJoin(s, j);
    }
  }

  lemma RecheckFinds(s: State, j: nat, g: nat)
    requires IndexOk(s.index, s.groups) && Enabled(s, Recheck(j)) && j !in s.routed
    requires s.pay[j].cred in s.index || s.pay[j].deb in s.index
    requires forall x :: x in s.index && Uses(s.pay[j], x) ==> s.index[x] == g
    requires forall i :: 0 <= i < |s.adders| && Target(s.adders[i]).Some? ==> Target(s.adders[i]).value < |s.groups|
    ensures var t := Do(s, Recheck(j)); s.pay[j].cred in t.index && t.index[s.pay[j].cred] == g && Joined(s, t, j, g)
  {
  }

  lemma OpenIsJoin(s: State, j: nat)
    requires Enabled(s, Recheck(j)) && j !in s.routed
    requires s.pay[j].cred !in s.index && s.pay[j].deb !in s.index
    requires forall i :: 0 <= i < |s.adders| && Target(s.adders[i]).Some? ==> Target(s.adders[i]).value < |s.groups|
    ensures var t := Do(s, Recheck(j)); s.pay[j].cred in t.index && Joined(s, t, j, t.index[s.pay[j].cred])
  {
  }

  lemma RecheckKept(s: State, j: nat)
    requires Components.Partitioned(s) && Kept(s) && !Bridged(s.pay) && Semaphore.Counted(s) && s.max <= 2
    requires Enabled(s, Recheck(j))
    ensures Kept(Do(s, Recheck(j)))
  {
    var p := s.pay[j];
    NotYetRouted(s, j);
    if p.cred in s.index && p.deb in s.index && s.index[p.cred] != s.index[p.deb] {
      SplitKept(s, j, s.index[p.cred], s.index[p.deb]);
    } else {
      MergersAreFlagged(s);
      TargetsInRange(s);
      RecheckIsJoin(s, j);
      JoinedKept(s, Do(s, Recheck(j)), j, Do(s, Recheck(j)).index[p.cred]);
    }
  }

  // ----- a merger drains, and ends its drain -----

  /** A merger shares IBANs with two payments that share none, so it was never cut off. */
  lemma MergerIsNotSpanned(s: State, m: nat)
    requires !Bridged(s.pay) && Merges(s, m) && MergerOk(s, m)
    ensures !Spanned(s, m)
  {
    var x, c :| x in s.routed && c in s.routed && Spans(s.pay, x, m, c);
    if Spanned(s, m) {
      var a, b :| b in s.routed && Spans(s.pay, a, b, m);
      OnlyNeighbour(s.pay, a, b, m, x);
      OnlyNeighbour(s.pay, a, b, m, c);
    }
  }

  lemma EndDrainRests(s: State, m: nat)
    requires Inv(s) && Enabled(s, EndDrain(m))
    ensures Rests(s, Do(s, EndDrain(m)))
    ensures forall p: nat, g: nat :: Arrived(Do(s, EndDrain(m)), p, g) ==>
      Arrived(s, p, g) || (p == m && g == s.adders[m].into)
    ensures Stopped(s.groups[s.adders[m].from].worker)
  {
    SecondRelabelIsIdle(s, m);
    EndDrainSendsNothing(s, m);
    assert AdderOk(s.adders[m], m, s.groups, s.log, s.routed, s.mu);
    assert GroupOk(s.groups[s.adders[m].from]);
  }

  lemma EndDrainKept(s: State, m: nat)
    requires Inv(s) && Kept(s) && Enabled(s, EndDrain(m))
    ensures Kept(Do(s, EndDrain(m)))
  {
    var t := Do(s, EndDrain(m));
    EndDrainRests(s, m);
    RestedKept(s, t);
    assert MergerOk(s, m);
    forall p: nat, g: nat, q: nat, l: nat |
      Home(t, p, g) && !Attached(t, p, g) && Arrived(t, q, l) && p != q && Shares(t.pay, p, q)
      ensures Stopped(t.groups[g].worker) || Stopped(t.groups[l].worker)
    {
      assert Home(s, p, g) && !Attached(s, p, g) && Shares(s.pay, p, q);
    }
  }

  /** Payment q, held by merger m, is put into the group that m merges into. */
  ghost predicate Moved(s: State, t: State, m: nat, q: nat) {
    && Merges(s, m) && Merges(t, m) && t.pay == s.pay && t.index == s.index && t.routed == s.routed
    && |t.adders| == |s.adders| && t.adders == s.adders[m := t.adders[m]]
    && t.adders[m].into == s.adders[m].into && t.adders[m].from == s.adders[m].from
    && |t.groups| == |s.groups| && s.adders[m].into < |s.groups| && s.adders[m].from < |s.groups|
    && q in s.groups[s.adders[m].from].sent && s.groups[s.adders[m].from].merging
    && (forall g :: 0 <= g < |s.groups| ==>
          && t.groups[g].merging == s.groups[g].merging && t.groups[g].worker == s.groups[g].worker
          && forall p :: p in t.groups[g].sent <==> p in s.groups[g].sent || (g == s.adders[m].into && p == q))
  }

  lemma PutMoves(s: State, m: nat)
    requires Inv(s) && Enabled(s, Put(m))
    ensures Moved(s, Do(s, Put(m)), m, s.adders[m].hand.value)
  {
    MergersAreFlagged(s);
    assert AdderOk(s.adders[m], m, s.groups, s.log, s.routed, s.mu);
    assert GroupOk(s.groups[s.adders[m].from]);
  }

  lemma MovedHome(s: State, t: State, m: nat, q: nat, p: nat, g: nat)
    requires Moved(s, t, m, q)
    ensures Home(t, p, g) <==> Home(s, p, g) || (p == q && g == s.adders[m].into)
    ensures Arrived(t, p, g) <==> Arrived(s, p, g) || (p == q && g == s.adders[m].into)
    ensures Attached(t, p, g) <==> Attached(s, p, g)
  {
  }

  lemma MovedIsAttached(s: State, t: State, m: nat, q: nat)
    requires Moved(s, t, m, q) && Kept(s) && !Bridged(s.pay)
    ensures Attached(s, m, s.adders[m].into) && Attached(s, q, s.adders[m].into)
    ensures !Attached(s, q, s.adders[m].from) && Home(s, q, s.adders[m].from) && q != m && Shares(s.pay, m, q)
  {
    assert MergerOk(s, m);
    MergerIsNotSpanned(s, m);
    assert Home(s, m, s.adders[m].into);
    assert Home(s, q, s.adders[m].from);
  }

  lemma MovedHomes(s: State, t: State, m: nat, q: nat)
    requires Moved(s, t, m, q) && Kept(s) && !Bridged(s.pay)
    ensures HomesOk(t)
  {
    MovedIsAttached(s, t, m, q);
    forall p: nat, g: nat | Home(t, p, g)
      ensures p in t.routed && p < |t.pay| && (Attached(t, p, g) || CutOff(t, p, g))
    {
      MovedHome(s, t, m, q, p, g);
      if !Attached(s, p, g) {
        MovedCutOff(s, t, m, q, p, g);
      }
    }
  }

  lemma MovedCutOff(s: State, t: State, m: nat, q: nat, p: nat, g: nat)
    requires Moved(s, t, m, q) && Kept(s) && !Bridged(s.pay) && Home(s, p, g) && !Attached(s, p, g)
    ensures CutOff(t, p, g)
  {
    MovedIsAttached(s, t, m, q);
    assert Home(s, m, s.adders[m].into);
    StillSpanned(s, t, p);
    forall r: nat | Home(t, r, g)
      ensures r == p
    {
      MovedHome(s, t, m, q, r, g);
    }
  }

  lemma MovedMerger(s: State, t: State, m: nat, q: nat, n: nat)
    requires Moved(s, t, m, q) && Kept(s) && MergersFlagged(s) && !Bridged(s.pay) && Merges(t, n)
    ensures MergerOk(t, n)
  {
    assert Merges(s, n) && MergerOk(s, n);
    MovedIsAttached(s, t, m, q);
    forall r: nat | Home(t, r, t.adders[n].from)
      ensures r != n && IndexedBoth(t, r, t.adders[n].into) && Shares(t.pay, r, n)
    {
      MovedHome(s, t, m, q, r, t.adders[n].from);
    }
    forall p: nat, g: nat | Home(t, p, g) && !Attached(t, p, g) && p != n && Shares(t.pay, p, n)
      ensures g == t.adders[n].from
    {
      MovedHome(s, t, m, q, p, g);
    }
  }

  /** What the moved payment shares an IBAN with is the merger, which was never cut off. */
  lemma MovedStopped(s: State, t: State, m: nat, q: nat)
    requires Moved(s, t, m, q) && Kept(s) && !Bridged(s.pay)
    ensures OneStopped(t)
  {
    MovedIsAttached(s, t, m, q);
    assert MergerOk(s, m);
    MergerIsNotSpanned(s, m);
    forall p: nat, g: nat, r: nat, l: nat |
      Home(t, p, g) && !Attached(t, p, g) && Arrived(t, r, l) && p != r && Shares(t.pay, p, r)
      ensures Stopped(t.groups[g].worker) || Stopped(t.groups[l].worker)
    {
      MovedHome(s, t, m, q, p, g);
      MovedHome(s, t, m, q, r, l);
      if r == q {
        var a, b :| b in s.routed && Spans(s.pay, a, b, q);
        OnlyNeighbour(s.pay, a, b, q, m);
        OnlyNeighbour(s.pay, a, b, q, p);
      }
    }
  }

  lemma PutKept(s: State, m: nat)
    requires Inv(s) && Kept(s) && !Bridged(s.pay) && Enabled(s, Put(m))
    ensures Kept(Do(s, Put(m)))
  {
    var t := Do(s, Put(m));
    var q := s.adders[m].hand.value;
    PutMoves(s, m);
    MergersAreFlagged(s);
    ArrivedIsRouted(s);
    MovedHomes(s, t, m, q);
    MovedStopped(s, t, m, q);
    forall n: nat | Merges(t, n)
      ensures MergerOk(t, n)
    {
      MovedMerger(s, t, m, q, n);
    }
    SameRoutingKept(s, t);
  }

  lemma SameRoutingKept(s: State, t: State)
    requires t.pay == s.pay && t.index == s.index && t.routed == s.routed && KeysRouted(s) && Together(s)
    ensures KeysRouted(t) && Together(t)
  {
    forall x | Indexed(t, x)
      ensures exists r :: UsedBy(t, r, x)
    {
      assert Indexed(s, x);
      var r :| UsedBy(s, r, x);
      assert UsedBy(t, r, x);
    }
    assert forall p :: Spanned(s, p) ==> Spanned(t, p);
  }

  // ----- every schedule -----

  ghost predicate Sound(s: State) {
    Components.Partitioned(s) && Semaphore.Counted(s) && (s.max <= 2 && !Bridged(s.pay) ==> Kept(s))
  }

  lemma StepKept(s: State, step: Step)
    requires Components.Partitioned(s) && Semaphore.Counted(s) && s.max <= 2 && Kept(s) && Enabled(s, step)
    requires !Bridged(s.pay)
    ensures Kept(Do(s, step))
  {
    if step.Route? {
      RouteKept(s, step.i);
    } else if step.Recheck? {
      RecheckKept(s, step.i);
    } else {
      UnroutedStepKept(s, step);
    }
  }

  lemma UnroutedStepKept(s: State, step: Step)
    requires Inv(s) && Kept(s) && Enabled(s, step) && !Bridged(s.pay) && !step.Route? && !step.Recheck?
    ensures Kept(Do(s, step))
  {
    if step.Put? {
      PutKept(s, step.i);
    } else if step.EndDrain? {
      EndDrainKept(s, step.i);
    } else {
      OtherStepSettles(s, step);
      SettledKept(s, Do(s, step));
    }
  }

  lemma OtherStepSettles(s: State, step: Step)
    requires Enabled(s, step) && !step.Route? && !step.Recheck? && !step.Put? && !step.EndDrain?
    ensures Settles(s, Do(s, step))
  {
    match step
    case Take(i) => TakeSettles(s, i);
    case Send(i) => SendSettles(s, i);
    case Acquire(_) => SelectSettles(s, step);
    case GiveUp(_) => SelectSettles(s, step);
    case LockDrain(_) => SelectSettles(s, step);
    case Submit(_) => OutsideSettles(s, step);
    case Shutdown => OutsideSettles(s, step);
    case _ => WorkerSettles(s, step);
  }

  lemma StepSound(s: State, step: Step)
    requires Sound(s) && Enabled(s, step)
    ensures Sound(Do(s, step))
  {
    Components.StepKeepsPartition(s, step);
    Semaphore.StepKeepsCounted(s, step);
    PayGrows(s, step);
    if Do(s, step).max <= 2 && !Bridged(Do(s, step).pay) {
      if Bridged(s.pay) {
        LongerIsBridged(s.pay, Do(s, step).pay);
      }
      SameMax(s, step);
      StepKept(s, step);
    }
  }

  lemma SameMax(s: State, step: Step)
    requires Enabled(s, step)
    ensures Do(s, step).max == s.max
  {
  }

  lemma ReachableSound(s: State)
    requires Reachable(s)
    ensures Sound(s)
  {
    forall t, x | Sound(t) && Enabled(t, x)
      ensures Sound(Do(t, x))
    {
      StepSound(t, x);
    }
    ReachableHas(s, t => Sound(t));
  }

  lemma UnbridgedIsSerial(s: State)
    requires Reachable(s) && s.max <= 2 && !Bridged(s.pay)
    ensures Serial(s)
  {
    ReachableSound(s);
    forall p: nat, q: nat, g: nat, h: nat | InFlight(s, p, g) && InFlight(s, q, h) && g != h
      ensures p < |s.pay| && q < |s.pay| && !Conflict(s.pay[p], s.pay[q])
    {
      Timeline.InFlightOnce(s, p, g, h);
      StoppedUnlessUnrelated(s, p, q, g, h);
    }
  }

  lemma StoppedUnlessUnrelated(s: State, p: nat, q: nat, g: nat, h: nat)
    requires Inv(s) && HomesOk(s) && OneStopped(s) && p != q && g != h
    requires InFlight(s, p, g) && InFlight(s, q, h)
    ensures p < |s.pay| && q < |s.pay| && !Conflict(s.pay[p], s.pay[q])
  {
    FlightIsHome(s, p, g);
    FlightIsHome(s, q, h);
    assert Shares(s.pay, p, q) ==> Shares(s.pay, q, p);
  }

  lemma FlightIsHome(s: State, p: nat, g: nat)
    requires Inv(s) && InFlight(s, p, g)
    ensures Home(s, p, g) && Arrived(s, p, g) && !Stopped(s.groups[g].worker)
  {
    assert GroupOk(s.groups[g]);
    assert p in s.groups[g].sent;
  }

  /** With two workers the promise holds under every schedule of a workload exactly if no
      payment would merge the group of a payment that a fourth one could overtake. */
  lemma SerialExactlyWhenUnbridged(w: seq<Payment>)
    ensures (forall s :: Reachable(s) && s.max == 2 && s.pay <= w ==> Serial(s)) <==> !Bridged(w)
  {
    if Bridged(w) {
      var i: nat, j: nat, k: nat, q: nat :| Overtaken(w, i, j, k, q);
      var s := Overtake(2, w, i, j, k, q);
    } else {
      forall s | Reachable(s) && s.max == 2 && s.pay <= w
        ensures Serial(s)
      {
        if Bridged(s.pay) {
          LongerIsBridged(s.pay, w);
        }
        UnbridgedIsSerial(s);
      }
    }
  }

  // ----- parallel processing -----

  /** Two different payments are inside ProcessTX at the same time. */
  ghost predicate InParallel(s: State) {
    exists p: nat, q: nat, g: nat, h: nat :: p != q && g != h && InFlight(s, p, g) && InFlight(s, q, h)
  }

  lemma TwoInFlight(max: nat, w: seq<Payment>, i: nat, k: nat) returns (s: State)
    requires max >= 2 && i < |w| && k < |w| && i != k && !Conflict(w[i], w[k])
    ensures Reachable(s) && s.max == max && s.pay == w && InParallel(s)
  {
    s := TwoGroupsOpen(max, w, i, k);
    s := SendAndReceive(s, i, 0);
    s := SendAndReceive(s, k, 1);
    assert InFlight(s, i, 0) && InFlight(s, k, 1);
  }

  /** Payments can be processed in parallel exactly if there are two slots, and two payments
      that share no IBAN. */
  lemma ParallelExactly(max: nat, w: seq<Payment>)
    ensures (exists s :: Reachable(s) && s.max == max && s.pay <= w && InParallel(s)) <==>
      max >= 2 && exists i: nat, k: nat :: i < |w| && k < |w| && i != k && !Shares(w, i, k)
  {
    if max >= 2 && exists i: nat, k: nat :: i < |w| && k < |w| && i != k && !Shares(w, i, k) {
      var i: nat, k: nat :| i < |w| && k < |w| && i != k && !Shares(w, i, k);
      var s := TwoInFlight(max, w, i, k);
    }
    forall s | Reachable(s) && s.max == max && s.pay <= w && InParallel(s)
      ensures max >= 2 && exists i: nat, k: nat :: i < |w| && k < |w| && i != k && !Shares(w, i, k)
    {
      var i, k := ParallelNeedsTwo(s, w);
    }
  }

  lemma ParallelNeedsTwo(s: State, w: seq<Payment>) returns (i: nat, k: nat)
    requires Reachable(s) && s.pay <= w && InParallel(s)
    ensures s.max >= 2 && i < |w| && k < |w| && i != k && !Shares(w, i, k)
  {
    var p: nat, q: nat, g: nat, h: nat :| p != q && g != h && InFlight(s, p, g) && InFlight(s, q, h);
    Timeline.FlightIsKnown(s, p, g);
    Timeline.FlightIsKnown(s, q, h);
    if s.max <= 1 {
      Semaphore.TwoWorkersTwoSlots(s, g, h);
    }
    if Transitive(s.pay) {
      TransitiveIsSerial(s);
      i, k := p, q;
    } else {
      i, k := Strangers(s.pay);
    }
  }

  lemma Strangers(w: seq<Payment>) returns (i: nat, k: nat)
    requires !Transitive(w)
    ensures i < |w| && k < |w| && i != k && !Shares(w, i, k)
  {
    var a: nat, b: nat, c: nat :| Shares(w, a, b) && Shares(w, b, c) && !Shares(w, a, c);
    i, k := a, c;
  }
}
