/** The index is the partition of IBANs into the connected components of the graph whose
    edges are the routed payments. */
module Components {
  import opened Common
  import opened MergeForest
  import opened DispatcherSteps
  import opened DispatcherInvariants

  type Edges = set<(Iban, Iban)>

  ghost predicate Linked(e: Edges, x: Iban, y: Iban) {
    (x, y) in e || (y, x) in e
  }

  ghost predicate IsPath(e: Edges, path: seq<Iban>) {
    |path| > 0 && forall k :: 0 <= k < |path| - 1 ==> Linked(e, path[k], path[k + 1])
  }

  ghost predicate Joins(e: Edges, path: seq<Iban>, x: Iban, y: Iban) {
    IsPath(e, path) && path[0] == x && path[|path| - 1] == y
  }

  ghost predicate Connected(e: Edges, x: Iban, y: Iban) {
    exists path :: Joins(e, path, x, y)
  }

  /** The payment graph: one edge for each payment that was routed. */
  function PaymentGraph(s: State): Edges {
    set i | i in s.routed && i < |s.pay| :: (s.pay[i].cred, s.pay[i].deb)
  }

  // ----- connectivity is an equivalence that grows with the edges -----

  lemma SelfConnected(e: Edges, x: Iban)
    ensures Connected(e, x, x)
  {
    assert Joins(e, [x], x, x);
  }

  lemma EdgeConnects(e: Edges, x: Iban, y: Iban)
    requires Linked(e, x, y)
    ensures Connected(e, x, y)
  {
    assert Joins(e, [x, y], x, y);
  }

  lemma Grow(e: Edges, f: Edges, x: Iban, y: Iban)
    requires e <= f && Connected(e, x, y)
    ensures Connected(f, x, y)
  {
    var path :| Joins(e, path, x, y);
    forall k | 0 <= k < |path| - 1
      ensures Linked(f, path[k], path[k + 1])
    {
      assert Linked(e, path[k], path[k + 1]);
    }
    assert Joins(f, path, x, y);
  }

  lemma ConnectedThrough(e: Edges, x: Iban, y: Iban, z: Iban)
    requires Connected(e, x, y) && Connected(e, y, z)
    ensures Connected(e, x, z)
  {
    var p :| Joins(e, p, x, y);
    var q :| Joins(e, q, y, z);
    var r := p + q[1..];
    forall k | 0 <= k < |r| - 1
      ensures Linked(e, r[k], r[k + 1])
    {
      if k < |p| - 1 {
        assert Linked(e, p[k], p[k + 1]);
      } else {
        var j := k - (|p| - 1);
        assert Linked(e, q[j], q[j + 1]);
      }
    }
    assert Joins(e, r, x, z);
  }

  lemma {:induction false} Symmetric(e: Edges, path: seq<Iban>, x: Iban, y: Iban)
    requires Joins(e, path, x, y)
    ensures Connected(e, y, x)
    decreases |path|
  {
    if |path| == 1 {
      SelfConnected(e, x);
    } else {
      var n := |path| - 1;
      var q := path[..n];
      assert forall k :: 0 <= k < |q| - 1 ==> Linked(e, path[k], path[k + 1]);
      Symmetric(e, q, x, path[n - 1]);
      assert Linked(e, path[n - 1], path[n - 1 + 1]);
      EdgeConnects(e, y, path[n - 1]);
      ConnectedThrough(e, y, path[n - 1], x);
    }
  }

  lemma Symmetry(e: Edges, x: Iban, y: Iban)
    requires Connected(e, x, y)
    ensures Connected(e, y, x)
  {
    var path :| Joins(e, path, x, y);
    Symmetric(e, path, x, y);
  }

  // ----- same group implies connected -----

  ghost predicate GroupsAreConnected(e: Edges, index: map<Iban, nat>) {
    forall x, y :: x in index && y in index && index[x] == index[y] ==> Connected(e, x, y)
  }

  /** Payment (c, d) points IBANs at group g; hub is the one of c and d that already was in
      g, if g had any IBANs at all. */
  lemma AttachConnects(e: Edges, index: map<Iban, nat>, c: Iban, d: Iban, hub: Iban, g: nat, t: map<Iban, nat>)
    requires GroupsAreConnected(e, index) && hub in {c, d}
    requires forall x :: x in index && index[x] == g ==> hub in index && index[hub] == g
    requires forall x :: x in t ==> (x in index && t[x] == index[x]) || ((x == c || x == d) && t[x] == g)
    ensures GroupsAreConnected(e + {(c, d)}, t)
  {
    var f := e + {(c, d)};
    forall x | x in t && t[x] == g
      ensures Connected(f, x, hub)
    {
      if x == c || x == d {
        if x == hub {
          SelfConnected(f, x);
        } else {
          EdgeConnects(f, x, hub);
        }
      } else {
        Grow(e, f, x, hub);
      }
    }
    forall x, y | x in t && y in t && t[x] == t[y]
      ensures Connected(f, x, y)
    {
      if t[x] == g {
        Symmetry(f, y, hub);
        ConnectedThrough(f, x, hub, y);
      } else {
        Grow(e, f, x, y);
      }
    }
  }

  lemma RelabelConnects(e: Edges, index: map<Iban, nat>, c: Iban, d: Iban)
    requires GroupsAreConnected(e, index) && c in index && d in index
    ensures GroupsAreConnected(e + {(c, d)}, Relabel(index, index[d], index[c]))
  {
    var f := e + {(c, d)};
    var t := Relabel(index, index[d], index[c]);
    EdgeConnects(f, d, c);
    forall x | x in t && t[x] == index[c]
      ensures Connected(f, x, c)
    {
      if index[x] == index[c] {
        Grow(e, f, x, c);
      } else {
        Grow(e, f, x, d);
        ConnectedThrough(f, x, d, c);
      }
    }
    forall x, y | x in t && y in t && t[x] == t[y]
      ensures Connected(f, x, y)
    {
      if t[x] == index[c] {
        Symmetry(f, y, c);
        ConnectedThrough(f, x, c, y);
      } else {
        Grow(e, f, x, y);
      }
    }
  }

  // ----- connected implies same group, as long as nothing was split -----

  ghost predicate EdgesStayTogether(s: State) {
    forall i :: i in s.routed && i < |s.pay| ==>
      && s.pay[i].cred in s.index && s.pay[i].deb in s.index
      && s.index[s.pay[i].cred] == s.index[s.pay[i].deb]
  }

  ghost predicate Partitioned(s: State) {
    && Inv(s)
    && GroupsAreConnected(PaymentGraph(s), s.index)
    && (!s.split ==> EdgesStayTogether(s))
  }

  lemma RoutedAdds(s: State, t: State, i: nat)
    requires t.pay == s.pay && i < |s.pay| && t.routed == s.routed + {i}
    ensures PaymentGraph(t) == PaymentGraph(s) + {(s.pay[i].cred, s.pay[i].deb)}
  {
  }

  lemma RoutePartitions(s: State, i: nat)
    requires Partitioned(s) && Enabled(s, Route(i))
    ensures GroupsAreConnected(PaymentGraph(Do(s, Route(i))), Do(s, Route(i)).index)
  {
    var t := Do(s, Route(i));
    var e, p := PaymentGraph(s), s.pay[i];
    if i in t.routed {
      RoutedAdds(s, t, i);
      match (Lookup(s.index, p.cred), Lookup(s.index, p.deb))
      case (Some(a), None) => AttachConnects(e, s.index, p.cred, p.deb, p.cred, a, t.index);
      case (None, Some(b)) => AttachConnects(e, s.index, p.cred, p.deb, p.deb, b, t.index);
      case (Some(a), Some(b)) =>
        if a == b {
          AttachConnects(e, s.index, p.cred, p.deb, p.cred, a, t.index);
        } else {
          RelabelConnects(e, s.index, p.cred, p.deb);
        }
    }
  }

  lemma RouteKeepsTogether(s: State, i: nat)
    requires Inv(s) && EdgesStayTogether(s) && Enabled(s, Route(i))
    ensures EdgesStayTogether(Do(s, Route(i)))
  {
    var t := Do(s, Route(i));
    if i !in t.routed {
      assert t.index == s.index;
    } else if t.adders[i].MergeWait? {
      RelabelKeepsTogether(s, t, i);
    } else {
      JoinKeepsTogether(s, t, i, t.index[s.pay[i].cred]);
    }
  }

  lemma RelabelKeepsTogether(s: State, t: State, i: nat)
    requires EdgesStayTogether(s) && i < |s.pay| && t.pay == s.pay && t.routed == s.routed + {i}
    requires s.pay[i].cred in s.index && s.pay[i].deb in s.index
    requires t.index == Relabel(s.index, s.index[s.pay[i].deb], s.index[s.pay[i].cred])
    ensures EdgesStayTogether(t)
  {
  }

  lemma RecheckPartitions(s: State, i: nat)
    requires Partitioned(s) && Enabled(s, Recheck(i))
    ensures GroupsAreConnected(PaymentGraph(Do(s, Recheck(i))), Do(s, Recheck(i)).index)
  {
    var t := Do(s, Recheck(i));
    var p := s.pay[i];
    RoutedAdds(s, t, i);
    var hub := if p.cred in s.index || p.deb !in s.index then p.cred else p.deb;
    AttachConnects(PaymentGraph(s), s.index, p.cred, p.deb, hub, t.index[hub], t.index);
  }

  lemma JoinKeepsTogether(s: State, t: State, i: nat, g: nat)
    requires EdgesStayTogether(s) && i < |s.pay| && t.pay == s.pay && t.routed == s.routed + {i}
    requires t.index == s.index[s.pay[i].deb := g][s.pay[i].cred := g]
    requires forall x :: x in s.index && (x == s.pay[i].cred || x == s.pay[i].deb) ==> s.index[x] == g
    ensures EdgesStayTogether(t)
  {
  }

  lemma RecheckKeepsTogether(s: State, i: nat)
    requires EdgesStayTogether(s) && Enabled(s, Recheck(i))
    requires s.pay[i].cred in s.index && s.pay[i].deb in s.index ==> s.index[s.pay[i].cred] == s.index[s.pay[i].deb]
    ensures EdgesStayTogether(Do(s, Recheck(i)))
  {
    var t := Do(s, Recheck(i));
    JoinKeepsTogether(s, t, i, t.index[s.pay[i].cred]);
  }

  lemma StepKeepsPartition(s: State, step: Step)
    requires Partitioned(s) && Enabled(s, step)
    ensures Partitioned(Do(s, step))
  {
    var t := Do(s, step);
    StepKeepsInv(s, step);
    if step.Route? {
      RoutePartitions(s, step.i);
      if !s.split {
        RouteKeepsTogether(s, step.i);
      }
    } else if step.Recheck? {
      RecheckPartitions(s, step.i);
      if !t.split {
        RecheckKeepsTogether(s, step.i);
      }
    } else {
      OtherStepIsQuiet(s, step);
      QuietKeepsPartition(s, t);
    }
  }

  lemma OtherStepIsQuiet(s: State, step: Step)
    requires Inv(s) && Enabled(s, step) && !step.Route? && !step.Recheck?
    ensures var t := Do(s, step);
      t.index == s.index && t.routed == s.routed && t.split == s.split && s.pay <= t.pay
  {
    if Mover(step).Some? {
      OtherCallIsQuiet(s, step);
    } else {
      CallsStand(s, step);
    }
  }

  lemma OtherCallIsQuiet(s: State, step: Step)
    requires Inv(s) && Enabled(s, step) && Mover(step).Some? && !step.Route? && !step.Recheck?
    ensures var t := Do(s, step);
      t.index == s.index && t.routed == s.routed && t.split == s.split && t.pay == s.pay
  {
    if step.EndDrain? {
      SecondRelabelIsIdle(s, step.i);
    }
  }

  lemma QuietKeepsPartition(s: State, t: State)
    requires Partitioned(s) && Inv(t)
    requires t.index == s.index && t.routed == s.routed && t.split == s.split && s.pay <= t.pay
    ensures Partitioned(t)
  {
    assert forall i :: i in s.routed ==> i < |s.pay| && t.pay[i] == s.pay[i];
    assert PaymentGraph(t) == PaymentGraph(s);
  }

  lemma ReachablePartitioned(s: State)
    requires Reachable(s)
    ensures Partitioned(s)
  {
    forall t, x | Partitioned(t) && Enabled(t, x)
      ensures Partitioned(Do(t, x))
    {
      StepKeepsPartition(t, x);
    }
    ReachableHas(s, t => Partitioned(t));
  }

  lemma {:induction false} PathStaysInGroup(s: State, path: seq<Iban>, x: Iban, y: Iban)
    requires EdgesStayTogether(s) && Joins(PaymentGraph(s), path, x, y) && x in s.index
    ensures y in s.index && s.index[y] == s.index[x]
    decreases |path|
  {
    if |path| > 1 {
      var n := |path| - 1;
      var q := path[..n];
      assert forall k :: 0 <= k < |q| - 1 ==> Linked(PaymentGraph(s), path[k], path[k + 1]);
      PathStaysInGroup(s, q, x, path[n - 1]);
      assert Linked(PaymentGraph(s), path[n - 1], path[n - 1 + 1]);
    }
  }

  /** Two IBANs of one group are always connected by routed payments; and as long as no
      re-check has split a group, an IBAN's group is exactly its connected component. */
  lemma GroupsAreComponents(s: State, x: Iban, y: Iban)
    requires Reachable(s) && x in s.index
    ensures y in s.index && s.index[x] == s.index[y] ==> Connected(PaymentGraph(s), x, y)
    ensures !s.split && Connected(PaymentGraph(s), x, y) ==> y in s.index && s.index[x] == s.index[y]
  {
    ReachablePartitioned(s);
    if !s.split && Connected(PaymentGraph(s), x, y) {
      var path :| Joins(PaymentGraph(s), path, x, y);
      PathStaysInGroup(s, path, x, y);
    }
  }
}
