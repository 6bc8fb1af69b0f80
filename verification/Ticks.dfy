/** One tick of the relay, as its method has it, is a run of the service's relay steps. */
module Ticks {
  import opened Common
  import opened Tables
  import opened Outbox
  import opened Service
  import Runs

  function Sends(events: seq<Event>, fate: string -> Fate): seq<Act> {
    if events == [] then []
    else Sends(events[..|events| - 1], fate) + [SendNext(fate(events[|events| - 1].txid))]
  }

  /** The state after the first n events of a batch. */
  ghost function AfterSends(s: Sys, events: seq<Event>, fate: string -> Fate, n: nat): Sys
    requires s.proc.Some? && n <= |events|
  {
    s.(topic := s.topic + Emitted(events[..n], fate),
       proc := Some(s.proc.value.(relay := Some(Batch(events[n..], Members(AckedIds(events[..n], fate)))))))
  }

  lemma OneSend(s: Sys, events: seq<Event>, fate: string -> Fate, n: nat)
    requires s.proc.Some? && n < |events|
    ensures Enabled(AfterSends(s, events, fate, n), SendNext(fate(events[n].txid)))
    ensures Do(AfterSends(s, events, fate, n), SendNext(fate(events[n].txid))) == AfterSends(s, events, fate, n + 1)
  {
    var e, f := events[n], fate(events[n].txid);
    assert events[..n + 1][..n] == events[..n];
    assert events[n..][1..] == events[n + 1..];
    var sent := if Delivers(f) then [MsgOf(e)] else [];
    assert s.topic + (Emitted(events[..n], fate) + sent) == s.topic + Emitted(events[..n], fate) + sent;
    MembersGrow(AckedIds(events[..n], fate), e.txid);
    assert AckedIds(events[..n], fate) + [] == AckedIds(events[..n], fate);
  }

  lemma MembersGrow(ids: seq<string>, t: string)
    ensures Members(ids + [t]) == Members(ids) + {t}
  {
  }

  lemma NothingSent(s: Sys, events: seq<Event>, fate: string -> Fate)
    requires s.proc.Some? && s.proc.value.relay == Some(Batch(events, {}))
    ensures AfterSends(s, events, fate, 0) == s
  {
    assert s.topic + [] == s.topic && events[0..] == events && Members([]) == {};
  }

  lemma SendsNext(events: seq<Event>, fate: string -> Fate, n: nat)
    requires n < |events|
    ensures Sends(events[..n + 1], fate) == Sends(events[..n], fate) + [SendNext(fate(events[n].txid))]
  {
    assert events[..n + 1][..n] == events[..n];
  }

  lemma SendExtends(s: Sys, events: seq<Event>, fate: string -> Fate, n: nat, acts: seq<Act>)
    requires s.proc.Some? && n < |events| && Runs.Valid(Machine(), s, acts)
    requires Runs.After(Machine(), s, acts) == AfterSends(s, events, fate, n)
    ensures var next := acts + [SendNext(fate(events[n].txid))];
      Runs.Valid(Machine(), s, next) && Runs.After(Machine(), s, next) == AfterSends(s, events, fate, n + 1)
  {
    OneSend(s, events, fate, n);
    Runs.Extend(Machine(), s, acts, SendNext(fate(events[n].txid)));
  }

  /** Sending the events of a batch one by one. */
  lemma {:induction false} SendsRun(s: Sys, events: seq<Event>, fate: string -> Fate, n: nat)
    requires s.proc.Some? && s.proc.value.relay == Some(Batch(events, {})) && n <= |events|
    ensures Runs.Valid(Machine(), s, Sends(events[..n], fate))
    ensures Runs.After(Machine(), s, Sends(events[..n], fate)) == AfterSends(s, events, fate, n)
  {
    if n == 0 {
      NothingSent(s, events, fate);
    } else {
      SendsRun(s, events, fate, n - 1);
      SendsNext(events, fate, n - 1);
      SendExtends(s, events, fate, n - 1, Sends(events[..n - 1], fate));
    }
  }

  /** The state after a tick. */
  ghost function Ticked(s: Sys, events: seq<Event>, fate: string -> Fate, fails: bool): Sys {
    s.(topic := s.topic + Emitted(events, fate),
       db := if fails then s.db else Marked(s.db, Members(AckedIds(events, fate))))
  }

  lemma MarkEnds(s: Sys, events: seq<Event>, fate: string -> Fate, fails: bool)
    requires Enabled(s, Fetch(events))
    ensures var t := AfterSends(Do(s, Fetch(events)), events, fate, |events|);
      Enabled(t, Mark(fails)) && Do(t, Mark(fails)) == Ticked(s, events, fate, fails)
  {
    assert events[..|events|] == events && events[|events|..] == [];
  }

  /** The acts of a tick; nothing follows an empty batch. */
  function TickActs(events: seq<Event>, fate: string -> Fate, fails: bool): seq<Act> {
    if events == [] then [] else [Fetch(events)] + Sends(events, fate) + [Mark(fails)]
  }

  /** What RunOnce does to the tables and the topic is what the relay's steps do. */
  lemma TickIsARun(s: Sys, events: seq<Event>, fate: string -> Fate, fails: bool)
    requires s.proc.Some? && s.proc.value.relay.None? && IsBatch(s.db.outbox, s.limit, events)
    ensures Runs.Valid(Machine(), s, TickActs(events, fate, fails))
    ensures Runs.After(Machine(), s, TickActs(events, fate, fails)) == Ticked(s, events, fate, fails)
  {
    if events == [] {
      EmptyTick(s, fate, fails);
    } else {
      var fetched := Do(s, Fetch(events));
      SendsRun(fetched, events, fate, |events|);
      assert events[..|events|] == events;
      MarkEnds(s, events, fate, fails);
      Runs.Framed(Machine(), s, Fetch(events), Sends(events, fate), Mark(fails),
        AfterSends(fetched, events, fate, |events|));
    }
  }

  lemma EmptyTick(s: Sys, fate: string -> Fate, fails: bool)
    ensures Ticked(s, [], fate, fails) == s
  {
    assert MarkRows(s.db.outbox, Members([])) == s.db.outbox;
    assert s.topic + [] == s.topic;
  }
}
