/** The outbox relay: it reads unsent requests, sends them to Kafka and marks what was sent. */
module Outbox {
  import opened Tables
  import opened Repository

  /** A Kafka message of the request topic. */
  datatype Msg = Msg(key: string, value: Request)

  datatype Event = Event(txid: string, payload: Request)

  /** What becomes of one event of a batch. A refused send may have been delivered all the same. */
  datatype Fate = Malformed | Refused(delivered: bool) | Acked

  function MsgOf(e: Event): Msg {
    Msg(e.payload.txid, e.payload)
  }

  predicate Delivers(f: Fate) {
    f.Acked? || (f.Refused? && f.delivered)
  }

  /** The messages a batch leaves in the log. */
  function Emitted(events: seq<Event>, fate: string -> Fate): seq<Msg> {
    if events == [] then []
    else
      var e := events[|events| - 1];
      Emitted(events[..|events| - 1], fate) + if Delivers(fate(e.txid)) then [MsgOf(e)] else []
  }

  /** The identifiers that are marked at the end of the batch. */
  function AckedIds(events: seq<Event>, fate: string -> Fate): seq<string> {
    if events == [] then []
    else
      var e := events[|events| - 1];
      AckedIds(events[..|events| - 1], fate) + if fate(e.txid).Acked? then [e.txid] else []
  }

  predicate Unsent(outbox: map<string, OutboxRow>, t: string) {
    t in outbox && !outbox[t].sent
  }

  predicate Listed(events: seq<Event>, t: string) {
    exists k :: 0 <= k < |events| && events[k].txid == t
  }

  /** The oldest unsent rows, at most `limit` of them, each once, oldest first. */
  ghost predicate IsBatch(outbox: map<string, OutboxRow>, limit: nat, events: seq<Event>) {
    && |events| <= limit
    && (forall k :: 0 <= k < |events| ==>
          Unsent(outbox, events[k].txid) && events[k].payload == outbox[events[k].txid].payload)
    && (forall k, l :: 0 <= k < l < |events| ==>
          events[k].txid != events[l].txid && outbox[events[k].txid].created <= outbox[events[l].txid].created)
    && (forall t :: Unsent(outbox, t) && !Listed(events, t) ==>
          |events| == limit && forall k :: 0 <= k < |events| ==> outbox[events[k].txid].created <= outbox[t].created)
  }

  function Members(ids: seq<string>): set<string> {
    set t | t in ids
  }

  lemma NothingToMark(outbox: map<string, OutboxRow>)
    ensures MarkRows(outbox, Members([])) == outbox
  {
    assert Members([]) == {};
  }

  lemma BatchGoesOn(events: seq<Event>, fate: string -> Fate, k: nat)
    requires k < |events|
    ensures Emitted(events[..k + 1], fate) ==
      Emitted(events[..k], fate) + if Delivers(fate(events[k].txid)) then [MsgOf(events[k])] else []
    ensures AckedIds(events[..k + 1], fate) ==
      AckedIds(events[..k], fate) + if fate(events[k].txid).Acked? then [events[k].txid] else []
  {
    assert events[..k + 1][..k] == events[..k];
  }

  class Store {
    var outbox: map<string, OutboxRow>

    method FetchUnsent(limit: nat, fails: bool) returns (err: bool, events: seq<Event>)
      ensures err == fails
      ensures if fails then events == [] else IsBatch(outbox, limit, events)
    {
      err, events := fails, [];
      if fails { return; }
      var ages := map t | t in outbox :: outbox[t].created;
      var ids := SortByAge(ages, set t | t in outbox && !outbox[t].sent);
      var n := if limit < |ids| then limit else |ids|;
      for k := 0 to n
        invariant |events| == k
        invariant forall j :: 0 <= j < k ==>
          Unsent(outbox, ids[j]) && events[j] == Event(ids[j], outbox[ids[j]].payload)
      {
        assert ids[k] in ids;
        events := events + [Event(ids[k], outbox[ids[k]].payload)];
      }
      forall t | Unsent(outbox, t) && !Listed(events, t)
        ensures |events| == limit && forall k :: 0 <= k < |events| ==>
          outbox[events[k].txid].created <= outbox[t].created
      {
        assert t in ids;
        var m :| 0 <= m < |ids| && ids[m] == t;
        assert m < n ==> events[m].txid == t;
      }
    }

    /** No statement is issued for an empty list. */
    method MarkSent(ids: seq<string>, fails: bool) returns (err: bool)
      modifies this
      ensures err <==> ids != [] && fails
      ensures outbox == if err then old(outbox) else MarkRows(old(outbox), Members(ids))
    {
      if ids == [] { return false; }
      if fails { return true; }
      outbox := MarkRows(outbox, Members(ids));
      return false;
    }
  }

  /** The request topic, to which messages are only ever appended. */
  class Topic {
    var log: seq<Msg>

    method Send(m: Msg, fate: Fate) returns (err: bool)
      requires !fate.Malformed?
      modifies this
      ensures err <==> !fate.Acked?
      ensures log == old(log) + if fate == Acked || fate == Refused(true) then [m] else []
    {
      if Delivers(fate) {
        log := log + [m];
      }
      return !fate.Acked?;
    }
  }

  class Worker {
    const store: Store
    const topic: Topic
    const batch: nat

    constructor (store: Store, topic: Topic, batch: nat)
      ensures this.store == store && this.topic == topic && this.batch == batch
    {
      this.store, this.topic, this.batch := store, topic, batch;
    }

    /** One tick. An event that is malformed or refused is skipped, and the rest of the
        batch goes on. */
    method RunOnce(fate: string -> Fate, fetchFails: bool, markFails: bool) returns (ghost events: seq<Event>)
      modifies store, topic
      ensures if fetchFails then events == [] else IsBatch(old(store.outbox), batch, events)
      ensures topic.log == old(topic.log) + Emitted(events, fate)
      ensures store.outbox ==
        if markFails then old(store.outbox) else MarkRows(old(store.outbox), Members(AckedIds(events, fate)))
    {
      var err, fetched := store.FetchUnsent(batch, fetchFails);
      events := fetched;
      NothingToMark(store.outbox);
      if err || |fetched| == 0 { return; }
      var sentIds := [];
      for k := 0 to |fetched|
        invariant store.outbox == old(store.outbox)
        invariant topic.log == old(topic.log) + Emitted(fetched[..k], fate)
        invariant sentIds == AckedIds(fetched[..k], fate)
      {
        var e := fetched[k];
        BatchGoesOn(fetched, fate, k);
        if fate(e.txid).Malformed? { continue; }
        var failed := topic.Send(MsgOf(e), fate(e.txid));
        if failed { continue; }
        sentIds := sentIds + [e.txid];
      }
      assert fetched[..|fetched|] == fetched;
      var _ := store.MarkSent(sentIds, markFails);
    }
  }

  // ----- what the relay keeps -----

  /** Every row marked as sent has its message in the log, and every logged message is the
      request of an outbox row, under that row's key. */
  ghost predicate RelayOk(outbox: map<string, OutboxRow>, log: seq<Msg>) {
    && (forall t :: t in outbox ==> outbox[t].payload.txid == t)
    && (forall t :: t in outbox && outbox[t].sent ==> Msg(t, outbox[t].payload) in log)
    && (forall m :: m in log ==> m.key in outbox && m.value == outbox[m.key].payload)
  }

  lemma {:induction false} EmittedFrom(events: seq<Event>, fate: string -> Fate, m: Msg)
    requires m in Emitted(events, fate)
    ensures exists k :: 0 <= k < |events| && m == MsgOf(events[k]) && Delivers(fate(events[k].txid))
  {
    var n := |events| - 1;
    if m in Emitted(events[..n], fate) {
      EmittedFrom(events[..n], fate, m);
    }
  }

  lemma {:induction false} AckedWasEmitted(events: seq<Event>, fate: string -> Fate, k: nat)
    requires k < |events|
    ensures Delivers(fate(events[k].txid)) ==> MsgOf(events[k]) in Emitted(events, fate)
    ensures fate(events[k].txid).Acked? ==> events[k].txid in AckedIds(events, fate)
  {
    var n := |events| - 1;
    if k < n {
      AckedWasEmitted(events[..n], fate, k);
    }
  }

  lemma {:induction false} AckedFrom(events: seq<Event>, fate: string -> Fate, t: string)
    requires t in AckedIds(events, fate)
    ensures exists k :: 0 <= k < |events| && events[k].txid == t && fate(t).Acked?
  {
    var n := |events| - 1;
    if t in AckedIds(events[..n], fate) {
      AckedFrom(events[..n], fate, t);
    }
  }

  /** A batch, whatever becomes of its events and whether or not it is marked, keeps the
      relay in order; and exactly the acknowledged rows of a marked batch stop being unsent. */
  lemma BatchKeepsRelay(outbox: map<string, OutboxRow>, log: seq<Msg>, limit: nat, events: seq<Event>,
          fate: string -> Fate)
    requires RelayOk(outbox, log) && IsBatch(outbox, limit, events)
    ensures RelayOk(outbox, log + Emitted(events, fate))
    ensures RelayOk(MarkRows(outbox, Members(AckedIds(events, fate))), log + Emitted(events, fate))
    ensures forall t :: Unsent(MarkRows(outbox, Members(AckedIds(events, fate))), t) <==>
      Unsent(outbox, t) && !(Listed(events, t) && fate(t).Acked?)
  {
    var after := log + Emitted(events, fate);
    var marked := MarkRows(outbox, Members(AckedIds(events, fate)));
    forall m | m in Emitted(events, fate)
      ensures m.key in outbox && m.value == outbox[m.key].payload
    {
      EmittedFrom(events, fate, m);
    }
    forall t | t in AckedIds(events, fate)
      ensures Listed(events, t) && fate(t).Acked? && Msg(t, outbox[t].payload) in after
    {
      AckedFrom(events, fate, t);
      var k: nat :| k < |events| && events[k].txid == t;
      AckedWasEmitted(events, fate, k);
    }
    forall t | Listed(events, t) && fate(t).Acked?
      ensures t in AckedIds(events, fate)
    {
      var k: nat :| k < |events| && events[k].txid == t;
      AckedWasEmitted(events, fate, k);
    }
  }

  /** Earlier messages of a batch are those of older rows. */
  ghost predicate OldestSentFirst(outbox: map<string, OutboxRow>, ms: seq<Msg>) {
    && (forall m :: m in ms ==> m.key in outbox)
    && (forall i, j :: 0 <= i < j < |ms| ==> outbox[ms[i].key].created <= outbox[ms[j].key].created)
  }

  lemma OlderThanNext(outbox: map<string, OutboxRow>, ms: seq<Msg>, m: Msg)
    requires OldestSentFirst(outbox, ms) && m.key in outbox
    requires forall x :: x in ms ==> outbox[x.key].created <= outbox[m.key].created
    ensures OldestSentFirst(outbox, ms + [m])
  {
    assert forall i :: 0 <= i < |ms| ==> ms[i] in ms;
  }

  /** Events come oldest first, each under the key of its row. */
  ghost predicate EventsByAge(outbox: map<string, OutboxRow>, events: seq<Event>) {
    && (forall k :: 0 <= k < |events| ==> events[k].txid in outbox && events[k].payload.txid == events[k].txid)
    && (forall k, l :: 0 <= k < l < |events| ==> outbox[events[k].txid].created <= outbox[events[l].txid].created)
  }

  lemma {:induction false} EmittedByAge(outbox: map<string, OutboxRow>, events: seq<Event>, fate: string -> Fate)
    requires EventsByAge(outbox, events)
    ensures OldestSentFirst(outbox, Emitted(events, fate))
  {
    if events != [] {
      var n := |events| - 1;
      EmittedByAge(outbox, events[..n], fate);
      forall m | m in Emitted(events[..n], fate)
        ensures outbox[m.key].created <= outbox[events[n].txid].created
      {
        EmittedFrom(events[..n], fate, m);
      }
      OlderThanNext(outbox, Emitted(events[..n], fate), MsgOf(events[n]));
    }
  }

  /** A tick sends its messages in the order in which their rows were written. */
  lemma EmittedOldestFirst(outbox: map<string, OutboxRow>, log: seq<Msg>, limit: nat, events: seq<Event>,
          fate: string -> Fate)
    requires RelayOk(outbox, log) && IsBatch(outbox, limit, events)
    ensures OldestSentFirst(outbox, Emitted(events, fate))
  {
    EmittedByAge(outbox, events, fate);
  }

  /** A row that was not acknowledged is in the next batch, unless enough older rows fill it. */
  lemma UnackedStaysFetchable(outbox: map<string, OutboxRow>, limit: nat, events: seq<Event>, fate: string -> Fate,
                              next: seq<Event>, t: string)
    requires IsBatch(outbox, limit, events) && Unsent(outbox, t) && !(Listed(events, t) && fate(t).Acked?)
    requires IsBatch(MarkRows(outbox, Members(AckedIds(events, fate))), limit, next)
    ensures Listed(next, t) || (|next| == limit && forall k :: 0 <= k < |next| ==>
      next[k].txid in outbox && outbox[next[k].txid].created <= outbox[t].created)
  {
    if t in AckedIds(events, fate) {
      AckedFrom(events, fate, t);
    }
  }
}
