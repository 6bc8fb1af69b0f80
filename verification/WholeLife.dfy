/** The undisturbed way of one payment, from empty tables to its stored result. */
module WholeLife {
  import opened Common
  import opened Codec
  import opened Tables
  import opened Outbox
  import opened Service
  import D = DispatcherSteps
  import Lifecycle
  import Runs

  lemma Go(s: Sys, a: Act)
    requires Reachable(s) && Enabled(s, a)
    ensures Reachable(Do(s, a))
  {
    SameSize(s, a);
    Runs.ReachesStep(Machine(), Init(s.max, s.limit), s, a);
  }

  lemma SameSize(s: Sys, a: Act)
    requires Enabled(s, a)
    ensures Do(s, a).max == s.max && Do(s, a).limit == s.limit
  {
  }

  lemma Begin(max: nat, limit: nat) returns (s: Sys)
    ensures Reachable(s) && s == Init(max, limit)
  {
    s := Init(max, limit);
    assert Runs.Valid(Machine(), s, []) && Runs.After(Machine(), s, []) == s;
  }

  /** A process that serves, over these tables, with nothing under way. */
  function Serves(max: nat, limit: nat, db: Db, topic: seq<Msg>, d: D.State, committed: set<nat>): Sys {
    Sys(max, limit, db, topic, Some(Memory(Serving, d, map[], {}, committed, None)))
  }

  lemma OpenForRequests(max: nat, limit: nat) returns (s: Sys)
    ensures Reachable(s) && s == Serves(max, limit, EmptyDb(), [], D.Init(max), {})
  {
    s := Begin(max, limit);
    Go(s, Boot);
    s := Do(s, Boot);
    Go(s, Load([]));
    s := Do(s, Load([]));
    Go(s, Serve);
    s := Do(s, Serve);
  }

  lemma TakeRequest(max: nat, limit: nat, q: PaymentRequest, txid: string, now: int) returns (s: Sys)
    requires FromRequest(q, txid).Ok? && Insertable(EmptyDb(), ToRecord(FromRequest(q, txid).value, now))
    ensures Reachable(s)
    ensures s == Serves(max, limit, Inserted(EmptyDb(), ToRecord(FromRequest(q, txid).value, now), now), [],
                        D.Do(D.Init(max), D.Submit(Lifecycle.PaymentOf(q, txid))), {})
  {
    AcceptedAsRequested(q, txid);
    s := OpenForRequests(max, limit);
    Go(s, Accept(q, txid, now, true));
    s := Do(s, Accept(q, txid, now, true));
    Go(s, HandOver(txid));
    s := Do(s, HandOver(txid));
  }

  // ----- through the dispatcher -----

  /** The only payment is inside ProcessTX, called by the worker of the only group. */
  function Working(max: nat, p: D.Payment): D.State {
    var g := D.Group(0, [], false, false, false, D.Busy(0), [0], [], []);
    D.State(max, [p], [D.Sent], map[][p.deb := 0][p.cred := 0], [g], None, 1, 1, false, [], {0}, false)
  }

  lemma DispatchOne(s: Sys, step: D.Step, e: D.State) returns (t: Sys)
    requires Reachable(s) && s.proc.Some? && !step.Submit? && D.Enabled(s.proc.value.d, step)
    requires e == D.Do(s.proc.value.d, step)
    ensures Reachable(t) && t == s.(proc := Some(s.proc.value.(d := e)))
  {
    Go(s, Dispatch(step));
    t := Do(s, Dispatch(step));
  }

  lemma ReachWorker(max: nat, limit: nat, db: Db, p: D.Payment, s: Sys) returns (t: Sys)
    requires max >= 1 && Reachable(s) && s == Serves(max, limit, db, [], D.Do(D.Init(max), D.Submit(p)), {})
    ensures Reachable(t) && t == Serves(max, limit, db, [], Working(max, p), {})
  {
    var d1, d2, d3, d4 := StepsToWorker(max, p);
    t := DispatchOne(s, D.Route(0), d1);
    t := DispatchOne(t, D.Acquire(0), d2);
    t := DispatchOne(t, D.Recheck(0), d3);
    t := DispatchOne(t, D.Send(0), d4);
    t := DispatchOne(t, D.Recv(0), Working(max, p));
  }

  lemma StepsToWorker(max: nat, p: D.Payment) returns (d1: D.State, d2: D.State, d3: D.State, d4: D.State)
    requires max >= 1
    ensures var d := D.Do(D.Init(max), D.Submit(p));
      && D.Enabled(d, D.Route(0)) && d1 == D.Do(d, D.Route(0))
      && D.Enabled(d1, D.Acquire(0)) && d2 == D.Do(d1, D.Acquire(0))
      && D.Enabled(d2, D.Recheck(0)) && d3 == D.Do(d2, D.Recheck(0))
      && D.Enabled(d3, D.Send(0)) && d4 == D.Do(d3, D.Send(0))
      && D.Enabled(d4, D.Recv(0)) && D.Do(d4, D.Recv(0)) == Working(max, p)
  {
    d1 := D.Do(D.Do(D.Init(max), D.Submit(p)), D.Route(0));
    d2 := D.Do(d1, D.Acquire(0));
    d3 := StepsToSend(d2);
    d4 := StepsToRecv(d3);
  }

  lemma StepsToRecv(d: D.State) returns (e: D.State)
    requires d.pay != []
    requires var p := d.pay[0];
      d == D.State(d.max, [p], [D.Sending(0)], map[][p.deb := 0][p.cred := 0], [D.NewGroup(0)], None, 1, 1,
                   false, [], {0}, false)
    ensures D.Enabled(d, D.Send(0)) && e == D.Do(d, D.Send(0))
    ensures D.Enabled(e, D.Recv(0)) && D.Do(e, D.Recv(0)) == Working(d.max, d.pay[0])
  {
    e := D.Do(d, D.Send(0));
    var g := D.Do(e, D.Recv(0)).groups[0];
    assert g.ch == [] && g.sent == [0];
    assert D.Do(e, D.Recv(0)).groups == [g];
  }

  lemma StepsToSend(d: D.State) returns (e: D.State)
    requires d.pay != [] && d == D.Init(d.max).(pay := [d.pay[0]], adders := [D.HoldSlot], sem := 1)
    ensures D.Enabled(d, D.Recheck(0)) && e == D.Do(d, D.Recheck(0))
    ensures var p := d.pay[0];
      e == D.State(d.max, [p], [D.Sending(0)], map[][p.deb := 0][p.cred := 0], [D.NewGroup(0)], None, 1, 1,
                   false, [], {0}, false)
  {
    e := D.Do(d, D.Recheck(0));
  }

  // ----- through the relay -----

  lemma CommitFirst(s: Sys, max: nat, limit: nat, db: Db, p: D.Payment, now: int) returns (t: Sys)
    requires Reachable(s) && s == Serves(max, limit, db, [], Working(max, p), {}) && p.txid !in db.outbox
    ensures Reachable(t) && t == Serves(max, limit, ProcessedTX(db, ToRequest(p), now), [], Working(max, p), {0})
  {
    assert {} + {0} == {0};
    assert InHand(s.proc.value.d, 0) == Some(0);
    Go(s, Commit(0, now));
    t := Do(s, Commit(0, now));
  }

  /** The only row is fetched and sent, and marked if the send was acknowledged. */
  lemma RelayFirst(s: Sys, txid: string, r: Request, fate: Fate) returns (t: Sys)
    requires Reachable(s) && s.limit >= 1 && s.proc.Some? && s.proc.value.relay.None? && r.txid == txid
    requires s.db.outbox.Keys == {txid} && s.db.outbox[txid].payload == r && !s.db.outbox[txid].sent
    requires fate == Acked || fate == Refused(true)
    ensures Reachable(t)
    ensures t == s.(db := Marked(s.db, if fate.Acked? then {txid} else {}), topic := s.topic + [Msg(txid, r)])
  {
    var events := [Event(txid, r)];
    OnlyRow(s.db.outbox, s.limit, txid, r);
    Go(s, Fetch(events));
    t := Do(s, Fetch(events));
    t := SendOnly(t, events[0], fate);
    Go(t, Mark(false));
    t := Do(t, Mark(false));
  }

  lemma SendOnly(s: Sys, e: Event, fate: Fate) returns (t: Sys)
    requires Reachable(s) && s.proc.Some? && s.proc.value.relay == Some(Batch([e], {})) && e.payload.txid == e.txid
    requires fate == Acked || fate == Refused(true)
    ensures Reachable(t)
    ensures t == s.(topic := s.topic + [Msg(e.txid, e.payload)],
                    proc := Some(s.proc.value.(relay := Some(Batch([], if fate.Acked? then {e.txid} else {})))))
  {
    LastOfBatch(e, fate);
    Go(s, SendNext(fate));
    t := Do(s, SendNext(fate));
  }

  lemma LastOfBatch(e: Event, fate: Fate)
    requires e.payload.txid == e.txid && (fate == Acked || fate == Refused(true))
    ensures SendOne(Batch([e], {}), fate) == Batch([], if fate.Acked? then {e.txid} else {})
    ensures Delivers(fate) && MsgOf(e) == Msg(e.txid, e.payload)
  {
    assert [e][1..] == [] && {} + {e.txid} == {e.txid};
  }

  lemma OnlyRow(outbox: map<string, OutboxRow>, limit: nat, txid: string, r: Request)
    requires limit >= 1 && outbox.Keys == {txid} && outbox[txid].payload == r && !outbox[txid].sent
    ensures IsBatch(outbox, limit, [Event(txid, r)])
  {
    assert Listed([Event(txid, r)], txid) by {
      assert [Event(txid, r)][0].txid == txid;
    }
    assert forall t :: t in outbox ==> t == txid;
  }

  /** The request is stored and committed; nothing has been sent. */
  lemma ReachOutbox(max: nat, limit: nat, q: PaymentRequest, txid: string, now: int, mid: int) returns (s: Sys)
    requires max >= 1 && Fits(q, txid)
    ensures Reachable(s) && s.max == max && s.limit == limit && s.topic == [] && s.db.pending == map[]
    ensures s.proc.Some? && s.proc.value.relay.None?
    ensures s.db.outbox == map[txid := OutboxRow(RequestFor(q, txid), mid, false)]
    ensures s.db.history == map[txid := RowFor(q, Processing, now, mid)]
  {
    var p := Lifecycle.PaymentOf(q, txid);
    var r := AcceptedRecord(q, txid, now);
    var db := Inserted(EmptyDb(), r, now);
    s := TakeRequest(max, limit, q, txid, now);
    s := ReachWorker(max, limit, db, p, s);
    s := CommitFirst(s, max, limit, db, p, mid);
  }

  /** A valid request that the columns can hold. */
  predicate Fits(q: PaymentRequest, txid: string) {
    ValidRequest(q) && |txid| <= 35 && |q.txType| <= 3 && |q.debtor.name| <= 255 && |q.creditor.name| <= 255
  }

  function RequestFor(q: PaymentRequest, txid: string): Request {
    Request(txid, q.ete, q.debtorAcc.iban, q.creditorAcc.iban)
  }

  function RowFor(q: PaymentRequest, status: Status, created: int, updated: int): TxRow
    requires q.amount.Some?
  {
    TxRow(status, q.amount.value, q.currency, q.ete, q.txType, q.debtorAcc.iban, q.creditorAcc.iban, created, updated)
  }

  /** With a slot, and a batch of one at least, every valid request that the columns can hold can
      go all the way: it is stored, processed, sent once to the topic as it was asked for, marked
      as sent, and its result, whichever it is, is stored. */
  lemma EveryRequestCanComplete(max: nat, limit: nat, q: PaymentRequest, txid: string, result: Status,
          now: int, mid: int, later: int) returns (s: Sys)
    requires max >= 1 && limit >= 1 && Fits(q, txid) && (result.Completed? || result.Failed?)
    ensures Reachable(s) && s.max == max && s.limit == limit
    ensures s.topic == [Msg(txid, RequestFor(q, txid))]
    ensures s.db.outbox == map[txid := OutboxRow(RequestFor(q, txid), mid, true)]
    ensures s.db.pending == map[] && s.db.history == map[txid := RowFor(q, result, now, later)]
    ensures forall other, again :: other == Completed || other == Failed ==> Enabled(s, Settle(txid, other, again))
  {
    s := ReachOutbox(max, limit, q, txid, now, mid);
    s := RelayFirst(s, txid, RequestFor(q, txid), Acked);
    s := SettleFirst(s, txid, result, later);
  }

  /** A message can be in the topic twice, if the first send is refused but delivered. */
  lemma RequestCanBeSentTwice(max: nat, limit: nat, q: PaymentRequest, txid: string, now: int, mid: int)
    returns (s: Sys)
    requires max >= 1 && limit >= 1 && Fits(q, txid)
    ensures Reachable(s) && s.max == max && s.limit == limit
    ensures s.topic == [Msg(txid, RequestFor(q, txid)), Msg(txid, RequestFor(q, txid))]
  {
    s := ReachOutbox(max, limit, q, txid, now, mid);
    s := RelayFirst(s, txid, RequestFor(q, txid), Refused(true));
    s := RelayFirst(s, txid, RequestFor(q, txid), Acked);
  }

  lemma SettleFirst(s: Sys, txid: string, result: Status, now: int) returns (t: Sys)
    requires (result.Completed? || result.Failed?) && Reachable(s) && s.proc.Some? && txid in s.db.history
    requires |s.topic| == 1 && s.topic[0].key == txid
    ensures Reachable(t) && t == s.(db := Persisted(s.db, txid, result, now))
  {
    Go(s, Settle(txid, result, now));
    t := Do(s, Settle(txid, result, now));
  }

  lemma AcceptedRecord(q: PaymentRequest, txid: string, now: int) returns (r: TxRecord)
    requires Fits(q, txid)
    ensures FromRequest(q, txid).Ok? && r == ToRecord(FromRequest(q, txid).value, now) && Insertable(EmptyDb(), r)
    ensures RowOf(r, now) == RowFor(q, Pending, now, now)
  {
    AcceptedExactlyWhenValid(q, ToRecord(FromRequest(q, txid).value, now), txid);
    AcceptedAsRequested(q, txid);
    RefusedExactly(EmptyDb(), q, txid, now);
    r := ToRecord(FromRequest(q, txid).value, now);
  }
}
