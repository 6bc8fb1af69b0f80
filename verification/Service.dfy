/** The whole service: database, request topic, and one process that boots, recovers,
    serves requests, dispatches, relays its outbox and can crash between any two steps. */
module Service {
  import opened Common
  import opened Codec
  import opened Tables
  import opened Outbox
  import D = DispatcherSteps
  import Runs
  import Sequential
  import Serialisation

  datatype Phase =
    | Starting                       // relay and result consumer run; recovery has not read the tables
    | Recovering(todo: seq<TxRecord>) // read, but not yet handed to `add`
    | Serving                        // HTTP open

  /** A batch of the relay: events still to send, and identifiers acknowledged so far. */
  datatype Batch = Batch(todo: seq<Event>, acked: set<string>)

  /** Everything a crash erases. */
  datatype Memory = Memory(
    phase: Phase,
    d: D.State,
    calls: map<string, D.Payment>, // PaymentCMD between InsertTX and `add`
    unheld: set<string>,           // pending rows that nothing in this process knows of
    committed: set<nat>,           // payments whose ProcessTX has committed
    relay: Option<Batch>)

  datatype Sys = Sys(max: nat, limit: nat, db: Db, topic: seq<Msg>, proc: Option<Memory>)

  datatype Act =
    | Boot | Crash
    | Load(rs: seq<TxRecord>) | LoadFails | RecoverNext | Serve
    | Accept(q: PaymentRequest, txid: string, now: int, reported: bool) // InsertTX commits
    | HandOver(txid: string)                                            // PaymentCMD calls `add`
    | Dispatch(step: D.Step)
    | Commit(g: nat, now: int)                                          // ProcessTX commits
    | Settle(txid: string, result: Status, now: int)                    // a result is stored
    | Fetch(events: seq<Event>) | SendNext(fate: Fate) | Mark(fails: bool)

  function Init(max: nat, limit: nat): Sys {
    Sys(max, limit, EmptyDb(), [], None)
  }

  function PayOf(tx: PaymentTx): D.Payment {
    D.Payment(tx.txid, tx.ete, tx.creditor.iban, tx.debtor.iban)
  }

  function ToRequest(p: D.Payment): Request {
    Request(p.txid, p.ete, p.deb, p.cred)
  }

  /** The payment the worker of group g has in hand. */
  function InHand(d: D.State, g: nat): Option<nat> {
    if g < |d.groups| && D.Flight(d.groups[g].worker) != [] then Some(D.Flight(d.groups[g].worker)[0]) else None
  }

  ghost predicate Enabled(s: Sys, a: Act) {
    if s.proc.None? then a.Boot?
    else
      var m := s.proc.value;
      match a
      case Boot => false
      case Crash => true
      case Load(rs) => m.phase.Starting? && IsRecoveryList(s.db, rs)
      case LoadFails => m.phase.Starting?
      case RecoverNext => m.phase.Recovering? && m.phase.todo != [] && Sequential.AllReturned(m.d)
      case Serve => m.phase == Recovering([]) && Sequential.AllReturned(m.d)
      case Accept(q, txid, now, _) =>
        m.phase.Serving? && FromRequest(q, txid).Ok? && Insertable(s.db, ToRecord(FromRequest(q, txid).value, now))
      case HandOver(txid) => txid in m.calls
      case Dispatch(step) => !step.Submit? && D.Enabled(m.d, step)
      case Commit(g, _) =>
        var p := InHand(m.d, g);
        p.Some? && p.value < |m.d.pay| && p.value !in m.committed && m.d.pay[p.value].txid !in s.db.outbox
      case Settle(txid, result, _) =>
        (exists v :: v in s.topic && v.key == txid) && txid in s.db.history && (result.Completed? || result.Failed?)
      case Fetch(events) => m.relay.None? && events != [] && IsBatch(s.db.outbox, s.limit, events)
      case SendNext(_) => m.relay.Some? && m.relay.value.todo != []
      case Mark(_) => m.relay.Some? && m.relay.value.todo == []
  }

  function Submitted(m: Memory, p: D.Payment): Memory {
    m.(d := D.Do(m.d, D.Submit(p)))
  }

  /** The first queued record, decoded, is handed to `add`; one that cannot be is skipped. */
  function RecoverOne(m: Memory, decoded: Result<PaymentTx>): Memory
    requires m.phase.Recovering? && m.phase.todo != []
  {
    var rest := m.(phase := Recovering(m.phase.todo[1..]));
    match decoded
    case Ok(tx) => Submitted(rest, PayOf(tx))
    case Err(_) => rest.(unheld := m.unheld + {m.phase.todo[0].txid})
  }

  /** InsertTX has committed; PaymentCMD goes on to call `add` only if it gets the reply. */
  function Accepted(s: Sys, tx: PaymentTx, now: int, reported: bool): Sys
    requires s.proc.Some?
  {
    var m := s.proc.value;
    s.(db := Inserted(s.db, ToRecord(tx, now), now),
       proc := Some(if reported then m.(calls := m.calls[tx.txid := PayOf(tx)])
         else m.(unheld := m.unheld + {tx.txid})))
  }

  function SendOne(b: Batch, fate: Fate): Batch
    requires b.todo != []
  {
    Batch(b.todo[1..], if fate.Acked? then b.acked + {b.todo[0].txid} else b.acked)
  }

  ghost function Do(s: Sys, a: Act): Sys
    requires Enabled(s, a)
  {
    if a.Boot? then
      s.(proc := Some(Memory(Starting, D.Init(s.max), map[], s.db.pending.Keys, {}, None)))
    else
      var m := s.proc.value;
      match a
      case Crash => s.(proc := None)
      case Load(rs) => s.(proc := Some(m.(phase := Recovering(rs), unheld := {})))
      case LoadFails => s.(proc := Some(m.(phase := Serving)))
      case RecoverNext => s.(proc := Some(RecoverOne(m, FromRecord(m.phase.todo[0]))))
      case Serve => s.(proc := Some(m.(phase := Serving)))
      case Accept(q, txid, now, reported) => Accepted(s, FromRequest(q, txid).value, now, reported)
      case HandOver(txid) =>
        s.(proc := Some(Submitted(m.(calls := m.calls - {txid}), m.calls[txid])))
      case Dispatch(step) => s.(proc := Some(m.(d := D.Do(m.d, step))))
      case Commit(g, now) =>
        var p := InHand(m.d, g).value;
        s.(db := ProcessedTX(s.db, ToRequest(m.d.pay[p]), now), proc := Some(m.(committed := m.committed + {p})))
      case Settle(txid, result, now) => s.(db := Persisted(s.db, txid, result, now))
      case Fetch(events) => s.(proc := Some(m.(relay := Some(Batch(events, {})))))
      case SendNext(fate) =>
        s.(topic := s.topic + if Delivers(fate) then [MsgOf(m.relay.value.todo[0])] else [],
           proc := Some(m.(relay := Some(SendOne(m.relay.value, fate)))))
      case Mark(fails) =>
        s.(db := if fails then s.db else Marked(s.db, m.relay.value.acked), proc := Some(m.(relay := None)))
  }

  ghost function Next(s: Sys, a: Act): Sys {
    if Enabled(s, a) then Do(s, a) else s
  }

  ghost function Machine(): Runs.System<Sys, Act> {
    Runs.System((s: Sys, a: Act) => Enabled(s, a), (s: Sys, a: Act) => Next(s, a))
  }

  /** Some run of the service, from empty tables, leads to s. */
  ghost predicate Reachable(s: Sys) {
    Runs.Reaches(Machine(), Init(s.max, s.limit), s)
  }

  // ----- what every run keeps -----

  /** The stored row of a payment names the same accounts and the same ETE. */
  ghost predicate Known(db: Db, p: D.Payment) {
    p.txid in db.history && ToRequest(p) == RequestOf(p.txid, db.history[p.txid])
  }

  /** A payment that waits for ProcessTX is pending, one that had its ProcessTX is in the outbox. */
  ghost predicate PaymentsOk(db: Db, pay: seq<D.Payment>, committed: set<nat>) {
    forall i :: 0 <= i < |pay| ==>
      Known(db, pay[i]) && if i in committed then pay[i].txid in db.outbox else pay[i].txid in db.pending
  }

  /** Queued records can be decoded, and are pending. */
  ghost predicate QueueOk(db: Db, todo: seq<TxRecord>) {
    forall k :: 0 <= k < |todo| ==>
      FromRecord(todo[k]).Ok? && Known(db, PayOf(FromRecord(todo[k]).value)) && todo[k].txid in db.pending
  }

  ghost predicate CallsOk(db: Db, calls: map<string, D.Payment>) {
    forall t :: t in calls ==> calls[t].txid == t && Known(db, calls[t]) && t in db.pending
  }

  function Todo(ph: Phase): seq<TxRecord> {
    if ph.Recovering? then ph.todo else []
  }

  predicate Handed(pay: seq<D.Payment>, t: string) {
    exists i :: 0 <= i < |pay| && pay[i].txid == t
  }

  predicate Queued(todo: seq<TxRecord>, t: string) {
    exists k :: 0 <= k < |todo| && todo[k].txid == t
  }

  /** No payment is held twice. */
  ghost predicate HeldOnce(pay: seq<D.Payment>, todo: seq<TxRecord>, calls: map<string, D.Payment>,
          unheld: set<string>) {
    && (forall i, j :: 0 <= i < j < |pay| ==> pay[i].txid != pay[j].txid)
    && (forall k, l :: 0 <= k < l < |todo| ==> todo[k].txid != todo[l].txid)
    && (forall t :: Handed(pay, t) ==> !Queued(todo, t) && t !in calls && t !in unheld)
    && (forall t :: Queued(todo, t) ==> t !in calls && t !in unheld)
    && (forall t :: t in calls ==> t !in unheld)
  }

  /** Every pending row is accounted for. */
  ghost predicate Covered(pending: map<string, int>, pay: seq<D.Payment>, todo: seq<TxRecord>,
          calls: map<string, D.Payment>, unheld: set<string>) {
    forall t :: t in pending ==> Handed(pay, t) || Queued(todo, t) || t in calls || t in unheld
  }

  ghost predicate CommittedOk(d: D.State, committed: set<nat>) {
    forall p :: p in committed ==> p < |d.pay| && Serialisation.Begun(d, p)
  }

  ghost predicate BatchOk(outbox: map<string, OutboxRow>, topic: seq<Msg>, relay: Option<Batch>) {
    relay.Some? ==>
      && (forall k :: 0 <= k < |relay.value.todo| ==>
            var e := relay.value.todo[k]; e.txid in outbox && e.payload == outbox[e.txid].payload)
      && (forall t :: t in relay.value.acked ==> t in outbox && Msg(t, outbox[t].payload) in topic)
  }

  ghost predicate PhaseOk(m: Memory) {
    && (m.phase.Starting? ==> m.d.pay == [])
    && (!m.phase.Serving? ==> m.calls == map[] && Sequential.ReachableInTurn(m.d))
    && (m.phase.Recovering? ==> m.unheld == {})
  }

  predicate NoYounger(history: map<string, TxRow>, t: string, u: string) {
    t in history && u in history && history[t].created <= history[u].created
  }

  /** Payments were handed over, and queue, in the order of their creation. */
  ghost predicate Aged(history: map<string, TxRow>, pay: seq<D.Payment>, todo: seq<TxRecord>) {
    && (forall i, j :: 0 <= i < j < |pay| ==> NoYounger(history, pay[i].txid, pay[j].txid))
    && (forall i, k :: 0 <= i < |pay| && 0 <= k < |todo| ==> NoYounger(history, pay[i].txid, todo[k].txid))
    && (forall k, l :: 0 <= k < l < |todo| ==> NoYounger(history, todo[k].txid, todo[l].txid))
  }

  ghost predicate MemoryOk(s: Sys, m: Memory) {
    && m.d.max == s.max && D.Reachable(m.d)
    && PhaseOk(m) && (m.phase.Serving? || Aged(s.db.history, m.d.pay, Todo(m.phase)))
    && PaymentsOk(s.db, m.d.pay, m.committed)
    && QueueOk(s.db, Todo(m.phase))
    && CallsOk(s.db, m.calls)
    && (forall t :: t in m.unheld ==> t in s.db.pending)
    && HeldOnce(m.d.pay, Todo(m.phase), m.calls, m.unheld)
    && Covered(s.db.pending, m.d.pay, Todo(m.phase), m.calls, m.unheld)
    && CommittedOk(m.d, m.committed)
    && BatchOk(s.db.outbox, s.topic, m.relay)
  }

  ghost predicate SysOk(s: Sys) {
    && DbOk(s.db)
    && RelayOk(s.db.outbox, s.topic)
    && (s.proc.Some? ==> MemoryOk(s, s.proc.value))
  }
}
