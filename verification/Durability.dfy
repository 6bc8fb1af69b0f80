/** What survives any run of the service, with crashes, restarts and failures at any step. */
module Durability {
  import opened Common
  import opened Codec
  import opened Tables
  import opened Repository
  import opened Outbox
  import opened Service
  import C = Conservation
  import I = DispatcherInvariants
  import D = DispatcherSteps
  import Runs
  import Sequential
  import Serialisation
  import Workload
  import Ordering

  // ----- how the durable state may move -----

  function Rank(st: Status): nat {
    match st
    case Pending => 0
    case Processing => 1
    case _ => 2
  }

  /** Later tables keep every party, every account, and every payment with all its fields but the
      status and its time, never move a status back, keep
      every outbox row with its request, and let a pending row leave only for the outbox. */
  ghost predicate Continues(db: Db, next: Db) {
    && RowsStay(db.parties, next.parties) && RowsStay(db.accounts, next.accounts)
    && HistoryGoesOn(db.history, next.history)
    && OutboxGoesOn(db.outbox, next.outbox)
    && (forall t :: t in db.pending ==> t in next.pending || t in next.outbox)
  }

  /** Rows are only ever added. */
  ghost predicate RowsStay<V>(m: map<string, V>, next: map<string, V>) {
    forall k :: k in m ==> k in next && next[k] == m[k]
  }

  ghost predicate HistoryGoesOn(history: map<string, TxRow>, next: map<string, TxRow>) {
    forall t :: t in history ==>
      && t in next && next[t] == history[t].(status := next[t].status, updated := next[t].updated)
      && Rank(history[t].status) <= Rank(next[t].status)
  }

  ghost predicate OutboxGoesOn(outbox: map<string, OutboxRow>, next: map<string, OutboxRow>) {
    forall t :: t in outbox ==>
      && t in next && next[t].payload == outbox[t].payload && (outbox[t].sent ==> next[t].sent)
  }

  ghost predicate Evolves(s: Sys, t: Sys) {
    s.max == t.max && s.limit == t.limit && Continues(s.db, t.db) && s.topic <= t.topic
  }

  // ----- frames -----

  /** The process sees later tables with the same pending rows and a longer topic. */
  lemma TablesMoveUnder(s: Sys, t: Sys, m: Memory)
    requires MemoryOk(s, m) && Evolves(s, t)
    requires forall x :: x in t.db.pending <==> x in s.db.pending
    ensures MemoryOk(t, m)
  {
    QueueMoves(s.db, t.db, Todo(m.phase));
    PaymentsMove(s.db, t.db, m.d.pay, m.committed);
    CallsMove(s.db, t.db, m.calls);
    BatchMoves(s, t, m.relay);
    if !m.phase.Serving? {
      AgesMove(s.db.history, t.db.history, m.d.pay, Todo(m.phase));
    }
  }

  lemma QueueMoves(db: Db, next: Db, todo: seq<TxRecord>)
    requires QueueOk(db, todo) && Continues(db, next)
    requires forall k :: 0 <= k < |todo| ==> todo[k].txid in next.pending
    ensures QueueOk(next, todo)
  {
  }

  lemma AgesMove(history: map<string, TxRow>, next: map<string, TxRow>, pay: seq<D.Payment>, todo: seq<TxRecord>)
    requires Aged(history, pay, todo) && HistoryGoesOn(history, next)
    ensures Aged(next, pay, todo)
  {
    assert forall t, u :: NoYounger(history, t, u) ==> NoYounger(next, t, u);
  }

  lemma PaymentsMove(db: Db, next: Db, pay: seq<D.Payment>, committed: set<nat>)
    requires PaymentsOk(db, pay, committed) && Continues(db, next)
    requires forall t :: t in db.pending ==> t in next.pending
    ensures PaymentsOk(next, pay, committed)
  {
  }

  lemma CallsMove(db: Db, next: Db, calls: map<string, D.Payment>)
    requires CallsOk(db, calls) && Continues(db, next)
    requires forall t :: t in calls ==> t in next.pending
    ensures CallsOk(next, calls)
  {
  }

  lemma BatchMoves(s: Sys, t: Sys, relay: Option<Batch>)
    requires BatchOk(s.db.outbox, s.topic, relay) && Evolves(s, t)
    ensures BatchOk(t.db.outbox, t.topic, relay)
  {
    assert forall v :: v in s.topic ==> v in t.topic;
  }

  // ----- boot and recovery -----

  lemma StartedEmpty(max: nat)
    ensures D.Reachable(D.Init(max)) && Sequential.ReachableInTurn(D.Init(max))
  {
    assert Runs.Valid(Sequential.Machine(), D.Init(max), []);
    assert Runs.After(Sequential.Machine(), D.Init(max), []) == D.Init(max);
    assert Runs.Valid(D.Machine(), D.Init(max), []);
    assert Runs.After(D.Machine(), D.Init(max), []) == D.Init(max);
  }

  lemma BootKeepsOk(s: Sys)
    requires SysOk(s) && Enabled(s, Boot)
    ensures SysOk(Do(s, Boot))
  {
    StartedEmpty(s.max);
    NothingHeld(s.db.pending);
  }

  lemma NothingHeld(pending: map<string, int>)
    ensures HeldOnce([], [], map[], pending.Keys) && Covered(pending, [], [], map[], pending.Keys)
  {
  }

  lemma LoadKeepsOk(s: Sys, rs: seq<TxRecord>)
    requires SysOk(s) && Enabled(s, Load(rs))
    ensures SysOk(Do(s, Load(rs)))
  {
    forall k | 0 <= k < |rs|
      ensures FromRecord(rs[k]).Ok? && Known(s.db, PayOf(FromRecord(rs[k]).value)) && rs[k].txid in s.db.pending
    {
      PendingIsRecoverable(s.db, rs[k].txid);
    }
    forall t | t in s.db.pending
      ensures Queued(rs, t)
    {
      RecoveryListIsComplete(s.db, rs, t);
    }
    ListIsAged(s.db, rs);
  }

  lemma ListIsAged(db: Db, rs: seq<TxRecord>)
    requires DbOk(db) && IsRecoveryList(db, rs)
    ensures Aged(db.history, [], rs)
  {
    forall t | RowJoined(db, t)
      ensures IsDated(db, t)
    {
      PendingIsDated(db, t);
    }
    DatedListIsAged(db, rs);
  }

  /** The pending table has the creation time of the history. */
  predicate IsDated(db: Db, t: string) {
    t in db.pending && t in db.history && db.pending[t] == db.history[t].created
  }

  lemma DatedListIsAged(db: Db, rs: seq<TxRecord>)
    requires IsRecoveryList(db, rs) && forall t :: RowJoined(db, t) ==> IsDated(db, t)
    ensures Aged(db.history, [], rs)
  {
  }

  lemma PendingIsDated(db: Db, t: string)
    requires DbOk(db) && RowJoined(db, t)
    ensures IsDated(db, t)
  {
  }

  // ----- handing a payment to `add` -----

  lemma SubmitStaysReachable(d: D.State, p: D.Payment)
    requires D.Reachable(d)
    ensures D.Reachable(D.Do(d, D.Submit(p)))
    ensures Sequential.ReachableInTurn(d) && Sequential.AllReturned(d) ==>
      Sequential.ReachableInTurn(D.Do(d, D.Submit(p)))
  {
    if Sequential.ReachableInTurn(d) && Sequential.AllReturned(d) {
      Runs.ReachesStep(Sequential.Machine(), D.Init(d.max), d, D.Submit(p));
    }
    Runs.ReachesStep(D.Machine(), D.Init(d.max), d, D.Submit(p));
  }

  lemma HandedAfter(pay: seq<D.Payment>, p: D.Payment)
    ensures forall t :: Handed(pay + [p], t) <==> Handed(pay, t) || t == p.txid
  {
    forall t
      ensures Handed(pay + [p], t) <==> Handed(pay, t) || t == p.txid
    {
      if Handed(pay, t) {
        var i :| 0 <= i < |pay| && pay[i].txid == t;
        assert (pay + [p])[i].txid == t;
      }
      if t == p.txid {
        assert (pay + [p])[|pay|].txid == t;
      }
    }
  }

  lemma CommittedStay(d: D.State, p: D.Payment, committed: set<nat>)
    requires CommittedOk(d, committed)
    ensures CommittedOk(D.Do(d, D.Submit(p)), committed)
  {
    var e := D.Do(d, D.Submit(p));
    forall q | q in committed
      ensures q < |e.pay| && Serialisation.Begun(e, q)
    {
      var g: nat :| Serialisation.BegunAt(d, q, g);
      assert Serialisation.BegunAt(e, q, g);
    }
  }

  lemma FreshIsUncommitted(d: D.State, committed: set<nat>)
    requires CommittedOk(d, committed)
    ensures |d.pay| !in committed
  {
  }

  /** Payment p, held neither by an earlier call of `add` nor by what remains, is handed over. */
  lemma HandIn(s: Sys, m: Memory, rest: Memory, p: D.Payment)
    requires MemoryOk(s, m) && rest == m.(phase := rest.phase, calls := rest.calls) && PhaseOk(rest)
      && !rest.phase.Starting?
    requires rest.phase.Serving? || Sequential.AllReturned(m.d)
    requires Known(s.db, p) && p.txid in s.db.pending
    requires QueueOk(s.db, Todo(rest.phase)) && CallsOk(s.db, rest.calls)
    requires HeldOnce(m.d.pay, Todo(rest.phase), rest.calls, m.unheld)
    requires rest.phase.Serving? || Aged(s.db.history, m.d.pay + [p], Todo(rest.phase))
    requires !Handed(m.d.pay, p.txid) && !Queued(Todo(rest.phase), p.txid) && p.txid !in rest.calls
      && p.txid !in m.unheld
    requires forall t :: (Queued(Todo(m.phase), t) || t in m.calls) && t != p.txid ==>
      Queued(Todo(rest.phase), t) || t in rest.calls
    ensures MemoryOk(s, Submitted(rest, p))
  {
    SubmitStaysReachable(m.d, p);
    HandedApart(m.d.pay, Todo(rest.phase), rest.calls, m.unheld, p);
    HandedAfter(m.d.pay, p);
    CommittedStay(m.d, p, m.committed);
    FreshIsUncommitted(m.d, m.committed);
  }

  lemma HandedApart(pay: seq<D.Payment>, todo: seq<TxRecord>, calls: map<string, D.Payment>,
          unheld: set<string>, p: D.Payment)
    requires HeldOnce(pay, todo, calls, unheld)
    requires !Handed(pay, p.txid) && !Queued(todo, p.txid) && p.txid !in calls && p.txid !in unheld
    ensures HeldOnce(pay + [p], todo, calls, unheld)
  {
    HandedAfter(pay, p);
    assert forall i :: 0 <= i < |pay| ==> Handed(pay, pay[i].txid);
  }

  lemma TailApart(pay: seq<D.Payment>, todo: seq<TxRecord>, calls: map<string, D.Payment>, unheld: set<string>)
    requires HeldOnce(pay, todo, calls, unheld) && todo != []
    ensures HeldOnce(pay, todo[1..], calls, unheld)
    ensures !Queued(todo[1..], todo[0].txid) && Queued(todo, todo[0].txid)
    ensures forall t :: Queued(todo, t) && t != todo[0].txid ==> Queued(todo[1..], t)
  {
    assert todo[0].txid == todo[0].txid;
    forall t | Queued(todo[1..], t)
      ensures Queued(todo, t)
    {
      var k :| 0 <= k < |todo[1..]| && todo[1..][k].txid == t;
      assert todo[k + 1].txid == t;
    }
    forall t | Queued(todo, t) && t != todo[0].txid
      ensures Queued(todo[1..], t)
    {
      var k :| 0 <= k < |todo| && todo[k].txid == t;
      assert todo[1..][k - 1].txid == t;
    }
  }

  /** Recovery never meets a record it cannot decode. */
  lemma EveryRecordDecodes(s: Sys)
    requires SysOk(s) && Enabled(s, RecoverNext)
    ensures var r := s.proc.value.phase.todo[0];
      FromRecord(r).Ok? && FromRecord(r).value.txid == r.txid
  {
    QueueHead(s.db, s.proc.value.phase.todo);
  }

  lemma QueueHead(db: Db, todo: seq<TxRecord>)
    requires QueueOk(db, todo) && todo != []
    ensures FromRecord(todo[0]).Ok? && FromRecord(todo[0]).value.txid == todo[0].txid
  {
  }

  lemma RecoverKeepsOk(s: Sys)
    requires SysOk(s) && Enabled(s, RecoverNext)
    ensures SysOk(Do(s, RecoverNext))
  {
    EveryRecordDecodes(s);
    RecoverDecoded(s, s.proc.value, FromRecord(s.proc.value.phase.todo[0]));
  }

  lemma RecoverDecoded(s: Sys, m: Memory, decoded: Result<PaymentTx>)
    requires MemoryOk(s, m) && m.phase.Recovering? && m.phase.todo != [] && decoded.Ok?
    requires Sequential.AllReturned(m.d)
    requires decoded.value.txid == m.phase.todo[0].txid && Known(s.db, PayOf(decoded.value))
    requires m.phase.todo[0].txid in s.db.pending
    ensures MemoryOk(s, RecoverOne(m, decoded))
  {
    RecoverMemory(s, m, PayOf(decoded.value));
  }

  lemma QueueTail(db: Db, todo: seq<TxRecord>)
    requires QueueOk(db, todo) && todo != []
    ensures QueueOk(db, todo[1..])
  {
  }

  lemma HeadIsHanded(history: map<string, TxRow>, pay: seq<D.Payment>, todo: seq<TxRecord>, p: D.Payment)
    requires Aged(history, pay, todo) && todo != [] && p.txid == todo[0].txid
    ensures Aged(history, pay + [p], todo[1..])
  {
  }

  lemma RecoverMemory(s: Sys, m: Memory, p: D.Payment)
    requires MemoryOk(s, m) && m.phase.Recovering? && m.phase.todo != []
    requires Sequential.AllReturned(m.d)
    requires p.txid == m.phase.todo[0].txid && Known(s.db, p) && p.txid in s.db.pending
    ensures MemoryOk(s, Submitted(m.(phase := Recovering(m.phase.todo[1..])), p))
  {
    var todo := m.phase.todo;
    TailApart(m.d.pay, todo, m.calls, m.unheld);
    QueueTail(s.db, todo);
    HeadIsHanded(s.db.history, m.d.pay, todo, p);
    HandIn(s, m, m.(phase := Recovering(todo[1..])), p);
  }

  lemma HandOverKeepsOk(s: Sys, txid: string)
    requires SysOk(s) && Enabled(s, HandOver(txid))
    ensures SysOk(Do(s, HandOver(txid)))
  {
    HandOverMemory(s, s.proc.value, txid);
  }

  lemma CallTaken(db: Db, pay: seq<D.Payment>, calls: map<string, D.Payment>, unheld: set<string>, t: string)
    requires CallsOk(db, calls) && HeldOnce(pay, [], calls, unheld) && t in calls
    ensures CallsOk(db, calls - {t}) && HeldOnce(pay, [], calls - {t}, unheld)
    ensures calls[t].txid == t && Known(db, calls[t]) && t in db.pending && !Handed(pay, t) && t !in unheld
  {
  }

  lemma HandOverMemory(s: Sys, m: Memory, txid: string)
    requires MemoryOk(s, m) && txid in m.calls
    ensures MemoryOk(s, Submitted(m.(calls := m.calls - {txid}), m.calls[txid]))
  {
    CallTaken(s.db, m.d.pay, m.calls, m.unheld, txid);
    HandIn(s, m, m.(calls := m.calls - {txid}), m.calls[txid]);
  }

  // ----- the transactions -----

  lemma FreshRecordOf(q: PaymentRequest, txid: string, now: int)
    requires FromRequest(q, txid).Ok?
    ensures FreshRecord(ToRecord(FromRequest(q, txid).value, now))
  {
    var r := ToRecord(FromRequest(q, txid).value, now);
    RecoveryInvertsStorage(q, txid, now);
    AcceptedExactlyWhenValid(q, r, txid);
  }

  lemma InsertContinues(db: Db, r: TxRecord, now: int)
    requires Insertable(db, r)
    ensures Continues(db, Inserted(db, r, now))
  {
  }

  /** A payment unknown to the history is held nowhere. */
  lemma UnknownIsUnheld(s: Sys, m: Memory, t: string)
    requires DbOk(s.db) && MemoryOk(s, m) && t !in s.db.history
    ensures !Handed(m.d.pay, t) && !Queued(Todo(m.phase), t) && t !in m.calls && t !in m.unheld
  {
  }

  lemma AcceptMemory(s: Sys, t: Sys, m: Memory, p: D.Payment, reported: bool)
    requires MemoryOk(s, m) && m.phase.Serving? && Evolves(s, t)
    requires !Handed(m.d.pay, p.txid) && p.txid !in m.calls && p.txid !in m.unheld && Known(t.db, p)
    requires forall x :: x in t.db.pending <==> x in s.db.pending || x == p.txid
    ensures MemoryOk(t, if reported then m.(calls := m.calls[p.txid := p]) else m.(unheld := m.unheld + {p.txid}))
  {
    PaymentsMove(s.db, t.db, m.d.pay, m.committed);
    CallsMove(s.db, t.db, m.calls);
    NewcomerApart(t.db.pending, m.d.pay, m.calls, m.unheld, p);
    NewcomerIsCalled(t.db, m.calls, p);
    BatchMoves(s, t, m.relay);
  }

  lemma NewcomerIsCalled(db: Db, calls: map<string, D.Payment>, p: D.Payment)
    requires CallsOk(db, calls) && Known(db, p) && p.txid in db.pending
    ensures CallsOk(db, calls[p.txid := p])
  {
  }

  lemma NewcomerApart(pending: map<string, int>, pay: seq<D.Payment>, calls: map<string, D.Payment>,
          unheld: set<string>, p: D.Payment)
    requires HeldOnce(pay, [], calls, unheld)
    requires !Handed(pay, p.txid) && p.txid !in calls && p.txid !in unheld
    requires forall t :: t in pending ==> Handed(pay, t) || t in calls || t in unheld || t == p.txid
    ensures HeldOnce(pay, [], calls[p.txid := p], unheld) && Covered(pending, pay, [], calls[p.txid := p], unheld)
    ensures HeldOnce(pay, [], calls, unheld + {p.txid}) && Covered(pending, pay, [], calls, unheld + {p.txid})
  {
  }

  lemma InsertedIsKnown(db: Db, tx: PaymentTx, now: int)
    ensures Known(Inserted(db, ToRecord(tx, now), now), PayOf(tx))
  {
  }

  lemma AcceptKeepsOk(s: Sys, q: PaymentRequest, txid: string, now: int, reported: bool)
    requires SysOk(s) && Enabled(s, Accept(q, txid, now, reported))
    ensures SysOk(Do(s, Accept(q, txid, now, reported)))
  {
    FreshRecordOf(q, txid, now);
    AcceptTx(s, FromRequest(q, txid).value, now, reported);
  }

  lemma AcceptTx(s: Sys, tx: PaymentTx, now: int, reported: bool)
    requires SysOk(s) && s.proc.Some? && s.proc.value.phase.Serving?
    requires FreshRecord(ToRecord(tx, now)) && Insertable(s.db, ToRecord(tx, now))
    ensures SysOk(Accepted(s, tx, now, reported))
  {
    var t := Accepted(s, tx, now, reported);
    InsertKeepsOk(s.db, ToRecord(tx, now), now);
    InsertContinues(s.db, ToRecord(tx, now), now);
    InsertedIsKnown(s.db, tx, now);
    UnknownIsUnheld(s, s.proc.value, tx.txid);
    AcceptMemory(s, t, s.proc.value, PayOf(tx), reported);
  }

  lemma ProcessContinues(db: Db, q: Request, now: int)
    requires DbOk(db) && q.txid in db.history && q == RequestOf(q.txid, db.history[q.txid]) && q.txid !in db.outbox
    ensures Continues(db, ProcessedTX(db, q, now))
  {
    RowMoves(db.history, q.txid, db.history[q.txid].(status := Processing, updated := now));
    RowAppears(db.outbox, q.txid, OutboxRow(q, now, false));
  }

  lemma RowMoves(history: map<string, TxRow>, t: string, x: TxRow)
    requires t in history && x == history[t].(status := x.status, updated := x.updated)
    requires Rank(history[t].status) <= Rank(x.status)
    ensures HistoryGoesOn(history, history[t := x])
  {
  }

  lemma RowAppears(outbox: map<string, OutboxRow>, t: string, row: OutboxRow)
    requires t !in outbox
    ensures OutboxGoesOn(outbox, outbox[t := row])
  {
  }

  /** The insert into the outbox never clashes: a payment whose ProcessTX has not committed
      in this process has no outbox row. */
  lemma OutboxKeyIsFree(s: Sys, p: nat)
    requires SysOk(s) && s.proc.Some? && p < |s.proc.value.d.pay| && p !in s.proc.value.committed
    ensures s.proc.value.d.pay[p].txid in s.db.pending && s.proc.value.d.pay[p].txid !in s.db.outbox
  {
  }

  lemma CommitMemory(s: Sys, t: Sys, m: Memory, p: nat, txid: string)
    requires MemoryOk(s, m) && Evolves(s, t) && p < |m.d.pay| && m.d.pay[p].txid == txid && Serialisation.Begun(m.d, p)
    requires t.db.pending == s.db.pending - {txid} && txid in t.db.outbox
    ensures MemoryOk(t, m.(committed := m.committed + {p}))
  {
    OthersStayPending(s.db, t.db, m.d.pay, Todo(m.phase), m.calls, m.unheld, p);
    BatchMoves(s, t, m.relay);
    CommitPayments(s.db, t.db, m.d.pay, m.committed, p);
    if !m.phase.Serving? {
      AgesMove(s.db.history, t.db.history, m.d.pay, Todo(m.phase));
    }
  }

  /** Whatever is queued, called for or unknown is not the payment that leaves the table. */
  lemma OthersStayPending(db: Db, next: Db, pay: seq<D.Payment>, todo: seq<TxRecord>, calls: map<string, D.Payment>,
          unheld: set<string>, p: nat)
    requires QueueOk(db, todo) && CallsOk(db, calls) && forall t :: t in unheld ==> t in db.pending
    requires HeldOnce(pay, todo, calls, unheld) && Covered(db.pending, pay, todo, calls, unheld)
    requires Continues(db, next) && p < |pay| && next.pending == db.pending - {pay[p].txid}
    ensures QueueOk(next, todo) && CallsOk(next, calls) && forall t :: t in unheld ==> t in next.pending
    ensures Covered(next.pending, pay, todo, calls, unheld)
  {
    OnlyHanded(pay, todo, calls, unheld, p);
    QueueMoves(db, next, todo);
    CallsMove(db, next, calls);
  }

  lemma OnlyHanded(pay: seq<D.Payment>, todo: seq<TxRecord>, calls: map<string, D.Payment>, unheld: set<string>, p: nat)
    requires HeldOnce(pay, todo, calls, unheld) && p < |pay|
    ensures pay[p].txid !in calls && pay[p].txid !in unheld
    ensures forall k :: 0 <= k < |todo| ==> todo[k].txid != pay[p].txid
  {
    assert Handed(pay, pay[p].txid);
    assert forall k :: 0 <= k < |todo| ==> Queued(todo, todo[k].txid);
  }

  lemma CommitPayments(db: Db, next: Db, pay: seq<D.Payment>, committed: set<nat>, p: nat)
    requires PaymentsOk(db, pay, committed) && Continues(db, next) && p < |pay|
    requires forall i, j :: 0 <= i < j < |pay| ==> pay[i].txid != pay[j].txid
    requires next.pending == db.pending - {pay[p].txid} && pay[p].txid in next.outbox
    ensures PaymentsOk(next, pay, committed + {p})
  {
  }

  lemma CommitKeepsOk(s: Sys, g: nat, now: int)
    requires SysOk(s) && Enabled(s, Commit(g, now))
    ensures SysOk(Do(s, Commit(g, now)))
  {
    CommitSees(s, g, now);
    var m := s.proc.value;
    var p := InHand(m.d, g).value;
    var q := ToRequest(m.d.pay[p]);
    ProcessKeepsOk(s.db, q, now);
    ProcessContinues(s.db, q, now);
    CommitMemory(s, s.(db := ProcessedTX(s.db, q, now)), m, p, q.txid);
    CommittedRelay(s, q, now);
  }

  lemma CommitSees(s: Sys, g: nat, now: int)
    requires SysOk(s) && Enabled(s, Commit(g, now))
    ensures var m, p := s.proc.value, InHand(s.proc.value.d, g).value;
      && Serialisation.Begun(m.d, p) && m.d.pay[p].txid in s.db.pending && Known(s.db, m.d.pay[p])
  {
    assert Serialisation.BegunAt(s.proc.value.d, InHand(s.proc.value.d, g).value, g);
  }

  lemma CommittedRelay(s: Sys, q: Request, now: int)
    requires RelayOk(s.db.outbox, s.topic) && q.txid !in s.db.outbox
    ensures RelayOk(ProcessedTX(s.db, q, now).outbox, s.topic)
  {
  }

  lemma PersistContinues(db: Db, txid: string, result: Status, now: int)
    requires DbOk(db) && txid in db.history && (result.Completed? || result.Failed?)
    ensures Continues(db, Persisted(db, txid, result, now))
  {
    RowMoves(db.history, txid, db.history[txid].(status := result, updated := now));
  }

  lemma SettleKeepsOk(s: Sys, txid: string, result: Status, now: int)
    requires SysOk(s) && Enabled(s, Settle(txid, result, now))
    ensures SysOk(Do(s, Settle(txid, result, now)))
  {
    PersistKeepsOk(s.db, txid, result, now);
    PersistContinues(s.db, txid, result, now);
    TablesMoveUnder(s, Do(s, Settle(txid, result, now)), s.proc.value);
  }

  // ----- the dispatcher moves -----

  lemma BegunStays(d: D.State, step: D.Step, p: nat, g: nat)
    requires D.Enabled(d, step) && Serialisation.BegunAt(d, p, g)
    ensures Serialisation.BegunAt(D.Do(d, step), p, g)
  {
    if D.Mover(step).Some? {
      D.CallLeavesWork(d, step);
    } else {
      WorkerKeepsBegun(d, step, p, g);
    }
  }

  lemma WorkerKeepsBegun(d: D.State, step: D.Step, p: nat, g: nat)
    requires D.Enabled(d, step) && D.Mover(step).None? && Serialisation.BegunAt(d, p, g)
    ensures Serialisation.BegunAt(D.Do(d, step), p, g)
  {
    D.GroupMoves(d, step);
  }

  lemma DispatchKeepsOk(s: Sys, step: D.Step)
    requires SysOk(s) && Enabled(s, Dispatch(step))
    ensures SysOk(Do(s, Dispatch(step)))
  {
    var m := s.proc.value;
    var e := D.Do(m.d, step);
    DispatchStaysReachable(m.d, step);
    DispatchKeepsPay(m.d, step);
    forall p | p in m.committed
      ensures p < |e.pay| && Serialisation.Begun(e, p)
    {
      var g: nat :| Serialisation.BegunAt(m.d, p, g);
      BegunStays(m.d, step, p, g);
    }
  }

  lemma DispatchStaysReachable(d: D.State, step: D.Step)
    requires D.Reachable(d) && D.Enabled(d, step) && !step.Submit?
    ensures D.Reachable(D.Do(d, step))
    ensures Sequential.ReachableInTurn(d) ==> Sequential.ReachableInTurn(D.Do(d, step))
  {
    DispatchKeepsPay(d, step);
    Runs.ReachesStep(D.Machine(), D.Init(d.max), d, step);
    if Sequential.ReachableInTurn(d) {
      Runs.ReachesStep(Sequential.Machine(), D.Init(d.max), d, step);
    }
  }

  lemma DispatchKeepsPay(d: D.State, step: D.Step)
    requires D.Enabled(d, step) && !step.Submit?
    ensures D.Do(d, step).pay == d.pay && D.Do(d, step).max == d.max
  {
    if D.Mover(step).Some? {
      D.CallMoves(d, step);
    } else {
      D.CallsStand(d, step);
    }
  }

  // ----- the relay -----

  lemma FetchKeepsOk(s: Sys, events: seq<Event>)
    requires SysOk(s) && Enabled(s, Fetch(events))
    ensures SysOk(Do(s, Fetch(events)))
  {
  }

  lemma TopicGrows(outbox: map<string, OutboxRow>, topic: seq<Msg>, e: Event)
    requires RelayOk(outbox, topic) && e.txid in outbox && e.payload == outbox[e.txid].payload
    ensures RelayOk(outbox, topic + [MsgOf(e)])
  {
  }

  lemma SendKeepsOk(s: Sys, fate: Fate)
    requires SysOk(s) && Enabled(s, SendNext(fate))
    ensures SysOk(Do(s, SendNext(fate)))
  {
    var m := s.proc.value;
    var t := Do(s, SendNext(fate));
    var e := m.relay.value.todo[0];
    if Delivers(fate) {
      TopicGrows(s.db.outbox, s.topic, e);
    }
    TablesMoveUnder(s, t, m);
    BatchSends(t.db.outbox, t.topic, m.relay.value, fate);
  }

  lemma BatchSends(outbox: map<string, OutboxRow>, topic: seq<Msg>, b: Batch, fate: Fate)
    requires BatchOk(outbox, topic, Some(b)) && b.todo != []
    requires fate.Acked? ==> Msg(b.todo[0].txid, b.todo[0].payload) in topic
    ensures BatchOk(outbox, topic, Some(SendOne(b, fate)))
  {
  }

  lemma MarkKeepsSysOk(s: Sys, fails: bool)
    requires SysOk(s) && Enabled(s, Mark(fails))
    ensures SysOk(Do(s, Mark(fails)))
  {
    var b := s.proc.value.relay.value;
    if !fails {
      MarkKeepsOk(s.db, b.acked);
      MarkKeepsRelayOk(s.db.outbox, s.topic, b);
    }
    MarkContinues(s.db, b.acked);
    TablesMoveUnder(s, Do(s, Mark(fails)), s.proc.value);
  }

  lemma MarkKeepsRelayOk(outbox: map<string, OutboxRow>, topic: seq<Msg>, b: Batch)
    requires RelayOk(outbox, topic) && BatchOk(outbox, topic, Some(b))
    ensures RelayOk(MarkRows(outbox, b.acked), topic)
  {
  }

  lemma MarkContinues(db: Db, ids: set<string>)
    ensures Continues(db, db) && Continues(db, Marked(db, ids))
  {
  }

  // ----- every step, every run -----

  lemma StepKeepsOk(s: Sys, a: Act)
    requires SysOk(s) && Enabled(s, a)
    ensures SysOk(Do(s, a))
  {
    if a.Accept? || a.HandOver? || a.Commit? || a.Settle? {
      TransactionKeepsOk(s, a);
    } else if a.Fetch? || a.SendNext? || a.Mark? {
      RelayKeepsOk(s, a);
    } else if a.Load? || a.LoadFails? || a.RecoverNext? || a.Serve? {
      PhaseKeepsOk(s, a);
    } else {
      ProcessLifeKeepsOk(s, a);
    }
  }

  lemma ProcessLifeKeepsOk(s: Sys, a: Act)
    requires SysOk(s) && Enabled(s, a) && (a.Boot? || a.Crash? || a.Dispatch?)
    ensures SysOk(Do(s, a))
  {
    match a
    case Boot => BootKeepsOk(s);
    case Crash => CrashKeepsOk(s);
    case Dispatch(step) => DispatchKeepsOk(s, step);
  }

  lemma CrashKeepsOk(s: Sys)
    requires SysOk(s) && Enabled(s, Crash)
    ensures SysOk(Do(s, Crash))
  {
  }

  lemma TransactionKeepsOk(s: Sys, a: Act)
    requires SysOk(s) && Enabled(s, a) && (a.Accept? || a.HandOver? || a.Commit? || a.Settle?)
    ensures SysOk(Do(s, a))
  {
    match a
    case Accept(q, txid, now, reported) => AcceptKeepsOk(s, q, txid, now, reported);
    case HandOver(txid) => HandOverKeepsOk(s, txid);
    case Commit(g, now) => CommitKeepsOk(s, g, now);
    case Settle(txid, result, now) => SettleKeepsOk(s, txid, result, now);
  }

  lemma RelayKeepsOk(s: Sys, a: Act)
    requires SysOk(s) && Enabled(s, a) && (a.Fetch? || a.SendNext? || a.Mark?)
    ensures SysOk(Do(s, a))
  {
    match a
    case Fetch(events) => FetchKeepsOk(s, events);
    case SendNext(fate) => SendKeepsOk(s, fate);
    case Mark(fails) => MarkKeepsSysOk(s, fails);
  }

  lemma PhaseKeepsOk(s: Sys, a: Act)
    requires SysOk(s) && Enabled(s, a) && (a.Load? || a.LoadFails? || a.RecoverNext? || a.Serve?)
    ensures SysOk(Do(s, a))
  {
    if a.Load? {
      LoadKeepsOk(s, a.rs);
    } else if a.RecoverNext? {
      RecoverKeepsOk(s);
    } else {
      IdlePhase(s, a);
    }
  }

  lemma IdlePhase(s: Sys, a: Act)
    requires SysOk(s) && Enabled(s, a) && (a.LoadFails? || a.Serve?)
    ensures SysOk(Do(s, a))
  {
    assert Todo(s.proc.value.phase) == Todo(Do(s, a).proc.value.phase);
  }

  lemma StepEvolves(s: Sys, a: Act)
    requires SysOk(s) && Enabled(s, a)
    ensures Evolves(s, Do(s, a))
  {
    if a.Commit? {
      CommitEvolves(s, a.g, a.now);
    } else if a.Accept? {
      InsertContinues(s.db, ToRecord(FromRequest(a.q, a.txid).value, a.now), a.now);
    } else if a.Settle? {
      PersistContinues(s.db, a.txid, a.result, a.now);
    } else {
      MarkContinues(s.db, if a.Mark? then s.proc.value.relay.value.acked else {});
    }
  }

  lemma CommitEvolves(s: Sys, g: nat, now: int)
    requires SysOk(s) && Enabled(s, Commit(g, now))
    ensures Evolves(s, Do(s, Commit(g, now)))
  {
    CommitSees(s, g, now);
    ProcessContinues(s.db, ToRequest(s.proc.value.d.pay[InHand(s.proc.value.d, g).value]), now);
  }

  /** From any well-kept state, and so from empty tables, every run stays well kept and only
      ever moves the durable state forward. */
  lemma {:induction false} EveryRun(s: Sys, acts: seq<Act>)
    requires SysOk(s) && Runs.Valid(Machine(), s, acts)
    ensures SysOk(Runs.After(Machine(), s, acts)) && Evolves(s, Runs.After(Machine(), s, acts))
    decreases |acts|
  {
    if acts != [] {
      var n := |acts| - 1;
      EveryRun(s, acts[..n]);
      var mid := Runs.After(Machine(), s, acts[..n]);
      StepKeepsOk(mid, acts[n]);
      StepEvolves(mid, acts[n]);
      EvolvesThrough(s, mid, Runs.After(Machine(), s, acts));
    }
  }

  lemma EvolvesThrough(s: Sys, t: Sys, u: Sys)
    requires Evolves(s, t) && Evolves(t, u)
    ensures Evolves(s, u)
  {
    assert forall x :: x in s.db.outbox ==> x in t.db.outbox;
  }

  lemma ReachableOk(s: Sys)
    requires Reachable(s)
    ensures SysOk(s)
  {
    var acts :| Runs.Valid(Machine(), Init(s.max, s.limit), acts)
      && Runs.After(Machine(), Init(s.max, s.limit), acts) == s;
    EveryRun(Init(s.max, s.limit), acts);
  }

  /** A confirmed payment is for ever in exactly one of pending and outbox, under the
      identifiers it was confirmed with; once requested it stays requested with the same
      request; and its status never moves back. */
  lemma ConfirmedPaymentsSurvive(s: Sys, acts: seq<Act>, t: string)
    requires Reachable(s) && Runs.Valid(Machine(), s, acts) && t in s.db.history
    ensures var e := Runs.After(Machine(), s, acts).db;
      && t in e.history
      && (t in e.pending <==> t !in e.outbox)
      && (t in s.db.outbox ==> t in e.outbox && e.outbox[t].payload == s.db.outbox[t].payload)
      && var (x, y) := (s.db.history[t], e.history[t]);
         && y == x.(status := y.status, updated := y.updated)
         && (y.status.Pending? ==> x.status.Pending?)
         && (x.status.Completed? || x.status.Failed? ==> y.status.Completed? || y.status.Failed?)
  {
    ReachableOk(s);
    EveryRun(s, acts);
  }

  ghost predicate OneRowPerEte(outbox: map<string, OutboxRow>) {
    forall t, u :: t in outbox && u in outbox && outbox[t].payload.ete == outbox[u].payload.ete ==> t == u
  }

  /** Over all runs at most one request exists for an ETE, and all its messages are alike. */
  lemma OneRequestPerEte(s: Sys)
    requires Reachable(s)
    ensures OneRowPerEte(s.db.outbox)
    ensures forall v, w :: v in s.topic && w in s.topic && v.value.ete == w.value.ete ==> v == w
    ensures forall v :: v in s.topic ==> v.key == v.value.txid
  {
    ReachableOk(s);
    RequestsAreUnique(s.db);
    MessagesAreUnique(s.db, s.topic);
  }

  lemma RequestsAreUnique(db: Db)
    requires DbOk(db)
    ensures OneRowPerEte(db.outbox)
    ensures forall t :: t in db.outbox ==> db.outbox[t].payload.txid == t
  {
  }

  lemma MessagesAreUnique(db: Db, topic: seq<Msg>)
    requires RelayOk(db.outbox, topic)
    requires OneRowPerEte(db.outbox)
    ensures forall v, w :: v in topic && w in topic && v.value.ete == w.value.ete ==> v == w
    ensures forall v :: v in topic ==> v.key == v.value.txid
  {
  }

  /** A row marked as sent is in the topic, a message in the topic is the request of a
      committed row, and a row whose message is missing is still unsent, so every later batch
      can fetch it. */
  lemma RelayIsSafe(s: Sys, t: string)
    requires Reachable(s)
    ensures t in s.db.outbox ==> Unsent(s.db.outbox, t) || Msg(t, s.db.outbox[t].payload) in s.topic
    ensures forall v :: v in s.topic ==>
      && v.key in s.db.outbox && v.value == s.db.outbox[v.key].payload
      && v.key in s.db.history && v.value == RequestOf(v.key, s.db.history[v.key])
  {
    ReachableOk(s);
  }

  /** ProcessTX commits at most once for a payment, whatever crashes and recoveries lie between. */
  lemma CommitsOnce(s: Sys, acts: seq<Act>, g: nat, now: int, h: nat, later: int)
    requires Reachable(s) && Enabled(s, Commit(g, now)) && Runs.Valid(Machine(), Do(s, Commit(g, now)), acts)
    requires Enabled(Runs.After(Machine(), Do(s, Commit(g, now)), acts), Commit(h, later))
    ensures Requested(s, g) != Requested(Runs.After(Machine(), Do(s, Commit(g, now)), acts), h)
  {
    ReachableOk(s);
    StepKeepsOk(s, Commit(g, now));
    EveryRun(Do(s, Commit(g, now)), acts);
  }

  /** The identifier for which the worker of group g commits. */
  ghost function Requested(s: Sys, g: nat): string
    requires exists now :: Enabled(s, Commit(g, now))
  {
    var d := s.proc.value.d;
    d.pay[InHand(d, g).value].txid
  }

  // ----- who holds a pending row -----

  datatype Holder =
    | Unheld                          // waits for the next boot
    | InQueue(k: nat)                 // loaded, not yet handed to `add`
    | InCall                          // PaymentCMD is about to call `add`
    | InDispatcher(i: nat, place: C.Place)

  predicate HeldBy(m: Memory, t: string, w: Holder) {
    match w
    case Unheld => t in m.unheld
    case InQueue(k) => k < |Todo(m.phase)| && Todo(m.phase)[k].txid == t
    case InCall => t in m.calls
    case InDispatcher(i, place) => i < |m.d.pay| && m.d.pay[i].txid == t && C.At(m.d, i, place)
  }

  /** `add` rejected it, or its ProcessTX returned without committing. */
  predicate Dropped(w: Holder) {
    w.InDispatcher? && (w.place.Turned? || w.place.Processed?)
  }

  /** While a process lives, every pending row has exactly one holder in it. */
  lemma OneHolder(s: Sys, t: string) returns (w: Holder)
    requires Reachable(s) && s.proc.Some? && t in s.db.pending
    ensures HeldBy(s.proc.value, t, w)
    ensures forall other :: HeldBy(s.proc.value, t, other) ==> other == w
  {
    ReachableOk(s);
    w := SomeHolder(s.db.pending, s.proc.value, t);
    forall other | HeldBy(s.proc.value, t, other)
      ensures other == w
    {
      SameHolder(s.proc.value, t, w, other);
    }
  }

  lemma SomeHolder(pending: map<string, int>, m: Memory, t: string) returns (w: Holder)
    requires Covered(pending, m.d.pay, Todo(m.phase), m.calls, m.unheld) && D.Reachable(m.d) && t in pending
    ensures HeldBy(m, t, w)
    ensures w.InDispatcher? ==> forall p :: C.At(m.d, w.i, p) ==> p == w.place
  {
    I.ReachableInv(m.d);
    if i: nat :| i < |m.d.pay| && m.d.pay[i].txid == t {
      var place := C.ExactlyOnePlace(m.d, i);
      w := InDispatcher(i, place);
    } else if k: nat :| k < |Todo(m.phase)| && Todo(m.phase)[k].txid == t {
      w := InQueue(k);
    } else if t in m.calls {
      w := InCall;
    } else {
      w := Unheld;
    }
  }

  lemma SameHolder(m: Memory, t: string, w: Holder, other: Holder)
    requires HeldOnce(m.d.pay, Todo(m.phase), m.calls, m.unheld)
    requires HeldBy(m, t, w) && HeldBy(m, t, other)
    requires w.InDispatcher? ==> forall p :: C.At(m.d, w.i, p) ==> p == w.place
    ensures w == other
  {
    if w.InDispatcher? || other.InDispatcher? {
      assert Handed(m.d.pay, t);
    }
    if w.InQueue? || other.InQueue? {
      assert Queued(Todo(m.phase), t);
    }
  }

  /** Pending row t is held, in the living process, by w. */
  ghost predicate RowHeld(s: Sys, t: string, w: Holder) {
    s.proc.Some? && t in s.db.pending && HeldBy(s.proc.value, t, w)
  }

  /** Once dropped, a payment stays so, and pending, until the process ends. */
  lemma DroppedUntilReboot(s: Sys, acts: seq<Act>, t: string, w: Holder)
    requires Reachable(s) && Runs.Valid(Machine(), s, acts) && forall k :: 0 <= k < |acts| ==> !acts[k].Crash?
    requires RowHeld(s, t, w) && Dropped(w)
    ensures RowHeld(Runs.After(Machine(), s, acts), t, w)
  {
    ReachableOk(s);
    KeptThroughout(s, acts, t, w);
  }

  lemma KeptThroughout(s: Sys, acts: seq<Act>, t: string, w: Holder)
    requires KeptRow(s, t, w) && Dropped(w)
    requires Runs.Valid(Machine(), s, acts) && forall k :: 0 <= k < |acts| ==> !acts[k].Crash?
    ensures KeptRow(Runs.After(Machine(), s, acts), t, w)
  {
    forall u: Sys, a: Act | KeptRow(u, t, w) && !a.Crash? && Enabled(u, a)
      ensures KeptRow(Next(u, a), t, w)
    {
      StepKeepsRow(u, a, t, w);
    }
    Runs.InvariantUnder(Machine(), (u: Sys) => KeptRow(u, t, w), (a: Act) => !a.Crash?, s, acts);
  }

  lemma StepKeepsRow(s: Sys, a: Act, t: string, w: Holder)
    requires KeptRow(s, t, w) && Dropped(w) && Enabled(s, a) && !a.Crash?
    ensures KeptRow(Next(s, a), t, w)
  {
    StepKeepsOk(s, a);
    DroppedStays(s, a, t, w);
  }

  ghost predicate KeptRow(s: Sys, t: string, w: Holder) {
    SysOk(s) && RowHeld(s, t, w)
  }

  lemma DroppedStays(s: Sys, a: Act, t: string, w: Holder)
    requires SysOk(s) && Enabled(s, a) && !a.Crash? && RowHeld(s, t, w) && Dropped(w)
    ensures RowHeld(Do(s, a), t, w)
  {
    if a.Commit? {
      CommitsAnother(s, s.proc.value, a.g, t, w);
    }
    PendingStays(s, a, t);
    DispatcherMoves(s, a);
    HolderStays(s.proc.value, Do(s, a).proc.value, a, t, w);
  }

  lemma PendingStays(s: Sys, a: Act, t: string)
    requires Enabled(s, a) && s.proc.Some? && !a.Crash? && t in s.db.pending
    requires a.Commit? ==> s.proc.value.d.pay[InHand(s.proc.value.d, a.g).value].txid != t
    ensures Do(s, a).proc.Some? && t in Do(s, a).db.pending
  {
  }

  /** What one act does to the dispatcher, if anything. */
  ghost predicate DispatcherAdvances(d: D.State, e: D.State, a: Act) {
    || e == d
    || (exists p :: e == D.Do(d, D.Submit(p)))
    || (a.Dispatch? && D.Enabled(d, a.step) && e == D.Do(d, a.step))
  }

  lemma DispatcherMoves(s: Sys, a: Act)
    requires Enabled(s, a) && s.proc.Some? && !a.Crash?
    ensures Do(s, a).proc.Some? && DispatcherAdvances(s.proc.value.d, Do(s, a).proc.value.d, a)
  {
  }

  lemma HolderStays(m: Memory, n: Memory, a: Act, t: string, w: Holder)
    requires DispatcherAdvances(m.d, n.d, a) && HeldBy(m, t, w) && Dropped(w)
    ensures HeldBy(n, t, w)
  {
    if n.d != m.d {
      if p :| n.d == D.Do(m.d, D.Submit(p)) {
        DroppedPlaceStays(m.d, D.Submit(p), w.i, w.place);
      } else {
        DroppedPlaceStays(m.d, a.step, w.i, w.place);
      }
    }
  }

  lemma DroppedPlaceStays(d: D.State, step: D.Step, i: nat, place: C.Place)
    requires D.Enabled(d, step) && C.At(d, i, place) && (place.Turned? || place.Processed?)
    ensures C.At(D.Do(d, step), i, place) && d.pay <= D.Do(d, step).pay
  {
    if place.Processed? {
      ProcessedStays(d, step, i, place.g);
    } else {
      TurnedStays(d, step, i);
    }
    Workload.PayGrows(d, step);
  }

  lemma ProcessedStays(d: D.State, step: D.Step, i: nat, g: nat)
    requires D.Enabled(d, step) && C.At(d, i, C.Processed(g))
    ensures C.At(D.Do(d, step), i, C.Processed(g))
  {
    if D.Mover(step).Some? {
      D.CallLeavesWork(d, step);
    } else {
      D.GroupMoves(d, step);
    }
  }

  lemma TurnedStays(d: D.State, step: D.Step, i: nat)
    requires D.Enabled(d, step) && C.At(d, i, C.Turned)
    ensures C.At(D.Do(d, step), i, C.Turned)
  {
    if D.Mover(step).Some? {
      D.CallMoves(d, step);
      Sequential.CanMove(d, step);
    } else {
      D.CallsStand(d, step);
    }
  }

  /** A worker has another payment in hand than one that was dropped. */
  lemma CommitsAnother(s: Sys, m: Memory, g: nat, t: string, w: Holder)
    requires MemoryOk(s, m) && InHand(m.d, g).Some? && InHand(m.d, g).value < |m.d.pay|
    requires HeldBy(m, t, w) && Dropped(w)
    ensures m.d.pay[InHand(m.d, g).value].txid != t
  {
    DroppedIsNotInHand(m.d, g, w.i, w.place);
    DistinctIds(m.d.pay, Todo(m.phase), m.calls, m.unheld, InHand(m.d, g).value, w.i);
  }

  lemma DroppedIsNotInHand(d: D.State, g: nat, i: nat, place: C.Place)
    requires D.Reachable(d) && InHand(d, g).Some? && i < |d.pay|
    requires C.At(d, i, place) && (place.Turned? || place.Processed?)
    ensures InHand(d, g).value != i
  {
    I.ReachableInv(d);
    var only := C.ExactlyOnePlace(d, i);
    if InHand(d, g).value == i {
      InHandIsWithWorker(d, g);
    }
  }

  lemma InHandIsWithWorker(d: D.State, g: nat)
    requires InHand(d, g).Some?
    ensures C.At(d, InHand(d, g).value, C.WithWorker(g))
  {
  }

  lemma DistinctIds(pay: seq<D.Payment>, todo: seq<TxRecord>, calls: map<string, D.Payment>, unheld: set<string>,
          i: nat, j: nat)
    requires HeldOnce(pay, todo, calls, unheld) && i < |pay| && j < |pay| && i != j
    ensures pay[i].txid != pay[j].txid
  {
  }

  /** Every payment in the dispatcher has a pending row, except from the moment its
      ProcessTX commits, when it has its outbox row instead. */
  lemma DispatchedPaymentsAreStored(s: Sys, i: nat, place: C.Place)
    requires Reachable(s) && s.proc.Some? && i < |s.proc.value.d.pay| && C.At(s.proc.value.d, i, place)
    ensures var (m, t) := (s.proc.value, s.proc.value.d.pay[i].txid);
      && (t in s.db.pending <==> i !in m.committed)
      && (t in s.db.outbox <==> i in m.committed)
      && (i in m.committed ==> place.WithWorker? || place.Processed?)
  {
    ReachableOk(s);
    var m := s.proc.value;
    StoredEitherWay(s.db, m.d.pay, m.committed, i);
    if i in m.committed {
      BegunPlace(m.d, m.committed, i, place);
    }
  }

  lemma StoredEitherWay(db: Db, pay: seq<D.Payment>, committed: set<nat>, i: nat)
    requires Ledger(db.history, db.pending, db.outbox) && PaymentsOk(db, pay, committed) && i < |pay|
    ensures pay[i].txid in db.pending <==> i !in committed
    ensures pay[i].txid in db.outbox <==> i in committed
  {
  }

  lemma BegunPlace(d: D.State, committed: set<nat>, i: nat, place: C.Place)
    requires D.Reachable(d) && CommittedOk(d, committed) && i in committed && C.At(d, i, place)
    ensures place.WithWorker? || place.Processed?
  {
    I.ReachableInv(d);
    var g: nat :| Serialisation.BegunAt(d, i, g);
    var only := C.ExactlyOnePlace(d, i);
    assert C.At(d, i, C.WithWorker(g)) || C.At(d, i, C.Processed(g));
  }

  /** Until the process serves requests it hands payments over one at a time; so recovery
      never processes conflicting payments at once, not even while groups merge. */
  lemma RecoveryIsSerial(s: Sys)
    requires Reachable(s) && s.proc.Some? && !s.proc.value.phase.Serving?
    ensures Serialisation.Serial(s.proc.value.d) && !s.proc.value.d.split
  {
    ReachableOk(s);
    Sequential.OneCallAtATimeIsSerial(s.proc.value.d);
  }

  /** Recovery calls ProcessTX for a payment only when every older pending payment that shares
      an IBAN with it has been through ProcessTX before, and failed there. */
  lemma RecoveryIsInOrder(s: Sys, j: nat, t: string) returns (i: nat)
    requires Reachable(s) && s.proc.Some? && !s.proc.value.phase.Serving?
    requires var m := s.proc.value;
      && j < |m.d.pay| && Serialisation.Begun(m.d, j) && t in s.db.pending
      && ConflictingRows(s.db.history, t, m.d.pay[j].txid)
      && s.db.history[t].created < s.db.history[m.d.pay[j].txid].created
    ensures var m := s.proc.value;
      i < |m.d.pay| && m.d.pay[i].txid == t && Serialisation.Processed(m.d, i)
  {
    ReachableOk(s);
    var m := s.proc.value;
    i := OlderIsHanded(s, m, j, t);
    Sequential.InTurnIsReachable(m.d);
    Ordering.OneCallAtATimeIsInOrder(m.d);
    assert Workload.Shares(m.d.pay, i, j);
  }

  /** The stored accounts of two payments have an IBAN in common. */
  predicate ConflictingRows(history: map<string, TxRow>, t: string, u: string) {
    && t in history && u in history
    && (history[t].debtor == history[u].debtor || history[t].debtor == history[u].creditor
        || history[t].creditor == history[u].debtor || history[t].creditor == history[u].creditor)
  }

  lemma OlderIsHanded(s: Sys, m: Memory, j: nat, t: string) returns (i: nat)
    requires DbOk(s.db) && MemoryOk(s, m) && !m.phase.Serving? && j < |m.d.pay| && t in s.db.pending
    requires ConflictingRows(s.db.history, t, m.d.pay[j].txid)
    requires s.db.history[t].created < s.db.history[m.d.pay[j].txid].created
    ensures i < j && m.d.pay[i].txid == t && Workload.Shares(m.d.pay, i, j)
  {
    OlderComesFirst(s.db.history, m.d.pay, Todo(m.phase), j, t);
    PendingIsHanded(m, s.db.pending, t);
    i :| 0 <= i < |m.d.pay| && m.d.pay[i].txid == t;
    ConflictIsStored(s.db, m.d.pay, i, j);
  }

  lemma PendingIsHanded(m: Memory, pending: map<string, int>, t: string)
    requires PhaseOk(m) && !m.phase.Serving? && m.d.pay != []
    requires Covered(pending, m.d.pay, Todo(m.phase), m.calls, m.unheld) && t in pending && !Queued(Todo(m.phase), t)
    ensures Handed(m.d.pay, t)
  {
  }

  lemma ConflictIsStored(db: Db, pay: seq<D.Payment>, i: nat, j: nat)
    requires i < |pay| && j < |pay| && Known(db, pay[i]) && Known(db, pay[j])
    requires ConflictingRows(db.history, pay[i].txid, pay[j].txid)
    ensures Workload.Shares(pay, i, j)
  {
  }

  lemma OlderComesFirst(history: map<string, TxRow>, pay: seq<D.Payment>, todo: seq<TxRecord>, j: nat, t: string)
    requires Aged(history, pay, todo) && j < |pay| && t in history && pay[j].txid in history
    requires history[t].created < history[pay[j].txid].created
    ensures !Queued(todo, t)
    ensures forall i :: 0 <= i < |pay| && pay[i].txid == t ==> i < j
  {
    forall k | 0 <= k < |todo|
      ensures todo[k].txid != t
    {
      assert NoYounger(history, pay[j].txid, todo[k].txid);
    }
    forall i | j < i < |pay|
      ensures pay[i].txid != t
    {
      assert NoYounger(history, pay[j].txid, pay[i].txid);
    }
  }

  /** After a crash and a successful reload, the queue holds exactly the pending payments. */
  lemma ReloadFindsEverything(s: Sys, rs: seq<TxRecord>, t: string)
    requires Reachable(s) && s.proc.None? && IsRecoveryList(s.db, rs)
    ensures Enabled(Do(s, Boot), Load(rs))
    ensures var m := Do(Do(s, Boot), Load(rs)).proc.value;
      (t in s.db.pending <==> exists k :: HeldBy(m, t, InQueue(k))) && m.unheld == {}
  {
    ReachableOk(s);
    RecoveryListIsComplete(s.db, rs, t);
    var m := Do(Do(s, Boot), Load(rs)).proc.value;
    if k: nat :| k < |rs| && rs[k].txid == t {
      assert HeldBy(m, t, InQueue(k));
    }
  }
}
