/** The way of one payment through the service, from the request to the stored result. */
module Lifecycle {
  import opened Common
  import opened Codec
  import opened Tables
  import opened Repository
  import opened Outbox
  import opened Service
  import opened Durability
  import D = DispatcherSteps
  import Runs
  import Sequential
  import Serialisation
  import Timeline

  // ----- from the request to the tables and to `add` -----

  /** Payment t is stored with the amount, currency, identifier, type and IBANs of the request. */
  predicate StoredAs(history: map<string, TxRow>, t: string, q: PaymentRequest) {
    && t in history && q.amount == Some(history[t].amount) && history[t].currency == q.currency
    && history[t].ete == q.ete && history[t].txType == q.txType
    && history[t].debtor == q.debtorAcc.iban && history[t].creditor == q.creditorAcc.iban
  }

  /** What the dispatcher is to know of the request. */
  function PaymentOf(q: PaymentRequest, txid: string): D.Payment {
    D.Payment(txid, q.ete, q.creditorAcc.iban, q.debtorAcc.iban)
  }

  lemma AcceptStores(s: Sys, q: PaymentRequest, txid: string, now: int, reported: bool)
    requires Enabled(s, Accept(q, txid, now, reported))
    ensures var db := Do(s, Accept(q, txid, now, reported)).db;
      && StoredAs(db.history, txid, q) && db.history[txid].status.Pending?
      && txid in db.pending && db.history[txid].created == db.pending[txid] == now
  {
    AcceptedAsRequested(q, txid);
  }

  /** A confirmed request is due to be handed to `add`, and is then its last call. */
  lemma ConfirmedIsHandedOver(s: Sys, q: PaymentRequest, txid: string, now: int)
    requires Enabled(s, Accept(q, txid, now, true))
    ensures var t := Do(s, Accept(q, txid, now, true));
      && Enabled(t, HandOver(txid)) && t.proc.Some?
      && var u := Do(t, HandOver(txid));
         && u.db == t.db && u.proc.Some? && |u.proc.value.d.adders| == |t.proc.value.d.adders| + 1
         && u.proc.value.d.adders[|t.proc.value.d.adders|].Start?
         && u.proc.value.d.pay == t.proc.value.d.pay + [PaymentOf(q, txid)]
  {
    AcceptedAsRequested(q, txid);
  }

  /** Payment txid waits to be handed to `add`. */
  predicate Due(s: Sys, txid: string) {
    s.proc.Some? && txid in s.proc.value.calls
  }

  /** It stays due until it is handed over or the process ends. */
  lemma StaysDue(s: Sys, acts: seq<Act>, txid: string)
    requires Due(s, txid) && Runs.Valid(Machine(), s, acts)
    requires forall k :: 0 <= k < |acts| ==> !acts[k].Crash? && acts[k] != HandOver(txid)
    ensures Due(Runs.After(Machine(), s, acts), txid)
  {
    forall t: Sys, a: Act | Due(t, txid) && !a.Crash? && a != HandOver(txid) && Enabled(t, a)
      ensures Due(Next(t, a), txid)
    {
      StepStaysDue(t, a, txid);
    }
    Runs.InvariantUnder(Machine(), (t: Sys) => Due(t, txid), (a: Act) => !a.Crash? && a != HandOver(txid), s, acts);
  }

  lemma StepStaysDue(s: Sys, a: Act, txid: string)
    requires Due(s, txid) && !a.Crash? && a != HandOver(txid) && Enabled(s, a)
    ensures Due(Do(s, a), txid)
  {
  }

  // ----- from there to the outbox, the topic and recovery -----

  lemma StoredForGood(db: Db, next: Db, t: string, q: PaymentRequest)
    requires Continues(db, next) && StoredAs(db.history, t, q)
    ensures StoredAs(next.history, t, q)
  {
  }

  /** Whatever happens after the commit of InsertTX: the stored payment, the call of `add`, the
      request in the outbox, its messages and what recovery rebuilds are those of the request. */
  lemma RequestedAsAccepted(s: Sys, q: PaymentRequest, txid: string, now: int, reported: bool, acts: seq<Act>)
    requires Reachable(s) && Enabled(s, Accept(q, txid, now, reported))
    requires Runs.Valid(Machine(), Do(s, Accept(q, txid, now, reported)), acts)
    ensures var e := Runs.After(Machine(), Do(s, Accept(q, txid, now, reported)), acts);
      var request := Request(txid, q.ete, q.debtorAcc.iban, q.creditorAcc.iban);
      && StoredAs(e.db.history, txid, q)
      && (txid in e.db.outbox ==> e.db.outbox[txid].payload == request)
      && (forall v :: v in e.topic && v.key == txid ==> v.value == request)
      && (e.proc.Some? ==> forall i :: 0 <= i < |e.proc.value.d.pay| && e.proc.value.d.pay[i].txid == txid ==>
            e.proc.value.d.pay[i] == PaymentOf(q, txid))
      && (txid in e.db.pending ==> RecoversAs(e.db, txid, q))
  {
    var t := Do(s, Accept(q, txid, now, reported));
    ReachableOk(s);
    AcceptStores(s, q, txid, now, reported);
    StepKeepsOk(s, Accept(q, txid, now, reported));
    EveryRun(t, acts);
    var e := Runs.After(Machine(), t, acts);
    StoredForGood(t.db, e.db, txid, q);
    StoredIsFollowed(e, txid, q);
  }

  /** The pending payment is joined and decoded with the fields of the request. */
  ghost predicate RecoversAs(db: Db, txid: string, q: PaymentRequest) {
    && RowJoined(db, txid) && FromRecord(JoinRow(db, txid)).Ok?
    && var tx := FromRecord(JoinRow(db, txid)).value;
       && PayOf(tx) == PaymentOf(q, txid) && q.amount == Some(tx.amount) && tx.currency == q.currency
  }

  lemma StoredIsFollowed(e: Sys, txid: string, q: PaymentRequest)
    requires SysOk(e) && StoredAs(e.db.history, txid, q)
    ensures var request := Request(txid, q.ete, q.debtorAcc.iban, q.creditorAcc.iban);
      && (txid in e.db.outbox ==> e.db.outbox[txid].payload == request)
      && (forall v :: v in e.topic && v.key == txid ==> v.value == request)
    ensures e.proc.Some? ==> forall i :: 0 <= i < |e.proc.value.d.pay| && e.proc.value.d.pay[i].txid == txid ==>
      e.proc.value.d.pay[i] == PaymentOf(q, txid)
    ensures txid in e.db.pending ==> RecoversAs(e.db, txid, q)
  {
    if txid in e.db.pending {
      PendingIsRecoverable(e.db, txid);
    }
    if e.proc.Some? {
      HandedAsStored(e.db, e.proc.value.d.pay, e.proc.value.committed, txid, q);
    }
  }

  lemma HandedAsStored(db: Db, pay: seq<D.Payment>, committed: set<nat>, txid: string, q: PaymentRequest)
    requires PaymentsOk(db, pay, committed) && StoredAs(db.history, txid, q)
    ensures forall i :: 0 <= i < |pay| && pay[i].txid == txid ==> pay[i] == PaymentOf(q, txid)
  {
    forall i | 0 <= i < |pay| && pay[i].txid == txid
      ensures pay[i] == PaymentOf(q, txid)
    {
      assert Known(db, pay[i]);
    }
  }

  // ----- what the status says -----

  predicate Asked(topic: seq<Msg>, t: string) {
    exists v :: v in topic && v.key == t
  }

  /** A payment has a result only if its request was sent, and one that is being processed
      carries the time of its outbox row. */
  ghost predicate StatusTold(db: Db, topic: seq<Msg>) {
    && (forall t :: t in db.history && (db.history[t].status.Completed? || db.history[t].status.Failed?) ==>
          Asked(topic, t))
    && (forall t :: t in db.history && db.history[t].status.Processing? ==>
          t in db.outbox && db.outbox[t].created == db.history[t].updated)
  }

  lemma StepTells(s: Sys, a: Act)
    requires SysOk(s) && StatusTold(s.db, s.topic) && Enabled(s, a)
    ensures StatusTold(Do(s, a).db, Do(s, a).topic)
  {
    if a.Accept? {
      AcceptTells(s, a.q, a.txid, a.now, a.reported);
    } else if a.Commit? {
      CommitTells(s, a.g, a.now);
    } else if a.Settle? {
      SettleTells(s, a.txid, a.result, a.now);
    } else {
      OthersTell(s, a);
    }
  }

  lemma AcceptTells(s: Sys, q: PaymentRequest, txid: string, now: int, reported: bool)
    requires StatusTold(s.db, s.topic) && Enabled(s, Accept(q, txid, now, reported))
    ensures StatusTold(Do(s, Accept(q, txid, now, reported)).db, s.topic)
  {
    AcceptStores(s, q, txid, now, reported);
    PendingTells(s.db, s.topic, txid, RowOf(ToRecord(FromRequest(q, txid).value, now), now));
  }

  lemma PendingTells(db: Db, topic: seq<Msg>, txid: string, x: TxRow)
    requires StatusTold(db, topic) && x.status.Pending?
    ensures StatusTold(db.(history := db.history[txid := x]), topic)
  {
  }

  lemma CommitTells(s: Sys, g: nat, now: int)
    requires SysOk(s) && StatusTold(s.db, s.topic) && Enabled(s, Commit(g, now))
    ensures StatusTold(Do(s, Commit(g, now)).db, s.topic)
  {
    CommitSees(s, g, now);
    ProcessTells(s.db, s.topic, ToRequest(s.proc.value.d.pay[InHand(s.proc.value.d, g).value]), now);
  }

  lemma ProcessTells(db: Db, topic: seq<Msg>, q: Request, now: int)
    requires StatusTold(db, topic) && q.txid in db.history
    ensures StatusTold(ProcessedTX(db, q, now), topic)
  {
  }

  lemma SettleTells(s: Sys, txid: string, result: Status, now: int)
    requires StatusTold(s.db, s.topic) && Enabled(s, Settle(txid, result, now))
    ensures StatusTold(Do(s, Settle(txid, result, now)).db, s.topic)
  {
    assert Asked(s.topic, txid);
    ResultTells(s.db, s.topic, txid, result, now);
  }

  lemma ResultTells(db: Db, topic: seq<Msg>, txid: string, result: Status, now: int)
    requires StatusTold(db, topic) && txid in db.history && Asked(topic, txid) && !result.Processing?
    ensures StatusTold(Persisted(db, txid, result, now), topic)
  {
  }

  lemma OthersTell(s: Sys, a: Act)
    requires StatusTold(s.db, s.topic) && Enabled(s, a) && !a.Accept? && !a.Commit? && !a.Settle?
    ensures StatusTold(Do(s, a).db, Do(s, a).topic)
  {
    OthersKeepRows(s, a);
    LongerTopicTells(s.db, s.topic, Do(s, a).topic);
  }

  lemma OthersKeepRows(s: Sys, a: Act)
    requires Enabled(s, a) && !a.Accept? && !a.Commit? && !a.Settle?
    ensures var t := Do(s, a);
      && t.db.history == s.db.history && s.topic <= t.topic
      && forall k :: k in s.db.outbox ==> k in t.db.outbox && t.db.outbox[k].created == s.db.outbox[k].created
  {
  }

  lemma LongerTopicTells(db: Db, topic: seq<Msg>, longer: seq<Msg>)
    requires StatusTold(db, topic) && topic <= longer
    ensures StatusTold(db, longer)
  {
    forall t | Asked(topic, t)
      ensures Asked(longer, t)
    {
      var v :| v in topic && v.key == t;
      assert v in longer;
    }
  }

  ghost predicate Telling(s: Sys) {
    SysOk(s) && StatusTold(s.db, s.topic)
  }

  /** Over all runs the status tells how far a payment has come: pending rows are pending, a
      payment that is being processed was requested at the time of its last change, and one with
      a result has its request in the topic. */
  lemma StatusTellsTheWay(s: Sys, t: string)
    requires Reachable(s) && t in s.db.history
    ensures var x := s.db.history[t];
      && (x.status.Pending? <==> t in s.db.pending)
      && (x.status.Processing? ==> t in s.db.outbox && s.db.outbox[t].created == x.updated)
      && (x.status.Completed? || x.status.Failed? ==>
            exists v :: v in s.topic && v.key == t && v.value == RequestOf(t, x))
  {
    ReachableTells(s);
    ToldOf(s, t);
  }

  lemma ReachableTells(s: Sys)
    requires Reachable(s)
    ensures Telling(s)
  {
    forall u: Sys, a: Act | Telling(u) && Enabled(u, a)
      ensures Telling(Next(u, a))
    {
      StepKeepsOk(u, a);
      StepTells(u, a);
    }
    var acts :| Runs.Valid(Machine(), Init(s.max, s.limit), acts)
      && Runs.After(Machine(), Init(s.max, s.limit), acts) == s;
    Runs.Invariant(Machine(), (u: Sys) => Telling(u), Init(s.max, s.limit), acts);
  }

  lemma ToldOf(s: Sys, t: string)
    requires Telling(s) && t in s.db.history
    ensures s.db.history[t].status.Pending? <==> t in s.db.pending
    ensures Asked(s.topic, t) ==> exists v :: v in s.topic && v.key == t && v.value == RequestOf(t, s.db.history[t])
  {
  }

  // ----- nobody is forgotten -----

  predicate NothingUnheld(s: Sys) {
    s.proc.Some? && s.proc.value.unheld == {}
  }

  predicate LostReply(a: Act) {
    a.Accept? && !a.reported
  }

  /** A pending payment that the process does not know of goes back to the boot, as long as
      nothing has been loaded, or to an InsertTX whose reply was lost. */
  lemma ForgottenWhen(s: Sys, a: Act, t: string)
    requires SysOk(s) && Enabled(s, a) && Do(s, a).proc.Some? && t in Do(s, a).proc.value.unheld
    ensures (s.proc.Some? && t in s.proc.value.unheld) || a.Boot? || (LostReply(a) && a.txid == t)
    ensures !a.Load?
  {
    if a.RecoverNext? {
      EveryRecordDecodes(s);
    }
    if a.Accept? {
      AcceptedAsRequested(a.q, a.txid);
    }
  }

  /** After a successful load every pending payment has a holder that works on it, until the
      process ends or a reply is lost. */
  lemma EveryRowIsHeld(s: Sys, acts: seq<Act>, t: string) returns (w: Holder)
    requires Reachable(s) && s.proc.Some? && s.proc.value.phase.Recovering? && Runs.Valid(Machine(), s, acts)
    requires forall k :: 0 <= k < |acts| ==> !acts[k].Crash? && !LostReply(acts[k])
    requires t in Runs.After(Machine(), s, acts).db.pending
    ensures var e := Runs.After(Machine(), s, acts); e.proc.Some? && HeldBy(e.proc.value, t, w) && !w.Unheld?
  {
    ReachableOk(s);
    EveryRun(s, acts);
    forall u: Sys, a: Act | HeldKept(u) && !a.Crash? && !LostReply(a) && Enabled(u, a)
      ensures HeldKept(Next(u, a))
    {
      StepKeepsHeld(u, a);
    }
    Runs.InvariantUnder(Machine(), (u: Sys) => HeldKept(u), (a: Act) => !a.Crash? && !LostReply(a), s, acts);
    var e := Runs.After(Machine(), s, acts);
    w := SomeHolder(e.db.pending, e.proc.value, t);
  }

  ghost predicate HeldKept(s: Sys) {
    SysOk(s) && NothingUnheld(s)
  }

  lemma StepKeepsHeld(s: Sys, a: Act)
    requires HeldKept(s) && !a.Crash? && !LostReply(a) && Enabled(s, a)
    ensures HeldKept(Do(s, a))
  {
    StepKeepsOk(s, a);
    ProcessLives(s, a);
    if t :| t in Do(s, a).proc.value.unheld {
      ForgottenWhen(s, a, t);
    }
  }

  lemma ProcessLives(s: Sys, a: Act)
    requires s.proc.Some? && Enabled(s, a) && !a.Crash?
    ensures Do(s, a).proc.Some?
  {
  }

  // ----- opening for requests -----

  /** HTTP opens only when every pending payment has been handed to `add` and every call has
      returned, or when loading them failed. */
  lemma OpensAfterRecovery(s: Sys, a: Act)
    requires Reachable(s) && Enabled(s, a) && !a.LoadFails? && s.proc.Some? && !s.proc.value.phase.Serving?
    requires Do(s, a).proc.Some? && Do(s, a).proc.value.phase.Serving?
    ensures Sequential.AllReturned(s.proc.value.d)
    ensures forall t :: t in s.db.pending ==> Handed(s.proc.value.d.pay, t)
  {
    ReachableOk(s);
    OnlyServeOpens(s, a);
    EmptyQueueIsHanded(s.db.pending, s.proc.value);
  }

  lemma EmptyQueueIsHanded(pending: map<string, int>, m: Memory)
    requires Covered(pending, m.d.pay, Todo(m.phase), m.calls, m.unheld) && PhaseOk(m) && m.phase == Recovering([])
    ensures forall t :: t in pending ==> Handed(m.d.pay, t)
  {
    assert forall t :: !Queued([], t);
  }

  lemma OnlyServeOpens(s: Sys, a: Act)
    requires Enabled(s, a) && !a.LoadFails? && s.proc.Some? && !s.proc.value.phase.Serving?
    requires Do(s, a).proc.Some? && Do(s, a).proc.value.phase.Serving?
    ensures a.Serve? && s.proc.value.phase == Recovering([])
  {
  }

  /** Even if nothing could be loaded, a valid request that the tables take is stored and
      handed to `add`. */
  lemma ServesAfterFailedLoad(s: Sys, q: PaymentRequest, txid: string, now: int)
    requires SysOk(s) && s.proc.Some? && s.proc.value.phase.Starting? && ValidRequest(q)
    requires |txid| <= 35 && |q.txType| <= 3 && |q.debtor.name| <= 255 && |q.creditor.name| <= 255
    requires txid !in s.db.history && forall t :: t in s.db.history ==> s.db.history[t].ete != q.ete
    ensures var acts := [LoadFails, Accept(q, txid, now, true), HandOver(txid)];
      && Runs.Valid(Machine(), s, acts)
      && var e := Runs.After(Machine(), s, acts);
         && StoredAs(e.db.history, txid, q) && txid in e.db.pending
         && e.proc.Some? && e.proc.value.d.pay == [PaymentOf(q, txid)]
  {
    CanBeTaken(s, q, txid, now);
    var t := Do(s, LoadFails);
    AcceptStores(t, q, txid, now, true);
    ConfirmedIsHandedOver(t, q, txid, now);
    ThreeActs(s, LoadFails, Accept(q, txid, now, true), HandOver(txid));
  }

  /** From every state of a living process a crash, a boot and a load are possible; the tables and
      the topic stay, the dispatcher starts afresh, and the queue holds exactly the pending rows. */
  lemma CrashAndReload(s: Sys, rs: seq<TxRecord>)
    requires Reachable(s) && s.proc.Some? && IsRecoveryList(s.db, rs)
    ensures Runs.Valid(Machine(), s, [Crash, Boot, Load(rs)])
    ensures var e := Runs.After(Machine(), s, [Crash, Boot, Load(rs)]);
      && e.db == s.db && e.topic == s.topic && e.proc.Some? && NothingUnheld(e)
      && e.proc.value.phase == Recovering(rs) && e.proc.value.d == D.Init(s.max) && e.proc.value.calls == map[]
      && forall t :: t in s.db.pending <==> exists k :: 0 <= k < |rs| && rs[k].txid == t
  {
    ReachableOk(s);
    ThreeActs(s, Crash, Boot, Load(rs));
    forall t
      ensures t in s.db.pending <==> exists k :: 0 <= k < |rs| && rs[k].txid == t
    {
      RecoveryListIsComplete(s.db, rs, t);
    }
  }

  lemma CanBeTaken(s: Sys, q: PaymentRequest, txid: string, now: int)
    requires SysOk(s) && s.proc.Some? && s.proc.value.phase.Starting? && ValidRequest(q)
    requires |txid| <= 35 && |q.txType| <= 3 && |q.debtor.name| <= 255 && |q.creditor.name| <= 255
    requires txid !in s.db.history && forall t :: t in s.db.history ==> s.db.history[t].ete != q.ete
    ensures Enabled(s, LoadFails) && Enabled(Do(s, LoadFails), Accept(q, txid, now, true))
    ensures Do(s, LoadFails).proc.value.d.pay == []
  {
    AcceptedExactlyWhenValid(q, ToRecord(FromRequest(q, txid).value, now), txid);
    RefusedExactly(s.db, q, txid, now);
  }

  lemma ThreeActs(s: Sys, a: Act, b: Act, c: Act)
    requires Enabled(s, a) && Enabled(Do(s, a), b) && Enabled(Do(Do(s, a), b), c)
    ensures Runs.Valid(Machine(), s, [a, b, c]) && Runs.After(Machine(), s, [a, b, c]) == Do(Do(Do(s, a), b), c)
  {
    Runs.Single(Machine(), s, a);
    Runs.Extend(Machine(), s, [a], b);
    Runs.Extend(Machine(), s, [a, b], c);
    assert [a] + [b] == [a, b] && [a, b] + [c] == [a, b, c];
  }

  // ----- ProcessTX can always commit -----

  /** While a worker is inside ProcessTX with a payment that has not been committed, the commit
      is possible: no outbox row stands against it. */
  lemma CommitIsPossible(s: Sys, p: nat, g: nat, now: int)
    requires Reachable(s) && s.proc.Some? && Serialisation.InFlight(s.proc.value.d, p, g)
    requires p !in s.proc.value.committed
    ensures Enabled(s, Commit(g, now))
  {
    ReachableOk(s);
    FlightIsHanded(s.proc.value.d, p, g);
    OutboxKeyIsFree(s, p);
  }

  lemma FlightIsHanded(d: D.State, p: nat, g: nat)
    requires D.Reachable(d) && Serialisation.InFlight(d, p, g)
    ensures p < |d.pay| && InHand(d, g) == Some(p)
  {
    Timeline.FlightIsKnown(d, p, g);
  }
}
