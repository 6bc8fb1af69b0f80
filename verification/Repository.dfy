/** The Postgres repository: transactions as ordered statements on working copies that
    replace the tables at commit. */
module Repository {
  import opened Common
  import opened Codec
  import opened Tables

  /** Each call is told at which of its statements the connection fails, counting from 0 for
      Begin; a large number means no failure. The last number that means one is a commit that
      takes effect although its reply is lost, so that the call reports an error. */
  class Repository {
    var parties: map<string, PartyRow>
    var accounts: map<string, AccountRow>
    var history: map<string, TxRow>
    var pending: map<string, int>
    var outbox: map<string, OutboxRow>

    function Contents(): Db
      reads this
    {
      Db(parties, accounts, history, pending, outbox)
    }

    constructor ()
      ensures Contents() == EmptyDb()
    {
      parties, accounts, history, pending, outbox := map[], map[], map[], map[], map[];
    }

    /** Inserts parties, accounts, the payment and its pending row, or nothing at all. */
    method InsertTX(r: TxRecord, now: int, fault: nat) returns (ok: bool)
      modifies this
      ensures ok <==> Insertable(old(Contents()), r) && fault > 8
      ensures Contents() ==
        if Insertable(old(Contents()), r) && fault > 7 then Inserted(old(Contents()), r, now) else old(Contents())
    {
      if fault == 0 { return false; }
      var ps, accs := parties, accounts;
      // 1. and 2. parties
      var d, c := r.debtor, r.creditor;
      if fault == 1 || !PartyFits(d.party) { return false; }
      ps := Upsert(ps, d.party.bic, PartyRow(d.party.role, d.party.country, d.party.name));
      if fault == 2 || !PartyFits(c.party) { return false; }
      ps := Upsert(ps, c.party.bic, PartyRow(c.party.role, c.party.country, c.party.name));
      // 3. and 4. accounts, which must refer to a party
      if fault == 3 || !AccountFits(d) || d.party.bic !in ps { return false; }
      accs := Upsert(accs, d.iban, AccountRow(d.currency, d.party.bic));
      if fault == 4 || !AccountFits(c) || c.party.bic !in ps { return false; }
      accs := Upsert(accs, c.iban, AccountRow(c.currency, c.party.bic));
      // 5. the payment
      if fault == 5 || !TxFits(r) || d.iban !in accs || c.iban !in accs { return false; }
      if r.txid in history || EteTaken(history, r.ete) { return false; }
      var hs := history[r.txid := RowOf(r, now)];
      // 6. its pending row
      if fault == 6 || r.txid in pending || r.txid !in hs { return false; }
      var pend := pending[r.txid := now];
      if fault == 7 { return false; }
      parties, accounts, history, pending := ps, accs, hs, pend;
      return fault != 8;
    }

    /** Moves a payment from pending to the outbox, or does nothing. */
    method ProcessTX(q: Request, now: int, fault: nat) returns (ok: bool)
      modifies this
      ensures ok <==> q.txid !in old(outbox) && fault > 5
      ensures Contents() ==
        if q.txid !in old(outbox) && fault > 4 then ProcessedTX(old(Contents()), q, now) else old(Contents())
    {
      if fault == 0 { return false; }
      var hs := history;
      if fault == 1 { return false; }
      if q.txid in hs {
        hs := hs[q.txid := hs[q.txid].(status := Processing, updated := now)];
      }
      if fault == 2 { return false; }
      var pend := pending - {q.txid};
      if fault == 3 || q.txid in outbox { return false; }
      var out := outbox[q.txid := OutboxRow(q, now, false)];
      if fault == 4 { return false; }
      history, pending, outbox := hs, pend, out;
      return fault != 5;
    }

    /** Stores the result of a known payment; an unknown one is an error. */
    method PersistProcessResult(txid: string, result: string, now: int, fault: nat) returns (ok: bool)
      modifies this
      ensures ok <==> txid in old(history) && ParseStatus(result).Ok? && fault > 1
      ensures Contents() ==
        if txid in old(history) && ParseStatus(result).Ok? && fault > 0
        then Persisted(old(Contents()), txid, StatusOf(result), now) else old(Contents())
      ensures ok && result == "completed" ==> txid in history && history[txid].status.Completed?
      ensures ok && result == "failed" ==> txid in history && history[txid].status.Failed?
    {
      if fault == 0 { return false; }
      if txid !in history || ParseStatus(result).Err? { return false; }
      history := history[txid := history[txid].(status := StatusOf(result), updated := now)];
      return fault != 1;
    }

    /** ids are the pending rows that find a row in every table. */
    ghost predicate IsQuery(ids: seq<string>)
      reads this
    {
      (forall t :: t in ids <==> RowJoined(Contents(), t)) && OldestFirst(pending, ids)
    }

    /** Every answer to the query has the same number of rows. */
    lemma QueryIsUnique(ids: seq<string>)
      requires IsQuery(ids)
      ensures forall other :: IsQuery(other) ==> |other| == |ids|
    {
      forall other | IsQuery(other)
        ensures |other| == |ids|
      {
        SetSize(ids);
        SetSize(other);
        assert (set t | t in ids) == (set t | t in other);
      }
    }

    /** The query: pending rows that find a row in every table, oldest first. */
    method QueryPending() returns (ids: seq<string>)
      ensures IsQuery(ids)
    {
      ids := SortByAge(pending, set t | t in pending && RowJoined(Contents(), t));
    }

    /** Reads back every pending payment, oldest first, one record for each row. The query can
        fail, and so can scanning any row and the end of the rows; then nothing is returned. */
    method LoadPendingPayments(fault: nat) returns (ok: bool, result: seq<TxRecord>)
      ensures if ok then IsRecoveryList(Contents(), result) else result == []
      ensures ok <==> exists ids :: IsQuery(ids) && fault > |ids| + 1
    {
      var ids := QueryPending();
      QueryIsUnique(ids);
      result := [];
      if fault == 0 { return false, []; }
      for k := 0 to |ids|
        invariant |result| == k && (fault > k)
        invariant forall j :: 0 <= j < k ==> RowJoined(Contents(), ids[j]) && result[j] == JoinRow(Contents(), ids[j])
      {
        assert ids[k] in ids;
        if fault == k + 1 { return false, []; }
        result := result + [JoinRow(Contents(), ids[k])];
      }
      if fault == |ids| + 1 { return false, []; }
      ok := true;
      forall t | RowJoined(Contents(), t)
        ensures exists k :: 0 <= k < |result| && result[k].txid == t
      {
        var k :| 0 <= k < |ids| && ids[k] == t;
        assert result[k].txid == t;
      }
    }
  }

  lemma {:induction false} SetSize(ids: seq<string>)
    requires forall k, l :: 0 <= k < l < |ids| ==> ids[k] != ids[l]
    ensures |set t | t in ids| == |ids|
  {
    if ids != [] {
      var n := |ids| - 1;
      SetSize(ids[..n]);
      assert (set t | t in ids) == (set t | t in ids[..n]) + {ids[n]};
    }
  }

  ghost predicate OldestFirst(pending: map<string, int>, ids: seq<string>) {
    && (forall t :: t in ids ==> t in pending)
    && (forall k, l :: 0 <= k < l < |ids| ==> ids[k] != ids[l] && pending[ids[k]] <= pending[ids[l]])
  }

  method SortByAge(pending: map<string, int>, rows: set<string>) returns (ids: seq<string>)
    requires rows <= pending.Keys
    ensures forall t :: t in ids <==> t in rows
    ensures OldestFirst(pending, ids)
  {
    ids := [];
    var todo := rows;
    while todo != {}
      invariant todo <= rows
      invariant forall t :: t in rows <==> t in ids || t in todo
      invariant forall t :: t in ids ==> t !in todo
      invariant OldestFirst(pending, ids)
      invariant forall t, u :: t in ids && u in todo ==> pending[t] <= pending[u]
      decreases |todo|
    {
      ghost var m := Oldest(pending, todo);
      var t :| t in todo && forall u :: u in todo ==> pending[t] <= pending[u];
      ids := ids + [t];
      todo := todo - {t};
    }
  }

  lemma {:induction false} Oldest(pending: map<string, int>, todo: set<string>) returns (t: string)
    requires todo <= pending.Keys && todo != {}
    ensures t in todo && forall u :: u in todo ==> pending[t] <= pending[u]
    decreases |todo|
  {
    t :| t in todo;
    var rest := todo - {t};
    if rest != {} {
      var u := Oldest(pending, rest);
      if pending[u] < pending[t] {
        t := u;
      }
    }
  }

  /** Over well-kept tables the recovery list names exactly the pending payments. */
  lemma RecoveryListIsComplete(db: Db, rs: seq<TxRecord>, t: string)
    requires DbOk(db) && IsRecoveryList(db, rs)
    ensures t in db.pending <==> exists k :: 0 <= k < |rs| && rs[k].txid == t
    ensures forall k :: 0 <= k < |rs| ==> FromRecord(rs[k]).Ok?
  {
    if t in db.pending {
      PendingIsRecoverable(db, t);
    }
    forall k | 0 <= k < |rs|
      ensures FromRecord(rs[k]).Ok?
    {
      PendingIsRecoverable(db, rs[k].txid);
    }
  }
}
