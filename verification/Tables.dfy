/** The database: five tables with their keys, and the transactions on them. */
module Tables {
  import opened Common
  import opened Codec

  datatype PartyRow = PartyRow(role: string, country: string, name: string)

  datatype AccountRow = AccountRow(currency: string, bic: string)

  datatype TxRow = TxRow(
    status: Status, amount: real, currency: string, ete: string, txType: string,
    debtor: string, creditor: string, created: int, updated: int)

  /** The part of a processing request that names the payment and its accounts. */
  datatype Request = Request(txid: string, ete: string, debtor: string, creditor: string)

  datatype OutboxRow = OutboxRow(payload: Request, created: int, sent: bool)

  /** Keys of the maps are the primary keys of the tables. */
  datatype Db = Db(
    parties: map<string, PartyRow>,
    accounts: map<string, AccountRow>,
    history: map<string, TxRow>,
    pending: map<string, int>,
    outbox: map<string, OutboxRow>)

  function EmptyDb(): Db {
    Db(map[], map[], map[], map[], map[])
  }

  // ----- InsertTX -----

  /** Insert if the key is free, otherwise do nothing. */
  function Upsert<V>(m: map<string, V>, k: string, v: V): map<string, V> {
    if k in m then m else m[k := v]
  }

  /** Column widths and check constraints. */
  predicate PartyFits(p: PartyRecord) {
    |p.bic| <= 11 && |p.country| <= 2 && |p.name| <= 255 && (p.role == "debtor" || p.role == "creditor")
  }

  predicate AccountFits(a: AccountRecord) {
    |a.iban| <= 34 && |a.currency| <= 3
  }

  predicate TxFits(r: TxRecord) {
    && |r.txid| <= 35 && |r.currency| <= 3 && |r.ete| <= 35 && |r.txType| <= 3
    && r.amount.Some? && ParseStatus(r.status).Ok?
  }

  predicate EteTaken(history: map<string, TxRow>, ete: string) {
    exists t :: t in history && history[t].ete == ete
  }

  function StatusOf(s: string): Status {
    if s == "pending" then Pending else if s == "processing" then Processing
    else if s == "completed" then Completed else Failed
  }

  /** Statuses are stored under their own texts, and known texts are those of statuses. */
  lemma TextsNameStatuses(s: Status, text: string)
    ensures StatusOf(StatusText(s)) == s && ParseStatus(StatusText(s)).Ok?
    ensures ParseStatus(text).Ok? ==> StatusText(StatusOf(text)) == text
  {
  }

  function RowOf(r: TxRecord, now: int): TxRow
    requires r.amount.Some?
  {
    TxRow(StatusOf(r.status), r.amount.value, r.currency, r.ete, r.txType, r.debtor.iban, r.creditor.iban, now, now)
  }

  /** No constraint of any table stands against inserting the record. */
  predicate Insertable(db: Db, r: TxRecord) {
    && PartyFits(r.debtor.party) && PartyFits(r.creditor.party)
    && AccountFits(r.debtor) && AccountFits(r.creditor) && TxFits(r)
    && r.txid !in db.history && !EteTaken(db.history, r.ete) && r.txid !in db.pending
  }

  /** The state after a committed InsertTX. */
  function Inserted(db: Db, r: TxRecord, now: int): Db
    requires r.amount.Some?
  {
    var d, c := r.debtor, r.creditor;
    db.(
      parties := Upsert(Upsert(db.parties, d.party.bic, PartyRow(d.party.role, d.party.country, d.party.name)),
                        c.party.bic, PartyRow(c.party.role, c.party.country, c.party.name)),
      accounts := Upsert(Upsert(db.accounts, d.iban, AccountRow(d.currency, d.party.bic)),
                         c.iban, AccountRow(c.currency, c.party.bic)),
      history := db.history[r.txid := RowOf(r, now)],
      pending := db.pending[r.txid := now])
  }

  // ----- ProcessTX and PersistProcessResult -----

  /** The state after a committed ProcessTX. */
  function ProcessedTX(db: Db, q: Request, now: int): Db {
    db.(
      history := if q.txid in db.history
                 then db.history[q.txid := db.history[q.txid].(status := Processing, updated := now)]
                 else db.history,
      pending := db.pending - {q.txid},
      outbox := db.outbox[q.txid := OutboxRow(q, now, false)])
  }

  /** The state after a committed PersistProcessResult. */
  function Persisted(db: Db, txid: string, result: Status, now: int): Db
    requires txid in db.history
  {
    db.(history := db.history[txid := db.history[txid].(status := result, updated := now)])
  }

  /** The state after MarkSent. */
  function Marked(db: Db, ids: set<string>): Db {
    db.(outbox := MarkRows(db.outbox, ids))
  }

  function MarkRows(outbox: map<string, OutboxRow>, ids: set<string>): map<string, OutboxRow> {
    map t | t in outbox :: if t in ids then outbox[t].(sent := true) else outbox[t]
  }

  // ----- LoadPendingPayments -----

  /** The join for pending row t finds a row in every table. */
  predicate RowJoined(db: Db, t: string) {
    && t in db.pending && t in db.history
    && (var x := db.history[t];
        && x.debtor in db.accounts && db.accounts[x.debtor].bic in db.parties
        && x.creditor in db.accounts && db.accounts[x.creditor].bic in db.parties)
  }

  function AccountJoin(db: Db, iban: string): AccountRecord
    requires iban in db.accounts && db.accounts[iban].bic in db.parties
  {
    var a := db.accounts[iban];
    var p := db.parties[a.bic];
    AccountRecord(iban, a.currency, PartyRecord(a.bic, p.role, p.country, p.name))
  }

  function JoinRow(db: Db, t: string): TxRecord
    requires RowJoined(db, t)
  {
    var x := db.history[t];
    TxRecord(t, StatusText(x.status), Some(x.amount), x.currency, x.ete, x.txType,
             AccountJoin(db, x.debtor), AccountJoin(db, x.creditor), x.created, x.updated)
  }

  // ----- what the tables always satisfy -----

  predicate ValidPartyRow(bic: string, p: PartyRow) {
    ValidParty(PartyRecord(bic, p.role, p.country, p.name))
  }

  predicate ValidAccountRow(iban: string, a: AccountRow) {
    15 <= |iban| <= 34 && |a.currency| == 3 && UpperCase(a.currency)
  }

  predicate ValidTxRow(x: TxRow) {
    |x.currency| == 3 && UpperCase(x.currency) && EteFormat(x.ete)
  }

  /** Registries hold well-formed rows, and accounts refer to parties. */
  ghost predicate RegistriesOk(parties: map<string, PartyRow>, accounts: map<string, AccountRow>) {
    && (forall b :: b in parties ==> ValidPartyRow(b, parties[b]))
    && (forall x :: x in accounts ==> ValidAccountRow(x, accounts[x]) && accounts[x].bic in parties)
  }

  ghost predicate HistoryOk(history: map<string, TxRow>, accounts: map<string, AccountRow>) {
    forall t :: t in history ==>
      ValidTxRow(history[t]) && history[t].debtor in accounts && history[t].creditor in accounts
  }

  ghost predicate EtesUnique(history: map<string, TxRow>) {
    forall t, u :: t in history && u in history && history[t].ete == history[u].ete ==> t == u
  }

  /** Every payment of the history is either pending or requested, never both. */
  ghost predicate Ledger(history: map<string, TxRow>, pending: map<string, int>, outbox: map<string, OutboxRow>) {
    && (forall t :: t in history <==> t in pending || t in outbox)
    && (forall t :: t in pending ==> t !in outbox)
  }

  function RequestOf(txid: string, x: TxRow): Request {
    Request(txid, x.ete, x.debtor, x.creditor)
  }

  /** Pending rows are untouched since their insertion; requested ones carry the payment's
      own identifiers. */
  ghost predicate RowsOk(history: map<string, TxRow>, pending: map<string, int>, outbox: map<string, OutboxRow>) {
    && (forall t :: t in pending && t in history ==>
          history[t].status == Pending && history[t].created == history[t].updated == pending[t])
    && (forall t :: t in outbox && t in history ==>
          history[t].status != Pending && outbox[t].payload == RequestOf(t, history[t]))
  }

  ghost predicate DbOk(db: Db) {
    && RegistriesOk(db.parties, db.accounts)
    && HistoryOk(db.history, db.accounts)
    && EtesUnique(db.history)
    && Ledger(db.history, db.pending, db.outbox)
    && RowsOk(db.history, db.pending, db.outbox)
  }

  /** The record of a payment accepted from a request. */
  ghost predicate FreshRecord(r: TxRecord) {
    ValidRecord(r) && r.status == "pending"
  }

  lemma UpsertParty(parties: map<string, PartyRow>, accounts: map<string, AccountRow>, p: PartyRecord)
    requires RegistriesOk(parties, accounts) && ValidParty(p)
    ensures RegistriesOk(Upsert(parties, p.bic, PartyRow(p.role, p.country, p.name)), accounts)
  {
  }

  lemma UpsertAccount(parties: map<string, PartyRow>, accounts: map<string, AccountRow>, a: AccountRecord)
    requires RegistriesOk(parties, accounts) && ValidAccount(a) && a.party.bic in parties
    ensures RegistriesOk(parties, Upsert(accounts, a.iban, AccountRow(a.currency, a.party.bic)))
  {
  }

  lemma InsertKeepsRegistries(db: Db, r: TxRecord, now: int)
    requires RegistriesOk(db.parties, db.accounts) && FreshRecord(r)
    ensures var t := Inserted(db, r, now);
      && RegistriesOk(t.parties, t.accounts)
      && (forall x :: x in db.accounts ==> x in t.accounts)
      && r.debtor.iban in t.accounts && r.creditor.iban in t.accounts
  {
    var d, c := r.debtor, r.creditor;
    var p1 := Upsert(db.parties, d.party.bic, PartyRow(d.party.role, d.party.country, d.party.name));
    var p2 := Upsert(p1, c.party.bic, PartyRow(c.party.role, c.party.country, c.party.name));
    UpsertParty(db.parties, db.accounts, d.party);
    UpsertParty(p1, db.accounts, c.party);
    UpsertAccount(p2, db.accounts, d);
    UpsertAccount(p2, Upsert(db.accounts, d.iban, AccountRow(d.currency, d.party.bic)), c);
  }

  lemma NewHistoryRow(history: map<string, TxRow>, accounts: map<string, AccountRow>, more: map<string,
          AccountRow>, t: string, x: TxRow)
    requires HistoryOk(history, accounts) && forall a :: a in accounts ==> a in more
    requires ValidTxRow(x) && x.debtor in more && x.creditor in more
    ensures HistoryOk(history[t := x], more)
  {
  }

  lemma NewEte(history: map<string, TxRow>, t: string, x: TxRow)
    requires EtesUnique(history) && t !in history && !EteTaken(history, x.ete)
    ensures EtesUnique(history[t := x])
  {
  }

  /** A status change leaves identifiers and accounts alone. */
  lemma MovedRow(history: map<string, TxRow>, accounts: map<string, AccountRow>, t: string, x: TxRow)
    requires HistoryOk(history, accounts) && EtesUnique(history) && t in history
    requires x == history[t].(status := x.status, updated := x.updated)
    ensures HistoryOk(history[t := x], accounts)
    ensures EtesUnique(history[t := x])
  {
    var h := history[t := x];
    assert forall u :: u in h ==> u in history && h[u].ete == history[u].ete;
  }

  lemma InsertKeepsOk(db: Db, r: TxRecord, now: int)
    requires DbOk(db) && FreshRecord(r) && Insertable(db, r)
    ensures DbOk(Inserted(db, r, now))
  {
    var t := Inserted(db, r, now);
    InsertKeepsRegistries(db, r, now);
    NewHistoryRow(db.history, db.accounts, t.accounts, r.txid, RowOf(r, now));
    NewEte(db.history, r.txid, RowOf(r, now));
    NewLedgerEntry(db, r.txid, RowOf(r, now), now);
  }

  /** The payment just stored is joined again with its own amount, currency, type, identifiers
      and IBANs, and recovery rebuilds it with these. */
  lemma InsertedIsJoined(db: Db, r: TxRecord, now: int)
    requires DbOk(db) && FreshRecord(r) && Insertable(db, r)
    ensures RowJoined(Inserted(db, r, now), r.txid)
    ensures var j := JoinRow(Inserted(db, r, now), r.txid);
      && j.txid == r.txid && j.status == "pending" && j.amount == r.amount && j.currency == r.currency
      && j.ete == r.ete && j.txType == r.txType && j.created == j.updated == now
      && j.debtor.iban == r.debtor.iban && j.creditor.iban == r.creditor.iban
    ensures var tx := FromRecord(JoinRow(Inserted(db, r, now), r.txid));
      && tx.Ok? && tx.value.txid == r.txid && tx.value.status.Pending? && r.amount == Some(tx.value.amount)
      && tx.value.currency == r.currency && tx.value.ete == r.ete && tx.value.txType == r.txType
      && tx.value.debtor.iban == r.debtor.iban && tx.value.creditor.iban == r.creditor.iban
  {
    InsertKeepsOk(db, r, now);
    PendingIsRecoverable(Inserted(db, r, now), r.txid);
  }

  /** Under a key that is taken the table already has the same row. */
  predicate Agrees<V(==)>(m: map<string, V>, k: string, v: V) {
    k in m ==> m[k] == v
  }

  function PartyRowOf(p: PartyRecord): PartyRow {
    PartyRow(p.role, p.country, p.name)
  }

  function AccountRowOf(a: AccountRecord): AccountRow {
    AccountRow(a.currency, a.party.bic)
  }

  /** Parties and accounts of the record are new, or known as the record has them. */
  predicate KnownAsGiven(db: Db, r: TxRecord) {
    var d, c := r.debtor, r.creditor;
    && Agrees(db.parties, d.party.bic, PartyRowOf(d.party)) && Agrees(db.accounts, d.iban, AccountRowOf(d))
    && Agrees(db.parties, c.party.bic, PartyRowOf(c.party)) && Agrees(db.accounts, c.iban, AccountRowOf(c))
    && (d.party.bic == c.party.bic ==> PartyRowOf(d.party) == PartyRowOf(c.party))
    && (d.iban == c.iban ==> AccountRowOf(d) == AccountRowOf(c))
  }

  /** Storing and joining gives back the whole record exactly if its parties and accounts were
      new, or known as it has them: their first writer wins. */
  lemma JoinInvertsInsert(db: Db, r: TxRecord, now: int)
    requires DbOk(db) && FreshRecord(r) && Insertable(db, r) && r.created == r.updated == now
    ensures RowJoined(Inserted(db, r, now), r.txid)
    ensures JoinRow(Inserted(db, r, now), r.txid) == r <==> KnownAsGiven(db, r)
  {
    InsertedIsJoined(db, r, now);
  }

  /** So recovery gives back an accepted payment, parties and all, exactly in that case. */
  lemma RecoveryInvertsInsert(db: Db, q: PaymentRequest, txid: string, now: int)
    requires DbOk(db) && FromRequest(q, txid).Ok?
    requires Insertable(db, ToRecord(FromRequest(q, txid).value, now))
    ensures var tx := FromRequest(q, txid).value; var t := Inserted(db, ToRecord(tx, now), now);
      && RowJoined(t, txid)
      && (FromRecord(JoinRow(t, txid)) == Ok(tx) <==> KnownAsGiven(db, ToRecord(tx, now)))
  {
    var tx := FromRequest(q, txid).value;
    RecoveryInvertsStorage(q, txid, now);
    AcceptedExactlyWhenValid(q, ToRecord(tx, now), txid);
    InsertedIsJoined(db, ToRecord(tx, now), now);
    JoinInvertsInsert(db, ToRecord(tx, now), now);
    StorageInvertsRecovery(JoinRow(Inserted(db, ToRecord(tx, now), now), txid));
  }

  /** Which accepted requests the tables refuse: those with names or types that are too long,
      or with an identifier that is taken. */
  lemma RefusedExactly(db: Db, q: PaymentRequest, txid: string, now: int)
    requires DbOk(db) && FromRequest(q, txid).Ok?
    ensures Insertable(db, ToRecord(FromRequest(q, txid).value, now)) <==>
      && |txid| <= 35 && |q.txType| <= 3 && |q.debtor.name| <= 255 && |q.creditor.name| <= 255
      && txid !in db.history && forall t :: t in db.history ==> db.history[t].ete != q.ete
  {
    AcceptedExactlyWhenValid(q, ToRecord(FromRequest(q, txid).value, now), txid);
    AcceptedAsRequested(q, txid);
  }

  lemma NewLedgerEntry(db: Db, t: string, x: TxRow, now: int)
    requires Ledger(db.history, db.pending, db.outbox) && RowsOk(db.history, db.pending, db.outbox)
    requires t !in db.history && x.status == Pending && x.created == x.updated == now
    ensures Ledger(db.history[t := x], db.pending[t := now], db.outbox)
    ensures RowsOk(db.history[t := x], db.pending[t := now], db.outbox)
  {
  }

  lemma LedgerMoves(db: Db, q: Request, x: TxRow, row: OutboxRow)
    requires Ledger(db.history, db.pending, db.outbox) && RowsOk(db.history, db.pending, db.outbox)
    requires q.txid in db.history && x.status != Pending && row.payload == q == RequestOf(q.txid, x)
    ensures Ledger(db.history[q.txid := x], db.pending - {q.txid}, db.outbox[q.txid := row])
    ensures RowsOk(db.history[q.txid := x], db.pending - {q.txid}, db.outbox[q.txid := row])
  {
  }

  lemma ProcessKeepsOk(db: Db, q: Request, now: int)
    requires DbOk(db) && q.txid in db.history && q == RequestOf(q.txid, db.history[q.txid])
    ensures DbOk(ProcessedTX(db, q, now))
  {
    var x := db.history[q.txid].(status := Processing, updated := now);
    MovedRow(db.history, db.accounts, q.txid, x);
    LedgerMoves(db, q, x, OutboxRow(q, now, false));
  }

  lemma PersistKeepsOk(db: Db, txid: string, result: Status, now: int)
    requires DbOk(db) && txid in db.outbox && result != Pending
    ensures DbOk(Persisted(db, txid, result, now))
  {
    var x := db.history[txid].(status := result, updated := now);
    MovedRow(db.history, db.accounts, txid, x);
    SettledLedger(db, txid, x);
  }

  lemma SettledLedger(db: Db, t: string, x: TxRow)
    requires Ledger(db.history, db.pending, db.outbox) && RowsOk(db.history, db.pending, db.outbox)
    requires t in db.outbox && t in db.history && x.status != Pending && RequestOf(t, x) == RequestOf(t, db.history[t])
    ensures Ledger(db.history[t := x], db.pending, db.outbox)
    ensures RowsOk(db.history[t := x], db.pending, db.outbox)
  {
  }

  lemma MarkKeepsOk(db: Db, ids: set<string>)
    requires DbOk(db)
    ensures DbOk(Marked(db, ids))
  {
  }

  /** Over well-kept tables the join never drops a pending payment, and recovery rebuilds it
      with its own identifiers and accounts, although parties and accounts are stored only
      by their first writer; what it rebuilds would be stored as the joined record again. */
  lemma PendingIsRecoverable(db: Db, t: string)
    requires DbOk(db) && t in db.pending
    ensures RowJoined(db, t) && FromRecord(JoinRow(db, t)).Ok?
    ensures var (tx, row) := (FromRecord(JoinRow(db, t)).value, db.history[t]);
      && tx.txid == t && tx.ete == row.ete && tx.currency == row.currency && tx.amount == row.amount
      && tx.debtor.iban == row.debtor && tx.creditor.iban == row.creditor && tx.status == Pending
      && ToRecord(tx, row.created) == JoinRow(db, t)
  {
    var x := db.history[t];
    var r := JoinRow(db, t);
    assert ValidPartyRow(db.accounts[x.debtor].bic, db.parties[db.accounts[x.debtor].bic]);
    assert ValidPartyRow(db.accounts[x.creditor].bic, db.parties[db.accounts[x.creditor].bic]);
    assert ValidAccount(r.debtor) && ValidAccount(r.creditor);
    ReadAccountAccepts(r.debtor);
    ReadAccountAccepts(r.creditor);
    StorageInvertsRecovery(r);
  }

  /** rs holds, in the order of their creation, the joins of all pending rows that find a
      row in every table, each once. */
  ghost predicate IsRecoveryList(db: Db, rs: seq<TxRecord>) {
    && (forall k :: 0 <= k < |rs| ==> RowJoined(db, rs[k].txid) && rs[k] == JoinRow(db, rs[k].txid))
    && (forall k, l :: 0 <= k < l < |rs| ==>
          rs[k].txid != rs[l].txid && db.pending[rs[k].txid] <= db.pending[rs[l].txid])
    && (forall t :: RowJoined(db, t) ==> exists k :: 0 <= k < |rs| && rs[k].txid == t)
  }
}
