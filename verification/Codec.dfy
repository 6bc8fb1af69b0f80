/** Payment transactions, the records they are stored as, and how recovery rebuilds them.
    Texts are ASCII, so one character is one byte. */
module Codec {
  import opened Common

  datatype Result<+T> = Ok(value: T) | Err(error: Error) {
    predicate IsFailure() { Err? }
    function PropagateFailure<U>(): Result<U> requires Err? { Err(error) }
    function Extract(): T requires Ok? { value }
  }

  datatype Error =
    | AmountNotNumeric | CurrencyInvalidLength | CurrencyInvalidCharacters | EteInvalidFormat
    | CountryInvalidLength | NotValidRole | BicInvalidLength | IbanInvalidLength
    | NotValidStatus | MetadataUpdatedBeforeCreated

  datatype Status = Pending | Processing | Completed | Failed

  datatype Role = Debtor | Creditor

  datatype Party = Party(bic: string, role: Role, country: string, name: string)

  datatype Account = Account(iban: string, currency: string, party: Party)

  datatype PaymentTx = PaymentTx(
    txid: string, status: Status, amount: real, currency: string, ete: string, txType: string,
    debtor: Account, creditor: Account)

  // ----- requests and records -----

  datatype PartyDto = PartyDto(bic: string, role: string, country: string, name: string)

  datatype AccountDto = AccountDto(iban: string, currency: string)

  /** The amount is None if its text is not a decimal number. */
  datatype PaymentRequest = PaymentRequest(
    amount: Option<real>, currency: string, ete: string, txType: string,
    debtor: PartyDto, debtorAcc: AccountDto, creditor: PartyDto, creditorAcc: AccountDto)

  datatype PartyRecord = PartyRecord(bic: string, role: string, country: string, name: string)

  datatype AccountRecord = AccountRecord(iban: string, currency: string, party: PartyRecord)

  /** `created` and `updated` are the timestamps of the metadata text. */
  datatype TxRecord = TxRecord(
    txid: string, status: string, amount: Option<real>, currency: string, ete: string, txType: string,
    debtor: AccountRecord, creditor: AccountRecord, created: int, updated: int)

  // ----- value objects -----

  function RoleText(r: Role): string {
    if r.Debtor? then "debtor" else "creditor"
  }

  function ParseRole(s: string): Result<Role> {
    if s == "debtor" then Ok(Debtor) else if s == "creditor" then Ok(Creditor) else Err(NotValidRole)
  }

  function StatusText(s: Status): string {
    match s
    case Pending => "pending"
    case Processing => "processing"
    case Completed => "completed"
    case Failed => "failed"
  }

  /** Every known status other than pending is read back as processing. */
  function ParseStatus(s: string): Result<Status> {
    if s == "pending" then Ok(Pending)
    else if s == "processing" || s == "completed" || s == "failed" then Ok(Processing)
    else Err(NotValidStatus)
  }

  predicate UpperCase(s: string) {
    forall k :: 0 <= k < |s| ==> 'A' <= s[k] <= 'Z'
  }

  function ParseCurrency(s: string): Result<string> {
    if |s| != 3 then Err(CurrencyInvalidLength)
    else if !UpperCase(s) then Err(CurrencyInvalidCharacters)
    else Ok(s)
  }

  predicate EteChar(c: char) {
    'a' <= c <= 'z' || 'A' <= c <= 'Z' || '0' <= c <= '9' || c == '.'
  }

  predicate EteFormat(s: string) {
    1 <= |s| <= 35 && forall k :: 0 <= k < |s| ==> EteChar(s[k])
  }

  function ParseEte(s: string): Result<string> {
    if EteFormat(s) then Ok(s) else Err(EteInvalidFormat)
  }

  function ParseCountry(s: string): Result<string> {
    if |s| != 2 then Err(CountryInvalidLength) else Ok(s)
  }

  const UPPER_CASE := {
    'A', 'B', 'C', 'D', 'E', 'F', 'G', 'H', 'I', 'J', 'K', 'L', 'M',
    'N', 'O', 'P', 'Q', 'R', 'S', 'T', 'U', 'V', 'W', 'X', 'Y', 'Z'}

  const LOWER_CASE := {
    'a', 'b', 'c', 'd', 'e', 'f', 'g', 'h', 'i', 'j', 'k', 'l', 'm',
    'n', 'o', 'p', 'q', 'r', 's', 't', 'u', 'v', 'w', 'x', 'y', 'z'}

  const DIGITS := {'0', '1', '2', '3', '4', '5', '6', '7', '8', '9'}

  lemma CharClasses(c: char)
    ensures c in UPPER_CASE <==> 'A' <= c <= 'Z'
    ensures c in LOWER_CASE <==> 'a' <= c <= 'z'
    ensures c in DIGITS <==> '0' <= c <= '9'
  {
  }

  predicate MadeOf(s: string, letters: set<char>) {
    forall c :: c in s ==> c in letters
  }

  /** Currencies are three capital letters; end-to-end identifiers one to thirty-five letters,
      digits and dots. */
  lemma TextForms(s: string)
    ensures ParseCurrency(s) == Ok(s) <==> |s| == 3 && MadeOf(s, UPPER_CASE)
    ensures ParseEte(s) == Ok(s) <==> 1 <= |s| <= 35 && MadeOf(s, UPPER_CASE + LOWER_CASE + DIGITS + {'.'})
  {
    forall c
      ensures c in UPPER_CASE <==> 'A' <= c <= 'Z'
      ensures c in UPPER_CASE + LOWER_CASE + DIGITS + {'.'} <==> EteChar(c)
    {
      CharClasses(c);
    }
    assert forall k :: 0 <= k < |s| ==> s[k] in s;
  }

  // ----- constructors -----

  function NewParty(bic: string, role: Role, country: string, name: string): Result<Party> {
    if |bic| != 8 && |bic| != 11 then Err(BicInvalidLength) else Ok(Party(bic, role, country, name))
  }

  function ReadParty(bic: string, roleText: string, countryText: string, name: string): Result<Party> {
    var country :- ParseCountry(countryText);
    var role :- ParseRole(roleText);
    NewParty(bic, role, country, name)
  }

  function NewAccount(iban: string, currency: string, party: Party): Result<Account> {
    if |iban| < 15 || |iban| > 34 then Err(IbanInvalidLength) else Ok(Account(iban, currency, party))
  }

  function ReadAccount(iban: string, currencyText: string, p: PartyRecord): Result<Account> {
    var currency :- ParseCurrency(currencyText);
    var party :- ReadParty(p.bic, p.role, p.country, p.name);
    NewAccount(iban, currency, party)
  }

  function DtoParty(d: PartyDto): PartyRecord {
    PartyRecord(d.bic, d.role, d.country, d.name)
  }

  /** A payment from a request; its identifier is generated outside. */
  function FromRequest(r: PaymentRequest, txid: string): Result<PaymentTx> {
    if r.amount.None? then Err(AmountNotNumeric)
    else
      var currency :- ParseCurrency(r.currency);
      var ete :- ParseEte(r.ete);
      var creditor :- ReadAccount(r.creditorAcc.iban, r.creditorAcc.currency, DtoParty(r.creditor));
      var debtor :- ReadAccount(r.debtorAcc.iban, r.debtorAcc.currency, DtoParty(r.debtor));
      Ok(PaymentTx(txid, Pending, r.amount.value, currency, ete, r.txType, debtor, creditor))
  }

  /** A payment from a stored record. */
  function FromRecord(r: TxRecord): Result<PaymentTx> {
    var status :- ParseStatus(r.status);
    if r.amount.None? then Err(AmountNotNumeric)
    else
      var currency :- ParseCurrency(r.currency);
      var ete :- ParseEte(r.ete);
      var creditor :- ReadAccount(r.creditor.iban, r.creditor.currency, r.creditor.party);
      var debtor :- ReadAccount(r.debtor.iban, r.debtor.currency, r.debtor.party);
      if r.updated < r.created then Err(MetadataUpdatedBeforeCreated)
      else Ok(PaymentTx(r.txid, status, r.amount.value, currency, ete, r.txType, debtor, creditor))
  }

  function PartyToRecord(p: Party): PartyRecord {
    PartyRecord(p.bic, RoleText(p.role), p.country, p.name)
  }

  function AccountToRecord(a: Account): AccountRecord {
    AccountRecord(a.iban, a.currency, PartyToRecord(a.party))
  }

  /** The record of a payment; timestamps are chosen by whoever stores it. */
  function ToRecord(tx: PaymentTx, now: int): TxRecord {
    TxRecord(tx.txid, StatusText(tx.status), Some(tx.amount), tx.currency, tx.ete, tx.txType,
             AccountToRecord(tx.debtor), AccountToRecord(tx.creditor), now, now)
  }

  // ----- round trips -----

  predicate ValidParty(p: PartyRecord) {
    (|p.bic| == 8 || |p.bic| == 11) && (p.role == "debtor" || p.role == "creditor") && |p.country| == 2
  }

  predicate ValidAccount(a: AccountRecord) {
    15 <= |a.iban| <= 34 && |a.currency| == 3 && UpperCase(a.currency) && ValidParty(a.party)
  }

  lemma ReadAccountAccepts(a: AccountRecord)
    ensures ReadAccount(a.iban, a.currency, a.party).Ok? <==> ValidAccount(a)
    ensures ValidAccount(a) ==> AccountToRecord(ReadAccount(a.iban, a.currency, a.party).value) == a
  {
  }

  /** What a request must look like to become a payment. */
  predicate ValidRequest(r: PaymentRequest) {
    && r.amount.Some? && |r.currency| == 3 && UpperCase(r.currency) && EteFormat(r.ete)
    && ValidAccount(AccountRecord(r.creditorAcc.iban, r.creditorAcc.currency, DtoParty(r.creditor)))
    && ValidAccount(AccountRecord(r.debtorAcc.iban, r.debtorAcc.currency, DtoParty(r.debtor)))
  }

  /** What a record must look like to be recovered. */
  predicate ValidRecord(r: TxRecord) {
    && r.status in {"pending", "processing", "completed", "failed"}
    && r.amount.Some? && |r.currency| == 3 && UpperCase(r.currency) && EteFormat(r.ete)
    && ValidAccount(r.creditor) && ValidAccount(r.debtor) && r.created <= r.updated
  }

  /** Requests are accepted exactly if every field is in form, and records likewise. */
  lemma AcceptedExactlyWhenValid(q: PaymentRequest, r: TxRecord, txid: string)
    ensures FromRequest(q, txid).Ok? <==> ValidRequest(q)
    ensures FromRecord(r).Ok? <==> ValidRecord(r)
  {
    ReadAccountAccepts(AccountRecord(q.creditorAcc.iban, q.creditorAcc.currency, DtoParty(q.creditor)));
    ReadAccountAccepts(AccountRecord(q.debtorAcc.iban, q.debtorAcc.currency, DtoParty(q.debtor)));
    ReadAccountAccepts(r.creditor);
    ReadAccountAccepts(r.debtor);
  }

  /** The account has the fields of the two parts of a request. */
  predicate ReadFrom(a: Account, acc: AccountDto, party: PartyDto) {
    && a.iban == acc.iban && a.currency == acc.currency
    && a.party.bic == party.bic && a.party.country == party.country && a.party.name == party.name
    && party.role == (if a.party.role.Debtor? then "debtor" else "creditor")
  }

  /** An accepted payment is what was asked for: debtor and creditor in their places, amount,
      currency, identifiers and type as given. */
  lemma AcceptedAsRequested(q: PaymentRequest, txid: string)
    requires FromRequest(q, txid).Ok?
    ensures var tx := FromRequest(q, txid).value;
      && tx.txid == txid && tx.status.Pending? && q.amount == Some(tx.amount)
      && tx.currency == q.currency && tx.ete == q.ete && tx.txType == q.txType
      && ReadFrom(tx.debtor, q.debtorAcc, q.debtor) && ReadFrom(tx.creditor, q.creditorAcc, q.creditor)
  {
  }

  /** A payment is recovered unchanged from its own record exactly if the record is in form
      and the payment is still pending or being processed: a result, once stored, is read
      back as processing. */
  lemma SurvivesExactlyBeforeResult(tx: PaymentTx, now: int)
    ensures FromRecord(ToRecord(tx, now)) == Ok(tx) <==>
      ValidRecord(ToRecord(tx, now)) && (tx.status.Pending? || tx.status.Processing?)
    ensures ValidRecord(ToRecord(tx, now)) && (tx.status.Completed? || tx.status.Failed?) ==>
      FromRecord(ToRecord(tx, now)) == Ok(tx.(status := Processing))
  {
    ReadAccountInverts(tx.debtor);
    ReadAccountInverts(tx.creditor);
  }

  lemma ReadAccountInverts(a: Account)
    ensures var r := AccountToRecord(a);
      if ValidAccount(r) then ReadAccount(r.iban, r.currency, r.party) == Ok(a)
        else ReadAccount(r.iban, r.currency, r.party).Err?
  {
  }

  /** A payment accepted from a request is recovered unchanged from its own record, at any
      later time before its status moves. */
  lemma RecoveryInvertsStorage(q: PaymentRequest, txid: string, now: int)
    requires FromRequest(q, txid).Ok?
    ensures FromRecord(ToRecord(FromRequest(q, txid).value, now)) == Ok(FromRequest(q, txid).value)
  {
    AccountSurvives(q.creditorAcc, q.creditor);
    AccountSurvives(q.debtorAcc, q.debtor);
  }

  lemma AccountSurvives(a: AccountDto, p: PartyDto)
    requires ReadAccount(a.iban, a.currency, DtoParty(p)).Ok?
    ensures var r := AccountToRecord(ReadAccount(a.iban, a.currency, DtoParty(p)).value);
      ReadAccount(r.iban, r.currency, r.party) == ReadAccount(a.iban, a.currency, DtoParty(p))
  {
  }

  /** Recovery is faithful to every record of a payment still pending: what it rebuilds
      would be stored as the same record. */
  lemma StorageInvertsRecovery(r: TxRecord)
    requires FromRecord(r).Ok? && r.status == "pending" && r.created == r.updated
    ensures ToRecord(FromRecord(r).value, r.created) == r
  {
    ReadAccountAccepts(r.creditor);
    ReadAccountAccepts(r.debtor);
  }
}
