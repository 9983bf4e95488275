/**
 * The classifier (class FireflyTransaction): one feed record becomes a ledger
 * transaction with a kind and a counter-party, and then a ledger payload whose
 * source and destination are routed to the configured accounts.
 */
module Classifier {
  import opened Wrappers

  // Type tags of the brokerage feed that the classifier knows about.
  const CardPayment := "CARD_PAYMENT"
  const Exchange := "EXCHANGE"
  const TransferTag := "TRANSFER"
  const CardRefund := "CARD_REFUND"
  const Topup := "TOPUP"
  const Atm := "ATM"
  const KnownTags: set<string> := {CardPayment, Exchange, TransferTag, CardRefund, Topup, Atm}

  /** The ledger's transaction types 'withdrawal', 'deposit' and 'transfer'. */
  datatype Kind = Withdrawal | Deposit | Transfer

  /** The exceptions the classifier raises, one per message in the source. */
  datatype Error =
    | UnknownTransferType      // 'Unknown transfer type'
    | MissingVaultId           // 'Missing vault id'
    | MissingTopupAccountId    // 'Missing topup account id'
    | MissingWalletAccountId   // 'Missing wallet account id'

  datatype Merchant = Merchant(name: string)

  /** An opaque stand-in for the formatted date of an epoch-millisecond timestamp; the formatting is not modelled. */
  datatype Date = DayOf(createdMillis: int)

  /** The fields of a FireflyTransaction once its constructor has derived them. */
  datatype Txn = Txn(
    legId: string,
    kind: Kind,
    date: Date,
    opposite: string,
    amount: int,
    category: Option<string>,
    isVault: bool,
    currency: string)

  /** The ledger accounts get_json is given: the known account and the optional vault, top-up and wallet. */
  datatype Accounts = Accounts(
    accountId: string,
    vaultId: Option<string>,
    topupId: Option<string>,
    walletId: Option<string>)

  /** One side of a ledger entry: a `*_id` key or a `*_name` key. */
  datatype Endpoint = ById(id: string) | ByName(name: string)

  /** The JSON body of one ledger transaction; exactly one source and one destination key. */
  datatype Payload = Payload(
    description: Option<string>,
    kind: Kind,
    amount: nat,
    category: Option<string>,
    date: Date,
    currencyCode: string,
    source: Endpoint,
    destination: Endpoint)

  function Abs(x: int): nat {
    if x < 0 then -x else x
  }

  /** extract_type: an ordered decision table on the type tag and the sign of the amount. */
  function ExtractType(tag: string, amount: int): (r: Result<Kind, Error>)
    ensures r.Ok? <==> tag in KnownTags && !(tag == CardRefund && amount <= 0) && !(tag == Exchange && amount == 0)
    ensures r.Err? ==> r.error == UnknownTransferType
  {
    if tag == CardPayment || (tag == Exchange && amount < 0) then Ok(Withdrawal)
    else if (tag == TransferTag || tag == Exchange || tag == CardRefund) && amount > 0 then Ok(Deposit)
    else if tag == Topup || tag == TransferTag || tag == Atm then Ok(Transfer)
    else Err(UnknownTransferType)
  }

  // The same classification written as a rule list, read from the top; the
  // first rule whose tags and signs both match decides the kind.
  datatype Sign = Negative | Zero | Positive
  datatype Rule = Rule(tags: set<string>, signs: set<Sign>, kind: Kind)

  function SignOf(amount: int): Sign {
    if amount < 0 then Negative else if amount == 0 then Zero else Positive
  }

  const KindRules: seq<Rule> := [
    Rule({CardPayment}, {Negative, Zero, Positive}, Withdrawal),
    Rule({Exchange}, {Negative}, Withdrawal),
    Rule({TransferTag, Exchange, CardRefund}, {Positive}, Deposit),
    Rule({Topup, TransferTag, Atm}, {Negative, Zero, Positive}, Transfer)
  ]

  function FirstMatch(rules: seq<Rule>, tag: string, sign: Sign): Option<Kind> {
    if rules == [] then None
    else if tag in rules[0].tags && sign in rules[0].signs then Some(rules[0].kind)
    else FirstMatch(rules[1..], tag, sign)
  }

  /** extract_type agrees with the rule list on every input, the raise included. */
  lemma ExtractTypeFollowsRules(tag: string, amount: int)
    ensures ExtractType(tag, amount) ==
      match FirstMatch(KindRules, tag, SignOf(amount))
      case Some(k) => Ok(k)
      case None => Err(UnknownTransferType)
  {
    var sign := SignOf(amount);
    var r1, r2, r3 := KindRules[1..], KindRules[2..], KindRules[3..];
    assert r1 == KindRules[1..] && r1[1..] == r2 && r2[1..] == r3 && r3[1..] == [];
    assert r1[0] == KindRules[1] && r2[0] == KindRules[2] && r3[0] == KindRules[3];
    assert |r3| == 1 && r3[0] == Rule({Topup, TransferTag, Atm}, {Negative, Zero, Positive}, Transfer);
    assert sign in r3[0].signs;
    assert FirstMatch(r3[1..], tag, sign) == None;
    var m3 := FirstMatch(r3, tag, sign);
    assert m3 == if tag in {Topup, TransferTag, Atm} then Some(Transfer) else None;
    var m2 := FirstMatch(r2, tag, sign);
    assert m2 == if tag in {TransferTag, Exchange, CardRefund} && sign == Positive then Some(Deposit) else m3;
    var m1 := FirstMatch(r1, tag, sign);
    assert m1 == if tag == Exchange && sign == Negative then Some(Withdrawal) else m2;
    assert FirstMatch(KindRules, tag, sign) == if tag == CardPayment then Some(Withdrawal) else m1;
  }

  /** extract_opposite_acount: the merchant's name when there is a merchant record, else the description. */
  function OppositeAccount(merchant: Option<Merchant>, description: string): (r: string)
    ensures merchant.Some? ==> r == merchant.value.name
    ensures merchant.None? ==> r == description
  {
    match merchant
    case Some(m) => m.name
    case None => description
  }

  /**
   * The FireflyTransaction constructor: derives the fields; raises through extract_type
   * (the date conversion's own errors on out-of-range timestamps are not modelled).
   */
  function NewTxn(legId: string, tag: string, created: int, description: string, merchant: Option<Merchant>,
                  amount: int, category: Option<string>, isVault: bool, currency: string): (r: Result<Txn, Error>)
    ensures r.Ok? <==> ExtractType(tag, amount).Ok?
    ensures r.Err? ==> r.error == UnknownTransferType
    ensures r.Ok? ==>
      && r.value.legId == legId && r.value.kind == ExtractType(tag, amount).value
      && r.value.date == DayOf(created) && r.value.opposite == OppositeAccount(merchant, description)
      && r.value.amount == amount && r.value.category == category
      && r.value.isVault == isVault && r.value.currency == currency
  {
    match ExtractType(tag, amount)
    case Err(e) => Err(e)
    case Ok(kind) => Ok(Txn(legId, kind, DayOf(created), OppositeAccount(merchant, description),
                            amount, category, isVault, currency))
  }

  /** The default polarity of get_json: the known account receives the money. */
  predicate Incoming(t: Txn) {
    t.kind == Deposit || (t.kind == Transfer && t.amount > 0)
    || (t.isVault && t.opposite == "To " + t.currency)
  }

  function MakePayload(t: Txn, source: Endpoint, destination: Endpoint): Payload {
    Payload(t.category, t.kind, Abs(t.amount), t.category, t.date, t.currency, source, destination)
  }

  /**
   * get_json: a default polarity, then at most one substitution (vault, else
   * top-up, else wallet), each raising when its account id is not configured.
   */
  function GetJson(t: Txn, acc: Accounts): (r: Result<Payload, Error>)
    // it raises exactly when the substitution it makes has no account id configured
    ensures t.isVault ==> (r.Err? <==> acc.vaultId.None?)
    ensures !t.isVault && t.kind == Transfer && t.amount > 0 ==> (r.Err? <==> acc.topupId.None?)
    ensures !t.isVault && t.kind == Transfer && t.amount < 0 ==> (r.Err? <==> acc.walletId.None?)
    ensures !t.isVault && !(t.kind == Transfer && t.amount != 0) ==> r.Ok?
    ensures r.Err? ==> r.error == (if t.isVault then MissingVaultId
                                   else if t.amount > 0 then MissingTopupAccountId
                                   else MissingWalletAccountId)
    ensures r.Ok? ==>
      && r.value.amount == Abs(t.amount) && r.value.kind == t.kind
      && r.value.description == t.category && r.value.category == t.category
      && r.value.date == t.date && r.value.currencyCode == t.currency
    // the vault replaces the by-name side, whichever it is
    ensures r.Ok? && t.isVault ==>
      (r.value.source, r.value.destination) ==
        (if Incoming(t) then (ById(acc.vaultId.value), ById(acc.accountId))
         else (ById(acc.accountId), ById(acc.vaultId.value)))
    ensures r.Ok? && !t.isVault && t.kind == Transfer && t.amount > 0 ==>
      r.value.source == ById(acc.topupId.value) && r.value.destination == ById(acc.accountId)
    ensures r.Ok? && !t.isVault && t.kind == Transfer && t.amount < 0 ==>
      r.value.source == ById(acc.accountId) && r.value.destination == ById(acc.walletId.value)
    // no substitution: the counter-party is named on the side opposite the known account
    ensures r.Ok? && !t.isVault && !(t.kind == Transfer && t.amount != 0) ==>
      (r.value.source, r.value.destination) ==
        (if Incoming(t) then (ByName(t.opposite), ById(acc.accountId))
         else (ById(acc.accountId), ByName(t.opposite)))
    ensures r.Ok? ==> r.value.source == ById(acc.accountId) || r.value.destination == ById(acc.accountId)
  {
    var incoming := Incoming(t);
    var source := if incoming then ByName(t.opposite) else ById(acc.accountId);
    var destination := if incoming then ById(acc.accountId) else ByName(t.opposite);
    if t.isVault then
      if acc.vaultId.None? then Err(MissingVaultId)
      else if source.ByName? then Ok(MakePayload(t, ById(acc.vaultId.value), destination))
      else Ok(MakePayload(t, source, ById(acc.vaultId.value)))
    else if t.kind == Transfer && t.amount > 0 then
      if acc.topupId.None? then Err(MissingTopupAccountId)
      else Ok(MakePayload(t, ById(acc.topupId.value), destination))
    else if t.kind == Transfer && t.amount < 0 then
      if acc.walletId.None? then Err(MissingWalletAccountId)
      else Ok(MakePayload(t, source, ById(acc.walletId.value)))
    else Ok(MakePayload(t, source, destination))
  }

  /** A card payment of 12.50 at "Shop" (amounts in cents): a withdrawal from the known account to "Shop". */
  lemma CardPaymentExample(acc: Accounts)
    ensures var t := NewTxn("a1", CardPayment, 1700000000000, "Shop", None, -1250, Some("Groceries"), false, "EUR");
            t.Ok? && t.value.kind == Withdrawal && t.value.opposite == "Shop"
            && GetJson(t.value, acc) == Ok(Payload(Some("Groceries"), Withdrawal, 1250, Some("Groceries"),
                                                    DayOf(1700000000000), "EUR", ById(acc.accountId), ByName("Shop")))
  {
  }

  /** A vault movement labelled "To EUR" in EUR: from the vault into the known account. */
  lemma VaultToCurrencyExample(t: Txn, acc: Accounts)
    requires t.isVault && t.opposite == "To EUR" && t.currency == "EUR"
    requires acc.vaultId.Some?
    ensures GetJson(t, acc).Ok?
    ensures GetJson(t, acc).value.source == ById(acc.vaultId.value)
    ensures GetJson(t, acc).value.destination == ById(acc.accountId)
  {
    assert "To " + t.currency == "To EUR";
  }
}
