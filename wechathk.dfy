/**
 * The WeChat Pay HK JSON importer: each record of the export, with its amount in cents,
 * its payment state and its optional price in the original currency, becomes one
 * transaction on the importer's own account.
 */
module WechatHK {
  import opened Wrappers
  import opened Text
  import opened Numbers
  import opened Model
  import opened Rows
  import ClearingRoutes

  /** One JSON record, its values as text. */
  type Record = map<string, string>

  /** `datetime.fromtimestamp(n)`: the local instant, or `None` where Python raises. */
  type FromTimestamp = int -> Option<int>

  /** The payment states that produce a transaction: a payment and a refund. */
  const PaidState: string := "0"
  const RefundState: string := "9"

  /** The currency every recognised foreign price is in. */
  const ForeignCurrency: string := "CNY"

  /** The platform name given to the merchant clearing detector. */
  const Platform: string := "WeChatHK"

  /**
   * `_parse_foreign_price`: a yen sign of either width followed by a decimal gives that
   * amount in CNY; any other text, or a number `Decimal` rejects, gives `None`.
   */
  function ParseForeignPrice(foreignPrice: string): (r: Option<(Dec, string)>)
    ensures r.Some? ==> r.value.1 == ForeignCurrency
    ensures r.Some? ==> Strip(foreignPrice) != [] && Strip(foreignPrice)[0] in {Yen, FullWidthYen}
  {
    var s := Strip(foreignPrice);
    if |s| > 0 && (s[0] == FullWidthYen || s[0] == Yen) then
      match ParseDecimal(s[1..])
      case Some(d) => Some((d, ForeignCurrency))
      case None => None
    else None
  }

  /** A price written as a yen sign and the text of a decimal parses back to that decimal. */
  lemma ForeignPriceRoundTrip(d: Dec, sign: char)
    requires sign in {Yen, FullWidthYen}
    ensures ParseForeignPrice([sign] + Render(d)) == Some((d, ForeignCurrency))
  {
    var s := [sign] + Render(d);
    assert !IsSpace(sign);
    RenderEnds(d);
    StripKeeps(s);
    assert s[1..] == Render(d);
    RenderParses(d);
  }

  /** `"{brand}({tail})"` when both are known, else the instrument as given. */
  function PaymentMethodText(record: Record): string
  {
    var bankName := Get(record, "bank_name");
    var brand := if bankName != "" then Before(bankName, '|') else "";
    var tail := Get(record, "card_tail");
    if brand != "" && tail != "" then brand + "(" + tail + ")" else Get(record, "instrument")
  }

  /** The description, or the product description when that is empty. */
  function Narration(record: Record): string
  {
    OrElse(Strip(Get(record, "description")), Strip(Get(record, "product_desc")))
  }

  /** The metadata: the foreign price when it parses, the rate when given, the refund flag. */
  function RecordMetadata(record: Record, isRefund: bool): (m: Metadata)
    ensures m.wechathkRefund == isRefund
    ensures m.foreignRate == NoneIfEmpty(Strip(Get(record, "foreign_rate")))
  {
    var foreignPrice := Strip(Get(record, "foreign_price"));
    var parsed := if foreignPrice != "" then ParseForeignPrice(foreignPrice) else None;
    var m := EmptyMeta.(foreignRate := NoneIfEmpty(Strip(Get(record, "foreign_rate"))),
                        wechathkRefund := isRefund);
    match parsed
    case Some(p) => m.(foreignAmount := Some(p.0), foreignCurrency := Some(p.1))
    case None => m
  }

  /** The transaction of an accepted record, given its time, amount and payment state. */
  function RecordTransaction(record: Record, date: int, amount: real, isRefund: bool,
                             account: string, currency: string)
    : (tx: Transaction)
    ensures tx.date == date && tx.amount == amount
    ensures tx.txType == Some(if isRefund then Income else Expense)
  {
    var merchant := Strip(Get(record, "merchant"));
    Transaction(
      date := date,
      amount := amount,
      currency := currency,
      payee := merchant,
      narration := Narration(record),
      sourceAccount := account,
      counterAccount := ClearingRoutes.DetectMerchantClearing(Platform, merchant, Narration(record)),
      paymentMethod := NoneIfEmpty(PaymentMethodText(record)),
      referenceId := NoneIfEmpty(Strip(Get(record, "payrecord_id"))),
      counterpartRef := NoneIfEmpty(Strip(Get(record, "out_trade_no"))),
      rawCategory := None,
      txType := Some(if isRefund then Income else Expense),
      metadata := RecordMetadata(record, isRefund))
  }

  /** The amount in the account's currency: the cents divided by a hundred. */
  function Cents(record: Record): Option<real>
  {
    match ParseDecimal(GetOr(record, "amount_in_cent", "0"))
    case Some(d) => Some(d.Value() / 100.0)
    case None => None
  }

  /**
   * The checks of `WechatHKImporter._parse_record`: records in another payment state,
   * without a timestamp, with a timestamp `int` or `fromtimestamp` rejects, or with an
   * amount `Decimal` rejects give `None`; the others give their time, signed amount and
   * whether they are a refund.
   */
  function RecordFacts(record: Record, fromTimestamp: FromTimestamp): (r: Option<(int, real, bool)>)
    ensures r.Some? ==> GetOr(record, "pay_state", "") in {PaidState, RefundState}
    ensures r.Some? ==> (r.value.2 <==> GetOr(record, "pay_state", "") == RefundState)
    ensures r.Some? ==> (Get(record, "datetime") != "" && ParseInt(Get(record, "datetime")).Some?
      && fromTimestamp(ParseInt(Get(record, "datetime")).value) == Some(r.value.0))
    ensures r.Some? ==> (Cents(record).Some?
      && r.value.1 == if r.value.2 then Cents(record).value else -Cents(record).value)
  {
    var payState := GetOr(record, "pay_state", "");
    if payState != PaidState && payState != RefundState then None
    else
      var ts := Get(record, "datetime");
      if ts == "" then None
      else
        match ParseInt(ts)
        case None => None
        case Some(n) =>
          match fromTimestamp(n)
          case None => None
          case Some(date) =>
            match Cents(record)
            case None => None
            case Some(a) =>
              var isRefund := payState == RefundState;
              Some((date, if isRefund then a else -a, isRefund))
  }

  /** `WechatHKImporter._parse_record`: the transaction of a record that passes the checks. */
  function ParseRecord(record: Record, account: string, currency: string, fromTimestamp: FromTimestamp)
    : (r: Option<Transaction>)
    ensures r.Some? ==> r.value.sourceAccount == account && r.value.currency == currency
    ensures r.Some? ==> (r.value.txType == Some(Income) || r.value.txType == Some(Expense))
    ensures r.Some? ==> (r.value.txType == Some(Income) <==> r.value.metadata.wechathkRefund)
  {
    match RecordFacts(record, fromTimestamp)
    case None => None
    case Some(f) => Some(RecordTransaction(record, f.0, f.1, f.2, account, currency))
  }

  /**
   * Every accepted record: a refund (state 9) is income of the record's amount and carries
   * the refund flag; a payment (state 0) is an expense of the amount negated.
   */
  lemma AcceptedRecordSigns(record: Record, account: string, currency: string,
                            fromTimestamp: FromTimestamp)
    requires ParseRecord(record, account, currency, fromTimestamp).Some?
    ensures var tx := ParseRecord(record, account, currency, fromTimestamp).value;
      var state := GetOr(record, "pay_state", "");
      var a := ParseDecimal(GetOr(record, "amount_in_cent", "0")).value.Value() / 100.0;
      (state == RefundState ==> tx.amount == a && tx.txType == Some(Income) && tx.metadata.wechathkRefund)
      && (state == PaidState ==> tx.amount == -a && tx.txType == Some(Expense) && !tx.metadata.wechathkRefund)
  {
    var f := RecordFacts(record, fromTimestamp).value;
    assert Cents(record).value == ParseDecimal(GetOr(record, "amount_in_cent", "0")).value.Value() / 100.0;
    assert ParseRecord(record, account, currency, fromTimestamp).value
      == RecordTransaction(record, f.0, f.1, f.2, account, currency);
  }

  /**
   * Every accepted record lands on the importer's account with the merchant as payee;
   * its counter account is exactly what the merchant clearing detector finds.
   */
  lemma AcceptedRecordAccounts(record: Record, account: string, currency: string,
                               fromTimestamp: FromTimestamp)
    requires ParseRecord(record, account, currency, fromTimestamp).Some?
    ensures var tx := ParseRecord(record, account, currency, fromTimestamp).value;
      tx.sourceAccount == account && tx.currency == currency
      && tx.payee == Strip(Get(record, "merchant"))
      && tx.counterAccount == ClearingRoutes.DetectMerchantClearing(Platform, tx.payee, tx.narration)
      && tx.referenceId == NoneIfEmpty(Strip(Get(record, "payrecord_id")))
      && tx.counterpartRef == NoneIfEmpty(Strip(Get(record, "out_trade_no")))
  {
  }

  /**
   * The foreign metadata: amount and currency together exactly when the foreign price
   * parses, in CNY; the rate exactly when it is non-empty.
   */
  lemma ForeignMetadata(record: Record, isRefund: bool)
    ensures var m := RecordMetadata(record, isRefund);
      var p := Strip(Get(record, "foreign_price"));
      (m.foreignAmount.Some? <==> p != "" && ParseForeignPrice(p).Some?)
      && (m.foreignAmount.Some? ==> m.foreignAmount.value == ParseForeignPrice(p).value.0
                                    && m.foreignCurrency == Some(ForeignCurrency))
      && (m.foreignAmount.None? ==> m.foreignCurrency.None?)
      && (m.foreignRate.Some? <==> Strip(Get(record, "foreign_rate")) != "")
  {
  }

  /**
   * The payment method: `brand(tail)` when the bank name's first `|`-field and the card
   * tail are both non-empty, otherwise the instrument; empty gives `None`.
   */
  lemma PaymentMethodChoice(record: Record)
    ensures var brand := Before(Get(record, "bank_name"), '|');
      var tail := Get(record, "card_tail");
      (brand != "" && tail != "" ==> PaymentMethodText(record) == brand + "(" + tail + ")")
      && (brand == "" || tail == "" ==> PaymentMethodText(record) == Get(record, "instrument"))
  {
  }

  /** The record parser with the importer's configuration fixed. */
  function RecordParser(account: string, currency: string, fromTimestamp: FromTimestamp)
    : Record -> Option<Transaction>
  {
    record => ParseRecord(record, account, currency, fromTimestamp)
  }

  /** `WechatHKImporter.extract`: parse every record of the JSON array in order. */
  method Extract(records: seq<Record>, account: string, currency: string, fromTimestamp: FromTimestamp)
    returns (transactions: seq<Transaction>)
    ensures transactions == Parsed(records, RecordParser(account, currency, fromTimestamp))
  {
    transactions := CollectParsed(records, RecordParser(account, currency, fromTimestamp));
  }
}
