/**
 * The WeChat Pay CSV importer: locating the header line of the export and turning each
 * row into a transaction on the importer's own account.
 */
module Wechat {
  import opened Wrappers
  import opened Text
  import opened Numbers
  import opened Model
  import opened Rows

  /** The statuses of completed payments; every other row is skipped. */
  const SuccessStatuses: seq<string> := ["支付成功", "已转账", "已存入零钱", "已收钱", "已退款", "朋友已收钱"]

  const TimeFormat: string := "%Y-%m-%d %H:%M:%S"

  /** The title the first line of an export carries. */
  const Title: string := "微信支付账单明细"

  /**
   * `WechatImporter.identify` on the file's suffix and decoded text: a `.csv` file whose
   * first line carries the title.
   */
  function Identify(suffix: string, content: string): (b: bool)
    ensures b ==> Contains(content, Title)
  {
    var first := FirstLine(content);
    if Contains(first, Title) then
      ContainsInPrefix(content, first, Title);
      HasExtension(suffix, ".csv")
    else false
  }

  /** A title on a later line only does not identify the file. */
  lemma TitleMustBeFirst(suffix: string, first: string, rest: string)
    requires '\n' !in first && !Contains(first, Title)
    ensures !Identify(suffix, first + "\n" + rest)
  {
    var content := first + "\n" + rest;
    assert content[|first|] == '\n';
    assert FirstLine(content) == first;
  }

  /** The header line of the table starts with this. */
  const HeaderStart: string := "交易时间,"

  /** The amount column with its yen sign and thousands separators removed. */
  function AmountText(row: Row): string
  {
    Strip(ReplaceAll(ReplaceAll(Strip(Get(row, "金额(元)")), [Yen], ""), ",", ""))
  }

  /** The transaction of an accepted row, given its parsed time and amount. */
  function RowTransaction(row: Row, date: int, signed: (real, TxType), account: string, currency: string)
    : (tx: Transaction)
    ensures tx.date == date && tx.amount == signed.0 && tx.txType == Some(signed.1)
  {
    var txTypeRaw := Strip(Get(row, "交易类型"));
    Transaction(
      date := date,
      amount := signed.0,
      currency := currency,
      payee := Strip(Get(row, "交易对方")),
      narration := StripChar(Strip(Get(row, "商品")), '"'),
      sourceAccount := account,
      counterAccount := None,
      paymentMethod := NoneIfBlank(Strip(Get(row, "支付方式"))),
      referenceId := NoneIfBlank(StripChar(Strip(Get(row, "交易单号")), '\t')),
      counterpartRef := NoneIfBlank(StripChar(Strip(Get(row, "商户单号")), '\t')),
      rawCategory := NoneIfEmpty(txTypeRaw),
      txType := Some(signed.1),
      metadata := EmptyMeta.(wechatStatus := Some(Strip(Get(row, "当前状态"))),
                             wechatType := Some(txTypeRaw)))
  }

  /**
   * `WechatImporter._parse_row`: rows without a parseable time, with a status outside
   * the completed ones, or with an amount `Decimal` rejects are skipped.
   */
  function ParseRow(row: Row, account: string, currency: string, strptime: Strptime)
    : (r: Option<Transaction>)
    ensures r.Some? ==> Strip(Get(row, "交易时间")) != ""
    ensures r.Some? ==> Strip(Get(row, "当前状态")) in SuccessStatuses
    ensures r.Some? ==> (ParseDecimal(AmountText(row)).Some?
      && r == Some(RowTransaction(row, r.value.date,
                                  Signed(Strip(Get(row, "收/支")), "/", ParseDecimal(AmountText(row)).value.Value()),
                                  account, currency)))
  {
    var dateStr := Strip(Get(row, "交易时间"));
    if dateStr == "" then None
    else
      match strptime(dateStr, TimeFormat)
      case None => None
      case Some(date) =>
        if Strip(Get(row, "当前状态")) !in SuccessStatuses then None
        else
          match ParseDecimal(AmountText(row))
          case None => None
          case Some(d) => Some(RowTransaction(row, date, Signed(Strip(Get(row, "收/支")), "/", d.Value()), account, currency))
  }

  /** The row parser with the importer's configuration fixed. */
  function RowParser(account: string, currency: string, strptime: Strptime): Row -> Option<Transaction>
  {
    row => ParseRow(row, account, currency, strptime)
  }

  /**
   * Every accepted row: its time parsed with the one format, the magnitude of the amount
   * kept, the type decided by the direction column alone, with expenses never positive
   * and incomes never negative.
   */
  lemma AcceptedRow(row: Row, account: string, currency: string, strptime: Strptime)
    requires ParseRow(row, account, currency, strptime).Some?
    ensures var tx := ParseRow(row, account, currency, strptime).value;
      var direction := Strip(Get(row, "收/支"));
      strptime(Strip(Get(row, "交易时间")), TimeFormat) == Some(tx.date)
      && Abs(tx.amount) == Abs(ParseDecimal(AmountText(row)).value.Value())
      && (tx.txType == Some(Expense) <==> direction == Outgoing)
      && (tx.txType == Some(Income) <==> direction == Incoming)
      && (tx.txType == Some(Transfer) <==> direction == "/")
      && (tx.txType == Some(Other) <==> direction !in {Outgoing, Incoming, "/"})
      && (tx.txType == Some(Expense) ==> tx.amount <= 0.0)
      && (tx.txType == Some(Income) ==> tx.amount >= 0.0)
  {
  }

  /**
   * Every accepted row lands on the importer's account and currency with no counter
   * account, records its completed status, and never keeps the `/` placeholder as a
   * payment method or reference.
   */
  lemma AcceptedRowFields(row: Row, account: string, currency: string, strptime: Strptime)
    requires ParseRow(row, account, currency, strptime).Some?
    ensures var tx := ParseRow(row, account, currency, strptime).value;
      tx.sourceAccount == account && tx.currency == currency && tx.counterAccount.None?
      && tx.metadata.wechatStatus.Some? && tx.metadata.wechatStatus.value in SuccessStatuses
      && tx.paymentMethod != Some("/") && tx.referenceId != Some("/") && tx.counterpartRef != Some("/")
  {
  }

  /** The trade number loses its trailing tabs in the strip before; the tab strip changes nothing. */
  lemma TradeNumberTabsGone(row: Row)
    ensures StripChar(Strip(Get(row, "交易单号")), '\t') == Strip(Get(row, "交易单号"))
  {
    StripThenTab(Get(row, "交易单号"));
  }

  /** Position of the first line from `k` on that starts the table. */
  function HeaderFrom(lines: seq<string>, k: nat): (r: Option<nat>)
    requires k <= |lines|
    ensures r.Some? ==> k <= r.value < |lines| && HeaderStart <= lines[r.value]
    ensures r.Some? ==> forall j :: k <= j < r.value ==> !(HeaderStart <= lines[j])
    ensures r.None? ==> forall j :: k <= j < |lines| ==> !(HeaderStart <= lines[j])
    decreases |lines| - k
  {
    if k == |lines| then None
    else if HeaderStart <= lines[k] then Some(k)
    else HeaderFrom(lines, k + 1)
  }

  /**
   * `WechatImporter.extract`: find the header line, hand the lines from there on to the
   * CSV reader (`readCsv`, which also strips keys and values), and parse every row.
   * Without a header line there are no transactions.
   */
  method Extract(lines: seq<string>, readCsv: seq<string> -> seq<Row>,
                 account: string, currency: string, strptime: Strptime)
    returns (transactions: seq<Transaction>)
    ensures HeaderFrom(lines, 0).None? ==> transactions == []
    ensures HeaderFrom(lines, 0).Some? ==>
      transactions == Parsed(readCsv(lines[HeaderFrom(lines, 0).value..]),
                             RowParser(account, currency, strptime))
  {
    var headerIdx: Option<nat> := None;
    var i := 0;
    while i < |lines| && headerIdx.None?
      invariant i <= |lines|
      invariant headerIdx.None? ==> HeaderFrom(lines, 0) == HeaderFrom(lines, i)
      invariant headerIdx.Some? ==> headerIdx == HeaderFrom(lines, 0)
      decreases |lines| - i, if headerIdx.None? then 1 else 0
    {
      if HeaderStart <= lines[i] {
        headerIdx := Some(i);
      } else {
        i := i + 1;
      }
    }
    if headerIdx.None? {
      return [];
    }
    var rows := readCsv(lines[headerIdx.value..]);
    transactions := CollectParsed(rows, RowParser(account, currency, strptime));
  }
}
