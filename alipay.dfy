/**
 * The Alipay CSV importer: skipping the export's preamble, undoing its tab-comma
 * delimiters, and turning each completed trade into a transaction on the importer's
 * own account.
 */
module Alipay {
  import opened Wrappers
  import opened Text
  import opened Numbers
  import opened Model
  import opened Rows

  /** The title the preamble of an export carries. */
  const Title: string := "支付宝交易记录"

  /** Lines of preamble before the CSV header row. */
  const SkipLines: nat := 3

  /** The statuses of completed trades; every other row is skipped. */
  const SuccessStatuses: seq<string> := ["交易成功", "退款成功", "还款成功"]

  /** The time formats tried, in order. */
  const TimeFormats: seq<string> := ["%Y-%m-%d %H:%M:%S", "%Y/%m/%d %H:%M:%S"]

  /** The in/out word of a movement between the user's own accounts. */
  const Neutral: string := "不计收支"

  /**
   * `AlipayImporter.identify` on the file's suffix and decoded text: a `.csv` file whose
   * first three lines carry the title.
   */
  function Identify(suffix: string, content: string): (b: bool)
    ensures b ==> Contains(content, Title)
  {
    var head := HeadLines(content, SkipLines);
    if Contains(head, Title) then
      ContainsInPrefix(content, head, Title);
      HasExtension(suffix, ".csv")
    else false
  }

  /** A `.csv` file whose first line carries the title is identified. */
  lemma TitleOnFirstLineIdentifies(suffix: string, content: string)
    requires HasExtension(suffix, ".csv") && Contains(FirstLine(content), Title)
    ensures Identify(suffix, content)
  {
    ContainsInPrefix(HeadLines(content, SkipLines), FirstLine(content), Title);
  }

  /** One line with the tab before each comma, and then every other tab, removed. */
  function CleanLine(line: string): string
  {
    ReplaceAll(ReplaceAll(line, "\t,", ","), "\t", "")
  }

  /** A cleaned line has no tab left. */
  lemma CleanLineHasNoTab(line: string)
    ensures '\t' !in CleanLine(line)
  {
    ReplaceCharRemoves(ReplaceAll(line, "\t,", ","), '\t', "");
  }

  /** A line without tabs is left as it is. */
  lemma CleanLineKeepsTabFree(line: string)
    requires '\t' !in line
    ensures CleanLine(line) == line
  {
    ReplaceAbsentIdentity(line, "\t,", ",");
    ReplaceAbsentCharIdentity(line, '\t', "");
  }

  /** The lines after the preamble (`lines[3:]`, empty when there are fewer). */
  function Body(lines: seq<string>): (r: seq<string>)
    ensures |lines| >= SkipLines ==> |r| == |lines| - SkipLines
    ensures |lines| >= SkipLines ==> forall i :: 0 <= i < |r| ==> r[i] == lines[i + SkipLines]
    ensures |lines| < SkipLines ==> r == []
  {
    if |lines| < SkipLines then [] else lines[SkipLines..]
  }

  /** Every line cleaned, in order. */
  function Cleaned(lines: seq<string>): (r: seq<string>)
    ensures |r| == |lines|
  {
    seq(|lines|, i requires 0 <= i < |lines| => CleanLine(lines[i]))
  }

  /** No tab survives the cleaning, and lines that had none come out unchanged. */
  lemma CleanedLines(lines: seq<string>, i: nat)
    requires i < |lines|
    ensures '\t' !in Cleaned(lines)[i]
    ensures '\t' !in lines[i] ==> Cleaned(lines)[i] == lines[i]
  {
    CleanLineHasNoTab(lines[i]);
    if '\t' !in lines[i] {
      CleanLineKeepsTabFree(lines[i]);
    }
  }

  /** The cleaning loop of `AlipayImporter.extract`. */
  method CleanLines(lines: seq<string>) returns (cleaned: seq<string>)
    ensures cleaned == Cleaned(lines)
  {
    cleaned := [];
    for i := 0 to |lines|
      invariant cleaned == Cleaned(lines[..i])
    {
      cleaned := cleaned + [CleanLine(lines[i])];
    }
    assert lines[..|lines|] == lines;
  }

  /** `资金状态` (fund status), or the trade's origin when that is empty. */
  function PaymentMethodText(row: Row): string
  {
    var funds := Strip(Get(row, "资金状态"));
    if funds != "" then funds else Strip(Get(row, "交易来源地"))
  }

  /** The amount column: the full-width-bracket spelling first, then the ASCII one. */
  function AmountText(row: Row): string
  {
    Strip(GetOr(row, "金额（元）", GetOr(row, "金额(元)", "0")))
  }

  /** The payment time, or the creation time when the row has no payment time column. */
  function DateText(row: Row): string
  {
    Strip(GetOr(row, "付款时间", Get(row, "交易创建时间")))
  }

  /** The transaction of an accepted row, given its trade number, time and signed amount. */
  function RowTransaction(row: Row, tradeNo: string, date: int, signed: (real, TxType),
                          account: string, currency: string)
    : (tx: Transaction)
    ensures tx.date == date && tx.amount == signed.0 && tx.txType == Some(signed.1)
  {
    Transaction(
      date := date,
      amount := signed.0,
      currency := currency,
      payee := Strip(Get(row, "交易对方")),
      narration := Strip(Get(row, "商品名称")),
      sourceAccount := account,
      counterAccount := None,
      paymentMethod := NoneIfEmpty(PaymentMethodText(row)),
      referenceId := Some(tradeNo),
      counterpartRef := NoneIfEmpty(Strip(Get(row, "商家订单号"))),
      rawCategory := NoneIfEmpty(Strip(Get(row, "类型"))),
      txType := Some(signed.1),
      metadata := EmptyMeta.(alipayStatus := Some(Strip(Get(row, "交易状态"))),
                             alipaySource := Some(Strip(Get(row, "交易来源地")))))
  }

  /**
   * `AlipayImporter._parse_row`: rows without a trade number (or repeating the header),
   * with a status outside the completed ones, with an amount `Decimal` rejects, or with a
   * time neither format reads are skipped.
   */
  function ParseRow(row: Row, account: string, currency: string, strptime: Strptime)
    : (r: Option<Transaction>)
    ensures r.Some? ==> Strip(Get(row, "交易号")) !in {"", "交易号"}
    ensures r.Some? ==> Strip(Get(row, "交易状态")) in SuccessStatuses
    ensures r.Some? ==> (ParseDecimal(AmountText(row)).Some?
      && FirstFormat(DateText(row), TimeFormats, strptime).Some?
      && r == Some(RowTransaction(row, Strip(Get(row, "交易号")),
                                  FirstFormat(DateText(row), TimeFormats, strptime).value,
                                  Signed(Strip(Get(row, "收/支")), Neutral,
                                         ParseDecimal(AmountText(row)).value.Value()),
                                  account, currency)))
  {
    var tradeNo := Strip(Get(row, "交易号"));
    if tradeNo == "" || tradeNo == "交易号" then None
    else if Strip(Get(row, "交易状态")) !in SuccessStatuses then None
    else
      match ParseDecimal(AmountText(row))
      case None => None
      case Some(d) =>
        var signed := Signed(Strip(Get(row, "收/支")), Neutral, d.Value());
        match FirstFormat(DateText(row), TimeFormats, strptime)
        case None => None
        case Some(date) => Some(RowTransaction(row, tradeNo, date, signed, account, currency))
  }

  /** The row parser with the importer's configuration fixed. */
  function RowParser(account: string, currency: string, strptime: Strptime): Row -> Option<Transaction>
  {
    row => ParseRow(row, account, currency, strptime)
  }

  /**
   * Every accepted row: its time read by the first format that works, the magnitude of
   * the amount kept, the type decided by the in/out column alone, with expenses never
   * positive and incomes never negative.
   */
  lemma AcceptedRow(row: Row, account: string, currency: string, strptime: Strptime)
    requires ParseRow(row, account, currency, strptime).Some?
    ensures var tx := ParseRow(row, account, currency, strptime).value;
      var direction := Strip(Get(row, "收/支"));
      FirstFormat(DateText(row), TimeFormats, strptime) == Some(tx.date)
      && Abs(tx.amount) == Abs(ParseDecimal(AmountText(row)).value.Value())
      && (tx.txType == Some(Expense) <==> direction == Outgoing)
      && (tx.txType == Some(Income) <==> direction == Incoming)
      && (tx.txType == Some(Transfer) <==> direction == Neutral)
      && (tx.txType == Some(Other) <==> direction !in {Outgoing, Incoming, Neutral})
      && (tx.txType == Some(Expense) ==> tx.amount <= 0.0)
      && (tx.txType == Some(Income) ==> tx.amount >= 0.0)
  {
  }

  /**
   * Every accepted row lands on the importer's account and currency with no counter
   * account, keeps its trade number as the reference and its status and origin as
   * metadata, and takes the origin as payment method when the fund status is empty.
   */
  lemma AcceptedRowFields(row: Row, account: string, currency: string, strptime: Strptime)
    requires ParseRow(row, account, currency, strptime).Some?
    ensures var tx := ParseRow(row, account, currency, strptime).value;
      tx.sourceAccount == account && tx.currency == currency && tx.counterAccount.None?
      && tx.referenceId == Some(Strip(Get(row, "交易号")))
      && tx.metadata.alipayStatus.Some? && tx.metadata.alipayStatus.value in SuccessStatuses
      && tx.metadata.alipaySource == Some(Strip(Get(row, "交易来源地")))
      && (Strip(Get(row, "资金状态")) == "" ==> tx.paymentMethod == NoneIfEmpty(Strip(Get(row, "交易来源地"))))
  {
  }

  /** A header row repeated inside the table is never a transaction. */
  lemma RepeatedHeaderSkipped(row: Row, account: string, currency: string, strptime: Strptime)
    requires "交易号" in row && row["交易号"] == "交易号"
    ensures ParseRow(row, account, currency, strptime).None?
  {
    StripKeeps("交易号");
  }

  /**
   * `AlipayImporter.extract`: drop the preamble, clean the lines, hand them to the CSV
   * reader (`readCsv`, which also strips keys and values), and parse every row.
   */
  method Extract(lines: seq<string>, readCsv: seq<string> -> seq<Row>,
                 account: string, currency: string, strptime: Strptime)
    returns (transactions: seq<Transaction>)
    ensures transactions == Parsed(readCsv(Cleaned(Body(lines))), RowParser(account, currency, strptime))
  {
    var cleaned := CleanLines(Body(lines));
    var rows := readCsv(cleaned);
    transactions := CollectParsed(rows, RowParser(account, currency, strptime));
  }
}
