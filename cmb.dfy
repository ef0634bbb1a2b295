/**
 * The China Merchants Bank CSV importers: the credit card statement, whose positive
 * amounts are spending on the card, and the debit card statement, whose amounts are
 * signed from the account's side.
 */
module Cmb {
  import opened Wrappers
  import opened Text
  import opened Numbers
  import opened Model
  import opened Rows

  /** The date formats tried, in order, by both importers. */
  const DateFormats: seq<string> := ["%Y%m%d", "%Y-%m-%d", "%Y/%m/%d"]

  /** How much of the file `identify` looks at. */
  const HeadLength: nat := 500

  /** `content[:500]`. */
  function Head(content: string): (r: string)
    ensures r <= content && |r| <= HeadLength
  {
    if |content| <= HeadLength then content else content[..HeadLength]
  }

  /**
   * `CmbCreditImporter.identify` on the file's suffix and decoded text: a `.csv` file
   * whose first 500 characters name the trade date and either the bank or the posting date.
   */
  function IdentifyCredit(suffix: string, content: string): (b: bool)
    ensures b ==> Contains(content, "交易日")
  {
    var head := Head(content);
    if Contains(head, "交易日") then
      ContainsInPrefix(content, head, "交易日");
      HasExtension(suffix, ".csv") && (Contains(head, "招商银行") || Contains(head, "记账日"))
    else false
  }

  /**
   * `CmbDebitImporter.identify`: a `.csv` file whose first 500 characters name the trade
   * date and the balance.
   */
  function IdentifyDebit(suffix: string, content: string): (b: bool)
    ensures b ==> Contains(content, "交易日期") && Contains(content, "余额")
  {
    var head := Head(content);
    if Contains(head, "交易日期") && Contains(head, "余额") then
      ContainsInPrefix(content, head, "交易日期");
      ContainsInPrefix(content, head, "余额");
      HasExtension(suffix, ".csv")
    else false
  }

  /**
   * The two predicates overlap: the debit header `交易日期` contains the credit marker
   * `交易日`, so a debit export that also names the bank is claimed by the credit importer
   * too, and the registry order decides between them.
   */
  lemma DebitWithBankNameIsCredit(suffix: string, content: string)
    requires IdentifyDebit(suffix, content) && Contains(Head(content), "招商银行")
    ensures IdentifyCredit(suffix, content)
  {
    ContainsPrefixOf(Head(content), "交易日期", "交易日");
  }

  /** Text from the 501st character on is never looked at. */
  lemma IdentifyIgnoresTail(suffix: string, content: string, tail: string)
    requires |content| >= HeadLength
    ensures IdentifyCredit(suffix, content + tail) == IdentifyCredit(suffix, content)
    ensures IdentifyDebit(suffix, content + tail) == IdentifyDebit(suffix, content)
  {
    assert Head(content + tail) == Head(content);
  }

  /** The credit amount with `¥`, commas and `￥` removed, in that order. */
  function CreditAmountText(raw: string): string
  {
    Strip(ReplaceAll(ReplaceAll(ReplaceAll(raw, [Yen], ""), ",", ""), [FullWidthYen], ""))
  }

  /** The debit amount with commas, `¥` and `￥` removed, in that order. */
  function DebitAmountText(raw: string): string
  {
    Strip(ReplaceAll(ReplaceAll(ReplaceAll(raw, ",", ""), [Yen], ""), [FullWidthYen], ""))
  }

  /** Removing one character with three replacements in a row leaves none of it. */
  lemma ThreeRemovals(raw: string, a: char, b: char, c: char, x: char)
    requires x in {a, b, c}
    ensures x !in Strip(ReplaceAll(ReplaceAll(ReplaceAll(raw, [a], ""), [b], ""), [c], ""))
  {
    var s1 := ReplaceAll(raw, [a], "");
    var s2 := ReplaceAll(s1, [b], "");
    var s3 := ReplaceAll(s2, [c], "");
    ReplaceCharRemoves(raw, a, "");
    ReplaceCharRemoves(s1, b, "");
    ReplaceCharRemoves(s2, c, "");
    if x == a {
      ReplaceKeepsAbsent(s1, [b], "", x);
      ReplaceKeepsAbsent(s2, [c], "", x);
    } else if x == b {
      ReplaceKeepsAbsent(s2, [c], "", x);
    }
    StripKeepsAbsent(s3, x);
  }

  /** Neither cleaned amount keeps a yen sign of either width or a thousands separator. */
  lemma AmountTextsClean(raw: string)
    ensures Yen !in CreditAmountText(raw) && FullWidthYen !in CreditAmountText(raw)
      && ',' !in CreditAmountText(raw)
    ensures Yen !in DebitAmountText(raw) && FullWidthYen !in DebitAmountText(raw)
      && ',' !in DebitAmountText(raw)
  {
    ThreeRemovals(raw, Yen, ',', FullWidthYen, Yen);
    ThreeRemovals(raw, Yen, ',', FullWidthYen, ',');
    ThreeRemovals(raw, Yen, ',', FullWidthYen, FullWidthYen);
    ThreeRemovals(raw, ',', Yen, FullWidthYen, Yen);
    ThreeRemovals(raw, ',', Yen, FullWidthYen, ',');
    ThreeRemovals(raw, ',', Yen, FullWidthYen, FullWidthYen);
  }

  /** The credit card's trade date: `交易日`, or `交易日期` when that is empty. */
  function CreditDateText(row: Row): string
  {
    Strip(OrElse(Get(row, "交易日"), Get(row, "交易日期")))
  }

  /** The credit amount column: the RMB amount, else the trade amount, else the amount. */
  function CreditAmountColumn(row: Row): string
  {
    Strip(OrElse(Get(row, "人民币金额"), OrElse(Get(row, "交易金额"), Get(row, "金额"))))
  }

  /** The card's last digits: the row's, else the importer's configured suffix, else "". */
  function CardSuffix(row: Row, configured: Option<string>): string
  {
    var cardNo := Strip(GetOr(row, "卡号后四位", Get(row, "卡号")));
    OrElse(cardNo, match configured case Some(c) => c case None => "")
  }

  /** A credit card spending is an expense only when the statement amount is positive. */
  function CreditType(a: real): (t: TxType)
    ensures t == Expense <==> a > 0.0
    ensures t == Income <==> a <= 0.0
  {
    if a > 0.0 then Expense else Income
  }

  /** The transaction of an accepted credit row, given its date and statement amount. */
  function CreditTransaction(row: Row, date: int, a: real, account: string, currency: string,
                             configured: Option<string>)
    : (tx: Transaction)
    ensures tx.date == date && tx.amount == -a && tx.txType == Some(CreditType(a))
  {
    var narration := Strip(OrElse(Get(row, "交易摘要"), OrElse(Get(row, "交易描述"), Get(row, "摘要"))));
    Transaction(
      date := date,
      amount := -a,
      currency := currency,
      payee := narration,
      narration := narration,
      sourceAccount := account,
      counterAccount := None,
      paymentMethod := None,
      referenceId := None,
      counterpartRef := None,
      rawCategory := None,
      txType := Some(CreditType(a)),
      metadata := EmptyMeta.(cardSuffix := Some(CardSuffix(row, configured)),
                             postingDate := Some(Strip(GetOr(row, "记账日", Get(row, "记账日期"))))))
  }

  /**
   * `CmbCreditImporter._parse_row`: rows without a date, with a date none of the formats
   * reads, or with an amount `Decimal` rejects are skipped.
   */
  function ParseCreditRow(row: Row, account: string, currency: string, configured: Option<string>,
                          strptime: Strptime)
    : (r: Option<Transaction>)
    ensures r.Some? ==> (CreditDateText(row) != ""
      && FirstFormat(CreditDateText(row), DateFormats, strptime).Some?
      && ParseDecimal(CreditAmountText(CreditAmountColumn(row))).Some?
      && r == Some(CreditTransaction(row, FirstFormat(CreditDateText(row), DateFormats, strptime).value,
                                     ParseDecimal(CreditAmountText(CreditAmountColumn(row))).value.Value(),
                                     account, currency, configured)))
  {
    var dateStr := CreditDateText(row);
    if dateStr == "" then None
    else
      match FirstFormat(dateStr, DateFormats, strptime)
      case None => None
      case Some(date) =>
        match ParseDecimal(CreditAmountText(CreditAmountColumn(row)))
        case None => None
        case Some(d) => Some(CreditTransaction(row, date, d.Value(), account, currency, configured))
  }

  /**
   * Every accepted credit row: the recorded amount is the statement amount negated, it is
   * an expense exactly when the statement amount is positive (zero counts as income), so
   * expenses are negative and incomes never negative.
   */
  lemma CreditSigns(row: Row, account: string, currency: string, configured: Option<string>,
                    strptime: Strptime)
    requires ParseCreditRow(row, account, currency, configured, strptime).Some?
    ensures var tx := ParseCreditRow(row, account, currency, configured, strptime).value;
      var a := ParseDecimal(CreditAmountText(CreditAmountColumn(row))).value.Value();
      tx.amount == -a
      && (tx.txType == Some(Expense) <==> a > 0.0)
      && (tx.txType == Some(Income) <==> a <= 0.0)
      && (tx.txType == Some(Expense) ==> tx.amount < 0.0)
      && (tx.txType == Some(Income) ==> tx.amount >= 0.0)
  {
  }

  /**
   * Every accepted credit row is on the importer's account with no counter account and
   * no references; the card suffix is the row's when it has one, otherwise the configured one.
   */
  lemma CreditFields(row: Row, account: string, currency: string, configured: Option<string>,
                     strptime: Strptime)
    requires ParseCreditRow(row, account, currency, configured, strptime).Some?
    ensures var tx := ParseCreditRow(row, account, currency, configured, strptime).value;
      var cardNo := Strip(GetOr(row, "卡号后四位", Get(row, "卡号")));
      tx.sourceAccount == account && tx.currency == currency && tx.counterAccount.None?
      && tx.referenceId.None? && tx.counterpartRef.None? && tx.payee == tx.narration
      && (cardNo != "" ==> tx.metadata.cardSuffix == Some(cardNo))
      && (cardNo == "" && configured.Some? ==> tx.metadata.cardSuffix == Some(configured.value))
      && (cardNo == "" && configured.None? ==> tx.metadata.cardSuffix == Some(""))
  {
  }

  /** The debit card's amount column: the trade amount, or the amount when that column is absent. */
  function DebitAmountColumn(row: Row): string
  {
    Strip(GetOr(row, "交易金额", Get(row, "金额")))
  }

  /** A debit card movement is income only when its amount is positive. */
  function DebitType(a: real): (t: TxType)
    ensures t == Income <==> a > 0.0
    ensures t == Expense <==> a <= 0.0
  {
    if a > 0.0 then Income else Expense
  }

  /** The transaction of an accepted debit row, given its date and amount. */
  function DebitTransaction(row: Row, date: int, a: real, account: string, currency: string)
    : (tx: Transaction)
    ensures tx.date == date && tx.amount == a && tx.txType == Some(DebitType(a))
  {
    var narration := Strip(GetOr(row, "摘要", Get(row, "交易摘要")));
    Transaction(
      date := date,
      amount := a,
      currency := currency,
      payee := narration,
      narration := narration,
      sourceAccount := account,
      counterAccount := None,
      paymentMethod := None,
      referenceId := None,
      counterpartRef := None,
      rawCategory := None,
      txType := Some(DebitType(a)),
      metadata := EmptyMeta.(balance := Some(Strip(Get(row, "余额")))))
  }

  /**
   * `CmbDebitImporter._parse_row`: rows without a `交易日期`, with a date none of the
   * formats reads, or with an amount `Decimal` rejects are skipped.
   */
  function ParseDebitRow(row: Row, account: string, currency: string, strptime: Strptime)
    : (r: Option<Transaction>)
    ensures r.Some? ==> (Strip(Get(row, "交易日期")) != ""
      && FirstFormat(Strip(Get(row, "交易日期")), DateFormats, strptime).Some?
      && ParseDecimal(DebitAmountText(DebitAmountColumn(row))).Some?
      && r == Some(DebitTransaction(row, FirstFormat(Strip(Get(row, "交易日期")), DateFormats, strptime).value,
                                    ParseDecimal(DebitAmountText(DebitAmountColumn(row))).value.Value(),
                                    account, currency)))
  {
    var dateStr := Strip(Get(row, "交易日期"));
    if dateStr == "" then None
    else
      match FirstFormat(dateStr, DateFormats, strptime)
      case None => None
      case Some(date) =>
        match ParseDecimal(DebitAmountText(DebitAmountColumn(row)))
        case None => None
        case Some(d) => Some(DebitTransaction(row, date, d.Value(), account, currency))
  }

  /**
   * Every accepted debit row keeps the amount's sign and is income exactly when it is
   * positive; it lands on the importer's account with the balance column as metadata.
   */
  lemma DebitSigns(row: Row, account: string, currency: string, strptime: Strptime)
    requires ParseDebitRow(row, account, currency, strptime).Some?
    ensures var tx := ParseDebitRow(row, account, currency, strptime).value;
      var a := ParseDecimal(DebitAmountText(DebitAmountColumn(row))).value.Value();
      tx.amount == a
      && (tx.txType == Some(Income) <==> a > 0.0)
      && (tx.txType == Some(Expense) <==> a <= 0.0)
      && tx.sourceAccount == account && tx.counterAccount.None?
      && tx.metadata.balance == Some(Strip(Get(row, "余额")))
  {
  }
}
