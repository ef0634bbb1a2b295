/**
 * The JD (京东) CSV importer: its amount column with the refund written in brackets, the
 * product categorizer, and the row parser that routes every payment through the JD
 * clearing accounts, BaiTiao repayments and XiaoJinKu deposits and withdrawals.
 */
module Jd {
  import opened Wrappers
  import opened Text
  import opened Numbers
  import opened Model
  import opened Tables
  import opened Rows
  import ClearingRoutes
  import Resolve

  /** The statuses of completed trades; every other row is skipped. */
  const SuccessStatuses: set<string> := {"交易成功", "还款成功"}

  const TimeFormat: string := "%Y-%m-%d %H:%M:%S"

  /** The in/out word of a movement that is neither spending nor income. */
  const Neutral: string := "不计收支"

  /** The platform name given to the clearing resolver. */
  const Platform: string := "JD"

  const JdClearing: string := "Assets:Clearing:JD"
  const UnknownSource: string := "Assets:Clearing:JD:Unknown"
  const BaiTiao: string := "Liabilities:JD:BaiTiao"
  const XiaoJinKu: string := "Assets:JD:XiaoJinKu"
  const UnknownAsset: string := "Assets:Unknown"

  /** The title the first lines of an export carry. */
  const AccountHeader: string := "京东账号名"

  /**
   * `JdImporter.identify` on the file's suffix and decoded text: a `.csv` file whose first
   * five lines carry the account-name header.
   */
  function Identify(suffix: string, content: string): (b: bool)
    ensures b ==> Contains(content, AccountHeader)
  {
    var head := HeadLines(content, 5);
    if Contains(head, AccountHeader) then
      ContainsInPrefix(content, head, AccountHeader);
      HasExtension(suffix, ".csv")
    else false
  }

  // The product categorizer.

  /** The product keyword groups, in the order the categorizer tries them. */
  const ItemCategories: seq<Group> := [
    (["电脑", "笔记本", "手机", "平板", "耳机", "音箱", "相机", "路由", "充电", "数据线", "键盘", "鼠标",
      "显示器", "剃须"], "Expenses:Shopping:Electronics"),
    (["书", "图书", "文具", "教材", "课本"], "Expenses:Education:Books"),
    (["衣", "裤", "裙", "袜", "鞋", "包", "帽", "外套", "夹克", "T恤", "毛衣", "羽绒"],
     "Expenses:Shopping:Clothing"),
    (["食品", "零食", "饮料", "米", "面", "油", "奶", "茶", "咖啡", "饼干", "糖", "巧克力", "坚果"],
     "Expenses:Food:Grocery"),
    (["洗发", "沐浴", "牙膏", "护肤", "化妆", "卫生", "洗衣", "清洁", "湿巾", "毛球"],
     "Expenses:Shopping:DailyGoods"),
    (["家具", "收纳", "床", "枕", "被", "毯", "灯", "窗帘", "厨具", "餐具", "不锈钢", "烘焙"],
     "Expenses:Shopping:HomeGoods")
  ]

  const DefaultCategory: string := "Expenses:Uncategorized"

  /** `JdItemCategorizer.categorize`: the first group with a keyword in the name. */
  function Categorize(name: string): (r: string)
    ensures r == DefaultCategory || exists i :: 0 <= i < |ItemCategories| && r == ItemCategories[i].1
  {
    Classify(ItemCategories, name, DefaultCategory)
  }

  /**
   * Table order decides: a phone bag (`手机包`) is electronics although `包` (bag)
   * would make it clothing.
   */
  lemma PhoneFirst(rest: string)
    ensures Categorize("手机" + rest) == "Expenses:Shopping:Electronics"
  {
    var name := "手机" + rest;
    assert "手机" <= name;
    assert Contains(name, ItemCategories[0].0[2]);
    FirstGroupIs(ItemCategories, name, 0);
  }

  // The amount column: `^([\d.]+)(?:[（(]已(?:全额)?退款([\d.]*)[）)])?$`.

  /** A character of `[\d.]`. */
  predicate AmountChar(c: char)
  {
    IsDigit(c) || c == '.'
  }

  /** The length of the longest run of `[\d.]` at the start of `s`, as greedy `+` and `*` take it. */
  function AmountRun(s: string): (n: nat)
    ensures n <= |s|
    ensures forall k :: 0 <= k < n ==> AmountChar(s[k])
    ensures n < |s| ==> !AmountChar(s[n])
  {
    if s != [] && AmountChar(s[0]) then 1 + AmountRun(s[1..]) else 0
  }

  /** A run followed by a character outside `[\d.]`, or by nothing, is taken whole. */
  lemma {:induction false} AmountRunOf(s: string, t: string)
    requires forall k :: 0 <= k < |s| ==> AmountChar(s[k])
    requires t == [] || !AmountChar(t[0])
    ensures AmountRun(s + t) == |s|
  {
    if s != [] {
      assert (s + t)[1..] == s[1..] + t;
      AmountRunOf(s[1..], t);
    }
  }

  const OpenBrackets: set<char> := {'(', '（'}
  const CloseBrackets: set<char> := {')', '）'}

  /**
   * The bracketed group `[（(]已(?:全额)?退款([\d.]*)[）)]` filling the rest of the text: the
   * digits it captures (empty for a full refund), or `None` when the text is not one.
   */
  function RefundGroup(t: string): (r: Option<string>)
    ensures r.Some? ==> forall k :: 0 <= k < |r.value| ==> AmountChar(r.value[k])
  {
    if |t| < 2 || t[0] !in OpenBrackets || t[1] != '已' then None
    else
      var u := t[2..];
      var v := if "全额退款" <= u then Some(u[4..]) else if "退款" <= u then Some(u[2..]) else None;
      match v
      case None => None
      case Some(v) =>
        var m := AmountRun(v);
        if |v| == m + 1 && v[m] in CloseBrackets then Some(v[..m]) else None
  }

  /**
   * The whole pattern on the stripped text: the leading number and, when the bracket is
   * there, what it captures.
   */
  function MatchAmount(s: string): (r: Option<(string, Option<string>)>)
    ensures r.Some? ==> r.value.0 != [] && r.value.0 <= s
  {
    var n := AmountRun(s);
    if n == 0 then None
    else if n == |s| then Some((s, None))
    else
      match RefundGroup(s[n..])
      case Some(g) => Some((s[..n], Some(g)))
      case None => None
  }

  /**
   * `_parse_amount`: the original amount and the refunded one (`None` without a bracket,
   * the original itself for a full refund); `None` where Python raises (no match, or a
   * number `Decimal` rejects).
   */
  function ParseAmount(raw: string): (r: Option<(Dec, Option<Dec>)>)
    ensures r.Some? ==> r.value.0.coef >= 0
  {
    match MatchAmount(Strip(raw))
    case None => None
    case Some((number, group)) =>
      match ParseDecimal(number)
      case None => None
      case Some(original) =>
        match group
        case None => Some((original, None))
        case Some(digits) =>
          if digits == "" then Some((original, Some(original)))
          else
            match ParseDecimal(digits)
            case Some(refund) => Some((original, Some(refund)))
            case None => None
  }

  /** Every character of the text of a non-negative decimal is a digit or the point. */
  lemma RenderAmountChars(d: Dec)
    requires d.coef >= 0
    ensures forall k :: 0 <= k < |Render(d)| ==> AmountChar(Render(d)[k])
  {
    RenderSign(d);
    var digits := NatToString(d.coef);
    if d.places > 0 && |digits| <= d.places {
      var z := Zeros(d.places - |digits|);
      assert Render(d) == "0." + z + digits;
      assert forall k :: 2 <= k < 2 + |z| ==> Render(d)[k] == z[k - 2];
      assert forall k :: 2 + |z| <= k < |Render(d)| ==> Render(d)[k] == digits[k - 2 - |z|];
    }
  }

  /** The text of a non-negative decimal is its own stripped form and a plain run. */
  lemma RenderedAmount(d: Dec, t: string)
    requires d.coef >= 0 && (t == [] || !AmountChar(t[0]))
    ensures AmountRun(Render(d) + t) == |Render(d)|
    ensures ParseDecimal(Render(d)) == Some(d)
  {
    RenderAmountChars(d);
    AmountRunOf(Render(d), t);
    RenderParses(d);
  }

  /** A plain amount parses back to itself, with no refund. */
  lemma PlainAmountRoundTrip(d: Dec)
    requires d.coef >= 0
    ensures ParseAmount(Render(d)) == Some((d, None))
  {
    var s := Render(d);
    RenderEnds(d);
    DigitNotSpace(s[0]);
    DigitNotSpace(s[|s| - 1]);
    StripKeeps(s);
    RenderedAmount(d, []);
    assert s + [] == s;
  }

  /** The bracket of a full refund captures nothing. */
  lemma FullRefundGroup(open: char, close: char)
    requires open in OpenBrackets && close in CloseBrackets
    ensures RefundGroup([open] + "已全额退款" + [close]) == Some([])
  {
    var t := [open] + "已全额退款" + [close];
    var u := t[2..];
    assert u == "全额退款" + [close];
    assert u[4..] == [close];
    assert AmountRun([close]) == 0;
  }

  /** The bracket of a partial refund captures the refunded number. */
  lemma PartialRefundGroup(r: string, open: char, close: char)
    requires open in OpenBrackets && close in CloseBrackets
    requires forall k :: 0 <= k < |r| ==> AmountChar(r[k])
    ensures RefundGroup([open] + "已退款" + r + [close]) == Some(r)
  {
    var t := [open] + "已退款" + r + [close];
    var u := t[2..];
    assert u == "退款" + r + [close];
    assert u[0] != "全额退款"[0];
    assert u[2..] == r + [close];
    AmountRunOf(r, [close]);
    assert (r + [close])[..|r|] == r;
  }

  /** A number followed by a bracket that matches splits there. */
  lemma MatchWithBracket(n: string, t: string, g: string)
    requires n != [] && forall k :: 0 <= k < |n| ==> AmountChar(n[k])
    requires t != [] && !AmountChar(t[0]) && RefundGroup(t) == Some(g)
    ensures MatchAmount(n + t) == Some((n, Some(g)))
  {
    AmountRunOf(n, t);
    assert (n + t)[|n|..] == t && (n + t)[..|n|] == n;
  }

  /** The text of a decimal followed by a bracketed group is already stripped. */
  lemma BracketedStripped(d: Dec, t: string)
    requires t != [] && t[|t| - 1] in CloseBrackets
    ensures Strip(Render(d) + t) == Render(d) + t
  {
    var s := Render(d) + t;
    RenderEnds(d);
    if IsDigit(Render(d)[0]) {
      DigitNotSpace(Render(d)[0]);
    }
    assert s[0] == Render(d)[0] && s[|s| - 1] == t[|t| - 1];
    StripKeeps(s);
  }

  /** `N(已全额退款)`, with either kind of bracket, is a full refund of `N`. */
  lemma FullRefundRoundTrip(d: Dec, open: char, close: char)
    requires d.coef >= 0 && open in OpenBrackets && close in CloseBrackets
    ensures ParseAmount(Render(d) + ([open] + "已全额退款" + [close])) == Some((d, Some(d)))
  {
    var t := [open] + "已全额退款" + [close];
    BracketedStripped(d, t);
    RenderAmountChars(d);
    FullRefundGroup(open, close);
    MatchWithBracket(Render(d), t, []);
    RenderParses(d);
  }

  /** `N(已退款R)`, with either kind of bracket, is a partial refund of `R` out of `N`. */
  lemma PartialRefundRoundTrip(original: Dec, refund: Dec, open: char, close: char)
    requires original.coef >= 0 && refund.coef >= 0
    requires open in OpenBrackets && close in CloseBrackets
    ensures ParseAmount(Render(original) + ([open] + "已退款" + Render(refund) + [close]))
         == Some((original, Some(refund)))
  {
    var r := Render(refund);
    var t := [open] + "已退款" + r + [close];
    BracketedStripped(original, t);
    RenderAmountChars(original);
    RenderAmountChars(refund);
    PartialRefundGroup(r, open, close);
    MatchWithBracket(Render(original), t, r);
    RenderParses(original);
    RenderParses(refund);
    ParsePartial(Render(original) + t, Render(original), r, original, refund);
  }

  /** A match with a non-empty capture parses as a partial refund of the captured number. */
  lemma ParsePartial(s: string, number: string, digits: string, original: Dec, refund: Dec)
    requires MatchAmount(Strip(s)) == Some((number, Some(digits))) && digits != ""
    requires ParseDecimal(number) == Some(original) && ParseDecimal(digits) == Some(refund)
    ensures ParseAmount(s) == Some((original, Some(refund)))
  {
  }

  /** A signed amount never matches: the pattern admits digits and points only. */
  lemma SignedAmountRejected(rest: string)
    ensures ParseAmount("-" + rest).None?
  {
    var s := Strip("-" + rest);
    if s != [] && s[0] == '-' {
      assert AmountRun(s) == 0;
    } else {
      StripStartsWithin("-" + rest);
    }
  }

  /** Stripping keeps a first character that is not whitespace. */
  lemma StripStartsWithin(s: string)
    requires s != [] && !IsSpace(s[0])
    ensures Strip(s) != [] && Strip(s)[0] == s[0]
  {
    assert LeadingSpace(s) == 0;
  }

  // The row parser.

  /** Where a movement goes: its signed amount, type, accounts and refund metadata. */
  datatype Route = Route(amount: real, txType: TxType, source: string, counter: Option<string>,
                         refund: Option<Dec>, original: Option<Dec>)

  /** A payment method the row names (not empty and not `/`). */
  predicate Named(paymentMethod: string)
  {
    paymentMethod != "" && paymentMethod != "/"
  }

  /** The source account: the clearing account of the payment method, or JD's unknown one. */
  function PaymentSource(paymentMethod: string): string
  {
    if Named(paymentMethod) then ClearingRoutes.ResolvePaymentToClearing(paymentMethod, Platform)
    else UnknownSource
  }

  /**
   * The account a XiaoJinKu withdrawal pays into: the payment method's own account, never
   * XiaoJinKu itself.
   */
  function WithdrawalTarget(paymentMethod: string): (r: string)
    ensures r != XiaoJinKu
    ensures !Named(paymentMethod) ==> r == UnknownAsset
  {
    var target := if Named(paymentMethod)
      then Resolve.ResolvePaymentAccount(paymentMethod, UnknownAsset, Resolve.DefaultCardType)
      else UnknownAsset;
    if target == XiaoJinKu then UnknownAsset else target
  }

  /**
   * The direction branch of `JdImporter._parse_row`: `None` for the rows it skips (a full
   * refund, a neutral row that is neither a repayment nor XiaoJinKu, an unknown direction).
   */
  function RouteOf(direction: string, narration: string, payee: string, paymentMethod: string,
                   original: Dec, refund: Option<Dec>): Option<Route>
  {
    var o := original.Value();
    var source := PaymentSource(paymentMethod);
    if direction == Outgoing then
      match refund
      case Some(r) =>
        if r.Value() == o then None
        else Some(Route(-(o - r.Value()), Expense, source, Some(JdClearing), Some(r), Some(original)))
      case None => Some(Route(-o, Expense, source, Some(JdClearing), None, None))
    else if direction == Incoming then Some(Route(o, Income, source, None, None, None))
    else if direction == Neutral then
      if Contains(narration, "还款") then Some(Route(-o, Transfer, source, Some(BaiTiao), None, None))
      else if Contains(narration, "小金库") || Contains(payee, "小金库") then
        if Contains(narration, "取出") then
          Some(Route(-o, Transfer, XiaoJinKu, Some(WithdrawalTarget(paymentMethod)), None, None))
        else Some(Route(-o, Transfer, source, Some(XiaoJinKu), None, None))
      else None
    else None
  }

  /**
   * Spending: a full refund is skipped, a partial one leaves the net amount with the
   * refund and original as metadata, and the counter account is JD's clearing account.
   */
  lemma SpendingRoutes(narration: string, payee: string, paymentMethod: string,
                       original: Dec, refund: Option<Dec>)
    ensures var route := RouteOf(Outgoing, narration, payee, paymentMethod, original, refund);
      (route.None? <==> refund.Some? && refund.value.Value() == original.Value())
      && (route.Some? ==> route.value.txType == Expense && route.value.counter == Some(JdClearing)
                          && route.value.source == PaymentSource(paymentMethod))
      && (route.Some? && refund.Some? ==>
            route.value.amount == -(original.Value() - refund.value.Value())
            && route.value.refund == refund && route.value.original == Some(original))
      && (refund.None? ==> route.value.amount == -original.Value() && route.value.refund.None?)
  {
  }

  /** Income keeps the amount as written and has no counter account. */
  lemma IncomeRoutes(narration: string, payee: string, paymentMethod: string,
                     original: Dec, refund: Option<Dec>)
    ensures RouteOf(Incoming, narration, payee, paymentMethod, original, refund)
         == Some(Route(original.Value(), Income, PaymentSource(paymentMethod), None, None, None))
  {
  }

  /**
   * A neutral row is a transfer of the amount negated: a repayment goes to BaiTiao, a
   * XiaoJinKu withdrawal comes out of XiaoJinKu into an account that is never XiaoJinKu,
   * a XiaoJinKu deposit goes into XiaoJinKu, and any other neutral row is skipped.
   */
  lemma NeutralRoutes(narration: string, payee: string, paymentMethod: string,
                      original: Dec, refund: Option<Dec>)
    ensures var route := RouteOf(Neutral, narration, payee, paymentMethod, original, refund);
      var vault := Contains(narration, "小金库") || Contains(payee, "小金库");
      (route.None? <==> !Contains(narration, "还款") && !vault)
      && (route.Some? ==> route.value.txType == Transfer && route.value.amount == -original.Value())
      && (Contains(narration, "还款") ==> route.value.counter == Some(BaiTiao))
      && (!Contains(narration, "还款") && vault && Contains(narration, "取出") ==>
            route.value.source == XiaoJinKu && route.value.counter.Some?
            && route.value.counter.value != route.value.source)
      && (!Contains(narration, "还款") && vault && !Contains(narration, "取出") ==>
            route.value.counter == Some(XiaoJinKu))
  {
  }

  /** A direction other than the three known words is skipped. */
  lemma UnknownDirectionSkipped(direction: string, narration: string, payee: string,
                                paymentMethod: string, original: Dec, refund: Option<Dec>)
    requires direction !in {Outgoing, Incoming, Neutral}
    ensures RouteOf(direction, narration, payee, paymentMethod, original, refund).None?
  {
  }

  /** A missing or `/` payment method routes through JD's unknown clearing account. */
  lemma UnnamedMethodSource(paymentMethod: string)
    requires !Named(paymentMethod)
    ensures PaymentSource(paymentMethod) == UnknownSource
  {
  }

  /**
   * The checks of `JdImporter._parse_row`: rows outside the success statuses, with an
   * empty or unreadable time, or with an amount `_parse_amount` rejects give `None`; the
   * others give their time and amounts.
   */
  function RowFacts(row: Row, strptime: Strptime): (r: Option<(int, Dec, Option<Dec>)>)
    ensures r.Some? ==> Strip(Get(row, "交易状态")) in SuccessStatuses
    ensures r.Some? ==> (Strip(Get(row, "交易时间")) != ""
      && strptime(Strip(Get(row, "交易时间")), TimeFormat) == Some(r.value.0))
    ensures r.Some? ==> ParseAmount(Strip(Get(row, "金额"))) == Some((r.value.1, r.value.2))
  {
    if Strip(Get(row, "交易状态")) !in SuccessStatuses then None
    else
      var dateText := Strip(Get(row, "交易时间"));
      if dateText == "" then None
      else
        match strptime(dateText, TimeFormat)
        case None => None
        case Some(date) =>
          match ParseAmount(Strip(Get(row, "金额")))
          case None => None
          case Some((original, refund)) => Some((date, original, refund))
  }

  /** The route of a row whose checks passed. */
  function RowRoute(row: Row, original: Dec, refund: Option<Dec>): Option<Route>
  {
    RouteOf(Strip(Get(row, "收/支")), Strip(Get(row, "交易说明")), Strip(Get(row, "商户名称")),
            Strip(Get(row, "收/付款方式")), original, refund)
  }

  /** The transaction of an accepted row, given its time and route. */
  function RowTransaction(row: Row, date: int, route: Route, currency: string): (tx: Transaction)
    ensures tx.amount == route.amount && tx.txType == Some(route.txType) && tx.counterAccount == route.counter
  {
    var paymentMethod := Strip(Get(row, "收/付款方式"));
    Transaction(
      date := date,
      amount := route.amount,
      currency := currency,
      payee := Strip(Get(row, "商户名称")),
      narration := Strip(Get(row, "交易说明")),
      sourceAccount := route.source,
      counterAccount := route.counter,
      paymentMethod := if Named(paymentMethod) then Some(paymentMethod) else None,
      referenceId := NoneIfEmpty(Strip(Get(row, "交易订单号"))),
      counterpartRef := NoneIfEmpty(Strip(Get(row, "商家订单号"))),
      rawCategory := NoneIfEmpty(Strip(Get(row, "交易分类"))),
      txType := Some(route.txType),
      metadata := EmptyMeta.(jdRefund := route.refund, jdOriginal := route.original))
  }

  /** `JdImporter._parse_row`. */
  function ParseRow(row: Row, currency: string, strptime: Strptime): (r: Option<Transaction>)
    ensures r.Some? ==> Strip(Get(row, "交易状态")) in SuccessStatuses && r.value.currency == currency
    ensures r.Some? ==> strptime(Strip(Get(row, "交易时间")), TimeFormat) == Some(r.value.date)
  {
    match RowFacts(row, strptime)
    case None => None
    case Some((date, original, refund)) =>
      match RowRoute(row, original, refund)
      case None => None
      case Some(route) => Some(RowTransaction(row, date, route, currency))
  }

  /**
   * Every accepted row: a completed status, its time read by the parser, and its amount,
   * type, accounts and refund metadata exactly as its direction routes them.
   */
  lemma AcceptedRow(row: Row, currency: string, strptime: Strptime)
    requires ParseRow(row, currency, strptime).Some?
    ensures var tx := ParseRow(row, currency, strptime).value;
      var facts := RowFacts(row, strptime).value;
      var route := RowRoute(row, facts.1, facts.2);
      Strip(Get(row, "交易状态")) in SuccessStatuses
      && strptime(Strip(Get(row, "交易时间")), TimeFormat) == Some(tx.date)
      && route.Some?
      && tx.amount == route.value.amount && tx.txType == Some(route.value.txType)
      && tx.sourceAccount == route.value.source && tx.counterAccount == route.value.counter
      && tx.metadata.jdRefund == route.value.refund && tx.metadata.jdOriginal == route.value.original
  {
    var facts := RowFacts(row, strptime).value;
    var route := RowRoute(row, facts.1, facts.2).value;
    assert ParseRow(row, currency, strptime).value == RowTransaction(row, facts.0, route, currency);
  }

  /**
   * The references of every accepted row: empty trade and merchant numbers give no
   * reference, and a missing or `/` payment method is recorded as none.
   */
  lemma AcceptedRowRefs(row: Row, currency: string, strptime: Strptime)
    requires ParseRow(row, currency, strptime).Some?
    ensures var tx := ParseRow(row, currency, strptime).value;
      tx.referenceId == NoneIfEmpty(Strip(Get(row, "交易订单号")))
      && tx.counterpartRef == NoneIfEmpty(Strip(Get(row, "商家订单号")))
      && (tx.paymentMethod.None? <==> !Named(Strip(Get(row, "收/付款方式"))))
      && tx.currency == currency
  {
    var facts := RowFacts(row, strptime).value;
    var route := RowRoute(row, facts.1, facts.2).value;
    assert ParseRow(row, currency, strptime).value == RowTransaction(row, facts.0, route, currency);
  }

  /** The row parser with the importer's configuration fixed. */
  function RowParser(currency: string, strptime: Strptime): Row -> Option<Transaction>
  {
    row => ParseRow(row, currency, strptime)
  }
}
