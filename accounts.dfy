/**
 * The default chart of accounts written to `accounts.bean`, and the default expense account
 * of a transaction type. The chart is a fixed table plus clearing accounts generated for
 * every platform × card type × bank.
 */
module Accounts {
  import opened Wrappers
  import opened Text
  import opened Tables
  import opened Model
  import Resolve
  import ClearingRoutes

  const AssetAccounts: seq<Entry> := [
    ("Assets:Bank:CMB", "招商银行储蓄卡"), ("Assets:Bank:ICBC", "工商银行储蓄卡"),
    ("Assets:Bank:CCB", "建设银行储蓄卡"), ("Assets:Bank:BOC", "中国银行储蓄卡"),
    ("Assets:Bank:ABC", "农业银行储蓄卡"), ("Assets:Bank:COMM", "交通银行储蓄卡"),
    ("Assets:Bank:CITIC", "中信银行储蓄卡"), ("Assets:Bank:SPDB", "浦发银行储蓄卡"),
    ("Assets:Bank:CIB", "兴业银行储蓄卡"), ("Assets:Bank:CMBC", "民生银行储蓄卡"),
    ("Assets:Bank:CEB", "光大银行储蓄卡"), ("Assets:Bank:PAB", "平安银行储蓄卡"),
    ("Assets:Bank:GDB", "广发银行储蓄卡"), ("Assets:Bank:PSBC", "邮储银行储蓄卡"),
    ("Assets:Bank:HSBC", "汇丰银行储蓄卡"), ("Assets:Bank:HSBC:HK", "汇丰香港储蓄账户"),
    ("Assets:Bank:BOC:HK", "中银香港储蓄账户"), ("Assets:Alipay", "支付宝余额"),
    ("Assets:WeChat", "微信钱包"), ("Assets:AlipayHK", "AlipayHK"),
    ("Assets:WeChatHK", "WeChatHK"), ("Assets:UnionPay", "云闪付"),
    ("Assets:PayPal", "PayPal"), ("Assets:Investment:IBKR", "Interactive Brokers"),
    ("Assets:JD", "京东"), ("Assets:JD:GiftCard", "京东购物卡"),
    ("Assets:JD:XiaoJinKu", "京东小金库"), ("Assets:Unknown", "未知支付账户"),
    ("Assets:WeChat:Unknown", "微信未识别付款方式"), ("Assets:Alipay:Unknown", "支付宝未识别付款方式"),
    ("Assets:JD:Unknown", "京东未识别付款方式")
  ]

  /** Clearing accounts (cross-platform bridges). */
  const ClearingAccounts: seq<Entry> := [
    ("Assets:Clearing:Costco", "Costco清算"), ("Assets:Clearing:ALDI", "ALDI清算"),
    ("Assets:Clearing:JD", "京东清算"), ("Assets:Clearing:JD:WX", "京东清算-微信"),
    ("Assets:Clearing:JD:Alipay", "京东清算-支付宝"), ("Assets:Clearing:JD:ApplePay", "京东清算-ApplePay"),
    ("Assets:Clearing:JD:Unknown", "京东清算-未知"), ("Assets:Clearing:WX:Unknown", "微信清算-未知"),
    ("Assets:Clearing:Alipay:Unknown", "支付宝清算-未知")
  ]

  const LiabilityAccounts: seq<Entry> := [
    ("Liabilities:CreditCard:CMB", "招商银行信用卡"), ("Liabilities:CreditCard:ICBC", "工商银行信用卡"),
    ("Liabilities:CreditCard:CCB", "建设银行信用卡"), ("Liabilities:CreditCard:BOC", "中国银行信用卡"),
    ("Liabilities:CreditCard:ABC", "农业银行信用卡"), ("Liabilities:CreditCard:COMM", "交通银行信用卡"),
    ("Liabilities:CreditCard:CITIC", "中信银行信用卡"), ("Liabilities:CreditCard:SPDB", "浦发银行信用卡"),
    ("Liabilities:CreditCard:CIB", "兴业银行信用卡"), ("Liabilities:CreditCard:CMBC", "民生银行信用卡"),
    ("Liabilities:CreditCard:CEB", "光大银行信用卡"), ("Liabilities:CreditCard:PAB", "平安银行信用卡"),
    ("Liabilities:CreditCard:GDB", "广发银行信用卡"), ("Liabilities:CreditCard:PSBC", "邮储银行信用卡"),
    ("Liabilities:CreditCard:HSBC", "汇丰银行信用卡"), ("Liabilities:CreditCard:HSBC:HK", "汇丰香港信用卡"),
    ("Liabilities:CreditCard:BOC:HK", "中银香港信用卡"), ("Liabilities:JD:BaiTiao", "京东白条")
  ]

  const ExpenseAccounts: seq<Entry> := [
    ("Expenses:Food:Restaurant", "餐饮"), ("Expenses:Food:Coffee", "咖啡"),
    ("Expenses:Food:Delivery", "外卖"), ("Expenses:Food:Grocery", "超市"),
    ("Expenses:Transport:Taxi", "打车"), ("Expenses:Transport:PublicTransit", "公交地铁"),
    ("Expenses:Transport:Parking", "停车"), ("Expenses:Transport:Gas", "加油"),
    ("Expenses:Housing:Rent", "房租"), ("Expenses:Housing:PropertyFee", "物业"),
    ("Expenses:Housing:Utilities", "水电燃气"), ("Expenses:Shopping:Clothing", "服饰"),
    ("Expenses:Shopping:Electronics", "数码"), ("Expenses:Shopping:DailyGoods", "日用品"),
    ("Expenses:Shopping:HomeGoods", "家居"), ("Expenses:Entertainment:Movie", "电影"),
    ("Expenses:Entertainment:Games", "游戏"), ("Expenses:Entertainment:Subscription", "订阅"),
    ("Expenses:Entertainment:Travel", "旅行"), ("Expenses:Health:Medical", "医疗"),
    ("Expenses:Health:Medicine", "药品"), ("Expenses:Health:Fitness", "运动健身"),
    ("Expenses:Education:Books", "书籍"), ("Expenses:Education:Courses", "课程"),
    ("Expenses:Education:Training", "培训"), ("Expenses:Finance:Fees", "手续费"),
    ("Expenses:Finance:Interest", "利息支出"), ("Expenses:Finance:Insurance", "保险"),
    ("Expenses:Uncategorized", "未分类支出"), ("Expenses:Transfer", "转账支出")
  ]

  const IncomeAccounts: seq<Entry> := [
    ("Income:Uncategorized", "未分类收入"), ("Income:Transfer", "转账收入"),
    ("Income:Salary", "工资"), ("Income:Bonus", "奖金"),
    ("Income:Investment", "投资收益"), ("Income:Interest", "利息收入"),
    ("Income:Refund", "退款")
  ]

  const EquityAccounts: seq<Entry> := [
    ("Equity:Opening-Balances", "期初余额")
  ]

  /** The literal part of `DEFAULT_ACCOUNTS`, account → description, in dictionary order. */
  function FixedAccounts(): seq<Entry>
  {
    AssetAccounts + ClearingAccounts + LiabilityAccounts + ExpenseAccounts + IncomeAccounts + EquityAccounts
  }

  const ClearingPlatforms: seq<string> := ["WX", "Alipay", "JD"]

  /** Card type code → its description, in dictionary order. */
  const ClearingCardTypes: seq<Entry> := [("CC", "信用卡"), ("Bank", "储蓄卡")]

  const ClearingBanks: seq<string> := [
    "CMB", "ICBC", "CCB", "BOC", "CITIC", "ABC", "COMM", "SPDB", "CIB", "CMBC", "CEB", "PAB",
    "GDB", "PSBC", "HSBC"
  ]

  const DefaultCurrencies: seq<string> := ["CNY", "HKD", "USD", "EUR", "GBP", "JPY"]

  /** The generated account of platform `p`, card type `c` and bank `b`, with its description. */
  function ClearingRow(p: nat, c: nat, b: nat): (row: Entry)
    requires p < |ClearingPlatforms| && c < |ClearingCardTypes| && b < |ClearingBanks|
  {
    (ClearingRoutes.ClearingPrefix + ClearingPlatforms[p] + ":" + ClearingCardTypes[c].0 + ":" + ClearingBanks[b],
     ClearingPlatforms[p] + "清算-" + ClearingCardTypes[c].1 + "-" + ClearingBanks[b])
  }

  /** Position of the row of `(p, c, b)` among the generated rows, in loop order. */
  function RowIndex(p: nat, c: nat, b: nat): nat
  {
    (p * |ClearingCardTypes| + c) * |ClearingBanks| + b
  }

  const GeneratedCount: nat := |ClearingPlatforms| * |ClearingCardTypes| * |ClearingBanks|

  /** The generated rows, platform-major, then card type, then bank. */
  function GeneratedAccounts(): (g: seq<Entry>)
    ensures |g| == GeneratedCount
  {
    seq(GeneratedCount, i requires 0 <= i < GeneratedCount =>
      ClearingRow(i / (|ClearingCardTypes| * |ClearingBanks|), (i / |ClearingBanks|) % |ClearingCardTypes|,
                  i % |ClearingBanks|))
  }

  /** The generated row of `(p, c, b)` sits where the loops put it. */
  lemma GeneratedAt(p: nat, c: nat, b: nat)
    requires p < |ClearingPlatforms| && c < |ClearingCardTypes| && b < |ClearingBanks|
    ensures RowIndex(p, c, b) < GeneratedCount
    ensures GeneratedAccounts()[RowIndex(p, c, b)] == ClearingRow(p, c, b)
  {
    var i := RowIndex(p, c, b);
    assert i == p * 30 + c * 15 + b;
    assert i / 30 == p;
    assert i / 15 == p * 2 + c;
    assert (i / 15) % 2 == c;
    assert i % 15 == b;
  }

  /** Appending the row of `(p, c, b)` extends the generated prefix by one row. */
  lemma GeneratedPrefixStep(p: nat, c: nat, b: nat)
    requires p < |ClearingPlatforms| && c < |ClearingCardTypes| && b < |ClearingBanks|
    ensures RowIndex(p, c, b) + 1 == RowIndex(p, c, b + 1) <= GeneratedCount
    ensures GeneratedAccounts()[..RowIndex(p, c, b + 1)]
      == GeneratedAccounts()[..RowIndex(p, c, b)] + [ClearingRow(p, c, b)]
  {
    GeneratedAt(p, c, b);
  }

  /** The last bank of a card type is followed by the first bank of the next one. */
  lemma RowIndexCarry(p: nat, c: nat)
    ensures RowIndex(p, c, |ClearingBanks|) == RowIndex(p, c + 1, 0)
    ensures RowIndex(p, |ClearingCardTypes|, 0) == RowIndex(p + 1, 0, 0)
  {
  }

  /**
   * The module-level loops over platforms, card types and banks: each generated account is
   * new to the table, so each assignment `DEFAULT_ACCOUNTS[acct] = desc` appends its row.
   */
  method AppendGeneratedAccounts(fixed: seq<Entry>) returns (table: seq<Entry>)
    ensures table == fixed + GeneratedAccounts()
  {
    table := fixed;
    var p := 0;
    while p < |ClearingPlatforms|
      invariant 0 <= p <= |ClearingPlatforms|
      invariant table == fixed + GeneratedAccounts()[..RowIndex(p, 0, 0)]
    {
      var c := 0;
      while c < |ClearingCardTypes|
        invariant 0 <= c <= |ClearingCardTypes|
        invariant table == fixed + GeneratedAccounts()[..RowIndex(p, c, 0)]
      {
        var b := 0;
        while b < |ClearingBanks|
          invariant 0 <= b <= |ClearingBanks|
          invariant table == fixed + GeneratedAccounts()[..RowIndex(p, c, b)]
        {
          GeneratedPrefixStep(p, c, b);
          table := table + [ClearingRow(p, c, b)];
          b := b + 1;
        }
        RowIndexCarry(p, c);
        c := c + 1;
      }
      RowIndexCarry(p, c);
      p := p + 1;
    }
  }

  /** The full default table. */
  function DefaultAccounts(): seq<Entry>
  {
    FixedAccounts() + GeneratedAccounts()
  }

  /** `account` is a key of the table `t`. */
  predicate KeyListed(t: seq<Entry>, account: string)
  {
    t != [] && (t[0].0 == account || KeyListed(t[1..], account))
  }

  /** The key of every row is listed. */
  lemma {:induction false} KeyListedAt(t: seq<Entry>, i: nat)
    requires i < |t|
    ensures KeyListed(t, t[i].0)
  {
    if i > 0 {
      KeyListedAt(t[1..], i - 1);
      assert t[1..][i - 1] == t[i];
    }
  }

  /** A listed key is the key of some row. */
  lemma {:induction false} KeyListedIndex(t: seq<Entry>, account: string)
    requires KeyListed(t, account)
    ensures exists i :: 0 <= i < |t| && t[i].0 == account
  {
    if t[0].0 != account {
      KeyListedIndex(t[1..], account);
      var i :| 0 <= i < |t[1..]| && t[1..][i].0 == account;
      assert t[i + 1] == t[1..][i];
    }
  }

  /** `account in DEFAULT_ACCOUNTS`. */
  predicate Declared(account: string)
  {
    KeyListed(DefaultAccounts(), account)
  }

  /** A row of the fixed table is declared. */
  lemma FixedDeclared(k: nat)
    requires k < |FixedAccounts()|
    ensures Declared(FixedAccounts()[k].0)
  {
    KeyListedAt(DefaultAccounts(), k);
    assert DefaultAccounts()[k] == FixedAccounts()[k];
  }

  /** A row of the asset block is declared. */
  lemma AssetDeclared(account: string, k: nat)
    requires k < |AssetAccounts| && AssetAccounts[k].0 == account
    ensures Declared(account)
  {
    assert FixedAccounts()[k] == AssetAccounts[k];
    FixedDeclared(k);
  }

  /** A row of the clearing block is declared. */
  lemma ClearingBlockDeclared(account: string, k: nat)
    requires k < |ClearingAccounts| && ClearingAccounts[k].0 == account
    ensures Declared(account)
  {
    assert FixedAccounts()[|AssetAccounts| + k] == ClearingAccounts[k];
    FixedDeclared(|AssetAccounts| + k);
  }

  /** A row of the liability block is declared. */
  lemma LiabilityDeclared(account: string, k: nat)
    requires k < |LiabilityAccounts| && LiabilityAccounts[k].0 == account
    ensures Declared(account)
  {
    var i := |AssetAccounts| + |ClearingAccounts| + k;
    assert FixedAccounts()[i] == LiabilityAccounts[k];
    FixedDeclared(i);
  }

  lemma ConcatLeft(s: seq<Entry>, t: seq<Entry>, i: nat)
    requires i < |s|
    ensures (s + t)[i] == s[i]
  {
  }

  lemma ConcatRight(s: seq<Entry>, t: seq<Entry>, k: nat)
    requires k < |t|
    ensures |s| + k < |s + t| && (s + t)[|s| + k] == t[k]
  {
  }

  /** A row of the expense block is declared. */
  lemma ExpenseDeclared(account: string, k: nat)
    requires k < |ExpenseAccounts| && ExpenseAccounts[k].0 == account
    ensures Declared(account)
  {
    var front := AssetAccounts + ClearingAccounts + LiabilityAccounts;
    ConcatRight(front, ExpenseAccounts, k);
    ConcatLeft(front + ExpenseAccounts, IncomeAccounts, |front| + k);
    ConcatLeft(front + ExpenseAccounts + IncomeAccounts, EquityAccounts, |front| + k);
    FixedDeclared(|front| + k);
  }

  /** A row of the income block is declared. */
  lemma IncomeDeclared(account: string, k: nat)
    requires k < |IncomeAccounts| && IncomeAccounts[k].0 == account
    ensures Declared(account)
  {
    var front := AssetAccounts + ClearingAccounts + LiabilityAccounts + ExpenseAccounts;
    ConcatRight(front, IncomeAccounts, k);
    ConcatLeft(front + IncomeAccounts, EquityAccounts, |front| + k);
    FixedDeclared(|front| + k);
  }

  /** Every generated account is declared. */
  lemma GeneratedDeclared(p: nat, c: nat, b: nat)
    requires p < |ClearingPlatforms| && c < |ClearingCardTypes| && b < |ClearingBanks|
    ensures Declared(ClearingRow(p, c, b).0)
  {
    GeneratedAt(p, c, b);
    ConcatRight(FixedAccounts(), GeneratedAccounts(), RowIndex(p, c, b));
    KeyListedAt(DefaultAccounts(), |FixedAccounts()| + RowIndex(p, c, b));
  }

  /** The generated banks are exactly the resolver's bank codes, in the same order. */
  lemma ClearingBanksAreResolverCodes()
    ensures |ClearingBanks| == |Resolve.BankPatterns|
    ensures forall b :: 0 <= b < |ClearingBanks| ==> ClearingBanks[b] == Resolve.BankPatterns[b].1
  {
  }

  /**
   * Every bank-card clearing account routing can produce for WX, Alipay and JD is declared:
   * `Assets:Clearing:<platform>:<CC|Bank>:<code>` for each bank of the resolver.
   */
  lemma BankClearingDeclared(platform: string, kind: string, b: nat)
    requires platform in ClearingPlatforms
    requires kind == "CC" || kind == "Bank"
    requires b < |Resolve.BankPatterns|
    ensures Declared(ClearingRoutes.ClearingPrefix + platform + ":" + kind + ":" + Resolve.BankPatterns[b].1)
  {
    ClearingBanksAreResolverCodes();
    var p :| 0 <= p < |ClearingPlatforms| && ClearingPlatforms[p] == platform;
    var c := if kind == "CC" then 0 else 1;
    GeneratedDeclared(p, c, b);
  }

  /** The Unknown clearing accounts of WX, Alipay and JD are declared. */
  lemma UnknownClearingDeclared(platform: string)
    requires platform in ClearingPlatforms
    ensures Declared(ClearingRoutes.UnknownAccount(platform))
  {
    var k := if platform == "WX" then 7 else if platform == "Alipay" then 8 else 6;
    ClearingBlockDeclared(ClearingRoutes.UnknownAccount(platform), k);
  }

  /** The JD clearing accounts of each payment channel (WX, Alipay, ApplePay) are declared. */
  lemma JDChannelsDeclared(c: nat)
    requires c < |ClearingRoutes.PlatformIdentifiers|
    ensures Declared(ClearingRoutes.ChannelAccount("JD", c))
  {
    ClearingBlockDeclared(ClearingRoutes.ChannelAccount("JD", c), 3 + c);
  }

  /** `get_expense_account_for_type(tx_type)`. */
  function GetExpenseAccountForType(t: Option<TxType>): (r: string)
    ensures t == Some(Income) ==> r == "Income:Uncategorized"
    ensures t != Some(Income) ==> r == "Expenses:Uncategorized"
  {
    if t == Some(Income) then "Income:Uncategorized" else "Expenses:Uncategorized"
  }

  /** The default account of every type is declared. */
  lemma ExpenseAccountDeclared(t: Option<TxType>)
    ensures Declared(GetExpenseAccountForType(t))
  {
    if t == Some(Income) {
      IncomeDeclared(GetExpenseAccountForType(t), 0);
    } else {
      ExpenseDeclared(GetExpenseAccountForType(t), 28);
    }
  }

  /** Every platform-internal account of WX, Alipay and JD is declared. */
  lemma InternalDeclared(platform: string, k: nat)
    requires k < |ClearingRoutes.InternalAccounts(platform)|
    ensures Declared(ClearingRoutes.InternalAccounts(platform)[k].1)
  {
    var account := ClearingRoutes.InternalAccounts(platform)[k].1;
    if platform == "WX" {
      AssetDeclared(account, 18);
    } else if platform == "Alipay" {
      AssetDeclared(account, 17);
    } else if k < 2 {
      LiabilityDeclared(account, 17);
    } else {
      AssetDeclared(account, 26);
    }
  }

  /** A channel account of WX or Alipay: the fixed table lists channel accounts for JD only. */
  predicate NonJDChannel(account: string, platform: string)
  {
    platform != "JD" &&
    exists c :: 0 <= c < |ClearingRoutes.PlatformIdentifiers| && account == ClearingRoutes.ChannelAccount(platform, c)
  }

  /**
   * Routing a payment method of WX, Alipay or JD gives a declared account, except a payment
   * channel account (`Assets:Clearing:WX:Alipay`, say) of WX or Alipay.
   */
  lemma {:induction false} RoutedDeclared(paymentMethod: string, platform: string)
    requires platform in ClearingPlatforms
    ensures var r := ClearingRoutes.ResolvePaymentToClearing(paymentMethod, platform);
      Declared(r) || NonJDChannel(r, platform)
    decreases |paymentMethod|
  {
    var m := Strip(paymentMethod);
    if m == [] || m == "/" {
      UnknownClearingDeclared(platform);
    } else {
      match FirstPrefix(ClearingRoutes.InternalByLength(platform), m)
      case Some(i) =>
        InternalHitDeclared(platform, i);
      case None =>
        if '-' in m {
          var parts := SplitOnce(m, '-');
          match FirstGroup(ClearingRoutes.PlatformIdentifiers, Strip(parts.0))
          case Some(c) =>
            ChannelRouted(platform, c);
          case None =>
            RoutedDeclared(parts.1, platform);
        } else {
          match FirstGroup(ClearingRoutes.PlatformIdentifiers, m)
          case Some(c) =>
            ChannelRouted(platform, c);
          case None =>
            match FirstContained(Resolve.BankPatterns, m)
            case Some(b) =>
              BankClearingDeclared(platform, ClearingRoutes.CardKind(m), b);
            case None =>
              UnknownClearingDeclared(platform);
        }
    }
  }

  /** The account of an internal keyword found by the longest-first search is declared. */
  lemma InternalHitDeclared(platform: string, i: nat)
    requires i < |ClearingRoutes.InternalByLength(platform)|
    ensures Declared(ClearingRoutes.InternalByLength(platform)[i].1)
  {
    ClearingRoutes.InternalSorted(platform);
    assert ClearingRoutes.InternalByLength(platform)[i] in ClearingRoutes.InternalAccounts(platform);
    var k :| 0 <= k < |ClearingRoutes.InternalAccounts(platform)| &&
      ClearingRoutes.InternalAccounts(platform)[k] == ClearingRoutes.InternalByLength(platform)[i];
    InternalDeclared(platform, k);
  }

  /** A channel account is declared for JD and a channel account of the platform otherwise. */
  lemma ChannelRouted(platform: string, c: nat)
    requires platform in ClearingPlatforms && c < |ClearingRoutes.PlatformIdentifiers|
    ensures var r := ClearingRoutes.ChannelAccount(platform, c);
      Declared(r) || NonJDChannel(r, platform)
  {
    if platform == "JD" {
      JDChannelsDeclared(c);
    }
  }


  /** The account lies under one of the five roots of a beancount ledger. */
  predicate HasRoot(account: string)
  {
    "Assets:" <= account || "Liabilities:" <= account || "Expenses:" <= account
    || "Income:" <= account || "Equity:" <= account
  }

  /** Rows `lo` to `hi` (exclusive) of `t` start with `root`. */
  predicate UnderBetween(t: seq<Entry>, root: string, lo: nat, hi: nat)
    requires lo <= hi <= |t|
  {
    forall i :: lo <= i < hi ==> root <= t[i].0
  }

  /** Every row of `t` starts with `root`. */
  predicate AllUnder(t: seq<Entry>, root: string)
  {
    UnderBetween(t, root, 0, |t|)
  }

  lemma PrefixExtends(a: string, b: string, c: string)
    requires a <= b
    ensures a <= b + c
  {
  }

  // The blocks are checked ten rows at a time.
  lemma AssetsRooted0() ensures forall i :: 0 <= i < 10 ==> "Assets:" <= AssetAccounts[i].0 {}
  lemma AssetsRooted1() ensures forall i :: 10 <= i < 20 ==> "Assets:" <= AssetAccounts[i].0 {}
  lemma AssetsRooted2() ensures forall i :: 20 <= i < 31 ==> "Assets:" <= AssetAccounts[i].0 {}
  lemma LiabilitiesRooted0() ensures forall i :: 0 <= i < 9 ==> "Liabilities:" <= LiabilityAccounts[i].0 {}
  lemma LiabilitiesRooted1() ensures forall i :: 9 <= i < 18 ==> "Liabilities:" <= LiabilityAccounts[i].0 {}
  lemma ExpensesRooted0() ensures forall i :: 0 <= i < 10 ==> "Expenses:" <= ExpenseAccounts[i].0 {}
  lemma ExpensesRooted1() ensures forall i :: 10 <= i < 20 ==> "Expenses:" <= ExpenseAccounts[i].0 {}
  lemma ExpensesRooted2() ensures forall i :: 20 <= i < 30 ==> "Expenses:" <= ExpenseAccounts[i].0 {}

  lemma AssetsRooted()
    ensures AllUnder(AssetAccounts, "Assets:")
  {
    AssetsRooted0();
    AssetsRooted1();
    AssetsRooted2();
  }

  lemma ClearingRooted()
    ensures AllUnder(ClearingAccounts, "Assets:")
  {
  }

  lemma LiabilitiesRooted()
    ensures AllUnder(LiabilityAccounts, "Liabilities:")
  {
    LiabilitiesRooted0();
    LiabilitiesRooted1();
  }

  lemma ExpensesRooted()
    ensures AllUnder(ExpenseAccounts, "Expenses:")
  {
    ExpensesRooted0();
    ExpensesRooted1();
    ExpensesRooted2();
  }

  lemma IncomeRooted()
    ensures AllUnder(IncomeAccounts, "Income:")
  {
  }

  lemma EquityRooted()
    ensures AllUnder(EquityAccounts, "Equity:")
  {
  }

  lemma FixedRooted(i: nat)
    requires i < |FixedAccounts()|
    ensures HasRoot(FixedAccounts()[i].0)
  {
    var a, c, l, e, n := |AssetAccounts|, |ClearingAccounts|, |LiabilityAccounts|, |ExpenseAccounts|, |IncomeAccounts|;
    if i < a {
      AssetsRooted();
      assert FixedAccounts()[i] == AssetAccounts[i];
    } else if i < a + c {
      ClearingRooted();
      assert FixedAccounts()[i] == ClearingAccounts[i - a];
    } else if i < a + c + l {
      LiabilitiesRooted();
      assert FixedAccounts()[i] == LiabilityAccounts[i - a - c];
    } else if i < a + c + l + e {
      ExpensesRooted();
      assert FixedAccounts()[i] == ExpenseAccounts[i - a - c - l];
    } else if i < a + c + l + e + n {
      IncomeRooted();
      assert FixedAccounts()[i] == IncomeAccounts[i - a - c - l - e];
    } else {
      EquityRooted();
      assert FixedAccounts()[i] == EquityAccounts[i - a - c - l - e - n];
    }
  }

  /** A generated account lies under Assets:Clearing:. */
  lemma GeneratedRooted(p: nat, c: nat, b: nat)
    requires p < |ClearingPlatforms| && c < |ClearingCardTypes| && b < |ClearingBanks|
    ensures HasRoot(ClearingRow(p, c, b).0)
  {
    var x := ClearingRoutes.ClearingPrefix;
    assert "Assets:" <= x;
    PrefixExtends("Assets:", x, ClearingPlatforms[p]);
    PrefixExtends("Assets:", x + ClearingPlatforms[p], ":");
    PrefixExtends("Assets:", x + ClearingPlatforms[p] + ":", ClearingCardTypes[c].0);
    PrefixExtends("Assets:", x + ClearingPlatforms[p] + ":" + ClearingCardTypes[c].0, ":");
    PrefixExtends("Assets:", x + ClearingPlatforms[p] + ":" + ClearingCardTypes[c].0 + ":", ClearingBanks[b]);
  }

  /** Every declared account begins with Assets:, Liabilities:, Expenses:, Income: or Equity:. */
  lemma DeclaredRooted(account: string)
    requires Declared(account)
    ensures HasRoot(account)
  {
    KeyListedIndex(DefaultAccounts(), account);
    var i :| 0 <= i < |DefaultAccounts()| && DefaultAccounts()[i].0 == account;
    DefaultRooted(i);
  }

  lemma DefaultRooted(i: nat)
    requires i < |DefaultAccounts()|
    ensures HasRoot(DefaultAccounts()[i].0)
  {
    if i < |FixedAccounts()| {
      assert DefaultAccounts()[i] == FixedAccounts()[i];
      FixedRooted(i);
    } else {
      assert DefaultAccounts()[i] == GeneratedAccounts()[i - |FixedAccounts()|];
      GeneratedIndexRooted(i - |FixedAccounts()|);
    }
  }

  lemma GeneratedIndexRooted(j: nat)
    requires j < GeneratedCount
    ensures HasRoot(GeneratedAccounts()[j].0)
  {
    var p, c, b := j / 30, (j / 15) % 2, j % 15;
    assert GeneratedAccounts()[j] == ClearingRow(p, c, b);
    GeneratedRooted(p, c, b);
  }


}
