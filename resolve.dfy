/**
 * The payment-method resolver: turns a platform's payment-method text, such as
 * "招商银行信用卡(0913)" or "微信-招商银行储蓄卡", into a ledger account.
 */
module Resolve {
  import opened Wrappers
  import opened Text
  import opened Tables

  /** Bank name → short code, in dictionary order. */
  const BankPatterns: seq<Entry> := [
    ("招商银行", "CMB"), ("工商银行", "ICBC"), ("建设银行", "CCB"), ("中国银行", "BOC"),
    ("中信银行", "CITIC"), ("农业银行", "ABC"), ("交通银行", "COMM"), ("浦发银行", "SPDB"),
    ("兴业银行", "CIB"), ("民生银行", "CMBC"), ("光大银行", "CEB"), ("平安银行", "PAB"),
    ("广发银行", "GDB"), ("邮储银行", "PSBC"), ("汇丰", "HSBC")
  ]

  /** Wallet and platform names → account, in dictionary order. */
  const WalletAccounts: seq<Entry> := [
    ("零钱", "Assets:WeChat"), ("零钱通", "Assets:WeChat"), ("余额", "Assets:Alipay"),
    ("余额宝", "Assets:Alipay"), ("京东白条", "Liabilities:JD:BaiTiao"),
    ("京东小金库", "Assets:JD:XiaoJinKu"), ("微信支付", "Assets:WeChat"),
    ("财付通", "Assets:WeChat"), ("支付宝", "Assets:Alipay"), ("支付宝支付", "Assets:Alipay"),
    ("京东支付", "Assets:JD")
  ]

  /** The platform accounts that may need cross-platform resolution. */
  const PlatformAccounts: set<string> := {"Assets:WeChat", "Assets:Alipay", "Assets:JD"}

  /** The wallet table as the resolver searches it: `sorted(WALLET_ACCOUNTS.items(), key=-len)`. */
  const WalletsByLength: seq<Entry> := [
    ("京东小金库", "Assets:JD:XiaoJinKu"), ("支付宝支付", "Assets:Alipay"),
    ("京东白条", "Liabilities:JD:BaiTiao"), ("微信支付", "Assets:WeChat"), ("京东支付", "Assets:JD"),
    ("零钱通", "Assets:WeChat"), ("余额宝", "Assets:Alipay"), ("财付通", "Assets:WeChat"),
    ("支付宝", "Assets:Alipay"), ("零钱", "Assets:WeChat"), ("余额", "Assets:Alipay")
  ]

  const DefaultCardType: string := "Liabilities:CreditCard"

  lemma WalletKeysDistinct()
    ensures DistinctKeys(WalletAccounts)
  {
  }

  /** The searched table is the wallet dictionary sorted longest keyword first. */
  lemma WalletsSorted()
    ensures SortedByLength(WalletsByLength, WalletAccounts)
    ensures exists origin :: StablySorted(WalletsByLength, WalletAccounts, origin)
  {
    var origin := [5, 9, 4, 6, 10, 1, 3, 7, 8, 0, 2];
    WalletsMoved(origin);
    WalletTiesKept(origin);
    WalletsLongerFirst();
    assert StablySorted(WalletsByLength, WalletAccounts, origin);
    WalletsRows();
  }

  lemma WalletsLongerFirst()
    ensures LongerFirst(WalletsByLength)
  {
  }

  lemma WalletsRows()
    ensures RowsOf(WalletsByLength, WalletAccounts) && RowsOf(WalletAccounts, WalletsByLength)
  {
  }

  lemma WalletsMoved(origin: seq<nat>)
    requires origin == [5, 9, 4, 6, 10, 1, 3, 7, 8, 0, 2]
    ensures |origin| == |WalletsByLength| == |WalletAccounts|
    ensures forall i :: 0 <= i < |origin| ==> origin[i] < |WalletAccounts| && WalletsByLength[i] == WalletAccounts[origin[i]]
    ensures forall i, j :: 0 <= i < j < |origin| ==> origin[i] != origin[j]
  {
  }

  lemma WalletTiesKept(origin: seq<nat>)
    requires origin == [5, 9, 4, 6, 10, 1, 3, 7, 8, 0, 2]
    ensures forall i, j :: 0 <= i < j < |WalletsByLength| && |WalletsByLength[i].0| == |WalletsByLength[j].0| ==>
      origin[i] < origin[j]
  {
  }

  /** Exact membership: sub-accounts such as "Assets:WeChat:Unknown" are not platform accounts. */
  function IsPlatformAccount(account: string): (b: bool)
    ensures b <==> account == "Assets:WeChat" || account == "Assets:Alipay" || account == "Assets:JD"
  {
    account in PlatformAccounts
  }

  /** The card kind named in the method: a debit card wins even when "信用卡" also occurs. */
  function CardPrefix(m: string, defaultCardType: string): (p: string)
    ensures Contains(m, "储蓄卡") ==> p == "Assets:Bank"
    ensures !Contains(m, "储蓄卡") && Contains(m, "信用卡") ==> p == "Liabilities:CreditCard"
    ensures !Contains(m, "储蓄卡") && !Contains(m, "信用卡") ==> p == defaultCardType
  {
    if Contains(m, "储蓄卡") then "Assets:Bank"
    else if Contains(m, "信用卡") then "Liabilities:CreditCard"
    else defaultCardType
  }

  /** `resolve_payment_account(payment_method, fallback_account, default_card_type)`. */
  function ResolvePaymentAccount(paymentMethod: string, fallback: string, defaultCardType: string): (r: string)
    ensures Strip(paymentMethod) == [] ==> r == fallback
    decreases |paymentMethod|
  {
    var m := Strip(paymentMethod);
    if m == [] then fallback
    else
      match FirstPrefix(WalletsByLength, m)
      case Some(i) => WalletsByLength[i].1
      case None =>
        if '-' in m then
          ResolvePaymentAccount(SplitOnce(m, '-').1, fallback, defaultCardType)
        else
          match FirstContained(BankPatterns, m)
          case Some(b) => CardPrefix(m, defaultCardType) + ":" + BankPatterns[b].1
          case None => fallback
  }

  /** An empty or whitespace-only method gives the fallback account unchanged. */
  lemma ResolveBlank(paymentMethod: string, fallback: string, defaultCardType: string)
    requires forall k :: 0 <= k < |paymentMethod| ==> IsSpace(paymentMethod[k])
    ensures ResolvePaymentAccount(paymentMethod, fallback, defaultCardType) == fallback
  {
  }

  /** No wallet keyword starts the (stripped) method. */
  predicate NoWalletPrefix(m: string)
  {
    forall k :: 0 <= k < |WalletAccounts| ==> !(WalletAccounts[k].0 <= m)
  }

  /**
   * When wallet keyword `j` is the longest one starting the method, its account is the
   * result, before any composite, card or bank detection ("支付宝支付…" is Alipay,
   * "零钱通…" is WeChat).
   */
  lemma ResolveLongestWallet(paymentMethod: string, fallback: string, defaultCardType: string, j: nat)
    requires j < |WalletAccounts| && WalletAccounts[j].0 <= Strip(paymentMethod)
    requires forall k :: 0 <= k < |WalletAccounts| && WalletAccounts[k].0 <= Strip(paymentMethod) ==>
      |WalletAccounts[k].0| <= |WalletAccounts[j].0|
    ensures ResolvePaymentAccount(paymentMethod, fallback, defaultCardType) == WalletAccounts[j].1
  {
    WalletSearchFindsLongest(Strip(paymentMethod), j);
    ResolveWalletHit(paymentMethod, fallback, defaultCardType, FirstPrefix(WalletsByLength, Strip(paymentMethod)).value);
  }

  /** The longest-first search finds the row of the longest wallet keyword starting `text`. */
  lemma WalletSearchFindsLongest(text: string, j: nat)
    requires j < |WalletAccounts| && WalletAccounts[j].0 <= text
    requires forall k :: 0 <= k < |WalletAccounts| && WalletAccounts[k].0 <= text ==>
      |WalletAccounts[k].0| <= |WalletAccounts[j].0|
    ensures FirstPrefix(WalletsByLength, text).Some?
    ensures WalletsByLength[FirstPrefix(WalletsByLength, text).value] == WalletAccounts[j]
  {
    WalletKeysDistinct();
    WalletsSorted();
    SortedPrefixFindsLongest(WalletsByLength, WalletAccounts, text, j);
  }

  /** A wallet keyword found by the search decides the account. */
  lemma ResolveWalletHit(paymentMethod: string, fallback: string, defaultCardType: string, i: nat)
    requires FirstPrefix(WalletsByLength, Strip(paymentMethod)) == Some(i)
    ensures ResolvePaymentAccount(paymentMethod, fallback, defaultCardType) == WalletsByLength[i].1
  {
  }

  /** A non-wallet method containing "-" resolves exactly as its text after the first "-". */
  lemma ResolveComposite(paymentMethod: string, fallback: string, defaultCardType: string)
    requires Strip(paymentMethod) != [] && NoWalletPrefix(Strip(paymentMethod))
    requires '-' in Strip(paymentMethod)
    ensures ResolvePaymentAccount(paymentMethod, fallback, defaultCardType)
      == ResolvePaymentAccount(SplitOnce(Strip(paymentMethod), '-').1, fallback, defaultCardType)
  {
    WalletsSorted();
    SortedPrefixFindsNone(WalletsByLength, WalletAccounts, Strip(paymentMethod));
  }

  /**
   * A plain card method resolves through the first bank of the table whose name it
   * contains, to `<card prefix>:<code>`; with no bank name it falls back.
   */
  lemma ResolveBank(paymentMethod: string, fallback: string, defaultCardType: string, b: nat)
    requires Strip(paymentMethod) != [] && NoWalletPrefix(Strip(paymentMethod))
    requires '-' !in Strip(paymentMethod)
    requires b < |BankPatterns| && Contains(Strip(paymentMethod), BankPatterns[b].0)
    requires forall c :: 0 <= c < b ==> !Contains(Strip(paymentMethod), BankPatterns[c].0)
    ensures ResolvePaymentAccount(paymentMethod, fallback, defaultCardType)
      == CardPrefix(Strip(paymentMethod), defaultCardType) + ":" + BankPatterns[b].1
  {
    WalletsSorted();
    SortedPrefixFindsNone(WalletsByLength, WalletAccounts, Strip(paymentMethod));
    FirstContainedIs(BankPatterns, Strip(paymentMethod), b);
  }

  /** A plain method naming no bank of the table resolves to the fallback. */
  lemma ResolveNoBank(paymentMethod: string, fallback: string, defaultCardType: string)
    requires Strip(paymentMethod) != [] && NoWalletPrefix(Strip(paymentMethod))
    requires '-' !in Strip(paymentMethod)
    requires forall c :: 0 <= c < |BankPatterns| ==> !Contains(Strip(paymentMethod), BankPatterns[c].0)
    ensures ResolvePaymentAccount(paymentMethod, fallback, defaultCardType) == fallback
  {
    WalletsSorted();
    SortedPrefixFindsNone(WalletsByLength, WalletAccounts, Strip(paymentMethod));
  }

  /** The accounts the resolver can produce. */
  predicate ResolvedShape(r: string, fallback: string, defaultCardType: string)
  {
    r == fallback
    || (exists k :: 0 <= k < |WalletAccounts| && r == WalletAccounts[k].1)
    || (exists b :: 0 <= b < |BankPatterns| &&
         (r == "Assets:Bank:" + BankPatterns[b].1 || r == "Liabilities:CreditCard:" + BankPatterns[b].1
          || r == defaultCardType + ":" + BankPatterns[b].1))
  }

  /** Every result is the fallback, a wallet account, or a card account of a known bank. */
  lemma {:induction false} ResolveShape(paymentMethod: string, fallback: string, defaultCardType: string)
    ensures ResolvedShape(ResolvePaymentAccount(paymentMethod, fallback, defaultCardType), fallback, defaultCardType)
    decreases |paymentMethod|
  {
    var m := Strip(paymentMethod);
    if m != [] {
      match FirstPrefix(WalletsByLength, m)
      case Some(i) =>
        WalletShape(i, fallback, defaultCardType);
      case None =>
        if '-' in m {
          ResolveShape(SplitOnce(m, '-').1, fallback, defaultCardType);
        } else if FirstContained(BankPatterns, m).Some? {
          BankShape(m, FirstContained(BankPatterns, m).value, fallback, defaultCardType);
        }
    }
  }

  lemma WalletShape(i: nat, fallback: string, defaultCardType: string)
    requires i < |WalletsByLength|
    ensures ResolvedShape(WalletsByLength[i].1, fallback, defaultCardType)
  {
    WalletsSorted();
    assert WalletsByLength[i] in WalletAccounts;
    var k :| 0 <= k < |WalletAccounts| && WalletsByLength[i] == WalletAccounts[k];
    assert WalletsByLength[i].1 == WalletAccounts[k].1;
  }

  lemma BankShape(m: string, b: nat, fallback: string, defaultCardType: string)
    requires b < |BankPatterns|
    ensures ResolvedShape(CardPrefix(m, defaultCardType) + ":" + BankPatterns[b].1, fallback, defaultCardType)
  {
    var p := CardPrefix(m, defaultCardType);
    var code := BankPatterns[b].1;
    if p == "Assets:Bank" {
      assert p + ":" + code == "Assets:Bank:" + code;
    } else if p == "Liabilities:CreditCard" {
      assert p + ":" + code == "Liabilities:CreditCard:" + code;
    }
  }
}
