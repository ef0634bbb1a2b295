/**
 * Clearing-account routing for cross-platform transactions: a payment method that does
 * not belong to the importing platform is booked against `Assets:Clearing:<platform>:...`,
 * and known merchants get their own clearing account.
 */
module ClearingRoutes {
  import opened Wrappers
  import opened Text
  import opened Tables
  import Resolve

  const ClearingPrefix: string := "Assets:Clearing:"

  /** Known merchants and whether their clearing account is subdivided by platform. */
  const ClearingMerchants: seq<(string, bool)> := [("Costco", false), ("ALDI", false), ("JD", true)]

  /** Merchant keywords → merchant, in dictionary order. */
  const MerchantKeywords: seq<Group> := [
    (["Costco", "开市客"], "Costco"), (["ALDI", "奥乐齐"], "ALDI"), (["京东", "JD", "jd.com"], "JD")
  ]

  /** Payment channel keywords → channel code, in dictionary order. */
  const PlatformIdentifiers: seq<Group> := [
    (["微信", "财付通", "WeChat", "Tenpay"], "WX"), (["支付宝", "Alipay"], "Alipay"), (["Apple"], "ApplePay")
  ]

  /** Platform-internal accounts of each platform, in dictionary order. */
  function InternalAccounts(platform: string): seq<Entry>
  {
    if platform == "WX" then [("零钱", "Assets:WeChat"), ("零钱通", "Assets:WeChat")]
    else if platform == "Alipay" then [("余额", "Assets:Alipay"), ("余额宝", "Assets:Alipay")]
    else if platform == "JD" then
      [("白条", "Liabilities:JD:BaiTiao"), ("京东白条", "Liabilities:JD:BaiTiao"),
       ("小金库", "Assets:JD:XiaoJinKu"), ("京东小金库", "Assets:JD:XiaoJinKu")]
    else []
  }

  /** The same tables as searched, longest keyword first. */
  function InternalByLength(platform: string): seq<Entry>
  {
    if platform == "WX" then [("零钱通", "Assets:WeChat"), ("零钱", "Assets:WeChat")]
    else if platform == "Alipay" then [("余额宝", "Assets:Alipay"), ("余额", "Assets:Alipay")]
    else if platform == "JD" then
      [("京东小金库", "Assets:JD:XiaoJinKu"), ("京东白条", "Liabilities:JD:BaiTiao"),
       ("小金库", "Assets:JD:XiaoJinKu"), ("白条", "Liabilities:JD:BaiTiao")]
    else []
  }

  lemma InternalSorted(platform: string)
    ensures SortedByLength(InternalByLength(platform), InternalAccounts(platform))
    ensures DistinctKeys(InternalAccounts(platform))
    ensures exists origin :: StablySorted(InternalByLength(platform), InternalAccounts(platform), origin)
  {
    if platform == "WX" {
      SortedWX();
      StableWX();
      assert StablySorted(InternalByLength("WX"), InternalAccounts("WX"), [1, 0]);
    } else if platform == "Alipay" {
      SortedAlipay();
      StableAlipay();
      assert StablySorted(InternalByLength("Alipay"), InternalAccounts("Alipay"), [1, 0]);
    } else if platform == "JD" {
      SortedJD();
      StableJD();
      assert StablySorted(InternalByLength("JD"), InternalAccounts("JD"), [3, 1, 2, 0]);
    } else {
      assert StablySorted(InternalByLength(platform), InternalAccounts(platform), []);
    }
  }

  /** The JD table moves row 3 to the front, then rows 1, 2 and 0; no two keywords tie. */
  lemma StableJD()
    ensures StablySorted(InternalByLength("JD"), InternalAccounts("JD"), [3, 1, 2, 0])
  {
    var s, t, origin := InternalByLength("JD"), InternalAccounts("JD"), [3, 1, 2, 0];
    SortedJDOrder();
    assert s[0] == t[3] && s[1] == t[1] && s[2] == t[2] && s[3] == t[0];
    assert |s[0].0| > |s[1].0| > |s[2].0| > |s[3].0|;
  }

  lemma SortedWX()
    ensures SortedByLength(InternalByLength("WX"), InternalAccounts("WX"))
    ensures DistinctKeys(InternalAccounts("WX"))
  {
  }

  /** Rows 0 and 1 swap: the longer keyword moves to the front. */
  lemma StableWX()
    ensures StablySorted(InternalByLength("WX"), InternalAccounts("WX"), [1, 0])
  {
  }

  lemma SortedAlipay()
    ensures SortedByLength(InternalByLength("Alipay"), InternalAccounts("Alipay"))
    ensures DistinctKeys(InternalAccounts("Alipay"))
  {
  }

  /** Rows 0 and 1 swap: the longer keyword moves to the front. */
  lemma StableAlipay()
    ensures StablySorted(InternalByLength("Alipay"), InternalAccounts("Alipay"), [1, 0])
  {
  }

  lemma SortedJD()
    ensures SortedByLength(InternalByLength("JD"), InternalAccounts("JD"))
    ensures DistinctKeys(InternalAccounts("JD"))
  {
    SortedJDRows();
    SortedJDOrder();
  }

  lemma SortedJDRows()
    ensures RowsOf(InternalByLength("JD"), InternalAccounts("JD"))
    ensures RowsOf(InternalAccounts("JD"), InternalByLength("JD"))
  {
  }

  lemma SortedJDOrder()
    ensures LongerFirst(InternalByLength("JD")) && DistinctKeys(InternalAccounts("JD"))
  {
  }

  /** The accounts a platform keeps internally (never routed through clearing). */
  predicate IsInternalAccount(account: string, platform: string)
  {
    exists k :: 0 <= k < |InternalAccounts(platform)| && account == InternalAccounts(platform)[k].1
  }

  function UnknownAccount(platform: string): string
  {
    ClearingPrefix + platform + ":Unknown"
  }

  function ChannelAccount(platform: string, c: nat): string
    requires c < |PlatformIdentifiers|
  {
    ClearingPrefix + platform + ":" + PlatformIdentifiers[c].1
  }

  /** `CLEARING_MERCHANTS.get(merchant, False)`. */
  function HasSubClearing(merchant: string): (b: bool)
    ensures b <==> merchant == "JD"
  {
    if merchant == "Costco" then false
    else if merchant == "ALDI" then false
    else merchant == "JD"
  }

  function LowerAll(kws: seq<string>): (r: seq<string>)
    ensures |r| == |kws| && forall k :: 0 <= k < |kws| ==> r[k] == Lower(kws[k])
  {
    seq(|kws|, k requires 0 <= k < |kws| => Lower(kws[k]))
  }

  /** The keyword groups with every keyword lowercased, as `kw.lower()` compares them. */
  function LowerGroups(g: seq<Group>): (r: seq<Group>)
    ensures |r| == |g| && forall i :: 0 <= i < |g| ==> r[i] == (LowerAll(g[i].0), g[i].1)
  {
    seq(|g|, i requires 0 <= i < |g| => (LowerAll(g[i].0), g[i].1))
  }

  /** The text the merchant detector searches: `f"{payee} {narration}".lower()`. */
  function MerchantText(payee: string, narration: string): string
  {
    Lower(payee + " " + narration)
  }

  /** `detect_merchant_clearing(my_platform, payee, narration)`. */
  function DetectMerchantClearing(myPlatform: string, payee: string, narration: string): (r: Option<string>)
    ensures r.None? <==> forall i, k :: 0 <= i < |MerchantKeywords| && 0 <= k < |MerchantKeywords[i].0| ==>
      !Contains(MerchantText(payee, narration), Lower(MerchantKeywords[i].0[k]))
  {
    var text := MerchantText(payee, narration);
    match FirstGroup(LowerGroups(MerchantKeywords), text)
    case None =>
      assert forall i :: 0 <= i < |MerchantKeywords| ==> !AnyIn(LowerGroups(MerchantKeywords)[i].0, text);
      None
    case Some(i) =>
      var k :| 0 <= k < |LowerGroups(MerchantKeywords)[i].0| && Contains(text, LowerGroups(MerchantKeywords)[i].0[k]);
      assert Contains(text, Lower(MerchantKeywords[i].0[k]));
      var merchant := MerchantKeywords[i].1;
      if HasSubClearing(merchant) then Some(ClearingPrefix + merchant + ":" + myPlatform)
      else Some(ClearingPrefix + merchant)
  }

  /**
   * The first merchant (in table order) one of whose keywords occurs, ignoring case, decides
   * the account: `Assets:Clearing:JD:<platform>` for JD, `Assets:Clearing:<merchant>` otherwise.
   */
  lemma DetectFirstMerchant(myPlatform: string, payee: string, narration: string, i: nat, k: nat)
    requires i < |MerchantKeywords| && k < |MerchantKeywords[i].0|
    requires Contains(MerchantText(payee, narration), Lower(MerchantKeywords[i].0[k]))
    requires forall j, q :: 0 <= j < i && 0 <= q < |MerchantKeywords[j].0| ==>
      !Contains(MerchantText(payee, narration), Lower(MerchantKeywords[j].0[q]))
    ensures var merchant := MerchantKeywords[i].1;
      DetectMerchantClearing(myPlatform, payee, narration)
        == Some(if merchant == "JD" then ClearingPrefix + merchant + ":" + myPlatform else ClearingPrefix + merchant)
  {
    var text := MerchantText(payee, narration);
    var g := LowerGroups(MerchantKeywords);
    assert AnyIn(g[i].0, text) by { assert g[i].0[k] == Lower(MerchantKeywords[i].0[k]); }
    forall j | 0 <= j < i
      ensures !AnyIn(g[j].0, text)
    {
      forall q | 0 <= q < |g[j].0|
        ensures !Contains(text, g[j].0[q])
      {
        assert g[j].0[q] == Lower(MerchantKeywords[j].0[q]);
      }
    }
    FirstGroupIs(g, text, i);
  }

  /** Changing the letter case of payee or narration never changes the detected merchant. */
  lemma DetectIgnoresCase(myPlatform: string, payee: string, narration: string, payee2: string, narration2: string)
    requires Lower(payee) == Lower(payee2) && Lower(narration) == Lower(narration2)
    ensures DetectMerchantClearing(myPlatform, payee, narration)
      == DetectMerchantClearing(myPlatform, payee2, narration2)
  {
    LowerConcat(payee + " ", narration);
    LowerConcat(payee, " ");
    LowerConcat(payee2 + " ", narration2);
    LowerConcat(payee2, " ");
    assert MerchantText(payee, narration) == MerchantText(payee2, narration2);
  }

  /** "储蓄卡" selects the Bank sub-account; anything else, "信用卡" or not, is CC. */
  function CardKind(m: string): (k: string)
    ensures k == "Bank" <==> Contains(m, "储蓄卡")
    ensures k == "Bank" || k == "CC"
  {
    if Contains(m, "储蓄卡") then "Bank" else "CC"
  }

  /** `resolve_payment_to_clearing(payment_method, platform)`. */
  function ResolvePaymentToClearing(paymentMethod: string, platform: string): (r: string)
    ensures Strip(paymentMethod) == [] || Strip(paymentMethod) == "/" ==> r == UnknownAccount(platform)
    decreases |paymentMethod|
  {
    var m := Strip(paymentMethod);
    if m == [] || m == "/" then UnknownAccount(platform)
    else
      match FirstPrefix(InternalByLength(platform), m)
      case Some(i) => InternalByLength(platform)[i].1
      case None =>
        if '-' in m then
          var parts := SplitOnce(m, '-');
          match FirstGroup(PlatformIdentifiers, Strip(parts.0))
          case Some(c) => ChannelAccount(platform, c)
          case None => ResolvePaymentToClearing(parts.1, platform)
        else
          match FirstGroup(PlatformIdentifiers, m)
          case Some(c) => ChannelAccount(platform, c)
          case None =>
            match FirstContained(Resolve.BankPatterns, m)
            case Some(b) => ClearingPrefix + platform + ":" + CardKind(m) + ":" + Resolve.BankPatterns[b].1
            case None => UnknownAccount(platform)
  }

  /** No internal keyword of the platform starts the method. */
  predicate NoInternalPrefix(m: string, platform: string)
  {
    forall k :: 0 <= k < |InternalAccounts(platform)| ==> !(InternalAccounts(platform)[k].0 <= m)
  }

  lemma NoInternalFound(m: string, platform: string)
    requires NoInternalPrefix(m, platform)
    ensures FirstPrefix(InternalByLength(platform), m).None?
  {
    InternalSorted(platform);
    SortedPrefixFindsNone(InternalByLength(platform), InternalAccounts(platform), m);
  }

  /**
   * Only the caller's own platform's internal keywords apply, longest first by prefix:
   * the longest one starting the method gives its account.
   */
  lemma ClearingLongestInternal(paymentMethod: string, platform: string, j: nat)
    requires Strip(paymentMethod) != "/"
    requires j < |InternalAccounts(platform)| && InternalAccounts(platform)[j].0 <= Strip(paymentMethod)
    requires forall k :: 0 <= k < |InternalAccounts(platform)| && InternalAccounts(platform)[k].0 <= Strip(paymentMethod) ==>
      |InternalAccounts(platform)[k].0| <= |InternalAccounts(platform)[j].0|
    ensures ResolvePaymentToClearing(paymentMethod, platform) == InternalAccounts(platform)[j].1
  {
    InternalSorted(platform);
    SortedPrefixFindsLongest(InternalByLength(platform), InternalAccounts(platform), Strip(paymentMethod), j);
  }

  /**
   * A composite "X-Y" whose left part names a channel goes to that channel's clearing
   * account; otherwise it resolves as Y.
   */
  lemma ClearingComposite(paymentMethod: string, platform: string)
    requires var m := Strip(paymentMethod); m != [] && m != "/" && NoInternalPrefix(m, platform) && '-' in m
    ensures var parts := SplitOnce(Strip(paymentMethod), '-');
      var r := ResolvePaymentToClearing(paymentMethod, platform);
      match FirstGroup(PlatformIdentifiers, Strip(parts.0))
      case Some(c) => r == ChannelAccount(platform, c)
      case None => r == ResolvePaymentToClearing(parts.1, platform)
  {
    NoInternalFound(Strip(paymentMethod), platform);
  }

  /**
   * A channel keyword anywhere in a plain method wins over card and bank detection, the
   * channels being tried in the order WX, Alipay, ApplePay.
   */
  lemma ClearingChannel(paymentMethod: string, platform: string, c: nat)
    requires var m := Strip(paymentMethod); m != [] && m != "/" && NoInternalPrefix(m, platform) && '-' !in m
    requires c < |PlatformIdentifiers| && AnyIn(PlatformIdentifiers[c].0, Strip(paymentMethod))
    requires forall d :: 0 <= d < c ==> !AnyIn(PlatformIdentifiers[d].0, Strip(paymentMethod))
    ensures ResolvePaymentToClearing(paymentMethod, platform) == ChannelAccount(platform, c)
  {
    NoInternalFound(Strip(paymentMethod), platform);
    FirstGroupIs(PlatformIdentifiers, Strip(paymentMethod), c);
  }

  /** A plain card method goes to `Assets:Clearing:<platform>:<Bank|CC>:<code>` of its first bank. */
  lemma ClearingBank(paymentMethod: string, platform: string, b: nat)
    requires var m := Strip(paymentMethod); m != [] && m != "/" && NoInternalPrefix(m, platform) && '-' !in m
    requires forall d :: 0 <= d < |PlatformIdentifiers| ==> !AnyIn(PlatformIdentifiers[d].0, Strip(paymentMethod))
    requires b < |Resolve.BankPatterns| && Contains(Strip(paymentMethod), Resolve.BankPatterns[b].0)
    requires forall c :: 0 <= c < b ==> !Contains(Strip(paymentMethod), Resolve.BankPatterns[c].0)
    ensures ResolvePaymentToClearing(paymentMethod, platform)
      == ClearingPrefix + platform + ":" + CardKind(Strip(paymentMethod)) + ":" + Resolve.BankPatterns[b].1
  {
    NoInternalFound(Strip(paymentMethod), platform);
    FirstContainedIs(Resolve.BankPatterns, Strip(paymentMethod), b);
  }

  /** A plain method with no channel and no known bank is the platform's Unknown account. */
  lemma ClearingNoBank(paymentMethod: string, platform: string)
    requires var m := Strip(paymentMethod); m != [] && m != "/" && NoInternalPrefix(m, platform) && '-' !in m
    requires forall d :: 0 <= d < |PlatformIdentifiers| ==> !AnyIn(PlatformIdentifiers[d].0, Strip(paymentMethod))
    requires forall c :: 0 <= c < |Resolve.BankPatterns| ==> !Contains(Strip(paymentMethod), Resolve.BankPatterns[c].0)
    ensures ResolvePaymentToClearing(paymentMethod, platform) == UnknownAccount(platform)
  {
    NoInternalFound(Strip(paymentMethod), platform);
  }

  /** `is_clearing_account(account)`. */
  function IsClearingAccount(account: string): (b: bool)
    ensures b <==> |account| >= |ClearingPrefix| && account[..|ClearingPrefix|] == ClearingPrefix
  {
    ClearingPrefix <= account
  }

  /** The account is under `Assets:Clearing:<platform>:`. */
  predicate UnderPlatformClearing(account: string, platform: string)
  {
    ClearingPrefix + platform + ":" <= account
  }

  /** Every result is a platform-internal account or lies under `Assets:Clearing:<platform>:`. */
  lemma {:induction false} ClearingShape(paymentMethod: string, platform: string)
    ensures var r := ResolvePaymentToClearing(paymentMethod, platform);
      IsInternalAccount(r, platform) || UnderPlatformClearing(r, platform)
    decreases |paymentMethod|
  {
    var m := Strip(paymentMethod);
    if m == [] || m == "/" {
      UnderClearing(platform, "Unknown");
    } else {
      match FirstPrefix(InternalByLength(platform), m)
      case Some(i) =>
        InternalHit(platform, i);
      case None =>
        if '-' in m {
          var parts := SplitOnce(m, '-');
          match FirstGroup(PlatformIdentifiers, Strip(parts.0))
          case Some(c) =>
            UnderClearing(platform, PlatformIdentifiers[c].1);
          case None =>
            ClearingShape(parts.1, platform);
        } else {
          match FirstGroup(PlatformIdentifiers, m)
          case Some(c) =>
            UnderClearing(platform, PlatformIdentifiers[c].1);
          case None =>
            match FirstContained(Resolve.BankPatterns, m)
            case Some(b) =>
              UnderClearing(platform, CardKind(m) + ":" + Resolve.BankPatterns[b].1);
            case None =>
              UnderClearing(platform, "Unknown");
        }
    }
  }

  /** An account spelled `Assets:Clearing:<platform>:<rest>` lies under the platform's clearing. */
  lemma UnderClearing(platform: string, rest: string)
    ensures UnderPlatformClearing(ClearingPrefix + platform + ":" + rest, platform)
    ensures ClearingPrefix + platform + ":" + rest == ClearingPrefix + platform + (":" + rest)
  {
  }

  /** The account of an internal keyword found longest-first is platform-internal. */
  lemma InternalHit(platform: string, i: nat)
    requires i < |InternalByLength(platform)|
    ensures IsInternalAccount(InternalByLength(platform)[i].1, platform)
  {
    InternalSorted(platform);
    assert InternalByLength(platform)[i] in InternalAccounts(platform);
    var k :| 0 <= k < |InternalAccounts(platform)| && InternalAccounts(platform)[k] == InternalByLength(platform)[i];
    assert InternalByLength(platform)[i].1 == InternalAccounts(platform)[k].1;
  }

  /** Platform-internal accounts are never clearing accounts. */
  lemma InternalNotClearing(account: string, platform: string)
    requires IsInternalAccount(account, platform)
    ensures !IsClearingAccount(account)
  {
    var k :| 0 <= k < |InternalAccounts(platform)| && account == InternalAccounts(platform)[k].1;
    if platform == "WX" {
      assert account == "Assets:WeChat";
    } else if platform == "Alipay" {
      assert account == "Assets:Alipay";
    } else {
      assert account == "Liabilities:JD:BaiTiao" || account == "Assets:JD:XiaoJinKu";
      if account == "Liabilities:JD:BaiTiao" {
        assert account[..|ClearingPrefix|][0] != ClearingPrefix[0];
      } else {
        assert account[..|ClearingPrefix|][7] != ClearingPrefix[7];
      }
    }
  }

  /** So a routed method is a clearing account exactly when it is not platform-internal. */
  lemma ClearingIffNotInternal(paymentMethod: string, platform: string)
    ensures var r := ResolvePaymentToClearing(paymentMethod, platform);
      IsClearingAccount(r) <==> !IsInternalAccount(r, platform)
  {
    var r := ResolvePaymentToClearing(paymentMethod, platform);
    ClearingShape(paymentMethod, platform);
    if IsInternalAccount(r, platform) {
      InternalNotClearing(r, platform);
    } else {
      assert ClearingPrefix <= ClearingPrefix + platform + ":";
    }
  }
}
