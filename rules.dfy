/**
 * The rule-based categorizer. A transaction's lower-cased "payee narration[ raw_category]"
 * text is matched against keyword rules (substring, first in table order), then against
 * regex rules (first in order); no match leaves it uncategorized. User keyword rules update
 * the default dictionary; user regex rules go in front of the default ones.
 */
module Rules {
  import opened Wrappers
  import opened Text
  import opened Tables
  import opened Model

  /** JD order categories, which arrive as `raw_category`. */
  const JDPlatformRules: seq<Entry> := [
    ("数码电器", "Expenses:Shopping:Electronics"), ("手机通讯", "Expenses:Shopping:Electronics"),
    ("电脑办公", "Expenses:Shopping:Electronics"), ("家用电器", "Expenses:Shopping:Electronics"),
    ("美妆个护", "Expenses:Shopping:DailyGoods"), ("清洁纸品", "Expenses:Shopping:DailyGoods"),
    ("日用百货", "Expenses:Shopping:DailyGoods"), ("鞋服箱包", "Expenses:Shopping:Clothing"),
    ("食品酒饮", "Expenses:Food:Grocery"), ("家居家装", "Expenses:Shopping:HomeGoods"),
    ("图书文娱", "Expenses:Education:Books"), ("教育培训", "Expenses:Education:Courses"),
    ("运动户外", "Expenses:Health:Fitness"), ("医疗保健", "Expenses:Health:Medical"),
    ("生活服务", "Expenses:Shopping:DailyGoods"), ("12306", "Expenses:Transport:PublicTransit")
  ]

  /** Campus canteens and restaurants; they must win over any generic rule. */
  const CampusRules: seq<Entry> := [
    ("华为一卡通", "Expenses:Food:Restaurant"), ("捷华餐饮", "Expenses:Food:Restaurant"),
    ("农耕记", "Expenses:Food:Restaurant"), ("三牦记", "Expenses:Food:Restaurant"),
    ("食堂", "Expenses:Food:Restaurant")
  ]

  /** Coffee. */
  const CoffeeRules: seq<Entry> := [
    ("星巴克", "Expenses:Food:Coffee"), ("starbucks", "Expenses:Food:Coffee"),
    ("瑞幸", "Expenses:Food:Coffee"), ("luckin", "Expenses:Food:Coffee"),
    ("costa coffee", "Expenses:Food:Coffee"), ("costa", "Expenses:Food:Coffee"),
    ("manner coffee", "Expenses:Food:Coffee"), ("manner", "Expenses:Food:Coffee"),
    ("太平洋咖啡", "Expenses:Food:Coffee"), ("seesaw", "Expenses:Food:Coffee"),
    ("蓝瓶咖啡", "Expenses:Food:Coffee"), ("arabica", "Expenses:Food:Coffee"),
    ("阿拉比卡", "Expenses:Food:Coffee"), ("咖啡", "Expenses:Food:Coffee"),
    ("coffee", "Expenses:Food:Coffee"), ("café", "Expenses:Food:Coffee"),
    ("cafe", "Expenses:Food:Coffee")
  ]

  /** Taxis and ride hailing. */
  const TaxiRules: seq<Entry> := [
    ("滴滴出行", "Expenses:Transport:Taxi"), ("滴滴", "Expenses:Transport:Taxi"),
    ("高德打车", "Expenses:Transport:Taxi"), ("阳光出行", "Expenses:Transport:Taxi"),
    ("享道出行", "Expenses:Transport:Taxi"), ("灵犀出行", "Expenses:Transport:Taxi"),
    ("出租车", "Expenses:Transport:Taxi"), ("如祺", "Expenses:Transport:Taxi")
  ]

  /** Public transit. */
  const PublicTransitRules: seq<Entry> := [
    ("地铁", "Expenses:Transport:PublicTransit"), ("轨道交通", "Expenses:Transport:PublicTransit"),
    ("公交", "Expenses:Transport:PublicTransit"), ("长安通", "Expenses:Transport:PublicTransit"),
    ("深圳通", "Expenses:Transport:PublicTransit"), ("机场快线", "Expenses:Transport:PublicTransit")
  ]

  /** Shared bikes and scooters. */
  const BikeRules: seq<Entry> := [
    ("青桔单车", "Expenses:Transport:PublicTransit"), ("哈啰", "Expenses:Transport:PublicTransit"),
    ("广州骑安", "Expenses:Transport:PublicTransit"), ("小遛共享", "Expenses:Transport:PublicTransit")
  ]

  /** Moving and freight. */
  const FreightRules: seq<Entry> := [
    ("货拉拉", "Expenses:Transport:Taxi")
  ]

  /** Food delivery. */
  const DeliveryRules: seq<Entry> := [
    ("美团外卖", "Expenses:Food:Delivery"), ("饿了么", "Expenses:Food:Delivery")
  ]

  /** Fast food. */
  const FastFoodRules: seq<Entry> := [
    ("麦当劳", "Expenses:Food:Restaurant"), ("金拱门", "Expenses:Food:Restaurant"),
    ("肯德基", "Expenses:Food:Restaurant"), ("kfc", "Expenses:Food:Restaurant"),
    ("汉堡王", "Expenses:Food:Restaurant"), ("棒约翰", "Expenses:Food:Restaurant"),
    ("pizzahut", "Expenses:Food:Restaurant"), ("必胜客", "Expenses:Food:Restaurant"),
    ("老乡鸡", "Expenses:Food:Restaurant"), ("嘉旺", "Expenses:Food:Restaurant")
  ]

  /** Restaurants, including the generic Meituan rules. */
  const RestaurantRules: seq<Entry> := [
    ("餐饮", "Expenses:Food:Restaurant"), ("餐厅", "Expenses:Food:Restaurant"),
    ("酒家", "Expenses:Food:Restaurant"), ("饭店", "Expenses:Food:Restaurant"),
    ("面馆", "Expenses:Food:Restaurant"), ("烤肉", "Expenses:Food:Restaurant"),
    ("火锅", "Expenses:Food:Restaurant"), ("海底捞", "Expenses:Food:Restaurant"),
    ("串串", "Expenses:Food:Restaurant"), ("牛肉面", "Expenses:Food:Restaurant"),
    ("拉面", "Expenses:Food:Restaurant"), ("小面", "Expenses:Food:Restaurant"),
    ("米线", "Expenses:Food:Restaurant"), ("面点王", "Expenses:Food:Restaurant"),
    ("魏家凉皮", "Expenses:Food:Restaurant"), ("凉皮", "Expenses:Food:Restaurant"),
    ("肉夹馍", "Expenses:Food:Restaurant"), ("美团平台商户", "Expenses:Food:Restaurant"),
    ("美团", "Expenses:Food:Restaurant"), ("大众点评", "Expenses:Food:Restaurant"),
    ("喜家德", "Expenses:Food:Restaurant"), ("和府捞面", "Expenses:Food:Restaurant"),
    ("太二", "Expenses:Food:Restaurant"), ("奈雪", "Expenses:Food:Restaurant"),
    ("1点点", "Expenses:Food:Restaurant"), ("书亦", "Expenses:Food:Restaurant"),
    ("甜品", "Expenses:Food:Restaurant"), ("烘焙", "Expenses:Food:Restaurant")
  ]

  /** Groceries and supermarkets. */
  const GroceryRules: seq<Entry> := [
    ("华润万家", "Expenses:Food:Grocery"), ("沃尔玛", "Expenses:Food:Grocery"),
    ("盒马", "Expenses:Food:Grocery"), ("永辉超市", "Expenses:Food:Grocery"),
    ("超市", "Expenses:Food:Grocery"), ("便利店", "Expenses:Food:Grocery"),
    ("7-eleven", "Expenses:Food:Grocery"), ("全家", "Expenses:Food:Grocery"),
    ("familymart", "Expenses:Food:Grocery"), ("lawson", "Expenses:Food:Grocery"),
    ("罗森", "Expenses:Food:Grocery"), ("美宜佳", "Expenses:Food:Grocery"),
    ("百果园", "Expenses:Food:Grocery"), ("水果", "Expenses:Food:Grocery"),
    ("赛壹便利", "Expenses:Food:Grocery"), ("唐久便利", "Expenses:Food:Grocery"),
    ("每一天便利", "Expenses:Food:Grocery"), ("苏果超市", "Expenses:Food:Grocery"),
    ("大润发", "Expenses:Food:Grocery"), ("卜蜂莲花", "Expenses:Food:Grocery"),
    ("宜家", "Expenses:Shopping:HomeGoods")
  ]

  /** Clothing. */
  const ClothingRules: seq<Entry> := [
    ("优衣库", "Expenses:Shopping:Clothing"), ("uniqlo", "Expenses:Shopping:Clothing"),
    ("adidas", "Expenses:Shopping:Clothing"), ("阿迪达斯", "Expenses:Shopping:Clothing"),
    ("迪卡侬", "Expenses:Shopping:Clothing"), ("lululemon", "Expenses:Shopping:Clothing"),
    ("露露乐蒙", "Expenses:Shopping:Clothing"), ("名创优品", "Expenses:Shopping:DailyGoods"),
    ("无印良品", "Expenses:Shopping:DailyGoods"), ("muji", "Expenses:Shopping:DailyGoods")
  ]

  /** Electronics. */
  const ElectronicsRules: seq<Entry> := [
    ("小米", "Expenses:Shopping:Electronics")
  ]

  /** Online shops. */
  const OnlineShoppingRules: seq<Entry> := [
    ("京东", "Expenses:Shopping:DailyGoods"), ("淘宝", "Expenses:Shopping:DailyGoods"),
    ("拼多多", "Expenses:Shopping:DailyGoods")
  ]

  /** Entertainment. */
  const EntertainmentRules: seq<Entry> := [
    ("万达电影", "Expenses:Entertainment:Movie"), ("电影", "Expenses:Entertainment:Movie"),
    ("影院", "Expenses:Entertainment:Movie"), ("影城", "Expenses:Entertainment:Movie"),
    ("深圳大剧院", "Expenses:Entertainment:Movie"), ("深圳音乐厅", "Expenses:Entertainment:Movie"),
    ("steam", "Expenses:Entertainment:Games"), ("valve", "Expenses:Entertainment:Games"),
    ("博物馆", "Expenses:Entertainment:Travel"), ("携程", "Expenses:Entertainment:Travel"),
    ("艺龙", "Expenses:Entertainment:Travel"), ("同程", "Expenses:Entertainment:Travel"),
    ("希尔顿", "Expenses:Entertainment:Travel"), ("酒店", "Expenses:Entertainment:Travel"),
    ("知乎", "Expenses:Entertainment:Subscription"), ("极客时间", "Expenses:Entertainment:Subscription"),
    ("bilibili", "Expenses:Entertainment:Subscription"), ("上海宽娱", "Expenses:Entertainment:Subscription"),
    ("奈飞", "Expenses:Entertainment:Subscription"), ("netflix", "Expenses:Entertainment:Subscription"),
    ("leetcode", "Expenses:Entertainment:Subscription"), ("力扣", "Expenses:Entertainment:Subscription")
  ]

  /** Housing. */
  const HousingRules: seq<Entry> := [
    ("物业", "Expenses:Housing:PropertyFee"), ("万科物业", "Expenses:Housing:PropertyFee"),
    ("公寓", "Expenses:Housing:Rent"), ("房租", "Expenses:Housing:Rent"),
    ("水电", "Expenses:Housing:Utilities"), ("燃气", "Expenses:Housing:Utilities"),
    ("生活缴费", "Expenses:Housing:Utilities")
  ]

  /** Health. */
  const HealthRules: seq<Entry> := [
    ("门诊部", "Expenses:Health:Medical"), ("门诊", "Expenses:Health:Medical"),
    ("诊中支付", "Expenses:Health:Medical"), ("医院", "Expenses:Health:Medical"),
    ("药房", "Expenses:Health:Medicine"), ("药店", "Expenses:Health:Medicine"),
    ("宠物医院", "Expenses:Health:Medical"), ("游泳池", "Expenses:Health:Fitness"),
    ("游泳", "Expenses:Health:Fitness"), ("健身房", "Expenses:Health:Fitness"),
    ("健身", "Expenses:Health:Fitness"), ("捷安特", "Expenses:Health:Fitness")
  ]

  /** Education. */
  const EducationRules: seq<Entry> := [
    ("书店", "Expenses:Education:Books"), ("图书", "Expenses:Education:Books"),
    ("三联生活", "Expenses:Education:Books"), ("课程", "Expenses:Education:Courses"),
    ("培训", "Expenses:Education:Training"), ("兰州大学", "Expenses:Education:Courses")
  ]

  /** Finance. */
  const FinanceRules: seq<Entry> := [
    ("手续费", "Expenses:Finance:Fees"), ("利息", "Expenses:Finance:Interest"),
    ("保险", "Expenses:Finance:Insurance")
  ]

  /** Logistics. */
  const LogisticsRules: seq<Entry> := [
    ("顺丰", "Expenses:Shopping:DailyGoods"), ("丰巢", "Expenses:Shopping:DailyGoods"),
    ("中国邮政", "Expenses:Shopping:DailyGoods")
  ]

  /** Telecom. */
  const TelecomRules: seq<Entry> := [
    ("联通", "Expenses:Housing:Utilities"), ("电信", "Expenses:Housing:Utilities"),
    ("中国移动", "Expenses:Housing:Utilities"), ("手机充值", "Expenses:Housing:Utilities"),
    ("尊享年包套餐", "Expenses:Housing:Utilities")
  ]

  /** Power-bank rentals; they must win over the generic charging rule. */
  const PowerBankRules: seq<Entry> := [
    ("来电科技", "Expenses:Shopping:DailyGoods"), ("街电", "Expenses:Shopping:DailyGoods"),
    ("小电", "Expenses:Shopping:DailyGoods"), ("怪兽充电", "Expenses:Shopping:DailyGoods"),
    ("充电宝", "Expenses:Shopping:DailyGoods")
  ]

  /** The generic charging rule. */
  const ChargingRules: seq<Entry> := [
    ("充电", "Expenses:Transport:Gas")
  ]

  /** Government fees. */
  const GovernmentRules: seq<Entry> := [
    ("出入境", "Expenses:Finance:Fees"), ("身份证", "Expenses:Finance:Fees")
  ]

  /** The sections of the default keyword dictionary, in its order. */
  const RuleSections: seq<seq<Entry>> := [
    JDPlatformRules, CampusRules, CoffeeRules, TaxiRules, PublicTransitRules, BikeRules, FreightRules,
    DeliveryRules, FastFoodRules, RestaurantRules, GroceryRules, ClothingRules, ElectronicsRules,
    OnlineShoppingRules, EntertainmentRules, HousingRules, HealthRules, EducationRules, FinanceRules,
    LogisticsRules, TelecomRules, PowerBankRules, ChargingRules, GovernmentRules
  ]

  /** Sections of `RuleSections`, by position. */
  const CampusSection: nat := 1
  const DeliverySection: nat := 7
  const RestaurantSection: nat := 9
  const PowerBankSection: nat := 21
  const ChargingSection: nat := 22

  /** The sections one after another. */
  function Flatten(secs: seq<seq<Entry>>): seq<Entry>
  {
    if secs == [] then [] else Flatten(secs[..|secs| - 1]) + secs[|secs| - 1]
  }

  /** `DEFAULT_RULES`, keyword → account, in dictionary order. */
  function DefaultRules(): seq<Entry>
  {
    Flatten(RuleSections)
  }

  /** Where section `s` starts in the flattened table. */
  function Offset(secs: seq<seq<Entry>>, s: nat): nat
    requires s <= |secs|
  {
    |Flatten(secs[..s])|
  }

  /** `DEFAULT_REGEX_RULES`: (pattern, account) pairs, tried in order. */
  const DefaultRegexRules: seq<Entry> := [
    ("美团.*外卖", "Expenses:Food:Delivery"), ("uber.*eats", "Expenses:Food:Delivery"),
    ("工资|薪资|salary", "Income:Salary"), ("退款|退货", "Income:Refund"),
    ("利息.*收入", "Income:Interest"), ("红包", "Income:Uncategorized"),
    ("信用卡还款", "Expenses:Finance:Fees"), ("转账", "Expenses:Uncategorized")
  ]

  lemma FlattenStep(secs: seq<seq<Entry>>, s: nat)
    requires s < |secs|
    ensures Flatten(secs[..s + 1]) == Flatten(secs[..s]) + secs[s]
  {
    assert secs[..s + 1][..s] == secs[..s];
  }

  /** The first `s` sections flatten to a prefix of the whole table. */
  lemma {:induction false} FlattenPrefix(secs: seq<seq<Entry>>, s: nat)
    requires s <= |secs|
    ensures |Flatten(secs[..s])| <= |Flatten(secs)|
    ensures forall i :: 0 <= i < |Flatten(secs[..s])| ==> Flatten(secs[..s])[i] == Flatten(secs)[i]
    decreases |secs| - s
  {
    if s == |secs| {
      assert secs[..s] == secs;
    } else {
      FlattenPrefix(secs, s + 1);
      FlattenStep(secs, s);
    }
  }

  /** Row `k` of section `s` is row `Offset(secs, s) + k` of the table. */
  lemma FlattenAt(secs: seq<seq<Entry>>, s: nat, k: nat)
    requires s < |secs| && k < |secs[s]|
    ensures Offset(secs, s) + k < |Flatten(secs)|
    ensures Flatten(secs)[Offset(secs, s) + k] == secs[s][k]
  {
    FlattenPrefix(secs, s + 1);
    FlattenStep(secs, s);
    assert Flatten(secs[..s + 1])[Offset(secs, s) + k] == secs[s][k];
  }

  lemma {:induction false} OffsetMonotone(secs: seq<seq<Entry>>, a: nat, b: nat)
    requires a <= b <= |secs|
    ensures Offset(secs, a) <= Offset(secs, b)
    decreases b - a
  {
    if a < b {
      OffsetMonotone(secs, a, b - 1);
      FlattenStep(secs, b - 1);
    }
  }

  /** Every row of an earlier section comes before every row of a later one. */
  lemma OffsetAfter(secs: seq<seq<Entry>>, a: nat, b: nat)
    requires a < b <= |secs|
    ensures Offset(secs, a) + |secs[a]| <= Offset(secs, b)
  {
    FlattenStep(secs, a);
    OffsetMonotone(secs, a + 1, b);
  }

  /** Index of the first item from `i` on whose key is `key`. */
  function KeyIndexFrom(d: seq<Entry>, key: string, i: nat): (r: Option<nat>)
    requires i <= |d|
    ensures r.Some? ==> i <= r.value < |d| && d[r.value].0 == key
    ensures r.Some? ==> forall j :: i <= j < r.value ==> d[j].0 != key
    ensures r.None? ==> forall j :: i <= j < |d| ==> d[j].0 != key
    decreases |d| - i
  {
    if i == |d| then None
    else if d[i].0 == key then Some(i)
    else KeyIndexFrom(d, key, i + 1)
  }

  /** Position of `key` among the items of a dictionary. */
  function KeyIndex(d: seq<Entry>, key: string): Option<nat>
  {
    KeyIndexFrom(d, key, 0)
  }

  /** The first item with the key is the one the search finds. */
  lemma {:induction false} KeyIndexIs(d: seq<Entry>, key: string, i: nat, from: nat)
    requires from <= i < |d| && d[i].0 == key
    requires forall j :: from <= j < i ==> d[j].0 != key
    ensures KeyIndexFrom(d, key, from) == Some(i)
    decreases i - from
  {
    if from < i {
      KeyIndexIs(d, key, i, from + 1);
    }
  }

  /** Without the key, the search finds nothing. */
  lemma {:induction false} KeyIndexNone(d: seq<Entry>, key: string, from: nat)
    requires from <= |d|
    requires forall j :: from <= j < |d| ==> d[j].0 != key
    ensures KeyIndexFrom(d, key, from) == None
    decreases |d| - from
  {
    if from < |d| {
      KeyIndexNone(d, key, from + 1);
    }
  }

  /** `d.get(key)`. */
  function Get(d: seq<Entry>, key: string): Option<string>
  {
    match KeyIndex(d, key)
    case Some(i) => Some(d[i].1)
    case None => None
  }

  /** `d[key] = value`: a present key keeps its place and takes the value; a new one goes last. */
  function SetItem(d: seq<Entry>, key: string, value: string): seq<Entry>
  {
    match KeyIndex(d, key)
    case Some(i) => d[i := (key, value)]
    case None => d + [(key, value)]
  }

  /** `d.update(u)`: the items of `u` set one after another. */
  function Update(d: seq<Entry>, u: seq<Entry>): seq<Entry>
  {
    if u == [] then d
    else SetItem(Update(d, u[..|u| - 1]), u[|u| - 1].0, u[|u| - 1].1)
  }

  /** Setting an item keeps every key in its place and adds at most the new key, at the end. */
  lemma SetItemKeys(d: seq<Entry>, key: string, value: string)
    ensures var r := SetItem(d, key, value);
      |d| <= |r| <= |d| + 1
      && (forall i :: 0 <= i < |d| ==> r[i].0 == d[i].0)
      && (|r| == |d| + 1 ==> r[|d|] == (key, value) && KeyIndex(d, key).None?)
  {
  }

  /** After setting an item the key maps to the value and every other key to what it did. */
  lemma SetItemGet(d: seq<Entry>, key: string, value: string, other: string)
    ensures Get(SetItem(d, key, value), key) == Some(value)
    ensures other != key ==> Get(SetItem(d, key, value), other) == Get(d, other)
  {
    var r := SetItem(d, key, value);
    match KeyIndex(d, key)
    case Some(p) =>
      KeyIndexIs(r, key, p, 0);
      if other != key {
        match KeyIndex(d, other)
        case Some(q) =>
          KeyIndexIs(r, other, q, 0);
        case None =>
          KeyIndexNone(r, other, 0);
      }
    case None =>
      KeyIndexIs(r, key, |d|, 0);
      if other != key {
        match KeyIndex(d, other)
        case Some(q) =>
          KeyIndexIs(r, other, q, 0);
        case None =>
          KeyIndexNone(r, other, 0);
      }
  }

  /** A last item with another key does not change where a key is found. */
  lemma KeyIndexExtend(front: seq<Entry>, x: Entry, key: string)
    requires x.0 != key
    ensures KeyIndex(front + [x], key) == KeyIndex(front, key)
    ensures Get(front + [x], key) == Get(front, key)
  {
    match KeyIndex(front, key)
    case Some(p) =>
      KeyIndexIs(front + [x], key, p, 0);
    case None =>
      KeyIndexNone(front + [x], key, 0);
  }

  /**
   * Updating keeps every key of `d` in its place; every row after them holds a key of `u`
   * that `d` lacks.
   */
  lemma {:induction false} UpdateKeepsPositions(d: seq<Entry>, u: seq<Entry>)
    ensures var r := Update(d, u);
      |d| <= |r|
      && (forall i :: 0 <= i < |d| ==> r[i].0 == d[i].0)
      && (forall i :: |d| <= i < |r| ==> KeyIndex(d, r[i].0).None? && KeyIndex(u, r[i].0).Some?)
  {
    if u != [] {
      var front, last := u[..|u| - 1], u[|u| - 1];
      assert u == front + [last];
      var m := Update(d, front);
      UpdateKeepsPositions(d, front);
      var r := SetItem(m, last.0, last.1);
      SetItemKeys(m, last.0, last.1);
      forall i | |d| <= i < |r|
        ensures KeyIndex(d, r[i].0).None? && KeyIndex(u, r[i].0).Some?
      {
        if i < |m| {
          var p := KeyIndex(front, m[i].0).value;
          assert u[p] == front[p];
        } else {
          assert r[i] == last;
          assert u[|u| - 1].0 == last.0;
        }
      }
    }
  }

  /** A dictionary's keys are distinct, and so are those of every prefix of its items. */
  lemma DistinctFront(u: seq<Entry>)
    requires u != [] && DistinctKeys(u)
    ensures DistinctKeys(u[..|u| - 1])
  {
  }

  /** After `d.update(u)`, a key of `u` maps to its value in `u`, any other key to its value in `d`. */
  lemma {:induction false} UpdateGet(d: seq<Entry>, u: seq<Entry>, key: string)
    requires DistinctKeys(u)
    ensures Get(Update(d, u), key) == if KeyIndex(u, key).Some? then Get(u, key) else Get(d, key)
  {
    if u != [] {
      var front, last := u[..|u| - 1], u[|u| - 1];
      assert u == front + [last];
      DistinctFront(u);
      UpdateGet(d, front, key);
      SetItemGet(Update(d, front), last.0, last.1, key);
      if key == last.0 {
        KeyIndexIs(u, key, |u| - 1, 0);
      } else {
        KeyIndexExtend(front, last, key);
      }
    }
  }

  /**
   * `re.search(pattern, text, re.IGNORECASE)` is found: the regular-expression engine is
   * supplied by the caller.
   */
  type RegexSearch = (string, string) -> bool

  /** A categorizer: its keyword dictionary's items and its regex rules, in trial order. */
  datatype RuleCategorizer = RuleCategorizer(keywordRules: seq<Entry>, regexRules: seq<Entry>)

  /**
   * `RuleCategorizer(keyword_rules, regex_rules)`: a copy of the default dictionary updated
   * with the user's keywords, and the user's regex rules in front of the default ones.
   * Absent and empty arguments leave the defaults.
   */
  function NewRuleCategorizer(keywordRules: Option<seq<Entry>>, regexRules: Option<seq<Entry>>)
    : (r: RuleCategorizer)
    ensures |DefaultRegexRules| <= |r.regexRules|
      && r.regexRules[|r.regexRules| - |DefaultRegexRules|..] == DefaultRegexRules
    ensures (keywordRules.None? || keywordRules.value == []) ==> r.keywordRules == DefaultRules()
  {
    var keywords := if keywordRules.Some? && keywordRules.value != [] then Update(DefaultRules(), keywordRules.value)
                    else DefaultRules();
    var regexes := if regexRules.Some? && regexRules.value != [] then regexRules.value + DefaultRegexRules
                   else DefaultRegexRules;
    RuleCategorizer(keywords, regexes)
  }

  /** The user's keywords, or none. */
  function UserKeywords(keywordRules: Option<seq<Entry>>): seq<Entry>
  {
    if keywordRules.Some? then keywordRules.value else []
  }

  /** The user's regex rules, or none. */
  function UserRegexes(regexRules: Option<seq<Entry>>): seq<Entry>
  {
    if regexRules.Some? then regexRules.value else []
  }

  /**
   * The keyword dictionary of a new categorizer: every default keyword stays in its place,
   * keywords the user adds come after all of them, and a keyword maps to the user's account
   * when the user gives one and to the default account otherwise.
   */
  lemma NewKeywordRules(keywordRules: Option<seq<Entry>>, regexRules: Option<seq<Entry>>, key: string)
    requires DistinctKeys(UserKeywords(keywordRules))
    ensures var kw := NewRuleCategorizer(keywordRules, regexRules).keywordRules;
      |DefaultRules()| <= |kw|
      && (forall i :: 0 <= i < |DefaultRules()| ==> kw[i].0 == DefaultRules()[i].0)
      && (forall i :: |DefaultRules()| <= i < |kw| ==>
            KeyIndex(DefaultRules(), kw[i].0).None? && KeyIndex(UserKeywords(keywordRules), kw[i].0).Some?)
      && Get(kw, key) == if KeyIndex(UserKeywords(keywordRules), key).Some? then Get(UserKeywords(keywordRules), key)
                         else Get(DefaultRules(), key)
  {
    var user := UserKeywords(keywordRules);
    UpdateKeepsPositions(DefaultRules(), user);
    UpdateGet(DefaultRules(), user, key);
    if user == [] {
      assert Update(DefaultRules(), user) == DefaultRules();
    }
  }

  /** The regex rules of a new categorizer: the user's, in their order, then the defaults. */
  lemma NewRegexRules(keywordRules: Option<seq<Entry>>, regexRules: Option<seq<Entry>>)
    ensures var rx := NewRuleCategorizer(keywordRules, regexRules).regexRules;
      var user := UserRegexes(regexRules);
      |rx| == |user| + |DefaultRegexRules|
      && (forall j :: 0 <= j < |user| ==> rx[j] == user[j])
      && (forall j :: 0 <= j < |DefaultRegexRules| ==> rx[|user| + j] == DefaultRegexRules[j])
  {
  }

  /** The text rules match: lower-cased "payee narration", then " raw_category" when there is one. */
  function MatchText(tx: Transaction): (text: string)
  {
    Lower(tx.payee + " " + tx.narration)
    + (if Truthy(tx.rawCategory) then Lower(" " + tx.rawCategory.value) else "")
  }

  /** Index of the first rule from `i` on whose lower-cased keyword occurs in `text`. */
  function KeywordHitFrom(rules: seq<Entry>, text: string, i: nat): (r: Option<nat>)
    requires i <= |rules|
    ensures r.Some? ==> i <= r.value < |rules| && Contains(text, Lower(rules[r.value].0))
    ensures r.Some? ==> forall j :: i <= j < r.value ==> !Contains(text, Lower(rules[j].0))
    ensures r.None? ==> forall j :: i <= j < |rules| ==> !Contains(text, Lower(rules[j].0))
    decreases |rules| - i
  {
    if i == |rules| then None
    else if Contains(text, Lower(rules[i].0)) then Some(i)
    else KeywordHitFrom(rules, text, i + 1)
  }

  function KeywordHit(rules: seq<Entry>, text: string): Option<nat>
  {
    KeywordHitFrom(rules, text, 0)
  }

  /** Index of the first regex rule from `i` on whose pattern is found in `text`. */
  function RegexHitFrom(rules: seq<Entry>, search: RegexSearch, text: string, i: nat): (r: Option<nat>)
    requires i <= |rules|
    ensures r.Some? ==> i <= r.value < |rules| && search(rules[r.value].0, text)
    ensures r.Some? ==> forall j :: i <= j < r.value ==> !search(rules[j].0, text)
    ensures r.None? ==> forall j :: i <= j < |rules| ==> !search(rules[j].0, text)
    decreases |rules| - i
  {
    if i == |rules| then None
    else if search(rules[i].0, text) then Some(i)
    else RegexHitFrom(rules, search, text, i + 1)
  }

  function RegexHit(rules: seq<Entry>, search: RegexSearch, text: string): Option<nat>
  {
    RegexHitFrom(rules, search, text, 0)
  }

  /** `RuleCategorizer.categorize`: the first keyword rule that matches, else the first regex rule. */
  function Categorize(rc: RuleCategorizer, search: RegexSearch, tx: Transaction): (r: Option<string>)
    ensures r.Some? ==>
      ((exists i :: 0 <= i < |rc.keywordRules| && r.value == rc.keywordRules[i].1)
       || (exists j :: 0 <= j < |rc.regexRules| && r.value == rc.regexRules[j].1))
  {
    var text := MatchText(tx);
    match KeywordHit(rc.keywordRules, text)
    case Some(i) => Some(rc.keywordRules[i].1)
    case None =>
      match RegexHit(rc.regexRules, search, text)
      case Some(j) => Some(rc.regexRules[j].1)
      case None => None
  }

  /** A keyword occurring in the text decides, whatever the regex rules say. */
  lemma KeywordDecides(rc: RuleCategorizer, search: RegexSearch, tx: Transaction, i: nat)
    requires i < |rc.keywordRules| && Contains(MatchText(tx), Lower(rc.keywordRules[i].0))
    requires forall j :: 0 <= j < i ==> !Contains(MatchText(tx), Lower(rc.keywordRules[j].0))
    ensures Categorize(rc, search, tx) == Some(rc.keywordRules[i].1)
  {
    var hit := KeywordHit(rc.keywordRules, MatchText(tx));
    assert hit.Some? && hit.value == i;
  }

  /**
   * When a keyword occurs, the account comes from that row or an earlier one whose keyword
   * also occurs; the regex rules are not consulted.
   */
  lemma EarlierKeywordWins(rc: RuleCategorizer, search: RegexSearch, tx: Transaction, i: nat)
    requires i < |rc.keywordRules| && Contains(MatchText(tx), Lower(rc.keywordRules[i].0))
    ensures var hit := KeywordHit(rc.keywordRules, MatchText(tx));
      hit.Some? && hit.value <= i
      && Contains(MatchText(tx), Lower(rc.keywordRules[hit.value].0))
      && Categorize(rc, search, tx) == Some(rc.keywordRules[hit.value].1)
  {
  }

  /** With no keyword in the text, the first regex rule found decides. */
  lemma RegexDecides(rc: RuleCategorizer, search: RegexSearch, tx: Transaction, j: nat)
    requires forall i :: 0 <= i < |rc.keywordRules| ==> !Contains(MatchText(tx), Lower(rc.keywordRules[i].0))
    requires j < |rc.regexRules| && search(rc.regexRules[j].0, MatchText(tx))
    requires forall k :: 0 <= k < j ==> !search(rc.regexRules[k].0, MatchText(tx))
    ensures Categorize(rc, search, tx) == Some(rc.regexRules[j].1)
  {
    var hit := RegexHit(rc.regexRules, search, MatchText(tx));
    assert hit.Some? && hit.value == j;
  }

  /** A transaction stays uncategorized exactly when no keyword occurs and no regex is found. */
  lemma UncategorizedIff(rc: RuleCategorizer, search: RegexSearch, tx: Transaction)
    ensures Categorize(rc, search, tx).None? <==>
      (forall i :: 0 <= i < |rc.keywordRules| ==> !Contains(MatchText(tx), Lower(rc.keywordRules[i].0)))
      && (forall j :: 0 <= j < |rc.regexRules| ==> !search(rc.regexRules[j].0, MatchText(tx)))
  {
  }

  /** Every account the categorizer gives is that of a rule that matched the text. */
  lemma CategorizeSound(rc: RuleCategorizer, search: RegexSearch, tx: Transaction)
    ensures Categorize(rc, search, tx).Some? ==>
      (exists i :: 0 <= i < |rc.keywordRules| && Contains(MatchText(tx), Lower(rc.keywordRules[i].0))
                   && Categorize(rc, search, tx).value == rc.keywordRules[i].1)
      || (exists j :: 0 <= j < |rc.regexRules| && search(rc.regexRules[j].0, MatchText(tx))
                      && Categorize(rc, search, tx).value == rc.regexRules[j].1)
  {
  }

  /**
   * Table order is precedence: when a keyword of an earlier section occurs, the row chosen
   * lies before every row of a later section, whatever keywords the user adds or overrides.
   */
  lemma SectionPrecedence(keywordRules: Option<seq<Entry>>, regexRules: Option<seq<Entry>>, tx: Transaction,
                          a: nat, k: nat, b: nat)
    requires DistinctKeys(UserKeywords(keywordRules))
    requires a < b < |RuleSections| && k < |RuleSections[a]|
    requires Contains(MatchText(tx), Lower(RuleSections[a][k].0))
    ensures var hit := KeywordHit(NewRuleCategorizer(keywordRules, regexRules).keywordRules, MatchText(tx));
      hit.Some? && hit.value < Offset(RuleSections, b)
  {
    var rc := NewRuleCategorizer(keywordRules, regexRules);
    NewKeywordRules(keywordRules, regexRules, "");
    FlattenAt(RuleSections, a, k);
    OffsetAfter(RuleSections, a, b);
    var i := Offset(RuleSections, a) + k;
    assert rc.keywordRules[i].0 == RuleSections[a][k].0;
    EarlierKeywordWins(rc, (p, t) => false, tx, i);
  }

  /** Row `m` of default section `s` keeps its keyword and its place in every new categorizer. */
  lemma DefaultRowKept(keywordRules: Option<seq<Entry>>, regexRules: Option<seq<Entry>>, s: nat, m: nat)
    requires DistinctKeys(UserKeywords(keywordRules))
    requires s < |RuleSections| && m < |RuleSections[s]|
    ensures var kw := NewRuleCategorizer(keywordRules, regexRules).keywordRules;
      Offset(RuleSections, s) + m < |kw| && kw[Offset(RuleSections, s) + m].0 == RuleSections[s][m].0
  {
    NewKeywordRules(keywordRules, regexRules, "");
    FlattenAt(RuleSections, s, m);
  }

  lemma ChargingRow()
    ensures RuleSections[ChargingSection][0].0 == "充电"
  {
  }

  lemma MeituanRows()
    ensures RuleSections[DeliverySection][0].0 == "美团外卖"
    ensures RuleSections[RestaurantSection][17].0 == "美团平台商户"
    ensures RuleSections[RestaurantSection][18].0 == "美团"
  {
  }

  /** A text naming a power-bank brand is never categorized by the generic "充电" row. */
  lemma PowerBankBeforeCharging(keywordRules: Option<seq<Entry>>, regexRules: Option<seq<Entry>>, tx: Transaction, k: nat)
    requires DistinctKeys(UserKeywords(keywordRules))
    requires k < |PowerBankRules| && Contains(MatchText(tx), PowerBankRules[k].0)
    ensures var kw := NewRuleCategorizer(keywordRules, regexRules).keywordRules;
      var charging := Offset(RuleSections, ChargingSection);
      var hit := KeywordHit(kw, MatchText(tx));
      charging < |kw| && kw[charging].0 == "充电" && hit.Some? && hit.value < charging
  {
    LowerNoUpper(PowerBankRules[k].0);
    SectionPrecedence(keywordRules, regexRules, tx, PowerBankSection, k, ChargingSection);
    DefaultRowKept(keywordRules, regexRules, ChargingSection, 0);
    ChargingRow();
  }

  /** "美团外卖" is tried before every restaurant row, the generic Meituan rows among them. */
  lemma DeliveryBeforeMeituan(keywordRules: Option<seq<Entry>>, regexRules: Option<seq<Entry>>, tx: Transaction)
    requires DistinctKeys(UserKeywords(keywordRules))
    requires Contains(MatchText(tx), "美团外卖")
    ensures var hit := KeywordHit(NewRuleCategorizer(keywordRules, regexRules).keywordRules, MatchText(tx));
      hit.Some? && hit.value < Offset(RuleSections, RestaurantSection)
  {
    MeituanRows();
    LowerNoUpper("美团外卖");
    SectionPrecedence(keywordRules, regexRules, tx, DeliverySection, 0, RestaurantSection);
  }

  /** The generic Meituan rows are restaurant rows 17 and 18, in every new categorizer. */
  lemma MeituanRowsKept(keywordRules: Option<seq<Entry>>, regexRules: Option<seq<Entry>>)
    requires DistinctKeys(UserKeywords(keywordRules))
    ensures var kw := NewRuleCategorizer(keywordRules, regexRules).keywordRules;
      var restaurants := Offset(RuleSections, RestaurantSection);
      restaurants + 18 < |kw| && kw[restaurants + 17].0 == "美团平台商户" && kw[restaurants + 18].0 == "美团"
  {
    MeituanRows();
    DefaultRowKept(keywordRules, regexRules, RestaurantSection, 17);
    DefaultRowKept(keywordRules, regexRules, RestaurantSection, 18);
  }

  /** A campus canteen or restaurant is categorized before any generic restaurant row is tried. */
  lemma CampusBeforeRestaurants(keywordRules: Option<seq<Entry>>, regexRules: Option<seq<Entry>>, tx: Transaction, k: nat)
    requires DistinctKeys(UserKeywords(keywordRules))
    requires k < |CampusRules| && Contains(MatchText(tx), CampusRules[k].0)
    ensures var hit := KeywordHit(NewRuleCategorizer(keywordRules, regexRules).keywordRules, MatchText(tx));
      hit.Some? && hit.value < Offset(RuleSections, RestaurantSection)
  {
    LowerNoUpper(CampusRules[k].0);
    SectionPrecedence(keywordRules, regexRules, tx, CampusSection, k, RestaurantSection);
  }
}
