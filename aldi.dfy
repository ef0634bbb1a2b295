/**
 * The ALDI JSON order importer: every completed order of the export becomes one expense
 * on the ALDI clearing account, with its products categorized by keyword, its sales
 * channel and its promotion discount as metadata.
 */
module Aldi {
  import opened Wrappers
  import opened Text
  import opened Numbers
  import opened Model
  import opened Tables
  import opened Json
  import Rows

  /** The product keyword groups, in the order the categorizer tries them. */
  const ItemCategories: seq<Group> := [
    (["烤鸡腿", "烤猪肘", "炸鱼", "关东煮", "芝士牛肉卷"], "Expenses:Food:Restaurant"),
    (["牙膏", "漱口水", "护手霜", "唇膏", "洗手液", "洁面乳", "蓬松喷雾", "卫生巾", "夜安裤",
      "迷你卫生巾"], "Expenses:Shopping:DailyGoods"),
    (["湿巾", "蒸笼纸", "酒精"], "Expenses:Shopping:DailyGoods"),
    (["拖鞋"], "Expenses:Shopping:Clothing"),
    (["蓝莓", "草莓", "番茄", "香蕉", "芒果", "柠檬", "菠菜", "白菜", "香菇", "金针菇", "蘑菇",
      "蒜头", "小米椒", "香菜", "玉米", "牛心菜", "娃娃菜", "鸡枞菌", "蟹味菇", "白玉菇"],
     "Expenses:Food:Grocery"),
    (["牛奶", "酸奶", "豆浆", "干酪", "鸡蛋", "椰汁"], "Expenses:Food:Grocery"),
    (["鸡腿", "鸡胸", "鸡大胸", "牛肉", "猪肘", "鱼", "水饺", "黑鱼"], "Expenses:Food:Grocery"),
    (["面包", "法棍", "贝果", "吐司", "乳酪包", "六谷面包"], "Expenses:Food:Grocery"),
    (["板栗", "瓜子", "锅巴", "枣", "糖葫芦", "汤圆", "酸辣粉", "火锅底料", "芝麻香油", "椰子水",
      "纯净水"], "Expenses:Food:Grocery")
  ]

  const DefaultCategory: string := "Expenses:Food:Grocery"

  const Restaurant: string := "Expenses:Food:Restaurant"

  const Payee: string := "ALDI奥乐齐"

  const TimeFormat: string := "%Y-%m-%d %H:%M"

  /** The status of a completed order; orders in any other status are skipped. */
  const CompletedStatus: string := "已完成"

  /** `AldiItemCategorizer.categorize`: the first group with a keyword in the name. */
  function Categorize(itemName: string): (r: string)
    ensures r == DefaultCategory || exists i :: 0 <= i < |ItemCategories| && r == ItemCategories[i].1
  {
    Classify(ItemCategories, itemName, DefaultCategory)
  }

  /**
   * Ready-to-eat food is tried first: a roast chicken leg (`烤鸡腿`) is a restaurant meal
   * although its name contains the raw chicken leg (`鸡腿`) of the grocery groups.
   */
  lemma RoastChickenLegIsRestaurant(rest: string)
    ensures Categorize("烤鸡腿" + rest) == Restaurant
  {
    var name := "烤鸡腿" + rest;
    assert "烤鸡腿" <= name;
    assert Contains(name, ItemCategories[0].0[0]);
    FirstGroupIs(ItemCategories, name, 0);
  }

  /**
   * `"ALDI" in store or "奥乐齐" in store` on whatever JSON value the store is: a substring
   * of a string, an element of a list, a key of an object; for other values Python raises
   * and identification answers no.
   */
  predicate NamesAldi(store: Json)
  {
    match store
    case Str(s) => Contains(s, "ALDI") || Contains(s, "奥乐齐")
    case Arr(items) => Str("ALDI") in items || Str("奥乐齐") in items
    case Obj(fields) => "ALDI" in fields || "奥乐齐" in fields
    case _ => false
  }

  /**
   * `AldiImporter.identify` on the file's suffix and its decoded JSON (`None` when it does
   * not decode): a non-empty `orders` list whose first order has an order code and a
   * store naming ALDI.
   */
  function Identify(suffix: string, data: Option<Json>): (b: bool)
    ensures b ==> data.Some? && data.value.Obj? && "orders" in data.value.fields
  {
    Rows.HasExtension(suffix, ".json") && data.Some? && Member(data.value, "orders").Some?
    && var orders := Member(data.value, "orders").value;
       orders.Arr? && orders.items != [] && orders.items[0].Obj?
       && "orderCode" in orders.items[0].fields && "store" in orders.items[0].fields
       && NamesAldi(orders.items[0].fields["store"])
  }

  /** Only the first order is inspected: what follows it never changes the answer. */
  lemma IdentifyReadsFirstOrder(suffix: string, data: map<string, Json>, first: Json, rest: seq<Json>)
    requires "orders" in data && data["orders"] == Arr([first] + rest)
    ensures Identify(suffix, Some(Obj(data))) == Identify(suffix, Some(Obj(data["orders" := Arr([first])])))
  {
  }

  /** A string store is recognised exactly when it contains `ALDI` or `奥乐齐`. */
  lemma IdentifyStoreText(suffix: string, code: Json, store: string)
    requires Rows.HasExtension(suffix, ".json")
    ensures var order := Obj(map["orderCode" := code, "store" := Str(store)]);
      Identify(suffix, Some(Obj(map["orders" := Arr([order])])))
      <==> Contains(store, "ALDI") || Contains(store, "奥乐齐")
  {
    var order := Obj(map["orderCode" := code, "store" := Str(store)]);
    assert order.fields["store"] == Str(store);
  }

  /**
   * One product of an order; `None` where Python raises or where the model cannot keep the
   * value (a name that is not a string, a count that `int()` does not accept, a price that
   * is not a decimal). The count is kept as the ledger writer reads it, through `int()`.
   */
  function ProductItem(product: Json): (r: Option<Item>)
    ensures r.Some? ==> (StrOf(Member(product, "name")) == Some(r.value.name)
      && IntOf(Member(product, "num")) == Some(r.value.num)
      && DecimalOf(Member(product, "price")) == Some(r.value.price)
      && r.value.category == Categorize(r.value.name))
  {
    match (StrOf(Member(product, "name")), IntOf(Member(product, "num")),
           DecimalOf(Member(product, "price")))
    case (Some(name), Some(num), Some(price)) => Some(Item(name, num, price, Categorize(name)))
    case _ => None
  }

  /** The product loop of `_order_to_transaction`: every product categorized, in order. */
  method CategorizeProducts(products: seq<Json>) returns (r: Option<seq<Item>>)
    ensures r == ConvertAll(products, ProductItem)
  {
    var items: seq<Item> := [];
    for i := 0 to |products|
      invariant ConvertAll(products[..i], ProductItem) == Some(items)
    {
      match ProductItem(products[i])
      case None =>
        ConvertAllSucceeds(products, ProductItem);
        return None;
      case Some(item) =>
        assert products[..i + 1][..i] == products[..i];
        items := items + [item];
    }
    assert products[..|products|] == products;
    r := Some(items);
  }

  /** `order["products"]`, which must be a list. */
  function Products(order: Json): Option<seq<Json>>
  {
    match Member(order, "products")
    case Some(Arr(products)) => Some(products)
    case _ => None
  }

  /** What an order contributes to its transaction besides its products. */
  datatype Details = Details(code: string, store: string, channel: Option<string>,
                             discount: Option<Dec>, date: int, payment: Dec)

  /**
   * The reads of `_order_to_transaction` besides the products: a non-empty channel, a
   * non-zero promotion amount (absent counts as zero), the date and time read together,
   * the payment amount, the store and the order code; `None` where Python raises.
   */
  function ReadDetails(order: Json, strptime: Rows.Strptime): (r: Option<Details>)
    ensures r.Some? ==> (order.Obj? && StrOf(Member(order, "orderCode")) == Some(r.value.code)
      && StrOf(Member(order, "store")) == Some(r.value.store)
      && DecimalOf(Member(order, "paymentAmount")) == Some(r.value.payment))
    ensures r.Some? ==> (r.value.channel.Some? <==> (StrOf(Member(order, "channel")).Some?
      && StrOf(Member(order, "channel")).value != ""))
    ensures r.Some? ==> (DecimalOf(Some(GetOr(order, "promotionAmount", Num(Dec(0, 0))))).Some?
      && var promotion := DecimalOf(Some(GetOr(order, "promotionAmount", Num(Dec(0, 0))))).value;
         r.value.discount == if promotion.coef != 0 then Some(promotion) else None)
  {
    if !order.Obj? then None
    else
      var channel := match StrOf(Member(order, "channel"))
        case Some(c) => if c != "" then Some(c) else None
        case None => None;
      match (DecimalOf(Some(GetOr(order, "promotionAmount", Num(Dec(0, 0))))),
             StrOf(Member(order, "date")), StrOf(Member(order, "time")),
             DecimalOf(Member(order, "paymentAmount")),
             StrOf(Member(order, "store")), StrOf(Member(order, "orderCode")))
      case (Some(promotion), Some(day), Some(time), Some(payment), Some(store), Some(code)) =>
        (match strptime(day + " " + time, TimeFormat)
         case Some(date) =>
           Some(Details(code, store, channel, if promotion.coef != 0 then Some(promotion) else None,
                        date, payment))
         case None => None)
      case _ => None
  }

  /** The expense an order becomes, given its details and categorized products. */
  function OrderExpense(d: Details, items: seq<Item>, account: string, currency: string)
    : (tx: Transaction)
    ensures tx.amount == -d.payment.Value() && tx.txType == Some(Expense) && tx.sourceAccount == account
  {
    Transaction(
      date := d.date,
      amount := -d.payment.Value(),
      currency := currency,
      payee := Payee,
      narration := d.store,
      sourceAccount := account,
      counterAccount := None,
      paymentMethod := None,
      referenceId := Some(d.code),
      counterpartRef := None,
      rawCategory := None,
      txType := Some(Expense),
      metadata := EmptyMeta.(aldiItems := items, aldiChannel := d.channel, aldiDiscount := d.discount))
  }

  /** `AldiImporter._order_to_transaction` as a value; `None` where Python raises. */
  function OrderTransaction(order: Json, account: string, currency: string, strptime: Rows.Strptime)
    : (r: Option<Transaction>)
    ensures r.Some? ==> r.value.txType == Some(Expense) && r.value.sourceAccount == account
    ensures r.Some? ==> Products(order).Some? && |r.value.metadata.aldiItems| == |Products(order).value|
  {
    match (Products(order), ReadDetails(order, strptime))
    case (Some(products), Some(d)) =>
      (match ConvertAll(products, ProductItem)
       case Some(items) => Some(OrderExpense(d, items, account, currency))
       case None => None)
    case _ => None
  }

  /** `AldiImporter._order_to_transaction`: the product loop, then the order's details. */
  method ToTransaction(order: Json, account: string, currency: string, strptime: Rows.Strptime)
    returns (r: Option<Transaction>)
    ensures r == OrderTransaction(order, account, currency, strptime)
  {
    var products := Products(order);
    if products.None? {
      return None;
    }
    var items := CategorizeProducts(products.value);
    if items.None? {
      return None;
    }
    var details := ReadDetails(order, strptime);
    if details.None? {
      return None;
    }
    r := Some(OrderExpense(details.value, items.value, account, currency));
  }

  /**
   * Every order that converts: an expense of minus the payment amount with the order code
   * as reference and the store as narration, one categorized item per product, in order.
   */
  lemma OrderFields(order: Json, account: string, currency: string, strptime: Rows.Strptime, i: nat)
    requires OrderTransaction(order, account, currency, strptime).Some?
    requires Products(order).Some? ==> i < |Products(order).value|
    ensures var tx := OrderTransaction(order, account, currency, strptime).value;
      var products := Products(order).value;
      tx.amount == -DecimalOf(Member(order, "paymentAmount")).value.Value()
      && tx.txType == Some(Expense) && tx.payee == Payee && tx.sourceAccount == account
      && tx.referenceId == StrOf(Member(order, "orderCode"))
      && tx.narration == StrOf(Member(order, "store")).value
      && |tx.metadata.aldiItems| == |products|
      && ProductItem(products[i]) == Some(tx.metadata.aldiItems[i])
  {
    var products := Products(order).value;
    var d := ReadDetails(order, strptime).value;
    var items := ConvertAll(products, ProductItem).value;
    assert OrderTransaction(order, account, currency, strptime).value == OrderExpense(d, items, account, currency);
    ConvertAllInOrder(products, ProductItem, i);
  }

  /** `order.get("orderStatusName") == "已完成"` on an object. */
  predicate IsCompleted(order: Json)
    requires order.Obj?
  {
    GetOr(order, "orderStatusName", Null) == Str(CompletedStatus)
  }

  /** The order converter with the importer's configuration fixed. */
  function OrderConverter(account: string, currency: string, strptime: Rows.Strptime)
    : Json -> Option<Transaction>
  {
    order => OrderTransaction(order, account, currency, strptime)
  }

  /**
   * The order loop of `AldiImporter.extract` as a value, given the order converter:
   * completed orders converted in order, the others skipped; `None` where Python raises
   * (an order that is not an object, or a completed order that does not convert).
   */
  function ExtractOrders(orders: seq<Json>, convert: Json -> Option<Transaction>)
    : (r: Option<seq<Transaction>>)
    ensures r.Some? ==> |r.value| <= |orders|
  {
    if orders == [] then Some([])
    else
      var n := |orders| - 1;
      var order := orders[n];
      match ExtractOrders(orders[..n], convert)
      case None => None
      case Some(front) =>
        if !order.Obj? then None
        else if !IsCompleted(order) then Some(front)
        else
          match convert(order)
          case Some(tx) => Some(front + [tx])
          case None => None
  }

  /** The completed orders, in order (only defined when every order is an object). */
  function Completed(orders: seq<Json>): (r: seq<Json>)
    requires forall i :: 0 <= i < |orders| ==> orders[i].Obj?
    ensures |r| <= |orders|
    ensures forall j :: 0 <= j < |r| ==> r[j] in orders && r[j].Obj? && IsCompleted(r[j])
  {
    if orders == [] then []
    else
      var n := |orders| - 1;
      var front := Completed(orders[..n]);
      if IsCompleted(orders[n]) then front + [orders[n]] else front
  }

  /**
   * Extraction is the conversion of exactly the completed orders: when every order is an
   * object it succeeds when every completed one converts, and then yields their
   * transactions in the order of the export.
   */
  lemma {:induction false} ExtractConvertsCompleted(orders: seq<Json>, convert: Json -> Option<Transaction>)
    requires forall i :: 0 <= i < |orders| ==> orders[i].Obj?
    ensures ExtractOrders(orders, convert) == ConvertAll(Completed(orders), convert)
  {
    if orders != [] {
      var n := |orders| - 1;
      var front := orders[..n];
      assert forall i :: 0 <= i < n ==> front[i] == orders[i];
      ExtractConvertsCompleted(front, convert);
      var cs := Completed(front);
      if IsCompleted(orders[n]) {
        assert Completed(orders) == cs + [orders[n]];
        assert (cs + [orders[n]])[..|cs|] == cs;
        assert ConvertAll(cs + [orders[n]], convert)
          == match (ConvertAll(cs, convert), convert(orders[n]))
             case (Some(done), Some(last)) => Some(done + [last])
             case _ => None;
      } else {
        assert Completed(orders) == cs;
      }
    }
  }

  /** An order that is not an object makes the whole extraction fail. */
  lemma ExtractRejectsNonObject(orders: seq<Json>, i: nat, convert: Json -> Option<Transaction>)
    requires i < |orders| && !orders[i].Obj?
    ensures ExtractOrders(orders, convert).None?
  {
    assert orders[..i + 1][..i] == orders[..i];
    NoneStays(orders, i + 1, convert);
  }

  /** Every extracted ALDI transaction is an expense on the importer's account. */
  lemma ExtractedAreExpenses(orders: seq<Json>, account: string, currency: string,
                             strptime: Rows.Strptime, j: nat)
    requires ExtractOrders(orders, OrderConverter(account, currency, strptime)).Some?
    requires j < |ExtractOrders(orders, OrderConverter(account, currency, strptime)).value|
    ensures var tx := ExtractOrders(orders, OrderConverter(account, currency, strptime)).value[j];
      tx.txType == Some(Expense) && tx.sourceAccount == account && tx.payee == Payee
  {
    var convert := OrderConverter(account, currency, strptime);
    if exists i :: 0 <= i < |orders| && !orders[i].Obj? {
      var i :| 0 <= i < |orders| && !orders[i].Obj?;
      ExtractRejectsNonObject(orders, i, convert);
    } else {
      ExtractConvertsCompleted(orders, convert);
      var cs := Completed(orders);
      ConvertAllInOrder(cs, convert, j);
      var order := cs[j];
      var d := ReadDetails(order, strptime).value;
      var items := ConvertAll(Products(order).value, ProductItem).value;
      assert convert(order) == Some(OrderExpense(d, items, account, currency));
    }
  }

  /** `data["orders"]` as `extract` iterates it; `None` where Python raises. */
  function Orders(data: Json): Option<seq<Json>>
  {
    match Member(data, "orders")
    case Some(orders) => Elements(orders)
    case None => None
  }

  /** `AldiImporter.extract` on the decoded file. */
  method Extract(data: Json, account: string, currency: string, strptime: Rows.Strptime)
    returns (r: Option<seq<Transaction>>)
    ensures Orders(data).None? ==> r.None?
    ensures Orders(data).Some? ==>
      r == ExtractOrders(Orders(data).value, OrderConverter(account, currency, strptime))
  {
    if Orders(data).None? {
      return None;
    }
    var orders := Orders(data).value;
    var convert := OrderConverter(account, currency, strptime);
    var transactions: seq<Transaction> := [];
    for i := 0 to |orders|
      invariant ExtractOrders(orders[..i], convert) == Some(transactions)
    {
      var order := orders[i];
      ExtractStep(orders, i, convert);
      if !order.Obj? {
        NoneStays(orders, i + 1, convert);
        return None;
      }
      if IsCompleted(order) {
        var tx := ToTransaction(order, account, currency, strptime);
        if tx.None? {
          NoneStays(orders, i + 1, convert);
          return None;
        }
        transactions := transactions + [tx.value];
      }
    }
    assert orders[..|orders|] == orders;
    r := Some(transactions);
  }

  /** One more order: the extraction of a prefix extended by the next order. */
  lemma ExtractStep(orders: seq<Json>, i: nat, convert: Json -> Option<Transaction>)
    requires i < |orders|
    ensures var order := orders[i];
      ExtractOrders(orders[..i + 1], convert)
      == match ExtractOrders(orders[..i], convert)
         case None => None
         case Some(front) =>
           if !order.Obj? then None
           else if !IsCompleted(order) then Some(front)
           else if convert(order).None? then None
           else Some(front + [convert(order).value])
  {
    assert orders[..i + 1][..i] == orders[..i];
  }

  /** Once a prefix of the orders fails, the whole list fails. */
  lemma {:induction false} NoneStays(orders: seq<Json>, k: nat, convert: Json -> Option<Transaction>)
    requires k <= |orders| && ExtractOrders(orders[..k], convert).None?
    ensures ExtractOrders(orders, convert).None?
    decreases |orders| - k
  {
    if k < |orders| {
      assert orders[..k + 1][..k] == orders[..k];
      NoneStays(orders, k + 1, convert);
    } else {
      assert orders[..k] == orders;
    }
  }
}
