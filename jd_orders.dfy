/**
 * The JD orders JSON export: the lookup of completed orders by merchant order number, and
 * the orders importer that turns every completed, paid order into one expense split
 * between the JD clearing account and the gift card.
 */
module JdOrders {
  import opened Wrappers
  import opened Numbers
  import opened Model
  import opened Json
  import Rows
  import Jd

  /** The status of a completed order; orders in any other status are skipped. */
  const CompletedStatus: string := "已完成"

  const TimeFormat: string := "%Y-%m-%d %H:%M:%S"

  const Payee: string := "京东平台商户"

  const JdClearing: string := "Assets:Clearing:JD"
  const GiftCard: string := "Assets:JD:GiftCard"

  /** The key of the gift card and redemption code share in `goods_total`. */
  const GiftCardKey: string := "礼品卡和领货码"

  const Zero: Json := Num(Dec(0, 0))

  /** `order.get("status") == "已完成"` on an object. */
  predicate IsCompleted(order: Json)
    requires order.Obj?
  {
    GetOr(order, "status", Null) == Str(CompletedStatus)
  }

  // `_load_jd_orders`.

  /** `order.get("parent_order_id") or order.get("order_id")`. */
  function OrderKey(order: Json): (r: Json)
    requires order.Obj?
    ensures AsBool(GetOr(order, "parent_order_id", Null)) ==> r == GetOr(order, "parent_order_id", Null)
  {
    var parent := GetOr(order, "parent_order_id", Null);
    if AsBool(parent) then parent else GetOr(order, "order_id", Null)
  }

  /**
   * `str(key)` for the keys an export holds: a string is itself, a number its decimal
   * text, a boolean `True` or `False`; a list or object has no text here.
   */
  function KeyText(key: Json): Option<string>
  {
    match key
    case Str(s) => Some(s)
    case Num(d) => Some(Render(d))
    case Bool(b) => Some(if b then "True" else "False")
    case _ => None
  }

  /** The key text a completed order is filed under, or `None` when it is filed nowhere. */
  function FiledUnder(order: Json): Option<string>
    requires order.Obj?
  {
    var key := OrderKey(order);
    if IsCompleted(order) && AsBool(key) then KeyText(key) else None
  }

  /**
   * The lookup loop as a value: every completed order with a truthy key appended to its
   * key's list, in order; `None` where Python raises (an order that is not an object, or
   * a key the model cannot print).
   */
  function Lookup(orders: seq<Json>): (r: Option<map<string, seq<Json>>>)
    ensures r.Some? ==> forall k :: k in r.value ==> r.value[k] != []
    ensures r.Some? ==> forall k, o :: k in r.value && o in r.value[k] ==> o in orders && o.Obj? && IsCompleted(o)
  {
    if orders == [] then Some(map[])
    else
      var n := |orders| - 1;
      var order := orders[n];
      assert forall o :: o in orders[..n] ==> o in orders;
      match Lookup(orders[..n])
      case None => None
      case Some(lookup) =>
        if !order.Obj? then None
        else if !IsCompleted(order) || !AsBool(OrderKey(order)) then Some(lookup)
        else
          match KeyText(OrderKey(order))
          case None => None
          case Some(k) => Some(lookup[k := (if k in lookup then lookup[k] else []) + [order]])
  }

  /** One more order: the lookup of a prefix extended by the next order. */
  lemma LookupStep(orders: seq<Json>, i: nat)
    requires i < |orders|
    ensures var order := orders[i];
      Lookup(orders[..i + 1])
      == match Lookup(orders[..i])
         case None => None
         case Some(lookup) =>
           if !order.Obj? then None
           else if !IsCompleted(order) || !AsBool(OrderKey(order)) then Some(lookup)
           else if KeyText(OrderKey(order)).None? then None
           else
             var k := KeyText(OrderKey(order)).value;
             Some(lookup[k := (if k in lookup then lookup[k] else []) + [order]])
  {
    assert orders[..i + 1][..i] == orders[..i];
  }

  /** Once a prefix of the orders fails, the whole lookup fails. */
  lemma {:induction false} LookupNoneStays(orders: seq<Json>, k: nat)
    requires k <= |orders| && Lookup(orders[..k]).None?
    ensures Lookup(orders).None?
    decreases |orders| - k
  {
    if k < |orders| {
      LookupStep(orders, k);
      LookupNoneStays(orders, k + 1);
    } else {
      assert orders[..k] == orders;
    }
  }

  /** `_load_jd_orders` on the decoded file. */
  method LoadOrders(data: Json) returns (r: Option<map<string, seq<Json>>>)
    ensures !data.Obj? ==> r.None?
    ensures data.Obj? && Elements(GetOr(data, "orders", Arr([]))).None? ==> r.None?
    ensures data.Obj? && Elements(GetOr(data, "orders", Arr([]))).Some? ==>
      r == Lookup(Elements(GetOr(data, "orders", Arr([]))).value)
  {
    if !data.Obj? {
      return None;
    }
    var elements := Elements(GetOr(data, "orders", Arr([])));
    if elements.None? {
      return None;
    }
    var orders := elements.value;
    var lookup: map<string, seq<Json>> := map[];
    for i := 0 to |orders|
      invariant Lookup(orders[..i]) == Some(lookup)
    {
      var order := orders[i];
      LookupStep(orders, i);
      if !order.Obj? {
        LookupNoneStays(orders, i + 1);
        return None;
      }
      if IsCompleted(order) {
        var key := OrderKey(order);
        if AsBool(key) {
          var text := KeyText(key);
          if text.None? {
            LookupNoneStays(orders, i + 1);
            return None;
          }
          var k := text.value;
          var filed := if k in lookup then lookup[k] else [];
          lookup := lookup[k := filed + [order]];
        }
      }
    }
    assert orders[..|orders|] == orders;
    r := Some(lookup);
  }

  /** Everything the lookup files under a key is a completed order with that key. */
  lemma {:induction false} LookupSound(orders: seq<Json>, k: string, j: nat)
    requires Lookup(orders).Some? && k in Lookup(orders).value && j < |Lookup(orders).value[k]|
    ensures var order := Lookup(orders).value[k][j];
      order in orders && order.Obj? && FiledUnder(order) == Some(k)
  {
    var n := |orders| - 1;
    var order := orders[n];
    var front := Lookup(orders[..n]).value;
    if order.Obj? && FiledUnder(order) == Some(k) {
      var list := if k in front then front[k] else [];
      assert Lookup(orders).value[k] == list + [order];
      if j < |list| {
        LookupSound(orders[..n], k, j);
      }
    } else {
      assert Lookup(orders).value == front || FiledUnder(order) != Some(k);
      LookupSound(orders[..n], k, j);
    }
  }

  /** Every completed order with a key is filed under that key. */
  lemma {:induction false} LookupComplete(orders: seq<Json>, i: nat)
    requires Lookup(orders).Some? && i < |orders|
    requires orders[i].Obj? && FiledUnder(orders[i]).Some?
    ensures var k := FiledUnder(orders[i]).value;
      k in Lookup(orders).value && orders[i] in Lookup(orders).value[k]
  {
    var n := |orders| - 1;
    var order := orders[n];
    var front := Lookup(orders[..n]).value;
    if i < n {
      assert orders[..n][i] == orders[i];
      LookupComplete(orders[..n], i);
      var k := FiledUnder(orders[i]).value;
      if order.Obj? && FiledUnder(order).Some? {
        var k2 := FiledUnder(order).value;
        if k2 == k {
          assert Lookup(orders).value[k] == front[k] + [order];
        }
      }
    }
  }

  // `JdOrdersImporter.extract`.

  /**
   * One entry of an order's item list: `None` where Python raises (not an object, a price
   * `Decimal` rejects, a name that is not a string, a quantity that is not a whole number),
   * `Some(None)` for a zero-price item, which is dropped.
   */
  function OrderItem(item: Json): (r: Option<Option<Item>>)
    ensures r.Some? && r.value.Some? ==> (r.value.value.price.Value() != 0.0
      && StrOf(Member(item, "name")) == Some(r.value.value.name)
      && r.value.value.category == Jd.Categorize(r.value.value.name))
  {
    if !item.Obj? then None
    else
      match DecimalOf(Some(GetOr(item, "price", Zero)))
      case None => None
      case Some(price) =>
        if price.Value() == 0.0 then Some(None)
        else
          match (StrOf(Member(item, "name")), WholeNumber(Member(item, "quantity")))
          case (Some(name), Some(num)) => Some(Some(Item(name, num, price, Jd.Categorize(name))))
          case _ => None
  }

  /** The item loop as a value: the non-zero-price items, in order. */
  function KeptItems(items: seq<Json>): (r: Option<seq<Item>>)
    ensures r.Some? ==> |r.value| <= |items|
  {
    Gather(items, OrderItem)
  }

  /**
   * The items kept are exactly the converted items of non-zero price: each of them comes
   * from an entry of the list and has a non-zero price, and every entry converts, its item
   * kept unless its price is zero.
   */
  lemma KeptItemsExact(items: seq<Json>)
    requires KeptItems(items).Some?
    ensures forall j :: 0 <= j < |KeptItems(items).value| ==>
      (KeptItems(items).value[j].price.Value() != 0.0
       && exists i :: 0 <= i < |items| && OrderItem(items[i]) == Some(Some(KeptItems(items).value[j])))
    ensures forall i :: 0 <= i < |items| ==>
      (OrderItem(items[i]).Some?
       && (OrderItem(items[i]).value.Some? ==> OrderItem(items[i]).value.value in KeptItems(items).value))
  {
    forall j | 0 <= j < |KeptItems(items).value|
      ensures exists i :: 0 <= i < |items| && OrderItem(items[i]) == Some(Some(KeptItems(items).value[j]))
    {
      GatherFromElements(items, OrderItem, j);
    }
    forall i | 0 <= i < |items|
      ensures OrderItem(items[i]).Some?
        && (OrderItem(items[i]).value.Some? ==> OrderItem(items[i]).value.value in KeptItems(items).value)
    {
      GatherKeepsAll(items, OrderItem, i);
    }
  }

  /** The item loop of `JdOrdersImporter.extract`. */
  method CollectItems(items: seq<Json>) returns (r: Option<seq<Item>>)
    ensures r == KeptItems(items)
  {
    var kept: seq<Item> := [];
    for i := 0 to |items|
      invariant Gather(items[..i], OrderItem) == Some(kept)
    {
      GatherStep(items, i, OrderItem);
      var item := OrderItem(items[i]);
      if item.None? {
        GatherNoneStays(items, i + 1, OrderItem);
        return None;
      }
      if item.value.Some? {
        kept := kept + [item.value.value];
      }
    }
    assert items[..|items|] == items;
    r := Some(kept);
  }

  /** What a paid order contributes to its transaction. */
  datatype Purchase = Purchase(cash: Dec, gift: Dec, items: seq<Item>, date: int, orderId: Option<string>)

  /**
   * The cash paid and the gift card share (its magnitude) of a completed order: `None`
   * where Python raises, `Some(None)` for an order skipped before its items are read (not
   * completed, or nothing paid at all).
   */
  function Totals(order: Json): (r: Option<Option<(Dec, Dec)>>)
    ensures r.Some? && r.value.Some? ==> (order.Obj? && IsCompleted(order)
      && r.value.value.0.Value() + r.value.value.1.Value() != 0.0 && r.value.value.1.coef >= 0)
  {
    if !order.Obj? then None
    else if !IsCompleted(order) then Some(None)
    else
      var goods := GetOr(order, "goods_total", Obj(map[]));
      if !goods.Obj? then None
      else
        match (DecimalOf(Some(GetOr(order, "amount", Zero))), DecimalOf(Some(GetOr(goods, GiftCardKey, Zero))))
        case (Some(cash), Some(g)) =>
          var gift := AbsDec(g);
          if cash.Value() + gift.Value() == 0.0 then Some(None) else Some(Some((cash, gift)))
        case _ => None
  }

  /** `order.get("pay_time") or order.get("order_time")`, which `strptime` needs as text. */
  function PayTime(order: Json): Option<string>
    requires order.Obj?
  {
    var payTime := GetOr(order, "pay_time", Null);
    var time := if AsBool(payTime) then payTime else GetOr(order, "order_time", Null);
    if time.Str? then Some(time.s) else None
  }

  /**
   * The rest of an order once its totals and items are known: skipped when no item is
   * left, otherwise its time, which must parse.
   */
  function Finish(order: Json, totals: (Dec, Dec), items: seq<Item>, strptime: Rows.Strptime)
    : (r: Option<Option<Purchase>>)
    requires order.Obj?
    ensures r.Some? && r.value.Some? ==> r.value.value.items == items != []
  {
    if items == [] then Some(None)
    else
      match PayTime(order)
      case None => None
      case Some(time) =>
        match strptime(time, TimeFormat)
        case None => None
        case Some(date) =>
          Some(Some(Purchase(totals.0, totals.1, items, date, StrOf(Member(order, "order_id")))))
  }

  /** The per-order reads of `JdOrdersImporter.extract` as a value. */
  function ReadPurchase(order: Json, strptime: Rows.Strptime): (r: Option<Option<Purchase>>)
    ensures r.Some? && r.value.Some? ==> r.value.value.items != []
  {
    match Totals(order)
    case None => None
    case Some(None) => Some(None)
    case Some(Some(totals)) =>
      match Elements(GetOr(order, "items", Arr([])))
      case None => None
      case Some(list) =>
        match KeptItems(list)
        case None => None
        case Some(items) => Finish(order, totals, items, strptime)
  }

  /** The per-order reads of `JdOrdersImporter.extract`, with the item loop. */
  method ReadOrder(order: Json, strptime: Rows.Strptime) returns (r: Option<Option<Purchase>>)
    ensures r == ReadPurchase(order, strptime)
  {
    var totals := Totals(order);
    if totals.None? {
      return None;
    }
    if totals.value.None? {
      return Some(None);
    }
    var list := Elements(GetOr(order, "items", Arr([])));
    if list.None? {
      return None;
    }
    var items := CollectItems(list.value);
    if items.None? {
      return None;
    }
    r := Finish(order, totals.value.value, items.value, strptime);
  }

  /** `"{first}等{n}件"` for several items, the item's own name for one. */
  function Narration(items: seq<Item>): (r: string)
    requires items != []
  {
    if |items| == 1 then items[0].name
    else items[0].name + "等" + NatToString(|items|) + "件"
  }

  /** The expense of a paid order. */
  function PurchaseTransaction(p: Purchase, currency: string): (tx: Transaction)
    requires p.items != []
    ensures tx.txType == Some(Expense) && tx.metadata.jdItems == p.items
  {
    var paidInCash := p.cash.Value() > 0.0;
    Transaction(
      date := p.date,
      amount := if paidInCash then -p.cash.Value() else -p.gift.Value(),
      currency := currency,
      payee := Payee,
      narration := Narration(p.items),
      sourceAccount := if paidInCash then JdClearing else GiftCard,
      counterAccount := None,
      paymentMethod := None,
      referenceId := p.orderId,
      counterpartRef := None,
      rawCategory := None,
      txType := Some(Expense),
      metadata := EmptyMeta.(jdItems := p.items,
                             jdGiftCard := if p.gift.Value() > 0.0 && paidInCash then Some(p.gift) else None))
  }

  /**
   * The payment split: an order with a cash part comes out of the JD clearing account by
   * the cash amount, with the gift card share recorded when there is one; an order paid
   * without cash comes out of the gift card by its share.
   */
  lemma PaymentSplit(p: Purchase, currency: string)
    requires p.items != []
    ensures var tx := PurchaseTransaction(p, currency);
      (p.cash.Value() > 0.0 ==> tx.sourceAccount == JdClearing && tx.amount == -p.cash.Value())
      && (p.cash.Value() <= 0.0 ==> tx.sourceAccount == GiftCard && tx.amount == -p.gift.Value())
      && (tx.metadata.jdGiftCard.Some? <==> p.gift.Value() > 0.0 && p.cash.Value() > 0.0)
      && (tx.metadata.jdGiftCard.Some? ==> tx.metadata.jdGiftCard.value == p.gift)
  {
  }

  /**
   * What the ledger writer spreads over the item categories (minus the amount, plus the
   * recorded gift card share) is the order's whole cost whenever the cash part is not
   * negative.
   */
  lemma WriterTotalIsOrderCost(p: Purchase, currency: string)
    requires p.items != [] && p.cash.Value() >= 0.0 && p.gift.coef >= 0
    ensures var tx := PurchaseTransaction(p, currency);
      var recorded := if tx.metadata.jdGiftCard.Some? then tx.metadata.jdGiftCard.value.Value() else 0.0;
      -tx.amount + recorded == p.cash.Value() + p.gift.Value()
  {
    ValueIsQuotient(p.gift);
    assert p.gift.Value() >= 0.0;
  }

  /** The narration names the first item, and the item count when there are several. */
  lemma NarrationNamesFirstItem(items: seq<Item>)
    requires items != []
    ensures |items| == 1 ==> Narration(items) == items[0].name
    ensures |items| > 1 ==> items[0].name <= Narration(items)
    ensures |items| > 1 ==> DigitsValue(Narration(items)[|items[0].name| + 1..|Narration(items)| - 1]) == |items|
  {
    if |items| > 1 {
      var count := NatToString(|items|);
      var r := Narration(items);
      assert r == items[0].name + "等" + count + "件";
      assert r[|items[0].name| + 1..|r| - 1] == count;
    }
  }

  /**
   * Orders the importer skips: anything not completed, an order with nothing paid in
   * cash or gift card, and an order whose items all have zero price.
   */
  lemma SkippedOrders(order: Json, strptime: Rows.Strptime)
    requires order.Obj?
    ensures !IsCompleted(order) ==> ReadPurchase(order, strptime) == Some(None)
    ensures Totals(order).Some? && Totals(order).value.Some?
      && Elements(GetOr(order, "items", Arr([]))).Some?
      && KeptItems(Elements(GetOr(order, "items", Arr([]))).value) == Some([])
      ==> ReadPurchase(order, strptime) == Some(None)
  {
  }

  /** The order converter: `None` where Python raises, `Some(None)` for a skipped order. */
  function OrderOutcome(currency: string, strptime: Rows.Strptime): Json -> Option<Option<Transaction>>
  {
    order =>
      match ReadPurchase(order, strptime)
      case None => None
      case Some(None) => Some(None)
      case Some(Some(p)) => Some(Some(PurchaseTransaction(p, currency)))
  }

  /** The order loop as a value: the outcomes of the orders, skipped ones left out. */
  function ExtractOrders(orders: seq<Json>, currency: string, strptime: Rows.Strptime)
    : (r: Option<seq<Transaction>>)
    ensures r.Some? ==> |r.value| <= |orders|
  {
    Gather(orders, OrderOutcome(currency, strptime))
  }

  /**
   * Every transaction the importer produces is an expense of a completed order with
   * items, coming out of the JD clearing account or the gift card.
   */
  lemma ExtractedAreExpenses(orders: seq<Json>, currency: string, strptime: Rows.Strptime, j: nat)
    requires ExtractOrders(orders, currency, strptime).Some?
    requires j < |ExtractOrders(orders, currency, strptime).value|
    ensures var tx := ExtractOrders(orders, currency, strptime).value[j];
      tx.txType == Some(Expense) && tx.payee == Payee && tx.metadata.jdItems != []
      && tx.sourceAccount in {JdClearing, GiftCard}
      && exists i :: 0 <= i < |orders| && orders[i].Obj? && IsCompleted(orders[i])
  {
    var f := OrderOutcome(currency, strptime);
    GatherFromElements(orders, f, j);
    var i :| 0 <= i < |orders| && f(orders[i]) == Some(Some(ExtractOrders(orders, currency, strptime).value[j]));
    var p := ReadPurchase(orders[i], strptime).value.value;
    PaymentSplit(p, currency);
  }

  /**
   * Nothing paid is lost: when the extraction succeeds, every completed order with a
   * non-zero total and at least one priced item yields a transaction.
   */
  lemma PaidOrdersExtracted(orders: seq<Json>, currency: string, strptime: Rows.Strptime, i: nat)
    requires ExtractOrders(orders, currency, strptime).Some? && i < |orders|
    requires ReadPurchase(orders[i], strptime).Some? && ReadPurchase(orders[i], strptime).value.Some?
    ensures PurchaseTransaction(ReadPurchase(orders[i], strptime).value.value, currency)
      in ExtractOrders(orders, currency, strptime).value
  {
    GatherKeepsAll(orders, OrderOutcome(currency, strptime), i);
  }

  /** `JdOrdersImporter.extract` on the decoded file. */
  method Extract(data: Json, currency: string, strptime: Rows.Strptime)
    returns (r: Option<seq<Transaction>>)
    ensures !data.Obj? ==> r.None?
    ensures data.Obj? && Elements(GetOr(data, "orders", Arr([]))).None? ==> r.None?
    ensures data.Obj? && Elements(GetOr(data, "orders", Arr([]))).Some? ==>
      r == ExtractOrders(Elements(GetOr(data, "orders", Arr([]))).value, currency, strptime)
  {
    if !data.Obj? {
      return None;
    }
    var elements := Elements(GetOr(data, "orders", Arr([])));
    if elements.None? {
      return None;
    }
    var orders := elements.value;
    var f := OrderOutcome(currency, strptime);
    var transactions: seq<Transaction> := [];
    for i := 0 to |orders|
      invariant Gather(orders[..i], f) == Some(transactions)
    {
      GatherStep(orders, i, f);
      var purchase := ReadOrder(orders[i], strptime);
      if purchase.None? {
        GatherNoneStays(orders, i + 1, f);
        return None;
      }
      if purchase.value.Some? {
        transactions := transactions + [PurchaseTransaction(purchase.value.value, currency)];
      }
    }
    assert orders[..|orders|] == orders;
    r := Some(transactions);
  }

  /**
   * `JdOrdersImporter.identify` on the file's suffix and its decoded JSON (`None` when it
   * does not decode): a non-empty `orders` list whose first order has `order_id` and
   * `goods_total`.
   */
  function Identify(suffix: string, data: Option<Json>): (b: bool)
    ensures b ==> data.Some? && data.value.Obj? && "orders" in data.value.fields
  {
    Rows.HasExtension(suffix, ".json") && data.Some? && data.value.Obj?
    && var orders := GetOr(data.value, "orders", Arr([]));
       orders.Arr? && orders.items != [] && orders.items[0].Obj?
       && "order_id" in orders.items[0].fields && "goods_total" in orders.items[0].fields
  }
}
