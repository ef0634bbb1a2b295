/**
 * The Costco JSON receipt importer: one receipt becomes one expense on the Costco
 * clearing account, with its items categorized by keyword and its merchant order number
 * cut out of the barcode for matching against the payment platforms.
 */
module Costco {
  import opened Wrappers
  import opened Text
  import opened Numbers
  import opened Model
  import opened Tables
  import opened Json
  import Rows

  /** The item keyword groups, in the order the categorizer tries them. */
  const ItemCategories: seq<Group> := [
    (["洗发", "沐浴", "牙膏", "纸巾", "卫生", "洗衣", "清洁", "厨房纸", "保鲜"],
     "Expenses:Shopping:DailyGoods"),
    (["服装", "衣", "裤", "鞋", "袜", "内衣", "外套", "帽"], "Expenses:Shopping:Clothing"),
    (["电子", "耳机", "充电", "数码", "电器", "手表"], "Expenses:Shopping:Electronics"),
    (["家具", "床", "椅", "桌", "收纳", "家居"], "Expenses:Shopping:Household"),
    (["牛肉", "猪肉", "鸡肉", "羊肉", "排骨", "五花", "三文鱼", "海鲜", "虾", "鱼",
      "蔬菜", "水果", "沙拉", "坚果", "零食", "饼干", "巧克力", "糖", "果汁", "饮料",
      "牛奶", "奶酪", "酸奶", "鸡蛋", "面包", "米", "面"], "Expenses:Food:Grocery")
  ]

  const DefaultCategory: string := "Expenses:Food:Grocery"

  const Payee: string := "Costco"

  const TimeFormat: string := "%Y-%m-%d %H:%M:%S"

  /** `CostcoItemCategorizer.categorize`: the first group with a keyword in the name. */
  function Categorize(itemName: string): (r: string)
    ensures r == DefaultCategory || exists i :: 0 <= i < |ItemCategories| && r == ItemCategories[i].1
  {
    Classify(ItemCategories, itemName, DefaultCategory)
  }

  /**
   * Table order decides: laundry goods (`洗衣`) are daily goods although `衣` (clothing)
   * occurs in the name too.
   */
  lemma LaundryIsDailyGoods(rest: string)
    ensures Categorize("洗衣" + rest) == "Expenses:Shopping:DailyGoods"
  {
    var name := "洗衣" + rest;
    assert "洗衣" <= name;
    assert Contains(name, ItemCategories[0].0[5]);
    FirstGroupIs(ItemCategories, name, 0);
  }

  /** A name with no keyword of any group falls back to groceries. */
  lemma UnknownItemIsGrocery(itemName: string)
    requires forall i, k :: 0 <= i < |ItemCategories| && 0 <= k < |ItemCategories[i].0| ==>
      !Contains(itemName, ItemCategories[i].0[k])
    ensures Categorize(itemName) == DefaultCategory
  {
    if FirstGroup(ItemCategories, itemName).Some? {
      assert false;
    }
  }

  /**
   * `CostcoImporter.identify` on the file's suffix and its decoded JSON (`None` when it
   * does not decode): top-level `code`, `data` and `success`, and `barcode`, `itemList`
   * and `actualPayment` inside `data`.
   */
  function Identify(suffix: string, data: Option<Json>): (b: bool)
    ensures b ==> (data.Some? && data.value.Obj? && "data" in data.value.fields
                   && data.value.fields["data"].Obj? && "itemList" in data.value.fields["data"].fields)
  {
    var keys := ["barcode", "itemList", "actualPayment"];
    assert keys[1] == "itemList";
    Rows.HasExtension(suffix, ".json") && data.Some?
    && HasKeys(data.value, ["code", "data", "success"])
    && Member(data.value, "data").Some?
    && HasKeys(Member(data.value, "data").value, keys)
  }

  /**
   * Identification asks for no key that reading the receipt does not need: a `.json` file
   * (in any letter case) with `code` and `success` whose `data` reads as a receipt is
   * identified.
   */
  lemma ReadableIdentified(suffix: string, file: Json, strptime: Rows.Strptime)
    requires Rows.HasExtension(suffix, ".json") && file.Obj?
    requires "code" in file.fields && "success" in file.fields && "data" in file.fields
    requires ReadReceipt(file.fields["data"], strptime).Some?
    ensures Identify(suffix, Some(file))
  {
    var data := file.fields["data"];
    assert Member(data, "barcode").Some? && Member(data, "itemList").Some?;
    assert Member(data, "actualPayment").Some?;
  }

  /** One entry of the receipt's item list; `None` where Python raises. */
  function DecodeItem(item: Json): (r: Option<Item>)
    ensures r.Some? ==> (StrOf(Member(item, "itemName")) == Some(r.value.name)
      && IntOf(Member(item, "amount")) == Some(r.value.num)
      && DecimalOf(Member(item, "unitPrice")) == Some(r.value.price)
      && r.value.category == Categorize(r.value.name))
  {
    match (StrOf(Member(item, "itemName")), IntOf(Member(item, "amount")),
           DecimalOf(Member(item, "unitPrice")))
    case (Some(name), Some(num), Some(price)) => Some(Item(name, num, price, Categorize(name)))
    case _ => None
  }

  /** The discount metadata: `|cashDiscount|` when the field is truthy. */
  function Discount(data: Json): Option<Option<Dec>>
    requires data.Obj?
  {
    var cash := GetOr(data, "cashDiscount", Null);
    if !AsBool(cash) then Some(None)
    else
      match DecimalOf(Some(cash))
      case Some(d) => Some(Some(AbsDec(d)))
      case None => None
  }

  /** What a receipt contributes to its transaction. */
  datatype Receipt = Receipt(barcode: string, items: seq<Item>, discount: Option<Dec>, date: int,
                             payment: Dec, warehouse: string)

  /**
   * The reads of `CostcoImporter._data_to_transaction` on the receipt's `data` object;
   * `None` where Python raises (a missing key, a value of the wrong kind, an unreadable
   * time or amount).
   */
  function ReadReceipt(data: Json, strptime: Rows.Strptime): (r: Option<Receipt>)
    ensures r.Some? ==> (data.Obj? && StrOf(Member(data, "barcode")) == Some(r.value.barcode)
      && DecimalOf(Member(data, "actualPayment")) == Some(r.value.payment))
    ensures r.Some? ==> (Member(data, "itemList").Some? && Member(data, "itemList").value.Arr?
      && ConvertAll(Member(data, "itemList").value.items, DecodeItem) == Some(r.value.items))
    ensures r.Some? ==> Discount(data) == Some(r.value.discount)
  {
    if !data.Obj? then None
    else
      match (StrOf(Member(data, "barcode")), Member(data, "itemList"), Discount(data),
             StrOf(Member(data, "transTime")), DecimalOf(Member(data, "actualPayment")),
             StrOf(Member(data, "warehouseName")))
      case (Some(barcode), Some(Arr(list)), Some(discount), Some(time), Some(payment), Some(warehouse)) =>
        (match (ConvertAll(list, DecodeItem), strptime(time, TimeFormat))
         case (Some(items), Some(date)) => Some(Receipt(barcode, items, discount, date, payment, warehouse))
         case _ => None)
      case _ => None
  }

  /** The expense a read receipt becomes. */
  function ReceiptTransaction(r: Receipt, account: string, currency: string): (tx: Transaction)
    ensures tx.amount == -r.payment.Value() && tx.txType == Some(Expense)
  {
    Transaction(
      date := r.date,
      amount := -r.payment.Value(),
      currency := currency,
      payee := Payee,
      narration := r.warehouse,
      sourceAccount := account,
      counterAccount := None,
      paymentMethod := None,
      referenceId := Some(r.barcode),
      counterpartRef := Some(Slice(r.barcode, 4, 14)),
      rawCategory := None,
      txType := Some(Expense),
      metadata := EmptyMeta.(costcoItems := r.items, costcoDiscount := r.discount))
  }

  /** `CostcoImporter._data_to_transaction`. */
  function DataToTransaction(data: Json, account: string, currency: string, strptime: Rows.Strptime)
    : (r: Option<Transaction>)
    ensures r.Some? ==> r.value.txType == Some(Expense) && r.value.sourceAccount == account
    ensures r.Some? ==> r.value.payee == Payee && r.value.counterAccount.None? && r.value.referenceId.Some?
  {
    match ReadReceipt(data, strptime)
    case Some(r) => Some(ReceiptTransaction(r, account, currency))
    case None => None
  }

  /**
   * The discount is the magnitude of the cash discount, present exactly when that field
   * is truthy.
   */
  lemma DiscountMagnitude(data: Json)
    requires data.Obj? && Discount(data).Some?
    ensures Discount(data).value.Some? <==> AsBool(GetOr(data, "cashDiscount", Null))
    ensures Discount(data).value.Some? ==> (Discount(data).value.value.coef >= 0
      && Discount(data).value.value.Value() == Abs(DecimalOf(Some(GetOr(data, "cashDiscount", Null))).value.Value()))
  {
    var cash := GetOr(data, "cashDiscount", Null);
    if AsBool(cash) {
      AbsDecValue(DecimalOf(Some(cash)).value);
    }
  }

  /**
   * Every receipt that converts: an expense of minus the actual payment, the whole barcode
   * as reference and its characters 4 to 13 (the merchant order number) as counterpart
   * reference, one categorized item per listed item.
   */
  lemma ReceiptFields(data: Json, account: string, currency: string, strptime: Rows.Strptime)
    requires DataToTransaction(data, account, currency, strptime).Some?
    ensures var tx := DataToTransaction(data, account, currency, strptime).value;
      var barcode := StrOf(Member(data, "barcode")).value;
      tx.amount == -DecimalOf(Member(data, "actualPayment")).value.Value()
      && tx.txType == Some(Expense) && tx.payee == Payee && tx.sourceAccount == account
      && tx.referenceId == Some(barcode)
      && tx.counterpartRef == Some(Slice(barcode, 4, 14))
      && (|barcode| >= 14 ==> tx.counterpartRef == Some(barcode[4..14]))
      && |tx.metadata.costcoItems| == |Member(data, "itemList").value.items|
      && Some(tx.metadata.costcoDiscount) == Discount(data)
  {
    var r := ReadReceipt(data, strptime).value;
    assert DataToTransaction(data, account, currency, strptime).value == ReceiptTransaction(r, account, currency);
  }

  /**
   * `CostcoImporter.extract` on the decoded file: no transaction when `success` is falsy,
   * otherwise exactly one; `None` where Python raises.
   */
  function Extract(file: Json, account: string, currency: string, strptime: Rows.Strptime)
    : (r: Option<seq<Transaction>>)
    ensures r.Some? ==> |r.value| <= 1
    ensures r.Some? && file.Obj? ==>
      (|r.value| == 1 <==> AsBool(GetOr(file, "success", Null)))
  {
    if !file.Obj? then None
    else if !AsBool(GetOr(file, "success", Null)) then Some([])
    else
      match Member(file, "data")
      case None => None
      case Some(data) =>
        match DataToTransaction(data, account, currency, strptime)
        case Some(tx) => Some([tx])
        case None => None
  }
}
