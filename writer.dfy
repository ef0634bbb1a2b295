/**
 * The ledger writer: turns intermediate transactions into Beancount entries. A transaction
 * becomes a two-posting entry (source and counter account), a multi-posting entry (an
 * itemised receipt split by category, with an optional gift-card posting) or a
 * cross-currency entry (a source posting priced in the foreign currency); the entries are
 * then ordered by date, keeping the input order within a day.
 */
module Writer {
  import opened Wrappers
  import opened Numbers
  import opened Model
  import opened Accounts
  import opened Allocate

  /** A Beancount `Amount`. */
  datatype Amount = Amount(number: real, currency: string)

  /**
   * A Beancount `Posting`: units, an optional per-unit price, and the `items` metadata a
   * category posting of a multi-posting entry carries. Cost and flag are always empty.
   */
  datatype Posting = Posting(account: string, units: Amount, price: Option<Amount>, items: Option<string>)

  /**
   * A Beancount `Transaction` directive (flag `*`, no tags). `day` is the date as a day
   * number; `meta` holds the entry's metadata keys in insertion order.
   */
  datatype Entry = Entry(
    meta: seq<(string, string)>,
    day: int,
    payee: Option<string>,
    narration: string,
    links: set<string>,
    postings: seq<Posting>)

  /** `_make_posting`: units only. */
  function MakePosting(account: string, number: real, currency: string): Posting
  {
    Posting(account, Amount(number, currency), None, None)
  }

  /** `tx.date.date()`: the day of a timestamp. */
  function DayOf(t: int): int
  {
    t / SecondsPerDay
  }

  /** A metadata key set only when the value is truthy. */
  function MetaIf(key: string, v: Option<string>): seq<(string, string)>
  {
    if Truthy(v) then [(key, v.value)] else []
  }

  /** `frozenset({tx.metadata["link"]}) if tx.metadata.get("link") else frozenset()`. */
  function LinksOf(tx: Transaction): set<string>
  {
    if HasLink(tx) then {tx.metadata.link.value} else {}
  }

  /** `tx.payee or None`. */
  function PayeeOf(tx: Transaction): Option<string>
  {
    if tx.payee != "" then Some(tx.payee) else None
  }

  /** The sum of the posting numbers, all postings being in one currency. */
  function SumUnits(ps: seq<Posting>): real
  {
    if ps == [] then 0.0 else SumUnits(ps[..|ps| - 1]) + ps[|ps| - 1].units.number
  }

  lemma SumUnitsAppend(ps: seq<Posting>, qs: seq<Posting>)
    ensures SumUnits(ps + qs) == SumUnits(ps) + SumUnits(qs)
    decreases |qs|
  {
    if qs == [] {
      assert ps + qs == ps;
    } else {
      assert (ps + qs)[..|ps + qs| - 1] == ps + qs[..|qs| - 1];
      SumUnitsAppend(ps, qs[..|qs| - 1]);
    }
  }

  /** Every posting is in `currency`, without a price. */
  predicate InCurrency(ps: seq<Posting>, currency: string)
  {
    forall k :: 0 <= k < |ps| ==> ps[k].units.currency == currency && ps[k].price.None?
  }

  lemma InCurrencyConcat(ps: seq<Posting>, qs: seq<Posting>, currency: string)
    requires InCurrency(ps, currency) && InCurrency(qs, currency)
    ensures InCurrency(ps + qs, currency)
  {
    forall k | 0 <= k < |ps + qs|
      ensures (ps + qs)[k].units.currency == currency && (ps + qs)[k].price.None?
    {
      if k >= |ps| {
        assert (ps + qs)[k] == qs[k - |ps|];
      }
    }
  }

  /** Every posting is in `currency` and the postings add up to zero. */
  predicate Balanced(ps: seq<Posting>, currency: string)
  {
    InCurrency(ps, currency) && SumUnits(ps) == 0.0
  }

  /** The counter account of a two-posting entry: the one given, else the default for the type. */
  function CounterOf(tx: Transaction, counter: Option<string>): string
  {
    if counter.Some? then counter.value else GetExpenseAccountForType(tx.txType)
  }

  /** Without a counter account the entry posts to a declared account. */
  lemma CounterDeclared(tx: Transaction, counter: Option<string>)
    requires counter.None?
    ensures Declared(CounterOf(tx, counter))
  {
    ExpenseAccountDeclared(tx.txType);
  }

  /**
   * `transaction_to_bean(tx, counter_account)`: the source posting with the amount and the
   * counter posting with its negation, so the entry balances.
   */
  function TransactionToBean(tx: Transaction, counter: Option<string>): (e: Entry)
    ensures |e.postings| == 2 && e.postings[0].account == tx.sourceAccount
    ensures e.postings[1].account == CounterOf(tx, counter)
    ensures e.postings[0].units.number == -e.postings[1].units.number
  {
    Entry(
      MetaIf("ref", tx.referenceId) + MetaIf("counterpart_ref", tx.counterpartRef)
        + MetaIf("payment_method", tx.paymentMethod) + MetaIf("raw_category", tx.rawCategory),
      DayOf(tx.date), PayeeOf(tx), tx.narration, LinksOf(tx),
      [MakePosting(tx.sourceAccount, tx.amount, tx.currency),
       MakePosting(CounterOf(tx, counter), -tx.amount, tx.currency)])
  }

  /**
   * The two-posting entry balances: the source account takes the amount and the counter
   * account (the default for the type when none is given) its negation, on the transaction's
   * day, with its payee (none when empty) and its link.
   */
  lemma TransactionToBeanBalanced(tx: Transaction, counter: Option<string>)
    ensures var e := TransactionToBean(tx, counter);
      |e.postings| == 2 && Balanced(e.postings, tx.currency)
      && e.postings[0].account == tx.sourceAccount && e.postings[0].units.number == tx.amount
      && e.postings[1].account == CounterOf(tx, counter)
      && e.day == DayOf(tx.date) && (e.payee.None? <==> tx.payee == "")
      && (HasLink(tx) ==> e.links == {tx.metadata.link.value}) && (!HasLink(tx) ==> e.links == {})
  {
    var postings := TransactionToBean(tx, counter).postings;
    assert SumUnits(postings) == SumUnits(postings[..1]) + -tx.amount;
    assert SumUnits(postings[..1]) == SumUnits([]) + tx.amount;
  }

  /** `f"{num}"` for an integer. */
  function IntText(n: int): string
  {
    if n < 0 then "-" + NatToString(-n) else NatToString(n)
  }

  /** The quantity text reads back as the quantity. */
  lemma IntTextParses(n: int)
    ensures ParseInt(IntText(n)) == Some(n)
  {
    var m: nat := if n < 0 then -n else n;
    SignedDigitsParse(IntText(n), n, NatToString(m), m);
  }

  /** `_format_item`: "name xN ¥total" with the listed total of the item. */
  function FormatItem(it: Item): (r: string)
    ensures it.name + " x" <= r
  {
    it.name + " x" + IntText(it.num) + " ¥" + Render(MulInt(it.price, it.num))
  }

  /** The item text carries the quantity and the listed total, both readable back. */
  lemma FormatItemReadable(it: Item)
    ensures exists q, a ::
      (FormatItem(it) == it.name + " x" + q + " ¥" + a
       && ParseInt(q) == Some(it.num)
       && ParseDecimal(a) == Some(MulInt(it.price, it.num)) && MulInt(it.price, it.num).Value() == Listed(it))
  {
    IntTextParses(it.num);
    RenderParses(MulInt(it.price, it.num));
    var q, a := IntText(it.num), Render(MulInt(it.price, it.num));
    assert FormatItem(it) == it.name + " x" + q + " ¥" + a;
  }

  /** `", ".join(_format_item(it) for it in its)`. */
  function ItemsText(its: seq<Item>): string
  {
    if its == [] then ""
    else if |its| == 1 then FormatItem(its[0])
    else ItemsText(its[..|its| - 1]) + ", " + FormatItem(its[|its| - 1])
  }

  /** One posting per category: its account, its total, the text of its items. */
  function CategoryPostings(cats: seq<Category>, currency: string): (ps: seq<Posting>)
    ensures |ps| == |cats|
  {
    if cats == [] then []
    else
      var c := cats[|cats| - 1];
      CategoryPostings(cats[..|cats| - 1], currency) + [Posting(c.account, Amount(c.total, currency), None, Some(ItemsText(c.items)))]
  }

  /** Posting k is category k's: its account, its total, the text of its items. */
  lemma {:induction false} CategoryPostingsAt(cats: seq<Category>, currency: string, k: nat)
    requires k < |cats|
    ensures CategoryPostings(cats, currency)[k]
      == Posting(cats[k].account, Amount(cats[k].total, currency), None, Some(ItemsText(cats[k].items)))
  {
    if k < |cats| - 1 {
      CategoryPostingsAt(cats[..|cats| - 1], currency, k);
    }
  }

  /** The category postings are all in the one currency, without a price. */
  lemma CategoryPostingsInCurrency(cats: seq<Category>, currency: string)
    ensures InCurrency(CategoryPostings(cats, currency), currency)
  {
    forall k | 0 <= k < |cats|
      ensures CategoryPostings(cats, currency)[k].units.currency == currency
        && CategoryPostings(cats, currency)[k].price.None?
    {
      CategoryPostingsAt(cats, currency, k);
    }
  }

  /** The category postings add up to the category totals. */
  lemma {:induction false} CategoryPostingsSum(cats: seq<Category>, currency: string)
    ensures SumUnits(CategoryPostings(cats, currency)) == SumTotals(cats)
  {
    if cats != [] {
      var ps := CategoryPostings(cats, currency);
      CategoryPostingsSum(cats[..|cats| - 1], currency);
      assert ps[..|ps| - 1] == CategoryPostings(cats[..|cats| - 1], currency);
    }
  }

  /** The gift-card posting, present when the gift-card amount is positive. */
  function GiftPostings(gift: real, currency: string): seq<Posting>
  {
    if gift > 0.0 then [MakePosting("Assets:JD:GiftCard", -gift, currency)] else []
  }

  /**
   * `multiposting_transaction_to_bean`: the source posting (or the override), the gift-card
   * posting, then one posting per category.
   */
  function Multiposting(tx: Transaction, cats: seq<Category>, gift: real, override: Option<Posting>): (e: Entry)
    ensures |e.postings| == 1 + (if gift > 0.0 then 1 else 0) + |cats|
    ensures override.None? ==> e.postings[0].account == tx.sourceAccount && e.postings[0].units.number == tx.amount
  {
    var source := if override.Some? then override.value else MakePosting(tx.sourceAccount, tx.amount, tx.currency);
    Entry(
      MetaIf("ref", tx.referenceId) + MetaIf("payment_method", tx.paymentMethod)
        + MetaIf("channel", tx.metadata.aldiChannel),
      DayOf(tx.date), PayeeOf(tx), tx.narration, LinksOf(tx),
      [source] + GiftPostings(gift, tx.currency) + CategoryPostings(cats, tx.currency))
  }

  /**
   * Category totals that add up to the payment plus the gift card make the entry balance
   * (without an override, whose units may be in another currency).
   */
  lemma MultipostingBalanced(tx: Transaction, cats: seq<Category>, gift: real)
    requires SumTotals(cats) == -tx.amount + (if gift > 0.0 then gift else 0.0)
    ensures Balanced(Multiposting(tx, cats, gift, None).postings, tx.currency)
  {
    var src := [MakePosting(tx.sourceAccount, tx.amount, tx.currency)];
    var g := GiftPostings(gift, tx.currency);
    var cs := CategoryPostings(cats, tx.currency);
    CategoryPostingsSum(cats, tx.currency);
    CategoryPostingsInCurrency(cats, tx.currency);
    SumUnitsAppend(src, g);
    SumUnitsAppend(src + g, cs);
    InCurrencyConcat(src, g, tx.currency);
    InCurrencyConcat(src + g, cs, tx.currency);
    assert SumUnits(src) == tx.amount by {
      assert src[..0] == [];
    }
    assert SumUnits(g) == -(if gift > 0.0 then gift else 0.0) by {
      if gift > 0.0 {
        assert g[..0] == [];
      }
    }
    assert Multiposting(tx, cats, gift, None).postings == src + g + cs;
  }

  /** Which branch of the writer loop a transaction takes, in the loop's order of tests. */
  datatype Route = AldiItems | CostcoItems | JdItems | BridgeForeign | Bridge | StandaloneForeign | Standard

  function RouteOf(tx: Transaction): Route
  {
    var m := tx.metadata;
    if m.aldiItems != [] then AldiItems
    else if m.costcoItems != [] then CostcoItems
    else if m.jdItems != [] then JdItems
    else if Truthy(tx.counterAccount) then
      (if m.foreignAmount.Some? then BridgeForeign else Bridge)
    else if m.foreignAmount.Some? then StandaloneForeign
    else Standard
  }

  /**
   * The loop's order of tests: an item list (ALDI, then Costco, then JD) comes first, then an
   * explicit counter account, then a foreign amount.
   */
  lemma RoutePriority(tx: Transaction)
    ensures RouteOf(tx) in {AldiItems, CostcoItems, JdItems} <==> ReceiptItems(tx) != []
    ensures RouteOf(tx) == AldiItems <==> tx.metadata.aldiItems != []
    ensures RouteOf(tx) == CostcoItems <==> tx.metadata.aldiItems == [] && tx.metadata.costcoItems != []
    ensures RouteOf(tx) in {BridgeForeign, Bridge} <==> ReceiptItems(tx) == [] && Truthy(tx.counterAccount)
    ensures RouteOf(tx) in {BridgeForeign, StandaloneForeign}
      <==> ReceiptItems(tx) == [] && tx.metadata.foreignAmount.Some?
  {
  }

  /** `categorizer.categorize(tx) if categorizer else None`. */
  type Categorizer = Transaction -> Option<string>

  function Categorize(categorizer: Option<Categorizer>, tx: Transaction): Option<string>
  {
    if categorizer.Some? then categorizer.value(tx) else None
  }

  /** Python's `a or b` on optional strings. */
  function Or(a: Option<string>, b: Option<string>): Option<string>
  {
    if Truthy(a) then a else b
  }

  /** `(x).quantize(Decimal("0.000001"))` for the exchange rate; the rounding is a parameter. */
  type RateRounding = real -> real

  /** A posting's weight: its units, or units times price for a priced posting. */
  function Weight(p: Posting): real
  {
    if p.price.Some? then p.units.number * p.price.value.number else p.units.number
  }

  function SumWeights(ps: seq<Posting>): real
  {
    if ps == [] then 0.0 else SumWeights(ps[..|ps| - 1]) + Weight(ps[|ps| - 1])
  }

  /**
   * The cross-currency entry: the source posting in the home currency priced at the rounded
   * rate, the counter posting in the foreign currency. `KeyError` without a foreign currency,
   * a decimal division error for a zero amount.
   */
  function ForeignEntry(tx: Transaction, counter: string, rateRounding: RateRounding): (r: Result<Entry, string>)
    requires tx.metadata.foreignAmount.Some?
    ensures r.Err? <==> tx.metadata.foreignCurrency.None? || tx.amount == 0.0
  {
    var foreignAmount := tx.metadata.foreignAmount.value.Value();
    match tx.metadata.foreignCurrency
    case None => Err("KeyError: 'wechathk_foreign_currency'")
    case Some(foreignCurrency) =>
      var homeAmount := Abs(tx.amount);
      if homeAmount == 0.0 then Err("decimal.InvalidOperation: division by zero")
      else
        var rate := rateRounding(foreignAmount / homeAmount);
        var source := Posting(tx.sourceAccount, Amount(tx.amount, tx.currency), Some(Amount(rate, foreignCurrency)), None);
        var other := MakePosting(counter, if tx.amount < 0.0 then foreignAmount else -foreignAmount, foreignCurrency);
        Ok(Entry(
          MetaIf("ref", tx.referenceId) + MetaIf("payment_method", tx.paymentMethod),
          DayOf(tx.date), PayeeOf(tx), tx.narration, LinksOf(tx), [source, other]))
  }

  /**
   * The weights of a cross-currency entry miss zero by exactly the amount times the rounding
   * error of the rate: with an exact rate the entry balances in the foreign currency.
   */
  lemma ForeignEntryWeights(tx: Transaction, counter: string, rateRounding: RateRounding)
    requires tx.metadata.foreignAmount.Some?
    requires ForeignEntry(tx, counter, rateRounding).Ok?
    ensures var e := ForeignEntry(tx, counter, rateRounding).value;
      var exact := tx.metadata.foreignAmount.value.Value() / Abs(tx.amount);
      e.postings[0].price.Some?
      && e.postings[0].price.value.currency == e.postings[1].units.currency
      && SumWeights(e.postings) == tx.amount * (e.postings[0].price.value.number - exact)
  {
    var e := ForeignEntry(tx, counter, rateRounding).value;
    var f := tx.metadata.foreignAmount.value.Value();
    var h := Abs(tx.amount);
    var rate := rateRounding(f / h);
    assert e.postings[0].price.value.number == rate;
    assert SumWeights(e.postings) == SumWeights(e.postings[..1]) + Weight(e.postings[1]);
    assert SumWeights(e.postings[..1]) == SumWeights([]) + Weight(e.postings[0]);
    assert SumWeights(e.postings) == tx.amount * rate + (if tx.amount < 0.0 then f else -f);
    assert tx.amount * (f / h) == (if tx.amount < 0.0 then -f else f) by {
      assert h * (f / h) == f;
    }
  }

  /** The gift-card amount of a JD receipt: `Decimal(jd_gift_card)`, zero when absent. */
  function GiftCard(tx: Transaction): real
  {
    if tx.metadata.jdGiftCard.Some? then tx.metadata.jdGiftCard.value.Value() else 0.0
  }

  /** The item list an itemised route groups: the first non-empty of ALDI, Costco, JD. */
  function ReceiptItems(tx: Transaction): seq<Item>
  {
    var m := tx.metadata;
    if m.aldiItems != [] then m.aldiItems else if m.costcoItems != [] then m.costcoItems else m.jdItems
  }

  /**
   * An itemised receipt: the items grouped by category over what the categories must carry
   * (the payment plus the gift card), then one posting per category.
   */
  function ItemisedEntry(tx: Transaction, items: seq<Item>, gift: real, rounding: Rounding): Entry
  {
    Multiposting(tx, GroupItems(items, TotalPayment(tx, gift), rounding), gift, None)
  }

  /** `total_payment`: what the categories carry, the payment plus the gift card. */
  function TotalPayment(tx: Transaction, gift: real): real
  {
    -tx.amount + gift
  }

  /** With a non-zero listed total and no negative gift card, an itemised entry balances. */
  lemma ItemisedBalanced(tx: Transaction, items: seq<Item>, gift: real, rounding: Rounding)
    requires ListedTotal(items) != 0.0 && gift >= 0.0
    ensures Balanced(ItemisedEntry(tx, items, gift, rounding).postings, tx.currency)
  {
    var cats := GroupItems(items, TotalPayment(tx, gift), rounding);
    MultipostingBalanced(tx, cats, gift);
  }

  /**
   * One turn of the `write_transactions` loop: the entry for `tx`, with `counterDefault`
   * the function's `counter_account` argument.
   */
  function EntryFor(tx: Transaction, counterDefault: Option<string>, categorizer: Option<Categorizer>,
                    rounding: Rounding, rateRounding: RateRounding): (r: Result<Entry, string>)
    ensures r.Err? ==> RouteOf(tx) == BridgeForeign || RouteOf(tx) == StandaloneForeign
    ensures r.Err? ==> tx.metadata.foreignCurrency.None? || tx.amount == 0.0
  {
    var m := tx.metadata;
    match RouteOf(tx)
    case AldiItems => Ok(ItemisedEntry(tx, m.aldiItems, 0.0, rounding))
    case CostcoItems => Ok(ItemisedEntry(tx, m.costcoItems, 0.0, rounding))
    case JdItems => Ok(ItemisedEntry(tx, m.jdItems, GiftCard(tx), rounding))
    case BridgeForeign => ForeignEntry(tx, tx.counterAccount.value, rateRounding)
    case Bridge => Ok(TransactionToBean(tx, tx.counterAccount))
    case StandaloneForeign =>
      var counter := Or(Or(Categorize(categorizer, tx), counterDefault), Some(GetExpenseAccountForType(tx.txType)));
      ForeignEntry(tx, counter.value, rateRounding)
    case Standard => Ok(TransactionToBean(tx, Or(Categorize(categorizer, tx), counterDefault)))
  }

  /** An itemised receipt with a non-zero listed total gives a balanced entry. */
  lemma ItemisedEntryBalanced(tx: Transaction, counterDefault: Option<string>, categorizer: Option<Categorizer>,
                              rounding: Rounding, rateRounding: RateRounding)
    requires RouteOf(tx) in {AldiItems, CostcoItems, JdItems}
    requires ListedTotal(ReceiptItems(tx)) != 0.0
    requires RouteOf(tx) == JdItems ==> GiftCard(tx) >= 0.0
    ensures var r := EntryFor(tx, counterDefault, categorizer, rounding, rateRounding);
      r.Ok? && Balanced(r.value.postings, tx.currency)
  {
    var gift := if RouteOf(tx) == JdItems then GiftCard(tx) else 0.0;
    EntryForItemised(tx, counterDefault, categorizer, rounding, rateRounding, gift);
    ItemisedBalanced(tx, ReceiptItems(tx), gift, rounding);
  }

  /** The itemised routes give the grouped entry of the receipt's items. */
  lemma EntryForItemised(tx: Transaction, counterDefault: Option<string>, categorizer: Option<Categorizer>,
                         rounding: Rounding, rateRounding: RateRounding, gift: real)
    requires RouteOf(tx) in {AldiItems, CostcoItems, JdItems}
    requires gift == if RouteOf(tx) == JdItems then GiftCard(tx) else 0.0
    ensures EntryFor(tx, counterDefault, categorizer, rounding, rateRounding)
      == Ok(ItemisedEntry(tx, ReceiptItems(tx), gift, rounding))
  {
  }

  /** An itemised receipt whose listed total is zero gives a lone source posting. */
  lemma ZeroListedLonePosting(tx: Transaction, counterDefault: Option<string>, categorizer: Option<Categorizer>,
                              rounding: Rounding, rateRounding: RateRounding)
    requires RouteOf(tx) in {AldiItems, CostcoItems} && ListedTotal(ReceiptItems(tx)) == 0.0
    ensures var r := EntryFor(tx, counterDefault, categorizer, rounding, rateRounding);
      r.Ok? && r.value.postings == [MakePosting(tx.sourceAccount, tx.amount, tx.currency)]
  {
    EntryForItemised(tx, counterDefault, categorizer, rounding, rateRounding, 0.0);
    GroupZeroListed(ReceiptItems(tx), TotalPayment(tx, 0.0), rounding);
  }

  /** A transaction with neither items, a bridge account nor a foreign amount takes the categorizer's account first. */
  lemma StandardCounter(tx: Transaction, counterDefault: Option<string>, categorizer: Option<Categorizer>,
                        rounding: Rounding, rateRounding: RateRounding)
    requires RouteOf(tx) == Standard
    ensures var r := EntryFor(tx, counterDefault, categorizer, rounding, rateRounding);
      var cat := Categorize(categorizer, tx);
      r.Ok? && Balanced(r.value.postings, tx.currency)
      && r.value.postings[1].account ==
         (if Truthy(cat) then cat.value
          else if counterDefault.Some? then counterDefault.value
          else GetExpenseAccountForType(tx.txType))
  {
    TransactionToBeanBalanced(tx, Or(Categorize(categorizer, tx), counterDefault));
  }

  /** Entries in order of day. */
  predicate DaySorted(es: seq<Entry>)
  {
    forall j, k :: 0 <= j < k < |es| ==> es[j].day <= es[k].day
  }

  /** Insert `e` after every entry not later than it (searching from the back). */
  function InsertByDay(es: seq<Entry>, e: Entry): (r: seq<Entry>)
    ensures |r| == |es| + 1
  {
    if es == [] then [e]
    else if es[|es| - 1].day <= e.day then es + [e]
    else InsertByDay(es[..|es| - 1], e) + [es[|es| - 1]]
  }

  /** `bean_entries.sort(key=lambda e: e.date)`: a stable sort by day. */
  function SortByDay(es: seq<Entry>): (r: seq<Entry>)
    ensures |r| == |es|
  {
    if es == [] then [] else InsertByDay(SortByDay(es[..|es| - 1]), es[|es| - 1])
  }

  /** The entries of one day, in order. */
  function OnDay(es: seq<Entry>, d: int): seq<Entry>
  {
    if es == [] then []
    else OnDay(es[..|es| - 1], d) + (if es[|es| - 1].day == d then [es[|es| - 1]] else [])
  }

  lemma OnDayAppend(es: seq<Entry>, e: Entry, d: int)
    ensures OnDay(es + [e], d) == OnDay(es, d) + (if e.day == d then [e] else [])
  {
    assert (es + [e])[..|es|] == es;
  }

  lemma {:induction false} InsertByDayOnDay(es: seq<Entry>, e: Entry, d: int)
    ensures OnDay(InsertByDay(es, e), d) == OnDay(es, d) + (if e.day == d then [e] else [])
  {
    if es == [] {
      assert [e] == [] + [e];
      OnDayAppend([], e, d);
    } else if es[|es| - 1].day <= e.day {
      OnDayAppend(es, e, d);
    } else {
      var front, last := es[..|es| - 1], es[|es| - 1];
      InsertByDayOnDay(front, e, d);
      OnDayAppend(InsertByDay(front, e), last, d);
      assert es == front + [last];
      OnDayAppend(front, last, d);
    }
  }

  /** Stability: the sort keeps each day's entries in their input order. */
  lemma {:induction false} SortByDayStable(es: seq<Entry>, d: int)
    ensures OnDay(SortByDay(es), d) == OnDay(es, d)
  {
    if es != [] {
      var front, last := es[..|es| - 1], es[|es| - 1];
      SortByDayStable(front, d);
      InsertByDayOnDay(SortByDay(front), last, d);
    }
  }

  lemma {:induction false} InsertByDayPermutes(es: seq<Entry>, e: Entry)
    ensures multiset(InsertByDay(es, e)) == multiset(es) + multiset{e}
  {
    if es != [] && es[|es| - 1].day > e.day {
      var front, last := es[..|es| - 1], es[|es| - 1];
      assert es == front + [last];
      InsertByDayPermutes(front, e);
    }
  }

  /** The sort permutes the entries. */
  lemma {:induction false} SortByDayPermutes(es: seq<Entry>)
    ensures multiset(SortByDay(es)) == multiset(es)
  {
    if es != [] {
      var front := es[..|es| - 1];
      assert es == front + [es[|es| - 1]];
      SortByDayPermutes(front);
      InsertByDayPermutes(SortByDay(front), es[|es| - 1]);
    }
  }

  /** No entry later than day `b`. */
  predicate DaysAtMost(es: seq<Entry>, b: int)
  {
    forall k :: 0 <= k < |es| ==> es[k].day <= b
  }

  lemma {:induction false} InsertByDayBound(es: seq<Entry>, e: Entry, b: int)
    requires DaysAtMost(es, b) && e.day <= b
    ensures DaysAtMost(InsertByDay(es, e), b)
  {
    if es != [] && es[|es| - 1].day > e.day {
      var front := es[..|es| - 1];
      InsertByDayBound(front, e, b);
      assert InsertByDay(es, e) == InsertByDay(front, e) + [es[|es| - 1]];
    }
  }

  lemma {:induction false} InsertByDaySorted(es: seq<Entry>, e: Entry)
    requires DaySorted(es)
    ensures DaySorted(InsertByDay(es, e))
  {
    if es != [] && es[|es| - 1].day > e.day {
      var front, last := es[..|es| - 1], es[|es| - 1];
      InsertByDaySorted(front, e);
      InsertByDayBound(front, e, last.day);
      assert InsertByDay(es, e) == InsertByDay(front, e) + [last];
    }
  }

  /** The sort orders the entries by day. */
  lemma {:induction false} SortByDaySorted(es: seq<Entry>)
    ensures DaySorted(SortByDay(es))
  {
    if es != [] {
      SortByDaySorted(es[..|es| - 1]);
      InsertByDaySorted(SortByDay(es[..|es| - 1]), es[|es| - 1]);
    }
  }

  /** The loop over the transactions: the first error stops it, as the exception does. */
  function BuildEntries(txs: seq<Transaction>, counterDefault: Option<string>, categorizer: Option<Categorizer>,
                        rounding: Rounding, rateRounding: RateRounding): (r: Result<seq<Entry>, string>)
    ensures r.Ok? ==> |r.value| == |txs|
  {
    if txs == [] then Ok([])
    else
      match BuildEntries(txs[..|txs| - 1], counterDefault, categorizer, rounding, rateRounding)
      case Err(msg) => Err(msg)
      case Ok(es) =>
        match EntryFor(txs[|txs| - 1], counterDefault, categorizer, rounding, rateRounding)
        case Err(msg) => Err(msg)
        case Ok(e) => Ok(es + [e])
  }

  /** The outcome of each transaction's turn of the loop, in order. */
  function Results(txs: seq<Transaction>, counterDefault: Option<string>, categorizer: Option<Categorizer>,
                   rounding: Rounding, rateRounding: RateRounding): (rs: seq<Result<Entry, string>>)
    ensures |rs| == |txs|
  {
    if txs == [] then []
    else
      Results(txs[..|txs| - 1], counterDefault, categorizer, rounding, rateRounding)
        + [EntryFor(txs[|txs| - 1], counterDefault, categorizer, rounding, rateRounding)]
  }

  lemma {:induction false} ResultsAt(txs: seq<Transaction>, counterDefault: Option<string>, categorizer: Option<Categorizer>,
                                     rounding: Rounding, rateRounding: RateRounding, k: nat)
    requires k < |txs|
    ensures Results(txs, counterDefault, categorizer, rounding, rateRounding)[k]
      == EntryFor(txs[k], counterDefault, categorizer, rounding, rateRounding)
  {
    if k < |txs| - 1 {
      ResultsAt(txs[..|txs| - 1], counterDefault, categorizer, rounding, rateRounding, k);
    }
  }

  /** All the entries when every outcome is one, else the first error. */
  function Collect(rs: seq<Result<Entry, string>>): Result<seq<Entry>, string>
  {
    if rs == [] then Ok([])
    else
      match Collect(rs[..|rs| - 1])
      case Err(msg) => Err(msg)
      case Ok(es) =>
        match rs[|rs| - 1]
        case Err(msg) => Err(msg)
        case Ok(e) => Ok(es + [e])
  }

  /** No outcome before `j` is an error. */
  predicate OkBefore(rs: seq<Result<Entry, string>>, j: int)
    requires j <= |rs|
  {
    forall k :: 0 <= k < j ==> rs[k].Ok?
  }

  /** Collecting succeeds exactly when every outcome does, and then keeps them in order. */
  lemma {:induction false} CollectOk(rs: seq<Result<Entry, string>>)
    ensures Collect(rs).Ok? <==> OkBefore(rs, |rs|)
    ensures Collect(rs).Ok? ==>
      |Collect(rs).value| == |rs| && forall k :: 0 <= k < |rs| ==> Collect(rs).value[k] == rs[k].value
  {
    if rs != [] {
      var front := rs[..|rs| - 1];
      CollectOk(front);
      assert forall k :: 0 <= k < |front| ==> front[k] == rs[k];
    }
  }

  /** A failed collection reports the first error. */
  lemma {:induction false} CollectFirstErr(rs: seq<Result<Entry, string>>)
    requires Collect(rs).Err?
    ensures exists j :: 0 <= j < |rs| && OkBefore(rs, j) && rs[j] == Err(Collect(rs).error)
  {
    var front := rs[..|rs| - 1];
    if Collect(front).Err? {
      CollectFirstErr(front);
      var j :| 0 <= j < |front| && OkBefore(front, j) && front[j] == Err(Collect(front).error);
      assert OkBefore(rs, j) && rs[j] == front[j];
    } else {
      CollectOk(front);
      assert OkBefore(rs, |rs| - 1);
    }
  }

  lemma {:induction false} BuildEntriesCollect(txs: seq<Transaction>, counterDefault: Option<string>, categorizer: Option<Categorizer>,
                                               rounding: Rounding, rateRounding: RateRounding)
    ensures BuildEntries(txs, counterDefault, categorizer, rounding, rateRounding)
      == Collect(Results(txs, counterDefault, categorizer, rounding, rateRounding))
  {
    if txs != [] {
      var rs := Results(txs, counterDefault, categorizer, rounding, rateRounding);
      BuildEntriesCollect(txs[..|txs| - 1], counterDefault, categorizer, rounding, rateRounding);
      assert rs[..|rs| - 1] == Results(txs[..|txs| - 1], counterDefault, categorizer, rounding, rateRounding);
    }
  }

  /**
   * Building succeeds exactly when every transaction has an entry, and then entry k is
   * transaction k's; otherwise the error is that of the first transaction without one.
   */
  lemma BuildEntriesOk(txs: seq<Transaction>, counterDefault: Option<string>, categorizer: Option<Categorizer>,
                       rounding: Rounding, rateRounding: RateRounding)
    ensures var r := BuildEntries(txs, counterDefault, categorizer, rounding, rateRounding);
      var rs := Results(txs, counterDefault, categorizer, rounding, rateRounding);
      (r.Ok? <==> forall k :: 0 <= k < |txs| ==> rs[k].Ok?)
      && (r.Ok? ==> |r.value| == |txs| && forall k :: 0 <= k < |txs| ==> r.value[k] == rs[k].value)
      && (r.Err? ==> exists j :: 0 <= j < |txs| && OkBefore(rs, j) && rs[j] == Err(r.error))
      && (forall k :: 0 <= k < |txs| ==> rs[k] == EntryFor(txs[k], counterDefault, categorizer, rounding, rateRounding))
  {
    var rs := Results(txs, counterDefault, categorizer, rounding, rateRounding);
    BuildEntriesCollect(txs, counterDefault, categorizer, rounding, rateRounding);
    CollectOk(rs);
    if Collect(rs).Err? {
      CollectFirstErr(rs);
    }
    forall k | 0 <= k < |txs|
      ensures rs[k] == EntryFor(txs[k], counterDefault, categorizer, rounding, rateRounding)
    {
      ResultsAt(txs, counterDefault, categorizer, rounding, rateRounding, k);
    }
  }

  /**
   * `write_transactions` up to the file output: the entries, ordered by day, or the error
   * that stopped the loop.
   */
  function WriteAll(txs: seq<Transaction>, counterDefault: Option<string>, categorizer: Option<Categorizer>,
                    rounding: Rounding, rateRounding: RateRounding): (r: Result<seq<Entry>, string>)
    ensures r.Ok? ==> |r.value| == |txs| && DaySorted(r.value)
  {
    match BuildEntries(txs, counterDefault, categorizer, rounding, rateRounding)
    case Err(msg) => Err(msg)
    case Ok(es) => SortByDaySorted(es); Ok(SortByDay(es))
  }

  /**
   * On success the written entries are the built ones, ordered by day, with the entries of a
   * day in input order, one per transaction.
   */
  lemma WriteAllSorted(txs: seq<Transaction>, counterDefault: Option<string>, categorizer: Option<Categorizer>,
                       rounding: Rounding, rateRounding: RateRounding)
    requires BuildEntries(txs, counterDefault, categorizer, rounding, rateRounding).Ok?
    ensures var es := BuildEntries(txs, counterDefault, categorizer, rounding, rateRounding).value;
      var out := WriteAll(txs, counterDefault, categorizer, rounding, rateRounding);
      out.Ok? && |out.value| == |txs| && DaySorted(out.value) && multiset(out.value) == multiset(es)
      && forall d :: OnDay(out.value, d) == OnDay(es, d)
  {
    var es := BuildEntries(txs, counterDefault, categorizer, rounding, rateRounding).value;
    SortByDaySorted(es);
    SortByDayPermutes(es);
    forall d
      ensures OnDay(SortByDay(es), d) == OnDay(es, d)
    {
      SortByDayStable(es, d);
    }
  }

  /** The `write_transactions` loop, the sort, and no file output. */
  method WriteTransactions(txs: seq<Transaction>, counterDefault: Option<string>, categorizer: Option<Categorizer>,
                           rounding: Rounding, rateRounding: RateRounding) returns (r: Result<seq<Entry>, string>)
    ensures r == WriteAll(txs, counterDefault, categorizer, rounding, rateRounding)
  {
    var beanEntries: seq<Entry> := [];
    for i := 0 to |txs|
      invariant BuildEntries(txs[..i], counterDefault, categorizer, rounding, rateRounding) == Ok(beanEntries)
    {
      var entry := EntryFor(txs[i], counterDefault, categorizer, rounding, rateRounding);
      BuildStep(txs, i, counterDefault, categorizer, rounding, rateRounding);
      if entry.Err? {
        BuildPrefixErr(txs, i + 1, counterDefault, categorizer, rounding, rateRounding);
        return Err(entry.error);
      }
      beanEntries := beanEntries + [entry.value];
    }
    assert txs[..|txs|] == txs;
    r := Ok(SortByDay(beanEntries));
  }

  /** One more transaction extends the built prefix by its entry, or stops at its error. */
  lemma BuildStep(txs: seq<Transaction>, i: nat, counterDefault: Option<string>, categorizer: Option<Categorizer>,
                  rounding: Rounding, rateRounding: RateRounding)
    requires i < |txs| && BuildEntries(txs[..i], counterDefault, categorizer, rounding, rateRounding).Ok?
    ensures var e := EntryFor(txs[i], counterDefault, categorizer, rounding, rateRounding);
      BuildEntries(txs[..i + 1], counterDefault, categorizer, rounding, rateRounding)
      == (if e.Err? then Err(e.error)
          else Ok(BuildEntries(txs[..i], counterDefault, categorizer, rounding, rateRounding).value + [e.value]))
  {
    assert txs[..i + 1][..i] == txs[..i];
  }

  /** An error while building a prefix is the error of the whole loop. */
  lemma {:induction false} BuildPrefixErr(txs: seq<Transaction>, n: nat, counterDefault: Option<string>, categorizer: Option<Categorizer>,
                                          rounding: Rounding, rateRounding: RateRounding)
    requires n <= |txs|
    requires BuildEntries(txs[..n], counterDefault, categorizer, rounding, rateRounding).Err?
    ensures BuildEntries(txs, counterDefault, categorizer, rounding, rateRounding)
      == BuildEntries(txs[..n], counterDefault, categorizer, rounding, rateRounding)
    decreases |txs| - n
  {
    if n < |txs| {
      assert txs[..n + 1][..n] == txs[..n];
      BuildPrefixErr(txs, n + 1, counterDefault, categorizer, rounding, rateRounding);
    } else {
      assert txs[..n] == txs;
    }
  }
}
