/**
 * The proportional allocator behind multi-posting entries (`group_items_by_category`):
 * itemised receipts are split into one posting per item category, each item's listed
 * amount scaled by payment / listed total and rounded, with the rounding residual put
 * on the largest category so that the postings add up to the payment exactly.
 */
module Allocate {
  import opened Wrappers
  import opened Numbers
  import opened Model

  /** Python's `<` on strings: lexicographic by code point. */
  predicate StrLess(a: string, b: string)
    decreases |a|
  {
    if a == [] then b != []
    else if b == [] then false
    else if a[0] != b[0] then a[0] < b[0]
    else StrLess(a[1..], b[1..])
  }

  /** Two different strings are ordered one way or the other. */
  lemma {:induction false} StrLessTotal(a: string, b: string)
    requires a != b
    ensures StrLess(a, b) || StrLess(b, a)
    decreases |a|
  {
    if a != [] && b != [] && a[0] == b[0] {
      assert a == [a[0]] + a[1..] && b == [b[0]] + b[1..];
      StrLessTotal(a[1..], b[1..]);
    }
  }

  /** No string is below itself. */
  lemma {:induction false} StrLessIrreflexive(a: string)
    ensures !StrLess(a, a)
    decreases |a|
  {
    if a != [] {
      StrLessIrreflexive(a[1..]);
    }
  }

  /** One entry of the result: `(account, total_amount, items)`. */
  datatype Category = Category(account: string, total: real, items: seq<Item>)

  /** `Decimal(item["price"]) * int(item["num"])`. */
  function Listed(it: Item): real
  {
    MulInt(it.price, it.num).Value()
  }

  /** The listed amount is price times quantity. */
  lemma ListedIsProduct(it: Item)
    ensures Listed(it) == it.price.Value() * it.num as real
  {
    MulIntValue(it.price, it.num);
  }

  /** `sum(listed for item in items)`. */
  function ListedTotal(items: seq<Item>): real
  {
    if items == [] then 0.0 else ListedTotal(items[..|items| - 1]) + Listed(items[|items| - 1])
  }

  /** `quantize(Decimal("0.01"))` applied to an exact amount; the rounding mode is not fixed. */
  type Rounding = real -> real

  /** The rounded, scaled amount of one item. */
  function Effective(it: Item, scale: real, quantize: Rounding): real
  {
    quantize(Listed(it) * scale)
  }

  /** The items of one category, in input order. */
  function ItemsOf(items: seq<Item>, account: string): (r: seq<Item>)
    ensures forall k :: 0 <= k < |r| ==> r[k].category == account
    ensures |r| <= |items|
  {
    if items == [] then []
    else
      var last := items[|items| - 1];
      ItemsOf(items[..|items| - 1], account) + (if last.category == account then [last] else [])
  }

  /** The sum of the rounded amounts of `items`. */
  function RoundedSum(items: seq<Item>, scale: real, quantize: Rounding): real
  {
    if items == [] then 0.0
    else RoundedSum(items[..|items| - 1], scale, quantize) + Effective(items[|items| - 1], scale, quantize)
  }

  lemma RoundedSumAppend(items: seq<Item>, it: Item, scale: real, quantize: Rounding)
    ensures RoundedSum(items + [it], scale, quantize) == RoundedSum(items, scale, quantize) + Effective(it, scale, quantize)
  {
    assert (items + [it])[..|items|] == items;
  }

  /** The position of `account` in the insertion-ordered dictionary, if present. */
  function FindAccount(d: seq<Category>, account: string): (p: Option<nat>)
    ensures p.Some? ==> p.value < |d| && d[p.value].account == account
    ensures p.None? ==> forall k :: 0 <= k < |d| ==> d[k].account != account
  {
    if d == [] then None
    else if d[|d| - 1].account == account then Some(|d| - 1)
    else FindAccount(d[..|d| - 1], account)
  }

  /** No account occurs twice, as in a dictionary. */
  predicate DistinctAccounts(d: seq<Category>)
  {
    forall j, k :: 0 <= j < k < |d| ==> d[j].account != d[k].account
  }

  /** One turn of the `by_category` loop. */
  function AddItem(d: seq<Category>, it: Item, effective: real): seq<Category>
  {
    match FindAccount(d, it.category)
    case Some(p) => d[p := Category(it.category, d[p].total + effective, d[p].items + [it])]
    case None => d + [Category(it.category, 0.0 + effective, [] + [it])]
  }

  /** The `by_category` dictionary after the items, in insertion order. */
  function Accumulate(items: seq<Item>, scale: real, quantize: Rounding): seq<Category>
  {
    if items == [] then []
    else
      var last := items[|items| - 1];
      AddItem(Accumulate(items[..|items| - 1], scale, quantize), last, Effective(last, scale, quantize))
  }

  /** The dictionary never holds an account twice. */
  lemma {:induction false} AccumulateDistinct(items: seq<Item>, scale: real, quantize: Rounding)
    ensures DistinctAccounts(Accumulate(items, scale, quantize))
  {
    if items != [] {
      var last := items[|items| - 1];
      var d := Accumulate(items[..|items| - 1], scale, quantize);
      AccumulateDistinct(items[..|items| - 1], scale, quantize);
      var r := AddItem(d, last, Effective(last, scale, quantize));
      assert forall k :: 0 <= k < |d| ==> r[k].account == d[k].account;
    }
  }

  /** `c` holds exactly the items of its category, in input order, and their rounded sum. */
  predicate GroupOf(c: Category, items: seq<Item>, scale: real, quantize: Rounding)
  {
    c.items == ItemsOf(items, c.account) && c.items != [] && c.total == RoundedSum(c.items, scale, quantize)
  }

  /** Some entry of `d` is for `account`. */
  predicate HasAccount(d: seq<Category>, account: string)
  {
    exists k :: 0 <= k < |d| && d[k].account == account
  }

  /**
   * `d` groups `items` by category: one entry per category that occurs, holding that
   * category's items in input order and the sum of their rounded amounts.
   */
  predicate Grouped(d: seq<Category>, items: seq<Item>, scale: real, quantize: Rounding)
  {
    DistinctAccounts(d)
    && (forall k :: 0 <= k < |d| ==> GroupOf(d[k], items, scale, quantize))
    && (forall i :: 0 <= i < |items| ==> HasAccount(d, items[i].category))
  }

  /** A category no item has has no items. */
  lemma {:induction false} ItemsOfAbsent(items: seq<Item>, account: string)
    requires forall i :: 0 <= i < |items| ==> items[i].category != account
    ensures ItemsOf(items, account) == []
  {
    if items != [] {
      ItemsOfAbsent(items[..|items| - 1], account);
    }
  }

  lemma ItemsOfAppend(items: seq<Item>, it: Item, account: string)
    ensures ItemsOf(items + [it], account)
      == ItemsOf(items, account) + (if it.category == account then [it] else [])
  {
    assert (items + [it])[..|items|] == items;
  }

  /** The loop builds exactly the grouping of the items. */
  lemma {:induction false} AccumulateGrouped(items: seq<Item>, scale: real, quantize: Rounding)
    ensures Grouped(Accumulate(items, scale, quantize), items, scale, quantize)
  {
    if items != [] {
      var front, it := items[..|items| - 1], items[|items| - 1];
      assert items == front + [it];
      AccumulateGrouped(front, scale, quantize);
      AddItemGrouped(Accumulate(front, scale, quantize), front, it, scale, quantize);
    }
  }

  /** An entry of another category is unaffected by a new item. */
  lemma GroupOfOther(c: Category, front: seq<Item>, it: Item, scale: real, quantize: Rounding)
    requires GroupOf(c, front, scale, quantize) && c.account != it.category
    ensures GroupOf(c, front + [it], scale, quantize)
  {
    ItemsOfAppend(front, it, c.account);
  }

  /** The entry of the item's own category takes the item and its rounded amount. */
  lemma GroupOfSame(c: Category, front: seq<Item>, it: Item, scale: real, quantize: Rounding)
    requires GroupOf(c, front, scale, quantize) && c.account == it.category
    ensures GroupOf(Category(c.account, c.total + Effective(it, scale, quantize), c.items + [it]), front + [it], scale, quantize)
  {
    ItemsOfAppend(front, it, c.account);
    RoundedSumAppend(c.items, it, scale, quantize);
  }

  /** The first item of a category opens its entry. */
  lemma GroupOfNew(front: seq<Item>, it: Item, scale: real, quantize: Rounding)
    requires forall i :: 0 <= i < |front| ==> front[i].category != it.category
    ensures GroupOf(Category(it.category, 0.0 + Effective(it, scale, quantize), [] + [it]), front + [it], scale, quantize)
  {
    ItemsOfAbsent(front, it.category);
    ItemsOfAppend(front, it, it.category);
    RoundedSumAppend([], it, scale, quantize);
    assert [] + [it] == [it];
  }

  lemma AddItemGrouped(d: seq<Category>, front: seq<Item>, it: Item, scale: real, quantize: Rounding)
    requires Grouped(d, front, scale, quantize)
    ensures Grouped(AddItem(d, it, Effective(it, scale, quantize)), front + [it], scale, quantize)
  {
    var e := Effective(it, scale, quantize);
    match FindAccount(d, it.category)
    case Some(p) =>
      AddExistingGrouped(d, front, it, p, scale, quantize);
      assert AddItem(d, it, e) == d[p := Category(it.category, d[p].total + e, d[p].items + [it])];
    case None =>
      forall i | 0 <= i < |front|
        ensures front[i].category != it.category
      {
        assert HasAccount(d, front[i].category);
      }
      AddNewGrouped(d, front, it, scale, quantize);
      assert AddItem(d, it, e) == d + [Category(it.category, 0.0 + e, [] + [it])];
  }

  /** An item of a category already present extends that entry. */
  lemma AddExistingGrouped(d: seq<Category>, front: seq<Item>, it: Item, p: nat, scale: real, quantize: Rounding)
    requires Grouped(d, front, scale, quantize)
    requires p < |d| && d[p].account == it.category
    ensures Grouped(d[p := Category(it.category, d[p].total + Effective(it, scale, quantize), d[p].items + [it])],
                    front + [it], scale, quantize)
  {
    var items := front + [it];
    var r := d[p := Category(it.category, d[p].total + Effective(it, scale, quantize), d[p].items + [it])];
    assert forall k :: 0 <= k < |d| ==> r[k].account == d[k].account;
    forall i | 0 <= i < |items|
      ensures HasAccount(r, items[i].category)
    {
      if i < |front| {
        assert HasAccount(d, front[i].category);
      } else {
        assert r[p].account == items[i].category;
      }
    }
    forall k | 0 <= k < |r|
      ensures GroupOf(r[k], items, scale, quantize)
    {
      if k != p {
        GroupOfOther(d[k], front, it, scale, quantize);
      } else {
        GroupOfSame(d[k], front, it, scale, quantize);
      }
    }
  }

  /** The first item of a category appends an entry for it. */
  lemma AddNewGrouped(d: seq<Category>, front: seq<Item>, it: Item, scale: real, quantize: Rounding)
    requires Grouped(d, front, scale, quantize)
    requires forall k :: 0 <= k < |d| ==> d[k].account != it.category
    requires forall i :: 0 <= i < |front| ==> front[i].category != it.category
    ensures Grouped(d + [Category(it.category, 0.0 + Effective(it, scale, quantize), [] + [it])], front + [it], scale, quantize)
  {
    var items := front + [it];
    var r := d + [Category(it.category, 0.0 + Effective(it, scale, quantize), [] + [it])];
    forall i | 0 <= i < |items|
      ensures HasAccount(r, items[i].category)
    {
      if i < |front| {
        assert HasAccount(d, front[i].category);
        var k :| 0 <= k < |d| && d[k].account == front[i].category;
        assert r[k] == d[k];
      } else {
        assert r[|d|].account == items[i].category;
      }
    }
    forall k | 0 <= k < |r|
      ensures GroupOf(r[k], items, scale, quantize)
    {
      if k < |d| {
        assert r[k] == d[k];
        GroupOfOther(d[k], front, it, scale, quantize);
      } else {
        GroupOfNew(front, it, scale, quantize);
      }
    }
  }

  /** Accounts strictly ascending along the list. */
  predicate AccountsAscending(s: seq<Category>)
  {
    forall k :: 0 <= k < |s| - 1 ==> StrLess(s[k].account, s[k + 1].account)
  }

  /** Insert `c` after the last entry whose account is below `c`'s, searching from the back. */
  function InsertCategory(s: seq<Category>, c: Category): (r: seq<Category>)
    ensures |r| == |s| + 1
  {
    if s == [] then [c]
    else
      var front, last := s[..|s| - 1], s[|s| - 1];
      if StrLess(last.account, c.account) then s + [c]
      else InsertCategory(front, c) + [last]
  }

  lemma {:induction false} InsertCategoryPermutes(s: seq<Category>, c: Category)
    ensures multiset(InsertCategory(s, c)) == multiset(s) + multiset{c}
  {
    if s != [] {
      var front, last := s[..|s| - 1], s[|s| - 1];
      assert s == front + [last];
      if !StrLess(last.account, c.account) {
        InsertCategoryPermutes(front, c);
      }
    }
  }

  /** Inserting an account not yet present keeps the list ascending; the new last entry is `c` or the old last. */
  lemma {:induction false} InsertCategoryAscending(s: seq<Category>, c: Category)
    requires AccountsAscending(s)
    requires forall k :: 0 <= k < |s| ==> s[k].account != c.account
    ensures var r := InsertCategory(s, c);
      AccountsAscending(r) && (r[|r| - 1] == c || r[|r| - 1] == s[|s| - 1])
  {
    if s != [] {
      var front, last := s[..|s| - 1], s[|s| - 1];
      if !StrLess(last.account, c.account) {
        StrLessTotal(last.account, c.account);
        InsertCategoryAscending(front, c);
        var r := InsertCategory(front, c);
        assert InsertCategory(s, c) == r + [last];
        if r[|r| - 1] != c {
          assert StrLess(s[|s| - 2].account, s[|s| - 1].account);
        }
      }
    }
  }

  /** `sorted(by_category.items())`: insertion sort by account. */
  function SortCategories(d: seq<Category>): (r: seq<Category>)
    ensures |r| == |d|
  {
    if d == [] then [] else InsertCategory(SortCategories(d[..|d| - 1]), d[|d| - 1])
  }

  /** The sort permutes the entries. */
  lemma {:induction false} SortCategoriesPermutes(d: seq<Category>)
    ensures multiset(SortCategories(d)) == multiset(d)
  {
    if d != [] {
      var front := d[..|d| - 1];
      assert d == front + [d[|d| - 1]];
      SortCategoriesPermutes(front);
      InsertCategoryPermutes(SortCategories(front), d[|d| - 1]);
    }
  }

  /** With distinct accounts, as in a dictionary, the sort orders the entries by account. */
  lemma {:induction false} SortCategoriesAscending(d: seq<Category>)
    requires DistinctAccounts(d)
    ensures AccountsAscending(SortCategories(d))
  {
    if d != [] {
      var front := d[..|d| - 1];
      assert d == front + [d[|d| - 1]];
      SortCategoriesAscending(front);
      SortCategoriesPermutes(front);
      var sorted := SortCategories(front);
      forall k | 0 <= k < |sorted|
        ensures sorted[k].account != d[|d| - 1].account
      {
        assert sorted[k] in multiset(front);
      }
      InsertCategoryAscending(sorted, d[|d| - 1]);
    }
  }

  /** `sum(t for _, t, _ in result)`. */
  function SumTotals(s: seq<Category>): real
  {
    if s == [] then 0.0 else SumTotals(s[..|s| - 1]) + s[|s| - 1].total
  }

  /** Raising one entry's total raises the sum by as much. */
  lemma {:induction false} SumTotalsUpdate(s: seq<Category>, m: nat, x: real)
    requires m < |s|
    ensures SumTotals(s[m := s[m].(total := s[m].total + x)]) == SumTotals(s) + x
  {
    var t := s[m := s[m].(total := s[m].total + x)];
    if m < |s| - 1 {
      assert t[..|t| - 1] == s[..|s| - 1][m := s[m].(total := s[m].total + x)];
      SumTotalsUpdate(s[..|s| - 1], m, x);
    } else {
      assert t[..|t| - 1] == s[..|s| - 1];
    }
  }

  /** The index `max(range(len(s)), key=total)` picks. */
  function FirstMax(s: seq<Category>): (m: nat)
    requires s != []
    ensures m < |s|
  {
    if |s| == 1 then 0
    else
      var m := FirstMax(s[..|s| - 1]);
      if s[|s| - 1].total > s[m].total then |s| - 1 else m
  }

  /** It is the first of the largest totals. */
  lemma {:induction false} FirstMaxIsFirstLargest(s: seq<Category>)
    requires s != []
    ensures forall k :: 0 <= k < |s| ==> s[k].total <= s[FirstMax(s)].total
    ensures forall k :: 0 <= k < FirstMax(s) ==> s[k].total < s[FirstMax(s)].total
  {
    if |s| > 1 {
      var front := s[..|s| - 1];
      FirstMaxIsFirstLargest(front);
      assert forall k :: 0 <= k < |front| ==> front[k] == s[k];
    }
  }

  /** The rounding correction: the residual goes to the first largest category. */
  function Correct(s: seq<Category>, totalPayment: real): seq<Category>
  {
    var diff := totalPayment - SumTotals(s);
    if diff != 0.0 && s != [] then
      var m := FirstMax(s);
      s[m := s[m].(total := s[m].total + diff)]
    else s
  }

  /** The correction touches the total of the first largest entry and nothing else. */
  lemma CorrectKeeps(s: seq<Category>, totalPayment: real)
    ensures var r := Correct(s, totalPayment);
      |r| == |s|
      && (forall k :: 0 <= k < |s| ==> r[k].account == s[k].account && r[k].items == s[k].items)
      && (forall k :: 0 <= k < |s| && k != FirstMax(s) ==> r[k] == s[k])
  {
  }

  /** After the correction the totals add up to the payment. */
  lemma CorrectSum(s: seq<Category>, totalPayment: real)
    requires s != []
    ensures SumTotals(Correct(s, totalPayment)) == totalPayment
  {
    var diff := totalPayment - SumTotals(s);
    if diff != 0.0 {
      SumTotalsUpdate(s, FirstMax(s), diff);
    }
  }

  /** A permutation of a grouping is a grouping, in another order. */
  lemma PermutedGroups(d: seq<Category>, s: seq<Category>, items: seq<Item>, scale: real, quantize: Rounding)
    requires Grouped(d, items, scale, quantize) && multiset(s) == multiset(d)
    ensures |s| == |d|
    ensures forall k :: 0 <= k < |s| ==> GroupOf(s[k], items, scale, quantize)
    ensures forall i :: 0 <= i < |items| ==> HasAccount(s, items[i].category)
  {
    assert |s| == |d| by {
      assert |multiset(s)| == |multiset(d)|;
    }
    forall k | 0 <= k < |s|
      ensures GroupOf(s[k], items, scale, quantize)
    {
      assert s[k] in multiset(d);
    }
    forall i | 0 <= i < |items|
      ensures HasAccount(s, items[i].category)
    {
      var p :| 0 <= p < |d| && d[p].account == items[i].category;
      assert d[p] in multiset(s);
      var k :| 0 <= k < |s| && s[k] == d[p];
    }
  }

  /** The `by_category` dictionary sorted by account, before the rounding correction. */
  function Allocation(items: seq<Item>, scale: real, quantize: Rounding): seq<Category>
  {
    SortCategories(Accumulate(items, scale, quantize))
  }

  /** `group_items_by_category(items, total_payment)`, with the rounding as a parameter. */
  function GroupItems(items: seq<Item>, totalPayment: real, quantize: Rounding): (r: seq<Category>)
    ensures ListedTotal(items) != 0.0 ==> SumTotals(r) == totalPayment
  {
    var listedTotal := ListedTotal(items);
    if listedTotal == 0.0 then []
    else
      var s := Allocation(items, totalPayment / listedTotal, quantize);
      SortedGroups(items, totalPayment / listedTotal, quantize);
      CorrectSum(s, totalPayment);
      Correct(s, totalPayment)
  }

  /** The sorted dictionary holds one entry per category, each with its items and their rounded sum. */
  lemma SortedGroups(items: seq<Item>, scale: real, quantize: Rounding)
    requires items != []
    ensures var s := Allocation(items, scale, quantize);
      s != []
      && (forall k :: 0 <= k < |s| ==> GroupOf(s[k], items, scale, quantize))
      && (forall i :: 0 <= i < |items| ==> HasAccount(s, items[i].category))
  {
    var d := Accumulate(items, scale, quantize);
    AccumulateGrouped(items, scale, quantize);
    SortCategoriesPermutes(d);
    PermutedGroups(d, Allocation(items, scale, quantize), items, scale, quantize);
    assert HasAccount(d, items[0].category);
  }

  /** A zero listed total gives no categories. */
  lemma GroupZeroListed(items: seq<Item>, totalPayment: real, quantize: Rounding)
    requires ListedTotal(items) == 0.0
    ensures GroupItems(items, totalPayment, quantize) == []
  {
  }

  /** The correction keeps the order, the accounts and the items of a grouping. */
  lemma CorrectedCategories(r: seq<Category>, s: seq<Category>, totalPayment: real, items: seq<Item>, scale: real, quantize: Rounding)
    requires r == Correct(s, totalPayment)
    requires AccountsAscending(s)
    requires forall k :: 0 <= k < |s| ==> GroupOf(s[k], items, scale, quantize)
    requires forall i :: 0 <= i < |items| ==> HasAccount(s, items[i].category)
    ensures AccountsAscending(r)
      && (forall k :: 0 <= k < |r| ==> r[k].items == ItemsOf(items, r[k].account) && r[k].items != [])
      && (forall i :: 0 <= i < |items| ==> HasAccount(r, items[i].category))
  {
    CorrectKeeps(s, totalPayment);
  }

  /**
   * One entry per category occurring among the items, ascending by account name; each
   * holds exactly its category's items in input order.
   */
  lemma GroupCategories(items: seq<Item>, totalPayment: real, quantize: Rounding)
    requires ListedTotal(items) != 0.0
    ensures var r := GroupItems(items, totalPayment, quantize);
      AccountsAscending(r)
      && (forall k :: 0 <= k < |r| ==> r[k].items == ItemsOf(items, r[k].account) && r[k].items != [])
      && (forall i :: 0 <= i < |items| ==> HasAccount(r, items[i].category))
  {
    var scale := totalPayment / ListedTotal(items);
    var s := Allocation(items, scale, quantize);
    SortedGroups(items, scale, quantize);
    AccumulateDistinct(items, scale, quantize);
    SortCategoriesAscending(Accumulate(items, scale, quantize));
    assert GroupItems(items, totalPayment, quantize) == Correct(s, totalPayment);
    CorrectedCategories(GroupItems(items, totalPayment, quantize), s, totalPayment, items, scale, quantize);
  }

  /**
   * Entry `m` has the first largest rounded sum, and every other entry totals exactly its
   * rounded sum.
   */
  predicate ResidualAt(r: seq<Category>, m: nat, scale: real, quantize: Rounding)
    requires m < |r|
  {
    (forall k :: 0 <= k < |r| ==> RoundedSum(r[k].items, scale, quantize) <= RoundedSum(r[m].items, scale, quantize))
    && (forall k :: 0 <= k < m ==> RoundedSum(r[k].items, scale, quantize) < RoundedSum(r[m].items, scale, quantize))
    && (forall k :: 0 <= k < |r| && k != m ==> r[k].total == RoundedSum(r[k].items, scale, quantize))
  }

  /** Every entry but the first largest keeps its rounded sum; that one takes the residual. */
  lemma CorrectedResidual(r: seq<Category>, s: seq<Category>, totalPayment: real, items: seq<Item>, scale: real, quantize: Rounding)
    requires s != [] && r == Correct(s, totalPayment)
    requires forall k :: 0 <= k < |s| ==> GroupOf(s[k], items, scale, quantize)
    ensures r != [] &&
      exists m :: 0 <= m < |r| && ResidualAt(r, m, scale, quantize)
  {
    CorrectKeeps(s, totalPayment);
    FirstMaxIsFirstLargest(s);
    var m := FirstMax(s);
    assert forall k :: 0 <= k < |s| ==> s[k].total == RoundedSum(r[k].items, scale, quantize);
    assert ResidualAt(r, m, scale, quantize);
  }

  /**
   * Every category but one totals exactly its items' rounded amounts; the one left is the
   * first with the largest such total, and it takes the residual.
   */
  lemma GroupResidual(items: seq<Item>, totalPayment: real, quantize: Rounding)
    requires ListedTotal(items) != 0.0
    ensures var r := GroupItems(items, totalPayment, quantize);
      var scale := totalPayment / ListedTotal(items);
      r != [] &&
      exists m :: 0 <= m < |r| && ResidualAt(r, m, scale, quantize)
  {
    var scale := totalPayment / ListedTotal(items);
    var s := Allocation(items, scale, quantize);
    SortedGroups(items, scale, quantize);
    assert GroupItems(items, totalPayment, quantize) == Correct(s, totalPayment);
    CorrectedResidual(GroupItems(items, totalPayment, quantize), s, totalPayment, items, scale, quantize);
  }

  /** An ascending grouping of items of one category, adding up to `total`, is a single entry. */
  lemma SingleCategory(r: seq<Category>, items: seq<Item>, total: real, account: string)
    requires items != [] && forall i :: 0 <= i < |items| ==> items[i].category == account
    requires AccountsAscending(r) && SumTotals(r) == total
    requires forall k :: 0 <= k < |r| ==> r[k].items == ItemsOf(items, r[k].account) && r[k].items != []
    requires HasAccount(r, items[0].category)
    ensures r == [Category(account, total, items)]
  {
    ItemsOfAll(items, account);
    forall k | 0 <= k < |r|
      ensures r[k].account == account
    {
      if r[k].account != account {
        ItemsOfAbsent(items, r[k].account);
      }
    }
    StrLessIrreflexive(account);
    assert |r| == 1;
    assert r == [r[0]];
    assert SumTotals(r) == r[0].total by {
      assert r[..0] == [];
    }
  }

  /** Items of a single category give one entry holding the whole payment and every item. */
  lemma GroupSingleCategory(items: seq<Item>, totalPayment: real, quantize: Rounding, account: string)
    requires ListedTotal(items) != 0.0
    requires forall i :: 0 <= i < |items| ==> items[i].category == account
    ensures GroupItems(items, totalPayment, quantize) == [Category(account, totalPayment, items)]
  {
    GroupCategories(items, totalPayment, quantize);
    assert items != [];
    SingleCategory(GroupItems(items, totalPayment, quantize), items, totalPayment, account);
  }

  lemma {:induction false} ItemsOfAll(items: seq<Item>, account: string)
    requires forall i :: 0 <= i < |items| ==> items[i].category == account
    ensures ItemsOf(items, account) == items
  {
    if items != [] {
      ItemsOfAll(items[..|items| - 1], account);
    }
  }

  /** Opening an entry at the end and then overwriting it is appending the overwritten entry. */
  lemma AppendThenSet(before: seq<Category>, opening: Category, entry: Category)
    ensures (before + [opening])[|before| := entry] == before + [entry]
  {
  }

  /** An item of an account already in the dictionary joins that entry in place. */
  lemma AddItemFound(before: seq<Category>, it: Item, effective: real, q: nat)
    requires FindAccount(before, it.category) == Some(q)
    ensures AddItem(before, it, effective)
      == before[q := Category(it.category, before[q].total + effective, before[q].items + [it])]
  {
  }

  /**
   * Updating the entry found for the item's account, or the zero entry opened at the end when
   * there is none, gives `AddItem`.
   */
  lemma {:induction false} UpdateEntry(before: seq<Category>, found: Option<nat>, widened: seq<Category>, q: nat, it: Item, effective: real)
    requires found == FindAccount(before, it.category)
    requires found.Some? ==> widened == before && q == found.value
    requires found.None? ==> widened == before + [Category(it.category, 0.0, [])] && q == |before|
    ensures q < |widened|
    ensures widened[q := Category(it.category, widened[q].total + effective, widened[q].items + [it])]
      == AddItem(before, it, effective)
  {
    if found.None? {
      AppendThenSet(before, Category(it.category, 0.0, []), Category(it.category, 0.0 + effective, [] + [it]));
    } else {
      AddItemFound(before, it, effective, q);
    }
  }

  /** One more item extends the dictionary by `AddItem`. */
  lemma AccumulateStep(items: seq<Item>, i: nat, scale: real, quantize: Rounding)
    requires i < |items|
    ensures Accumulate(items[..i + 1], scale, quantize)
      == AddItem(Accumulate(items[..i], scale, quantize), items[i], Effective(items[i], scale, quantize))
  {
    assert items[..i + 1][..i] == items[..i];
  }

  /** The `by_category` loop: each item's rounded, scaled amount added to its category's entry. */
  method CollectByCategory(items: seq<Item>, scale: real, quantize: Rounding) returns (byCategory: seq<Category>)
    ensures byCategory == Accumulate(items, scale, quantize)
  {
    byCategory := [];
    for i := 0 to |items|
      invariant byCategory == Accumulate(items[..i], scale, quantize)
    {
      var item := items[i];
      var account := item.category;
      var effective := Effective(item, scale, quantize);
      ghost var before := byCategory;
      var p := FindAccount(byCategory, account);
      ghost var found := p;
      if p.None? {
        byCategory := byCategory + [Category(account, 0.0, [])];
        p := Some(|byCategory| - 1);
      }
      var cur := byCategory[p.value];
      ghost var widened := byCategory;
      byCategory := byCategory[p.value := Category(account, cur.total + effective, cur.items + [item])];
      UpdateEntry(before, found, widened, p.value, item, effective);
      AccumulateStep(items, i, scale, quantize);
    }
    assert items[..|items|] == items;
  }

  /** The `group_items_by_category` procedure: the dictionary loop, the sort, the correction. */
  method GroupItemsByCategory(items: seq<Item>, totalPayment: real, quantize: Rounding) returns (result: seq<Category>)
    ensures result == GroupItems(items, totalPayment, quantize)
  {
    var listedTotal := ListedTotal(items);
    if listedTotal == 0.0 {
      return [];
    }
    var scale := totalPayment / listedTotal;
    var byCategory := CollectByCategory(items, scale, quantize);
    result := SortCategories(byCategory);
    ghost var sorted := result;
    var roundingDiff := totalPayment - SumTotals(result);
    if roundingDiff != 0.0 && result != [] {
      var maxIdx := FirstMax(result);
      var entry := result[maxIdx];
      result := result[maxIdx := entry.(total := entry.total + roundingDiff)];
    }
    assert result == Correct(sorted, totalPayment);
    GroupItemsNonZero(items, totalPayment, quantize, scale);
  }

  /** With a non-zero listed total the result is the corrected allocation at the payment's scale. */
  lemma GroupItemsNonZero(items: seq<Item>, totalPayment: real, quantize: Rounding, scale: real)
    requires ListedTotal(items) != 0.0 && scale == totalPayment / ListedTotal(items)
    ensures GroupItems(items, totalPayment, quantize) == Correct(Allocation(items, scale, quantize), totalPayment)
  {
  }
}
