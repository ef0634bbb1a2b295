/**
 * The intermediate transaction record every importer produces and every later stage
 * (clearing links, matching, ledger writer, CLI) consumes.
 */
module Model {
  import opened Wrappers
  import opened Numbers

  /** `tx_type`: the strings "expense", "income", "transfer" and "other". */
  datatype TxType = Expense | Income | Transfer | Other

  /** One purchased item of an itemised receipt: `{"name", "num", "price", "category"}`. */
  datatype Item = Item(name: string, num: int, price: Dec, category: string)

  /**
   * The `metadata` dictionary. Item lists are empty when the key is absent (an absent
   * and an empty list are both falsy for `metadata.get`); decimal values that the
   * importers store as `str(Decimal)` are kept as the decimal, which `Numbers.RenderParses`
   * shows is what reading them back with `Decimal(...)` gives.
   */
  datatype Metadata = Metadata(
    aldiItems: seq<Item>,
    costcoItems: seq<Item>,
    jdItems: seq<Item>,
    jdGiftCard: Option<Dec>,
    jdRefund: Option<Dec>,
    jdOriginal: Option<Dec>,
    foreignAmount: Option<Dec>,
    foreignCurrency: Option<string>,
    foreignRate: Option<string>,
    wechathkRefund: bool,
    link: Option<string>,
    aldiChannel: Option<string>,
    aldiDiscount: Option<Dec>,
    costcoDiscount: Option<Dec>,
    cardLast4: Option<string>,
    postDate: Option<int>,
    statementDate: Option<int>,
    cardSuffix: Option<string>,
    postingDate: Option<string>,
    balance: Option<string>,
    wechatStatus: Option<string>,
    wechatType: Option<string>,
    alipayStatus: Option<string>,
    alipaySource: Option<string>)

  const EmptyMeta: Metadata := Metadata(
    [], [], [], None, None, None, None, None, None, false, None, None, None, None,
    None, None, None, None, None, None, None, None, None, None)

  /**
   * A transaction. `date` is in seconds from the start of year 1; `amount` is exact, negative
   * for money leaving `sourceAccount`. `counterAccount` is the bridge account an importer
   * names for the other side, when it knows one.
   */
  datatype Transaction = Transaction(
    date: int,
    amount: real,
    currency: string,
    payee: string,
    narration: string,
    sourceAccount: string,
    counterAccount: Option<string>,
    paymentMethod: Option<string>,
    referenceId: Option<string>,
    counterpartRef: Option<string>,
    rawCategory: Option<string>,
    txType: Option<TxType>,
    metadata: Metadata)

  /** Python truthiness of an optional string: present and non-empty. */
  predicate Truthy(s: Option<string>)
  {
    s.Some? && s.value != ""
  }

  /** The transaction carries a link (`metadata.get("link")` is truthy). */
  predicate HasLink(tx: Transaction)
  {
    Truthy(tx.metadata.link)
  }

  /** The transaction with `metadata["link"]` set and nothing else changed. */
  function WithLink(tx: Transaction, link: string): (r: Transaction)
    ensures r.metadata.link == Some(link)
    ensures r.(metadata := tx.metadata) == tx
    ensures r.metadata.(link := tx.metadata.link) == tx.metadata
  {
    tx.(metadata := tx.metadata.(link := Some(link)))
  }

  function Abs(x: real): (r: real)
    ensures r >= 0.0 && (r == x || r == -x)
  {
    if x < 0.0 then -x else x
  }

  const SecondsPerDay: int := 86400

  /** Seconds from the start of year 1 to 1 January of year `y` (proleptic Gregorian). */
  function JanFirst(y: int): (t: int)
    requires y >= 1
    ensures t >= 0
  {
    var p := y - 1;
    (365 * p + p / 4 - p / 100 + p / 400) * SecondsPerDay
  }

  /** Later years start later. */
  lemma {:induction false} JanFirstIncreasing(a: int, b: int)
    requires 1 <= a < b
    ensures JanFirst(a) < JanFirst(b)
  {
    var p, q := a - 1, b - 1;
    assert p / 4 <= q / 4 && p / 400 <= q / 400;
    assert q / 100 - p / 100 <= (q - p) / 100 + 1;
    assert 365 * p + p / 4 - p / 100 + p / 400 < 365 * q + q / 4 - q / 100 + q / 400;
  }
}
