/**
 * The CITIC Bank credit card PDF importer: the page layout's column ranges, the amount
 * and date cells, the row sign convention, and the page loop that carries each billing
 * cycle's statement date and checks its expenses against the stated new charges.
 */
module Citic {
  import opened Wrappers
  import opened Text
  import opened Numbers
  import opened Model
  import Rows

  // The page layout.

  datatype Column = TxDate | PostDate | Card4 | Desc | TxAmt | SetlAmt

  /** The columns with their x-ranges `[lo, hi)`, in the order they are tried. */
  const Columns: seq<(Column, int, int)> := [
    (TxDate, 0, 72), (PostDate, 72, 143), (Card4, 143, 178),
    (Desc, 178, 368), (TxAmt, 368, 480), (SetlAmt, 480, 9999)
  ]

  /** The first column of `cols` whose range holds `x`. */
  function ColumnAmong(cols: seq<(Column, int, int)>, x: real): Option<Column>
  {
    if cols == [] then None
    else if cols[0].1 as real <= x < cols[0].2 as real then Some(cols[0].0)
    else ColumnAmong(cols[1..], x)
  }

  /** A column the lookup names is one of `cols` whose range holds `x`. */
  lemma {:induction false} ColumnAmongIn(cols: seq<(Column, int, int)>, x: real)
    ensures ColumnAmong(cols, x).Some? ==>
      exists k :: 0 <= k < |cols| && ColumnAmong(cols, x).value == cols[k].0
        && cols[k].1 as real <= x < cols[k].2 as real
  {
    if cols != [] && !(cols[0].1 as real <= x < cols[0].2 as real) && ColumnAmong(cols, x).Some? {
      var tail := cols[1..];
      ColumnAmongIn(tail, x);
      var k :| 0 <= k < |tail| && ColumnAmong(tail, x).value == tail[k].0
        && tail[k].1 as real <= x < tail[k].2 as real;
      assert cols[k + 1] == tail[k];
    }
  }

  /** Ranges that follow one another without gaps, each non-empty. */
  predicate Contiguous(cols: seq<(Column, int, int)>)
  {
    (forall k :: 0 <= k < |cols| ==> cols[k].1 < cols[k].2)
    && (forall k :: 0 <= k < |cols| - 1 ==> cols[k].2 == cols[k + 1].1)
  }

  /** Ranges in increasing order that do not overlap, under distinct names. */
  predicate Disjoint(cols: seq<(Column, int, int)>)
  {
    forall j, k :: 0 <= j < k < |cols| ==> cols[j].2 <= cols[k].1 && cols[j].0 != cols[k].0
  }

  /** Over disjoint ranges, the lookup names a column exactly when `x` is in its range. */
  lemma {:induction false} DisjointLookup(cols: seq<(Column, int, int)>, x: real, i: nat)
    requires Disjoint(cols) && i < |cols|
    ensures ColumnAmong(cols, x) == Some(cols[i].0) <==> cols[i].1 as real <= x < cols[i].2 as real
  {
    if cols[0].1 as real <= x < cols[0].2 as real {
      if i > 0 {
        assert cols[0].2 <= cols[i].1 && cols[0].0 != cols[i].0;
      }
    } else if i > 0 {
      var tail := cols[1..];
      assert tail[i - 1] == cols[i];
      DisjointLookup(tail, x, i - 1);
    } else {
      ColumnAmongIn(cols[1..], x);
    }
  }

  /** Over contiguous ranges, the lookup names some column exactly on their union. */
  lemma {:induction false} ContiguousCoverage(cols: seq<(Column, int, int)>, x: real)
    requires Contiguous(cols) && cols != []
    ensures ColumnAmong(cols, x).Some? <==> cols[0].1 as real <= x < cols[|cols| - 1].2 as real
  {
    if |cols| > 1 {
      var tail := cols[1..];
      assert Contiguous(tail) by {
        forall k | 0 <= k < |tail| - 1 ensures tail[k].2 == tail[k + 1].1 {
          assert tail[k] == cols[k + 1] && tail[k + 1] == cols[k + 2];
        }
      }
      ContiguousCoverage(tail, x);
      assert tail[0] == cols[1] && tail[|tail| - 1] == cols[|cols| - 1];
      ContiguousIncreasing(cols, |cols| - 1);
    }
  }

  /** Along contiguous ranges the upper ends only grow. */
  lemma {:induction false} ContiguousIncreasing(cols: seq<(Column, int, int)>, k: nat)
    requires Contiguous(cols) && 0 < k < |cols|
    ensures cols[0].2 <= cols[k].2
  {
    if k > 1 {
      ContiguousIncreasing(cols, k - 1);
    }
  }

  /**
   * `_citic_col_of`: the column whose range holds the word's left edge; left edges
   * outside `[0, 9999)` belong to no column.
   */
  function ColumnOf(x0: real): (r: Option<Column>)
    ensures r.Some? <==> 0.0 <= x0 < 9999.0
  {
    ContiguousCoverage(Columns, x0);
    ColumnAmong(Columns, x0)
  }

  /** Each column takes exactly the words whose left edge lies in its range. */
  lemma ColumnRanges(x0: real, i: nat)
    requires i < |Columns|
    ensures ColumnOf(x0) == Some(Columns[i].0) <==> Columns[i].1 as real <= x0 < Columns[i].2 as real
  {
    DisjointLookup(Columns, x0, i);
  }

  // The amount and date cells.

  /** The currency prefixes `_parse_amount` tries, in order. */
  const CurrencyPrefixes: seq<string> := ["CNY ", "RMB ", "HKD ", "USD ", "EUR "]

  /** `s` without the first of `prefixes` it starts with; at most one is removed. */
  function DropFirstPrefix(s: string, prefixes: seq<string>): (r: string)
    ensures |r| <= |s|
  {
    if prefixes == [] then s
    else if prefixes[0] <= s then s[|prefixes[0]|..]
    else DropFirstPrefix(s, prefixes[1..])
  }

  /** `_parse_amount`: strip, drop one currency prefix, remove commas, read the decimal. */
  function ParseAmount(s: string): (r: Option<Dec>)
    ensures Strip(s) == "" ==> r.None?
  {
    ParseDecimal(Strip(ReplaceAll(DropFirstPrefix(Strip(s), CurrencyPrefixes), ",", "")))
  }

  /** The text of a decimal has no comma and no whitespace at its ends. */
  lemma RenderIsPlain(d: Dec)
    ensures ',' !in Render(d)
    ensures Strip(Render(d)) == Render(d)
  {
    RenderNoComma(d);
    RenderStripped(d);
  }

  /** The text of a decimal is digits, a point and a sign: never a comma. */
  lemma RenderNoComma(d: Dec)
    ensures ',' !in Render(d)
  {
    RenderSign(d);
    var c: nat := if d.coef < 0 then -d.coef else d.coef;
    UnsignedNoComma(c, d.places);
  }

  lemma UnsignedNoComma(c: nat, k: nat)
    ensures ',' !in RenderUnsigned(c, k)
  {
    var digits := NatToString(c);
    assert ',' !in digits by {
      forall i | 0 <= i < |digits| ensures digits[i] != ',' {
        assert IsDigit(digits[i]);
      }
    }
    if k > 0 && |digits| <= k {
      var z := Zeros(k - |digits|);
      assert ',' !in z by {
        forall i | 0 <= i < |z| ensures z[i] != ',' {
          assert IsDigit(z[i]);
        }
      }
      assert RenderUnsigned(c, k) == "0." + z + digits;
    }
  }

  /** The text of a decimal has no surrounding space. */
  lemma RenderStripped(d: Dec)
    ensures Strip(Render(d)) == Render(d)
  {
    RenderEnds(d);
    var r := Render(d);
    DigitNotSpace(r[|r| - 1]);
    if IsDigit(r[0]) {
      DigitNotSpace(r[0]);
    }
    StripKeeps(r);
  }

  /** No prefix is dropped from text that starts with none of them. */
  lemma {:induction false} DropNoPrefix(s: string, prefixes: seq<string>)
    requires forall j :: 0 <= j < |prefixes| ==> !(prefixes[j] <= s)
    ensures DropFirstPrefix(s, prefixes) == s
  {
    if prefixes != [] {
      DropNoPrefix(s, prefixes[1..]);
    }
  }

  /** The first prefix the text starts with is the one dropped. */
  lemma {:induction false} DropFirstMatching(s: string, prefixes: seq<string>, k: nat)
    requires k < |prefixes| && prefixes[k] <= s
    requires forall j :: 0 <= j < k ==> !(prefixes[j] <= s)
    ensures DropFirstPrefix(s, prefixes) == s[|prefixes[k]|..]
  {
    if k > 0 {
      DropFirstMatching(s, prefixes[1..], k - 1);
    }
  }

  /** Text starting with a digit or a minus sign starts with no currency prefix. */
  lemma NoCurrencyPrefix(s: string)
    requires s != [] && (IsDigit(s[0]) || s[0] == '-')
    ensures forall j :: 0 <= j < |CurrencyPrefixes| ==> !(CurrencyPrefixes[j] <= s)
  {
    forall j | 0 <= j < |CurrencyPrefixes| ensures !(CurrencyPrefixes[j] <= s) {
      assert CurrencyPrefixes[j][0] in "CRHUE";
    }
  }

  /** A plain amount reads back as itself. */
  lemma AmountRoundTrip(d: Dec)
    ensures ParseAmount(Render(d)) == Some(d)
  {
    var r := Render(d);
    RenderIsPlain(d);
    RenderEnds(d);
    NoCurrencyPrefix(r);
    DropNoPrefix(r, CurrencyPrefixes);
    ReplaceAbsentCharIdentity(r, ',', "");
    RenderParses(d);
  }

  /** The prefixes all have four characters and differ, so only prefix `k` is dropped. */
  lemma DropsOwnPrefix(k: nat, r: string)
    requires k < |CurrencyPrefixes|
    ensures DropFirstPrefix(CurrencyPrefixes[k] + r, CurrencyPrefixes) == r
  {
    var ps := CurrencyPrefixes;
    var s := ps[k] + r;
    assert ps[k] <= s;
    forall j | 0 <= j < k
      ensures !(ps[j] <= s)
    {
      assert |ps[j]| == 4 && ps[j] != ps[k];
      assert s[..4] == ps[k];
    }
    DropFirstMatching(s, ps, k);
    assert s[|ps[k]|..] == r;
  }

  /** After one currency prefix, the rest of the text is read as it stands. */
  lemma ReadsAfterPrefix(k: nat, r: string)
    requires k < |CurrencyPrefixes| && r != [] && !IsSpace(r[0]) && !IsSpace(r[|r| - 1])
    requires ',' !in r
    ensures ParseAmount(CurrencyPrefixes[k] + r) == ParseDecimal(r)
  {
    var p := CurrencyPrefixes[k];
    var s := p + r;
    assert s[0] == p[0] && s[|s| - 1] == r[|r| - 1];
    assert !IsSpace(p[0]);
    StripKeeps(s);
    DropsOwnPrefix(k, r);
    ReplaceAbsentCharIdentity(r, ',', "");
    assert r[0] == s[|p|] && r[|r| - 1] == s[|s| - 1];
    StripKeeps(r);
  }

  /** An amount after any one currency prefix reads back as itself. */
  lemma PrefixedAmountRoundTrip(k: nat, d: Dec)
    requires k < |CurrencyPrefixes|
    ensures ParseAmount(CurrencyPrefixes[k] + Render(d)) == Some(d)
  {
    var r := Render(d);
    RenderNoComma(d);
    RenderEnds(d);
    DigitNotSpace(r[|r| - 1]);
    if IsDigit(r[0]) {
      DigitNotSpace(r[0]);
    }
    ReadsAfterPrefix(k, r);
    RenderParses(d);
  }

  /** Text that starts with a letter is no decimal. */
  lemma LetterFirstUnreadable(t: string)
    requires t != [] && ('A' <= t[0] <= 'Z') && !IsSpace(t[|t| - 1])
    ensures ParseDecimal(t) == None
  {
    StripKeeps(t);
    assert ParseUnsignedDecimal(t) == None by {
      if IndexOf(t, '.').Some? {
        var i := IndexOf(t, '.').value;
        assert t[..i][0] == t[0];
      }
    }
  }

  /** Only one prefix is dropped: a second prefix makes the amount unreadable. */
  lemma OnePrefixOnly(k: nat, j: nat, d: Dec)
    requires k < |CurrencyPrefixes| && j < |CurrencyPrefixes|
    ensures ParseAmount(CurrencyPrefixes[k] + CurrencyPrefixes[j] + Render(d)) == None
  {
    var q, r := CurrencyPrefixes[j], Render(d);
    var u := q + r;
    assert CurrencyPrefixes[k] + q + r == CurrencyPrefixes[k] + u;
    RenderEnds(d);
    DigitNotSpace(r[|r| - 1]);
    RenderNoComma(d);
    assert ',' !in q && u[0] == q[0] && u[|u| - 1] == r[|r| - 1];
    ReadsAfterPrefix(k, u);
    LetterFirstUnreadable(u);
  }

  /** The transaction date formats `_parse_date` tries, in order. */
  const DateFormats: seq<string> := ["%Y%m%d", "%Y-%m-%d"]

  /** `_parse_date`: the stripped text read by the first format that accepts it. */
  function ParseDate(s: string, strptime: Rows.Strptime): (r: Option<int>)
    ensures r.Some? ==> exists k :: 0 <= k < |DateFormats| && strptime(Strip(s), DateFormats[k]) == r
  {
    Rows.FirstFormatIs(Strip(s), DateFormats, strptime);
    Rows.FirstFormat(Strip(s), DateFormats, strptime)
  }

  // One table row.

  /** A row of the table: the text of each of its cells, or `None` for an empty cell. */
  type Cells = seq<Option<string>>

  /** The header texts of the first column. */
  const HeaderCells: set<string> := {"交易日", "交易日期"}

  /** `str(c).strip() if c else ""`. */
  function CellText(c: Option<string>): string
  {
    if c.Some? && c.value != "" then Strip(c.value) else ""
  }

  function CellTexts(row: Cells): (r: seq<string>)
    ensures |r| == |row| && forall k :: 0 <= k < |row| ==> r[k] == CellText(row[k])
  {
    seq(|row|, k requires 0 <= k < |row| => CellText(row[k]))
  }

  /** The settlement amount (column 5) when the row has one, otherwise the transaction amount. */
  function AmountCell(cells: seq<string>): (r: string)
    requires |cells| >= 5
    ensures r == cells[4] || (|cells| > 5 && r == cells[5])
  {
    if |cells| > 5 && cells[5] != "" then cells[5] else cells[4]
  }

  /** What an accepted row contributes to its transaction. */
  datatype RowFacts = RowFacts(date: int, postDate: Option<int>, card: string, description: string, raw: Dec)

  /** The reads of `_parse_row`; `None` for a row it skips. */
  function ReadRow(row: Cells, strptime: Rows.Strptime): (r: Option<RowFacts>)
    ensures r.Some? ==> |row| >= 5
  {
    if |row| < 5 then None
    else
      var cells := CellTexts(row);
      if cells[0] in HeaderCells || cells[0] == "" then None
      else
        match ParseDate(cells[0], strptime)
        case None => None
        case Some(date) =>
          var amount := AmountCell(cells);
          if amount == "" then None
          else
            match ParseAmount(amount)
            case None => None
            case Some(raw) => Some(RowFacts(date, ParseDate(cells[1], strptime), cells[2], cells[3], raw))
  }

  /** A statement charge (zero included) is an expense, a negative amount income. */
  function RowType(raw: Dec): TxType
  {
    if raw.Value() >= 0.0 then Expense else Income
  }

  /** The transaction of an accepted row. */
  function RowTransaction(f: RowFacts, account: string, currency: string, statementDate: Option<int>)
    : (tx: Transaction)
    ensures tx.amount == -f.raw.Value()
  {
    Transaction(
      date := f.date,
      amount := -f.raw.Value(),
      currency := currency,
      payee := f.description,
      narration := f.description,
      sourceAccount := account,
      counterAccount := None,
      paymentMethod := None,
      referenceId := None,
      counterpartRef := None,
      rawCategory := None,
      txType := Some(RowType(f.raw)),
      metadata := EmptyMeta.(cardLast4 := if f.card != "" then Some(f.card) else None,
                             postDate := f.postDate, statementDate := statementDate))
  }

  /** `_parse_row`. */
  function ParseRow(row: Cells, account: string, currency: string, statementDate: Option<int>,
                    strptime: Rows.Strptime)
    : (r: Option<Transaction>)
    ensures r.Some? ==> |row| >= 5 && r.value.sourceAccount == account && r.value.currency == currency
    ensures r.Some? ==> r.value.counterAccount.None? && r.value.metadata.statementDate == statementDate
  {
    match ReadRow(row, strptime)
    case None => None
    case Some(f) => Some(RowTransaction(f, account, currency, statementDate))
  }

  /**
   * The rows `_parse_row` accepts: at least five cells, a first cell that is neither empty
   * nor a header and holds a date, and an amount cell that is present and reads.
   */
  lemma RowAccepted(row: Cells, account: string, currency: string, statementDate: Option<int>,
                    strptime: Rows.Strptime)
    ensures ParseRow(row, account, currency, statementDate, strptime).Some? <==>
      (|row| >= 5
       && var cells := CellTexts(row);
          cells[0] !in HeaderCells && cells[0] != ""
          && ParseDate(cells[0], strptime).Some?
          && AmountCell(cells) != "" && ParseAmount(AmountCell(cells)).Some?)
  {
  }

  /**
   * The sign convention: the recorded amount is the statement amount negated; a charge
   * (zero included) is an expense and never positive, a negative amount is income and
   * positive. The amount is the settlement column's when that cell is filled.
   */
  lemma RowSigns(row: Cells, account: string, currency: string, statementDate: Option<int>,
                 strptime: Rows.Strptime)
    requires ParseRow(row, account, currency, statementDate, strptime).Some?
    ensures var tx := ParseRow(row, account, currency, statementDate, strptime).value;
      var cells := CellTexts(row);
      var raw := ParseAmount(AmountCell(cells)).value;
      tx.amount == -raw.Value()
      && (tx.txType == Some(Expense) <==> raw.Value() >= 0.0)
      && (tx.txType == Some(Income) <==> raw.Value() < 0.0)
      && (tx.txType == Some(Expense) ==> tx.amount <= 0.0)
      && (tx.txType == Some(Income) ==> tx.amount > 0.0)
      && (|row| > 5 && CellText(row[5]) != "" ==> raw == ParseAmount(CellText(row[5])).value)
      && (|row| == 5 || CellText(row[5]) == "" ==> raw == ParseAmount(CellText(row[4])).value)
  {
  }

  /**
   * Every accepted row is on the card's account with no counter account; the card digits
   * are recorded only when present, the posting date when it reads, and the statement
   * date in effect.
   */
  lemma RowFields(row: Cells, account: string, currency: string, statementDate: Option<int>,
                  strptime: Rows.Strptime)
    requires ParseRow(row, account, currency, statementDate, strptime).Some?
    ensures var tx := ParseRow(row, account, currency, statementDate, strptime).value;
      var cells := CellTexts(row);
      tx.sourceAccount == account && tx.currency == currency && tx.counterAccount.None?
      && tx.payee == cells[3] && tx.narration == cells[3]
      && tx.date == ParseDate(cells[0], strptime).value
      && (tx.metadata.cardLast4.Some? <==> cells[2] != "")
      && (tx.metadata.cardLast4.Some? ==> tx.metadata.cardLast4.value == cells[2])
      && tx.metadata.postDate == ParseDate(cells[1], strptime)
      && tx.metadata.statementDate == statementDate
  {
  }

  // The statement date and the stated new charges in a page's text.

  /** The first digit at or after `j`, or the end of the text. */
  function FirstDigitFrom(s: string, j: nat): (k: nat)
    requires j <= |s|
    ensures j <= k <= |s| && (k < |s| ==> IsDigit(s[k]))
    ensures forall m :: j <= m < k ==> !IsDigit(s[m])
    decreases |s| - j
  {
    if j == |s| || IsDigit(s[j]) then j else FirstDigitFrom(s, j + 1)
  }

  /** `\d{4}-\d{2}-\d{2}` at `k`. */
  predicate DateShapeAt(s: string, k: nat)
  {
    k + 10 <= |s| && AllDigits(s[k..k + 4]) && s[k + 4] == '-' && AllDigits(s[k + 5..k + 7])
    && s[k + 7] == '-' && AllDigits(s[k + 8..k + 10])
  }

  const StatementLabel: string := "账单日"

  /** The most non-digits allowed between the label and the date. */
  const MaxGap: nat := 30

  /**
   * The statement date pattern `账单日\D{0,30}?(\d{4}-\d{2}-\d{2})` tried at `i`. The gap
   * can only end at the first digit after the label, so the lazy repetition has one choice.
   */
  function StatementDateAt(text: string, i: nat): (r: Option<string>)
    ensures r.Some? ==> |r.value| == 10
  {
    if i + 3 <= |text| && text[i..i + 3] == StatementLabel then
      var k := FirstDigitFrom(text, i + 3);
      if k - (i + 3) <= MaxGap && DateShapeAt(text, k) then Some(text[k..k + 10]) else None
    else None
  }

  /** `[\d,]`. */
  predicate GroupedDigit(c: char)
  {
    IsDigit(c) || c == ','
  }

  /**
   * `\w`: ASCII letters, digits and the underscore, and the CJK unified ideographs.
   */
  predicate IsWordChar(c: char)
  {
    ('a' <= c <= 'z') || ('A' <= c <= 'Z') || IsDigit(c) || c == '_' || ('一' <= c <= '鿿')
  }

  /** The end of the run of `[\d,]` characters starting at `i`. */
  function GroupedEnd(s: string, i: nat): (e: nat)
    requires i <= |s|
    ensures i <= e <= |s| && (e < |s| ==> !GroupedDigit(s[e]))
    ensures forall m :: i <= m < e ==> GroupedDigit(s[m])
    decreases |s| - i
  {
    if i == |s| || !GroupedDigit(s[i]) then i else GroupedEnd(s, i + 1)
  }

  /** The end of the run of whitespace starting at `i`. */
  function SpaceEnd(s: string, i: nat): (e: nat)
    requires i <= |s|
    ensures i <= e <= |s| && (e < |s| ==> !IsSpace(s[e]))
    ensures forall m :: i <= m < e ==> IsSpace(s[m])
    decreases |s| - i
  {
    if i == |s| || !IsSpace(s[i]) then i else SpaceEnd(s, i + 1)
  }

  /**
   * `\s+([\d,]+\.\d{2})` at `i`: where the amount starts and ends. The runs must be
   * maximal (a shorter one is followed by a character the next part cannot start with),
   * so there is one way to match.
   */
  function SpacedAmountAt(s: string, i: nat): (r: Option<(nat, nat)>)
    requires i <= |s|
    ensures r.Some? ==> i < r.value.0 < r.value.1 <= |s|
  {
    var w := SpaceEnd(s, i);
    var e := GroupedEnd(s, w);
    if w > i && e > w && e + 3 <= |s| && s[e] == '.' && IsDigit(s[e + 1]) && IsDigit(s[e + 2])
    then Some((w, e + 3))
    else None
  }

  /**
   * The balance pattern `CNY\s+([\d,]+\.\d{2})\s+([\d,]+\.\d{2})\s+([\d,]+\.\d{2})\b`
   * tried at `p`: its third amount.
   */
  function BalanceAt(text: string, p: nat): Option<string>
  {
    if !(p + 3 <= |text| && text[p..p + 3] == "CNY") then None
    else
      var first := SpacedAmountAt(text, p + 3);
      if first.None? then None
      else
        var second := SpacedAmountAt(text, first.value.1);
        if second.None? then None
        else
          var third := SpacedAmountAt(text, second.value.1);
          if third.None? then None
          else if third.value.1 == |text| || !IsWordChar(text[third.value.1]) then
            Some(text[third.value.0..third.value.1])
          else None
  }

  /** `re.search`: what the pattern captures at the leftmost position where it matches. */
  function Leftmost(text: string, from: nat, at: (string, nat) -> Option<string>): Option<string>
    decreases |text| - from
  {
    if from > |text| then None
    else if at(text, from).Some? then at(text, from)
    else Leftmost(text, from + 1, at)
  }

  /** The search finds a match at `p` when nothing matches between `from` and `p`. */
  lemma {:induction false} LeftmostIs(text: string, from: nat, p: nat, at: (string, nat) -> Option<string>)
    requires from <= p <= |text| && at(text, p).Some?
    requires forall q :: from <= q < p ==> at(text, q).None?
    ensures Leftmost(text, from, at) == at(text, p)
    decreases p - from
  {
    if from < p {
      LeftmostIs(text, from + 1, p, at);
    }
  }

  /** The search finds nothing when the pattern matches nowhere. */
  lemma {:induction false} LeftmostNone(text: string, from: nat, at: (string, nat) -> Option<string>)
    requires forall q :: from <= q <= |text| ==> at(text, q).None?
    ensures Leftmost(text, from, at).None?
    decreases |text| - from
  {
    if from <= |text| {
      LeftmostNone(text, from + 1, at);
    }
  }

  /** The label of the card balance summary that states the cycle's new charges. */
  const NewChargeLabel: string := "本期新增金额"

  /**
   * What a page's text says about the new charges: nothing (`None`) unless it has the
   * label and the balance row; otherwise the third amount without commas, or `None`
   * inside when `Decimal` rejects it.
   */
  function ChargeReading(text: string): Option<Option<Dec>>
  {
    if !Contains(text, NewChargeLabel) then None
    else
      match Leftmost(text, 0, BalanceAt)
      case None => None
      case Some(amount) => Some(ParseDecimal(ReplaceAll(amount, ",", "")))
  }

  /** `_extract_new_charge`. */
  function ExtractNewCharge(text: string): (r: Option<Dec>)
    ensures r.Some? ==> Contains(text, NewChargeLabel)
  {
    match ChargeReading(text)
    case Some(Some(d)) => Some(d)
    case _ => None
  }

  /** No label, no new charges, whatever else the text says. */
  lemma NoLabelNoCharge(text: string)
    requires !Contains(text, NewChargeLabel)
    ensures ExtractNewCharge(text).None? && ChargeReading(text).None?
  {
  }

  /** `t[i..j]` is `[\d,]+\.\d{2}`: a run of digits and commas, a point and two digits. */
  predicate TwoPlacesAt(t: string, i: nat, j: nat)
  {
    i + 4 <= j <= |t| && (forall m :: i <= m < j - 3 ==> GroupedDigit(t[m]))
    && t[j - 3] == '.' && IsDigit(t[j - 2]) && IsDigit(t[j - 1])
  }

  /** `t[i..j]` is one space and such an amount. */
  predicate SpacedAt(t: string, i: nat, j: nat)
  {
    i < |t| && t[i] == ' ' && TwoPlacesAt(t, i + 1, j)
  }

  /** A spaced amount followed by a character that cannot continue it matches. */
  lemma SpacedAmountMatches(s: string, i: nat, j: nat)
    requires SpacedAt(s, i, j) && (j == |s| || !IsDigit(s[j]))
    ensures SpacedAmountAt(s, i) == Some((i + 1, j))
  {
    assert GroupedDigit(s[i + 1]);
    assert !IsSpace(s[i + 1]) by {
      if IsDigit(s[i + 1]) {
        DigitNotSpace(s[i + 1]);
      }
    }
    assert IsSpace(' ');
    assert SpaceEnd(s, i + 1) == i + 1;
    assert SpaceEnd(s, i) == i + 1;
    GroupedEndIs(s, i + 1, j - 3);
  }

  lemma GroupedEndIs(s: string, i: nat, e: nat)
    requires i <= e < |s| && !GroupedDigit(s[e])
    requires forall m :: i <= m < e ==> GroupedDigit(s[m])
    ensures GroupedEnd(s, i) == e
  {
  }

  /**
   * `t` holds the balance row at `p`: `CNY`, then three spaced amounts ending at `e1`,
   * `e2` and `e3`, then the end of the text or a character that ends a word.
   */
  predicate BalanceRow(t: string, p: nat, e1: nat, e2: nat, e3: nat)
  {
    p + 3 <= |t| && t[p..p + 3] == "CNY"
    && SpacedAt(t, p + 3, e1) && SpacedAt(t, e1, e2) && SpacedAt(t, e2, e3)
    && (e3 == |t| || !IsWordChar(t[e3]))
  }

  /** The balance pattern matches such a row and captures its third amount. */
  lemma BalanceRowMatches(t: string, p: nat, e1: nat, e2: nat, e3: nat)
    requires BalanceRow(t, p, e1, e2, e3)
    ensures BalanceAt(t, p) == Some(t[e2 + 1..e3])
  {
    BalanceRowAmounts(t, p, e1, e2, e3);
  }

  lemma BalanceRowAmounts(t: string, p: nat, e1: nat, e2: nat, e3: nat)
    requires BalanceRow(t, p, e1, e2, e3)
    ensures SpacedAmountAt(t, p + 3) == Some((p + 4, e1))
    ensures SpacedAmountAt(t, e1) == Some((e1 + 1, e2))
    ensures SpacedAmountAt(t, e2) == Some((e2 + 1, e3))
  {
    assert !IsDigit(' ');
    SpacedAmountMatches(t, p + 3, e1);
    SpacedAmountMatches(t, e1, e2);
    SpacedAmountMatches(t, e2, e3);
  }

  /** The balance pattern only matches where `CNY` starts. */
  lemma NoBalanceWithoutC(t: string, q: nat)
    requires q < |t| && t[q] != 'C'
    ensures BalanceAt(t, q).None?
  {
    if q + 3 <= |t| {
      assert t[q..q + 3][0] == t[q];
    }
  }

  /** With no `C` before it, the row is the first place the balance pattern matches. */
  lemma FirstBalanceRow(t: string, p: nat, e1: nat, e2: nat, e3: nat)
    requires BalanceRow(t, p, e1, e2, e3) && 'C' !in t[..p]
    ensures Leftmost(t, 0, BalanceAt) == Some(t[e2 + 1..e3])
  {
    BalanceRowMatches(t, p, e1, e2, e3);
    forall q | 0 <= q < p ensures BalanceAt(t, q).None? {
      assert t[..p][q] == t[q];
      NoBalanceWithoutC(t, q);
    }
    LeftmostIs(t, 0, p, BalanceAt);
  }

  /**
   * `_extract_new_charge` reads the third amount of the CNY balance row: on a page whose
   * text has the label before the row and no `C` before it, it is that amount without
   * its commas.
   */
  lemma NewChargeIsThirdAmount(t: string, p: nat, e1: nat, e2: nat, e3: nat)
    requires BalanceRow(t, p, e1, e2, e3)
    requires Contains(t[..p], NewChargeLabel) && 'C' !in t[..p]
    ensures ExtractNewCharge(t) == ParseDecimal(ReplaceAll(t[e2 + 1..e3], ",", ""))
  {
    ContainsInPrefix(t, t[..p], NewChargeLabel);
    FirstBalanceRow(t, p, e1, e2, e3);
  }

  /** In particular a third amount written as a decimal's text reads as that decimal. */
  lemma NewChargeReadsBack(t: string, p: nat, e1: nat, e2: nat, e3: nat, c: Dec)
    requires BalanceRow(t, p, e1, e2, e3) && t[e2 + 1..e3] == Render(c)
    requires Contains(t[..p], NewChargeLabel) && 'C' !in t[..p]
    ensures ExtractNewCharge(t) == Some(c)
  {
    NewChargeIsThirdAmount(t, p, e1, e2, e3);
    RenderIsPlain(c);
    ReplaceAbsentCharIdentity(Render(c), ',', "");
    RenderParses(c);
  }

  /**
   * The statement date is the date after the label: a page whose text, free of `账`
   * before the label, has the label, up to 30 non-digits and a `YYYY-MM-DD` date, gives
   * that date.
   */
  lemma StatementDateAfterLabel(pre: string, gap: string, date: string, rest: string)
    requires '账' !in pre && |gap| <= MaxGap && forall m :: 0 <= m < |gap| ==> !IsDigit(gap[m])
    requires |date| == 10 && DateShapeAt(date, 0)
    ensures Leftmost(pre + StatementLabel + gap + date + rest, 0, StatementDateAt) == Some(date)
  {
    var t := pre + StatementLabel + gap + date + rest;
    var p := |pre|;
    var j := p + 3;
    var k := j + |gap|;
    assert t[p..p + 3] == StatementLabel;
    assert t[k..k + 10] == date;
    forall m | j <= m < k ensures !IsDigit(t[m]) {
      assert t[m] == gap[m - j];
    }
    assert t[k] == date[0] && date[..4][0] == date[0];
    FirstDigitIs(t, j, k);
    DateShapeInside(t, k, date);
    forall q | 0 <= q < p ensures StatementDateAt(t, q).None? {
      assert t[q] == pre[q];
    }
    LeftmostIs(t, 0, p, StatementDateAt);
  }

  lemma FirstDigitIs(t: string, j: nat, k: nat)
    requires j <= k < |t| && IsDigit(t[k]) && forall m :: j <= m < k ==> !IsDigit(t[m])
    ensures FirstDigitFrom(t, j) == k
  {
    var f := FirstDigitFrom(t, j);
    assert !(f < k) && !(f > k);
  }

  lemma DateShapeInside(t: string, k: nat, date: string)
    requires k + 10 <= |t| && t[k..k + 10] == date && DateShapeAt(date, 0)
    ensures DateShapeAt(t, k)
  {
    var w := t[k..k + 10];
    assert w[4] == t[k + 4] && w[7] == t[k + 7];
    assert t[k..k + 4] == w[..4];
    var month, day := t[k + 5..k + 7], t[k + 8..k + 10];
    forall m | 0 <= m < 2 ensures IsDigit(month[m]) && IsDigit(day[m]) {
      assert month[m] == w[5 + m] == date[5..7][m];
      assert day[m] == w[8 + m] == date[8..10][m];
    }
  }

  // The page loop.

  /** A page as the layout reader hands it over: its text and its transaction rows. */
  datatype Page = Page(text: string, table: seq<Option<Cells>>)

  const StatementDateFormat: string := "%Y-%m-%d"

  /** The cycle check's tolerance. */
  const Tolerance: real := 1.0

  /** A cycle whose expenses differ from the stated new charges by more than the tolerance. */
  datatype Mismatch = Mismatch(statementDate: Option<int>, computed: real, stated: Dec)

  /** The statement date in effect after a page: its own when it has one that reads. */
  function PageDate(text: string, current: Option<int>, strptime: Rows.Strptime): Option<int>
  {
    match Leftmost(text, 0, StatementDateAt)
    case None => current
    case Some(found) =>
      match strptime(found, StatementDateFormat)
      case Some(date) => Some(date)
      case None => current
  }

  /** The stated new charges after a page's text is read. */
  function PageCharge(text: string, current: Option<Dec>): Option<Dec>
  {
    match ChargeReading(text)
    case Some(reading) => reading
    case None => current
  }

  /** `_parse_row` on a table entry; an absent row is skipped. */
  function RowParser(account: string, currency: string, statementDate: Option<int>,
                     strptime: Rows.Strptime)
    : Option<Cells> -> Option<Transaction>
  {
    (row: Option<Cells>) => if row.None? then None else ParseRow(row.value, account, currency, statementDate, strptime)
  }

  /** The expenses among `txs`, in order. */
  function Expenses(txs: seq<Transaction>): (r: seq<Transaction>)
    ensures |r| <= |txs|
    ensures forall k :: 0 <= k < |r| ==> r[k].txType == Some(Expense)
  {
    if txs == [] then []
    else
      var n := |txs| - 1;
      Expenses(txs[..n]) + (if txs[n].txType == Some(Expense) then [txs[n]] else [])
  }

  /** `sum(-tx.amount for tx in expenses)`. */
  function Cost(expenses: seq<Transaction>): real
  {
    if expenses == [] then 0.0 else Cost(expenses[..|expenses| - 1]) - expenses[|expenses| - 1].amount
  }

  /** The state the page loop carries. */
  datatype State = State(transactions: seq<Transaction>, statementDate: Option<int>,
                         newCharge: Option<Dec>, mismatches: seq<Mismatch>)

  /**
   * The cycle check after a page's rows: with stated new charges and at least one expense,
   * a mismatch when they differ by more than the tolerance, and the stated value cleared.
   */
  function Check(date: Option<int>, charge: Option<Dec>, expenses: seq<Transaction>)
    : (r: (Option<Dec>, seq<Mismatch>))
    ensures |r.1| <= 1
    ensures r.1 != [] <==>
      (charge.Some? && expenses != [] && Abs(Cost(expenses) - charge.value.Value()) > Tolerance)
    ensures r.1 != [] ==> r.1[0].stated == charge.value && r.1[0].computed == Cost(expenses)
    ensures r.0.Some? ==> r.0 == charge && expenses == []
  {
    if charge.Some? && expenses != [] then
      var total := Cost(expenses);
      (None, if Abs(total - charge.value.Value()) > Tolerance then [Mismatch(date, total, charge.value)] else [])
    else (charge, [])
  }

  /** One pass of the page loop. */
  function PageStep(s: State, page: Page, account: string, currency: string, strptime: Rows.Strptime)
    : (r: State)
    ensures s.transactions <= r.transactions && s.mismatches <= r.mismatches
    ensures |r.mismatches| <= |s.mismatches| + 1
  {
    var date := PageDate(page.text, s.statementDate, strptime);
    var charge := PageCharge(page.text, s.newCharge);
    var txs := Rows.Parsed(page.table, RowParser(account, currency, date, strptime));
    var checked := Check(date, charge, Expenses(txs));
    State(s.transactions + txs, date, checked.0, s.mismatches + checked.1)
  }

  /** The page loop as a value. */
  function ParsePages(pages: seq<Page>, account: string, currency: string, strptime: Rows.Strptime)
    : (r: State)
    ensures |r.mismatches| <= |pages|
  {
    if pages == [] then State([], None, None, [])
    else
      var n := |pages| - 1;
      PageStep(ParsePages(pages[..n], account, currency, strptime), pages[n], account, currency, strptime)
  }

  /** The row loop of `_parse`: the page's transactions and, among them, its expenses. */
  method ParseTable(table: seq<Option<Cells>>, account: string, currency: string,
                    statementDate: Option<int>, strptime: Rows.Strptime)
    returns (txs: seq<Transaction>, expenses: seq<Transaction>)
    ensures txs == Rows.Parsed(table, RowParser(account, currency, statementDate, strptime))
    ensures expenses == Expenses(txs)
  {
    var parse := RowParser(account, currency, statementDate, strptime);
    txs, expenses := [], [];
    for i := 0 to |table|
      invariant txs == Rows.Parsed(table[..i], parse)
      invariant expenses == Expenses(txs)
    {
      assert table[..i + 1][..i] == table[..i];
      var row := table[i];
      if row.Some? {
        var tx := ParseRow(row.value, account, currency, statementDate, strptime);
        if tx.Some? {
          assert (txs + [tx.value])[..|txs|] == txs;
          txs := txs + [tx.value];
          if tx.value.txType == Some(Expense) {
            expenses := expenses + [tx.value];
          }
        }
      }
    }
    assert table[..|table|] == table;
  }

  /** One more page: the state after a prefix of the pages, advanced by the next page. */
  lemma ParsePagesStep(pages: seq<Page>, i: nat, account: string, currency: string,
                       strptime: Rows.Strptime)
    requires i < |pages|
    ensures ParsePages(pages[..i + 1], account, currency, strptime)
      == PageStep(ParsePages(pages[..i], account, currency, strptime), pages[i], account, currency, strptime)
  {
    assert pages[..i + 1][..i] == pages[..i];
  }

  /** The state after a page, given what each part of the loop body computes. */
  lemma PageStepParts(s: State, page: Page, account: string, currency: string, strptime: Rows.Strptime,
                      date: Option<int>, charge: Option<Dec>, txs: seq<Transaction>)
    requires date == PageDate(page.text, s.statementDate, strptime)
    requires charge == PageCharge(page.text, s.newCharge)
    requires txs == Rows.Parsed(page.table, RowParser(account, currency, date, strptime))
    ensures var checked := Check(date, charge, Expenses(txs));
      PageStep(s, page, account, currency, strptime)
      == State(s.transactions + txs, date, checked.0, s.mismatches + checked.1)
  {
  }

  /** The statement date block of `_parse`. */
  method UpdateStatementDate(text: string, current: Option<int>, strptime: Rows.Strptime)
    returns (date: Option<int>)
    ensures date == PageDate(text, current, strptime)
  {
    date := current;
    var found := Leftmost(text, 0, StatementDateAt);
    if found.Some? {
      var parsed := strptime(found.value, StatementDateFormat);
      if parsed.Some? {
        date := parsed;
      }
    }
  }

  /** The new charges block of `_parse`. */
  method UpdateNewCharge(text: string, current: Option<Dec>) returns (charge: Option<Dec>)
    ensures charge == PageCharge(text, current)
  {
    charge := current;
    if Contains(text, NewChargeLabel) {
      var amount := Leftmost(text, 0, BalanceAt);
      if amount.Some? {
        charge := ParseDecimal(ReplaceAll(amount.value, ",", ""));
      }
    }
  }

  /** The cycle check block of `_parse`: the stated charges left and the mismatch reported. */
  method CheckCycle(date: Option<int>, charge: Option<Dec>, expenses: seq<Transaction>)
    returns (left: Option<Dec>, reported: seq<Mismatch>)
    ensures (left, reported) == Check(date, charge, expenses)
  {
    left, reported := charge, [];
    if charge.Some? && expenses != [] {
      var total := Cost(expenses);
      if Abs(total - charge.value.Value()) > Tolerance {
        reported := [Mismatch(date, total, charge.value)];
      }
      left := None;
    }
  }

  /** `CiticCreditPdfImporter._parse`: the transactions and the cycle mismatches it warns about. */
  method Parse(pages: seq<Page>, account: string, currency: string, strptime: Rows.Strptime)
    returns (transactions: seq<Transaction>, mismatches: seq<Mismatch>)
    ensures transactions == ParsePages(pages, account, currency, strptime).transactions
    ensures mismatches == ParsePages(pages, account, currency, strptime).mismatches
  {
    transactions, mismatches := [], [];
    var statementDate: Option<int> := None;
    var newCharge: Option<Dec> := None;
    for i := 0 to |pages|
      invariant ParsePages(pages[..i], account, currency, strptime)
        == State(transactions, statementDate, newCharge, mismatches)
    {
      ghost var before := State(transactions, statementDate, newCharge, mismatches);
      ParsePagesStep(pages, i, account, currency, strptime);
      statementDate := UpdateStatementDate(pages[i].text, statementDate, strptime);
      newCharge := UpdateNewCharge(pages[i].text, newCharge);
      var txs, expenses := ParseTable(pages[i].table, account, currency, statementDate, strptime);
      PageStepParts(before, pages[i], account, currency, strptime, statementDate, newCharge, txs);
      transactions := transactions + txs;
      var reported;
      newCharge, reported := CheckCycle(statementDate, newCharge, expenses);
      mismatches := mismatches + reported;
    }
    assert pages[..|pages|] == pages;
  }

  /**
   * The statement date carries over: a page without a readable statement date keeps the
   * one in effect, and a page with one replaces it.
   */
  lemma StatementDateCarries(text: string, current: Option<int>, strptime: Rows.Strptime)
    ensures Leftmost(text, 0, StatementDateAt).None? ==> PageDate(text, current, strptime) == current
    ensures (Leftmost(text, 0, StatementDateAt).Some?
             && strptime(Leftmost(text, 0, StatementDateAt).value, StatementDateFormat).Some?) ==>
      PageDate(text, current, strptime) == strptime(Leftmost(text, 0, StatementDateAt).value, StatementDateFormat)
  {
  }

  /**
   * The cycle check: a mismatch is reported exactly when there are stated new charges, the
   * page has expenses, and their cost is more than the tolerance away; the stated value
   * is then cleared, so each statement is checked once.
   */
  lemma CheckOnce(date: Option<int>, charge: Option<Dec>, expenses: seq<Transaction>)
    ensures var r := Check(date, charge, expenses);
      (|r.1| == 1 <==> charge.Some? && expenses != [] && Abs(Cost(expenses) - charge.value.Value()) > Tolerance)
      && |r.1| <= 1
      && (charge.Some? && expenses != [] ==> r.0.None?)
      && (charge.None? || expenses == [] ==> r.0 == charge && r.1 == [])
      && (|r.1| == 1 ==> r.1[0] == Mismatch(date, Cost(expenses), charge.value))
  {
  }

  /** At most one mismatch is reported per page. */
  lemma {:induction false} MismatchesPerPage(pages: seq<Page>, account: string, currency: string,
                                             strptime: Rows.Strptime)
    ensures |ParsePages(pages, account, currency, strptime).mismatches| <= |pages|
  {
    if pages != [] {
      var n := |pages| - 1;
      MismatchesPerPage(pages[..n], account, currency, strptime);
      var s := ParsePages(pages[..n], account, currency, strptime);
      var date := PageDate(pages[n].text, s.statementDate, strptime);
      var charge := PageCharge(pages[n].text, s.newCharge);
      var txs := Rows.Parsed(pages[n].table, RowParser(account, currency, date, strptime));
      CheckOnce(date, charge, Expenses(txs));
    }
  }

  /** Every transaction of a page's table is on the card's account, with no counter account. */
  lemma TableOnAccount(table: seq<Option<Cells>>, account: string, currency: string,
                       date: Option<int>, strptime: Rows.Strptime, tx: Transaction)
    requires tx in Rows.Parsed(table, RowParser(account, currency, date, strptime))
    ensures tx.sourceAccount == account && tx.currency == currency && tx.counterAccount.None?
  {
    var parse := RowParser(account, currency, date, strptime);
    Rows.ParsedMembers(table, parse, tx);
    var i :| 0 <= i < |table| && parse(table[i]) == Some(tx);
    RowFields(table[i].value, account, currency, date, strptime);
  }

  /** Every transaction of the statement is on the card's account, with no counter account. */
  lemma {:induction false} AllOnAccount(pages: seq<Page>, account: string, currency: string,
                                        strptime: Rows.Strptime, j: nat)
    requires j < |ParsePages(pages, account, currency, strptime).transactions|
    ensures var tx := ParsePages(pages, account, currency, strptime).transactions[j];
      tx.sourceAccount == account && tx.currency == currency && tx.counterAccount.None?
  {
    var n := |pages| - 1;
    var s := ParsePages(pages[..n], account, currency, strptime);
    var date := PageDate(pages[n].text, s.statementDate, strptime);
    var charge := PageCharge(pages[n].text, s.newCharge);
    var txs := Rows.Parsed(pages[n].table, RowParser(account, currency, date, strptime));
    PageStepParts(s, pages[n], account, currency, strptime, date, charge, txs);
    var all := ParsePages(pages, account, currency, strptime).transactions;
    assert all == s.transactions + txs;
    if j < |s.transactions| {
      AllOnAccount(pages[..n], account, currency, strptime, j);
    } else {
      TableOnAccount(pages[n].table, account, currency, date, strptime, txs[j - |s.transactions|]);
    }
  }

  /**
   * `CiticCreditPdfImporter.identify` on the file's suffix and the text of its pages: a
   * `.pdf` whose first page names the statement date and the posting date column.
   */
  function Identify(suffix: string, pageTexts: seq<string>): (b: bool)
    ensures b ==> pageTexts != [] && exists i: nat :: OccursAt(pageTexts[0], StatementLabel, i)
  {
    if pageTexts != [] && Contains(pageTexts[0], StatementLabel) then
      ContainsIffOccurs(pageTexts[0], StatementLabel);
      Rows.HasExtension(suffix, ".pdf") && Contains(pageTexts[0], "银行记账日")
    else false
  }
}
