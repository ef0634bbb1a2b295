/**
 * What the importers share: a CSV or JSON record as a dictionary of strings, Python's
 * `dict.get`, `or` and `strip(chars)` on those strings, the date parser as a parameter,
 * and the loop that keeps the transactions a row parser accepts.
 */
module Rows {
  import opened Wrappers
  import opened Text
  import opened Model

  /** One record after the CSV reader has stripped its keys and values. */
  type Row = map<string, string>

  /**
   * `datetime.strptime(text, format)`: the instant in seconds, or `None` where Python
   * raises `ValueError`. The calendar arithmetic is not part of this model.
   */
  type Strptime = (string, string) -> Option<int>

  /** The yen sign U+00A5 and its full-width form U+FFE5, which amounts may carry. */
  const Yen: char := '\U{A5}'
  const FullWidthYen: char := '\U{FFE5}'

  /** `row.get(key, default)`. */
  function GetOr(row: Row, key: string, default: string): (r: string)
    ensures key in row ==> r == row[key]
    ensures key !in row ==> r == default
  {
    if key in row then row[key] else default
  }

  /** `row.get(key, "")`. */
  function Get(row: Row, key: string): string
  {
    GetOr(row, key, "")
  }

  /** `a or b` on strings: `a` unless it is empty. */
  function OrElse(a: string, b: string): (r: string)
    ensures r == a || r == b
    ensures r == "" ==> a == "" && b == ""
  {
    if a != "" then a else b
  }

  /** `s if s else None`. */
  function NoneIfEmpty(s: string): (r: Option<string>)
    ensures r.Some? <==> s != ""
    ensures r.Some? ==> r.value == s
  {
    if s != "" then Some(s) else None
  }

  /** `s if s and s != "/" else None`: the exports write `/` for "nothing". */
  function NoneIfBlank(s: string): (r: Option<string>)
    ensures r.Some? <==> s != "" && s != "/"
    ensures r.Some? ==> r.value == s
  {
    if s != "" && s != "/" then Some(s) else None
  }

  function StripLeftChar(s: string, c: char): (r: string)
    ensures |r| <= |s| && r == s[|s| - |r|..]
    ensures r == [] || r[0] != c
  {
    if s != [] && s[0] == c then StripLeftChar(s[1..], c) else s
  }

  function StripRightChar(s: string, c: char): (r: string)
    ensures |r| <= |s| && r == s[..|r|]
    ensures r == [] || r[|r| - 1] != c
  {
    if s != [] && s[|s| - 1] == c then StripRightChar(s[..|s| - 1], c) else s
  }

  /** `s.strip(c)` for a single character `c`: both ends lose every copy of `c`. */
  function StripChar(s: string, c: char): (r: string)
    ensures r == [] || (r[0] != c && r[|r| - 1] != c)
  {
    var t := StripLeftChar(s, c);
    var r := StripRightChar(t, c);
    assert r != [] ==> r[0] == t[0];
    r
  }

  /** Text whose ends differ from `c` is its own `strip(c)`. */
  lemma StripCharKeeps(s: string, c: char)
    requires s == [] || (s[0] != c && s[|s| - 1] != c)
    ensures StripChar(s, c) == s
  {
  }

  /**
   * `s.strip().strip("\t")` is `s.strip()`: a tab is whitespace, so the second strip
   * never finds one at either end.
   */
  lemma StripThenTab(s: string)
    ensures StripChar(Strip(s), '\t') == Strip(s)
  {
    var t := Strip(s);
    assert IsSpace('\t');
    StripCharKeeps(t, '\t');
  }

  /**
   * The first of `formats` that `strptime` accepts for `text`, as a `for ... try ...
   * break ... else` loop over the formats finds it.
   */
  function FirstFormat(text: string, formats: seq<string>, strptime: Strptime): Option<int>
  {
    if formats == [] then None
    else if strptime(text, formats[0]).Some? then strptime(text, formats[0])
    else FirstFormat(text, formats[1..], strptime)
  }

  /** The loop fails only when every format fails, and otherwise takes the first that works. */
  lemma {:induction false} FirstFormatIs(text: string, formats: seq<string>, strptime: Strptime)
    ensures FirstFormat(text, formats, strptime).None?
        <==> forall k :: 0 <= k < |formats| ==> strptime(text, formats[k]).None?
    ensures FirstFormat(text, formats, strptime).Some? ==>
      exists k :: 0 <= k < |formats| && strptime(text, formats[k]) == FirstFormat(text, formats, strptime)
        && forall j :: 0 <= j < k ==> strptime(text, formats[j]).None?
  {
    if formats != [] && strptime(text, formats[0]).None? {
      var rest := formats[1..];
      FirstFormatIs(text, rest, strptime);
      forall k | 0 < k < |formats| ensures formats[k] == rest[k - 1] {}
      var r := FirstFormat(text, rest, strptime);
      if r.Some? {
        var k :| 0 <= k < |rest| && strptime(text, rest[k]) == r
          && forall j :: 0 <= j < k ==> strptime(text, rest[j]).None?;
        assert strptime(text, formats[k + 1]) == r;
      }
    }
  }

  /** The transactions `parse` makes of `rows`, in row order; rejected rows leave no trace. */
  function Parsed<R>(rows: seq<R>, parse: R -> Option<Transaction>): (r: seq<Transaction>)
    ensures |r| <= |rows|
  {
    if rows == [] then []
    else
      var n := |rows| - 1;
      Parsed(rows[..n], parse) + (match parse(rows[n]) case Some(tx) => [tx] case None => [])
  }

  /**
   * The loop every `extract` ends with: parse each row and append what is not `None`.
   */
  method CollectParsed<R>(rows: seq<R>, parse: R -> Option<Transaction>)
    returns (transactions: seq<Transaction>)
    ensures transactions == Parsed(rows, parse)
  {
    transactions := [];
    var i := 0;
    while i < |rows|
      invariant i <= |rows|
      invariant transactions == Parsed(rows[..i], parse)
    {
      var tx := parse(rows[i]);
      assert rows[..i + 1][..i] == rows[..i];
      if tx.Some? {
        transactions := transactions + [tx.value];
      }
      i := i + 1;
    }
    assert rows[..i] == rows;
  }

  /** A transaction is produced exactly when some row parses to it. */
  lemma {:induction false} ParsedMembers<R>(rows: seq<R>, parse: R -> Option<Transaction>,
                                            tx: Transaction)
    ensures tx in Parsed(rows, parse) <==> exists i :: 0 <= i < |rows| && parse(rows[i]) == Some(tx)
  {
    if rows != [] {
      var n := |rows| - 1;
      var front := rows[..n];
      ParsedMembers(front, parse, tx);
      assert forall i :: 0 <= i < n ==> front[i] == rows[i];
      assert tx in Parsed(rows, parse) <==> tx in Parsed(front, parse) || parse(rows[n]) == Some(tx);
    }
  }

  /** Parsing a concatenation parses the parts one after the other. */
  lemma {:induction false} ParsedAppend<R>(a: seq<R>, b: seq<R>, parse: R -> Option<Transaction>)
    ensures Parsed(a + b, parse) == Parsed(a, parse) + Parsed(b, parse)
    decreases |b|
  {
    if b == [] {
      assert a + b == a;
    } else {
      var n := |b| - 1;
      assert (a + b)[..|a + b| - 1] == a + b[..n];
      ParsedAppend(a, b[..n], parse);
    }
  }

  /** `s.split(c)[0]`: the text before the first `c`, or all of `s` when there is none. */
  function Before(s: string, c: char): (r: string)
    ensures r <= s && c !in r
    ensures |r| < |s| ==> s[|r|] == c
  {
    match IndexOf(s, c)
    case None => s
    case Some(i) => s[..i]
  }

  /** `content.split("\n")[0]`: the first line. */
  function FirstLine(content: string): (r: string)
    ensures r <= content && '\n' !in r
    ensures |r| < |content| ==> content[|r|] == '\n'
  {
    Before(content, '\n')
  }

  /** The `收/支` (in/out) column's words for money leaving and money arriving. */
  const Outgoing: string := "支出"
  const Incoming: string := "收入"

  /**
   * The amount and type an in/out column gives a parsed amount `a`: money leaving is
   * negative, money arriving positive, the export's `transfer` word keeps the sign as
   * written, anything else is `Other`.
   */
  function Signed(direction: string, transfer: string, a: real): (r: (real, TxType))
    ensures direction == Outgoing ==> r == (-Abs(a), Expense)
    ensures direction == Incoming ==> r == (Abs(a), Income)
    ensures direction == transfer && direction !in {Outgoing, Incoming} ==> r == (a, Transfer)
    ensures direction !in {Outgoing, Incoming, transfer} ==> r == (a, Other)
    ensures Abs(r.0) == Abs(a)
    ensures r.1 == Expense ==> r.0 <= 0.0
    ensures r.1 == Income ==> r.0 >= 0.0
  {
    if direction == Outgoing then (-Abs(a), Expense)
    else if direction == Incoming then (Abs(a), Income)
    else if direction == transfer then (a, Transfer)
    else (a, Other)
  }

  /** `Path(p).suffix.lower() == ext`, the first test of every `identify`. */
  predicate HasExtension(suffix: string, ext: string)
  {
    Lower(suffix) == ext
  }

  /**
   * `"\n".join(content.split("\n")[:n])`: the text of the first `n` lines, which is a
   * prefix of the whole text.
   */
  function HeadLines(content: string, n: nat): (r: string)
    ensures r <= content
    ensures n > 0 ==> FirstLine(content) <= r
    decreases n
  {
    if n == 0 then ""
    else
      match IndexOf(content, '\n')
      case None => content
      case Some(i) =>
        if n == 1 then content[..i]
        else
          var rest := HeadLines(content[i + 1..], n - 1);
          assert content == content[..i + 1] + content[i + 1..];
          content[..i + 1] + rest
  }
}
