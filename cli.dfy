/**
 * The pure helpers of the command-line driver: choosing the importer for a file,
 * de-duplicating by reference id, the output file name of an importer, the `--year`
 * range and the date filter applied with it.
 */
module Cli {
  import opened Wrappers
  import opened Text
  import opened Numbers
  import opened Model

  /** `a` is `b` with some elements left out, the rest in their original order. */
  predicate IsSubsequence<T(==)>(a: seq<T>, b: seq<T>)
    decreases |b|
  {
    if a == [] then true
    else if b == [] then false
    else
      (a[|a| - 1] == b[|b| - 1] && IsSubsequence(a[..|a| - 1], b[..|b| - 1]))
      || IsSubsequence(a, b[..|b| - 1])
  }

  // ---------------------------------------------------------------------------------
  // Choosing an importer
  // ---------------------------------------------------------------------------------

  /**
   * Whether the importer whose class has the given name recognises the file at the given
   * path (`identify`). Importers read the file to decide, so this is a parameter.
   */
  type Identify = (string, string) -> bool

  /** Position of the first importer, from `k` on, whose lower-cased class name contains `key`. */
  function FirstNamed(importers: seq<string>, key: string, k: nat): (r: Option<nat>)
    requires k <= |importers|
    ensures r.Some? ==> k <= r.value < |importers| && Contains(Lower(importers[r.value]), key)
    ensures r.Some? ==> forall j :: k <= j < r.value ==> !Contains(Lower(importers[j]), key)
    ensures r.None? ==> forall j :: k <= j < |importers| ==> !Contains(Lower(importers[j]), key)
    decreases |importers| - k
  {
    if k == |importers| then None
    else if Contains(Lower(importers[k]), key) then Some(k)
    else FirstNamed(importers, key, k + 1)
  }

  /** Position of the first importer, from `k` on, that recognises the file. */
  function FirstIdentifying(importers: seq<string>, filepath: string, identify: Identify, k: nat)
    : (r: Option<nat>)
    requires k <= |importers|
    ensures r.Some? ==> k <= r.value < |importers| && identify(importers[r.value], filepath)
    ensures r.Some? ==> forall j :: k <= j < r.value ==> !identify(importers[j], filepath)
    ensures r.None? ==> forall j :: k <= j < |importers| ==> !identify(importers[j], filepath)
    decreases |importers| - k
  {
    if k == |importers| then None
    else if identify(importers[k], filepath) then Some(k)
    else FirstIdentifying(importers, filepath, identify, k + 1)
  }

  /**
   * `_find_importer`: with a non-empty `--source`, the first importer whose class name
   * contains it (both lower-cased), and no file inspection at all; otherwise the first
   * importer that recognises the file. The result is a position in `importers`.
   */
  function FindImporter(filepath: string, importers: seq<string>, source: Option<string>,
                        identify: Identify): (r: Option<nat>)
    ensures r.Some? ==> r.value < |importers|
    ensures Truthy(source) && r.Some? ==>
      Contains(Lower(importers[r.value]), Lower(source.value))
      && forall j :: 0 <= j < r.value ==> !Contains(Lower(importers[j]), Lower(source.value))
    ensures Truthy(source) && r.None? ==>
      forall j :: 0 <= j < |importers| ==> !Contains(Lower(importers[j]), Lower(source.value))
    ensures !Truthy(source) && r.Some? ==>
      identify(importers[r.value], filepath)
      && forall j :: 0 <= j < r.value ==> !identify(importers[j], filepath)
    ensures !Truthy(source) && r.None? ==>
      forall j :: 0 <= j < |importers| ==> !identify(importers[j], filepath)
  {
    if Truthy(source) then FirstNamed(importers, Lower(source.value), 0)
    else FirstIdentifying(importers, filepath, identify, 0)
  }

  /** A forced source never consults `identify`: any two recognisers give the same choice. */
  lemma SourceIgnoresIdentify(filepath: string, importers: seq<string>, source: Option<string>,
                              a: Identify, b: Identify)
    requires Truthy(source)
    ensures FindImporter(filepath, importers, source, a) == FindImporter(filepath, importers, source, b)
  {
  }

  /** An absent or empty `--source` means the file decides, so the file path alone matters. */
  lemma EmptySourceIsAutomatic(filepath: string, importers: seq<string>, identify: Identify)
    ensures FindImporter(filepath, importers, Some(""), identify)
         == FindImporter(filepath, importers, None, identify)
  {
  }

  // ---------------------------------------------------------------------------------
  // De-duplication by reference id
  // ---------------------------------------------------------------------------------

  /** The reference ids that occur in `txs`. */
  function Refs(txs: seq<Transaction>): set<string>
  {
    set k | 0 <= k < |txs| && txs[k].referenceId.Some? :: txs[k].referenceId.value
  }

  /**
   * `txs[i]` survives de-duplication: it has no reference id (`is None`; an empty string
   * is an id like any other), or no earlier transaction carries its id.
   */
  predicate FirstOfRef(txs: seq<Transaction>, i: nat)
    requires i < |txs|
  {
    txs[i].referenceId.None? || txs[i].referenceId.value !in Refs(txs[..i])
  }

  /** The transactions `_deduplicate` keeps, in input order. */
  function Dedup(txs: seq<Transaction>): (r: seq<Transaction>)
    ensures |r| <= |txs|
  {
    if txs == [] then []
    else
      var n := |txs| - 1;
      Dedup(txs[..n]) + (if FirstOfRef(txs, n) then [txs[n]] else [])
  }

  /** The transactions without a reference id, in order. */
  function Unreferenced(txs: seq<Transaction>): (r: seq<Transaction>)
    ensures forall k :: 0 <= k < |r| ==> r[k].referenceId.None?
  {
    if txs == [] then []
    else
      var n := |txs| - 1;
      Unreferenced(txs[..n]) + (if txs[n].referenceId.None? then [txs[n]] else [])
  }

  /** No reference id occurs twice. */
  predicate DistinctRefs(txs: seq<Transaction>)
  {
    forall i, j :: 0 <= i < j < |txs| && txs[j].referenceId.Some? ==>
      txs[i].referenceId != txs[j].referenceId
  }

  lemma RefsAppend(a: seq<Transaction>, x: Transaction)
    ensures Refs(a + [x]) == Refs(a) + (if x.referenceId.Some? then {x.referenceId.value} else {})
  {
    var s := a + [x];
    forall v | v in Refs(s)
      ensures v in Refs(a) || (x.referenceId.Some? && v == x.referenceId.value)
    {
      var k :| 0 <= k < |s| && s[k].referenceId.Some? && s[k].referenceId.value == v;
      if k < |a| {
        assert s[k] == a[k];
      }
    }
    forall v | v in Refs(a) ensures v in Refs(s)
    {
      var k :| 0 <= k < |a| && a[k].referenceId.Some? && a[k].referenceId.value == v;
      assert s[k] == a[k];
    }
    if x.referenceId.Some? {
      assert s[|a|] == x;
    }
  }

  /**
   * `_deduplicate`: walk the transactions once, remembering the ids already seen;
   * a transaction without an id is always appended, one with an id only the first time.
   */
  method Deduplicate(transactions: seq<Transaction>) returns (result: seq<Transaction>)
    ensures result == Dedup(transactions)
  {
    var seenRefs: set<string> := {};
    result := [];
    var i := 0;
    while i < |transactions|
      invariant i <= |transactions|
      invariant seenRefs == Refs(transactions[..i])
      invariant result == Dedup(transactions[..i])
    {
      var tx := transactions[i];
      ghost var prefix := transactions[..i + 1];
      assert prefix[..i] == transactions[..i];
      RefsAppend(transactions[..i], tx);
      assert prefix == transactions[..i] + [tx];
      if tx.referenceId.None? {
        result := result + [tx];
      } else if tx.referenceId.value !in seenRefs {
        seenRefs := seenRefs + {tx.referenceId.value};
        result := result + [tx];
      }
      i := i + 1;
    }
    assert transactions[..i] == transactions;
  }

  /** Every reference id of the input survives: its first carrier is kept. */
  lemma {:induction false} DedupRefs(txs: seq<Transaction>)
    ensures Refs(Dedup(txs)) == Refs(txs)
  {
    if txs != [] {
      var n := |txs| - 1;
      var front := txs[..n];
      assert txs == front + [txs[n]];
      DedupRefs(front);
      RefsAppend(front, txs[n]);
      if FirstOfRef(txs, n) {
        RefsAppend(Dedup(front), txs[n]);
      } else {
        assert Dedup(txs) == Dedup(front);
      }
    }
  }

  /** Transactions without a reference id all survive, in order and with repetitions. */
  lemma {:induction false} DedupKeepsUnreferenced(txs: seq<Transaction>)
    ensures Unreferenced(Dedup(txs)) == Unreferenced(txs)
  {
    if txs != [] {
      var n := |txs| - 1;
      DedupKeepsUnreferenced(txs[..n]);
      var d := Dedup(txs[..n]);
      if FirstOfRef(txs, n) {
        assert (d + [txs[n]])[..|d|] == d;
      } else {
        assert Dedup(txs) == d;
      }
    }
  }

  /** The first transaction carrying an id, and every one without an id, is kept. */
  lemma {:induction false} DedupKeepsFirst(txs: seq<Transaction>, i: nat)
    requires i < |txs| && FirstOfRef(txs, i)
    ensures txs[i] in Dedup(txs)
  {
    var n := |txs| - 1;
    if i < n {
      assert txs[..n][..i] == txs[..i];
      DedupKeepsFirst(txs[..n], i);
    }
  }

  /** No two kept transactions share a reference id. */
  lemma {:induction false} DedupDistinct(txs: seq<Transaction>)
    ensures DistinctRefs(Dedup(txs))
  {
    if txs != [] {
      var n := |txs| - 1;
      var front := txs[..n];
      DedupDistinct(front);
      if FirstOfRef(txs, n) && txs[n].referenceId.Some? {
        var d := Dedup(front);
        DedupRefs(front);
        forall k | 0 <= k < |d| && d[k].referenceId.Some?
          ensures d[k].referenceId != txs[n].referenceId
        {
          assert d[k].referenceId.value in Refs(d);
        }
        var r := d + [txs[n]];
        forall i, j | 0 <= i < j < |r| && r[j].referenceId.Some?
          ensures r[i].referenceId != r[j].referenceId
        {
          if j == |d| {
            assert r[i] == d[i];
          } else {
            assert r[i] == d[i] && r[j] == d[j];
          }
        }
      }
    }
  }

  /** The kept transactions appear in the input in the same order. */
  lemma {:induction false} DedupSubsequence(txs: seq<Transaction>)
    ensures IsSubsequence(Dedup(txs), txs)
  {
    if txs != [] {
      var n := |txs| - 1;
      var front := txs[..n];
      DedupSubsequence(front);
      var d := Dedup(front);
      assert front + [txs[n]] == txs;
      if FirstOfRef(txs, n) {
        SubsequenceKeep(d, front, txs[n]);
      } else {
        SubsequenceExtend(d, front, txs[n]);
        assert Dedup(txs) == d;
      }
    }
  }

  lemma SubsequenceKeep<T>(a: seq<T>, b: seq<T>, x: T)
    requires IsSubsequence(a, b)
    ensures IsSubsequence(a + [x], b + [x])
  {
    assert (a + [x])[..|a|] == a && (b + [x])[..|b|] == b;
  }

  lemma SubsequenceExtend<T>(a: seq<T>, b: seq<T>, x: T)
    requires IsSubsequence(a, b)
    ensures IsSubsequence(a, b + [x])
  {
    assert (b + [x])[..|b|] == b;
  }

  /** Transactions whose ids are already distinct pass through unchanged. */
  lemma {:induction false} DedupDistinctFixed(txs: seq<Transaction>)
    requires DistinctRefs(txs)
    ensures Dedup(txs) == txs
  {
    if txs != [] {
      var n := |txs| - 1;
      var front := txs[..n];
      DistinctPrefix(txs, n);
      DedupDistinctFixed(front);
      DistinctLastFirst(txs);
      assert txs == front + [txs[n]];
    }
  }

  lemma DistinctPrefix(txs: seq<Transaction>, n: nat)
    requires n <= |txs| && DistinctRefs(txs)
    ensures DistinctRefs(txs[..n])
  {
    var front := txs[..n];
    forall i, j | 0 <= i < j < |front| && front[j].referenceId.Some?
      ensures front[i].referenceId != front[j].referenceId
    {
      assert front[i] == txs[i] && front[j] == txs[j];
    }
  }

  lemma DistinctLastFirst(txs: seq<Transaction>)
    requires txs != [] && DistinctRefs(txs)
    ensures FirstOfRef(txs, |txs| - 1)
  {
    var n := |txs| - 1;
    if txs[n].referenceId.Some? {
      forall k | 0 <= k < n ensures txs[..n][k].referenceId != txs[n].referenceId
      {
        assert txs[..n][k] == txs[k];
      }
    }
  }

  /** De-duplicating twice is de-duplicating once. */
  lemma DedupIdempotent(txs: seq<Transaction>)
    ensures Dedup(Dedup(txs)) == Dedup(txs)
  {
    DedupDistinct(txs);
    DedupDistinctFixed(Dedup(txs));
  }

  // ---------------------------------------------------------------------------------
  // Output file name of an importer
  // ---------------------------------------------------------------------------------

  /** `str.isupper()` on one character, for the ASCII letters of a class name. */
  predicate IsUpper(c: char)
  {
    'A' <= c <= 'Z'
  }

  /** `s.removesuffix(suffix)`. */
  function RemoveSuffix(s: string, suffix: string): (r: string)
    ensures r == s || r + suffix == s
  {
    if |suffix| > 0 && |suffix| <= |s| && s[|s| - |suffix|..] == suffix
    then s[..|s| - |suffix|]
    else s
  }

  /**
   * An underscore goes before the capital `name[i]` when it is not the first character and
   * either follows a non-capital, or follows a capital and is followed by a non-capital.
   * A capital at the very end of a run of capitals that ends the name gets none.
   */
  predicate Boundary(name: string, i: nat)
    requires i < |name|
  {
    var prevUpper := i > 0 && IsUpper(name[i - 1]);
    var nextUpper := i + 1 < |name| && IsUpper(name[i + 1]);
    var nextEnd := i + 1 >= |name|;
    IsUpper(name[i]) && i > 0 && (!prevUpper || (prevUpper && !nextUpper && !nextEnd))
  }

  /** What the loop emits for `name[i]`: perhaps an underscore, then the lower-cased character. */
  function Piece(name: string, i: nat): (r: string)
    requires i < |name|
  {
    (if Boundary(name, i) then "_" else "") + [LowerChar(name[i])]
  }

  /** The emitted text for the first `n` characters of `name`. */
  function SnakePrefix(name: string, n: nat): (r: string)
    requires n <= |name|
  {
    if n == 0 then [] else SnakePrefix(name, n - 1) + Piece(name, n - 1)
  }

  function SnakeCase(name: string): string
  {
    SnakePrefix(name, |name|)
  }

  /** The `.bean` file stem for an importer class. */
  function OutputName(className: string): string
  {
    SnakeCase(RemoveSuffix(className, "Importer"))
  }

  /** `_importer_output_name`: drop the `Importer` suffix, then snake-case the rest. */
  method ImporterOutputName(className: string) returns (result: string)
    ensures result == OutputName(className)
  {
    var name := RemoveSuffix(className, "Importer");
    result := [];
    var i := 0;
    while i < |name|
      invariant i <= |name|
      invariant result == SnakePrefix(name, i)
    {
      var ch := name[i];
      if IsUpper(ch) && i > 0 {
        var prevUpper := IsUpper(name[i - 1]);
        var nextUpper := i + 1 < |name| && IsUpper(name[i + 1]);
        var nextEnd := i + 1 >= |name|;
        if !prevUpper || (prevUpper && !nextUpper && !nextEnd) {
          result := result + "_";
        }
      }
      result := result + [LowerChar(ch)];
      i := i + 1;
    }
  }

  /** `s` with every underscore deleted. */
  function EraseUnderscores(s: string): (r: string)
    ensures '_' !in r
  {
    if s == [] then []
    else EraseUnderscores(s[..|s| - 1]) + (if s[|s| - 1] == '_' then [] else [s[|s| - 1]])
  }

  lemma {:induction false} EraseConcat(a: string, b: string)
    ensures EraseUnderscores(a + b) == EraseUnderscores(a) + EraseUnderscores(b)
    decreases |b|
  {
    if b != [] {
      var b' := b[..|b| - 1];
      assert (a + b)[..|a + b| - 1] == a + b';
      EraseConcat(a, b');
    } else {
      assert a + b == a;
    }
  }

  /** Deleting the underscores of one emitted piece leaves the lower-cased character. */
  lemma ErasePiece(name: string, i: nat)
    requires i < |name| && name[i] != '_'
    ensures EraseUnderscores(Piece(name, i)) == [LowerChar(name[i])]
  {
    var c := LowerChar(name[i]);
    assert c != '_';
    EraseConcat(if Boundary(name, i) then "_" else "", [c]);
    assert EraseUnderscores("_") == [];
    assert EraseUnderscores([c]) == [c];
  }

  lemma LowerStep(name: string, n: nat)
    requires 0 < n <= |name|
    ensures Lower(name[..n]) == Lower(name[..n - 1]) + [LowerChar(name[n - 1])]
  {
    assert name[..n] == name[..n - 1] + [name[n - 1]];
    LowerConcat(name[..n - 1], [name[n - 1]]);
  }

  /** The output name only inserts underscores: deleting them gives the lower-cased name. */
  lemma {:induction false} SnakeOnlyInsertsUnderscores(name: string, n: nat)
    requires n <= |name| && '_' !in name
    ensures EraseUnderscores(SnakePrefix(name, n)) == Lower(name[..n])
  {
    if n > 0 {
      SnakeOnlyInsertsUnderscores(name, n - 1);
      EraseConcat(SnakePrefix(name, n - 1), Piece(name, n - 1));
      ErasePiece(name, n - 1);
      LowerStep(name, n);
    }
  }

  /** The output name has no capitals. */
  lemma {:induction false} SnakeIsLower(name: string, n: nat)
    requires n <= |name|
    ensures forall k :: 0 <= k < |SnakePrefix(name, n)| ==> !IsUpper(SnakePrefix(name, n)[k])
  {
    if n > 0 {
      SnakeIsLower(name, n - 1);
    }
  }

  /** The output name never starts with an underscore (for a name that does not). */
  lemma SnakeStart(name: string)
    requires name != [] && name[0] != '_'
    ensures SnakeCase(name) != [] && SnakeCase(name)[0] == LowerChar(name[0])
  {
    SnakeStartAt(name, |name|);
  }

  lemma {:induction false} SnakeStartAt(name: string, n: nat)
    requires 0 < n <= |name|
    ensures SnakePrefix(name, n) != [] && SnakePrefix(name, n)[0] == LowerChar(name[0])
  {
    if n > 1 {
      SnakeStartAt(name, n - 1);
    }
  }

  /** Characters that are not inner capitals are emitted lower-cased, without underscores. */
  lemma {:induction false} LowerRun(name: string, m: nat, n: nat)
    requires m <= n <= |name|
    requires forall k :: m <= k < n ==> k == 0 || !IsUpper(name[k])
    ensures SnakePrefix(name, n) == SnakePrefix(name, m) + Lower(name[m..n])
  {
    if n > m {
      LowerRun(name, m, n - 1);
      assert !Boundary(name, n - 1);
      assert name[m..n] == name[m..n - 1] + [name[n - 1]];
      LowerConcat(name[m..n - 1], [name[n - 1]]);
    }
  }

  /** A name with no capital after its first character is simply lower-cased. */
  lemma SingleWordLowered(name: string)
    requires forall k :: 0 < k < |name| ==> !IsUpper(name[k])
    ensures SnakeCase(name) == Lower(name)
  {
    LowerRun(name, 0, |name|);
    assert name[0..|name|] == name;
  }

  lemma ImporterSuffixRemoved(stem: string)
    ensures RemoveSuffix(stem + "Importer", "Importer") == stem
  {
    var s := stem + "Importer";
    assert s[|s| - 8..] == "Importer";
    assert s[..|s| - 8] == stem;
  }

  /** The first word and the underscore of `CmbCredit`. */
  lemma CmbPrefix()
    ensures SnakePrefix("CmbCredit", 4) == "cmb_c"
  {
    var name := "CmbCredit";
    LowerRun(name, 0, 3);
    assert Lower(name[0..3]) == "cmb";
    assert Boundary(name, 3);
  }

  lemma CmbCreditSnake()
    ensures SnakeCase("CmbCredit") == "cmb_credit"
  {
    var name := "CmbCredit";
    CmbPrefix();
    LowerRun(name, 4, 9);
    assert Lower(name[4..9]) == "redit";
  }

  /** `CmbCreditImporter` is written to `cmb_credit.bean`. */
  lemma CmbCreditName()
    ensures OutputName("CmbCreditImporter") == "cmb_credit"
  {
    ImporterSuffixRemoved("CmbCredit");
    assert "CmbCredit" + "Importer" == "CmbCreditImporter";
    CmbCreditSnake();
  }

  /** The first word of `WechatHK` and the underscore before `H`. */
  lemma WechatPrefix()
    ensures SnakePrefix("WechatHK", 7) == "wechat_h"
  {
    var name := "WechatHK";
    LowerRun(name, 0, 6);
    assert Lower(name[0..6]) == "wechat";
    assert Boundary(name, 6);
  }

  /**
   * `WechatHKImporter` is written to `wechat_hk.bean`: the capital `H` follows a
   * lower-case letter, and `K` ends the name.
   */
  lemma WechatHKName()
    ensures OutputName("WechatHKImporter") == "wechat_hk"
  {
    var name := "WechatHK";
    ImporterSuffixRemoved(name);
    assert name + "Importer" == "WechatHKImporter";
    WechatPrefix();
    assert !Boundary(name, 7);
  }

  // ---------------------------------------------------------------------------------
  // The --year range and the date filter
  // ---------------------------------------------------------------------------------

  /** `s.split(c)`: the pieces between the occurrences of `c`. */
  function Split(s: string, c: char): (r: seq<string>)
    ensures |r| >= 1
    decreases |s|
  {
    match IndexOf(s, c)
    case None => [s]
    case Some(i) => [s[..i]] + Split(s[i + 1..], c)
  }

  /** Number of occurrences of `c` in `s`. */
  function CountChar(s: string, c: char): nat
  {
    if s == [] then 0 else (if s[0] == c then 1 else 0) + CountChar(s[1..], c)
  }

  lemma {:induction false} CountBefore(s: string, c: char, i: nat)
    requires i <= |s| && c !in s[..i]
    ensures CountChar(s, c) == CountChar(s[i..], c)
  {
    if i > 0 {
      assert s[0] != c by { assert s[0] == s[..i][0]; }
      assert s[1..][..i - 1] == s[1..i];
      CountBefore(s[1..], c, i - 1);
      assert s[1..][i - 1..] == s[i..];
    }
  }

  lemma {:induction false} CountAbsent(s: string, c: char)
    requires c !in s
    ensures CountChar(s, c) == 0
  {
    if s != [] {
      assert s[0] != c;
      CountAbsent(s[1..], c);
    }
  }

  /** `split` gives one more piece than there are separators. */
  lemma {:induction false} SplitCount(s: string, c: char)
    ensures |Split(s, c)| == CountChar(s, c) + 1
    decreases |s|
  {
    match IndexOf(s, c)
    case None =>
      CountAbsent(s, c);
    case Some(i) =>
      CountBefore(s, c, i);
      assert s[i..][1..] == s[i + 1..];
      SplitCount(s[i + 1..], c);
  }

  /** Joining two separator-free pieces with the separator and splitting gives them back. */
  lemma SplitJoined(a: string, b: string, c: char)
    requires c !in a && c !in b
    ensures Split(a + [c] + b, c) == [a, b]
  {
    var s := a + [c] + b;
    assert s[|a|] == c;
    assert s[..|a|] == a;
    assert s[|a| + 1..] == b;
    assert IndexOf(s, c) == Some(|a|);
  }

  /** Why a `--year` value is refused. */
  datatype YearRangeError =
    | NotStartEnd      // not exactly one ':' (a bad parameter)
    | NotIntegers      // a side is not an integer (a bad parameter)
    | NotIncreasing    // start is not before end (a bad parameter)
    | YearOutOfRange   // `datetime` rejects a year outside 1..9999

  const MinYear: int := 1
  const MaxYear: int := 9999

  /**
   * `_parse_year_range`: `START:END` becomes the half-open interval from 1 January of
   * START to 1 January of END.
   */
  function ParseYearRange(yearStr: string): (r: Result<(int, int), YearRangeError>)
    ensures r.Ok? ==> r.value.0 < r.value.1
    ensures r.Ok? ==> CountChar(yearStr, ':') == 1
  {
    var parts := Split(yearStr, ':');
    SplitCount(yearStr, ':');
    if |parts| != 2 then Err(NotStartEnd)
    else
      var start, end := ParseInt(parts[0]), ParseInt(parts[1]);
      if start.None? || end.None? then Err(NotIntegers)
      else if start.value >= end.value then Err(NotIncreasing)
      else if start.value < MinYear || end.value > MaxYear then Err(YearOutOfRange)
      else
        JanFirstIncreasing(start.value, end.value);
        Ok((JanFirst(start.value), JanFirst(end.value)))
  }

  lemma DigitsNoColon(s: string)
    requires AllDigits(s)
    ensures ':' !in s
  {
    forall k | 0 <= k < |s| ensures s[k] != ':'
    {
      assert IsDigit(s[k]);
    }
  }

  /** `"START:END"` written with the years' digits parses back to the two years' 1 January. */
  lemma YearRangeRoundTrip(start: nat, end: nat)
    requires MinYear <= start < end <= MaxYear
    ensures ParseYearRange(NatToString(start) + ":" + NatToString(end))
         == Ok((JanFirst(start), JanFirst(end)))
  {
    var a, b := NatToString(start), NatToString(end);
    DigitsNoColon(a);
    DigitsNoColon(b);
    SplitJoined(a, b, ':');
    assert a + ":" + b == a + [':'] + b;
    ParseIntRoundTrip(start);
    ParseIntRoundTrip(end);
  }

  /** A range whose start is not before its end is refused whatever the years. */
  lemma YearRangeNotIncreasing(start: nat, end: nat)
    requires end <= start
    ensures ParseYearRange(NatToString(start) + ":" + NatToString(end)) == Err(NotIncreasing)
  {
    var a, b := NatToString(start), NatToString(end);
    DigitsNoColon(a);
    DigitsNoColon(b);
    SplitJoined(a, b, ':');
    assert a + ":" + b == a + [':'] + b;
    ParseIntRoundTrip(start);
    ParseIntRoundTrip(end);
  }

  /** The transactions dated in `[from, until)`, in order (the `--year` filter). */
  function InDateRange(txs: seq<Transaction>, from: int, until: int): (r: seq<Transaction>)
    ensures |r| <= |txs|
  {
    if txs == [] then []
    else
      var n := |txs| - 1;
      InDateRange(txs[..n], from, until)
        + (if from <= txs[n].date < until then [txs[n]] else [])
  }

  /** A transaction is kept exactly when it is one of the input's and its date is in range. */
  lemma {:induction false} InDateRangeMembers(txs: seq<Transaction>, from: int, until: int,
                                              tx: Transaction)
    ensures tx in InDateRange(txs, from, until) <==> tx in txs && from <= tx.date < until
  {
    if txs != [] {
      var n := |txs| - 1;
      InDateRangeMembers(txs[..n], from, until, tx);
      assert txs == txs[..n] + [txs[n]];
    }
  }

  /** The filter keeps the input order. */
  lemma {:induction false} InDateRangeSubsequence(txs: seq<Transaction>, from: int, until: int)
    ensures IsSubsequence(InDateRange(txs, from, until), txs)
  {
    if txs != [] {
      var n := |txs| - 1;
      var front := txs[..n];
      InDateRangeSubsequence(front, from, until);
      var d := InDateRange(front, from, until);
      assert front + [txs[n]] == txs;
      if from <= txs[n].date < until {
        SubsequenceKeep(d, front, txs[n]);
      } else {
        SubsequenceExtend(d, front, txs[n]);
        assert InDateRange(txs, from, until) == d;
      }
    }
  }
}
