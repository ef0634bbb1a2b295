/**
 * Ordered lookup tables. Python dictionaries iterate in insertion order, and every table
 * search in the resolvers and categorizers is a first match in that order, so a table is
 * a sequence of rows and a search returns the index of the first row that applies.
 */
module Tables {
  import opened Wrappers
  import opened Text

  /** A keyword and the value it maps to. */
  type Entry = (string, string)

  /** A group of alternative keywords (a regex alternation `a|b|c`) and its value. */
  type Group = (seq<string>, string)

  /** No keyword occurs twice, as in a dictionary. */
  predicate DistinctKeys(t: seq<Entry>)
  {
    forall i, j :: 0 <= i < j < |t| ==> t[i].0 != t[j].0
  }

  /** Index of the first row from `i` on whose keyword starts `text`. */
  function FirstPrefixFrom(t: seq<Entry>, text: string, i: nat): (r: Option<nat>)
    requires i <= |t|
    ensures r.Some? ==> i <= r.value < |t| && t[r.value].0 <= text
    ensures r.Some? ==> forall j :: i <= j < r.value ==> !(t[j].0 <= text)
    ensures r.None? ==> forall j :: i <= j < |t| ==> !(t[j].0 <= text)
    decreases |t| - i
  {
    if i == |t| then None
    else if t[i].0 <= text then Some(i)
    else FirstPrefixFrom(t, text, i + 1)
  }

  /** `for k, v in t: if text.startswith(k): return ...` */
  function FirstPrefix(t: seq<Entry>, text: string): Option<nat>
  {
    FirstPrefixFrom(t, text, 0)
  }

  /** Index of the first row from `i` on whose keyword occurs in `text`. */
  function FirstContainedFrom(t: seq<Entry>, text: string, i: nat): (r: Option<nat>)
    requires i <= |t|
    ensures r.Some? ==> i <= r.value < |t| && Contains(text, t[r.value].0)
    ensures r.Some? ==> forall j :: i <= j < r.value ==> !Contains(text, t[j].0)
    ensures r.None? ==> forall j :: i <= j < |t| ==> !Contains(text, t[j].0)
    decreases |t| - i
  {
    if i == |t| then None
    else if Contains(text, t[i].0) then Some(i)
    else FirstContainedFrom(t, text, i + 1)
  }

  /** `for k, v in t: if k in text: return ...` */
  function FirstContained(t: seq<Entry>, text: string): Option<nat>
  {
    FirstContainedFrom(t, text, 0)
  }

  /** The first row whose keyword occurs is the one the search finds. */
  lemma FirstContainedIs(t: seq<Entry>, text: string, b: nat)
    requires b < |t| && Contains(text, t[b].0)
    requires forall c :: 0 <= c < b ==> !Contains(text, t[c].0)
    ensures FirstContained(t, text) == Some(b)
  {
  }

  /** `any(kw in text for kw in kws)`, which is also `re.search("k1|k2|...", text)`. */
  predicate AnyIn(kws: seq<string>, text: string)
  {
    exists k :: 0 <= k < |kws| && Contains(text, kws[k])
  }

  /** Index of the first group from `i` on one of whose keywords occurs in `text`. */
  function FirstGroupFrom(g: seq<Group>, text: string, i: nat): (r: Option<nat>)
    requires i <= |g|
    ensures r.Some? ==> i <= r.value < |g| && AnyIn(g[r.value].0, text)
    ensures r.Some? ==> forall j :: i <= j < r.value ==> !AnyIn(g[j].0, text)
    ensures r.None? ==> forall j :: i <= j < |g| ==> !AnyIn(g[j].0, text)
    decreases |g| - i
  {
    if i == |g| then None
    else if AnyIn(g[i].0, text) then Some(i)
    else FirstGroupFrom(g, text, i + 1)
  }

  function FirstGroup(g: seq<Group>, text: string): Option<nat>
  {
    FirstGroupFrom(g, text, 0)
  }

  /** The first group with a keyword in `text` is the one the search finds. */
  lemma FirstGroupIs(g: seq<Group>, text: string, i: nat)
    requires i < |g| && AnyIn(g[i].0, text)
    requires forall j :: 0 <= j < i ==> !AnyIn(g[j].0, text)
    ensures FirstGroup(g, text) == Some(i)
  {
  }

  /** The value of the first group matching `text`, or `default` (an item categorizer). */
  function Classify(g: seq<Group>, text: string, default: string): (r: string)
    ensures FirstGroup(g, text).None? ==> r == default
    ensures FirstGroup(g, text).Some? ==> r == g[FirstGroup(g, text).value].1
  {
    match FirstGroup(g, text)
    case Some(i) => g[i].1
    case None => default
  }

  /** Keywords never get longer along the table. */
  predicate LongerFirst(t: seq<Entry>)
  {
    forall i, j :: 0 <= i < j < |t| ==> |t[i].0| >= |t[j].0|
  }

  /** Every row of `s` is a row of `t`. */
  predicate RowsOf(s: seq<Entry>, t: seq<Entry>)
  {
    forall i :: 0 <= i < |s| ==> s[i] in t
  }

  /**
   * `s` is what `sorted(t, key=lambda x: -len(x[0]))` can give for a dictionary `t`: the same
   * rows, longest keyword first. (Which of several equally long keywords comes first does
   * not matter to a prefix search: see `SortedPrefixFindsLongest`.)
   */
  predicate SortedByLength(s: seq<Entry>, t: seq<Entry>)
  {
    |s| == |t| && LongerFirst(s) && RowsOf(s, t) && RowsOf(t, s)
  }

  /**
   * `s` is `sorted(t, key=lambda x: -len(x[0]))` with row `i` of `s` taken from row
   * `origin[i]` of `t`: every row moved once, longest keyword first, and equally long
   * keywords kept in table order, since Python's sort is stable.
   */
  predicate StablySorted(s: seq<Entry>, t: seq<Entry>, origin: seq<nat>)
  {
    |s| == |t| == |origin|
    && (forall i :: 0 <= i < |s| ==> origin[i] < |t| && s[i] == t[origin[i]])
    && (forall i, j :: 0 <= i < j < |s| ==> origin[i] != origin[j])
    && LongerFirst(s)
    && (forall i, j :: 0 <= i < j < |s| && |s[i].0| == |s[j].0| ==> origin[i] < origin[j])
  }

  /** In a longest-first table the first prefix found is a longest prefix in the table. */
  lemma FirstPrefixIsLongest(t: seq<Entry>, text: string, j: nat)
    requires LongerFirst(t)
    requires j < |t| && t[j].0 <= text
    ensures FirstPrefix(t, text).Some?
    ensures |t[j].0| <= |t[FirstPrefix(t, text).value].0|
  {
  }

  /** Two prefixes of one text with the same length are the same text. */
  lemma PrefixesOfSameLength(a: string, b: string, text: string)
    requires a <= text && b <= text && |a| == |b|
    ensures a == b
  {
    assert a == text[..|a|] && b == text[..|b|];
  }

  /**
   * Searching a longest-first sort of a dictionary finds the row of the longest keyword of
   * the dictionary that starts `text`, whatever the dictionary's order.
   */
  lemma {:induction false} SortedPrefixFindsLongest(s: seq<Entry>, t: seq<Entry>, text: string, j: nat)
    requires SortedByLength(s, t) && DistinctKeys(t)
    requires j < |t| && t[j].0 <= text
    requires forall k :: 0 <= k < |t| && t[k].0 <= text ==> |t[k].0| <= |t[j].0|
    ensures FirstPrefix(s, text).Some?
    ensures s[FirstPrefix(s, text).value] == t[j]
  {
    assert t[j] in s;
    var js :| 0 <= js < |s| && s[js] == t[j];
    FirstPrefixIsLongest(s, text, js);
    var i := FirstPrefix(s, text).value;
    assert s[i] in t;
    var k :| 0 <= k < |t| && t[k] == s[i];
    PrefixesOfSameLength(s[i].0, t[j].0, text);
    assert k == j;
  }

  /** No keyword of the dictionary starts `text`: nothing is found in the sorted table. */
  lemma SortedPrefixFindsNone(s: seq<Entry>, t: seq<Entry>, text: string)
    requires RowsOf(s, t)
    requires forall k :: 0 <= k < |t| ==> !(t[k].0 <= text)
    ensures FirstPrefix(s, text).None?
  {
    forall i | 0 <= i < |s|
      ensures !(s[i].0 <= text)
    {
      assert s[i] in t;
    }
  }
}
