/**
 * The three-phase matching engine: transactions from different sources that describe the
 * same payment are paired, first by a shared reference, then by the intermediary pattern
 * (a platform payment against the bank line that mentions the platform), then by amount,
 * date and payee similarity. Each phase consumes the transactions it pairs and hands on
 * the rest, in input order.
 */
module Matching {
  import opened Wrappers
  import opened Text
  import opened Tables
  import opened Model

  datatype MatchType = Reference | Intermediary | Fuzzy

  /** `MatchResult`: the two transactions, how they were matched and with what confidence. */
  datatype MatchResult = MatchResult(txA: Transaction, txB: Transaction, matchType: MatchType, confidence: real)

  /** `MatchingOutput`. */
  datatype MatchingOutput = MatchingOutput(matched: seq<MatchResult>, unmatched: seq<Transaction>)

  /** Two positions of the phase's input that were paired. */
  type Pair = (nat, nat)

  /** The positions used by `pairs`. */
  function Used(pairs: seq<Pair>): (u: set<nat>)
    ensures forall k :: 0 <= k < |pairs| ==> pairs[k].0 in u && pairs[k].1 in u
  {
    if pairs == [] then {}
    else Used(pairs[..|pairs| - 1]) + {pairs[|pairs| - 1].0, pairs[|pairs| - 1].1}
  }

  lemma UsedAppend(pairs: seq<Pair>, p: Pair)
    ensures Used(pairs + [p]) == Used(pairs) + {p.0, p.1}
  {
    assert (pairs + [p])[..|pairs|] == pairs;
  }

  /** No position belongs to two pairs, nor twice to one: the 2·|pairs| positions are distinct. */
  predicate Disjoint(pairs: seq<Pair>)
  {
    |Used(pairs)| == 2 * |pairs|
  }

  /** Adding a pair of two fresh, distinct positions keeps the pairs disjoint. */
  lemma DisjointAppend(pairs: seq<Pair>, p: Pair)
    requires Disjoint(pairs) && p.0 != p.1 && p.0 !in Used(pairs) && p.1 !in Used(pairs)
    ensures Disjoint(pairs + [p])
    ensures Used(pairs + [p]) == Used(pairs) + {p.0, p.1}
  {
    UsedAppend(pairs, p);
  }

  /** The positions below `n` outside `used`, ascending. */
  function Kept(n: nat, used: set<nat>): (idx: seq<nat>)
    ensures forall k :: 0 <= k < |idx| ==> idx[k] < n && idx[k] !in used
    ensures forall k, l :: 0 <= k < l < |idx| ==> idx[k] < idx[l]
  {
    if n == 0 then [] else Kept(n - 1, used) + (if n - 1 in used then [] else [n - 1])
  }

  lemma {:induction false} KeptSame(n: nat, u: set<nat>, v: set<nat>)
    requires forall i :: 0 <= i < n ==> (i in u <==> i in v)
    ensures Kept(n, u) == Kept(n, v)
  {
    if n > 0 {
      KeptSame(n - 1, u, v);
    }
  }

  /** Every position below `n` is either used or kept. */
  lemma {:induction false} KeptCount(n: nat, used: set<nat>)
    requires forall x :: x in used ==> x < n
    ensures |Kept(n, used)| + |used| == n
  {
    if n > 0 {
      var rest := used - {n - 1};
      KeptSame(n - 1, used, rest);
      KeptCount(n - 1, rest);
    }
  }

  /** `[tx for i, tx in enumerate(s) if i not in used]`. */
  function Remaining(s: seq<Transaction>, used: set<nat>): (r: seq<Transaction>)
    ensures Embeds(Kept(|s|, used), r, s)
  {
    var idx := Kept(|s|, used);
    seq(|idx|, k requires 0 <= k < |idx| => s[idx[k]])
  }

  /** `r` is the subsequence of `s` at the ascending positions `idx`. */
  predicate Embeds(idx: seq<nat>, r: seq<Transaction>, s: seq<Transaction>)
  {
    |idx| == |r|
    && (forall k :: 0 <= k < |idx| ==> idx[k] < |s| && r[k] == s[idx[k]])
    && (forall k, l :: 0 <= k < l < |idx| ==> idx[k] < idx[l])
  }

  /** The positions `i2` of a subsequence at positions `i1`, as positions of the whole. */
  function Compose(i1: seq<nat>, i2: seq<nat>): (r: seq<nat>)
    requires forall k :: 0 <= k < |i2| ==> i2[k] < |i1|
    ensures |r| == |i2|
  {
    seq(|i2|, k requires 0 <= k < |i2| => i1[i2[k]])
  }

  /** A subsequence of a subsequence is a subsequence. */
  lemma EmbedsCompose(i1: seq<nat>, r1: seq<Transaction>, s: seq<Transaction>, i2: seq<nat>, r2: seq<Transaction>)
    requires Embeds(i1, r1, s) && Embeds(i2, r2, r1)
    ensures Embeds(Compose(i1, i2), r2, s)
  {
  }

  /** What a subsequence holds, the whole sequence holds. */
  lemma EmbedsWithin(idx: seq<nat>, r: seq<Transaction>, s: seq<Transaction>)
    requires Embeds(idx, r, s)
    ensures forall t :: t in r ==> t in s
  {
    forall t | t in r
      ensures t in s
    {
      var k :| 0 <= k < |r| && r[k] == t;
      assert s[idx[k]] == t;
    }
  }

  /** The positions below `n` that are not among `keep`: those the phases consumed. */
  function Consumed(n: nat, keep: seq<nat>): (c: set<nat>)
    ensures forall x :: 0 <= x < n ==> (x in c <==> x !in keep)
  {
    set x: nat | x < n && x !in keep
  }

  /** Every position of a composed subsequence is one of the outer subsequence. */
  lemma ComposeWithin(i1: seq<nat>, i2: seq<nat>)
    requires forall k :: 0 <= k < |i2| ==> i2[k] < |i1|
    ensures forall x :: x in Compose(i1, i2) ==> x in i1
  {
    forall x | x in Compose(i1, i2)
      ensures x in i1
    {
      var k :| 0 <= k < |i2| && Compose(i1, i2)[k] == x;
      assert i1[i2[k]] == x;
    }
  }

  /** A phase's pairs and what it hands on account for every input exactly once. */
  lemma PhaseCount(s: seq<Transaction>, pairs: seq<Pair>)
    requires Disjoint(pairs) && forall x :: x in Used(pairs) ==> x < |s|
    ensures 2 * |pairs| + |Remaining(s, Used(pairs))| == |s|
  {
    KeptCount(|s|, Used(pairs));
  }

  /** A position is used exactly when some pair holds it. */
  lemma {:induction false} UsedMember(pairs: seq<Pair>, x: nat)
    ensures x in Used(pairs) <==> exists k :: 0 <= k < |pairs| && (pairs[k].0 == x || pairs[k].1 == x)
  {
    if pairs != [] {
      var front := pairs[..|pairs| - 1];
      UsedMember(front, x);
      if exists k :: 0 <= k < |front| && (front[k].0 == x || front[k].1 == x) {
        var k :| 0 <= k < |front| && (front[k].0 == x || front[k].1 == x);
        assert pairs[k] == front[k];
      }
    }
  }

  /** The positions used by joined pair lists are those used by either. */
  lemma UsedConcat(p: seq<Pair>, q: seq<Pair>)
    ensures Used(p + q) == Used(p) + Used(q)
  {
    forall x: nat
      ensures x in Used(p + q) <==> x in Used(p) + Used(q)
    {
      UsedMember(p + q, x);
      UsedMember(p, x);
      UsedMember(q, x);
      if x in Used(p) {
        var k :| 0 <= k < |p| && (p[k].0 == x || p[k].1 == x);
        assert (p + q)[k] == p[k];
      }
      if x in Used(q) {
        var k :| 0 <= k < |q| && (q[k].0 == x || q[k].1 == x);
        assert (p + q)[|p| + k] == q[k];
      }
      if x in Used(p + q) {
        var k :| 0 <= k < |p + q| && ((p + q)[k].0 == x || (p + q)[k].1 == x);
        if k < |p| {
          assert (p + q)[k] == p[k];
        } else {
          assert (p + q)[k] == q[k - |p|];
        }
      }
    }
  }

  /** A position below `n` that is not used is kept. */
  lemma {:induction false} KeptMember(n: nat, used: set<nat>, x: nat)
    requires x < n && x !in used
    ensures x in Kept(n, used)
  {
    if x < n - 1 {
      KeptMember(n - 1, used, x);
    }
  }

  /** The pairs of a phase on the subsequence at `idx`, as positions of the whole. */
  function MapPairs(idx: seq<nat>, pairs: seq<Pair>): (r: seq<Pair>)
    requires forall k :: 0 <= k < |pairs| ==> pairs[k].0 < |idx| && pairs[k].1 < |idx|
    ensures |r| == |pairs|
    ensures forall k :: 0 <= k < |pairs| ==> r[k] == (idx[pairs[k].0], idx[pairs[k].1])
  {
    seq(|pairs|, k requires 0 <= k < |pairs| => (idx[pairs[k].0], idx[pairs[k].1]))
  }

  /** Match `k` pairs the transactions of `s` at `pairs[k]`. */
  predicate Placed(s: seq<Transaction>, ms: seq<MatchResult>, pairs: seq<Pair>)
  {
    |ms| == |pairs|
    && forall k :: 0 <= k < |pairs| ==>
      pairs[k].0 < |s| && pairs[k].1 < |s| && ms[k].txA == s[pairs[k].0] && ms[k].txB == s[pairs[k].1]
  }

  /** Matches placed in a subsequence are placed, through its positions, in the whole. */
  lemma MapPlaced(idx: seq<nat>, r: seq<Transaction>, s: seq<Transaction>, ms: seq<MatchResult>, pairs: seq<Pair>)
    requires Embeds(idx, r, s) && Placed(r, ms, pairs)
    ensures Placed(s, ms, MapPairs(idx, pairs))
  {
  }

  /**
   * The positions consumed by a phase on the subsequence at `idx` are, in the whole, exactly
   * those the subsequence held and the phase's leftover no longer holds.
   */
  lemma MapConsumed(idx: seq<nat>, r: seq<Transaction>, s: seq<Transaction>, pairs: seq<Pair>)
    requires Embeds(idx, r, s)
    requires forall k :: 0 <= k < |pairs| ==> pairs[k].0 < |r| && pairs[k].1 < |r|
    ensures Consumed(|s|, idx) <= Consumed(|s|, Compose(idx, Kept(|r|, Used(pairs))))
    ensures Used(MapPairs(idx, pairs))
      == Consumed(|s|, Compose(idx, Kept(|r|, Used(pairs)))) - Consumed(|s|, idx)
  {
    var next := Compose(idx, Kept(|r|, Used(pairs)));
    ComposeWithin(idx, Kept(|r|, Used(pairs)));
    forall x: nat
      ensures x in Used(MapPairs(idx, pairs)) <==> x < |s| && x !in next && x in idx
    {
      if x in Used(MapPairs(idx, pairs)) {
        MappedLeft(idx, r, s, pairs, x);
      }
      if x < |s| && x !in next && x in idx {
        LeftMapped(idx, |r|, pairs, x);
      }
    }
  }

  /** A position a mapped pair holds was in the subsequence and is no longer left over. */
  lemma MappedLeft(idx: seq<nat>, r: seq<Transaction>, s: seq<Transaction>, pairs: seq<Pair>, x: nat)
    requires Embeds(idx, r, s)
    requires forall k :: 0 <= k < |pairs| ==> pairs[k].0 < |r| && pairs[k].1 < |r|
    requires x in Used(MapPairs(idx, pairs))
    ensures x < |s| && x in idx && x !in Compose(idx, Kept(|r|, Used(pairs)))
  {
    var mapped, kept := MapPairs(idx, pairs), Kept(|r|, Used(pairs));
    UsedMember(mapped, x);
    var k :| 0 <= k < |mapped| && (mapped[k].0 == x || mapped[k].1 == x);
    var u := if mapped[k].0 == x then pairs[k].0 else pairs[k].1;
    assert u in Used(pairs) && u < |idx| && idx[u] == x;
    if x in Compose(idx, kept) {
      var l :| 0 <= l < |kept| && Compose(idx, kept)[l] == x;
      AscendingInjective(idx, r, s, kept[l], u);
    }
  }

  /** Distinct positions of an ascending list hold distinct values. */
  lemma AscendingInjective(idx: seq<nat>, r: seq<Transaction>, s: seq<Transaction>, a: nat, b: nat)
    requires Embeds(idx, r, s) && a < |idx| && b < |idx| && idx[a] == idx[b]
    ensures a == b
  {
  }

  /** A position listed in `i2` reaches its entry of `i1` in the composition. */
  lemma ComposeHas(i1: seq<nat>, i2: seq<nat>, u: nat)
    requires forall k :: 0 <= k < |i2| ==> i2[k] < |i1|
    requires u in i2
    ensures i1[u] in Compose(i1, i2)
  {
    var l :| 0 <= l < |i2| && i2[l] == u;
    assert Compose(i1, i2)[l] == i1[u];
  }

  /** A position the subsequence held and the leftover does not is held by a mapped pair. */
  lemma LeftMapped(idx: seq<nat>, n: nat, pairs: seq<Pair>, x: nat)
    requires |idx| == n
    requires forall k :: 0 <= k < |pairs| ==> pairs[k].0 < n && pairs[k].1 < n
    requires x in idx && x !in Compose(idx, Kept(n, Used(pairs)))
    ensures x in Used(MapPairs(idx, pairs))
  {
    var mapped := MapPairs(idx, pairs);
    var u :| 0 <= u < |idx| && idx[u] == x;
    if u in Used(pairs) {
      UsedMember(pairs, u);
      var k :| 0 <= k < |pairs| && (pairs[k].0 == u || pairs[k].1 == u);
      assert mapped[k].0 == x || mapped[k].1 == x;
    } else {
      KeptMember(n, Used(pairs), u);
      ComposeHas(idx, Kept(n, Used(pairs)), u);
      assert false;
    }
  }

  /** Dropping the positions `used` and taking the complement gives back `used`. */
  lemma ConsumedKept(n: nat, used: set<nat>)
    requires forall x :: x in used ==> x < n
    ensures Consumed(n, Kept(n, used)) == used
  {
    forall x: nat | x < n && x !in used
      ensures x in Kept(n, used)
    {
      KeptMember(n, used, x);
    }
  }

  /** Placements of two match lists side by side place their concatenation. */
  lemma PlacedConcat(s: seq<Transaction>, a: seq<MatchResult>, p: seq<Pair>, b: seq<MatchResult>, q: seq<Pair>)
    requires Placed(s, a, p) && Placed(s, b, q)
    ensures Placed(s, a + b, p + q)
  {
    forall k | 0 <= k < |p + q|
      ensures (p + q)[k].0 < |s| && (p + q)[k].1 < |s|
      ensures (a + b)[k].txA == s[(p + q)[k].0] && (a + b)[k].txB == s[(p + q)[k].1]
    {
      if k >= |p| {
        assert (p + q)[k] == q[k - |p|] && (a + b)[k] == b[k - |p|];
      }
    }
  }

  /**
   * A phase run on the subsequence at `idx`: its pairs, carried to positions of the whole,
   * place its matches there and hold exactly the positions it removed from the subsequence.
   */
  lemma PhaseSlots(idx: seq<nat>, r: seq<Transaction>, s: seq<Transaction>, ms: seq<MatchResult>, pairs: seq<Pair>)
    requires Embeds(idx, r, s) && Placed(r, ms, pairs)
    ensures Placed(s, ms, MapPairs(idx, pairs))
    ensures Consumed(|s|, idx) <= Consumed(|s|, Compose(idx, Kept(|r|, Used(pairs))))
    ensures Used(MapPairs(idx, pairs))
      == Consumed(|s|, Compose(idx, Kept(|r|, Used(pairs)))) - Consumed(|s|, idx)
  {
    MapPlaced(idx, r, s, ms, pairs);
    MapConsumed(idx, r, s, pairs);
  }

  /** Slots holding exactly the consumed positions, two per match, are disjoint. */
  lemma SlotsDisjoint(s: seq<Transaction>, slots: seq<Pair>, keep: seq<nat>, unmatched: seq<Transaction>)
    requires Embeds(keep, unmatched, s) && 2 * |slots| + |unmatched| == |s|
    requires Used(slots) == Consumed(|s|, keep)
    ensures Disjoint(slots)
  {
    ConsumedCount(|s|, keep);
  }

  /**
   * Three phases in turn, each on what the previous one left: their pairs, carried to
   * positions of `s`, are disjoint slots that place the joined matches and hold exactly
   * the positions missing from the final leftover `keep`.
   */
  lemma Partition(s: seq<Transaction>, m1: seq<MatchResult>, p1: seq<Pair>, r1: seq<Transaction>,
                  m2: seq<MatchResult>, p2: seq<Pair>, r2: seq<Transaction>,
                  m3: seq<MatchResult>, p3: seq<Pair>, r3: seq<Transaction>, keep: seq<nat>)
    returns (slots: seq<Pair>)
    requires Placed(s, m1, p1) && r1 == Remaining(s, Used(p1))
    requires Placed(r1, m2, p2) && r2 == Remaining(r1, Used(p2))
    requires Placed(r2, m3, p3) && r3 == Remaining(r2, Used(p3))
    requires 2 * (|m1| + |m2| + |m3|) + |r3| == |s|
    requires keep == Compose(Compose(Kept(|s|, Used(p1)), Kept(|r1|, Used(p2))), Kept(|r2|, Used(p3)))
    ensures Placed(s, m1 + m2 + m3, slots) && Disjoint(slots)
    ensures Used(slots) == Consumed(|s|, keep)
  {
    var i1, i2 := Kept(|s|, Used(p1)), Kept(|r1|, Used(p2));
    var i12 := Compose(i1, i2);
    UsedInRange(s, p1);
    ConsumedKept(|s|, Used(p1));
    PhaseSlots(i1, r1, s, m2, p2);
    EmbedsCompose(i1, r1, s, i2, r2);
    PhaseSlots(i12, r2, s, m3, p3);
    EmbedsCompose(i12, r2, s, Kept(|r2|, Used(p3)), r3);
    var q2, q3 := MapPairs(i1, p2), MapPairs(i12, p3);
    slots := p1 + q2 + q3;
    UsedConcat(p1, q2);
    UsedConcat(p1 + q2, q3);
    PlacedConcat(s, m1, p1, m2, q2);
    PlacedConcat(s, m1 + m2, p1 + q2, m3, q3);
    SlotsDisjoint(s, slots, keep, r3);
  }

  /** Every position outside an ascending list of positions below `n` is consumed: n − |keep| of them. */
  lemma {:induction false} ConsumedCount(n: nat, keep: seq<nat>)
    requires forall k :: 0 <= k < |keep| ==> keep[k] < n
    requires forall k, l :: 0 <= k < l < |keep| ==> keep[k] < keep[l]
    ensures |Consumed(n, keep)| + |keep| == n
  {
    if n > 0 {
      if keep != [] && keep[|keep| - 1] == n - 1 {
        var front := keep[..|keep| - 1];
        ConsumedCount(n - 1, front);
        assert Consumed(n, keep) == Consumed(n - 1, front);
      } else {
        forall k | 0 <= k < |keep|
          ensures keep[k] < n - 1
        {
          assert keep[k] <= keep[|keep| - 1];
        }
        ConsumedCount(n - 1, keep);
        assert Consumed(n, keep) == Consumed(n - 1, keep) + {n - 1};
      }
    }
  }

  /** `tx` carries `key` as its `reference_id` or its `counterpart_ref`. */
  predicate RefOf(tx: Transaction, key: string)
  {
    (Truthy(tx.referenceId) && tx.referenceId.value == key)
    || (Truthy(tx.counterpartRef) && tx.counterpartRef.value == key)
  }

  /** The two transactions share a reference: some key is carried by both. */
  predicate SharesReference(x: Transaction, y: Transaction)
  {
    (Truthy(x.referenceId) && RefOf(y, x.referenceId.value))
    || (Truthy(x.counterpartRef) && RefOf(y, x.counterpartRef.value))
  }

  lemma SharedKey(x: Transaction, y: Transaction, key: string)
    requires RefOf(x, key) && RefOf(y, key)
    ensures SharesReference(x, y)
  {
  }

  /** A reference → positions dictionary, as an insertion-ordered list of groups. */
  type RefIndex = seq<(string, seq<nat>)>

  /** The position of `key` among the groups, if present. */
  function KeyPos(index: RefIndex, key: string): (p: Option<nat>)
    ensures p.Some? ==> p.value < |index| && index[p.value].0 == key
    ensures p.None? ==> forall q :: 0 <= q < |index| ==> index[q].0 != key
  {
    if index == [] then None
    else if index[|index| - 1].0 == key then Some(|index| - 1)
    else KeyPos(index[..|index| - 1], key)
  }

  /** `index.setdefault(key, []).append(i)`. */
  function AppendTo(index: RefIndex, key: string, i: nat): (r: RefIndex)
  {
    match KeyPos(index, key)
    case Some(p) => index[p := (key, index[p].1 + [i])]
    case None => index + [(key, [i])]
  }

  /**
   * What the phase relies on in the reference index of `s`: keys are distinct, each group is
   * non-empty, in ascending position order, and lists only transactions carrying its key.
   */
  predicate RefIndexSound(index: RefIndex, s: seq<Transaction>, n: nat)
  {
    (forall p, q :: 0 <= p < q < |index| ==> index[p].0 != index[q].0)
    && forall p :: 0 <= p < |index| ==> GroupSound(index[p].0, index[p].1, s, n)
  }

  predicate GroupSound(key: string, g: seq<nat>, s: seq<Transaction>, n: nat)
  {
    |g| > 0
    && (forall k :: 0 <= k < |g| ==> g[k] < n && g[k] < |s| && RefOf(s[g[k]], key))
    && (forall k, l :: 0 <= k < l < |g| ==> g[k] <= g[l])
  }

  /** `setdefault(key, []).append(i)` with `i` the largest position so far keeps the index sound. */
  lemma AppendToSound(index: RefIndex, s: seq<Transaction>, i: nat, key: string)
    requires RefIndexSound(index, s, i + 1) && i < |s| && RefOf(s[i], key)
    ensures RefIndexSound(AppendTo(index, key, i), s, i + 1)
  {
    match KeyPos(index, key)
    case Some(p) =>
      assert GroupSound(key, index[p].1, s, i + 1);
      assert GroupSound(key, index[p].1 + [i], s, i + 1);
    case None =>
      assert GroupSound(key, [i], s, i + 1);
  }

  /** A sound index of the first `n` positions is one of the first `n + 1`. */
  lemma SoundWiden(index: RefIndex, s: seq<Transaction>, n: nat)
    requires RefIndexSound(index, s, n)
    ensures RefIndexSound(index, s, n + 1)
  {
    forall p | 0 <= p < |index|
      ensures GroupSound(index[p].0, index[p].1, s, n + 1)
    {
      assert GroupSound(index[p].0, index[p].1, s, n);
    }
  }

  /** What the index loop does with the transaction `tx` at position `i`. */
  function AddRefs(index: RefIndex, tx: Transaction, i: nat): RefIndex
  {
    var withRef := if Truthy(tx.referenceId) then AppendTo(index, tx.referenceId.value, i) else index;
    if Truthy(tx.counterpartRef) then AppendTo(withRef, tx.counterpartRef.value, i) else withRef
  }

  /** `ref_index` once the first `n` transactions of `s` are entered. */
  function RefIndexOf(s: seq<Transaction>, n: nat): RefIndex
    requires n <= |s|
  {
    if n == 0 then [] else AddRefs(RefIndexOf(s, n - 1), s[n - 1], n - 1)
  }

  /** Position `i` is listed in the group of `key`. */
  predicate Indexed(index: RefIndex, key: string, i: nat)
  {
    exists p :: 0 <= p < |index| && index[p].0 == key && i in index[p].1
  }

  /** Appending keeps every group, with its key, as a prefix of itself, and lists `i` under `key`. */
  lemma AppendToGrows(index: RefIndex, key: string, i: nat)
    ensures |AppendTo(index, key, i)| >= |index|
    ensures forall p :: 0 <= p < |index| ==>
      AppendTo(index, key, i)[p].0 == index[p].0 && index[p].1 <= AppendTo(index, key, i)[p].1
    ensures Indexed(AppendTo(index, key, i), key, i)
  {
    var r := AppendTo(index, key, i);
    match KeyPos(index, key)
    case Some(p) =>
      assert r[p].1 == index[p].1 + [i];
      assert i in r[p].1;
    case None =>
      assert r[|index|] == (key, [i]);
  }

  /** Entering more transactions never drops a listed position. */
  lemma AppendToKeeps(index: RefIndex, key: string, i: nat, k: string, x: nat)
    requires Indexed(index, k, x)
    ensures Indexed(AppendTo(index, key, i), k, x)
  {
    AppendToGrows(index, key, i);
    var p :| 0 <= p < |index| && index[p].0 == k && x in index[p].1;
    var r := AppendTo(index, key, i);
    assert r[p].0 == k && index[p].1 <= r[p].1;
    var m :| 0 <= m < |index[p].1| && index[p].1[m] == x;
    assert r[p].1[m] == x;
  }

  lemma AddRefsKeeps(index: RefIndex, tx: Transaction, i: nat, k: string, x: nat)
    requires Indexed(index, k, x)
    ensures Indexed(AddRefs(index, tx, i), k, x)
  {
    var withRef := if Truthy(tx.referenceId) then AppendTo(index, tx.referenceId.value, i) else index;
    if Truthy(tx.referenceId) {
      AppendToKeeps(index, tx.referenceId.value, i, k, x);
    }
    if Truthy(tx.counterpartRef) {
      AppendToKeeps(withRef, tx.counterpartRef.value, i, k, x);
    }
  }

  /** Every reference or counterpart reference a transaction carries lists its position. */
  lemma {:induction false} RefIndexComplete(s: seq<Transaction>, n: nat, i: nat, key: string)
    requires i < n <= |s| && RefOf(s[i], key)
    ensures Indexed(RefIndexOf(s, n), key, i)
  {
    var prev := RefIndexOf(s, n - 1);
    if i < n - 1 {
      RefIndexComplete(s, n - 1, i, key);
      AddRefsKeeps(prev, s[n - 1], n - 1, key, i);
    } else {
      AddRefsLists(prev, s[i], i, key);
    }
  }

  /** Entering a transaction lists its position under each key it carries. */
  lemma AddRefsLists(index: RefIndex, tx: Transaction, i: nat, key: string)
    requires RefOf(tx, key)
    ensures Indexed(AddRefs(index, tx, i), key, i)
  {
    var withRef := if Truthy(tx.referenceId) then AppendTo(index, tx.referenceId.value, i) else index;
    if Truthy(tx.referenceId) && tx.referenceId.value == key {
      AppendToGrows(index, key, i);
      if Truthy(tx.counterpartRef) {
        AppendToKeeps(withRef, tx.counterpartRef.value, i, key, i);
      }
    } else {
      AppendToGrows(withRef, key, i);
    }
  }

  /** Entering the transaction at `i` into a sound index of the positions before it. */
  lemma AddRefsSound(index: RefIndex, s: seq<Transaction>, i: nat)
    requires i < |s| && RefIndexSound(index, s, i)
    ensures RefIndexSound(AddRefs(index, s[i], i), s, i + 1)
  {
    var tx := s[i];
    SoundWiden(index, s, i);
    var withRef := if Truthy(tx.referenceId) then AppendTo(index, tx.referenceId.value, i) else index;
    if Truthy(tx.referenceId) {
      AppendToSound(index, s, i, tx.referenceId.value);
    }
    if Truthy(tx.counterpartRef) {
      AppendToSound(withRef, s, i, tx.counterpartRef.value);
    }
  }

  /** `pr` pairs the first member of group `o.0` with its member number `o.1`. */
  predicate GroupPair(index: RefIndex, o: (nat, nat), pr: Pair)
  {
    o.0 < |index| && 0 < o.1 < |index[o.0].1| && pr == (index[o.0].1[0], index[o.0].1[o.1])
  }

  /**
   * Each pair comes from its own group, below `bound`, in index order: a group yields at
   * most one pair.
   */
  predicate FromGroups(index: RefIndex, pairs: seq<Pair>, origin: seq<(nat, nat)>, bound: nat)
  {
    |origin| == |pairs|
    && (forall k :: 0 <= k < |pairs| ==> GroupPair(index, origin[k], pairs[k]) && origin[k].0 < bound)
    && forall k, l :: 0 <= k < l < |origin| ==> origin[k].0 < origin[l].0
  }

  /** A pair from a group whose first member is still free is that group's first. */
  lemma FromGroupsAppend(index: RefIndex, pairs: seq<Pair>, origin: seq<(nat, nat)>, p: nat, j: nat)
    requires FromGroups(index, pairs, origin, p + 1)
    requires p < |index| && 0 < j < |index[p].1| && index[p].1[0] !in Used(pairs)
    ensures FromGroups(index, pairs + [(index[p].1[0], index[p].1[j])], origin + [(p, j)], p + 1)
  {
    forall k | 0 <= k < |pairs|
      ensures origin[k].0 < p
    {
      assert pairs[k].0 in Used(pairs);
    }
  }

  /**
   * In the groups before `n`, a member left free beside a free first member comes from
   * the same source.
   */
  predicate ReferenceMaximal(s: seq<Transaction>, index: RefIndex, matched: set<nat>, n: nat)
  {
    forall p, j ::
      0 <= p < n && p < |index| && 0 < j < |index[p].1| && index[p].1[0] < |s| && index[p].1[j] < |s|
      && index[p].1[0] !in matched && index[p].1[j] !in matched
      ==> s[index[p].1[j]].sourceAccount == s[index[p].1[0]].sourceAccount
  }

  /** The members of `g` before `j` that the inner loop of phase 1 has passed. */
  predicate GroupDone(s: seq<Transaction>, g: seq<nat>, matched: set<nat>, j: nat)
  {
    forall m :: 0 < m < j && m < |g| && g[0] < |s| && g[m] < |s| && g[0] !in matched && g[m] !in matched
      ==> s[g[m]].sourceAccount == s[g[0]].sourceAccount
  }

  /** The inner loop passing member `j`: it is taken now, the first member is, or they share a source. */
  lemma GroupStep(s: seq<Transaction>, g: seq<nat>, before: set<nat>, after: set<nat>, j: nat)
    requires GroupDone(s, g, before, j) && before <= after && 0 < j < |g|
    requires g[0] in after || g[j] in after || (g[0] < |s| && g[j] < |s| && s[g[j]].sourceAccount == s[g[0]].sourceAccount)
    ensures GroupDone(s, g, after, j + 1)
  {
  }

  /** A group passed over entirely extends the maximal prefix of the index by one. */
  lemma GroupMaximal(s: seq<Transaction>, index: RefIndex, before: set<nat>, after: set<nat>, p: nat)
    requires ReferenceMaximal(s, index, before, p) && before <= after && p < |index|
    requires GroupDone(s, index[p].1, after, |index[p].1|)
    ensures ReferenceMaximal(s, index, after, p + 1)
  {
  }

  /** Phase 1's promise for one pair: distinct positions in order, different sources, a shared reference. */
  predicate ReferencePair(s: seq<Transaction>, pr: Pair)
  {
    pr.0 < pr.1 < |s|
    && s[pr.0].sourceAccount != s[pr.1].sourceAccount
    && SharesReference(s[pr.0], s[pr.1])
  }

  /** The state of phase 1's loops: the pairs so far, their results, and the matched set. */
  predicate ReferenceState(s: seq<Transaction>, pairs: seq<Pair>, matches: seq<MatchResult>, matched: set<nat>)
  {
    matched == Used(pairs) && Disjoint(pairs) && |matches| == |pairs|
    && forall k :: 0 <= k < |pairs| ==>
      ReferencePair(s, pairs[k])
      && matches[k] == MatchResult(s[pairs[k].0], s[pairs[k].1], Reference, 1.0)
  }

  /** The positions a phase records all lie in its input. */
  lemma UsedInRange(s: seq<Transaction>, pairs: seq<Pair>)
    requires forall k :: 0 <= k < |pairs| ==> pairs[k].0 < |s| && pairs[k].1 < |s|
    ensures forall x :: x in Used(pairs) ==> x < |s|
  {
    if pairs != [] {
      UsedInRange(s, pairs[..|pairs| - 1]);
    }
  }

  /** The keywords by which a bank line mentions a payment platform. */
  const PlatformKeywords: seq<string> := ["支付宝", "财付通", "微信", "alipay", "wechat", "tenpay"]

  /** `f"{tx.payee} {tx.narration}"`. */
  function PayeeText(tx: Transaction): (t: string)
    ensures |t| == |tx.payee| + 1 + |tx.narration| && t[|tx.payee|] == ' '
  {
    tx.payee + " " + tx.narration
  }

  /** The bank line names a payment platform in its (lower-cased) payee and narration. */
  predicate MentionsPlatform(tx: Transaction)
  {
    AnyIn(PlatformKeywords, Lower(PayeeText(tx)))
  }

  /** The positions below `n` whose payment method is (`want`) or is not set, ascending. */
  function Where(s: seq<Transaction>, n: nat, want: bool): (idx: seq<nat>)
    requires n <= |s|
    ensures forall k :: 0 <= k < |idx| ==> idx[k] < n && Truthy(s[idx[k]].paymentMethod) == want
    ensures forall k, l :: 0 <= k < l < |idx| ==> idx[k] < idx[l]
  {
    if n == 0 then []
    else Where(s, n - 1, want) + (if Truthy(s[n - 1].paymentMethod) == want then [n - 1] else [])
  }

  /** Every position below `n` of the wanted kind is listed. */
  lemma {:induction false} WhereComplete(s: seq<Transaction>, n: nat, want: bool, i: nat)
    requires n <= |s| && i < n && Truthy(s[i].paymentMethod) == want
    ensures i in Where(s, n, want)
  {
    if i < n - 1 {
      WhereComplete(s, n - 1, want, i);
    }
  }

  /** The pairs come in ascending order of their first positions. */
  predicate FirstsAscending(pairs: seq<Pair>)
  {
    forall k, l :: 0 <= k < l < |pairs| ==> pairs[k].0 < pairs[l].0
  }

  /** Appending a pair whose first position exceeds all earlier ones keeps the order. */
  lemma AscendingAppend(pairs: seq<Pair>, pr: Pair, bound: nat)
    requires FirstsAscending(pairs) && forall k :: 0 <= k < |pairs| ==> pairs[k].0 < bound
    requires bound <= pr.0
    ensures FirstsAscending(pairs + [pr])
    ensures forall k :: 0 <= k < |pairs| + 1 ==> (pairs + [pr])[k].0 <= pr.0
  {
  }

  /** In an ascending list a smaller element sits at an earlier position. */
  lemma AscendingBelow(xs: seq<nat>, q: nat, r: nat)
    requires forall k, l :: 0 <= k < l < |xs| ==> xs[k] < xs[l]
    requires q < |xs| && r < |xs| && xs[q] < xs[r]
    ensures q < r
  {
  }

  /** The payee similarity score of two texts, `token_sort_ratio(a, b) / 100`. */
  type Similarity = (string, string) -> real

  /** The order of the phases, as `match` runs them. */
  function Rank(t: MatchType): (r: nat)
    ensures r < 3
  {
    match t
    case Reference => 0
    case Intermediary => 1
    case Fuzzy => 2
  }

  class MatchingEngine {
    /** `date_tolerance`, in seconds. */
    const dateTolerance: int
    const fuzzyThreshold: real

    /** `MatchingEngine(date_tolerance_days, fuzzy_payee_threshold)`. */
    constructor (dateToleranceDays: int, fuzzyPayeeThreshold: real)
      ensures dateTolerance == dateToleranceDays * SecondsPerDay
      ensures fuzzyThreshold == fuzzyPayeeThreshold
    {
      dateTolerance := dateToleranceDays * SecondsPerDay;
      fuzzyThreshold := fuzzyPayeeThreshold;
    }

    /**
     * The loop building `ref_index` from `reference_id` and `counterpart_ref`: every key
     * carried, in order of first appearance, with the positions carrying it.
     */
    static method BuildRefIndex(s: seq<Transaction>) returns (index: RefIndex)
      ensures index == RefIndexOf(s, |s|)
      ensures RefIndexSound(index, s, |s|)
      ensures forall i, key :: 0 <= i < |s| && RefOf(s[i], key) ==> Indexed(index, key, i)
    {
      index := [];
      var i := 0;
      while i < |s|
        invariant 0 <= i <= |s|
        invariant index == RefIndexOf(s, i) && RefIndexSound(index, s, i)
      {
        var tx := s[i];
        AddRefsSound(index, s, i);
        if Truthy(tx.referenceId) {
          index := AppendTo(index, tx.referenceId.value, i);
        }
        if Truthy(tx.counterpartRef) {
          index := AppendTo(index, tx.counterpartRef.value, i);
        }
        i := i + 1;
      }
      forall i, key | 0 <= i < |s| && RefOf(s[i], key)
        ensures Indexed(index, key, i)
      {
        RefIndexComplete(s, |s|, i, key);
      }
    }

    /**
     * The inner loop of `_phase_reference` over group `p`: its first member is paired with
     * the first later member from another source while neither is taken.
     */
    method PairGroup(s: seq<Transaction>, index: RefIndex, p: nat, matches: seq<MatchResult>, ghost pairs: seq<Pair>,
                     ghost origin: seq<(nat, nat)>, matched: set<nat>)
      returns (matches': seq<MatchResult>, ghost pairs': seq<Pair>, ghost origin': seq<(nat, nat)>, matched': set<nat>)
      requires RefIndexSound(index, s, |s|) && p < |index|
      requires ReferenceState(s, pairs, matches, matched) && FromGroups(index, pairs, origin, p)
      ensures ReferenceState(s, pairs', matches', matched') && FromGroups(index, pairs', origin', p + 1)
      ensures matched <= matched' && GroupDone(s, index[p].1, matched', |index[p].1|)
    {
      var g := index[p].1;
      assert GroupSound(index[p].0, g, s, |s|);
      matches', pairs', origin', matched' := matches, pairs, origin, matched;
      if |g| < 2 {
        return;
      }
      var j := 1;
      while j < |g|
        invariant 1 <= j <= |g|
        invariant ReferenceState(s, pairs', matches', matched')
        invariant FromGroups(index, pairs', origin', p + 1)
        invariant matched <= matched' && GroupDone(s, g, matched', j)
      {
        var ia, ib := g[0], g[j];
        ghost var seen := matched';
        if ia in matched' || ib in matched' {
        } else if s[ia].sourceAccount == s[ib].sourceAccount {
        } else {
          SharedKey(s[ia], s[ib], index[p].0);
          DisjointAppend(pairs', (ia, ib));
          FromGroupsAppend(index, pairs', origin', p, j);
          matches' := matches' + [MatchResult(s[ia], s[ib], Reference, 1.0)];
          pairs' := pairs' + [(ia, ib)];
          origin' := origin' + [(p, j)];
          matched' := matched' + {ia, ib};
        }
        GroupStep(s, g, seen, matched', j);
        j := j + 1;
      }
    }

    /**
     * `_phase_reference`: for each reference group in index order, the first member is paired
     * with the first later member from another source, provided neither is paired already;
     * once paired, the first member is taken, so a group yields at most one pair.
     */
    method PhaseReference(s: seq<Transaction>)
      returns (matches: seq<MatchResult>, remaining: seq<Transaction>, ghost pairs: seq<Pair>, ghost origin: seq<(nat, nat)>)
      ensures ReferenceState(s, pairs, matches, Used(pairs))
      ensures FromGroups(RefIndexOf(s, |s|), pairs, origin, |RefIndexOf(s, |s|)|)
      ensures ReferenceMaximal(s, RefIndexOf(s, |s|), Used(pairs), |RefIndexOf(s, |s|)|)
      ensures remaining == Remaining(s, Used(pairs))
      ensures 2 * |matches| + |remaining| == |s|
    {
      var index := BuildRefIndex(s);
      matches, pairs, origin := [], [], [];
      var matched: set<nat> := {};
      var p := 0;
      while p < |index|
        invariant 0 <= p <= |index|
        invariant ReferenceState(s, pairs, matches, matched)
        invariant FromGroups(index, pairs, origin, p)
        invariant ReferenceMaximal(s, index, matched, p)
      {
        ghost var before := matched;
        matches, pairs, origin, matched := PairGroup(s, index, p, matches, pairs, origin, matched);
        GroupMaximal(s, index, before, matched, p);
        p := p + 1;
      }
      UsedInRange(s, pairs);
      PhaseCount(s, pairs);
      remaining := Remaining(s, matched);
    }
    /** Same absolute amount, same currency, and dates at most `dateTolerance` apart (inclusive). */
    predicate Close(x: Transaction, y: Transaction)
    {
      Abs(x.amount) == Abs(y.amount) && x.currency == y.currency
      && -dateTolerance <= x.date - y.date <= dateTolerance
    }

    /** The bank line at `b` is free, close to the platform transaction at `p` and mentions a platform. */
    predicate Takes(s: seq<Transaction>, matched: set<nat>, p: nat, b: nat)
    {
      p < |s| && b < |s| && b !in matched && Close(s[p], s[b]) && MentionsPlatform(s[b])
    }

    /** Phase 2's test: `x` is a platform transaction and `y` a close bank line that mentions a platform. */
    predicate Bridges(x: Transaction, y: Transaction)
    {
      Truthy(x.paymentMethod) && !Truthy(y.paymentMethod) && Close(x, y) && MentionsPlatform(y)
    }

    /** Phase 2's promise for one pair: a platform transaction and a bank line that mentions a platform. */
    predicate IntermediaryPair(s: seq<Transaction>, pr: Pair)
    {
      pr.0 < |s| && pr.1 < |s| && Bridges(s[pr.0], s[pr.1])
    }

    /** Phase 2 left nothing behind it could have paired: no two free positions bridge. */
    predicate IntermediaryMaximal(s: seq<Transaction>, matched: set<nat>)
    {
      forall p, b :: 0 <= p < |s| && 0 <= b < |s| && p !in matched && b !in matched ==> !Bridges(s[p], s[b])
    }

    /** The first `pk` platform positions, where free, bridge to no free bank line. */
    predicate PlatformsDone(s: seq<Transaction>, platform: seq<nat>, pk: nat, matched: set<nat>)
    {
      forall q, b ::
        0 <= q < pk && q < |platform| && platform[q] < |s| && 0 <= b < |s| && platform[q] !in matched && b !in matched
        ==> !Bridges(s[platform[q]], s[b])
    }

    /** When no bank line is free for `pi`, no free position at all bridges from it. */
    lemma NoFreeBank(s: seq<Transaction>, bank: seq<nat>, pi: nat, matched: set<nat>)
      requires bank == Where(s, |s|, false) && pi < |s|
      requires forall q :: 0 <= q < |bank| ==> !Takes(s, matched, pi, bank[q])
      ensures forall b :: 0 <= b < |s| && b !in matched ==> !Bridges(s[pi], s[b])
    {
      forall b | 0 <= b < |s| && b !in matched && Bridges(s[pi], s[b])
        ensures false
      {
        WhereComplete(s, |s|, false, b);
      }
    }

    /** Once every platform position is done, no free position bridges to another. */
    lemma PlatformsAllDone(s: seq<Transaction>, platform: seq<nat>, matched: set<nat>)
      requires platform == Where(s, |s|, true)
      requires PlatformsDone(s, platform, |platform|, matched)
      ensures IntermediaryMaximal(s, matched)
    {
      forall p, b | 0 <= p < |s| && 0 <= b < |s| && p !in matched && b !in matched && Bridges(s[p], s[b])
        ensures false
      {
        WhereComplete(s, |s|, true, p);
      }
    }

    /** One more platform position done: it is taken now, or nothing free bridges from it. */
    lemma PlatformDone(s: seq<Transaction>, platform: seq<nat>, pk: nat, matched: set<nat>, after: set<nat>)
      requires PlatformsDone(s, platform, pk, matched) && matched <= after && pk < |platform| && platform[pk] < |s|
      requires platform[pk] in after || forall b :: 0 <= b < |s| && b !in matched ==> !Bridges(s[platform[pk]], s[b])
      ensures PlatformsDone(s, platform, pk + 1, after)
    {
    }

    /** The bank line of `pr` is the first eligible one not already taken by the pairs `before`. */
    predicate FirstBank(s: seq<Transaction>, before: seq<Pair>, pr: Pair)
      requires pr.0 < |s|
    {
      forall b :: 0 <= b < pr.1 && b < |s| && !Truthy(s[b].paymentMethod) && Close(s[pr.0], s[b]) && MentionsPlatform(s[b])
        ==> b in Used(before)
    }

    /** Every pair took the first eligible bank line left when its platform transaction came up. */
    predicate FirstBanks(s: seq<Transaction>, pairs: seq<Pair>)
    {
      forall k :: 0 <= k < |pairs| && pairs[k].0 < |s| ==> FirstBank(s, pairs[..k], pairs[k])
    }

    lemma FirstBanksAppend(s: seq<Transaction>, pairs: seq<Pair>, pr: Pair)
      requires FirstBanks(s, pairs) && pr.0 < |s| && FirstBank(s, pairs, pr)
      ensures FirstBanks(s, pairs + [pr])
    {
      forall k | 0 <= k < |pairs| + 1 && (pairs + [pr])[k].0 < |s|
        ensures FirstBank(s, (pairs + [pr])[..k], (pairs + [pr])[k])
      {
        if k < |pairs| {
          assert (pairs + [pr])[..k] == pairs[..k];
        } else {
          assert (pairs + [pr])[..k] == pairs;
        }
      }
    }

    /** The state of phase 2's loops. */
    predicate IntermediaryState(s: seq<Transaction>, pairs: seq<Pair>, matches: seq<MatchResult>, matched: set<nat>)
    {
      matched == Used(pairs) && Disjoint(pairs) && |matches| == |pairs| && FirstBanks(s, pairs)
      && forall k :: 0 <= k < |pairs| ==>
        IntermediaryPair(s, pairs[k])
        && matches[k] == MatchResult(s[pairs[k].0], s[pairs[k].1], Intermediary, 0.9)
    }

    lemma IntermediaryAppend(s: seq<Transaction>, pairs: seq<Pair>, matches: seq<MatchResult>, matched: set<nat>, pi: nat, bi: nat)
      requires IntermediaryState(s, pairs, matches, matched)
      requires pi !in matched && bi !in matched && IntermediaryPair(s, (pi, bi)) && FirstBank(s, pairs, (pi, bi))
      ensures IntermediaryState(s, pairs + [(pi, bi)], matches + [MatchResult(s[pi], s[bi], Intermediary, 0.9)], matched + {pi, bi})
    {
      FirstBanksAppend(s, pairs, (pi, bi));
      DisjointAppend(pairs, (pi, bi));
    }

    /** The inner loop of phase 2, up to its `break`: the first position of `bank` that `pi` takes. */
    method FirstFreeBank(s: seq<Transaction>, bank: seq<nat>, pi: nat, matched: set<nat>) returns (bk: nat)
      ensures bk <= |bank|
      ensures bk < |bank| ==> Takes(s, matched, pi, bank[bk])
      ensures forall q :: 0 <= q < bk ==> !Takes(s, matched, pi, bank[q])
    {
      bk := 0;
      while bk < |bank| && !Takes(s, matched, pi, bank[bk])
        invariant 0 <= bk <= |bank|
        invariant forall q :: 0 <= q < bk ==> !Takes(s, matched, pi, bank[q])
      {
        bk := bk + 1;
      }
    }

    /** A bank line before the first free one that `pi` takes is taken already or not eligible. */
    lemma FirstFreeIsFirst(s: seq<Transaction>, bank: seq<nat>, pi: nat, bk: nat, matched: set<nat>, pairs: seq<Pair>)
      requires bank == Where(s, |s|, false)
      requires matched == Used(pairs) && pi < |s| && bk < |bank|
      requires forall q :: 0 <= q < bk ==> !Takes(s, matched, pi, bank[q])
      ensures FirstBank(s, pairs, (pi, bank[bk]))
    {
      forall b | 0 <= b < bank[bk] && !Truthy(s[b].paymentMethod) && Close(s[pi], s[b]) && MentionsPlatform(s[b])
        ensures b in matched
      {
        WhereComplete(s, |s|, false, b);
        var q :| 0 <= q < |bank| && bank[q] == b;
        AscendingBelow(bank, q, bk);
        assert !Takes(s, matched, pi, bank[q]);
      }
    }

    /** The loop splitting positions into `platform_txs` (payment method set) and `bank_txs`. */
    static method SplitByPaymentMethod(s: seq<Transaction>) returns (platform: seq<nat>, bank: seq<nat>)
      ensures platform == Where(s, |s|, true) && bank == Where(s, |s|, false)
    {
      platform, bank := [], [];
      var i := 0;
      while i < |s|
        invariant 0 <= i <= |s|
        invariant platform == Where(s, i, true) && bank == Where(s, i, false)
      {
        if Truthy(s[i].paymentMethod) {
          platform := platform + [i];
        } else {
          bank := bank + [i];
        }
        i := i + 1;
      }
    }

    /**
     * `_phase_intermediary`: each platform transaction, in input order, takes the first bank
     * line (one without a payment method) that is close to it and mentions a platform.
     */
    method PhaseIntermediary(s: seq<Transaction>) returns (matches: seq<MatchResult>, remaining: seq<Transaction>, ghost pairs: seq<Pair>)
      ensures IntermediaryState(s, pairs, matches, Used(pairs))
      ensures FirstsAscending(pairs)
      ensures IntermediaryMaximal(s, Used(pairs))
      ensures remaining == Remaining(s, Used(pairs))
      ensures 2 * |matches| + |remaining| == |s|
    {
      var platform, bank := SplitByPaymentMethod(s);
      matches, pairs := [], [];
      var matched: set<nat> := {};
      var pk := 0;
      ghost var floor := 0;
      while pk < |platform|
        invariant 0 <= pk <= |platform|
        invariant IntermediaryState(s, pairs, matches, matched)
        invariant FirstsAscending(pairs) && forall k :: 0 <= k < |pairs| ==> pairs[k].0 < floor
        invariant pk < |platform| ==> floor <= platform[pk]
        invariant PlatformsDone(s, platform, pk, matched)
      {
        var pi := platform[pk];
        ghost var before := matched;
        if pi !in matched {
          var bk := FirstFreeBank(s, bank, pi, matched);
          if bk == |bank| {
            NoFreeBank(s, bank, pi, matched);
          } else {
            var bi := bank[bk];
            FirstFreeIsFirst(s, bank, pi, bk, matched, pairs);
            IntermediaryAppend(s, pairs, matches, matched, pi, bi);
            AscendingAppend(pairs, (pi, bi), floor);
            matches := matches + [MatchResult(s[pi], s[bi], Intermediary, 0.9)];
            pairs := pairs + [(pi, bi)];
            matched := matched + {pi, bi};
          }
        }
        PlatformDone(s, platform, pk, before, matched);
        floor := pi + 1;
        pk := pk + 1;
      }
      PlatformsAllDone(s, platform, matched);
      UsedInRange(s, pairs);
      PhaseCount(s, pairs);
      remaining := Remaining(s, matched);
    }
    /** Phase 3's test of two transactions: other sources, close, and similar payee texts. */
    predicate FuzzyMatchable(x: Transaction, y: Transaction, similarity: Similarity)
    {
      x.sourceAccount != y.sourceAccount && Close(x, y)
      && similarity(PayeeText(x), PayeeText(y)) >= fuzzyThreshold
    }

    /** Phase 3's test of a pair, apart from who is taken already. */
    predicate FuzzyEligible(s: seq<Transaction>, similarity: Similarity, i: nat, j: nat)
    {
      i < |s| && j < |s| && FuzzyMatchable(s[i], s[j], similarity)
    }

    /**
     * Phase 3 left nothing behind it could have paired: of two free positions, the first
     * below `n`, the later one is no eligible partner of the earlier.
     */
    predicate FuzzyMaximal(s: seq<Transaction>, similarity: Similarity, matched: set<nat>, n: nat)
    {
      forall x, y :: 0 <= x < n && x < y < |s| && x !in matched && y !in matched ==>
        !FuzzyEligible(s, similarity, x, y)
    }

    /** Phase 3's promise for one pair. */
    predicate FuzzyPair(s: seq<Transaction>, similarity: Similarity, pr: Pair)
    {
      pr.0 < pr.1 && FuzzyEligible(s, similarity, pr.0, pr.1)
    }

    /** The partner of `pr` is the first eligible later transaction not taken by the pairs `before`. */
    predicate FirstPartner(s: seq<Transaction>, similarity: Similarity, before: seq<Pair>, pr: Pair)
    {
      forall j :: pr.0 < j < pr.1 && FuzzyEligible(s, similarity, pr.0, j) ==> j in Used(before)
    }

    predicate FirstPartners(s: seq<Transaction>, similarity: Similarity, pairs: seq<Pair>)
    {
      forall k :: 0 <= k < |pairs| ==> FirstPartner(s, similarity, pairs[..k], pairs[k])
    }

    /** The state of phase 3's loops. */
    predicate FuzzyState(s: seq<Transaction>, similarity: Similarity, pairs: seq<Pair>, matches: seq<MatchResult>, matched: set<nat>)
    {
      matched == Used(pairs) && Disjoint(pairs) && |matches| == |pairs| && FirstPartners(s, similarity, pairs)
      && forall k :: 0 <= k < |pairs| ==>
        FuzzyPair(s, similarity, pairs[k])
        && matches[k] == MatchResult(s[pairs[k].0], s[pairs[k].1], Fuzzy,
                                     similarity(PayeeText(s[pairs[k].0]), PayeeText(s[pairs[k].1])))
    }

    lemma FuzzyAppend(s: seq<Transaction>, similarity: Similarity, pairs: seq<Pair>, matches: seq<MatchResult>,
                      matched: set<nat>, i: nat, j: nat)
      requires FuzzyState(s, similarity, pairs, matches, matched)
      requires i !in matched && j !in matched && FuzzyPair(s, similarity, (i, j))
      requires FirstPartner(s, similarity, pairs, (i, j))
      ensures FuzzyState(s, similarity, pairs + [(i, j)],
        matches + [MatchResult(s[i], s[j], Fuzzy, similarity(PayeeText(s[i]), PayeeText(s[j])))], matched + {i, j})
    {
      DisjointAppend(pairs, (i, j));
      var next := pairs + [(i, j)];
      forall k | 0 <= k < |next|
        ensures FirstPartner(s, similarity, next[..k], next[k])
      {
        if k < |pairs| {
          assert next[..k] == pairs[..k];
        } else {
          assert next[..k] == pairs;
        }
      }
    }

    /** The inner loop of phase 3, up to its `break`: the first free eligible partner after `i`. */
    method FirstFreePartner(s: seq<Transaction>, similarity: Similarity, i: nat, matched: set<nat>) returns (j: nat)
      requires i < |s|
      ensures i < j <= |s|
      ensures j < |s| ==> j !in matched && FuzzyEligible(s, similarity, i, j)
      ensures forall x :: i < x < j ==> x in matched || !FuzzyEligible(s, similarity, i, x)
    {
      j := i + 1;
      while j < |s| && !(j !in matched && FuzzyEligible(s, similarity, i, j))
        invariant i < j <= |s|
        invariant forall x :: i < x < j ==> x in matched || !FuzzyEligible(s, similarity, i, x)
      {
        j := j + 1;
      }
    }

    /**
     * `_phase_fuzzy`: each transaction not yet taken, in input order, takes the first later
     * free transaction from another source that is close to it and whose payee text is
     * similar enough; the confidence is the similarity.
     */
    method PhaseFuzzy(s: seq<Transaction>, similarity: Similarity) returns (matches: seq<MatchResult>, remaining: seq<Transaction>, ghost pairs: seq<Pair>)
      ensures FuzzyState(s, similarity, pairs, matches, Used(pairs))
      ensures FirstsAscending(pairs)
      ensures FuzzyMaximal(s, similarity, Used(pairs), |s|)
      ensures remaining == Remaining(s, Used(pairs))
      ensures 2 * |matches| + |remaining| == |s|
    {
      matches, pairs := [], [];
      var matched: set<nat> := {};
      var i := 0;
      while i < |s|
        invariant 0 <= i <= |s|
        invariant FuzzyState(s, similarity, pairs, matches, matched)
        invariant FirstsAscending(pairs) && forall k :: 0 <= k < |pairs| ==> pairs[k].0 < i
        invariant FuzzyMaximal(s, similarity, matched, i)
      {
        if i !in matched {
          var j := FirstFreePartner(s, similarity, i, matched);
          if j < |s| {
            FuzzyAppend(s, similarity, pairs, matches, matched, i, j);
            AscendingAppend(pairs, (i, j), i);
            matches := matches + [MatchResult(s[i], s[j], Fuzzy, similarity(PayeeText(s[i]), PayeeText(s[j])))];
            pairs := pairs + [(i, j)];
            matched := matched + {i, j};
          }
        }
        i := i + 1;
      }
      UsedInRange(s, pairs);
      PhaseCount(s, pairs);
      remaining := Remaining(s, matched);
    }
    /** What each phase promises of a match of its kind. */
    predicate Justified(m: MatchResult, similarity: Similarity)
    {
      match m.matchType
      case Reference =>
        m.confidence == 1.0 && m.txA.sourceAccount != m.txB.sourceAccount && SharesReference(m.txA, m.txB)
      case Intermediary =>
        m.confidence == 0.9 && Truthy(m.txA.paymentMethod) && !Truthy(m.txB.paymentMethod)
        && Close(m.txA, m.txB) && MentionsPlatform(m.txB)
      case Fuzzy =>
        m.confidence == similarity(PayeeText(m.txA), PayeeText(m.txB)) && m.confidence >= fuzzyThreshold
        && m.txA.sourceAccount != m.txB.sourceAccount && Close(m.txA, m.txB)
    }

    /** Every match is justified by its phase and pairs transactions of `s`. */
    predicate AllJustified(ms: seq<MatchResult>, s: seq<Transaction>, similarity: Similarity)
    {
      forall k :: 0 <= k < |ms| ==> Justified(ms[k], similarity) && ms[k].txA in s && ms[k].txB in s
    }

    /** Every match is of kind `t`. */
    predicate AllOfType(ms: seq<MatchResult>, t: MatchType)
    {
      forall k :: 0 <= k < |ms| ==> ms[k].matchType == t
    }

    lemma ReferenceJustified(s: seq<Transaction>, ms: seq<MatchResult>, pairs: seq<Pair>, similarity: Similarity)
      requires ReferenceState(s, pairs, ms, Used(pairs))
      ensures AllJustified(ms, s, similarity) && AllOfType(ms, Reference)
    {
    }

    lemma IntermediaryJustified(s: seq<Transaction>, ms: seq<MatchResult>, pairs: seq<Pair>, similarity: Similarity)
      requires IntermediaryState(s, pairs, ms, Used(pairs))
      ensures AllJustified(ms, s, similarity) && AllOfType(ms, Intermediary)
    {
    }

    lemma FuzzyJustified(s: seq<Transaction>, ms: seq<MatchResult>, pairs: seq<Pair>, similarity: Similarity)
      requires FuzzyState(s, similarity, pairs, ms, Used(pairs))
      ensures AllJustified(ms, s, similarity) && AllOfType(ms, Fuzzy)
    {
    }

    /** Matches of a subsequence's transactions are matches of the whole sequence's. */
    lemma JustifiedWithin(ms: seq<MatchResult>, r: seq<Transaction>, s: seq<Transaction>, idx: seq<nat>, similarity: Similarity)
      requires AllJustified(ms, r, similarity) && Embeds(idx, r, s)
      ensures AllJustified(ms, s, similarity)
    {
      EmbedsWithin(idx, r, s);
    }

    lemma JustifiedConcat(a: seq<MatchResult>, b: seq<MatchResult>, s: seq<Transaction>, similarity: Similarity)
      requires AllJustified(a, s, similarity) && AllJustified(b, s, similarity)
      ensures AllJustified(a + b, s, similarity)
    {
    }

    /** Phase 1 left behind, in `s`, what it left behind in its own input. */
    lemma LiftReference(s: seq<Transaction>, index: RefIndex, used: set<nat>, i2: seq<nat>, i3: seq<nat>)
      requires ReferenceMaximal(s, index, used, |index|)
      requires forall k :: 0 <= k < |i2| ==> i2[k] < |Kept(|s|, used)|
      requires forall k :: 0 <= k < |i3| ==> i3[k] < |i2|
      ensures ReferenceMaximal(s, index, Consumed(|s|, Compose(Compose(Kept(|s|, used), i2), i3)), |index|)
    {
      var i1 := Kept(|s|, used);
      ComposeWithin(Compose(i1, i2), i3);
      ComposeWithin(i1, i2);
      forall x | x in i1
        ensures x !in used
      {
        var k :| 0 <= k < |i1| && i1[k] == x;
      }
    }

    /** Phase 2 left behind, in `s`, what it left behind in its own input `r1`. */
    lemma LiftIntermediary(s: seq<Transaction>, i1: seq<nat>, r1: seq<Transaction>, used: set<nat>, i3: seq<nat>)
      requires Embeds(i1, r1, s) && IntermediaryMaximal(r1, used)
      requires forall k :: 0 <= k < |i3| ==> i3[k] < |Kept(|r1|, used)|
      ensures IntermediaryMaximal(s, Consumed(|s|, Compose(Compose(i1, Kept(|r1|, used)), i3)))
    {
      var i2 := Kept(|r1|, used);
      var keep := Compose(Compose(i1, i2), i3);
      forall p, b | 0 <= p < |s| && 0 <= b < |s| && p in keep && b in keep
        ensures !Bridges(s[p], s[b])
      {
        var k :| 0 <= k < |keep| && keep[k] == p;
        var l :| 0 <= l < |keep| && keep[l] == b;
        assert s[p] == r1[i2[i3[k]]] && s[b] == r1[i2[i3[l]]];
      }
    }

    /** Phase 3 left behind, in `s`, what it left behind in its own input `r2`. */
    lemma LiftFuzzy(s: seq<Transaction>, i12: seq<nat>, r2: seq<Transaction>, used: set<nat>, similarity: Similarity)
      requires Embeds(i12, r2, s) && FuzzyMaximal(r2, similarity, used, |r2|)
      ensures FuzzyMaximal(s, similarity, Consumed(|s|, Compose(i12, Kept(|r2|, used))), |s|)
    {
      var i3 := Kept(|r2|, used);
      var keep := Compose(i12, i3);
      forall x, y | 0 <= x < y < |s| && x in keep && y in keep
        ensures !FuzzyEligible(s, similarity, x, y)
      {
        var k :| 0 <= k < |keep| && keep[k] == x;
        var l :| 0 <= l < |keep| && keep[l] == y;
        assert i3[k] < i3[l];
        assert !FuzzyEligible(r2, similarity, i3[k], i3[l]);
      }
    }

    /** Reference matches, then intermediary, then fuzzy: the kinds never go back. */
    lemma PhaseOrder(m1: seq<MatchResult>, m2: seq<MatchResult>, m3: seq<MatchResult>)
      requires AllOfType(m1, Reference) && AllOfType(m2, Intermediary) && AllOfType(m3, Fuzzy)
      ensures forall k, l :: 0 <= k < l < |m1 + m2 + m3| ==>
        Rank((m1 + m2 + m3)[k].matchType) <= Rank((m1 + m2 + m3)[l].matchType)
    {
    }

    /**
     * `match`: the three phases in turn, each on what the previous one left. The matched and
     * the unmatched partition the input: match `k` pairs the two inputs at `slots[k]`, no
     * position is in two slots, and the slots hold exactly the positions missing from `keep`,
     * where the unmatched sit in their input order; each match carries its phase's guarantees, and the reference
     * matches come first, then the intermediary ones, then the fuzzy ones. Nothing left
     * unmatched could still have been paired by a phase: no reference group keeps a free
     * first member beside a free member from another source, no free platform transaction
     * bridges to a free bank line, and no two free transactions are a fuzzy match.
     */
    method Match(s: seq<Transaction>, similarity: Similarity)
      returns (out: MatchingOutput, ghost keep: seq<nat>, ghost slots: seq<Pair>)
      ensures 2 * |out.matched| + |out.unmatched| == |s|
      ensures Embeds(keep, out.unmatched, s)
      ensures Placed(s, out.matched, slots) && Disjoint(slots)
      ensures Used(slots) == Consumed(|s|, keep)
      ensures AllJustified(out.matched, s, similarity)
      ensures forall k, l :: 0 <= k < l < |out.matched| ==>
        Rank(out.matched[k].matchType) <= Rank(out.matched[l].matchType)
      ensures ReferenceMaximal(s, RefIndexOf(s, |s|), Consumed(|s|, keep), |RefIndexOf(s, |s|)|)
      ensures IntermediaryMaximal(s, Consumed(|s|, keep))
      ensures FuzzyMaximal(s, similarity, Consumed(|s|, keep), |s|)
    {
      var remaining := s;
      var allMatches: seq<MatchResult> := [];

      var m1, r1, p1, o1 := PhaseReference(remaining);
      assert [] + m1 == m1;
      allMatches := allMatches + m1;
      remaining := r1;
      ReferenceJustified(s, m1, p1, similarity);
      ghost var i1 := Kept(|s|, Used(p1));

      var m2, r2, p2 := PhaseIntermediary(remaining);
      IntermediaryJustified(r1, m2, p2, similarity);
      JustifiedWithin(m2, r1, s, i1, similarity);
      JustifiedConcat(allMatches, m2, s, similarity);
      allMatches := allMatches + m2;
      remaining := r2;
      ghost var i2 := Kept(|r1|, Used(p2));
      EmbedsCompose(i1, r1, s, i2, r2);
      ghost var i12 := Compose(i1, i2);

      var m3, r3, p3 := PhaseFuzzy(remaining, similarity);
      FuzzyJustified(r2, m3, p3, similarity);
      JustifiedWithin(m3, r2, s, i12, similarity);
      JustifiedConcat(allMatches, m3, s, similarity);
      PhaseOrder(m1, m2, m3);
      allMatches := allMatches + m3;
      remaining := r3;
      ghost var i3 := Kept(|r2|, Used(p3));
      EmbedsCompose(i12, r2, s, i3, r3);
      keep := Compose(i12, i3);
      slots := Partition(s, m1, p1, r1, m2, p2, r2, m3, p3, r3, keep);
      LiftReference(s, RefIndexOf(s, |s|), Used(p1), i2, i3);
      LiftIntermediary(s, i1, r1, Used(p2), i3);
      LiftFuzzy(s, i12, r2, Used(p3), similarity);

      out := MatchingOutput(allMatches, remaining);
    }
  }
}
