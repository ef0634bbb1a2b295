/**
 * Clearing links: every terminal expense that sits on a clearing account starts a chain,
 * named `clr-NNNNNN`, and the chain is followed upstream through the transactions whose
 * counter account is the current clearing account, stamping the same link on each hop.
 * The transaction list is updated in place, so it is an array here; only
 * `metadata["link"]` of a transaction is ever written.
 */
module ClearingLinks {
  import opened Wrappers
  import opened Numbers
  import opened Model
  import opened ClearingRoutes

  /** `ClearingStats`. */
  datatype ClearingStats = ClearingStats(totalChains: nat, totalLinked: nat, unmatchedTerminal: nat)

  /**
   * `importer.match_clearing(current, candidates)`: the importer with this id picks one of
   * the candidates, by index, or none.
   */
  type Matcher = (string, Transaction, seq<Transaction>) -> Option<nat>

  /** A matcher only ever returns one of the candidates it was given. */
  ghost predicate PicksCandidate(matcher: Matcher)
  {
    forall id, tx, cands :: matcher(id, tx, cands).Some? ==> matcher(id, tx, cands).value < |cands|
  }

  /** `_is_terminal_expense`: an expense paid from clearing whose counter is not clearing. */
  function IsTerminalExpense(tx: Transaction): (b: bool)
    ensures b ==> forall acct :: !FeedsInto(tx, acct)
  {
    tx.txType == Some(Expense) && IsClearingAccount(tx.sourceAccount)
    && !(Truthy(tx.counterAccount) && IsClearingAccount(tx.counterAccount.value))
  }

  /** The transaction's counter account is the clearing account `acct`. */
  predicate FeedsInto(tx: Transaction, acct: string)
  {
    tx.counterAccount == Some(acct) && acct != "" && IsClearingAccount(acct)
  }

  /** Something that feeds a clearing account is never a terminal expense. */
  lemma FeederNotTerminal(tx: Transaction, acct: string)
    requires FeedsInto(tx, acct)
    ensures !IsTerminalExpense(tx)
  {
  }

  /** Positions below `n` whose transaction feeds `acct`, ascending: one list of `counter_index`. */
  function Feeders(s: seq<Transaction>, acct: string, n: nat): (r: seq<nat>)
    requires n <= |s|
    ensures forall k :: 0 <= k < |r| ==> r[k] < n && FeedsInto(s[r[k]], acct)
    ensures forall i :: 0 <= i < n && FeedsInto(s[i], acct) ==> i in r
    ensures forall k, l :: 0 <= k < l < |r| ==> r[k] < r[l]
  {
    if n == 0 then []
    else Feeders(s, acct, n - 1) + (if FeedsInto(s[n - 1], acct) then [n - 1] else [])
  }

  /** The entry of `index` for `acct` is right for the first `n` transactions of `s`. */
  predicate IndexedAt(index: map<string, seq<nat>>, s: seq<Transaction>, n: nat, acct: string)
    requires n <= |s|
  {
    if acct in index then index[acct] == Feeders(s, acct, n) && index[acct] != []
    else Feeders(s, acct, n) == []
  }

  /** `index` is the counter index of `s` restricted to its first `n` transactions. */
  ghost predicate IndexesUpTo(index: map<string, seq<nat>>, s: seq<Transaction>, n: nat)
    requires n <= |s|
  {
    forall acct :: IndexedAt(index, s, n, acct)
  }

  /** The loop building `counter_index`: clearing counter account → positions feeding it. */
  method BuildCounterIndex(s: seq<Transaction>) returns (index: map<string, seq<nat>>)
    ensures IndexesUpTo(index, s, |s|)
  {
    index := map[];
    var i := 0;
    while i < |s|
      invariant 0 <= i <= |s|
      invariant IndexesUpTo(index, s, i)
    {
      var tx := s[i];
      ghost var prev := index;
      if Truthy(tx.counterAccount) && IsClearingAccount(tx.counterAccount.value) {
        var acct := tx.counterAccount.value;
        index := index[acct := Listed(index, acct) + [i]];
      }
      IndexStep(prev, index, s, i);
      i := i + 1;
    }
  }

  /** Recording transaction `i` under its clearing counter account extends the index by one. */
  lemma IndexStep(prev: map<string, seq<nat>>, index: map<string, seq<nat>>, s: seq<Transaction>, i: nat)
    requires i < |s| && IndexesUpTo(prev, s, i)
    requires if Truthy(s[i].counterAccount) && IsClearingAccount(s[i].counterAccount.value)
      then index == prev[s[i].counterAccount.value := Listed(prev, s[i].counterAccount.value) + [i]]
      else index == prev
    ensures IndexesUpTo(index, s, i + 1)
  {
    var next := i + 1;
    forall acct
      ensures IndexedAt(index, s, next, acct)
    {
      assert IndexedAt(prev, s, i, acct);
      assert Feeders(s, acct, next) == Feeders(s, acct, i) + (if FeedsInto(s[i], acct) then [i] else []);
    }
  }

  /** Every position listed under `acct` is in range and feeds `acct`. */
  predicate IndexSound(index: map<string, seq<nat>>, s: seq<Transaction>)
  {
    forall acct :: acct in index ==>
      forall k :: 0 <= k < |index[acct]| ==> index[acct][k] < |s| && FeedsInto(s[index[acct][k]], acct)
  }

  lemma CounterIndexSound(index: map<string, seq<nat>>, s: seq<Transaction>)
    requires IndexesUpTo(index, s, |s|)
    ensures IndexSound(index, s)
  {
    forall acct | acct in index
      ensures forall k :: 0 <= k < |index[acct]| ==> index[acct][k] < |s| && FeedsInto(s[index[acct][k]], acct)
    {
      assert IndexedAt(index, s, |s|, acct);
    }
  }

  /** The positions of `idxs` whose transaction has no link yet, in order. */
  function Pending(s: seq<Transaction>, idxs: seq<nat>): (r: seq<nat>)
    requires forall k :: 0 <= k < |idxs| ==> idxs[k] < |s|
    ensures forall k :: 0 <= k < |r| ==> r[k] in idxs && !HasLink(s[r[k]])
    ensures forall k :: 0 <= k < |idxs| && !HasLink(s[idxs[k]]) ==> idxs[k] in r
  {
    if idxs == [] then []
    else (if HasLink(s[idxs[0]]) then [] else [idxs[0]]) + Pending(s, idxs[1..])
  }

  /** The candidate list handed to the matcher. */
  function Candidates(s: seq<Transaction>, idxs: seq<nat>): (r: seq<Transaction>)
    requires forall k :: 0 <= k < |idxs| ==> idxs[k] < |s|
    ensures |r| == |idxs| && forall k :: 0 <= k < |idxs| ==> r[k] == s[idxs[k]]
  {
    seq(|idxs|, k requires 0 <= k < |idxs| => s[idxs[k]])
  }

  /** The positions listed under the current source account, as `counter_index.get(src, [])`. */
  function Listed(index: map<string, seq<nat>>, src: string): seq<nat>
  {
    if src in index then index[src] else []
  }

  /** Positions of transactions without a link. */
  function Unlinked(s: seq<Transaction>): set<nat>
  {
    set i: nat | i < |s| && !HasLink(s[i])
  }

  /** Positions that had no link in `s` and have one in `t`. */
  function NewlyLinked(s: seq<Transaction>, t: seq<Transaction>): set<nat>
  {
    set i: nat | i < |s| && i < |t| && !HasLink(s[i]) && HasLink(t[i])
  }

  /** `t` is `s` with some unlinked transactions given the link `l`, and nothing else changed. */
  predicate LinkedWith(s: seq<Transaction>, t: seq<Transaction>, l: string)
  {
    |s| == |t| && forall i :: 0 <= i < |s| ==> t[i] == s[i] || (!HasLink(s[i]) && t[i] == WithLink(s[i], l))
  }

  /** `t` is `s` with some unlinked transactions given a link, and nothing else changed. */
  predicate LinksOnly(s: seq<Transaction>, t: seq<Transaction>)
  {
    |s| == |t| && forall i :: 0 <= i < |s| ==>
      t[i] == s[i] || (!HasLink(s[i]) && HasLink(t[i]) && t[i] == WithLink(s[i], t[i].metadata.link.value))
  }

  lemma LinkedWithLinksOnly(s: seq<Transaction>, t: seq<Transaction>, l: string)
    requires LinkedWith(s, t, l) && l != ""
    ensures LinksOnly(s, t)
  {
  }

  /** Giving a link changes nothing but the link. */
  lemma WithLinkKeeps(tx: Transaction, l: string)
    ensures WithLink(tx, l).sourceAccount == tx.sourceAccount
    ensures WithLink(tx, l).counterAccount == tx.counterAccount
  {
  }

  /** Giving the link `l` to one more unlinked transaction. */
  lemma TagOne(o: seq<Transaction>, s: seq<Transaction>, j: nat, l: string)
    requires LinkedWith(o, s, l) && j < |s| && !HasLink(s[j]) && l != ""
    ensures s[j] == o[j]
    ensures LinkedWith(o, s[j := WithLink(s[j], l)], l)
    ensures Unlinked(s[j := WithLink(s[j], l)]) == Unlinked(s) - {j}
    ensures j in Unlinked(s)
    ensures NewlyLinked(o, s[j := WithLink(s[j], l)]) == NewlyLinked(o, s) + {j}
    ensures j !in NewlyLinked(o, s)
  {
    var t := s[j := WithLink(s[j], l)];
    assert forall i :: 0 <= i < |s| && i != j ==> t[i] == s[i];
  }

  /** Under `LinkedWith`, source and counter accounts are those of the original. */
  lemma LinkedWithKeeps(o: seq<Transaction>, s: seq<Transaction>, l: string, i: nat)
    requires LinkedWith(o, s, l) && i < |s|
    ensures s[i].sourceAccount == o[i].sourceAccount && s[i].counterAccount == o[i].counterAccount
  {
    WithLinkKeeps(o[i], l);
  }

  /** A path of positions in `s`, each feeding the source account of the one before it. */
  predicate IsChain(s: seq<Transaction>, chain: seq<nat>)
  {
    |chain| >= 1 && (forall k :: 0 <= k < |chain| ==> chain[k] < |s|)
    && forall k :: 0 <= k < |chain| - 1 ==> FeedsInto(s[chain[k + 1]], s[chain[k]].sourceAccount)
  }

  lemma ExtendChain(s: seq<Transaction>, chain: seq<nat>, j: nat)
    requires IsChain(s, chain)
    requires j < |s| && FeedsInto(s[j], s[chain[|chain| - 1]].sourceAccount)
    ensures IsChain(s, chain + [j])
    ensures (set x | x in (chain + [j])[1..]) == (set x | x in chain[1..]) + {j}
  {
    var longer := chain + [j];
    assert longer[1..] == chain[1..] + [j];
    forall k | 0 <= k < |longer| - 1
      ensures FeedsInto(s[longer[k + 1]], s[longer[k]].sourceAccount)
    {
      if k < |chain| - 1 {
        assert longer[k + 1] == chain[k + 1] && longer[k] == chain[k];
      }
    }
  }

  /** Every position of a chain after the first feeds some clearing account. */
  lemma ChainFeeds(s: seq<Transaction>, chain: seq<nat>, x: nat)
    requires IsChain(s, chain) && x in chain[1..]
    ensures x < |s| && exists acct :: FeedsInto(s[x], acct)
  {
    var k :| 0 <= k < |chain[1..]| && chain[1..][k] == x;
    assert FeedsInto(s[chain[k + 1]], s[chain[k]].sourceAccount);
  }

  /** Changing links only keeps every path of feeders a path. */
  lemma ChainAcross(s: seq<Transaction>, t: seq<Transaction>, chain: seq<nat>)
    requires LinksOnly(s, t) && IsChain(t, chain)
    ensures IsChain(s, chain)
  {
    forall k | 0 <= k < |chain| - 1
      ensures FeedsInto(s[chain[k + 1]], s[chain[k]].sourceAccount)
    {
      var x, y := chain[k + 1], chain[k];
      if t[x] != s[x] {
        WithLinkKeeps(s[x], t[x].metadata.link.value);
      }
      if t[y] != s[y] {
        WithLinkKeeps(s[y], t[y].metadata.link.value);
      }
    }
  }

  /**
   * The state of a propagation from `seed` that has taken the path `chain` so far: every
   * position after the seed on the path was linked with `link`, and nothing else changed.
   */
  ghost predicate Walked(start: seq<Transaction>, s: seq<Transaction>, link: string, seed: nat, chain: seq<nat>)
  {
    IsChain(start, chain) && chain[0] == seed && LinkedWith(start, s, link) && link != ""
    && HasLink(s[chain[|chain| - 1]])
    && NewlyLinked(start, s) == (set x | x in chain[1..]) && |NewlyLinked(start, s)| == |chain| - 1
  }

  /** The propagation starts at a linked seed with nothing new linked. */
  lemma WalkStarts(s: seq<Transaction>, seed: nat)
    requires seed < |s| && HasLink(s[seed])
    ensures Walked(s, s, s[seed].metadata.link.value, seed, [seed])
  {
    assert NewlyLinked(s, s) == {};
    assert [seed][1..] == [];
  }

  /**
   * One hop of the propagation from the transaction at `cur` in the state `before`: its
   * source account is a clearing account, it has an importer, and that importer's matcher,
   * handed the unlinked transactions feeding the account, picked `next`, which then got
   * the link `link`, giving `after`.
   */
  ghost predicate Hop(index: map<string, seq<nat>>, importers: map<nat, string>, matcher: Matcher,
                      before: seq<Transaction>, after: seq<Transaction>, cur: nat, next: nat, link: string)
  {
    cur < |before| && IsClearingAccount(before[cur].sourceAccount) && cur in importers
    && (forall k :: 0 <= k < |Listed(index, before[cur].sourceAccount)| ==> Listed(index, before[cur].sourceAccount)[k] < |before|)
    && var pending := Pending(before, Listed(index, before[cur].sourceAccount));
       var pick := matcher(importers[cur], before[cur], Candidates(before, pending));
       pick.Some? && pick.value < |pending| && next == pending[pick.value] && next < |before|
       && after == before[next := WithLink(before[next], link)]
  }

  /** `states[k + 1]` came from `states[k]` by the hop from `chain[k]` to `chain[k + 1]`. */
  ghost predicate Trail(index: map<string, seq<nat>>, importers: map<nat, string>, matcher: Matcher, link: string,
                        states: seq<seq<Transaction>>, chain: seq<nat>)
  {
    |states| == |chain|
    && forall k :: 0 <= k < |chain| - 1 ==> Hop(index, importers, matcher, states[k], states[k + 1], chain[k], chain[k + 1], link)
  }

  lemma TrailStep(index: map<string, seq<nat>>, importers: map<nat, string>, matcher: Matcher, link: string,
                  states: seq<seq<Transaction>>, chain: seq<nat>, after: seq<Transaction>, j: nat)
    requires Trail(index, importers, matcher, link, states, chain) && |chain| > 0
    requires Hop(index, importers, matcher, states[|states| - 1], after, chain[|chain| - 1], j, link)
    ensures Trail(index, importers, matcher, link, states + [after], chain + [j])
  {
    var ss, cc := states + [after], chain + [j];
    forall k | 0 <= k < |cc| - 1
      ensures Hop(index, importers, matcher, ss[k], ss[k + 1], cc[k], cc[k + 1], link)
    {
      if k < |chain| - 1 {
        assert ss[k] == states[k] && ss[k + 1] == states[k + 1] && cc[k] == chain[k] && cc[k + 1] == chain[k + 1];
      } else {
        assert ss[k] == states[|states| - 1] && ss[k + 1] == after && cc[k] == chain[|chain| - 1] && cc[k + 1] == j;
      }
    }
  }

  /** The matcher's pick is an unlinked transaction feeding the current source account. */
  lemma PickFeeds(index: map<string, seq<nat>>, s: seq<Transaction>, src: string, pending: seq<nat>, p: nat)
    requires IndexSound(index, s) && p < |pending|
    requires pending == Pending(s, Listed(index, src))
    ensures pending[p] < |s| && !HasLink(s[pending[p]]) && FeedsInto(s[pending[p]], src)
  {
    var l := Listed(index, src);
    var k :| 0 <= k < |l| && l[k] == pending[p];
  }

  /** Linking the pick `j` and moving on to it keeps the propagation's state. */
  lemma WalkStep(start: seq<Transaction>, s: seq<Transaction>, link: string, seed: nat, chain: seq<nat>, j: nat)
    requires Walked(start, s, link, seed, chain)
    requires j < |s| && !HasLink(s[j]) && FeedsInto(s[j], s[chain[|chain| - 1]].sourceAccount)
    ensures Walked(start, s[j := WithLink(s[j], link)], link, seed, chain + [j])
    ensures |Unlinked(s[j := WithLink(s[j], link)])| < |Unlinked(s)|
  {
    var cur := chain[|chain| - 1];
    LinkedWithKeeps(start, s, link, cur);
    assert FeedsInto(start[j], start[cur].sourceAccount);
    ExtendChain(start, chain, j);
    WalkLinks(start, s, link, j, set x | x in chain[1..]);
  }

  /** Linking the unlinked `j` adds it to the newly linked set and shrinks the unlinked one. */
  lemma WalkLinks(start: seq<Transaction>, s: seq<Transaction>, link: string, j: nat, linked: set<nat>)
    requires LinkedWith(start, s, link) && link != "" && j < |s| && !HasLink(s[j])
    requires NewlyLinked(start, s) == linked
    ensures LinkedWith(start, s[j := WithLink(s[j], link)], link)
    ensures HasLink(s[j := WithLink(s[j], link)][j])
    ensures NewlyLinked(start, s[j := WithLink(s[j], link)]) == linked + {j}
    ensures |NewlyLinked(start, s[j := WithLink(s[j], link)])| == |linked| + 1
    ensures |Unlinked(s[j := WithLink(s[j], link)])| < |Unlinked(s)|
  {
    TagOne(start, s, j, link);
  }

  /**
   * The walk cannot go on from `cur` in `s`: its source is not a clearing account, no
   * unlinked transaction feeds that account, it has no importer, or the matcher declines.
   */
  ghost predicate Stopped(index: map<string, seq<nat>>, importers: map<nat, string>, matcher: Matcher,
                          s: seq<Transaction>, cur: nat)
    requires cur < |s| && IndexSound(index, s)
  {
    var pending := Pending(s, Listed(index, s[cur].sourceAccount));
    !IsClearingAccount(s[cur].sourceAccount) || pending == [] || cur !in importers
    || matcher(importers[cur], s[cur], Candidates(s, pending)).None?
  }

  /**
   * `_dfs_propagate(seed, ...)`: from `seed`, repeatedly hand the not-yet-linked
   * transactions feeding the current source account to the current transaction's importer,
   * stamp the seed's link on the one it picks and continue from there. The result is the
   * number of transactions it linked; `chain` is the path it took and `states` the list
   * before each hop and after the last.
   */
  method Propagate(a: array<Transaction>, seed: nat, importers: map<nat, string>, matcher: Matcher,
                   index: map<string, seq<nat>>) returns (hops: nat, ghost chain: seq<nat>, ghost states: seq<seq<Transaction>>)
    requires seed < a.Length && HasLink(a[seed])
    requires IndexSound(index, a[..]) && PicksCandidate(matcher)
    modifies a
    ensures LinkedWith(old(a[..]), a[..], old(a[seed].metadata.link.value))
    ensures hops == |NewlyLinked(old(a[..]), a[..])|
    ensures IsChain(old(a[..]), chain) && |chain| == hops + 1 && chain[0] == seed
    ensures NewlyLinked(old(a[..]), a[..]) == set x | x in chain[1..]
    // Each hop is the pick of the current transaction's matcher among the unlinked feeders.
    ensures |states| == hops + 1 && states[0] == old(a[..]) && states[hops] == a[..]
    ensures Trail(index, importers, matcher, old(a[seed].metadata.link.value), states, chain)
    // It stops only when the chain cannot go on.
    ensures chain[hops] < a.Length && IndexSound(index, a[..])
    ensures Stopped(index, importers, matcher, a[..], chain[hops])
  {
    ghost var start := a[..];
    var link := a[seed].metadata.link.value;
    var cur := seed;
    hops := 0;
    chain := [seed];
    states := [start];
    WalkStarts(start, seed);
    while true
      invariant cur < a.Length && |chain| == hops + 1 && chain[hops] == cur
      invariant Walked(start, a[..], link, seed, chain)
      invariant IndexSound(index, a[..])
      invariant |states| == hops + 1 && states[0] == start && states[hops] == a[..]
      invariant Trail(index, importers, matcher, link, states, chain)
      decreases |Unlinked(a[..])|
    {
      var src := a[cur].sourceAccount;
      if !IsClearingAccount(src) {
        break;
      }
      var pending := Pending(a[..], Listed(index, src));
      if pending == [] {
        break;
      }
      if cur !in importers {
        break;
      }
      var candidates := Candidates(a[..], pending);
      var picked := matcher(importers[cur], a[cur], candidates);
      if picked.None? {
        break;
      }
      PickFeeds(index, a[..], src, pending, picked.value);
      var j := pending[picked.value];
      ghost var before := a[..];
      WalkStep(start, before, link, seed, chain, j);
      a[j] := WithLink(a[j], link);
      assert a[..] == before[j := WithLink(before[j], link)];
      IndexSoundLinked(index, before, j, link);
      assert Hop(index, importers, matcher, before, a[..], cur, j, link);
      TrailStep(index, importers, matcher, link, states, chain, a[..], j);
      hops := hops + 1;
      chain := chain + [j];
      states := states + [a[..]];
      cur := j;
    }
  }

  /** Giving one transaction a link keeps the counter index sound. */
  lemma IndexSoundLinked(index: map<string, seq<nat>>, s: seq<Transaction>, j: nat, link: string)
    requires IndexSound(index, s) && j < |s|
    ensures IndexSound(index, s[j := WithLink(s[j], link)])
  {
    WithLinkKeeps(s[j], link);
    var t := s[j := WithLink(s[j], link)];
    forall acct, k | acct in index && 0 <= k < |index[acct]|
      ensures FeedsInto(t[index[acct][k]], acct)
    {
      assert FeedsInto(s[index[acct][k]], acct);
    }
  }

  /** The name of the `k`-th chain: `f"clr-{k:06d}"`. */
  function LinkName(k: nat): (l: string)
    ensures |l| >= 10 && l[..4] == "clr-"
  {
    "clr-" + ZeroPad(k, 6)
  }

  /** Independent chains get distinct links. */
  lemma LinkNamesDistinct(j: nat, k: nat)
    requires j != k
    ensures LinkName(j) != LinkName(k)
  {
    assert LinkName(j)[4..] == ZeroPad(j, 6);
    assert LinkName(k)[4..] == ZeroPad(k, 6);
  }

  /** The number of terminal expenses without a link among the first `n` transactions. */
  function ChainsBefore(s: seq<Transaction>, n: nat): (c: nat)
    requires n <= |s|
    ensures c <= n
  {
    if n == 0 then 0
    else ChainsBefore(s, n - 1) + (if IsTerminalExpense(s[n - 1]) && !HasLink(s[n - 1]) then 1 else 0)
  }

  /** The link is one of the first `n` chain names. */
  predicate IsChainLink(l: string, n: nat)
  {
    exists k :: 0 <= k < n && l == LinkName(k)
  }

  /** Linking the same positions in two steps links them in one. */
  lemma NewlyLinkedCompose(o: seq<Transaction>, s: seq<Transaction>, t: seq<Transaction>)
    requires LinksOnly(o, s) && LinksOnly(s, t)
    ensures LinksOnly(o, t)
    ensures NewlyLinked(o, t) == NewlyLinked(o, s) + NewlyLinked(s, t)
    ensures NewlyLinked(o, s) !! NewlyLinked(s, t)
  {
  }

  /** The counter index stays sound while only links change. */
  lemma IndexSoundKept(index: map<string, seq<nat>>, o: seq<Transaction>, s: seq<Transaction>)
    requires IndexSound(index, o) && LinksOnly(o, s)
    ensures IndexSound(index, s)
  {
    forall acct, k | acct in index && 0 <= k < |index[acct]|
      ensures FeedsInto(s[index[acct][k]], acct)
    {
      var i := index[acct][k];
      if s[i] != o[i] {
        WithLinkKeeps(o[i], s[i].metadata.link.value);
      }
    }
  }

  /**
   * What starting a chain at `i` with the link `name` did to `before`, giving `after`: the
   * terminal expense got the link, `hops` more unlinked transactions got it too, nothing
   * else changed, and no other terminal expense was touched.
   */
  ghost predicate ChainRan(before: seq<Transaction>, after: seq<Transaction>, i: nat, name: string, hops: nat)
  {
    LinkedWith(before, after, name) && i < |after| && after[i] == WithLink(before[i], name)
    && |NewlyLinked(before, after)| == hops + 1
    && forall j :: 0 <= j < |after| && j != i && after[j] != before[j] ==> !IsTerminalExpense(before[j])
  }

  /**
   * The path a chain started at `i` took from `before` to `after`: a path of feeders from
   * `i`, whose positions are exactly the ones newly linked, each hop the matcher's pick in
   * the state `trail` records for it, from the list with the terminal tagged to `after`,
   * and the walk stopped at the end of the path because it could not go on.
   */
  ghost predicate ChainTaken(index: map<string, seq<nat>>, importers: map<nat, string>, matcher: Matcher,
                             before: seq<Transaction>, after: seq<Transaction>, i: nat, name: string,
                             path: seq<nat>, trail: seq<seq<Transaction>>)
  {
    IsChain(before, path) && path[0] == i
    && NewlyLinked(before, after) == set x | x in path
    && |trail| == |path| && trail[0] == before[i := WithLink(before[i], name)] && trail[|trail| - 1] == after
    && Trail(index, importers, matcher, name, trail, path)
    && path[|path| - 1] < |after| && IndexSound(index, after)
    && Stopped(index, importers, matcher, after, path[|path| - 1])
  }

  /**
   * One turn of the main loop for an unlinked terminal expense at `i`: give it the fresh
   * link `name` and propagate that link upstream along `path`.
   */
  method StartChain(a: array<Transaction>, i: nat, name: string, importers: map<nat, string>, matcher: Matcher,
                    index: map<string, seq<nat>>)
    returns (hops: nat, ghost path: seq<nat>, ghost trail: seq<seq<Transaction>>)
    requires i < a.Length && !HasLink(a[i]) && name != ""
    requires IndexSound(index, a[..]) && PicksCandidate(matcher)
    modifies a
    ensures ChainRan(old(a[..]), a[..], i, name, hops)
    ensures ChainTaken(index, importers, matcher, old(a[..]), a[..], i, name, path, trail) && |path| == hops + 1
  {
    ghost var start := a[..];
    TagOne(start, start, i, name);
    a[i] := WithLink(a[i], name);
    assert a[..] == start[i := WithLink(start[i], name)];
    ghost var seeded := a[..];
    LinkedWithLinksOnly(start, seeded, name);
    IndexSoundKept(index, start, seeded);
    hops, path, trail := Propagate(a, i, importers, matcher, index);
    ChainAfterSeed(start, seeded, a[..], path, i, name, hops);
    ChainAcross(start, seeded, path);
    TaggedPath(start, seeded, a[..], path, i, name);
  }

  /** The positions the tag and the walk newly linked are those of the walk's path, seed included. */
  lemma TaggedPath(start: seq<Transaction>, seeded: seq<Transaction>, after: seq<Transaction>,
                   path: seq<nat>, i: nat, name: string)
    requires i < |start| && !HasLink(start[i]) && name != ""
    requires seeded == start[i := WithLink(start[i], name)]
    requires LinkedWith(seeded, after, name)
    requires |path| >= 1 && path[0] == i && NewlyLinked(seeded, after) == set x | x in path[1..]
    ensures NewlyLinked(start, after) == set x | x in path
  {
    TagFirst(start, i, name);
    LinkedWithLinksOnly(start, seeded, name);
    LinkedWithLinksOnly(seeded, after, name);
    NewlyLinkedCompose(start, seeded, after);
    assert path == [i] + path[1..];
    assert (set x | x in path) == {i} + set x | x in path[1..];
  }

  /** What a turn of the main loop did, from what tagging the seed and propagating did. */
  lemma ChainAfterSeed(start: seq<Transaction>, seeded: seq<Transaction>, after: seq<Transaction>,
                       chain: seq<nat>, i: nat, name: string, hops: nat)
    requires i < |start| && !HasLink(start[i]) && name != ""
    requires seeded == start[i := WithLink(start[i], name)]
    requires LinkedWith(seeded, after, name) && hops == |NewlyLinked(seeded, after)|
    requires IsChain(seeded, chain) && NewlyLinked(seeded, after) == set x | x in chain[1..]
    ensures LinkedWith(start, after, name)
    ensures after[i] == WithLink(start[i], name)
    ensures |NewlyLinked(start, after)| == hops + 1
    ensures forall j :: 0 <= j < |after| && j != i && after[j] != start[j] ==> !IsTerminalExpense(start[j])
  {
    ChainSkipsTerminals(start, seeded, after, chain, i, name);
    TagFirst(start, i, name);
    LinkedWithLinksOnly(start, seeded, name);
    LinkedWithLinksOnly(seeded, after, name);
    NewlyLinkedCompose(start, seeded, after);
  }

  /** Tagging one transaction of an untouched list newly links exactly it. */
  lemma TagFirst(s: seq<Transaction>, i: nat, name: string)
    requires i < |s| && !HasLink(s[i]) && name != ""
    ensures NewlyLinked(s, s[i := WithLink(s[i], name)]) == {i}
  {
  }

  /** Propagation never touches a terminal expense: everything it links feeds a clearing account. */
  lemma ChainSkipsTerminals(start: seq<Transaction>, seeded: seq<Transaction>, after: seq<Transaction>,
                            chain: seq<nat>, i: nat, name: string)
    requires i < |start| && seeded == start[i := WithLink(start[i], name)] && name != ""
    requires LinkedWith(seeded, after, name)
    requires IsChain(seeded, chain) && NewlyLinked(seeded, after) == set x | x in chain[1..]
    ensures forall j :: 0 <= j < |after| && j != i && after[j] != start[j] ==> !IsTerminalExpense(start[j])
  {
    forall j | 0 <= j < |after| && j != i && after[j] != start[j]
      ensures !IsTerminalExpense(start[j])
    {
      assert seeded[j] == start[j];
      assert j in NewlyLinked(seeded, after);
      ChainFeeds(seeded, chain, j);
      var acct :| FeedsInto(seeded[j], acct);
      FeederNotTerminal(seeded[j], acct);
    }
  }

  /** Linking does not change which transactions are terminal expenses. */
  lemma TerminalIgnoresLink(tx: Transaction, l: string)
    ensures IsTerminalExpense(WithLink(tx, l)) == IsTerminalExpense(tx)
  {
  }

  /** The state of `s` after the main loop has visited the first `i` positions of `start`. */
  ghost predicate Visited(start: seq<Transaction>, s: seq<Transaction>, i: nat, chains: nat)
  {
    i <= |start| && LinksOnly(start, s) && chains == ChainsBefore(start, i)
    && LaterTerminalsUntouched(start, s, i) && EarlierTerminalsLinked(start, s, i)
    && LinksNamed(start, s, chains)
  }

  /** Terminal expenses from position `i` on are as they were. */
  ghost predicate LaterTerminalsUntouched(start: seq<Transaction>, s: seq<Transaction>, i: nat)
    requires |start| == |s|
  {
    forall j :: i <= j < |s| && IsTerminalExpense(start[j]) ==> s[j] == start[j]
  }

  /** Terminal expenses before position `i` are linked, the unlinked ones with their chain's name. */
  ghost predicate EarlierTerminalsLinked(start: seq<Transaction>, s: seq<Transaction>, i: nat)
    requires i <= |start| == |s|
  {
    (forall j :: 0 <= j < i && IsTerminalExpense(start[j]) ==> HasLink(s[j]))
    && (forall j :: 0 <= j < i && IsTerminalExpense(start[j]) && !HasLink(start[j]) ==>
          s[j].metadata.link == Some(LinkName(ChainsBefore(start, j))))
  }

  /** Every changed transaction carries one of the first `chains` chain names. */
  ghost predicate LinksNamed(start: seq<Transaction>, s: seq<Transaction>, chains: nat)
    requires |start| == |s|
  {
    forall j :: 0 <= j < |s| && s[j] != start[j] ==> HasLink(s[j]) && IsChainLink(s[j].metadata.link.value, chains)
  }

  /** Passing over a position that does not start a chain. */
  lemma VisitSkip(start: seq<Transaction>, s: seq<Transaction>, i: nat, chains: nat)
    requires Visited(start, s, i, chains) && i < |s|
    requires !(IsTerminalExpense(s[i]) && !HasLink(s[i]))
    ensures Visited(start, s, i + 1, chains)
  {
    SkipNotChain(start, s, i, chains);
    SkipKeepsEarlier(start, s, i);
  }

  /** A position passed over is not an unlinked terminal expense of the original list. */
  lemma SkipNotChain(start: seq<Transaction>, s: seq<Transaction>, i: nat, chains: nat)
    requires Visited(start, s, i, chains) && i < |s|
    requires !(IsTerminalExpense(s[i]) && !HasLink(s[i]))
    ensures !(IsTerminalExpense(start[i]) && !HasLink(start[i]))
    ensures IsTerminalExpense(start[i]) ==> HasLink(s[i])
    ensures ChainsBefore(start, i + 1) == chains
  {
    if s[i] != start[i] {
      TerminalIgnoresLink(start[i], s[i].metadata.link.value);
    }
  }

  /** Passing over position `i` extends the linked prefix by one. */
  lemma SkipKeepsEarlier(start: seq<Transaction>, s: seq<Transaction>, i: nat)
    requires i < |start| == |s| && EarlierTerminalsLinked(start, s, i)
    requires IsTerminalExpense(start[i]) ==> HasLink(s[i])
    requires !(IsTerminalExpense(start[i]) && !HasLink(start[i]))
    ensures EarlierTerminalsLinked(start, s, i + 1)
  {
  }

  /** Starting chain number `chains` at position `i`. */
  lemma VisitChain(start: seq<Transaction>, before: seq<Transaction>, after: seq<Transaction>, i: nat, chains: nat)
    requires Visited(start, before, i, chains) && i < |before|
    requires IsTerminalExpense(before[i]) && !HasLink(before[i])
    requires LinkedWith(before, after, LinkName(chains))
    requires after[i] == WithLink(before[i], LinkName(chains))
    requires forall j :: 0 <= j < |after| && j != i && after[j] != before[j] ==> !IsTerminalExpense(before[j])
    ensures Visited(start, after, i + 1, chains + 1)
    ensures |NewlyLinked(start, after)| == |NewlyLinked(start, before)| + |NewlyLinked(before, after)|
  {
    var name := LinkName(chains);
    LinkedWithLinksOnly(before, after, name);
    NewlyLinkedCompose(start, before, after);
    assert before[i] == start[i];
    ChainKeepsLaterTerminals(start, before, after, i, chains);
    ChainLinksNamed(start, before, after, chains);
  }

  /** A chain started at `i` leaves the terminal expenses after `i` as they were. */
  lemma ChainKeepsLaterTerminals(start: seq<Transaction>, before: seq<Transaction>, after: seq<Transaction>,
                                 i: nat, chains: nat)
    requires Visited(start, before, i, chains) && |after| == |before|
    requires forall j :: 0 <= j < |after| && j != i && after[j] != before[j] ==> !IsTerminalExpense(before[j])
    ensures forall j :: i < j < |after| && IsTerminalExpense(start[j]) ==> after[j] == start[j]
  {
    forall j | i < j < |after| && IsTerminalExpense(start[j])
      ensures after[j] == start[j]
    {
      assert before[j] == start[j];
    }
  }

  /** After chain number `chains`, every changed transaction carries one of the first `chains + 1` names. */
  lemma ChainLinksNamed(start: seq<Transaction>, before: seq<Transaction>, after: seq<Transaction>, chains: nat)
    requires LinksOnly(start, before)
    requires forall j :: 0 <= j < |before| && before[j] != start[j] ==> IsChainLink(before[j].metadata.link.value, chains)
    requires LinkedWith(before, after, LinkName(chains))
    ensures forall j :: 0 <= j < |after| && after[j] != start[j] ==> IsChainLink(after[j].metadata.link.value, chains + 1)
  {
    forall j | 0 <= j < |after| && after[j] != start[j]
      ensures IsChainLink(after[j].metadata.link.value, chains + 1)
    {
      if after[j] == before[j] {
        assert IsChainLink(before[j].metadata.link.value, chains);
      } else {
        assert after[j].metadata.link.value == LinkName(chains);
      }
    }
  }

  /** The positions changed since `start` that now carry the link `l`. */
  ghost function Carrying(start: seq<Transaction>, s: seq<Transaction>, l: string): set<nat>
  {
    set j: nat | j < |s| && j < |start| && s[j] != start[j] && s[j].metadata.link == Some(l)
  }

  /**
   * The chains among the first `chains` whose link reached nothing but the terminal expense
   * that started them: those `_dfs_propagate` found no match for.
   */
  ghost function LoneChains(start: seq<Transaction>, s: seq<Transaction>, chains: nat): set<nat>
  {
    set k: nat | k < chains && |Carrying(start, s, LinkName(k))| == 1
  }

  /**
   * Chain number `c` leaves every earlier chain's transactions as they were, and its own
   * link is carried by exactly the transactions it linked.
   */
  lemma ChainCarries(start: seq<Transaction>, before: seq<Transaction>, after: seq<Transaction>, c: nat)
    requires LinksOnly(start, before) && LinksNamed(start, before, c)
    requires LinkedWith(before, after, LinkName(c))
    ensures forall k :: 0 <= k < c ==> Carrying(start, after, LinkName(k)) == Carrying(start, before, LinkName(k))
    ensures Carrying(start, after, LinkName(c)) == NewlyLinked(before, after)
  {
    forall k | 0 <= k < c
      ensures Carrying(start, after, LinkName(k)) == Carrying(start, before, LinkName(k))
    {
      LinkNamesDistinct(k, c);
    }
  }

  /** Chain number `c` joins the lone chains exactly when it linked one transaction. */
  lemma LoneStep(start: seq<Transaction>, before: seq<Transaction>, after: seq<Transaction>, c: nat)
    requires LinksOnly(start, before) && LinksNamed(start, before, c)
    requires LinkedWith(before, after, LinkName(c))
    ensures |LoneChains(start, after, c + 1)|
      == |LoneChains(start, before, c)| + (if |NewlyLinked(before, after)| == 1 then 1 else 0)
  {
    ChainCarries(start, before, after, c);
    var lone, next := LoneChains(start, before, c), LoneChains(start, after, c + 1);
    forall k | 0 <= k < c
      ensures k in next <==> k in lone
    {
      assert Carrying(start, after, LinkName(k)) == Carrying(start, before, LinkName(k));
    }
    assert c in next <==> |NewlyLinked(before, after)| == 1;
    if |NewlyLinked(before, after)| == 1 {
      assert next == lone + {c};
    } else {
      assert next == lone;
    }
  }

  /**
   * The main loop's state after visiting the first `i` positions: `Visited`, with
   * `total_linked` the number of transactions linked so far and `unmatched_terminal` the
   * number of chains that linked nothing but their terminal expense.
   */
  ghost predicate Tally(start: seq<Transaction>, s: seq<Transaction>, i: nat, chains: nat, linked: nat, unmatched: nat)
  {
    Visited(start, s, i, chains) && linked == |NewlyLinked(start, s)|
    && unmatched <= chains && unmatched == |LoneChains(start, s, chains)|
  }

  /** What the counters of the main loop record after chain number `chains`, started at `i`, linked `hops + 1`. */
  lemma ChainCounted(start: seq<Transaction>, before: seq<Transaction>, after: seq<Transaction>, i: nat, chains: nat,
                     linked: nat, unmatched: nat, hops: nat)
    requires Tally(start, before, i, chains, linked, unmatched) && i < |before|
    requires IsTerminalExpense(before[i]) && !HasLink(before[i])
    requires ChainRan(before, after, i, LinkName(chains), hops)
    ensures Tally(start, after, i + 1, chains + 1, linked + 1 + hops, if hops > 0 then unmatched else unmatched + 1)
  {
    VisitChain(start, before, after, i, chains);
    LoneStep(start, before, after, chains);
  }

  /**
   * Chain number `k` as it stands in `s`: a path of feeders in `start` from the `k`-th
   * unlinked terminal expense, each hop the matcher's pick, and its link carried by exactly
   * the positions on the path.
   */
  ghost predicate ChainOf(index: map<string, seq<nat>>, importers: map<nat, string>, matcher: Matcher,
                          start: seq<Transaction>, s: seq<Transaction>, k: nat, path: seq<nat>, trail: seq<seq<Transaction>>)
  {
    IsChain(start, path) && IsTerminalExpense(start[path[0]]) && !HasLink(start[path[0]])
    && ChainsBefore(start, path[0]) == k
    && Trail(index, importers, matcher, LinkName(k), trail, path)
    && Carrying(start, s, LinkName(k)) == set x | x in path
  }

  /**
   * The first `n` chains, with their paths and the states of their hops: `states[k]` is the
   * list chain `k` started from and `states[k + 1]` the list it left, and each chain was
   * walked from its list as far as the matcher allowed.
   */
  ghost predicate ChainsTaken(index: map<string, seq<nat>>, importers: map<nat, string>, matcher: Matcher,
                              start: seq<Transaction>, s: seq<Transaction>, n: nat, states: seq<seq<Transaction>>,
                              paths: seq<seq<nat>>, trails: seq<seq<seq<Transaction>>>)
  {
    |paths| == n && |trails| == n && |states| == n + 1 && states[0] == start && states[n] == s
    && (forall k :: 0 <= k < n ==> ChainOf(index, importers, matcher, start, s, k, paths[k], trails[k]))
    && forall k :: 0 <= k < n ==>
         |paths[k]| >= 1
         && ChainTaken(index, importers, matcher, states[k], states[k + 1], paths[k][0], LinkName(k), paths[k], trails[k])
  }

  /** Chain number `c`, started at `i`, joins the chains taken so far; the earlier ones keep their transactions. */
  lemma ChainsGrow(index: map<string, seq<nat>>, importers: map<nat, string>, matcher: Matcher,
                   start: seq<Transaction>, before: seq<Transaction>, after: seq<Transaction>, i: nat, c: nat, hops: nat,
                   states: seq<seq<Transaction>>, paths: seq<seq<nat>>, trails: seq<seq<seq<Transaction>>>,
                   path: seq<nat>, trail: seq<seq<Transaction>>)
    requires Visited(start, before, i, c) && i < |before|
    requires ChainsTaken(index, importers, matcher, start, before, c, states, paths, trails)
    requires IsTerminalExpense(before[i]) && !HasLink(before[i])
    requires ChainRan(before, after, i, LinkName(c), hops)
    requires ChainTaken(index, importers, matcher, before, after, i, LinkName(c), path, trail)
    ensures ChainsTaken(index, importers, matcher, start, after, c + 1, states + [after], paths + [path], trails + [trail])
  {
    ChainCarries(start, before, after, c);
    assert before[i] == start[i];
    ChainAcross(start, before, path);
    var ss, ps, ts := states + [after], paths + [path], trails + [trail];
    forall k | 0 <= k < c + 1
      ensures ChainOf(index, importers, matcher, start, after, k, ps[k], ts[k])
    {
      if k < c {
        assert ps[k] == paths[k] && ts[k] == trails[k];
        assert ChainOf(index, importers, matcher, start, before, k, paths[k], trails[k]);
      }
    }
    forall k | 0 <= k < c + 1
      ensures |ps[k]| >= 1
        && ChainTaken(index, importers, matcher, ss[k], ss[k + 1], ps[k][0], LinkName(k), ps[k], ts[k])
    {
      if k < c {
        assert ss[k] == states[k] && ss[k + 1] == states[k + 1] && ps[k] == paths[k] && ts[k] == trails[k];
      } else {
        assert ss[k] == before && ss[k + 1] == after && ps[k] == path && ts[k] == trail;
      }
    }
  }

  /** Passing over a position that does not start a chain leaves the counters as they are. */
  lemma SkipCounted(start: seq<Transaction>, s: seq<Transaction>, i: nat, chains: nat, linked: nat, unmatched: nat)
    requires Tally(start, s, i, chains, linked, unmatched) && i < |s|
    requires !(IsTerminalExpense(s[i]) && !HasLink(s[i]))
    ensures Tally(start, s, i + 1, chains, linked, unmatched)
  {
    VisitSkip(start, s, i, chains);
  }

  /**
   * `assign_clearing_links(transactions, importer_map)`. Each terminal expense without a link,
   * in list order, starts chain number `k` with link `clr-` and `k` in six digits, and the chain
   * is propagated upstream.
   */
  method AssignClearingLinks(a: array<Transaction>, importers: map<nat, string>, matcher: Matcher)
    returns (stats: ClearingStats, ghost index: map<string, seq<nat>>,
             ghost states: seq<seq<Transaction>>, ghost paths: seq<seq<nat>>,
             ghost trails: seq<seq<seq<Transaction>>>)
    requires PicksCandidate(matcher)
    modifies a
    ensures LinksOnly(old(a[..]), a[..])
    ensures stats.totalChains == ChainsBefore(old(a[..]), a.Length)
    ensures stats.totalLinked == |NewlyLinked(old(a[..]), a[..])|
    ensures stats.unmatchedTerminal <= stats.totalChains
    ensures stats.unmatchedTerminal == |LoneChains(old(a[..]), a[..], stats.totalChains)|
    ensures forall i :: 0 <= i < a.Length && IsTerminalExpense(old(a[i])) ==> HasLink(a[i])
    ensures forall i :: 0 <= i < a.Length && IsTerminalExpense(old(a[i])) && !HasLink(old(a[i])) ==>
      a[i].metadata.link == Some(LinkName(ChainsBefore(old(a[..]), i)))
    ensures forall i :: 0 <= i < a.Length && a[i] != old(a[i]) ==> IsChainLink(a[i].metadata.link.value, stats.totalChains)
    // Each chain is a path of feeders from its terminal expense, each hop the matcher's pick
    // over the counter index in the list as the chain found it, walked until it could not go
    // on, and its link is carried by exactly the positions on that path.
    ensures IndexesUpTo(index, old(a[..]), a.Length)
    ensures ChainsTaken(index, importers, matcher, old(a[..]), a[..], stats.totalChains, states, paths, trails)
  {
    ghost var start := a[..];
    var counterIndex := BuildCounterIndex(a[..]);
    CounterIndexSound(counterIndex, a[..]);
    index := counterIndex;
    var linkCounter, totalLinked, unmatched := 0, 0, 0;
    var i := 0;
    states, paths, trails := [start], [], [];
    assert LoneChains(start, a[..], 0) == {};
    while i < a.Length
      invariant 0 <= i <= a.Length && |start| == a.Length
      invariant Tally(start, a[..], i, linkCounter, totalLinked, unmatched)
      invariant ChainsTaken(index, importers, matcher, start, a[..], linkCounter, states, paths, trails)
    {
      linkCounter, totalLinked, unmatched, states, paths, trails :=
        VisitPosition(a, start, i, linkCounter, totalLinked, unmatched, importers, matcher, counterIndex,
                      states, paths, trails);
      i := i + 1;
    }
    stats := ClearingStats(linkCounter, totalLinked, unmatched);
  }

  /**
   * One turn of the main loop at position `i`: an unlinked terminal expense starts chain
   * number `chains` and the counters record it; any other transaction is passed over.
   */
  method VisitPosition(a: array<Transaction>, ghost start: seq<Transaction>, i: nat, chains: nat, linked: nat,
                       unmatched: nat, importers: map<nat, string>, matcher: Matcher, index: map<string, seq<nat>>,
                       ghost states: seq<seq<Transaction>>, ghost paths: seq<seq<nat>>,
                       ghost trails: seq<seq<seq<Transaction>>>)
    returns (chains': nat, linked': nat, unmatched': nat, ghost states': seq<seq<Transaction>>,
             ghost paths': seq<seq<nat>>, ghost trails': seq<seq<seq<Transaction>>>)
    requires i < a.Length && |start| == a.Length
    requires Tally(start, a[..], i, chains, linked, unmatched)
    requires ChainsTaken(index, importers, matcher, start, a[..], chains, states, paths, trails)
    requires IndexSound(index, start) && PicksCandidate(matcher)
    modifies a
    ensures Tally(start, a[..], i + 1, chains', linked', unmatched')
    ensures ChainsTaken(index, importers, matcher, start, a[..], chains', states', paths', trails')
    ensures chains' == chains + 1 || (chains' == chains && unmatched' == unmatched)
    ensures unmatched' == unmatched + (if chains' == chains + 1 && linked' == linked + 1 then 1 else 0)
  {
    ghost var before := a[..];
    if IsTerminalExpense(a[i]) && !HasLink(a[i]) {
      var name := LinkName(chains);
      IndexSoundKept(index, start, before);
      var hops, path, trail := StartChain(a, i, name, importers, matcher, index);
      ChainCounted(start, before, a[..], i, chains, linked, unmatched, hops);
      ChainsGrow(index, importers, matcher, start, before, a[..], i, chains, hops, states, paths, trails, path, trail);
      states', paths', trails' := states + [a[..]], paths + [path], trails + [trail];
      chains' := chains + 1;
      linked' := linked + 1 + hops;
      unmatched' := if hops > 0 then unmatched else unmatched + 1;
    } else {
      SkipCounted(start, before, i, chains, linked, unmatched);
      chains', linked', unmatched' := chains, linked, unmatched;
      states', paths', trails' := states, paths, trails;
    }
  }
}
