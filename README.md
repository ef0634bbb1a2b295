# preciouss in Dafny

preciouss turns personal-finance exports into a double-entry Beancount ledger. It reads
statements and receipts from WeChat Pay, WeChat Pay HK, Alipay, JD (the CSV statement and
the orders JSON), the CMB credit and debit cards, CITIC credit-card PDF statements, ALDI
and Costco. Each importer turns rows into one shared `Transaction` record. The pipeline then:

- resolves raw payment-method strings to accounts, and routes platform payments through
  `Assets:Clearing:` bridge accounts;
- detects big-merchant clearing accounts;
- de-duplicates by reference id and filters by year;
- links clearing chains with shared `clr-NNNNNN` tags;
- pairs transactions across sources with a three-phase matching engine;
- categorizes by keyword and regex rules;
- allocates itemised receipts over categories so that the postings balance exactly;
- writes entries sorted by day.

The model keeps each source file's form:

- The resolvers, categorizers, row parsers and posting builders are functions on
  datatypes.
- The clearing-chain propagator (`ClearingLinks`) is a method over an
  `array<Transaction>` that stamps links in place.
- The matching engine is a class (`Matching.MatchingEngine`) whose phases fill a matched
  set and a match list.
- The loops of the allocator, the de-duplicator, the output-name builder, the
  generated-account table, the CITIC page walk and the order, header and line loops of
  the importers are methods with loop invariants. Each is proved against a function of
  its inputs.

Amounts are exact `real` numbers and dates are `int`s. Decimal literals are
`Numbers.Dec` values (a coefficient and a number of places) with their exact value.

Modules:

| module | file | models |
|---|---|---|
| `Model` | transaction.dfy | `Transaction`, its metadata and items (src/preciouss/importers/base.py) |
| `Text`, `Numbers`, `Json`, `Tables`, `Rows`, `Wrappers` | text.dfy, numbers.dfy, json.dfy, tables.dfy, rows.dfy, wrappers.dfy | Python string operations, `Decimal`/`int` parsing, decoded JSON, first-match keyword tables, CSV rows |
| `Resolve` | resolve.dfy | src/preciouss/importers/resolve.py |
| `ClearingRoutes` | clearing_routes.dfy | src/preciouss/importers/clearing.py |
| `Accounts` | accounts.dfy | src/preciouss/ledger/accounts.py |
| `ClearingLinks` | clearing_links.dfy | src/preciouss/matching/clearing.py |
| `Matching` | engine.dfy | src/preciouss/matching/engine.py |
| `Allocate`, `Writer` | allocate.dfy, writer.dfy | src/preciouss/ledger/writer.py |
| `Cli` | cli.dfy | the helpers of src/preciouss/cli.py |
| `Rules` | rules.dfy | src/preciouss/categorize/rules.py |
| `Jd`, `JdOrders` | jd.dfy, jd_orders.dfy | src/preciouss/importers/jd.py |
| `Citic`, `WechatHK`, `Wechat`, `Alipay`, `Cmb`, `Aldi`, `Costco` | citic.dfy, wechathk.dfy, wechat.dfy, alipay.dfy, cmb.dfy, aldi.dfy, costco.dfy | the importers of the same names |

Where the code and its own documentation or design notes differ, the model follows the
code:

- `_importer_output_name` (src/preciouss/cli.py:172-194) documents `WechatHK → wechathk`.
  The code inserts an underscore before the `H`, so the file is `wechat_hk`
  (`Cli.WechatHKName`).
- Phase 1 of the matching engine does not pair the first two unconsumed indices of a
  reference group. It pairs the group's first index with the first later unconsumed index
  from another source, and only if that first index is itself unconsumed. Once the first
  index is paired, every later member is skipped, so a group yields at most one pair. A
  group whose first index was consumed under another key yields none.
  Reference ids and counterpart refs share one index, so a transaction whose two ids are
  equal appears twice in its group and is never paired with itself.
- The payment-account resolver (resolve.py) recurses on the text after the first `-`
  whatever the left part is. Only the clearing router (clearing.py) looks for a channel
  keyword in the left part.
- The clearing-chain walk stops quietly when no untagged candidate is left. It issues
  no warning and rewrites no account to an `:Unknown` variant.
- The CMB identify predicates overlap. `交易日期` contains `交易日`, so a debit export
  that names the bank is also claimed by the credit importer
  (`Cmb.DebitWithBankNameIsCredit`).
- The routing of WX and Alipay payments through another channel gives accounts such as
  `Assets:Clearing:WX:Alipay`. Those are not among the declared accounts; only JD's
  channel accounts are (`Accounts.ChannelRouted`).

## Model

| member | source | states |
|---|---|---|
| Resolve.WalletKeysDistinct | src/preciouss/importers/resolve.py:25-38 | the wallet keywords are pairwise distinct, as the keys of a dictionary are |
| Resolve.WalletsSorted | src/preciouss/importers/resolve.py:79-80 | the table searched is the wallet dictionary's entries, every one kept, ordered longest keyword first; an explicit map from searched rows to dictionary rows is one-to-one and keeps dictionary order among keywords of equal length (a stable sort) |
| Resolve.IsPlatformAccount | src/preciouss/importers/resolve.py:41-57 | true exactly for Assets:WeChat, Assets:Alipay and Assets:JD, so sub-accounts such as Assets:WeChat:Unknown are excluded |
| Resolve.CardPrefix | src/preciouss/importers/resolve.py:89-95 | "储蓄卡" gives Assets:Bank even when "信用卡" also occurs; "信用卡" alone gives Liabilities:CreditCard; neither gives the default card type |
| Resolve.ResolvePaymentAccount | src/preciouss/importers/resolve.py:60-102 | a method that strips to nothing gives the fallback |
| Resolve.ResolveBlank | src/preciouss/importers/resolve.py:75-77 | an empty or all-whitespace method returns the fallback account unchanged |
| Resolve.WalletSearchFindsLongest | src/preciouss/importers/resolve.py:79-82 | the longest-first search stops at the row of the longest wallet keyword that starts the method |
| Resolve.ResolveLongestWallet | src/preciouss/importers/resolve.py:79-82 | the account of the longest wallet keyword starting the method is the result, before composite, card or bank detection |
| Resolve.ResolveWalletHit | src/preciouss/importers/resolve.py:80-82 | a wallet row found by the search decides the account |
| Resolve.ResolveComposite | src/preciouss/importers/resolve.py:84-87 | a non-wallet method containing "-" resolves exactly as its text after the first "-" (a strictly shorter string, so the recursion ends) |
| Resolve.ResolveBank | src/preciouss/importers/resolve.py:89-100 | a plain method naming a bank resolves to `<card prefix>:<code>` of the first bank in table order whose name occurs |
| Resolve.ResolveNoBank | src/preciouss/importers/resolve.py:97-102 | a plain method naming no bank of the table resolves to the fallback |
| Resolve.ResolveShape | src/preciouss/importers/resolve.py:60-102 | every result is the fallback, a wallet account, or a card prefix followed by the code of a bank in the table |
| Resolve.WalletShape | src/preciouss/importers/resolve.py:79-82 | the account of any wallet keyword, searched longest first, is a wallet account of the table and so an admissible result |
| ClearingRoutes.InternalSorted | src/preciouss/importers/clearing.py:38-84 | for each platform the searched internal table is its dictionary sorted longest keyword first, every entry kept, and an explicit one-to-one map from searched rows to dictionary rows keeps dictionary order among equal lengths (a stable sort); its keywords are distinct |
| ClearingRoutes.HasSubClearing | src/preciouss/importers/clearing.py:15-60 | only JD is subdivided by payment platform; an unknown merchant is not |
| ClearingRoutes.DetectMerchantClearing | src/preciouss/importers/clearing.py:50-64 | the result is None exactly when no merchant keyword, lowercased, occurs in the lowercased "payee narration" |
| ClearingRoutes.DetectFirstMerchant | src/preciouss/importers/clearing.py:57-63 | the first merchant in table order with a keyword occurring decides: `Assets:Clearing:JD:<platform>` for JD, `Assets:Clearing:<merchant>` for the others |
| ClearingRoutes.DetectIgnoresCase | src/preciouss/importers/clearing.py:57-59 | payees and narrations equal up to letter case detect the same merchant account |
| ClearingRoutes.CardKind | src/preciouss/importers/clearing.py:105-110 | "Bank" exactly when "储蓄卡" occurs; "CC" otherwise, whether or not "信用卡" occurs |
| ClearingRoutes.ResolvePaymentToClearing | src/preciouss/importers/clearing.py:67-117 | an empty, all-whitespace or "/" method gives `Assets:Clearing:<platform>:Unknown` |
| ClearingRoutes.NoInternalFound | src/preciouss/importers/clearing.py:84-86 | a method starting with no internal keyword of the platform finds no internal row |
| ClearingRoutes.ClearingLongestInternal | src/preciouss/importers/clearing.py:82-86 | only the caller's platform's internal keywords apply, by prefix, and the longest one starting the method gives its account |
| ClearingRoutes.ClearingComposite | src/preciouss/importers/clearing.py:88-97 | for "X-Y", a channel keyword in the stripped X gives `Assets:Clearing:<platform>:<channel>` (first channel in order WX, Alipay, ApplePay); otherwise the result is that of Y |
| ClearingRoutes.ClearingChannel | src/preciouss/importers/clearing.py:99-102 | a channel keyword anywhere in a plain method wins over card and bank detection, channels tried in the order WX, Alipay, ApplePay |
| ClearingRoutes.ClearingBank | src/preciouss/importers/clearing.py:104-114 | a plain card method goes to `Assets:Clearing:<platform>:<Bank or CC>:<code>` of the first bank whose name occurs |
| ClearingRoutes.ClearingNoBank | src/preciouss/importers/clearing.py:116-117 | a plain method with no channel and no known bank goes to `Assets:Clearing:<platform>:Unknown` |
| ClearingRoutes.IsClearingAccount | src/preciouss/importers/clearing.py:120-122 | true exactly when the account starts with "Assets:Clearing:" |
| ClearingRoutes.ClearingShape | src/preciouss/importers/clearing.py:67-117 | every result is one of the platform's internal accounts or lies under `Assets:Clearing:<platform>:` |
| ClearingRoutes.InternalNotClearing | src/preciouss/importers/clearing.py:38-122 | no platform-internal account is a clearing account |
| ClearingRoutes.ClearingIffNotInternal | src/preciouss/importers/clearing.py:67-122 | a routed method gives a clearing account exactly when it does not give a platform-internal one |
| ClearingRoutes.SortedWX | src/preciouss/importers/clearing.py:38-84 | WeChat's internal keywords, searched longest first, are its dictionary's entries ordered by non-increasing keyword length, with no keyword repeated |
| ClearingRoutes.SortedAlipay | src/preciouss/importers/clearing.py:39-84 | Alipay's internal keywords, searched longest first, are its dictionary's entries ordered by non-increasing keyword length, with no keyword repeated |
| ClearingRoutes.SortedJD | src/preciouss/importers/clearing.py:40-84 | JD's internal keywords, searched longest first, are its dictionary's entries ordered by non-increasing keyword length, with no keyword repeated |
| ClearingRoutes.InternalHit | src/preciouss/importers/clearing.py:83-86 | every account the longest-first internal search can return is one of the platform's internal accounts |
| Accounts.GeneratedAccounts | src/preciouss/ledger/accounts.py:113-124 | there is one generated row per platform, card type and bank: 3 × 2 × 15 rows |
| Accounts.GeneratedAt | src/preciouss/ledger/accounts.py:120-124 | the row of platform p, card type c and bank b sits where the three nested loops put it and reads `Assets:Clearing:<p>:<c>:<b>` |
| Accounts.AppendGeneratedAccounts | src/preciouss/ledger/accounts.py:120-124 | the three nested loops append, after the literal table, exactly the generated rows in loop order |
| Accounts.KeyListedAt | src/preciouss/ledger/accounts.py:6-124 | the key of every row of a table is a key of that table |
| Accounts.KeyListedIndex | src/preciouss/ledger/accounts.py:6-124 | every key of a table is the key of one of its rows |
| Accounts.FixedDeclared | src/preciouss/ledger/accounts.py:6-109 | every row of the literal dictionary is declared |
| Accounts.AssetDeclared | src/preciouss/ledger/accounts.py:7-38 | every asset row is declared |
| Accounts.ClearingBlockDeclared | src/preciouss/ledger/accounts.py:39-48 | every literal clearing row is declared |
| Accounts.LiabilityDeclared | src/preciouss/ledger/accounts.py:49-67 | every liability row is declared |
| Accounts.ExpenseDeclared | src/preciouss/ledger/accounts.py:68-98 | every expense row is declared |
| Accounts.IncomeDeclared | src/preciouss/ledger/accounts.py:99-106 | every income row is declared |
| Accounts.GeneratedDeclared | src/preciouss/ledger/accounts.py:120-124 | every generated clearing account is declared |
| Accounts.ClearingBanksAreResolverCodes | src/preciouss/ledger/accounts.py:115-118 | the generated bank list is exactly the codes of the resolver's bank table, in the same order |
| Accounts.BankClearingDeclared | src/preciouss/ledger/accounts.py:113-124 | `Assets:Clearing:<platform>:<CC or Bank>:<code>` is declared for WX, Alipay and JD and every bank code of the resolver |
| Accounts.UnknownClearingDeclared | src/preciouss/ledger/accounts.py:46-48 | the Unknown clearing accounts of WX, Alipay and JD are declared |
| Accounts.JDChannelsDeclared | src/preciouss/ledger/accounts.py:43-45 | the JD clearing accounts of the channels WX, Alipay and ApplePay are declared |
| Accounts.GetExpenseAccountForType | src/preciouss/ledger/accounts.py:130-134 | Income:Uncategorized for the income type, Expenses:Uncategorized for every other type and for none |
| Accounts.ExpenseAccountDeclared | src/preciouss/ledger/accounts.py:97-134 | the default account of every type is declared |
| Accounts.InternalDeclared | src/preciouss/ledger/accounts.py:6-67 | every platform-internal account of WX, Alipay and JD is declared |
| Accounts.RoutedDeclared | src/preciouss/ledger/accounts.py:6-124 | routing any payment method for WX, Alipay or JD gives a declared account, except a WX or Alipay channel account such as `Assets:Clearing:WX:Alipay`, which the table does not list |
| Accounts.ChannelRouted | src/preciouss/ledger/accounts.py:43-45 | a channel account is declared for JD, and is a channel account of the platform otherwise |
| Accounts.AssetsRooted | src/preciouss/ledger/accounts.py:7-38 | every asset row starts with "Assets:" |
| Accounts.ClearingRooted | src/preciouss/ledger/accounts.py:39-48 | every literal clearing row starts with "Assets:" |
| Accounts.LiabilitiesRooted | src/preciouss/ledger/accounts.py:49-67 | every liability row starts with "Liabilities:" |
| Accounts.ExpensesRooted | src/preciouss/ledger/accounts.py:68-98 | every expense row starts with "Expenses:" |
| Accounts.IncomeRooted | src/preciouss/ledger/accounts.py:99-106 | every income row starts with "Income:" |
| Accounts.EquityRooted | src/preciouss/ledger/accounts.py:107-108 | the equity row starts with "Equity:" |
| Accounts.FixedRooted | src/preciouss/ledger/accounts.py:6-109 | every literal row has one of the five roots |
| Accounts.GeneratedRooted | src/preciouss/ledger/accounts.py:123 | every generated account lies under Assets: |
| Accounts.DeclaredRooted | src/preciouss/ledger/accounts.py:6-124 | every declared account begins with Assets:, Liabilities:, Expenses:, Income: or Equity: |
| Accounts.DefaultRooted | src/preciouss/ledger/accounts.py:6-124 | every row of the full table has one of the five roots |
| ClearingLinks.FeederNotTerminal | src/preciouss/matching/clearing.py:23-31 | a transaction whose counter is a clearing account is never a terminal expense |
| ClearingLinks.Feeders | src/preciouss/matching/clearing.py:48-51 | the positions feeding a clearing account: all of them, each feeding it, in ascending order |
| ClearingLinks.BuildCounterIndex | src/preciouss/matching/clearing.py:47-51 | the counter index lists, for each clearing counter account, exactly the positions whose counter is that account, ascending; no other account has an entry |
| ClearingLinks.IndexStep | src/preciouss/matching/clearing.py:49-51 | recording one more transaction under its clearing counter account keeps the index exact for the longer prefix |
| ClearingLinks.CounterIndexSound | src/preciouss/matching/clearing.py:48-51 | every position the index lists is in range and feeds the account it is listed under |
| ClearingLinks.Pending | src/preciouss/matching/clearing.py:99-103 | the candidates are exactly the listed positions with no link yet, in listed order |
| ClearingLinks.Candidates | src/preciouss/matching/clearing.py:107 | the candidate list holds the transaction at each candidate position, in order |
| ClearingLinks.LinkedWithLinksOnly | src/preciouss/matching/clearing.py:66-128 | giving some unlinked transactions one non-empty link changes nothing but those links |
| ClearingLinks.WithLinkKeeps | src/preciouss/matching/clearing.py:128 | giving a link keeps the source and counter accounts |
| ClearingLinks.TagOne | src/preciouss/matching/clearing.py:128 | linking one more unlinked transaction removes exactly it from the unlinked set and adds exactly it to the newly linked set |
| ClearingLinks.LinkedWithKeeps | src/preciouss/matching/clearing.py:128 | after linking, source and counter accounts are those of the original |
| ClearingLinks.ExtendChain | src/preciouss/matching/clearing.py:124-130 | appending a transaction feeding the current source extends the path |
| ClearingLinks.ChainFeeds | src/preciouss/matching/clearing.py:98-103 | every transaction reached after the seed feeds some clearing account |
| ClearingLinks.ChainAcross | src/preciouss/matching/clearing.py:124-130 | a path of feeders stays one when only links change, since links never change accounts |
| ClearingLinks.WalkStarts | src/preciouss/matching/clearing.py:89-91 | propagation starts at the linked seed with nothing newly linked |
| ClearingLinks.PickFeeds | src/preciouss/matching/clearing.py:99-124 | the matcher's pick is an unlinked transaction whose counter is the current source account |
| ClearingLinks.WalkStep | src/preciouss/matching/clearing.py:128-130 | each hop links one previously unlinked transaction, so the unlinked set strictly shrinks (the loop terminates) |
| ClearingLinks.WalkLinks | src/preciouss/matching/clearing.py:128-129 | linking an unlinked transaction adds one to the count of newly linked ones |
| ClearingLinks.Propagate | src/preciouss/matching/clearing.py:82-132 | only unlinked transactions receive the seed's link, along a path of feeders; each hop goes to the candidate that the current transaction's importer's matcher picked from the unlinked feeders of its clearing account; the result counts them; it stops only when the source is not clearing, no candidate is left, no importer is mapped or the matcher declines |
| ClearingLinks.TrailStep | src/preciouss/matching/clearing.py:98-130 | extending a path of matcher picks by one more pick keeps it such a path |
| ClearingLinks.IndexSoundLinked | src/preciouss/matching/clearing.py:128 | giving a link keeps the counter index sound |
| ClearingLinks.LinkName | src/preciouss/matching/clearing.py:64 | each link name starts with "clr-" and has at least six digits after it |
| ClearingLinks.LinkNamesDistinct | src/preciouss/matching/clearing.py:64-65 | different chain numbers give different link names |
| ClearingLinks.ChainsBefore | src/preciouss/matching/clearing.py:58-65 | no more chains start than transactions were visited |
| ClearingLinks.NewlyLinkedCompose | src/preciouss/matching/clearing.py:58-73 | linking in two rounds links the disjoint union of the two rounds' transactions |
| ClearingLinks.IndexSoundKept | src/preciouss/matching/clearing.py:48-128 | the counter index stays sound while only links change |
| ClearingLinks.StartChain | src/preciouss/matching/clearing.py:64-69 | the terminal expense gets the fresh link; the positions newly linked are exactly those of a path of feeders starting at the terminal, each hop the pick of the current transaction's importer's matcher among the unlinked feeders in the state after the previous hop, starting from the list with the terminal tagged; the walk stopped at the end of the path only because it could not go on (source not clearing, no unlinked feeder, no importer, or the matcher declined); the path has one plus hops positions; nothing else changes and no other terminal expense is touched |
| ClearingLinks.TaggedPath | src/preciouss/matching/clearing.py:66-69 | tagging the terminal and propagating newly link exactly the positions of the path, terminal included |
| ClearingLinks.ChainAfterSeed | src/preciouss/matching/clearing.py:66-69 | tagging the seed and propagating together link exactly the seed and the hops |
| ClearingLinks.TagFirst | src/preciouss/matching/clearing.py:66-67 | tagging the seed newly links exactly the seed |
| ClearingLinks.ChainSkipsTerminals | src/preciouss/matching/clearing.py:98-103 | propagation never links a terminal expense: everything it links feeds a clearing account |
| ClearingLinks.TerminalIgnoresLink | src/preciouss/matching/clearing.py:23-31 | giving a link does not change whether a transaction is a terminal expense |
| ClearingLinks.VisitSkip | src/preciouss/matching/clearing.py:59-62 | passing over a position that does not start a chain keeps the main loop's state |
| ClearingLinks.SkipNotChain | src/preciouss/matching/clearing.py:59-62 | a position passed over was no unlinked terminal expense, so the chain count is unchanged |
| ClearingLinks.VisitChain | src/preciouss/matching/clearing.py:64-73 | starting chain number k at a position keeps the main loop's state with k + 1 chains |
| ClearingLinks.ChainKeepsLaterTerminals | src/preciouss/matching/clearing.py:58-69 | a chain leaves the terminal expenses after its seed as they were |
| ClearingLinks.ChainLinksNamed | src/preciouss/matching/clearing.py:64-128 | every transaction changed so far carries one of the chain names issued so far |
| ClearingLinks.AssignClearingLinks | src/preciouss/matching/clearing.py:34-79 | only links change, and existing links are kept; every terminal expense ends linked, the k-th unlinked one in list order with `clr-` and k in six digits; chain k runs on the list as chain k-1 left it (the ghost states, from the input to the output), is a path of feeders from its terminal expense, each hop the importer's matcher's pick over the counter index in that list, walked until it could not go on, and the link `clr-` k is carried by exactly the positions on that path; total_chains counts the chains, total_linked counts the newly linked transactions, unmatched_terminal is exactly the number of chains whose link reached only their terminal expense |
| ClearingLinks.ChainsGrow | src/preciouss/matching/clearing.py:58-73 | a new chain, run on the list the earlier chains left, adds its path and the list it leaves to the chains taken so far, and leaves every earlier chain's transactions, path and lists as they were |
| ClearingLinks.VisitPosition | src/preciouss/matching/clearing.py:58-73 | one turn of the main loop keeps its state and counters; unmatched_terminal grows by one exactly when a chain starts and links nothing beyond its terminal |
| ClearingLinks.ChainCarries | src/preciouss/matching/clearing.py:64-73 | a new chain leaves the transactions of every earlier chain as they were, and its own link is carried by exactly the transactions it linked |
| ClearingLinks.LoneStep | src/preciouss/matching/clearing.py:70-73 | the count of chains that linked only their terminal grows by one exactly when the new chain linked one transaction |
| ClearingLinks.ChainCounted | src/preciouss/matching/clearing.py:64-73 | after a chain, total_linked has grown by the chain's length and unmatched_terminal by one exactly when the walk made no hop |
| ClearingLinks.IsTerminalExpense | src/preciouss/matching/clearing.py:23-31 | a terminal expense feeds no clearing account |
| Matching.Used | src/preciouss/matching/engine.py:106-207 | both positions of every recorded pair are in the matched set |
| Matching.UsedAppend | src/preciouss/matching/engine.py:106-107 | recording a pair adds exactly its two positions to the matched set |
| Matching.DisjointAppend | src/preciouss/matching/engine.py:94-107 | a pair of two fresh, distinct positions keeps every position in at most one pair |
| Matching.Kept | src/preciouss/matching/engine.py:109 | the positions left over are below the length, outside the matched set and ascending |
| Matching.KeptSame | src/preciouss/matching/engine.py:109 | the leftover positions depend only on which positions are matched |
| Matching.KeptCount | src/preciouss/matching/engine.py:109 | every position is either matched or left over, never both |
| Matching.Remaining | src/preciouss/matching/engine.py:109-210 | what a phase hands on is the subsequence of its input at the unmatched positions, in order |
| Matching.Compose | src/preciouss/matching/engine.py:56-69 | positions of a subsequence of a subsequence, as positions of the whole: one per element |
| Matching.EmbedsCompose | src/preciouss/matching/engine.py:56-69 | a subsequence of a subsequence is a subsequence, so the final unmatched list keeps input order |
| Matching.EmbedsWithin | src/preciouss/matching/engine.py:109-210 | every transaction handed on is one of the phase's inputs |
| Matching.PhaseCount | src/preciouss/matching/engine.py:109-210 | a phase's pairs and its leftover account for every input once: 2·pairs + leftover = inputs |
| Matching.SharedKey | src/preciouss/matching/engine.py:82-93 | two transactions carrying the same key as reference or counterpart share a reference |
| Matching.KeyPos | src/preciouss/matching/engine.py:84-86 | finds the group of a key when there is one, and none exists otherwise |
| Matching.AppendToSound | src/preciouss/matching/engine.py:82-86 | `setdefault(key, []).append(i)` keeps the index sound: distinct keys, non-empty ascending groups, each listing only carriers of its key |
| Matching.SoundWiden | src/preciouss/matching/engine.py:82-86 | a transaction that carries no reference leaves the index sound |
| Matching.MatchingEngine.BuildRefIndex | src/preciouss/matching/engine.py:80-86 | the index is built transaction by transaction in list order; it is sound (distinct keys, non-empty ascending groups of carriers of the key) and complete: every position lies in the group of each reference and counterpart ref it carries |
| Matching.RefIndexComplete | src/preciouss/matching/engine.py:82-86 | a position carrying a key as reference or counterpart ref is listed in that key's group of the index built from any longer prefix |
| Matching.MatchingEngine.PairGroup | src/preciouss/matching/engine.py:91-107 | the inner loop over one group adds at most one pair, from that group, to phase 1's justified state, and afterwards no member of the group from another source is free beside a free first member |
| Matching.GroupMaximal | src/preciouss/matching/engine.py:89-107 | a group whose members were all passed over extends to it the property that no free first member has a free groupmate from another source |
| Matching.UsedInRange | src/preciouss/matching/engine.py:106-107 | the recorded positions all lie in the phase's input |
| Matching.PayeeText | src/preciouss/matching/engine.py:143-194 | the compared text is payee, one space, narration |
| Matching.Where | src/preciouss/matching/engine.py:120-126 | the platform list (payment method set) and the bank list (not set): every position listed is of its kind, ascending |
| Matching.WhereComplete | src/preciouss/matching/engine.py:122-126 | every position of a kind is in that kind's list |
| Matching.MatchingEngine.SplitByPaymentMethod | src/preciouss/matching/engine.py:120-126 | the positions with a payment method, ascending, and those without one, ascending |
| Matching.AscendingAppend | src/preciouss/matching/engine.py:128-169 | pairs recorded by an outer loop in input order come in ascending order of their first position |
| Matching.AscendingBelow | src/preciouss/matching/engine.py:131 | in the ascending bank list a smaller position is visited earlier |
| Matching.Rank | src/preciouss/matching/engine.py:59-69 | the three kinds are ranked reference, intermediary, fuzzy |
| Matching.MatchingEngine.constructor | src/preciouss/matching/engine.py:39-45 | the tolerance is the given number of days, in seconds, and the threshold is as given |
| Matching.MatchingEngine.PhaseReference | src/preciouss/matching/engine.py:73-110 | each match pairs the first position of a reference group with a later one from another source, both unmatched before, confidence 1.0; the pairs come from distinct groups in index order, so a group yields at most one pair; afterwards no group has its first member and another member from a different source both unmatched; a transaction whose own reference equals its counterpart ref never pairs with itself; the rest is handed on in order; 2·matches + rest = inputs |
| Matching.MatchingEngine.FirstBanksAppend | src/preciouss/matching/engine.py:131-156 | recording a pair whose bank line was the first eligible keeps every pair's first-eligible property |
| Matching.MatchingEngine.IntermediaryAppend | src/preciouss/matching/engine.py:146-155 | recording a justified intermediary pair keeps phase 2's state |
| Matching.MatchingEngine.FirstFreeBank | src/preciouss/matching/engine.py:131-156 | the inner loop stops at the first bank line that is free, close and mentions a platform, and no earlier one qualifies |
| Matching.MatchingEngine.FirstFreeIsFirst | src/preciouss/matching/engine.py:131-156 | the line found is the first eligible bank line not already taken |
| Matching.MatchingEngine.PlatformDone | src/preciouss/matching/engine.py:128-156 | after the inner loop for one platform line, that line is matched or no free bank line bridges it, and this holds on for every earlier platform line |
| Matching.MatchingEngine.PhaseIntermediary | src/preciouss/matching/engine.py:112-159 | each match pairs a transaction with a payment method and the first free line without one of equal absolute amount, same currency, dates within tolerance (inclusive), whose lowercased text names a platform; confidence 0.9; afterwards no free line with a payment method and free line without one satisfy those conditions; rest handed on in order; 2·matches + rest = inputs |
| Matching.MatchingEngine.FuzzyAppend | src/preciouss/matching/engine.py:197-207 | recording a justified fuzzy pair keeps phase 3's state |
| Matching.MatchingEngine.FirstFreePartner | src/preciouss/matching/engine.py:172-208 | the inner loop stops at the first later free eligible transaction, and none before it qualifies |
| Matching.MatchingEngine.PhaseFuzzy | src/preciouss/matching/engine.py:161-211 | each match pairs i with the first later free j from another source of equal absolute amount, same currency, within tolerance, with similarity ≥ threshold; confidence is that similarity; afterwards no two free transactions satisfy those conditions; rest handed on in order; 2·matches + rest = inputs |
| Matching.MatchingEngine.ReferenceJustified | src/preciouss/matching/engine.py:98-105 | every phase 1 match is a justified reference match |
| Matching.MatchingEngine.IntermediaryJustified | src/preciouss/matching/engine.py:146-153 | every phase 2 match is a justified intermediary match |
| Matching.MatchingEngine.FuzzyJustified | src/preciouss/matching/engine.py:198-205 | every phase 3 match is a justified fuzzy match |
| Matching.MatchingEngine.JustifiedWithin | src/preciouss/matching/engine.py:56-69 | matches between transactions of a later phase's input are matches between the original inputs |
| Matching.MatchingEngine.JustifiedConcat | src/preciouss/matching/engine.py:61-69 | joining justified match lists keeps them justified |
| Matching.MatchingEngine.LiftReference | src/preciouss/matching/engine.py:56-69 | a reference group left with no free cross-source pair after phase 1 still has none among what is unmatched at the end |
| Matching.MatchingEngine.LiftIntermediary | src/preciouss/matching/engine.py:56-69 | no two transactions left unmatched at the end bridge, since phase 2 left no bridging pair in its input |
| Matching.MatchingEngine.LiftFuzzy | src/preciouss/matching/engine.py:56-69 | no two transactions left unmatched at the end are fuzzy-matchable, since phase 3 left no such pair in its input |
| Matching.MatchingEngine.PhaseOrder | src/preciouss/matching/engine.py:59-69 | reference matches come first, then intermediary, then fuzzy |
| Matching.MatchingEngine.Match | src/preciouss/matching/engine.py:47-71 | the matched list and the unmatched list partition the input: the ghost slots are disjoint pairs of input positions, match k pairs exactly the two inputs at slot k, and the slots hold exactly the positions missing from the unmatched list (2·matched + unmatched = inputs); the unmatched keep input order; each match carries its phase's guarantees; phases appear in order; no two unmatched transactions could still be paired by any phase's rule |
| Matching.UsedMember | src/preciouss/matching/engine.py:106-107 | a position is in the matched set exactly when some recorded pair holds it |
| Matching.UsedConcat | src/preciouss/matching/engine.py:56-69 | the positions matched by two phases' pairs together are those matched by either |
| Matching.KeptMember | src/preciouss/matching/engine.py:109 | every unmatched position below the length is handed on |
| Matching.MapPairs | src/preciouss/matching/engine.py:56-69 | a phase's pairs, one for one, as positions of the original input |
| Matching.MapPlaced | src/preciouss/matching/engine.py:56-69 | a match that pairs two inputs of a phase pairs the same two transactions of the original input, at the carried positions |
| Matching.MapConsumed | src/preciouss/matching/engine.py:56-69 | the positions a later phase matches are, in the original input, exactly those it received and did not hand on; what earlier phases consumed stays consumed |
| Matching.MappedLeft | src/preciouss/matching/engine.py:56-69 | a position a carried pair holds was received by the phase and is not handed on |
| Matching.AscendingInjective | src/preciouss/matching/engine.py:109 | distinct positions of an in-order leftover hold distinct input positions |
| Matching.ComposeHas | src/preciouss/matching/engine.py:56-69 | a handed-on position of a subsequence stays in the composed positions |
| Matching.LeftMapped | src/preciouss/matching/engine.py:56-69 | a position a phase received and did not hand on is held by one of its carried pairs |
| Matching.ConsumedKept | src/preciouss/matching/engine.py:106-109 | the positions missing from a phase's leftover are exactly those it matched |
| Matching.PlacedConcat | src/preciouss/matching/engine.py:56-69 | joining the phases' match lists joins their placements |
| Matching.PhaseSlots | src/preciouss/matching/engine.py:56-69 | a phase run on a leftover contributes slots that place its matches and hold exactly the positions it removed |
| Matching.SlotsDisjoint | src/preciouss/matching/engine.py:47-71 | slots holding exactly the consumed positions, two per match, never share a position |
| Matching.ConsumedCount | src/preciouss/matching/engine.py:109 | the positions outside an in-order leftover number the input length minus the leftover's length |
| Matching.Partition | src/preciouss/matching/engine.py:47-71 | the three phases' pairs, carried to positions of the input, are disjoint, place every match, and hold exactly the positions absent from the final unmatched list |
| Allocate.StrLessTotal | src/preciouss/ledger/writer.py:115 | two different account names are ordered one way or the other, so the sort is total on distinct keys |
| Allocate.StrLessIrreflexive | src/preciouss/ledger/writer.py:115 | no account name sorts before itself |
| Allocate.ListedIsProduct | src/preciouss/ledger/writer.py:100-108 | an item's listed amount is its price times its quantity |
| Allocate.ItemsOf | src/preciouss/ledger/writer.py:110-113 | a category's items all have that category, and are drawn from the item list |
| Allocate.RoundedSumAppend | src/preciouss/ledger/writer.py:112-113 | adding an item adds its rounded, scaled amount to its category's running sum |
| Allocate.FindAccount | src/preciouss/ledger/writer.py:110 | finds the dictionary entry of an account when there is one, and none exists otherwise |
| Allocate.AccumulateDistinct | src/preciouss/ledger/writer.py:105-113 | the dictionary never holds an account twice |
| Allocate.ItemsOfAbsent | src/preciouss/ledger/writer.py:106-113 | a category no item has has no items |
| Allocate.ItemsOfAppend | src/preciouss/ledger/writer.py:113 | a new item joins its own category's list at the end and no other list |
| Allocate.AccumulateGrouped | src/preciouss/ledger/writer.py:105-113 | the loop builds one entry per category that occurs, holding exactly that category's items in input order and the sum of their rounded amounts |
| Allocate.GroupOfOther | src/preciouss/ledger/writer.py:110-113 | an entry of another category is unaffected by a new item |
| Allocate.GroupOfSame | src/preciouss/ledger/writer.py:112-113 | the entry of the item's category takes the item and its rounded amount |
| Allocate.GroupOfNew | src/preciouss/ledger/writer.py:110-111 | the first item of a category opens its entry at zero |
| Allocate.AddItemGrouped | src/preciouss/ledger/writer.py:106-113 | one turn of the loop keeps the dictionary a grouping of the items seen so far |
| Allocate.AddExistingGrouped | src/preciouss/ledger/writer.py:112-113 | an item of a category already present extends that entry in place |
| Allocate.AddNewGrouped | src/preciouss/ledger/writer.py:110-113 | the first item of a category appends an entry for it |
| Allocate.InsertCategory | src/preciouss/ledger/writer.py:115 | inserting adds exactly one entry |
| Allocate.InsertCategoryPermutes | src/preciouss/ledger/writer.py:115 | inserting keeps every entry and adds the new one |
| Allocate.InsertCategoryAscending | src/preciouss/ledger/writer.py:115 | inserting an account not yet present keeps the list ascending |
| Allocate.SortCategories | src/preciouss/ledger/writer.py:115 | the sort keeps the number of entries |
| Allocate.SortCategoriesPermutes | src/preciouss/ledger/writer.py:115 | the sort is a permutation of the dictionary's entries |
| Allocate.SortCategoriesAscending | src/preciouss/ledger/writer.py:115 | with distinct accounts the sorted entries are strictly ascending by account name |
| Allocate.SumTotalsUpdate | src/preciouss/ledger/writer.py:118-122 | raising one entry's total raises the sum of totals by as much |
| Allocate.FirstMax | src/preciouss/ledger/writer.py:120 | the index picked is a position of the list |
| Allocate.FirstMaxIsFirstLargest | src/preciouss/ledger/writer.py:120 | `max(range(n), key=total)` picks the first of the largest totals |
| Allocate.CorrectKeeps | src/preciouss/ledger/writer.py:118-122 | the correction changes only the total of the first largest entry |
| Allocate.CorrectSum | src/preciouss/ledger/writer.py:118-122 | after the correction the totals add up to the payment |
| Allocate.PermutedGroups | src/preciouss/ledger/writer.py:115 | sorting a grouping gives a grouping: same entries, every category present |
| Allocate.SortedGroups | src/preciouss/ledger/writer.py:105-115 | the sorted dictionary holds one entry per category, each with its items and their rounded sum |
| Allocate.GroupZeroListed | src/preciouss/ledger/writer.py:100-102 | a zero listed total (Σ price × num) gives no categories |
| Allocate.GroupItems | src/preciouss/ledger/writer.py:86-124 | with a non-zero listed total the category amounts add up to the payment exactly, whatever the per-item rounding |
| Allocate.CorrectedCategories | src/preciouss/ledger/writer.py:118-122 | the correction keeps the order, the accounts and the items |
| Allocate.GroupCategories | src/preciouss/ledger/writer.py:100-124 | one entry per category that occurs, sorted by account name, each holding exactly its category's items in input order |
| Allocate.CorrectedResidual | src/preciouss/ledger/writer.py:118-122 | every entry but the first largest keeps its rounded sum; that one takes the residual |
| Allocate.GroupResidual | src/preciouss/ledger/writer.py:100-124 | every category but the first with the largest pre-correction total equals the sum of its items' rounded amounts; that one takes the residual |
| Allocate.SingleCategory | src/preciouss/ledger/writer.py:115-124 | an ascending grouping of items of one category that adds up to a total is that one entry |
| Allocate.GroupSingleCategory | src/preciouss/ledger/writer.py:100-124 | items of a single category give one entry holding the whole payment and every item |
| Allocate.ItemsOfAll | src/preciouss/ledger/writer.py:106-113 | when every item has the category, its list is all the items |
| Allocate.AppendThenSet | src/preciouss/ledger/writer.py:110-113 | opening an entry at the end and then overwriting it appends the overwritten entry |
| Allocate.AddItemFound | src/preciouss/ledger/writer.py:112-113 | an item of an account already in the dictionary joins that entry in place |
| Allocate.UpdateEntry | src/preciouss/ledger/writer.py:110-113 | updating the entry found, or the zero entry opened when there is none, is one turn of the loop |
| Allocate.AccumulateStep | src/preciouss/ledger/writer.py:106-113 | one more item extends the dictionary by one turn of the loop |
| Allocate.CollectByCategory | src/preciouss/ledger/writer.py:105-113 | the imperative loop builds the grouping `AccumulateGrouped` describes |
| Allocate.GroupItemsByCategory | src/preciouss/ledger/writer.py:86-124 | the procedure's result is the grouping whose exact sum, order, contents and residual placement are proved above |
| Allocate.GroupItemsNonZero | src/preciouss/ledger/writer.py:103-124 | with a non-zero listed total the result is the corrected sorted grouping at scale payment ÷ listed total |
| Writer.SumUnitsAppend | src/preciouss/ledger/writer.py:66-167 | the sum of a joined posting list is the sum of the parts |
| Writer.InCurrencyConcat | src/preciouss/ledger/writer.py:156-167 | joining postings all in one currency keeps them in that currency |
| Writer.CounterDeclared | src/preciouss/ledger/writer.py:49-50 | without a counter account given, the entry posts to a declared default account |
| Writer.TransactionToBeanBalanced | src/preciouss/ledger/writer.py:38-83 | exactly two postings, the source account with the amount and the counter (the type's default when none is given) with its negation, so they sum to zero; the entry's day, payee (none when empty) and link come from the transaction |
| Writer.IntTextParses | src/preciouss/ledger/writer.py:129-131 | the quantity text reads back as the quantity |
| Writer.FormatItemReadable | src/preciouss/ledger/writer.py:127-131 | "name xN ¥total": the quantity and the listed total (price × quantity) both read back from the text |
| Writer.CategoryPostings | src/preciouss/ledger/writer.py:164-167 | one posting per category |
| Writer.CategoryPostingsAt | src/preciouss/ledger/writer.py:164-167 | posting k carries category k's account, total and joined item texts |
| Writer.CategoryPostingsInCurrency | src/preciouss/ledger/writer.py:164-167 | the category postings are all in the transaction's currency, without a price |
| Writer.CategoryPostingsSum | src/preciouss/ledger/writer.py:164-167 | the category postings add up to the category totals |
| Writer.MultipostingBalanced | src/preciouss/ledger/writer.py:134-178 | source posting, then a gift-card posting of −gift only when gift > 0, then the categories: when the category totals equal −amount + gift the postings sum to zero |
| Writer.RoutePriority | src/preciouss/ledger/writer.py:206-308 | the dispatch order: ALDI items, then Costco items, then JD items, then an explicit counter account, then a standalone foreign amount, then the categorizer |
| Writer.ForeignEntry | src/preciouss/ledger/writer.py:225-301 | fails exactly when there is no foreign currency (the KeyError) or the amount is zero (the division) |
| Writer.ForeignEntryWeights | src/preciouss/ledger/writer.py:229-299 | the source posting is priced in the foreign currency of the counter posting, which is +foreign when amount < 0 and −foreign otherwise; the weights miss zero by exactly amount × the rate's rounding error |
| Writer.ItemisedBalanced | src/preciouss/ledger/writer.py:206-222 | with a non-zero listed total and no negative gift card, an itemised entry balances |
| Writer.ItemisedEntryBalanced | src/preciouss/ledger/writer.py:206-222 | an ALDI, Costco or JD receipt with a non-zero listed total gives a balanced entry (JD total = −amount + gift card) |
| Writer.EntryForItemised | src/preciouss/ledger/writer.py:206-222 | the itemised routes group the receipt's items over −amount, plus the gift card for JD |
| Writer.ZeroListedLonePosting | src/preciouss/ledger/writer.py:206-215 | an ALDI or Costco receipt whose listed total is zero gives a lone source posting, which does not balance |
| Writer.StandardCounter | src/preciouss/ledger/writer.py:302-308 | the standard route balances and takes the categorizer's account, else the given counter, else the type's default |
| Writer.InsertByDay | src/preciouss/ledger/writer.py:312 | inserting adds exactly one entry |
| Writer.SortByDay | src/preciouss/ledger/writer.py:312 | the sort keeps the number of entries |
| Writer.OnDayAppend | src/preciouss/ledger/writer.py:312 | an appended entry joins the end of its day's entries |
| Writer.InsertByDayOnDay | src/preciouss/ledger/writer.py:312 | inserting puts the entry after the other entries of its day |
| Writer.SortByDayStable | src/preciouss/ledger/writer.py:312 | the sort is stable: each day's entries keep their input order |
| Writer.InsertByDayPermutes | src/preciouss/ledger/writer.py:312 | inserting keeps every entry and adds the new one |
| Writer.SortByDayPermutes | src/preciouss/ledger/writer.py:312 | the sort is a permutation |
| Writer.InsertByDayBound | src/preciouss/ledger/writer.py:312 | inserting an entry no later than a bound keeps every entry within the bound |
| Writer.InsertByDaySorted | src/preciouss/ledger/writer.py:312 | inserting into a list ordered by day keeps it ordered |
| Writer.SortByDaySorted | src/preciouss/ledger/writer.py:312 | the sorted entries are ordered by day |
| Writer.BuildEntries | src/preciouss/ledger/writer.py:201-309 | a successful loop gives one entry per transaction |
| Writer.Results | src/preciouss/ledger/writer.py:202-309 | one outcome per transaction |
| Writer.ResultsAt | src/preciouss/ledger/writer.py:202-309 | outcome k is transaction k's entry or error |
| Writer.CollectOk | src/preciouss/ledger/writer.py:202-309 | collecting succeeds exactly when every outcome does, and keeps them in order |
| Writer.CollectFirstErr | src/preciouss/ledger/writer.py:202-309 | a failed collection reports the first error, as the first exception stops the loop |
| Writer.BuildEntriesCollect | src/preciouss/ledger/writer.py:202-309 | the loop is the collection of the per-transaction outcomes |
| Writer.BuildEntriesOk | src/preciouss/ledger/writer.py:202-309 | the loop succeeds exactly when every transaction has an entry, entry k being transaction k's; otherwise it fails with the first transaction's error |
| Writer.WriteAllSorted | src/preciouss/ledger/writer.py:181-312 | on success the written entries are the built ones, one per transaction, ordered by day, each day's in input order |
| Writer.WriteTransactions | src/preciouss/ledger/writer.py:181-312 | the imperative loop and sort produce what `WriteAllSorted` describes |
| Writer.BuildStep | src/preciouss/ledger/writer.py:202-309 | one more transaction appends its entry or stops the loop with its error |
| Writer.BuildPrefixErr | src/preciouss/ledger/writer.py:202-309 | an error on a prefix is the error of the whole loop |
| Writer.TransactionToBean | src/preciouss/ledger/writer.py:38-83 | two postings, source then counter account, with opposite amounts |
| Writer.FormatItem | src/preciouss/ledger/writer.py:127-131 | the text starts with the item name and " x" |
| Writer.Multiposting | src/preciouss/ledger/writer.py:134-178 | one source posting (the amount on the source account unless overridden), one gift-card posting when the gift is positive, one posting per category |
| Writer.EntryFor | src/preciouss/ledger/writer.py:201-309 | only the two foreign routes fail, and only when the foreign currency is missing or the amount is zero |
| Writer.WriteAll | src/preciouss/ledger/writer.py:181-312 | on success one entry per transaction, ordered by day |
| Cli.FirstNamed | src/preciouss/cli.py:144-148 | the first importer, from a position on, whose lower-cased class name contains the key, and none before it does; none when no importer does |
| Cli.FirstIdentifying | src/preciouss/cli.py:149-152 | the first importer, from a position on, that recognises the file, and none before it does |
| Cli.FindImporter | src/preciouss/cli.py:138-152 | with a non-empty source, the first importer whose lower-cased class name contains the lower-cased source (none if none does); otherwise the first importer that recognises the file |
| Cli.SourceIgnoresIdentify | src/preciouss/cli.py:144-148 | a forced source decides without inspecting the file |
| Cli.EmptySourceIsAutomatic | src/preciouss/cli.py:144 | an empty source is treated as no source |
| Cli.Dedup | src/preciouss/cli.py:155-169 | de-duplication never adds transactions |
| Cli.Unreferenced | src/preciouss/cli.py:163-164 | the transactions without a reference id |
| Cli.RefsAppend | src/preciouss/cli.py:163-168 | the ids of a list grow by the id of an appended transaction |
| Cli.Deduplicate | src/preciouss/cli.py:155-169 | the loop with its set of seen ids computes `Dedup` |
| Cli.DedupRefs | src/preciouss/cli.py:155-169 | every reference id of the input is still present |
| Cli.DedupKeepsUnreferenced | src/preciouss/cli.py:163-164 | transactions without a reference id are all kept, in order |
| Cli.DedupKeepsFirst | src/preciouss/cli.py:158-167 | the first occurrence of each id is the one kept |
| Cli.DedupDistinct | src/preciouss/cli.py:155-169 | no two kept transactions share a reference id |
| Cli.DedupSubsequence | src/preciouss/cli.py:155-169 | order is preserved: the result is a subsequence of the input |
| Cli.DedupDistinctFixed | src/preciouss/cli.py:155-169 | input with distinct ids passes through unchanged |
| Cli.DedupIdempotent | src/preciouss/cli.py:155-169 | de-duplicating twice is de-duplicating once |
| Cli.RemoveSuffix | src/preciouss/cli.py:181 | the result is the name, or the name with the suffix removed |
| Cli.ImporterOutputName | src/preciouss/cli.py:172-194 | the loop computes the snake-cased stem of the class name without `Importer` |
| Cli.EraseUnderscores | src/preciouss/cli.py:184-194 | the erased text has no underscore |
| Cli.EraseConcat | src/preciouss/cli.py:184-194 | erasing underscores distributes over joining |
| Cli.ErasePiece | src/preciouss/cli.py:185-193 | each emitted piece is at most an underscore and the lower-cased character |
| Cli.SnakeOnlyInsertsUnderscores | src/preciouss/cli.py:184-194 | the output only inserts underscores into the lower-cased name |
| Cli.SnakeIsLower | src/preciouss/cli.py:193 | the output has no capitals |
| Cli.SnakeStart | src/preciouss/cli.py:186 | no underscore goes before the first character |
| Cli.LowerRun | src/preciouss/cli.py:186-193 | a run without inner capitals is emitted lower-cased without underscores |
| Cli.SingleWordLowered | src/preciouss/cli.py:184-194 | a single-word name is just lower-cased (`Wechat` → `wechat`) |
| Cli.ImporterSuffixRemoved | src/preciouss/cli.py:181 | the `Importer` suffix is removed |
| Cli.CmbCreditName | src/preciouss/cli.py:175-176 | `CmbCreditImporter` is written to `cmb_credit` |
| Cli.WechatHKName | src/preciouss/cli.py:184-194 | `WechatHKImporter` is written to `wechat_hk` (the capital after a lower-case letter gets an underscore) |
| Cli.Split | src/preciouss/cli.py:224 | `split` gives at least one piece |
| Cli.SplitCount | src/preciouss/cli.py:224-226 | `split` gives one more piece than there are separators |
| Cli.SplitJoined | src/preciouss/cli.py:224 | splitting two separator-free pieces joined by the separator gives them back |
| Cli.ParseYearRange | src/preciouss/cli.py:218-235 | a parsed range has exactly one colon and a start before its end |
| Cli.YearRangeRoundTrip | src/preciouss/cli.py:218-235 | `START:END` with start < end parses to 1 January of START and 1 January of END |
| Cli.YearRangeNotIncreasing | src/preciouss/cli.py:232-234 | a start not before its end is refused |
| Cli.InDateRange | src/preciouss/cli.py:354-357 | the filter never adds transactions |
| Cli.InDateRangeMembers | src/preciouss/cli.py:354-357 | a transaction is kept exactly when it is in the input and `from <= date < until` |
| Cli.InDateRangeSubsequence | src/preciouss/cli.py:354-357 | the filter keeps input order |
| Rules.FlattenStep | src/preciouss/categorize/rules.py:11-235 | the table is its sections one after another |
| Rules.FlattenPrefix | src/preciouss/categorize/rules.py:11-235 | the first sections form a prefix of the table |
| Rules.FlattenAt | src/preciouss/categorize/rules.py:11-235 | row k of a section is row offset + k of the table |
| Rules.OffsetMonotone | src/preciouss/categorize/rules.py:11-235 | later sections start later |
| Rules.OffsetAfter | src/preciouss/categorize/rules.py:11-235 | every row of an earlier section comes before every row of a later one |
| Rules.KeyIndexFrom | src/preciouss/categorize/rules.py:257-259 | the position of the first item with the key, and no earlier item has it |
| Rules.KeyIndexIs | src/preciouss/categorize/rules.py:257-259 | the first item with the key is the one found |
| Rules.KeyIndexNone | src/preciouss/categorize/rules.py:257-259 | a missing key is not found |
| Rules.SetItemKeys | src/preciouss/categorize/rules.py:257-259 | setting an item keeps every key in its place and appends only a new key |
| Rules.SetItemGet | src/preciouss/categorize/rules.py:257-259 | after setting, the key gives the new value and every other key its old one |
| Rules.KeyIndexExtend | src/preciouss/categorize/rules.py:257-259 | a last item with another key does not change a lookup |
| Rules.UpdateKeepsPositions | src/preciouss/categorize/rules.py:257-259 | `update` keeps the old keys in place; the rows after them are new keys of the update |
| Rules.DistinctFront | src/preciouss/categorize/rules.py:253 | every prefix of a dictionary's items has distinct keys |
| Rules.UpdateGet | src/preciouss/categorize/rules.py:257-259 | after `update`, a key of the update gives its value there, any other key its old value |
| Rules.NewKeywordRules | src/preciouss/categorize/rules.py:256-259 | default keywords keep their places, user keywords come after them, and user values override defaults |
| Rules.NewRegexRules | src/preciouss/categorize/rules.py:261-264 | the user's regex rules come first, in order, then the defaults |
| Rules.KeywordHitFrom | src/preciouss/categorize/rules.py:271-274 | the first keyword rule whose lower-cased keyword occurs in the text, and no earlier one does |
| Rules.RegexHitFrom | src/preciouss/categorize/rules.py:277-280 | the first regex rule found in the text, and no earlier one is |
| Rules.KeywordDecides | src/preciouss/categorize/rules.py:266-282 | the first keyword that occurs decides, whatever the regex rules say |
| Rules.EarlierKeywordWins | src/preciouss/categorize/rules.py:271-274 | when a keyword occurs, the account is that of it or an earlier occurring keyword |
| Rules.RegexDecides | src/preciouss/categorize/rules.py:276-280 | with no keyword in the text, the first regex found decides |
| Rules.UncategorizedIff | src/preciouss/categorize/rules.py:266-282 | no account exactly when no keyword occurs and no regex is found |
| Rules.CategorizeSound | src/preciouss/categorize/rules.py:266-282 | every account given is that of a rule that matched |
| Rules.SectionPrecedence | src/preciouss/categorize/rules.py:11-274 | a keyword of an earlier section wins over every row of a later section, whatever the user adds |
| Rules.DefaultRowKept | src/preciouss/categorize/rules.py:256-259 | each default row keeps its keyword and position in every categorizer |
| Rules.ChargingRow | src/preciouss/categorize/rules.py:229-230 | the generic charging section starts with "充电" |
| Rules.MeituanRows | src/preciouss/categorize/rules.py:76-109 | "美团外卖" opens the delivery section; the generic Meituan rows are restaurant rows 17 and 18 |
| Rules.PowerBankBeforeCharging | src/preciouss/categorize/rules.py:223-230 | a power-bank brand is matched before the generic "充电" row |
| Rules.DeliveryBeforeMeituan | src/preciouss/categorize/rules.py:76-109 | "美团外卖" is matched before every restaurant row |
| Rules.MeituanRowsKept | src/preciouss/categorize/rules.py:256-259 | the generic Meituan rows keep their places in every categorizer |
| Rules.CampusBeforeRestaurants | src/preciouss/categorize/rules.py:29-90 | a campus canteen is matched before any generic restaurant row |
| Rules.NewRuleCategorizer | src/preciouss/categorize/rules.py:252-264 | the default regex rules always end the regex list; without user keywords the keyword table is the default one |
| Rules.Categorize | src/preciouss/categorize/rules.py:266-282 | any account given is that of some keyword or regex rule |
| Rows.GetOr | src/preciouss/importers/wechat.py:101 | a present key gives its value, a missing key the default |
| Rows.OrElse | src/preciouss/importers/cmb.py:107 | `a or b` is `a` unless it is empty, and is empty only when both are |
| Rows.NoneIfEmpty | src/preciouss/importers/jd.py:175 | present exactly when the text is not empty, and then is the text |
| Rows.NoneIfBlank | src/preciouss/importers/wechat.py:127-129 | present exactly when the text is neither empty nor "/", and then is the text |
| Rows.StripChar | src/preciouss/importers/wechat.py:116-117 | neither end of the result is the stripped character |
| Rows.StripCharKeeps | src/preciouss/importers/wechat.py:116-117 | text whose ends differ from the character is unchanged |
| Rows.StripThenTab | src/preciouss/importers/wechat.py:116-117 | `strip().strip("\t")` is `strip()` |
| Rows.FirstFormatIs | src/preciouss/importers/cmb.py:64-69 | the format loop fails only when every format fails, else it takes the first format that parses |
| Rows.Parsed | src/preciouss/importers/base.py:97-104 | no more transactions than rows |
| Rows.CollectParsed | src/preciouss/importers/base.py:97-106 | the loop keeps what the row parser accepts, in row order |
| Rows.ParsedMembers | src/preciouss/importers/base.py:97-104 | a transaction is produced exactly when some row parses to it |
| Rows.ParsedAppend | src/preciouss/importers/base.py:97-104 | parsing a concatenation parses the parts in turn |
| Rows.Before | src/preciouss/importers/wechat.py:42 | the text before the first separator, which it does not contain |
| Rows.FirstLine | src/preciouss/importers/wechat.py:42 | the first line is a prefix of the content without a newline, ended by one unless it is all of it |
| Rows.Signed | src/preciouss/importers/wechat.py:100-110 | 支出 makes the amount −\|a\| and an expense, 收入 +\|a\| and income, the transfer word keeps the sign, anything else is `other`; the magnitude never changes |
| Rows.HeadLines | src/preciouss/importers/base.py:82-83 | the first lines are a prefix of the content that starts with the first line |
| Tables.FirstPrefixFrom | src/preciouss/importers/resolve.py:80-82 | the first row whose keyword starts the text, and no earlier one does |
| Tables.FirstContainedFrom | src/preciouss/importers/clearing.py:99-102 | the first row whose keyword occurs in the text, and no earlier one does |
| Tables.FirstContainedIs | src/preciouss/importers/clearing.py:99-102 | the first row whose keyword occurs is the one found |
| Tables.FirstGroupFrom | src/preciouss/importers/clearing.py:57-60 | the first group one of whose keywords occurs, and no earlier group has one |
| Tables.FirstGroupIs | src/preciouss/importers/clearing.py:57-60 | the first group with a keyword in the text is the one found |
| Tables.Classify | src/preciouss/importers/aldi.py:64-71 | the first matching group's value, or the default when none matches |
| Tables.FirstPrefixIsLongest | src/preciouss/importers/resolve.py:80-82 | in a longest-first table the first prefix found is a longest one |
| Tables.PrefixesOfSameLength | src/preciouss/importers/resolve.py:80-82 | two prefixes of one text with the same length are equal |
| Tables.SortedPrefixFindsLongest | src/preciouss/importers/resolve.py:80-82 | after `sorted(key=-len)` the search finds the longest matching keyword, whatever the dictionary order |
| Tables.SortedPrefixFindsNone | src/preciouss/importers/resolve.py:80-82 | with no matching keyword, nothing is found |
| Model.WithLink | src/preciouss/matching/clearing.py:128 | setting the link changes the link and nothing else |
| Model.JanFirst | src/preciouss/cli.py:235 | 1 January of a year is a non-negative instant |
| Model.JanFirstIncreasing | src/preciouss/cli.py:232-235 | a later year starts later, so a range with start < end is non-empty |
| Numbers.NatToString | src/preciouss/cli.py:228 | `str(n)` is a digit string without leading zero that writes n |
| Numbers.ParseIntRoundTrip | src/preciouss/cli.py:228 | `int(str(n)) == n` |
| Numbers.RenderParses | src/preciouss/importers/aldi.py:149-154 | `Decimal(str(d)) == d`, exponent included |
| Numbers.MulIntValue | src/preciouss/ledger/writer.py:130 | `Decimal * int` multiplies the values |
| Json.Member | src/preciouss/importers/aldi.py:154 | `j[key]` succeeds exactly on an object that has the key |
| Json.GetOr | src/preciouss/importers/aldi.py:149 | `get` gives the key's value when present, the default otherwise |
| Json.StrOf | src/preciouss/importers/aldi.py:135-142 | a text exactly for a string value |
| Json.TruncateBounds | src/preciouss/importers/costco.py:120 | `int(x)` truncates toward zero, by less than one |
| Json.WholeNumber | src/preciouss/importers/jd.py:305 | an integral number's value |
| Json.AbsDecValue | src/preciouss/importers/jd.py:291 | `abs` of a decimal has the absolute value |
| Json.Slice | src/preciouss/importers/costco.py:115 | Python slicing clamps out-of-range bounds |
| Json.ConvertAllSucceeds | src/preciouss/importers/costco.py:117-125 | a comprehension succeeds exactly when every element converts |
| Json.ConvertAllInOrder | src/preciouss/importers/costco.py:117-125 | element k of the result is the conversion of element k |
| Json.Elements | src/preciouss/importers/jd.py:286-298 | a list's elements are what a loop visits |
| Json.GatherNoneStays | src/preciouss/importers/jd.py:298-309 | once an element raises, the whole loop raises |
| Json.GatherKeepsAll | src/preciouss/importers/jd.py:298-309 | on success every element converted and every kept result is present |
| Json.GatherFromElements | src/preciouss/importers/jd.py:298-309 | every kept result is the conversion of some element |
| Numbers.ParseDecimal | src/preciouss/importers/citic.py:65-69 | text that strips to nothing is no decimal |
| Numbers.ParseInt | src/preciouss/cli.py:227-230 | a number read comes from text that does not strip to nothing |
| Numbers.Render | src/preciouss/ledger/writer.py:131 | the text of a decimal is never empty |
| Text.Strip | src/preciouss/importers/citic.py:59 | no longer than the input, no whitespace at either end, and empty exactly when the input is all whitespace |
| Text.Lower | src/preciouss/categorize/rules.py:268 | lower-casing keeps the length |
| Text.ReplaceAll | src/preciouss/importers/citic.py:65 | replacing by text no longer than the pattern never lengthens the input |
| Jd.Identify | src/preciouss/importers/jd.py:132-142 | an identified export carries "京东账号名" (within its first five lines, `.csv` only) |
| Jd.Categorize | src/preciouss/importers/jd.py:48-55 | an item's account is the default or the account of one of the keyword groups |
| Jd.PhoneFirst | src/preciouss/importers/jd.py:18-54 | group order decides: a name starting with 手机 is electronics even when it also names a bag |
| Jd.AmountRun | src/preciouss/importers/jd.py:15 | the greedy `[\d.]+` run: every character in it is a digit or a point and the next one is not |
| Jd.AmountRunOf | src/preciouss/importers/jd.py:15 | a run followed by another character is taken whole |
| Jd.RefundGroup | src/preciouss/importers/jd.py:15 | the bracket's capture holds digits and points only |
| Jd.MatchAmount | src/preciouss/importers/jd.py:15-69 | a match starts with a non-empty number that prefixes the text |
| Jd.ParseAmount | src/preciouss/importers/jd.py:58-81 | an accepted original amount is never negative |
| Jd.RenderAmountChars | src/preciouss/importers/jd.py:15 | the text of a non-negative amount is digits and a point |
| Jd.RenderedAmount | src/preciouss/importers/jd.py:15-71 | a non-negative amount's text is one whole run and reads back as the amount |
| Jd.PlainAmountRoundTrip | src/preciouss/importers/jd.py:74-76 | "N" parses to (N, no refund) |
| Jd.FullRefundGroup | src/preciouss/importers/jd.py:15 | the full-refund bracket captures nothing |
| Jd.PartialRefundGroup | src/preciouss/importers/jd.py:15 | the partial-refund bracket captures the refunded number |
| Jd.MatchWithBracket | src/preciouss/importers/jd.py:15 | a number followed by a matching bracket splits there |
| Jd.BracketedStripped | src/preciouss/importers/jd.py:66 | an amount with a bracket is already stripped |
| Jd.FullRefundRoundTrip | src/preciouss/importers/jd.py:77-79 | "N(已全额退款)", with either kind of bracket, parses to (N, N) |
| Jd.PartialRefundRoundTrip | src/preciouss/importers/jd.py:80-81 | "N(已退款R)", with either kind of bracket, parses to (N, R) |
| Jd.ParsePartial | src/preciouss/importers/jd.py:80-81 | a non-empty capture is read as the refund |
| Jd.SignedAmountRejected | src/preciouss/importers/jd.py:15-69 | a signed amount is rejected |
| Jd.StripStartsWithin | src/preciouss/importers/jd.py:66 | stripping keeps a non-space first character |
| Jd.WithdrawalTarget | src/preciouss/importers/jd.py:212-220 | a XiaoJinKu withdrawal never pays into XiaoJinKu, and pays into Assets:Unknown without a named method |
| Jd.SpendingRoutes | src/preciouss/importers/jd.py:180-192 | spending is skipped exactly on a full refund; otherwise it is an expense of −original (−(original − refund) with the refund and original recorded), countered by JD's clearing account |
| Jd.IncomeRoutes | src/preciouss/importers/jd.py:194-198 | income keeps the amount, with no counter account |
| Jd.NeutralRoutes | src/preciouss/importers/jd.py:200-226 | a neutral row is a transfer of −original: a repayment to BaiTiao, a XiaoJinKu withdrawal out of XiaoJinKu into another account, a deposit into XiaoJinKu; any other is skipped |
| Jd.UnknownDirectionSkipped | src/preciouss/importers/jd.py:227-228 | any other direction is skipped |
| Jd.UnnamedMethodSource | src/preciouss/importers/jd.py:175-178 | an empty or `/` payment method uses JD's unknown clearing account |
| Jd.RowFacts | src/preciouss/importers/jd.py:145-164 | a row passes only with a success status, a readable time and an amount `_parse_amount` accepts |
| Jd.RowTransaction | src/preciouss/importers/jd.py:230-244 | the transaction takes the route's amount, type and counter account |
| Jd.AcceptedRow | src/preciouss/importers/jd.py:144-244 | every accepted row has a success status, its parsed time, and the amount, type, accounts and refund metadata of its route |
| Jd.AcceptedRowRefs | src/preciouss/importers/jd.py:230-244 | empty trade and merchant numbers give no reference; an empty or `/` method is recorded as none |
| Jd.ParseRow | src/preciouss/importers/jd.py:144-244 | an accepted row has a completed status, its time read by the parser as the transaction date, and the importer's currency |
| JdOrders.OrderKey | src/preciouss/importers/jd.py:96 | a truthy `parent_order_id` is the key; otherwise `order_id` |
| JdOrders.LookupStep | src/preciouss/importers/jd.py:93-98 | one more order: skipped unless completed with a truthy key, else appended to its key's list |
| JdOrders.LookupNoneStays | src/preciouss/importers/jd.py:93-98 | once an order raises, the whole load raises |
| JdOrders.LoadOrders | src/preciouss/importers/jd.py:84-99 | the loop over `orders` builds the lookup, and fails where Python raises |
| JdOrders.LookupSound | src/preciouss/importers/jd.py:93-98 | everything filed under a key is a completed order with that key |
| JdOrders.LookupComplete | src/preciouss/importers/jd.py:93-98 | every completed order with a key is filed under it |
| JdOrders.OrderItem | src/preciouss/importers/jd.py:298-309 | a kept item has a non-zero price, its name, and its name's category |
| JdOrders.KeptItems | src/preciouss/importers/jd.py:297-309 | never more items than entries |
| JdOrders.KeptItemsExact | src/preciouss/importers/jd.py:297-309 | the kept items are exactly the converted entries of non-zero price |
| JdOrders.CollectItems | src/preciouss/importers/jd.py:297-309 | the item loop computes `KeptItems` |
| JdOrders.Totals | src/preciouss/importers/jd.py:287-295 | an order goes on only when completed with a non-zero total, and its gift card share is a magnitude |
| JdOrders.Finish | src/preciouss/importers/jd.py:311-315 | an order goes on only with items |
| JdOrders.ReadPurchase | src/preciouss/importers/jd.py:286-315 | a purchase always has items |
| JdOrders.ReadOrder | src/preciouss/importers/jd.py:286-315 | the per-order reads with the item loop compute `ReadPurchase` |
| JdOrders.PurchaseTransaction | src/preciouss/importers/jd.py:332-349 | a purchase is an expense carrying its items |
| JdOrders.PaymentSplit | src/preciouss/importers/jd.py:322-335 | with cash, the JD clearing account pays −cash and the gift card share is recorded when positive; without cash, the gift card pays −share |
| JdOrders.WriterTotalIsOrderCost | src/preciouss/importers/jd.py:293-335 | minus the amount plus the recorded gift card is the order's whole cost when cash is not negative |
| JdOrders.NarrationNamesFirstItem | src/preciouss/importers/jd.py:317-320 | one item: its name; several: the first name, then the item count |
| JdOrders.SkippedOrders | src/preciouss/importers/jd.py:287-312 | orders not completed, and orders with no priced item, are skipped |
| JdOrders.ExtractOrders | src/preciouss/importers/jd.py:286-351 | never more transactions than orders |
| JdOrders.ExtractedAreExpenses | src/preciouss/importers/jd.py:286-351 | every transaction is an expense from JD's platform with items, paid from the clearing account or the gift card, of a completed order |
| JdOrders.PaidOrdersExtracted | src/preciouss/importers/jd.py:286-351 | every paid order with priced items yields its transaction |
| JdOrders.Extract | src/preciouss/importers/jd.py:278-351 | the loop over `orders` computes `ExtractOrders`, and fails where Python raises |
| JdOrders.Lookup | src/preciouss/importers/jd.py:84-99 | every key lists at least one order, and every listed order is a completed order object of the file |
| JdOrders.Identify | src/preciouss/importers/jd.py:263-276 | an identified file decodes to an object with an `orders` member |
| Citic.ColumnAmongIn | src/preciouss/importers/citic.py:50-54 | a column found is one whose range holds the left edge |
| Citic.DisjointLookup | src/preciouss/importers/citic.py:50-54 | over disjoint ranges, a column is found exactly when the edge is in its range |
| Citic.ContiguousCoverage | src/preciouss/importers/citic.py:50-54 | over contiguous ranges, some column is found exactly on their union |
| Citic.ContiguousIncreasing | src/preciouss/importers/citic.py:40-47 | along contiguous ranges the upper ends grow |
| Citic.ColumnOf | src/preciouss/importers/citic.py:40-54 | a word belongs to some column exactly when its left edge is in [0, 9999) |
| Citic.ColumnRanges | src/preciouss/importers/citic.py:40-54 | each column takes exactly the words whose left edge is in its range |
| Citic.DropFirstPrefix | src/preciouss/importers/citic.py:61-64 | dropping a prefix never lengthens the text |
| Citic.RenderIsPlain | src/preciouss/importers/citic.py:65 | an amount's text has no comma and nothing to strip |
| Citic.DropNoPrefix | src/preciouss/importers/citic.py:61-64 | text without a currency prefix is kept |
| Citic.DropFirstMatching | src/preciouss/importers/citic.py:61-64 | the first prefix the text starts with is dropped |
| Citic.NoCurrencyPrefix | src/preciouss/importers/citic.py:61 | a number starts with no currency prefix |
| Citic.AmountRoundTrip | src/preciouss/importers/citic.py:57-69 | a plain amount reads back as itself |
| Citic.DropsOwnPrefix | src/preciouss/importers/citic.py:61-64 | only the text's own prefix is dropped |
| Citic.ReadsAfterPrefix | src/preciouss/importers/citic.py:57-69 | after one currency prefix, the rest is read as it stands |
| Citic.PrefixedAmountRoundTrip | src/preciouss/importers/citic.py:57-69 | "CNY 106.19" and the other prefixes read back as the amount |
| Citic.LetterFirstUnreadable | src/preciouss/importers/citic.py:66-69 | text starting with a letter is rejected |
| Citic.OnePrefixOnly | src/preciouss/importers/citic.py:61-64 | only one prefix is dropped: two make the amount unreadable |
| Citic.CellTexts | src/preciouss/importers/citic.py:251 | one stripped text per cell, empty for a missing one |
| Citic.AmountCell | src/preciouss/importers/citic.py:270 | the settlement amount when present, otherwise the transaction amount |
| Citic.ReadRow | src/preciouss/importers/citic.py:247-248 | an accepted row has at least five cells |
| Citic.RowTransaction | src/preciouss/importers/citic.py:278-304 | the recorded amount is the statement amount negated |
| Citic.RowAccepted | src/preciouss/importers/citic.py:247-276 | a row is accepted exactly when it has five cells, a first cell that is neither empty nor a header and is a date, and an amount cell that is present and reads |
| Citic.RowSigns | src/preciouss/importers/citic.py:269-284 | a charge (zero included) is an expense and not positive, a negative amount income and positive; the settlement cell wins when filled |
| Citic.RowFields | src/preciouss/importers/citic.py:258-304 | the card's account, no counter account, the description as payee, card digits only when present, the posting date when it reads, the statement date in effect |
| Citic.FirstDigitFrom | src/preciouss/importers/citic.py:31 | the first digit from a position on, with none before it |
| Citic.StatementDateAt | src/preciouss/importers/citic.py:31 | a captured date has ten characters |
| Citic.GroupedEnd | src/preciouss/importers/citic.py:26 | the end of the maximal `[\d,]` run |
| Citic.SpaceEnd | src/preciouss/importers/citic.py:26 | the end of the maximal whitespace run |
| Citic.SpacedAmountAt | src/preciouss/importers/citic.py:26 | a matched amount lies after its leading whitespace |
| Citic.LeftmostIs | src/preciouss/importers/citic.py:180-190 | `re.search` finds the leftmost match |
| Citic.LeftmostNone | src/preciouss/importers/citic.py:180-190 | nothing is found where nothing matches |
| Citic.ExtractNewCharge | src/preciouss/importers/citic.py:306-323 | new charges are read only from a page with the label |
| Citic.NoLabelNoCharge | src/preciouss/importers/citic.py:315-316 | no label, no new charges |
| Citic.SpacedAmountMatches | src/preciouss/importers/citic.py:26 | a space and `[\d,]+\.\d{2}` not followed by a digit match there |
| Citic.GroupedEndIs | src/preciouss/importers/citic.py:26 | the run ends at the first character outside `[\d,]` |
| Citic.BalanceRowMatches | src/preciouss/importers/citic.py:25-27 | `CNY` and three spaced amounts ending a word match, capturing the third amount |
| Citic.BalanceRowAmounts | src/preciouss/importers/citic.py:25-27 | the three amounts of the balance row are where the pattern reads them |
| Citic.NoBalanceWithoutC | src/preciouss/importers/citic.py:25-27 | the balance pattern only matches where `CNY` starts |
| Citic.FirstBalanceRow | src/preciouss/importers/citic.py:317 | with no `C` before it, the row is the leftmost match |
| Citic.NewChargeIsThirdAmount | src/preciouss/importers/citic.py:306-323 | the new charges are the third amount of the CNY row without commas |
| Citic.NewChargeReadsBack | src/preciouss/importers/citic.py:306-323 | a third amount written as a decimal's text reads as that decimal |
| Citic.StatementDateAfterLabel | src/preciouss/importers/citic.py:180 | the label, up to 30 non-digits and a `YYYY-MM-DD` date give that date |
| Citic.FirstDigitIs | src/preciouss/importers/citic.py:31 | the first digit after the label is where the date starts |
| Citic.DateShapeInside | src/preciouss/importers/citic.py:31 | a date-shaped text inside the page is date-shaped there |
| Citic.Expenses | src/preciouss/importers/citic.py:205-206 | the expenses, in order, are all of type expense |
| Citic.ParseTable | src/preciouss/importers/citic.py:198-206 | the row loop keeps what `_parse_row` accepts and, among it, the expenses |
| Citic.ParsePagesStep | src/preciouss/importers/citic.py:175-226 | the page loop advances one page at a time |
| Citic.PageStepParts | src/preciouss/importers/citic.py:175-226 | a page appends its transactions, sets the date and charges, and adds its mismatch |
| Citic.UpdateStatementDate | src/preciouss/importers/citic.py:179-185 | the date block computes the date in effect |
| Citic.UpdateNewCharge | src/preciouss/importers/citic.py:187-195 | the charges block computes the stated charges |
| Citic.CheckCycle | src/preciouss/importers/citic.py:208-226 | the check block computes the charges left and the mismatch reported |
| Citic.Parse | src/preciouss/importers/citic.py:166-228 | the page loop gives the transactions and mismatches of `ParsePages` |
| Citic.StatementDateCarries | src/preciouss/importers/citic.py:179-185 | a page without a readable statement date keeps the one in effect; one with it replaces it |
| Citic.CheckOnce | src/preciouss/importers/citic.py:208-226 | a mismatch exactly when stated charges and expenses differ by more than 1.00; the stated value is then cleared |
| Citic.MismatchesPerPage | src/preciouss/importers/citic.py:175-226 | at most one mismatch per page |
| Citic.TableOnAccount | src/preciouss/importers/citic.py:294-304 | every transaction of a table is on the card's account, with no counter account |
| Citic.AllOnAccount | src/preciouss/importers/citic.py:166-228 | every transaction of the statement is on the card's account, with no counter account |
| Citic.ParseAmount | src/preciouss/importers/citic.py:57-69 | text that strips to nothing is no amount |
| Citic.ParseDate | src/preciouss/importers/citic.py:72-80 | a date read is what `strptime` gives for one of the two formats on the stripped text |
| Citic.ParseRow | src/preciouss/importers/citic.py:231-304 | an accepted row has at least five cells and lands on the importer's account and currency, with no counter account and the statement date in effect |
| Citic.Check | src/preciouss/importers/citic.py:208-226 | at most one mismatch, reported exactly when a stated charge and some expenses differ by more than the tolerance, carrying the stated and computed totals; a stated charge is kept only for a page without expenses |
| Citic.PageStep | src/preciouss/importers/citic.py:175-226 | a page only appends transactions and adds at most one mismatch |
| Citic.ParsePages | src/preciouss/importers/citic.py:167-228 | at most one mismatch per page |
| Citic.Identify | src/preciouss/importers/citic.py:102-117 | an identified statement has a first page naming the statement date |
| WechatHK.ParseForeignPrice | src/preciouss/importers/wechathk.py:14-22 | a price is read only after a yen sign of either width, and always in CNY |
| WechatHK.ForeignPriceRoundTrip | src/preciouss/importers/wechathk.py:14-22 | "￥25.00" and "¥25.00" read back as 25.00 CNY |
| WechatHK.RecordMetadata | src/preciouss/importers/wechathk.py:127-136 | the refund flag exactly for refunds; the rate exactly when non-empty |
| WechatHK.RecordTransaction | src/preciouss/importers/wechathk.py:141-154 | the record's time and amount; income for a refund, expense otherwise |
| WechatHK.RecordFacts | src/preciouss/importers/wechathk.py:75-102 | a record passes only in state 0 or 9 with a timestamp that reads and an amount that reads; a refund keeps the cents / 100, a payment negates them |
| WechatHK.AcceptedRecordSigns | src/preciouss/importers/wechathk.py:88-102 | a refund (state 9) is income of the amount with the refund flag; a payment (state 0) an expense of the amount negated |
| WechatHK.AcceptedRecordAccounts | src/preciouss/importers/wechathk.py:104-154 | the importer's account, the merchant as payee, the merchant clearing detector's counter account, references only when non-empty |
| WechatHK.ForeignMetadata | src/preciouss/importers/wechathk.py:123-134 | the foreign amount and CNY together exactly when the price parses; the rate exactly when non-empty |
| WechatHK.PaymentMethodChoice | src/preciouss/importers/wechathk.py:111-117 | `brand(tail)` when both are non-empty, otherwise the instrument |
| WechatHK.Extract | src/preciouss/importers/wechathk.py:61-71 | the loop keeps each record `_parse_record` accepts, in order |
| WechatHK.ParseRecord | src/preciouss/importers/wechathk.py:73-154 | an accepted record lands on the importer's account and currency, is income or expense, and is income exactly when it carries the refund flag |
| Wechat.TitleMustBeFirst | src/preciouss/importers/wechat.py:36-45 | a title that is not on the first line does not identify the file |
| Wechat.RowTransaction | src/preciouss/importers/wechat.py:120-136 | the row's time, signed amount and type |
| Wechat.ParseRow | src/preciouss/importers/wechat.py:76-136 | an accepted row has a time, a completed status and an amount that reads (yen sign and commas removed), signed by its direction |
| Wechat.AcceptedRow | src/preciouss/importers/wechat.py:78-111 | the time read with the one format; the magnitude kept; 支出 an expense and never positive, 收入 income and never negative, `/` a transfer, anything else `other` |
| Wechat.AcceptedRowFields | src/preciouss/importers/wechat.py:113-136 | the importer's account with no counter account, the completed status recorded, never `/` as payment method or reference |
| Wechat.TradeNumberTabsGone | src/preciouss/importers/wechat.py:116-117 | the extra tab strip changes nothing after `strip()` |
| Wechat.HeaderFrom | src/preciouss/importers/wechat.py:54-58 | the first line starting "交易时间," and none before it |
| Wechat.Extract | src/preciouss/importers/wechat.py:47-74 | no header, no transactions; otherwise the rows from the header on, each kept when `_parse_row` accepts it, in order |
| Wechat.Identify | src/preciouss/importers/wechat.py:36-45 | an identified export carries the title (on its first line, `.csv` only) |
| Alipay.Identify | src/preciouss/importers/alipay.py:32-45 | an identified export carries the title (within its first lines, `.csv` only) |
| Alipay.TitleOnFirstLineIdentifies | src/preciouss/importers/alipay.py:32-45 | a `.csv` whose first line carries the title is identified |
| Alipay.CleanLineHasNoTab | src/preciouss/importers/alipay.py:64 | a cleaned line has no tab |
| Alipay.CleanLineKeepsTabFree | src/preciouss/importers/alipay.py:64 | a line without tabs is unchanged |
| Alipay.Body | src/preciouss/importers/alipay.py:58 | the lines after the three preamble lines, none when there are fewer |
| Alipay.Cleaned | src/preciouss/importers/alipay.py:61-64 | one cleaned line per line |
| Alipay.CleanedLines | src/preciouss/importers/alipay.py:61-64 | no tab survives; tab-free lines are unchanged |
| Alipay.CleanLines | src/preciouss/importers/alipay.py:61-64 | the cleaning loop computes `Cleaned` |
| Alipay.RowTransaction | src/preciouss/importers/alipay.py:128-144 | the row's time, signed amount and type |
| Alipay.ParseRow | src/preciouss/importers/alipay.py:77-144 | an accepted row has a trade number that is not the header's, a completed status, an amount that reads and a time one of the two formats reads |
| Alipay.AcceptedRow | src/preciouss/importers/alipay.py:89-117 | the time of the first format that reads it; the magnitude kept; 支出 an expense and never positive, 收入 income and never negative, 不计收支 a transfer, anything else `other` |
| Alipay.AcceptedRowFields | src/preciouss/importers/alipay.py:119-144 | the importer's account with no counter account, the trade number as reference, status and origin recorded, the origin as payment method when the fund status is empty |
| Alipay.RepeatedHeaderSkipped | src/preciouss/importers/alipay.py:80-82 | a repeated header row is skipped |
| Alipay.Extract | src/preciouss/importers/alipay.py:47-75 | the rows of the cleaned body, each kept when `_parse_row` accepts it, in order |
| Cmb.Head | src/preciouss/importers/cmb.py:49-141 | the first 500 characters, a prefix of the content |
| Cmb.DebitWithBankNameIsCredit | src/preciouss/importers/cmb.py:40-145 | a debit export that also names the bank is claimed by the credit importer too, as `交易日期` contains `交易日` |
| Cmb.IdentifyIgnoresTail | src/preciouss/importers/cmb.py:49-141 | nothing after the 500th character is looked at |
| Cmb.ThreeRemovals | src/preciouss/importers/cmb.py:78-162 | each removed character is gone after the three replacements |
| Cmb.AmountTextsClean | src/preciouss/importers/cmb.py:78-162 | neither cleaned amount keeps a yen sign of either width or a comma |
| Cmb.CreditType | src/preciouss/importers/cmb.py:86 | an expense exactly when the statement amount is positive, income otherwise (zero included) |
| Cmb.CreditTransaction | src/preciouss/importers/cmb.py:98-110 | the date, the statement amount negated and its type |
| Cmb.ParseCreditRow | src/preciouss/importers/cmb.py:56-110 | an accepted row has a date text that one of the three formats reads and an amount that reads after cleaning |
| Cmb.CreditSigns | src/preciouss/importers/cmb.py:84-100 | the amount is the statement amount negated; expenses are negative, incomes never negative |
| Cmb.CreditFields | src/preciouss/importers/cmb.py:88-110 | the importer's account, no counter account or references, the narration as payee, the row's card suffix else the configured one else "" |
| Cmb.DebitType | src/preciouss/importers/cmb.py:168 | income exactly when the amount is positive, an expense otherwise |
| Cmb.DebitTransaction | src/preciouss/importers/cmb.py:171-182 | the date, the amount as written and its type |
| Cmb.ParseDebitRow | src/preciouss/importers/cmb.py:147-182 | an accepted row has a `交易日期` that one of the three formats reads and an amount that reads after cleaning |
| Cmb.DebitSigns | src/preciouss/importers/cmb.py:161-182 | the amount keeps its sign, income exactly when positive, on the importer's account with the balance recorded |
| Cmb.IdentifyCredit | src/preciouss/importers/cmb.py:40-54 | an identified credit export names the trade date |
| Cmb.IdentifyDebit | src/preciouss/importers/cmb.py:133-145 | an identified debit export names the transaction date and the balance |
| Aldi.Categorize | src/preciouss/importers/aldi.py:64-71 | an item's account is the default or one of the keyword groups' |
| Aldi.RoastChickenLegIsRestaurant | src/preciouss/importers/aldi.py:15-48 | ready-to-eat food is tried first: 烤鸡腿 is a restaurant meal although it contains 鸡腿 |
| Aldi.IdentifyReadsFirstOrder | src/preciouss/importers/aldi.py:97-117 | only the first order decides identification |
| Aldi.IdentifyStoreText | src/preciouss/importers/aldi.py:112-115 | a string store is recognised exactly when it contains `ALDI` or `奥乐齐` |
| Aldi.ProductItem | src/preciouss/importers/aldi.py:135-144 | an item keeps the product's name, its count as `int()` reads it, its price, and its name's category |
| Aldi.CategorizeProducts | src/preciouss/importers/aldi.py:134-144 | the product loop converts every product, in order, or fails where Python raises |
| Aldi.ReadDetails | src/preciouss/importers/aldi.py:146-154 | the order code, store and payment amount as read; the channel only when non-empty; the discount only when the promotion is non-zero |
| Aldi.OrderExpense | src/preciouss/importers/aldi.py:156-166 | an expense of minus the payment amount on the importer's account |
| Aldi.ToTransaction | src/preciouss/importers/aldi.py:132-166 | the product loop and the reads compute `OrderTransaction` |
| Aldi.OrderFields | src/preciouss/importers/aldi.py:132-166 | minus the payment amount, expense, the ALDI payee, the order code as reference, the store as narration, one categorized item per product in order |
| Aldi.Completed | src/preciouss/importers/aldi.py:126-127 | the completed orders of the export, in order |
| Aldi.ExtractOrders | src/preciouss/importers/aldi.py:124-130 | never more transactions than orders |
| Aldi.ExtractConvertsCompleted | src/preciouss/importers/aldi.py:124-130 | extraction converts exactly the completed orders, in order, and fails when one of them does |
| Aldi.ExtractRejectsNonObject | src/preciouss/importers/aldi.py:125-126 | an order that is not an object makes extraction fail |
| Aldi.ExtractedAreExpenses | src/preciouss/importers/aldi.py:119-166 | every extracted transaction is an ALDI expense on the importer's account |
| Aldi.Extract | src/preciouss/importers/aldi.py:119-130 | the order loop computes `ExtractOrders`, and fails without an `orders` list |
| Aldi.ExtractStep | src/preciouss/importers/aldi.py:125-129 | one more order: skipped unless completed, else converted and appended |
| Aldi.NoneStays | src/preciouss/importers/aldi.py:125-129 | once an order raises, the whole extraction raises |
| Aldi.OrderTransaction | src/preciouss/importers/aldi.py:132-166 | a converted order is an expense on the importer's account with one item per listed product |
| Aldi.Identify | src/preciouss/importers/aldi.py:97-117 | an identified file decodes to an object with an `orders` member |
| Costco.Categorize | src/preciouss/importers/costco.py:50-57 | an item's account is the default or one of the keyword groups' |
| Costco.LaundryIsDailyGoods | src/preciouss/importers/costco.py:16-56 | group order decides: 洗衣 is daily goods although 衣 is a clothing keyword |
| Costco.UnknownItemIsGrocery | src/preciouss/importers/costco.py:47-57 | a name with no keyword falls back to groceries |
| Costco.DecodeItem | src/preciouss/importers/costco.py:117-125 | an item keeps the name, `int` of the amount, the unit price, and its name's category |
| Costco.ReadReceipt | src/preciouss/importers/costco.py:113-140 | the barcode, payment, items (one per listed item) and discount as read |
| Costco.ReceiptTransaction | src/preciouss/importers/costco.py:132-140 | an expense of minus the actual payment |
| Costco.DiscountMagnitude | src/preciouss/importers/costco.py:128-130 | the discount is recorded exactly when `cashDiscount` is truthy, as its magnitude |
| Costco.ReceiptFields | src/preciouss/importers/costco.py:113-140 | minus the actual payment, expense, the Costco payee, the barcode as reference, its characters 4 to 13 as counterpart reference, one item per listed item |
| Costco.Extract | src/preciouss/importers/costco.py:105-111 | at most one transaction, exactly one when `success` is truthy |
| Costco.ReadableIdentified | src/preciouss/importers/costco.py:87-134 | a `.json` file, in any letter case, that has `code` and `success` and whose `data` reads as a receipt is identified: identification asks for no key the reader does not need |
| Costco.DataToTransaction | src/preciouss/importers/costco.py:113-143 | a converted receipt is an expense on the importer's account, paid to Costco, with no counter account and a reference |
| Costco.Identify | src/preciouss/importers/costco.py:87-103 | an identified file decodes to an object whose `data` object has an `itemList` |

## Left out

- File reading is not modelled: `open`, chardet encoding detection, `json.load`, the CSV
  reader (`csv.DictReader` and the importers' key and value clean-up) and the pdfplumber
  table and word extraction of CITIC statements, including `_read_pdf`'s grouping of
  words into lines by `round(top / 4) * 4`. Importers start from already-split rows,
  decoded JSON values and extracted pages. The CSV reader is the parameter `readCsv`
  where an `extract` method hands it lines.
- `datetime.strptime` and `datetime.fromtimestamp` are parameters (`Rows.Strptime`,
  `WechatHK.FromTimestamp`) that either give a date as an `int` or fail. The only
  calendar arithmetic modelled is January 1 of a year (`Model.JanFirst`), for the CLI's
  year range.
- WechatHK.ParseRecord: a timestamp that `fromtimestamp` cannot convert is a skipped
  record here. Python skips only `ValueError` and `OSError` and lets an `OverflowError`
  escape.
- The `re` engine is not modelled. The categorizer's regex rules take a search
  predicate as a parameter (`Rules.RegexSearch`). The fixed patterns of the JD amount
  parser and the CITIC new-charge and statement-date extractors are written out as
  scanners. `\d` is taken to be the ASCII digits. `\w` is the ASCII letters, digits,
  the underscore and the CJK unified ideographs.
- Text.Lower: only ASCII capitals are folded, where Python's `str.lower` folds every
  cased letter. Merchant detection, keyword categorization and file-suffix checks
  inherit this.
- Cli.ImporterOutputName: `isupper`/`islower` are decided on ASCII letters only. Class
  names are ASCII identifiers.
- `Decimal` parsing covers an optional sign, digits, an optional fraction and
  surrounding whitespace. Exponents, `NaN`, `Infinity`, underscores and non-ASCII
  digits are read as invalid. Decimal context precision is not modelled: amounts are
  exact.
- JSON numbers are exact decimals. The float round-trip of `str(float)` is not
  modelled.
- Json.WholeNumber: the JD order quantity must be a whole JSON number, where Python's
  `int()` would also truncate a fractional one or parse a string.
- JdOrders.ReadOrder: an `order_id` that is not a string gives the purchase no
  reference id and the order is kept; Python keeps the raw value as the reference.
- Aldi.ReadDetails: a truthy `channel` that is not a string is dropped; Python stores
  it as it is.
- Other names, stores, codes and references read from JSON must be strings. Where
  Python would keep or format some other value, the model rejects the record.
- Numbers.Render: always prints plain notation and never a negative zero. Python's
  `str(Decimal)` switches to exponent notation when the adjusted exponent is below -6
  (`1E-7` rather than `0.0000001`) and keeps the sign of a zero (`-0.0`).
- Writer.FormatItem: inherits that difference through `Numbers.Render`, so an item total
  below 10^-6 or a negative zero total is written differently from Python's text.
- Costco.DecodeItem: converts `unitPrice` with `Decimal` when the receipt is imported.
  Python stores `str(unitPrice)` and converts it only in the writer, so a receipt with a
  price `Decimal` cannot read is rejected here but imported by Python. Python raises
  only if that receipt is later written, and never when it falls outside the year range.
- Aldi.ProductItem: converts `num` with `int()` and `price` with `Decimal` when the
  order is imported. Python stores both raw and converts them only in the writer, so the
  same difference applies.
- Aldi.Products: accepts only a JSON array. A `products` member that is `{}` or `""`
  iterates to nothing in Python, which imports an order without items; the model
  rejects it.
- Numbers.ParseInt: reads surrounding whitespace, a sign and ASCII digits only.
  Python's `int()` also accepts `_` between digits and non-ASCII decimal digits; the
  model rejects those (this affects `Cli.ParseYearRange` and `Json.IntOf`).
- `quantize` is the parameter `Rounding` in the allocator, and the exchange-rate
  rounding is the parameter `RateRounding` in the writer. Their half-even rounding is
  not modelled; the exact-sum and balance results do not depend on it.
- Writer.ForeignEntryWeights: a cross-currency entry does not balance exactly. Its
  weights miss zero by the amount times the rate's rounding error, and that is what the
  lemma states, since the source rounds the rate.
- The fuzzy similarity (`fuzz.token_sort_ratio`) is the parameter
  `Matching.Similarity`.
- `match_clearing` is not part of this model: it is called by the clearing-chain walk
  but defined in no importer shown. It is the parameter `ClearingLinks.Matcher`, assumed
  to return one of the candidates it is given. Its default behaviour (equal ids, then
  amount and date, with cross-currency equivalence) is not modelled.
- The clearing-chain walk finds the current transaction by object identity
  (`tx is current`). The model tracks that position as an index into the array.
- Logging is not modelled. CITIC's cycle-total mismatches are returned as a list
  (`Citic.Parse`) rather than logged.
- The Beancount side is not modelled: the `Transaction`/`Posting` types of beancount,
  the printer, the `filename`/`lineno` meta, writing the ledger file, `init_ledger` and
  `_validate_ledger`. Entries are a datatype of postings; balance is proved on it.
- The `counter_account` field is not declared by the `Transaction` of
  src/preciouss/importers/base.py shown, though every importer passes it and the writer
  reads it. The model includes it as an optional field.
- The click commands, the orchestration of `import_cmd` beyond the helpers modelled,
  and the `status`, `clear` and `fava` commands are not modelled. Neither are
  src/preciouss/config/schema.py, src/preciouss/matching/rules.py and
  src/preciouss/categorize/taxonomy.py, which are configuration and static tables.
- The `identify` methods are modelled on the file suffix and the decoded content or
  first 500 characters given as values. Reading the file, and the exceptions reading
  raises, are left out.
