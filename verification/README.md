# Aparajita's memtable, modelled and proved in Dafny

Aparajita is an ordered in-memory table for LSM engines. Keys live in a level-0 linked list
of nodes of up to fifteen keys. A node is append-only: a key is written once into a free
slot, and one 64-bit store of a packed permutation (the order word) publishes it. A full
node splits by publishing a whole new payload, contents and successor in one store. Above
level 0 a skip-list tower, and in each node header an 8-byte hint, only accelerate. Writers
lock one node; readers take no lock.

The project models this in two layers over a common base, and proves that each fast form
agrees with a simple one and that the concurrent protocol loses and doubles nothing.
`dafny verify dfyconfig.toml` checks all of it.

The comparator is never fixed. `Ordering.Traits` is a total order `compare` on entries with
`orderBytes`, and two optional promises: `HintPromise` (what `hint_ordering()` asserts) and
`Bytewise` (bytewise-smaller order bytes compare smaller). `StandaloneTraits` is one instance.

## The base

- `OrderWord` the packed permutation, on 64-bit vectors; `Surrogate` the order-preserving
  loads and `compare_keys`; `Kernels` the vector searches on sixteen 32-bit lanes.
- `Payloads` a node's payload as a value, with what fill and append make of it; `NodeDatas`
  the class with arrays and the order word, whose methods refine those values.
- `HeadLanes` where lane order ends, `HeadInputs` inputs past that end; `Arenas` the bump
  allocator.

## The concurrent machine

`Machine` is a state machine whose steps are the loads, stores, compare-exchanges and lock
operations of `insert_entry`, `contains_target` and a forward walk, for any number of
threads under any schedule; `Attained(t, n, s)` says that some schedule of n threads leads
to `s`. `Invariant` states what the shared structure keeps, what each thread knows at each
point, and the guarantee every step gives the other threads. `Mutations`, `Publishing`,
`NodeSplit`, `Descents`, `WriterSteps` and `ReaderSteps` prove the steps, `Stability` that
no thread disturbs another, `Safety` that every run keeps the invariant. `LevelZero`,
`Reachable`, `Occupancy`, `Returns`, `Locks`, `Hints` and `HeadSteps` hold what is true of
every run. `Progress` measures what is left of an operation, and `Alone` runs each operation
undisturbed to its end; `Scan` is the descent without its accelerators. `Levels` says what a
tower level is and what one store does to it, `LevelRuns` follows the levels over every run,
`LinkRuns` a link_tower undisturbed. `Solo` writes out runs of a lone writer, from which
`LostLookup` and `HeadRun` build the runs in which a comment fails.

`low`, `home`, `maker`, `chain`, `installed`, `published` and the counters in a thread are
history: no step's outcome depends on them. Only the assumption that inserted entries are
distinct mentions `published`.

## The single-writer table

`Quiet` runs the machine's own steps back to back, so that one append, one split and one
tower link become single transitions between states at rest. `Tables.MemTable` is the class
with its node pool, descents, in-place append and split, and best-effort tower linking;
`Cursors.Iterator` the two-way iterator; `Inspection` the walk of `check_invariants`, over
sound tables and broken ones. Their methods are proved against the sorted sequence of entries.

## Where the code and its comments differ

- A key off a node's alphabet is said to rank 0 or n. It ranks 0, or above every carrier of
  the prefix, and then last exactly when no key off the alphabet that came earlier lies above
  it (`OutsiderRank`; `OutsiderBetween` is an input in between).
- Lane order is claimed for every node. Nodes other than the head keep it (`LanesHold`), and a
  head never split does (`UnsplitHeadLanes`). In a split head a key below the range may take
  rank 0 without the stored prefix. `shares_prefix` compares later keys with it, and both
  branches of append can then store a lane out of order: the saturated one (`HeadLanesBreak`)
  and a surrogate (`HeadLanesBreakShared`). The machine reaches both (`LanesBreakInARun`). The
  lanes stay sorted exactly while every stored lane fits between its neighbours, for any
  append (`AppendSortedIff`), any run of appends (`AppendsSortedIff`) and every step of every
  run (`HeadLanesStep`); `OrdinaryAfterForeign` says when an ordinary key's does. Answers stay
  right whatever the lanes (`SortedPosition`).
- `check_invariants` reports a head whose rank-0 key took that rank without the prefix, even
  where its lanes are in order (`ReportedThoughSorted`, `SoundIffKeepPrefix`).
- `descend` returns the only node that may hold the key at the moment of its last load.
  `contains_target` then loads the payload again, and a split in between moves the upper half
  away: a lookup of a published key can answer false (`LookupCanMiss`). `LookupVerdict` states
  exactly when it answers true.
- link_tower may give a level up, and says that the node is then only missing from it. A
  sibling joined later behind such a node comes onto the level only if that node is on it:
  `LevelsStep` has the exact condition, which always holds where levels are nested, as they are
  while none is given up (`LinkAlone`).
- The iterator's comment says that the head is always empty. It is empty only before the
  first insert.

## Model

| member | source | states |
|---|---|---|
| OrderWord.CountOfDecoded | include/aparajita/node.hpp:108-110 | on every word that decodes to a permutation, the leading-zero formula is the number of ranks it names |
| OrderWord.SlotOfNibble | include/aparajita/node.hpp:97-101 | subtract before masking: a rank decodes to its nibble less one, and an unused rank, whose nibble is 0, to the padding slot 15 |
| OrderWord.SlotAfterInsert | include/aparajita/node.hpp:123-130 | after a splice at any rank, lower ranks keep their slot, the rank holds the new one, upper ranks move up by one |
| OrderWord.InsertDecodes | include/aparajita/node.hpp:123-130 | order_insert maps the word of a permutation (at most 14 ranks) to the word of the spliced permutation; unused ranks still decode to the padding slot |
| OrderWord.AppendsDecode | include/aparajita/node.hpp:123-130 | every run of appends from a well-formed word stays well-formed: the word decodes to the run of splices, and that is a permutation of the used slots |
| OrderWord.OrderIdentity | include/aparajita/node.hpp:113-119 | the loop builds the word of the identity order |
| OrderWord.DecodesInjective | include/aparajita/node.hpp:58-91 | the encoding is one to one: two words for the same order are equal |
| OrderWord.PermutationCovers | include/aparajita/node.hpp:78-88 | the used slots are exactly 0..count-1: each is named by some rank |
| Surrogate.ComputeSurrogate | include/aparajita/surrogate.hpp:29-36 | the loop computes the surrogate: byte for byte, from the top, the first four bytes of the zero-padded key |
| Surrogate.ComputeSurrogateAt | include/aparajita/surrogate.hpp:59-64 | the same from an offset: the four zero-padded bytes there, 0 past the end |
| Surrogate.SurrogateAtBytes | include/aparajita/surrogate.hpp:42-64 | every one of the four bytes of the surrogate at an offset is the zero-padded key's byte there |
| Surrogate.SameSurrogateIff | include/aparajita/surrogate.hpp:42-64 | past an offset two keys have one surrogate exactly when the four zero-padded bytes there agree |
| Surrogate.ComputeDescentHint | include/aparajita/surrogate.hpp:84-91 | the loop computes the hint: byte for byte, from the top, the first eight bytes of the zero-padded key |
| Surrogate.HintBytes | include/aparajita/surrogate.hpp:66-91 | every one of the eight bytes of a hint is the zero-padded key's |
| Surrogate.SameHintIff | include/aparajita/surrogate.hpp:66-91 | two keys have one hint exactly when their first eight zero-padded bytes agree |
| Surrogate.CompareKeysMeaning | include/aparajita/surrogate.hpp:109-119 | compare_keys is below zero exactly when the keys split at a first difference or a proper prefix in that direction |
| Surrogate.CompareKeysTotal | include/aparajita/surrogate.hpp:109-119 | compare_keys is a total order on byte strings, zero only on equal ones |
| Surrogate.SpelledOrder | include/aparajita/surrogate.hpp:66-83 | zero padding can only create ties: a smaller padded load means a smaller key, at any width |
| Surrogate.HintOrder | include/aparajita/surrogate.hpp:66-91 | for any two keys, differing descent hints order as compare_keys does |
| Surrogate.SurrogateOrder | include/aparajita/surrogate.hpp:42-64 | for keys agreeing on their first bytes, differing surrogates past them order as compare_keys does |
| Surrogate.CommonPrefixLen | include/aparajita/surrogate.hpp:95-102 | the loop finds the longest shared prefix |
| Surrogate.BetweenSharesPrefix | include/aparajita/surrogate.hpp:93-102 | everything between two keys carries the prefix those two share |
| Surrogate.OutsideIsAbove | include/aparajita/memtable.hpp:791-796 | a key off the prefix and above one carrier of it is above every carrier |
| Ordering.Traits.BytewiseKeepsHints | include/aparajita/memtable.hpp:68-76 | a bytewise-compatible comparator keeps the promise hint_ordering makes |
| Ordering.StandaloneKeepsPromises | include/aparajita/memtable.hpp:975-998 | the standalone policy is a total order, bytewise-compatible, and keeps the hint promise |
| Kernels.LowerBoundPermScalar | include/aparajita/search.hpp:261-274 | the rank walk returns the first rank whose lane is not below the key |
| Kernels.Avx512Counts | include/aparajita/search.hpp:278-313 | the masked 512-bit kernel counts the live lanes below the key |
| Kernels.Avx2Counts | include/aparajita/search.hpp:317-348 | the blended, sign-biased 256-bit kernel counts the live lanes below the key |
| Kernels.BiasedCompare | include/aparajita/search.hpp:320-323 | flipping the top bit of both sides makes the signed compare an unsigned one |
| Kernels.KernelsIgnoreUnpublishedLanes | include/aparajita/search.hpp:292-296 | the vector kernels do not depend on any lane at or above the count, where a writer may be storing |
| Kernels.KernelsAgree | include/aparajita/search.hpp:278-302 | with lanes sorted in rank order, both vector kernels return what the scalar walk returns |
| Kernels.LowerBoundPerm | include/aparajita/search.hpp:395-403 | whichever kernel is dispatched: on rank-sorted lanes the answer is the first rank not below the key |
| NodeDatas.NodeData.constructor | include/aparajita/memtable.hpp:593-603 | fresh_data: an empty payload, every lane EMPTY_KEY, no prefix, no successor |
| NodeDatas.NodeData.SharesNodePrefix | include/aparajita/memtable.hpp:797-806 | whether the bytes agree with the rank-0 key on the stored prefix |
| NodeDatas.NodeData.ConfirmCandidate | include/aparajita/memtable.hpp:824-847 | for any candidate a kernel may give and any lanes, a confirmed answer is the lower bound; with exact sorted lanes the confirmation cannot fail |
| NodeDatas.NodeData.BinarySearch | include/aparajita/memtable.hpp:849-857 | the comparator-only search returns the lower bound |
| NodeDatas.NodeData.SortedPosition | include/aparajita/memtable.hpp:808-858 | the lower bound, for arbitrary lanes and on every instruction set; the binary search does not run for a target on the alphabet of a node with exact lanes |
| NodeDatas.NodeData.Fill | include/aparajita/memtable.hpp:869-884 | the arrays and the word hold exactly the filled payload of the key run |
| NodeDatas.NodeData.Merge | include/aparajita/memtable.hpp:887-898 | the output is the run with the key spliced in at its lower bound |
| NodeDatas.NodeData.Append | include/aparajita/memtable.hpp:917-931 | in place: the payload becomes the old one with the key spliced into its run, its slot and lane written, nothing named before revised |
| Payloads.ConfirmedIsLowerBound | include/aparajita/memtable.hpp:842-846 | only the lower bound has both neighbours on the right sides |
| Payloads.FilledCarries | include/aparajita/memtable.hpp:860-884 | at build time every key of the run carries the stored prefix |
| Payloads.FilledLanes | include/aparajita/memtable.hpp:869-884 | a filled payload has exact lanes |
| Payloads.AppendedLanes | include/aparajita/memtable.hpp:900-931 | an append above rank 0 keeps every lane exact, under any comparator |
| Payloads.LanesSorted | include/aparajita/memtable.hpp:908-915 | exact lanes are sorted in rank order: carriers of the prefix first, then an upper block at EMPTY_KEY |
| Payloads.AppendedPrefixLong | include/aparajita/memtable.hpp:481-501 | appends only widen the range, so the frozen prefix stays at least as long as what first and last key share |
| NodeDatas.CandidateStart | include/aparajita/memtable.hpp:824-846 | with exact lanes the kernel count lands on the first lane not below the surrogate, with only smaller keys before it |
| HeadLanes.OutsiderRank | include/aparajita/memtable.hpp:789-796 | a key off the alphabet of a node with exact lanes ranks 0 or above every carrier of the prefix, and then last exactly when no earlier key off the alphabet lies above it; the lanes stay sorted |
| HeadInputs.OutsiderBetween | include/aparajita/memtable.hpp:789-796 | an input ranking strictly between 0 and n: tt00..tt07, then "zz", then "yy", whose rank is 8 of 9 |
| HeadLanes.AppendSortedIff | include/aparajita/memtable.hpp:917-931 | for every payload, every key and both branches of the lane computation: lanes are sorted after an append exactly when they were and the new lane fits between its neighbours |
| HeadLanes.SaturatedAppendSortedIff | include/aparajita/memtable.hpp:908-926 | the saturated lane keeps the lanes sorted exactly when its rank is 0 or n or the lane it is put before is saturated |
| HeadLanes.AppendsSortedIff | include/aparajita/memtable.hpp:917-931 | over any run of appends from any payload: the lanes end sorted exactly when they began so and every append stored a lane that fits |
| HeadLanes.AppendsKeepLanes | include/aparajita/memtable.hpp:900-931 | over any run of appends to any node holding a key, the head included: lanes stay exact while every key taking rank 0 carries the stored prefix |
| HeadLanes.UnstrippedAppends | include/aparajita/memtable.hpp:593-603 | over any run of appends to a payload that strips nothing, the fresh head included: lanes are exact |
| HeadLanes.OrdinaryAfterForeign | include/aparajita/memtable.hpp:797-806 | once a key off the prefix holds rank 0, a key that carries the prefix leaves the lanes sorted exactly when every key above it is saturated already |
| HeadLanes.ForeignSoundIff | include/aparajita/memtable.hpp:465-477 | a first key off the prefix passes the lane checks exactly when its own surrogate at the stored prefix is 0 or it is too short to have one, and every lane above it is saturated |
| HeadLanes.SoundIffKeepPrefix | include/aparajita/memtable.hpp:452-477 | over any run of appends from exact lanes not all saturated: the lane checks of check_invariants pass at the end exactly when every key that took rank 0 carried the stored prefix |
| HeadInputs.HeadLanesBreak | include/aparajita/memtable.hpp:804-805 | the first counterexample: in the head after tt00..tt15 and "aaaa", the key "tt035" carries the prefix, is judged not to, and its saturated lane breaks the lane order while the keys stay in order |
| HeadInputs.HeadLanesBreakShared | include/aparajita/memtable.hpp:797-806 | the second, through the other branch: there "aaab" agrees with the wrong first key, is judged on the alphabet, and its surrogate breaks the lane order |
| HeadInputs.ReportedThoughSorted | include/aparajita/memtable.hpp:465-477 | after "aaaa" alone keys and lanes are in order, yet a lane is not its key's own |
| Descents.ProbeSound | include/aparajita/memtable.hpp:617-628 | any load of starts_at_or_below, by hint or by comparator, among any other threads: where it decides, it answers whether the node starts at or below the key |
| Descents.DescentSound | include/aparajita/memtable.hpp:617-656 | any load of a descent, among any other threads, leaves it at a node starting at or below the key; where it ends, the payload last loaded links above the key |
| WriterSteps.StepLoadingNextOrder | include/aparajita/memtable.hpp:779-786 | belongs_here decides as the comparator on the successor's first key, and refuses only if the chain grew since the level-0 load |
| Publishing.PublishAppend | include/aparajita/memtable.hpp:917-931 | append's order store keeps the shared invariant and what every other thread relies on |
| NodeSplit.PublishSplit | include/aparajita/memtable.hpp:937-962 | the payload swap of a split keeps the shared invariant and what every other thread relies on: contents and successor change at once |
| WriterSteps.StepWriter | include/aparajita/memtable.hpp:222-266 | every step of insert_entry from every point of it keeps the shared invariant, the guarantee to other threads and its own assertion; that the insert gets done is InsertDone and StepsLower |
| WriterSteps.StepLink | include/aparajita/memtable.hpp:756-777 | every load, store and compare-exchange of link_tower, spurious failures included, keeps the shared invariant, the guarantee and its own assertion; what it does to the levels is LevelsStep |
| ReaderSteps.StepReader | include/aparajita/memtable.hpp:268-279 | every step of a lookup keeps its assertion |
| ReaderSteps.StepWalker | include/aparajita/memtable.hpp:302-319 | every step of a forward walk keeps its assertion; that the walk gets on is StepsLower |
| ReaderSteps.Coverage | include/aparajita/memtable.hpp:630-633 | a published entry at or above a node's first key is named by the payload the node holds or lies at or above its successor's first key |
| Stability.StableThread | include/aparajita/memtable.hpp:94-112 | whatever one thread does, the assertion of every other thread, wherever it stands, survives |
| Safety.StepKeepsInv | include/aparajita/memtable.hpp:222-266 | one step of any thread keeps the invariant of the structure and of all threads |
| Safety.RunInv | include/aparajita/memtable.hpp:1-32 | the invariant holds in every state of every schedule of any number of threads |
| LevelZero.LevelZeroExact | include/aparajita/memtable.hpp:937-962 | in every reachable state, between the two stores of a split too, level 0 reads from the head strictly increasing and as exactly the inserts past their publishing store: none lost, none doubled |
| LevelZero.StepConserves | include/aparajita/memtable.hpp:917-962 | level 0 changes at append's order store and at the payload swap only, where it gains the writer's key in its place |
| Returns.InsertReturns | include/aparajita/memtable.hpp:225-266 | in every reachable state, whichever step lets an insert return, its key is published by then |
| Returns.InsertDone | include/aparajita/memtable.hpp:222-266 | one insert from call to return among any other threads: its key was not there when it began, and level 0 reads it exactly once when it has returned |
| Returns.ReadersDone | include/aparajita/memtable.hpp:268-319 | no lookup returns without an answer, no walk before its end |
| Progress.StepsLower | include/aparajita/memtable.hpp:222-319 | in every reachable state every step of a thread that stands before no held lock lowers a measure of what is left of its operation: insert, lookup or walk |
| Progress.OthersRaise | include/aparajita/memtable.hpp:222-319 | another thread's step leaves that measure alone, but for the payload swap of a split, which raises it by one node's worth at most |
| Alone.InsertAlone | include/aparajita/memtable.hpp:222-266 | from any reachable state with no lock held, an insert nobody disturbs returns with its key published, even if every compare-exchange fails |
| Alone.LookupAlone | include/aparajita/memtable.hpp:270-279 | from any reachable state a lookup nobody disturbs answers exactly whether the key is published |
| Alone.WalkAlone | include/aparajita/memtable.hpp:302-319 | from any reachable state a walk nobody disturbs ends, having yielded the whole of level 0 in order |
| Reachable.WalkComplete | include/aparajita/memtable.hpp:302-319 | a forward walk among concurrent appends and splits yields strictly increasing inserted keys, and once ended (StepsLower says it gets there) every key published before it began |
| Reachable.LookupVerdict | include/aparajita/memtable.hpp:270-279 | a concurrent lookup never reports a key not inserted; a key published before the call is reported exactly when the reloaded payload does not link to a node starting at or below it, which is certain when the node was not split since descend's last load |
| LostLookup.LookupCanMiss | include/aparajita/memtable.hpp:272-273 | for any sixteen ascending keys under any comparator there is a run of two threads in which a lookup of a key published before it answers false |
| Reachable.RetriesBounded | include/aparajita/memtable.hpp:225-252 | one insert's retries are at most the splits committed during it |
| Reachable.RefusalMeansSplit | include/aparajita/memtable.hpp:247-252 | a failed belongs_here means the chosen node's payload was replaced between the level-0 load and the lock |
| Reachable.TowersLeadForward | include/aparajita/memtable.hpp:756-777 | in every reachable state each tower pointer of a node on level 0, the head included, leads to a node on level 0, further along, with a strictly greater first key |
| LevelRuns.LevelsStep | include/aparajita/memtable.hpp:756-777 | over every step of every run nothing leaves a tower level, and a node comes onto one only by a successful compare-exchange: the sibling, exactly if the node it was joined behind is on the level |
| LevelRuns.LevelsForever | include/aparajita/memtable.hpp:756-777 | over every run a node on a tower level stays on it |
| LevelRuns.ExchangeLinks | include/aparajita/memtable.hpp:769-773 | after a successful compare-exchange pred leads to the sibling, the sibling where pred led before, and no other pointer has changed |
| Levels.LevelAscends | include/aparajita/memtable.hpp:729-742 | the nodes met along a tower level are a subsequence of level 0 |
| LinkRuns.LinkAlone | include/aparajita/memtable.hpp:756-777 | link_tower undisturbed and without spurious failures: on every level 1..height-1 some node leads to the sibling and the sibling where that node led, nothing else changed; nested levels stay nested, gain the sibling and lose nothing |
| LinkRuns.InsertClimbs | include/aparajita/memtable.hpp:222-266 | the same for a whole undisturbed insert: a node it adds to level 0 has the height chosen and has been linked on every level below it; without one no pointer changes |
| Reachable.FirstKeyForever | include/aparajita/memtable.hpp:169-176 | over every run a published non-head node keeps its first key and its hint |
| Reachable.HintsNeverHigh | include/aparajita/memtable.hpp:564-587 | where hints are consulted: in every intermediate state of append and split, a node's hint is at most that of its current first key |
| Hints.HintsOneStoreAhead | include/aparajita/memtable.hpp:503-507 | consulted or not, in every reachable state a node's hint is that of its first key, unless it is the head and its lock's owner stands at the publishing store that makes it exact |
| Locks.LocksOwned | include/aparajita/memtable.hpp:239-252 | in every reachable state a node's lock is held by a thread exactly when that thread stands in its critical section for the node: no orphaned lock, no two threads inside |
| Locks.WaitsForAMover | include/aparajita/memtable.hpp:239-252 | a waiting insert waits for another thread that does not wait and whose every step goes on: no deadlock |
| Solo.InsertsByAppend | include/aparajita/memtable.hpp:917-931 | a lone insert into a node with room comes to rest with exactly that append made, every field of the structure given |
| Solo.InsertsBySplit | include/aparajita/memtable.hpp:937-962 | a lone insert into a full node comes to rest with exactly that split made |
| Reachable.LanesHold | include/aparajita/memtable.hpp:900-926 | in every reachable non-head node, under a bytewise-compatible comparator, lanes are exact and sorted in rank order |
| Reachable.UnsplitHeadLanes | include/aparajita/memtable.hpp:492-494 | in every reachable state a head never split strips nothing and has exact, sorted lanes |
| HeadSteps.HeadLanesStep | include/aparajita/memtable.hpp:917-962 | over every run the head's lanes: an append's order store leaves them sorted exactly when they were and its lane fits, the payload swap makes them exact, no other step of any thread changes whether they are sorted |
| HeadRun.HeadReaches | include/aparajita/memtable.hpp:222-266 | under any comparator: after any sixteen ascending inserts and then any fewer than eight keys below the ninth, a reachable head holds its filled left half with exactly those keys appended |
| HeadRun.LanesBreakInARun | include/aparajita/memtable.hpp:908-926 | both counterexamples are reachable states of the machine |
| Reachable.PrefixHolds | include/aparajita/memtable.hpp:481-501 | the stored prefix is never shorter than what first and last key share, except in a head never split |
| Reachable.CandidateConfirmed | include/aparajita/memtable.hpp:808-847 | on any reachable non-head node the kernel count of a prefix-sharing target is a start from which the comparator confirms |
| Occupancy.NodesHalfFull | include/aparajita/memtable.hpp:937-949 | once a split is published every node holds 8 to 15 keys |
| Occupancy.SplitsBounded | include/aparajita/memtable.hpp:256-261 | N published inserts have caused at most N/8 - 1 splits |
| Occupancy.AllocationExact | include/aparajita/memtable.hpp:939-949 | with s splits published and k under way there are 1+s+k nodes and 1+2(s+k) payloads: appends allocate neither |
| Scan.LoadsDrop | include/aparajita/memtable.hpp:634-656 | every load of a descent lowers a bound on the loads left: hops only go further along level 0, so tower walks end |
| Scan.DescentIsScan | include/aparajita/memtable.hpp:630-656 | for any tower satisfying the forward invariant, however many links are missing, a descent ends, and at the node a comparator-only scan of level 0 ends at |
| Quiet.ContentsGain | include/aparajita/memtable.hpp:222-266 | publishing one fresh key splices it into the contents |
| Quiet.HintsExact | include/aparajita/memtable.hpp:503-507 | between operations every node's hint, the head's too, is that of its first key |
| Tables.MemTable.constructor | include/aparajita/memtable.hpp:208-213 | an empty table: a head of full height |
| Tables.MemTable.StartsAtOrBelow | include/aparajita/memtable.hpp:617-628 | hint or comparator, the answer is whether the node starts at or below the key |
| Tables.MemTable.StartsStrictlyBelow | include/aparajita/memtable.hpp:694-704 | the same, strictly |
| Tables.MemTable.Descend | include/aparajita/memtable.hpp:634-656 | towers then links: it returns the node of the comparator-only scan, where the key belongs |
| Tables.MemTable.PredAtLevel | include/aparajita/memtable.hpp:729-742 | a node starting at or below the key whose successor on that level starts above it, come upon along a level at or above that one; where levels are nested it is on the level |
| Tables.MemTable.PredNode | include/aparajita/memtable.hpp:665-692 | the node just before on level 0; none for the head |
| Tables.MemTable.LastNode | include/aparajita/memtable.hpp:707-725 | the last node on level 0 |
| Tables.MemTable.BelongsHere | include/aparajita/memtable.hpp:779-786 | whether the successor, if any, starts above the key |
| Tables.MemTable.ContainsTarget | include/aparajita/memtable.hpp:270-279 | membership among the entries by the comparator's equality |
| Tables.MemTable.Append | include/aparajita/memtable.hpp:917-931 | the table stays sound and the key is published, every node keeping its payload object: nothing is allocated |
| Tables.MemTable.SplitAndInsert | include/aparajita/memtable.hpp:937-962 | the table stays sound with the key published and one node more, linked as link_tower does; new objects are fresh |
| Tables.MemTable.LinkTower | include/aparajita/memtable.hpp:756-777 | whichever exchanges fail: nothing but towers changes and the entries are the same; for a sibling no pointer leads to yet, on each level some node leads to it and it where that node led, unless all eight attempts failed, and then nobody else's pointer there changed; with no level given up nested levels gain the sibling and lose nothing |
| Tables.MemTable.InsertEntry | include/aparajita/memtable.hpp:222-266 | the entries become the old ones with the key spliced in at its lower bound; a node added is linked into its towers |
| Cursors.SeekIsLowerBound | include/aparajita/memtable.hpp:328-333 | the search in the chosen node finds the lower bound among all entries |
| Cursors.Iterator.Key | include/aparajita/memtable.hpp:300 | the entry at the cursor |
| Cursors.Iterator.Next | include/aparajita/memtable.hpp:302-305 | one entry on, or off the end |
| Cursors.Iterator.Prev | include/aparajita/memtable.hpp:307-313 | one entry back, across nodes too, or off the front |
| Cursors.Iterator.SeekToFirst | include/aparajita/memtable.hpp:315-319 | the first entry, or none |
| Cursors.Iterator.SeekToLast | include/aparajita/memtable.hpp:321-325 | the last entry, or none |
| Cursors.Iterator.Seek | include/aparajita/memtable.hpp:327-333 | the least entry at or above the target, or none |
| Cursors.Iterator.SeekForPrev | include/aparajita/memtable.hpp:335-345 | the greatest entry at or below the target, or none |
| Cursors.PrevUndoesNext | include/aparajita/memtable.hpp:302-313 | next then prev returns to the same entry |
| Cursors.Size | include/aparajita/memtable.hpp:406-412 | a full walk counts the entries |
| Inspection.CheckWalk | include/aparajita/memtable.hpp:430-522 | over any quiesced pool whose level 0 comes to an end, however broken its words, keys, lanes, prefixes and hints: clean exactly when every node and every border between nodes is sound, and otherwise the finding of the first place that fails |
| Inspection.CheckNode | include/aparajita/memtable.hpp:438-511 | the finding on any node, sound or not, is that of the first check failing in the order of the code: too many keys; the first rank naming an unfilled or a repeated slot; the first rank out of key or lane order; the first lane that is not its key's own (a key on the alphabet) or not saturated (off it); a prefix too short; a hint that is not the first key's |
| Inspection.OneFinding | include/aparajita/memtable.hpp:438-511 | no node fits two findings |
| Inspection.CheckInvariants | include/aparajita/memtable.hpp:430-522 | on a sound table the walk is clean exactly when every node's lanes and prefix pass, and otherwise reports of the first node that fails; of all findings only the four on lanes and prefixes can occur |
| Inspection.HeadDecides | include/aparajita/memtable.hpp:414-429 | under a bytewise-compatible comparator no node but the head can fail the walk, and the head only by its lane checks; a head never split passes, and so does one with exact lanes |
| Arenas.RoundUp | include/aparajita/arena.hpp:40 | the least multiple of the alignment at or above the size |
| Arenas.AllocatedSound | include/aparajita/arena.hpp:39-52 | one call keeps every block aligned, inside its chunk and apart from all others |
| Arenas.ArenaSound | include/aparajita/arena.hpp:39-52 | over every sequence of calls: blocks aligned, inside their chunk, pairwise disjoint, and the usage counter the sum of the rounded sizes |
| Arenas.AllocatedBumps | include/aparajita/arena.hpp:39-52 | a chunk is opened only when no aligned place at or above the bump offset holds the rounded size in the current one: then one of that size or 64 KiB, the block at its base; otherwise the block starts at the least such place |
| Arenas.Arena.Allocate | include/aparajita/arena.hpp:39-52 | the bump method returns the start of the new block, which is where the last row says, and leaves exactly the specified state |
| Arenas.Arena.NewChunk | include/aparajita/arena.hpp:83-89 | a new chunk becomes the current one, empty |
| Arenas.Arena.MemoryUsage | include/aparajita/arena.hpp:67-70 | the sum of the rounded sizes handed out |

## Left out

- Weak memory: threads interleave sequentially consistently, and acquire and release have only that meaning.
- Lock waiting: a lock is mutual exclusion, a failed attempt a step that changes nothing; spinning, pausing, yielding and fairness are not modelled, so an insert may wait for ever for a lock that others keep taking.
- Duplicates: entries are distinct under the comparator, as sequence numbers make them; an insert of an entry equal to a published or pending one does not begin.
- Plain fields frozen when they become visible (keys and lanes of named slots, prefix, successor, height) are read in the same step as the load that makes them visible.
- Private memory: create_node, the two fresh payloads and the two fills are one step of the machine, since no other thread can reach them; the class methods perform them store by store.
- `random_height`: the height is any value from 1 to 12; no claim depends on its distribution.
- Entry and Target are one type, as in both policies the repository has.
- Reverse iteration and seeks under concurrent writers: `seek` and `skip_backward` reload a payload after choosing a node exactly as a lookup does; only lookups and forward walks are steps of the machine.
- Shares: where the head's rank-0 key is shorter than the stored prefix the source compares past its end; the model answers that the prefix is not shared. A non-head node's rank-0 key always carries the prefix.
- Tables.MemTable: nodes are entries of an indexed pool, reassigned as values, and carry no lock word; payloads are objects mutated in place.
- Tables.MemTable.Append: the hint is stored after the order word, since with one writer the two stores cannot be told apart; the machine has them in the order of the code.
- Tables.MemTable.InsertEntry: the retry after a refused belongs_here is proved never to be taken by a single writer; the machine has it.
- LookupVerdict: conditional on where the reloaded payload links, because the unconditional form is false (LookupCanMiss).
- Vector instructions are functions on sixteen lanes; instruction-set detection is a parameter, and dead lanes are never read.
- Inspection.CheckWalk: the pool may be broken in every way but two: level 0 comes to an end (on a cycle the source does not return), and every node has its two arrays of sixteen.
- Sizes are unbounded naturals: overflow of `size_t`, of `prefix_len` beyond 32 bits and of the arena's counters is not modelled; the arena's masks with align - 1 are remainders, for alignments up to 64.
- The system allocator is an input to the arena: some 64-byte aligned range that overlaps no live chunk. The arena's mutex makes each call one step.
- The equality kernels `search_*`, which the table does not call, and the node-level kernels without an order word: they would add only easy members.
- The RocksDB plugin, its factory and comparator detection, benchmarks, workload generators and scripts.
