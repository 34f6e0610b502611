# Verified models of the trading toolkit

Dafny models of the parts of the repository where correctness is subtle, with proofs. One file is one
component.

| file | models |
|---|---|
| `StringMap.dfy` | the byte trie: nodes with no child, one child or a resizable table |
| `SnapshotMerge.dfy` | the fixed-depth merge of two order books |
| `Md5.dfy`, `Md5Known.dfy` | the streaming hash, with the shift table the code has; one digest worked out |
| `TokenLedger.dfy`, `CtpOrder.dfy` | the close-token ledger, and the classes that drive it from two threads |
| `Strategy.dfy` | the order life cycle of the moving-average strategy |
| `AdaBoost.dfy` | the boosting trainer |
| `SharedMemory.dfy` | the two-flag handshake and the one-slot mailbox |
| `SnapshotText.dfy` | the text form of a market snapshot: printer, splitter and reader |

Classes and loops of the source are classes and loops here. Each method is proved against a function
of its inputs or of the old state, and the results about whole runs are lemmas about those functions.

`dafny verify dfyconfig.toml` checks everything.

## What is proved, and what turned out false

* **Trie.** The map that a plain `map<seq<byte>, V>` would be, over any history of operations and any
  growth of the tables; one node for each prefix of a stored key and no other; the shortest stored
  prefix for a query.
* **Book merge.** The merged bids are always the N best of the summed sizes; they commute and associate,
  and a dead book is a unit. The merged *asks* are not and do not: when a bid level finds no room,
  `continue` skips the ask level of the same depth (snapshot_util.h:20-22), so the best ask can be lost
  (`BestAskLost`), which book is merged into which matters (`AsksDoNotCommute`), and so does the
  grouping (`AsksDoNotAssociate`). `AsksAreTopIff`, `AsksCommuteIff` and `AsksAssociateIff` give the
  exact conditions, in terms of the books that are merged. Prices in ticks of a millionth or more meet
  what these laws ask (`TicksAreGrid`). Live levels stay EPS apart, and a good book
  stays good until it crosses, exactly when the stale prices in the dead slots are spaced as well
  (`SpacingKeptIff`, `StaysGoodIff`).
* **Hash.** One digest is the fold of the compression over the padded message; input may come in any
  pieces; padding is injective; the 64 steps are a bijection, and the digest of "abc" is worked out
  (`DigestOfAbc`). When 56 bytes or more are in the buffer, `getDigest` overwrites them with padding, so that the second digest can be
  that of another message (`SecondDigestDiffers`). `UnclobberedIff` and `SecondDigestIff` say exactly
  when it is, and `DigestsSettle` that all digests from the second on agree.
* **Tokens.** In every interleaving of the two threads, strategy restarts included, no token count is
  negative, although the test is made outside the lock. Tokens + close orders out + what is withheld
  = position held at every moment of a run if and only if no credit is given that is not owed
  (`AlwaysBalancedIff`); `DecisionBalancedIff` names the test that goes wrong. Then close orders never
  exceed the position. A restart can make it go wrong only between a callback's lookup of its order and
  its test of the mark (`SafeRestarts`), and there it can: `RestartOverdraws` closes more than is held.
  Calls that do not interleave are always safe (`CallsNeverOverdraw`, `Desk`). An insert that dies while
  only submitted is not credited (listener.cpp:204-207), nor is an order whose callback is dropped, and
  a refused insert never gets its tokens back (message_sender.cpp:173-183): these only withhold. A close
  lost that way stays lost (`LostForGood`, `RefusalLoses`), and without a restart `FreshBalance` states
  the loss exactly.
  `PartialFillsMatchIff` says when partial fills are counted right.
  What the strategy is told agrees with the ledger (`Desk.Replay`).
* **Strategy.** Every report does to its order, and sends, what its law says and nothing more
  (`CancelReport` and the others). Every event moves main position + hedge position + live hedge orders by an exact
  drift, which is zero if and only if the event is benign (`ExposureKeptIff`); over benign runs it is
  constant.
* **Boosting.** For any rules and alphas, the training error, of the accumulated prediction and of
  `Judge`, is at most the product of the normalisers. With the alphas of the code its square is at
  most the product of `Gain`, which is below 1 unless the rule is at chance; `TrainedGain` says it of
  what the training loop returns.
* **Shared memory.** Mutual exclusion and freshness from the flags the constructor sets; both sides
  are stuck exactly when both wait, and a run gets there exactly when one side calls while the other
  waits (`RunSticksIff`); on a segment whose flags were never set (`Create` and `Connect` do not set
  them) no call gets through.
* **Snapshot text.** A printed line shows the levels asked for (`EveryLevelShown`). A printed market update of depth at least 1 reads back; a trade update, or depth
  0, makes the reader run past its words (`ReadableIff`).

Where documentation and code differ the code is followed: the round-1 rotations are 17, 7, 22, 12
(md5.h:22-25), so the digests are not those of RFC 1321, section 3.4.

## Assumptions

* Memory is sequentially consistent, and a read or write of a flag, of one map or of one character is
  one step. `RegisterToken`, which takes no lock, is one step too. In the token ledger two accesses are
  one step in two places: the registration of a reference writes both id maps (token_manager.h:30-36),
  and a callback's test reads the id and then its close mark (token_manager.h:95-96, 110-111).
* Token ledger: an order is filled once and whole, or dies once, and callbacks come for issued ids only.
  Sizes are positive and -1, the answer for a reference not found, is no reference.
* Strategy: `TradeClose` and the price tests are parameters of an event, and `AddCloseOrderSize` is any
  change of the main orders that keeps references, contracts and sides. Main and hedge contract differ.
* Boosting: the exponential is any function with `ExpLaws`, the logarithm its inverse on positive
  numbers. Numbers are real.
* Snapshot text: printing and reading of floating-point numbers are parameters, for which
  `Printable` and `Survives` ask that the numbers of the one snapshot print as words and read back.
* Hash: each input is shorter than 2^32 - 64 bytes, as the 32-bit index arithmetic of `init` needs.

## Model

| member | source | states |
|---|---|---|
| `StringMaps.Node.ExpandTable` | `backend/src/zshared/string_map.h:213-251` | making room for one more byte value keeps what every byte value leads to, whether the node had no child, one child, or a table grown up or down |
| `StringMaps.Node.Get` | `backend/src/zshared/string_map.h:186-210` | returns what the map holds for the key |
| `StringMaps.Node.Step` | `backend/src/zshared/string_map.h:190-204` | the step of a lookup finds exactly the child under the byte, although the one-child case takes its child unchecked |
| `StringMaps.Node.MatchPrefix` | `backend/src/zshared/string_map.h:155-184` | returns the value of the first non-empty prefix of the query that is stored, or nothing |
| `StringMaps.Node.Add` | `backend/src/zshared/string_map.h:94-121` | the map gains exactly the given key and value, and the tree stays wired and lean |
| `StringMaps.Node.Descend` | `backend/src/zshared/string_map.h:97-113` | one step down, growing the node where needed, reaches the node of the longer prefix and stores nothing |
| `StringMaps.Node.Remove` | `backend/src/zshared/string_map.h:123-153` | the map loses exactly the key, and the answer says whether it was there |
| `StringMaps.Node.RemoveBelow` | `backend/src/zshared/string_map.h:129-152` | removal below a child, and the child's own removal when it became redundant, change no other key |
| `StringMaps.Node.Prune` | `backend/src/zshared/string_map.h:141-150` | unhooking a redundant child leaves the contents alone and the counters right |
| `StringMaps.StringMap.constructor` | `backend/src/zshared/string_map.h:17-19` | starts empty |
| `StringMaps.StringMap.Clear` | `backend/src/zshared/string_map.h:24-27` | leaves the empty map |
| `StringMaps.StringMap.Get` | `backend/src/zshared/string_map.h:29-37` | agrees with the plain map, present or not |
| `StringMaps.StringMap.MatchPrefix` | `backend/src/zshared/string_map.h:39-41` | the value of the shortest non-empty stored key that is a prefix of the query up to its terminator; none exactly when there is none |
| `StringMaps.StringMap.Add` | `backend/src/zshared/string_map.h:43-51` | a plain map update |
| `StringMaps.StringMap.Remove` | `backend/src/zshared/string_map.h:53-55` | a plain map removal, with the right answer |
| `StringMaps.StringMap.Index` | `backend/src/zshared/string_map.h:57-71` | the value of the key, inserting a default one if it was absent |
| `StringMaps.StringMap.Replay` | `backend/src/zshared/string_map.h:14-71` | after any sequence of operations the contents are the fold of their effects on a plain map |
| `StringMaps.LastTouchDecides` | `backend/src/zshared/string_map.h:24-71` | after any history a key holds what the last operation that touched it left, whatever happened to other keys |
| `StringMaps.FirstPrefixIsShortest` | `backend/src/zshared/string_map.h:155-184` | the first stored prefix met on the way down is the shortest one, and there is none exactly when none is stored |
| `StringMaps.NodesArePrefixes` | `backend/src/zshared/string_map.h:123-153` | in every reachable tree the nodes below the root are exactly the non-empty prefixes of stored keys, one each |
| `StringMaps.StoreKeepsTree` | `backend/src/zshared/string_map.h:115-120` | storing a value at a node keeps the whole tree consistent |
| `StringMaps.GrowKeepsTree` | `backend/src/zshared/string_map.h:97-113` | hanging a new node into the tree keeps it consistent |
| `StringMaps.EraseKeepsTree` | `backend/src/zshared/string_map.h:123-129` | erasing a value keeps the tree consistent but for one node that may be redundant |
| `StringMaps.PruneKeepsTree` | `backend/src/zshared/string_map.h:141-150` | removing a redundant node makes the tree lean again, up to its parent |
| `StringMaps.KeyBelow` | `backend/src/zshared/string_map.h:253-255` | below every node of a lean tree there is a stored key |
| `SnapshotMerge.Find` | `backend/src/common_bk/snapshot_util.h:13-19` | the first slot that is dead or not better than the price by more than EPS |
| `SnapshotMerge.InsertKeepsTop` | `backend/src/common_bk/snapshot_util.h:11-34` | one insertion with shift, tolerance and truncation keeps a side the top N of the sizes summed so far |
| `SnapshotMerge.MergeHolds` | `backend/src/common_bk/snapshot_util.h:10-59` | merging a whole side keeps it the top N of the sum, and a level cut off never comes back with part of its size |
| `SnapshotMerge.SideIsTop` | `backend/src/common_bk/snapshot_util.h:10-59` | the merged side lists exactly the N best prices of the pointwise sum, with its sizes, best first |
| `SnapshotMerge.TopIsUnique` | `backend/src/common_bk/snapshot_util.h:10-59` | there is only one such list |
| `SnapshotMerge.MergeCommutes` | `backend/src/common_bk/snapshot_util.h:11-34` | one side: merging two sides either way round gives the same live levels |
| `SnapshotMerge.MergeAssociates` | `backend/src/common_bk/snapshot_util.h:11-34` | one side: grouping does not matter, in spite of truncation |
| `SnapshotMerge.MergeUnit` | `backend/src/common_bk/snapshot_util.h:11-34` | one side: the empty side is the unit |
| `SnapshotMerge.MergeDead` | `backend/src/common_bk/snapshot_util.h:11-12` | dead levels of the side merged in have no effect |
| `SnapshotMerge.CutIsHarmless` | `backend/src/common_bk/snapshot_util.h:13-33` | truncating before a merge does not change the top N after it |
| `SnapshotMerge.MergeBySide` | `backend/src/common_bk/snapshot_util.h:10-59` | the merged bids depend on the bids alone; the merged asks are those of the ask levels that were heard |
| `SnapshotMerge.BidsAreTop` | `backend/src/common_bk/snapshot_util.h:11-34` | the bid side of the merge is the top N of the sum |
| `SnapshotMerge.TicksAreGrid` | `backend/src/common_bk/wanli_util.h:68` | whole multiples of a tick of a millionth or more are equal or clearly apart |
| `SnapshotMerge.TickSideIsTop` | `backend/src/common_bk/snapshot_util.h:10-59` | so, with prices in such ticks, a merged side lists exactly the N best prices of the sum |
| `SnapshotMerge.TickBidsAreTop` | `backend/src/common_bk/snapshot_util.h:7-61` | and so do the bids of whole books |
| `SnapshotMerge.TickedArePaired` | `backend/src/common_bk/snapshot_util.h:7-61` | two books in such ticks meet what the laws of commuting and associating ask of prices |
| `SnapshotMerge.ToleranceIs` | `backend/src/common_bk/snapshot_util.h:13-33` | within a hundred-millionth of a live level the size is added there; beyond that a better price is a level of its own |
| `SnapshotMerge.SkipsByRank` | `backend/src/common_bk/snapshot_util.h:20-22` | an ask level is skipped exactly when the bid of its depth ranks below N in the sum |
| `SnapshotMerge.AsksAreTopIff` | `backend/src/common_bk/snapshot_util.h:20-58` | the ask side is the top N of the sum if and only if every skipped ask level ranks below N there |
| `SnapshotMerge.BestAskLost` | `backend/src/common_bk/snapshot_util.h:20-22` | two books whose merge loses the best ask |
| `SnapshotMerge.BidsCommute` | `backend/src/common_bk/snapshot_util.h:7-61` | whole books: the merged bids are the same whichever book is merged into the other |
| `SnapshotMerge.BidsAssociate` | `backend/src/common_bk/snapshot_util.h:7-61` | whole books: the merged bids do not depend on the grouping |
| `SnapshotMerge.DeadBookIsUnit` | `backend/src/common_bk/snapshot_util.h:7-61` | whole books: a book without live levels is a unit on either side, asks included |
| `SnapshotMerge.AsksDoNotCommute` | `backend/src/common_bk/snapshot_util.h:20-22` | two books whose merged asks differ: one order keeps the best ask, the other loses it |
| `SnapshotMerge.AsksCommuteIff` | `backend/src/common_bk/snapshot_util.h:7-61` | the merged asks are the same both ways round if and only if the asks of one book with the heard asks of the other add up to the same sizes at every price that ranks among the first N of either sum |
| `SnapshotMerge.AsksCommuteIfHeard` | `backend/src/common_bk/snapshot_util.h:20-22` | they are the same whenever every skipped ask ranks out in both directions |
| `SnapshotMerge.AsksAssociateIff` | `backend/src/common_bk/snapshot_util.h:7-61` | the merged asks are the same for both groupings of three books if and only if, at every price among the first N of either sum, the asks that the ranks of the three bid sides let through from the left add up to those let through from the right |
| `SnapshotMerge.AsksDoNotAssociate` | `backend/src/common_bk/snapshot_util.h:20-22` | three books whose merged asks depend on the grouping: the best ask is lost one way and kept the other |
| `SnapshotMerge.RanksOutAfterIs` | `backend/src/common_bk/snapshot_util.h:11-22` | after two merges an ask level is skipped exactly when the bid of its depth ranks below N in the sum of the first two bid sides and the bids before it |
| `SnapshotMerge.RankedAsksAre` | `backend/src/common_bk/snapshot_util.h:20-58` | of the asks of a merged book, those heard by a third are told by rank in the sums alone: the k-th ask goes when the k-th bid ranks below N in all three |
| `SnapshotMerge.MergedAsks` | `backend/src/common_bk/snapshot_util.h:20-58` | the merged asks are the top N of the own asks and the asks that were heard, and heard means that the bid of that depth ranks within N |
| `SnapshotMerge.InsertTidy` | `backend/src/common_bk/snapshot_util.h:13-33` | an insertion keeps live levels in front and EPS apart |
| `SnapshotMerge.MergeTidy` | `backend/src/common_bk/snapshot_util.h:10-59` | so does a whole merge, with any non-negative sizes |
| `SnapshotMerge.WakersWake` | `backend/src/common_bk/snapshot_util.h:13-33` | stale prices in dead slots that are too close can be woken up into live levels that are too close |
| `SnapshotMerge.SpacingKeptIff` | `backend/src/common_bk/snapshot_util.h:13-58` | live levels stay EPS apart whatever is merged in, if and only if the stale prices are spaced |
| `SnapshotMerge.MergeIsGood` | `backend/src/common_bk/market_snapshot.h:69-96` | if the stale prices of both sides are spaced, the merge of a good book without gaps is good exactly when its own top is not crossed |
| `SnapshotMerge.StaysGoodIff` | `backend/src/common_bk/market_snapshot.h:69-96` | a good book without gaps stays good or crosses, whatever book of its depth is merged in, if and only if the stale prices of both its sides are spaced |
| `SnapshotMerge.Spoiler` | `backend/src/common_bk/market_snapshot.h:69-96` | otherwise some book of its depth spoils it without crossing it |
| `SnapshotMerge.ShiftDown` | `backend/src/common_bk/snapshot_util.h:25-28` | the levels from the slot on move down by one and the last is lost |
| `SnapshotMerge.PlaceAt` | `backend/src/common_bk/snapshot_util.h:23-33` | a new level goes in, or its size is added to a level of the same price |
| `SnapshotMerge.InsertBid` | `backend/src/common_bk/snapshot_util.h:11-34` | the bid arrays become the insertion, or nothing fits |
| `SnapshotMerge.InsertAsk` | `backend/src/common_bk/snapshot_util.h:35-58` | the same for the ask arrays, on which prices rise |
| `SnapshotMerge.MarketSnapshot.constructor` | `backend/src/common_bk/market_snapshot.h:28-44` | an empty book, not initialised |
| `SnapshotMerge.MarketSnapshot.IsGood` | `backend/src/common_bk/market_snapshot.h:69-96` | true exactly for an initialised book with live tops, a bid at most a hundred-millionth above the ask and, if asked, live prices at least that far apart at every depth |
| `SnapshotMerge.MergeSnapshots` | `backend/src/common_bk/snapshot_util.h:7-61` | a new snapshot holding the merge; its arguments are unchanged |
| `SnapshotMerge.InsertBoth` | `backend/src/common_bk/snapshot_util.h:10-59` | one pass of the loop, with the early `continue` |
| `Md5.RotateInverse` | `external/md5str/include/md5.h:60` | rotating to the left and back is the identity |
| `Md5.RotateBack` | `external/md5str/include/md5.h:60` | and in the other order |
| `Md5.RotateWraps` | `external/md5str/include/md5.h:60` | the bits that a shift to the left pushes out of the word come in at its other end |
| `Md5.Round1Mixes` | `external/md5str/include/md5.h:46` | in the first 16 steps each bit of x chooses between those of y and z |
| `Md5.Round2Mixes` | `external/md5str/include/md5.h:47` | in the next 16 each bit of z chooses between those of x and y |
| `Md5.Round3Mixes` | `external/md5str/include/md5.h:48` | in the next 16 the result is the parity of the three |
| `Md5.Round4Mixes` | `external/md5str/include/md5.h:49` | in the last 16 it differs from y exactly where x or not z has a bit |
| `Md5.RoundsWalkTheBlock` | `external/md5str/include/md5.cpp:144-213` | the row table visits each of the 16 words once in each round, with the strides of the four rounds |
| `Md5.StepIsBijective` | `external/md5str/include/md5.h:65-84` | one step can be undone for a fixed message word |
| `Md5.StepsAreBijective` | `external/md5str/include/md5.cpp:137-213` | the 64 steps are a bijection on the four registers |
| `Md5.DecodedEncoded` | `external/md5str/include/md5.cpp:231-256` | decoding an encoding gives the words back |
| `Md5.EncodedDecoded` | `external/md5str/include/md5.cpp:231-256` | encoding a decoding gives the bytes back |
| `Md5.FoldAppend` | `external/md5str/include/md5.cpp:96-130` | absorbing whole blocks first and the rest later is absorbing all of it |
| `Md5.PaddingIsInjective` | `external/md5str/include/md5.cpp:66-75` | different messages, of whatever lengths, have different padded forms |
| `Md5.CountAdds` | `external/md5str/include/md5.cpp:105-109` | the two-word counter with its carry counts bits modulo 2^64 |
| `Md5.CountTells` | `external/md5str/include/md5.cpp:103` | the buffer index is read off the counter |
| `Md5.AbsorbShort` | `external/md5str/include/md5.cpp:124-129` | input that fills no block only extends the live part of the buffer |
| `Md5.AbsorbFirst` | `external/md5str/include/md5.cpp:114-117` | filling the buffer absorbs the first block |
| `Md5.AbsorbLast` | `external/md5str/include/md5.cpp:119-129` | what is left after the blocks becomes the live part |
| `Md5.Encode` | `external/md5str/include/md5.cpp:231-239` | the output array holds the bytes of the words, least significant first |
| `Md5.Decode` | `external/md5str/include/md5.cpp:251-256` | the output array holds the words of the bytes |
| `Md5.MD5.constructor` | `external/md5str/include/md5.cpp:33-45` | the object stands for the message, from the initial state |
| `Md5.MD5.Transform` | `external/md5str/include/md5.cpp:137-219` | the state becomes the compression of state and block |
| `Md5.MD5.AddCount` | `external/md5str/include/md5.cpp:105-109` | the counter counts the new bytes |
| `Md5.MD5.Init` | `external/md5str/include/md5.cpp:96-130` | the object stands for what it was fed before, followed by the input, and each buffer byte is as computed |
| `Md5.MD5.FeedBlocks` | `external/md5str/include/md5.cpp:114-121` | the loop absorbs the buffered block and every whole block of the input |
| `Md5.MD5.GetDigest` | `external/md5str/include/md5.cpp:53-85` | the digest is that of what the object stands for; state and count are put back, and the buffer is left as the padding leaves it |
| `Md5.MD5.AppendPadding` | `external/md5str/include/md5.cpp:66-75` | feeding padding and length completes the last block |
| `Md5.ClobberedAbsorbed` | `external/md5str/include/md5.cpp:53-85` | after a digest the object stands for the message with its rest overwritten if 56 bytes or more were buffered |
| `Md5.ClobberedTwice` | `external/md5str/include/md5.cpp:53-85` | a second digest overwrites nothing more |
| `Md5.UnclobberedIff` | `external/md5str/include/md5.cpp:53-85` | the object still stands for the message exactly when fewer than 56 bytes were buffered, or the overwriting happened to write the same bytes |
| `Md5.SecondDigestIff` | `external/md5str/include/md5.cpp:53-85` | the second digest is taken of another padded message exactly when the object no longer stands for the same bytes, as whenever 56 bytes or more wait and the first of them is not 0 |
| `Md5.SecondDigestDiffers` | `external/md5str/include/md5.cpp:53-85` | a message of 56 bytes for which that happens |
| `Md5.DigestsSettle` | `external/md5str/include/md5.cpp:53-85` | all digests from the second on agree, and with the first if fewer than 56 bytes were buffered |
| `Md5.Hash` | `external/md5str/include/md5.cpp:33-85` | constructor and first digest give the fold of the compression over message, 0x80, zeros and length |
| `Md5.FedDetermines` | `external/md5str/include/md5.cpp:96-130` | objects fed the same bytes agree in state, count and live buffer |
| `Md5.FeedInPieces` | `external/md5str/include/md5.cpp:96-130` | feeding x and then y leaves what feeding x followed by y leaves |
| `Md5.ToStr` | `external/md5str/include/md5.cpp:265-277` | two hexadecimal digits for each byte |
| `Md5.HexIsInjective` | `external/md5str/include/md5.cpp:265-277` | different digests print differently |
| `Md5Known.DigestOfAbc` | `external/md5str/include/md5.cpp:33-277` | the digest of the three bytes of "abc" prints as 77e31888ed38a2d7f3541d1ea020f450: tables, mixing, start values, byte order, padding and final additions in one number |
| `TokenLedger.RegisterKeepsIds` | `src/simtrade/ctporder/token_manager.h:30-36` | registration keeps the id map pointing at issued ids under their own references, restarts included |
| `TokenLedger.IdsRoundTrip` | `src/simtrade/ctporder/token_manager.h:38-63` | reference to id to order comes back to the reference, and no other reference has the id |
| `TokenLedger.StepKeepsSound` | `src/simtrade/ctporder/token_manager.h:21-122` | in every run, restarts included, each step of either thread and of the exchange keeps ids, orders and close marks true to the history, and tokens not negative |
| `TokenLedger.TestHoldsUntilTaken` | `src/simtrade/ctporder/token_manager.h:65-88` | the test is made outside the lock: whatever callbacks run before the tokens are taken, they still suffice, and taking them leaves the rest |
| `TokenLedger.TokensNeverNegative` | `src/simtrade/ctporder/token_manager.h:65-122` | in every interleaving, restarts included, no token count is negative |
| `TokenLedger.CreditDueIff` | `src/simtrade/ctporder/token_manager.h:94-122` | a credit that is owed keeps tokens and history in step; one that is not gives exactly the size of the order too much |
| `TokenLedger.StepBalancedIff` | `src/simtrade/ctporder/token_manager.h:21-122` | a step keeps tokens + close orders out + withheld = position held if and only if it is not a credit that is not owed |
| `TokenLedger.DecisionBalancedIff` | `src/simtrade/ctporder/token_manager.h:94-122` | the test of the close mark keeps that sum, unless the order was filled as a close or killed as an opening and the mark now found under its reference is another one |
| `TokenLedger.AlwaysBalancedIff` | `src/simtrade/ctporder/token_manager.h:65-122` | over any run, restarts included, the sum is right at every moment if and only if no credit is given that is not owed |
| `TokenLedger.PositionDue` | `src/simtrade/ctporder/listener.cpp:337-353` | a startup position gives the tokens to close it, also while orders run |
| `TokenLedger.ClosesNeverExceedPosition` | `src/simtrade/ctporder/token_manager.h:65-122` | in every run without such a credit tokens are not negative, tokens + close orders out + withheld = position held, and close orders out never exceed the position held |
| `TokenLedger.SettledBalance` | `src/simtrade/ctporder/token_manager.h:65-122` | if nothing is owed any more and nothing was lost, tokens + close orders out = position held |
| `TokenLedger.OutMeansLive` | `src/simtrade/ctporder/message_sender.cpp:158-183` | while the order thread is idle, what counts as a close order out is live: a refused one does not count |
| `TokenLedger.SafeRestarts` | `src/simtrade/ctporder/token_manager.h:30-36` | a strategy may restart and use references again at any moment but between a callback's lookup of an order and its test of the mark: then no credit is wrong and closes never exceed the position |
| `TokenLedger.FreshBalance` | `src/simtrade/ctporder/token_manager.h:65-122` | without a restart the loss is exact: with callbacks done, tokens + close orders out + what went with refused closes and with closes killed while only submitted = position held |
| `TokenLedger.LostForGood` | `src/simtrade/ctporder/message_sender.cpp:173-183` | no event ever changes the entry of a refused close or of an uncredited kill |
| `TokenLedger.RefusalLoses` | `src/simtrade/ctporder/message_sender.cpp:173-183` | a run in which the one held lot can no longer be closed because its close was refused |
| `TokenLedger.BookBalance` | `src/simtrade/ctporder/token_manager.h:65-122` | what orders add to the position splits into what they add to the tokens, close orders out and withheld lots |
| `TokenLedger.UninterruptedCheck` | `src/simtrade/ctporder/message_sender.cpp:158` | the steps of the order thread, undisturbed, are one call of CheckOffset |
| `TokenLedger.UninterruptedCallback` | `src/simtrade/ctporder/listener.cpp:281-290` | the steps of a callback, undisturbed, are one call of HandleFilled or HandleCancelled |
| `TokenLedger.RunKeepsIds` | `src/simtrade/ctporder/token_manager.h:30-63` | the id map is consistent in every run, restarts included |
| `TokenLedger.RegisterOrphans` | `src/simtrade/ctporder/token_manager.h:31-35` | registration cuts off exactly the ids of its reference, or all of them at reference 0 |
| `TokenLedger.OrphansStayDropped` | `src/simtrade/ctporder/listener.cpp:182-189` | a callback for a cut-off id is dropped with tokens unchanged, ever after |
| `TokenLedger.PartialFillsMatchIff` | `src/simtrade/ctporder/token_manager.h:94-107` | repeated trades of one order give at least their volume in tokens, and exactly it if and only if each trade is for the whole size |
| `TokenLedger.FillMistaken` | `src/simtrade/ctporder/listener.cpp:267-290` | a reference registered again between lookup and mark test makes the fill of a close count as an opening |
| `TokenLedger.RestartOverdraws` | `src/simtrade/ctporder/token_manager.h:30-36` | a run with a reference used again in which a close order is out and no position is held |
| `CtpOrder.TokenManager.constructor` | `src/simtrade/ctporder/token_manager.h:14-17` | starts without tokens and ids |
| `CtpOrder.TokenManager.RegisterToken` | `src/simtrade/ctporder/token_manager.h:21-29` | a held position gives tokens to the other side |
| `CtpOrder.TokenManager.RegisterOrderRef` | `src/simtrade/ctporder/token_manager.h:30-36` | the order gets the next id and its reference leads there; other references keep their ids, or lose them all at reference 0; earlier orders, marks and tokens stay; a consistent id map stays consistent |
| `CtpOrder.TokenManager.GetCtpId` | `src/simtrade/ctporder/token_manager.h:38-45` | the id of the reference, or -1 |
| `CtpOrder.TokenManager.GetOrderRef` | `src/simtrade/ctporder/token_manager.h:47-55` | the search finds a reference of the id if there is one, and -1 otherwise |
| `CtpOrder.TokenManager.CheckOffset` | `src/simtrade/ctporder/token_manager.h:65-92` | a close exactly when tokens cover the whole order; then exactly those tokens go, no other side or contract loses any, none becomes negative, and just this order is marked |
| `CtpOrder.TokenManager.HandleFilled` | `src/simtrade/ctporder/token_manager.h:94-107` | an opening order gives its size to the other side, a close gives nothing |
| `CtpOrder.TokenManager.HandleCancelled` | `src/simtrade/ctporder/token_manager.h:109-122` | a close gives back its size, an opening order nothing |
| `CtpOrder.CancelUndoesCheck` | `src/simtrade/ctporder/token_manager.h:65-122` | cancelling gives back what the offset check took, for every side and contract |
| `CtpOrder.OrderLeaves` | `src/simtrade/ctporder/message_sender.cpp:112-184` | from any state at rest that can be reached, an order that is sent and dies with its credit leaves all tokens as they were; one that fills has used up its size as a close, or given it to the other side as an opening |
| `CtpOrder.CallIsRun` | `src/simtrade/ctporder/listener.cpp:172-375` | each call of sender or listener is a run of the ledger: an order, a report that ends an order or not, a trade, a startup position |
| `CtpOrder.CallsNeverOverdraw` | `src/simtrade/ctporder/token_manager.h:65-122` | whatever calls come one after another, restarts included: tokens are not negative, they balance, and close orders out are covered by the position held |
| `CtpOrder.MessageSender.New` | `src/simtrade/ctporder/message_sender.cpp:112-184` | the order is registered in any case, and sent with the offset that the tokens allow if it has a side; the answer is that of the insert |
| `CtpOrder.MessageSender.Cancel` | `src/simtrade/ctporder/message_sender.cpp:186-207` | one delete request, for the id and contract of the registered order |
| `CtpOrder.MessageSender.SendQueryInvestorPosition` | `src/simtrade/ctporder/message_sender.cpp:72-90` | tries until accepted, at most a hundred times, with a new request id each |
| `CtpOrder.MessageSender.Handle` | `src/simtrade/ctporder/message_sender.cpp:92-110` | only a new order touches the tokens, and it is sent with the offset they allow; a modification is sent as a cancel |
| `CtpOrder.Listener.OnRspUserLogin` | `src/simtrade/ctporder/listener.cpp:75-99` | the session is that of the last login answer |
| `CtpOrder.Listener.OnRtnOrder` | `src/simtrade/ctporder/listener.cpp:172-265` | foreign and cut-off reports change nothing; a rejected insert and a cancel after acceptance give a close its size back and move no other token; a report the listener acts on is told once, under the reference of its id, as rejected or cancelled just when it ends the order |
| `CtpOrder.Listener.OnRtnTrade` | `src/simtrade/ctporder/listener.cpp:267-306` | a known trade is booked as a fill of the whole order and passed on with its own volume |
| `CtpOrder.Listener.OnRspQryInvestorPosition` | `src/simtrade/ctporder/listener.cpp:325-375` | positions count until the last one is in, and not after; each is told with its signed size, and the last is followed by the end mark |
| `CtpOrder.Desk.Take` | `src/simtrade/ctporder/listener.cpp:172-375` | the objects on shared tokens do what the ledger does: tokens agree with the history of the orders, and a request went out as a close just when tokens were taken for it |
| `CtpOrder.Desk.Replay` | `src/simtrade/ctporder/listener.cpp:172-375` | so for any sequence of calls; and the strategy was told a rejection or cancel for exactly the orders that the calls end by a report that the listener hears and acts on |
| `CtpOrder.Desk.ToldAreOver` | `src/simtrade/ctporder/listener.cpp:172-306` | what it was told is so: such an order is dead in the ledger, and one told as filled is filled |
| `CtpOrder.Desk.Covers` | `src/simtrade/ctporder/token_manager.h:65-122` | hence the tokens of the objects are not negative and close orders out never exceed the position held |
| `StrategyMA.Strategy.constructor` | `src/simtrade/strat-MA/strategy.cpp:6-33` | starts without orders and positions |
| `StrategyMA.Strategy.New` | `src/simtrade/strat-MA/strategy.cpp:101-130` | an order of size 0 does nothing; any other takes the next reference, is sent, and is filed by contract |
| `StrategyMA.Strategy.Modify` | `src/simtrade/strat-MA/strategy.cpp:132-147` | the order is marked and sent as a modification |
| `StrategyMA.Strategy.Start` | `src/simtrade/strat-MA/strategy.cpp:149-174` | a closing order for the position and an opening one if there is room, or one of each side; the exposure stays |
| `StrategyMA.Strategy.ModerateMainOrders` | `src/simtrade/strat-MA/strategy.cpp:176-197` | exactly the live main orders whose price moved are modified, each sent once |
| `StrategyMA.Strategy.ModerateHedgeOrders` | `src/simtrade/strat-MA/strategy.cpp:199-214` | the same for hedge orders |
| `StrategyMA.Strategy.CancelAllMain` | `src/simtrade/strat-MA/strategy.cpp:263-285` | every live main order is marked and sent once; one under modification is marked only |
| `StrategyMA.Strategy.CancelAllHedge` | `src/simtrade/strat-MA/strategy.cpp:287-309` | the same for hedge orders |
| `StrategyMA.Strategy.ClearValidOrder` | `src/simtrade/strat-MA/strategy.cpp:311-314` | both sweeps, one after the other; the exposure stays |
| `StrategyMA.Strategy.DelOrder` | `src/simtrade/strat-MA/strategy.cpp:316-328` | removes the order from the main orders or else from the hedge orders |
| `StrategyMA.Strategy.UpdatePos` | `src/simtrade/strat-MA/strategy.cpp:330-382` | the position moves by the whole order, and the main orders are renewed as the branches say |
| `StrategyMA.Strategy.UpdateExchangeInfo` | `src/simtrade/strat-MA/strategy.cpp:384-502` | the new state is `Handle` of the old one, for every kind of report, which the report laws below describe; the invariant stays and the exposure moves by exactly the drift |
| `StrategyMA.Strategy.UpdatePosition` | `src/simtrade/strat-MA/strategy.cpp:394-423` | startup positions are taken up until the end mark |
| `StrategyMA.Strategy.FillOrder` | `src/simtrade/strat-MA/strategy.cpp:475-492` | a fill removes or marks the order, hedges a main fill by the reported size, and books the whole size |
| `StrategyMA.SubmitKeeps` | `src/simtrade/strat-MA/strategy.cpp:101-130` | a submission keeps references unique and adds its signed size to the exposure if it is a hedge |
| `StrategyMA.DeleteKeeps` | `src/simtrade/strat-MA/strategy.cpp:316-328` | a deletion takes the signed size of a hedge order out of the exposure |
| `StrategyMA.BookedKeeps` | `src/simtrade/strat-MA/strategy.cpp:330-382` | booking adds the whole signed size, and the orders it renews are main orders |
| `StrategyMA.FillKeeps` | `src/simtrade/strat-MA/strategy.cpp:475-492` | a fill moves the exposure by exactly its drift |
| `StrategyMA.CancelledKeeps` | `src/simtrade/strat-MA/strategy.cpp:452-460` | a cancelled order is replaced if it was being modified, which keeps the exposure |
| `StrategyMA.CancelReport` | `src/simtrade/strat-MA/strategy.cpp:452-460` | a cancelled order, main or hedge, is in neither map; if it was being modified one order like it takes the next reference and is the one message sent, otherwise nothing is |
| `StrategyMA.RejectReport` | `src/simtrade/strat-MA/strategy.cpp:446-451` | a rejected order goes, and nothing else changes |
| `StrategyMA.StatusReport` | `src/simtrade/strat-MA/strategy.cpp:432-474` | acceptance makes a submitted order live, a refused cancel marks one that is not filled, and nothing else changes |
| `StrategyMA.IgnoredReport` | `src/simtrade/strat-MA/strategy.cpp:424-501` | unknown references and partial fills change nothing |
| `StrategyMA.PositionReport` | `src/simtrade/strat-MA/strategy.cpp:394-423` | until the end mark the positions of the two contracts add up; afterwards nothing changes |
| `StrategyMA.HedgeFillReport` | `src/simtrade/strat-MA/strategy.cpp:475-492` | a filled hedge order goes when complete, the position moves by its whole size, nothing is sent |
| `StrategyMA.MainFillReport` | `src/simtrade/strat-MA/strategy.cpp:475-492` | a filled main order goes exactly when complete, the reported size goes to the hedge contract the other way, the position moves by the whole size, and the main orders placed are the renewals |
| `StrategyMA.BookedRenews` | `src/simtrade/strat-MA/strategy.cpp:330-382` | a fill places one lot against the trade when it opened the first lot or closed one of a full position, and one along with it when there is room or the position is closed, and no other main order |
| `StrategyMA.StartPlaces` | `src/simtrade/strat-MA/strategy.cpp:149-174` | at the start one order against the whole position and one lot along with it if there is room, or one lot each way |
| `StrategyMA.SweepCancels` | `src/simtrade/strat-MA/strategy.cpp:263-309` | after a sweep nothing is live or under modification, other orders are as they were, and each live order has exactly one message |
| `StrategyMA.SweepModifies` | `src/simtrade/strat-MA/strategy.cpp:132-214` | after a price sweep exactly the live orders that moved are under modification, with one message each |
| `StrategyMA.StepDrifts` | `src/simtrade/strat-MA/strategy.cpp:384-502` | every event keeps the invariant and moves the exposure by exactly its drift |
| `StrategyMA.ExposureKeptIff` | `src/simtrade/strat-MA/strategy.cpp:432-501` | an event leaves the exposure alone if and only if it is benign |
| `StrategyMA.RunDrifts` | `src/simtrade/strat-MA/strategy.cpp:384-502` | over any run the exposure moves by the sum of the drifts |
| `StrategyMA.ExposureConstant` | `src/simtrade/strat-MA/strategy.cpp:432-501` | over a run of benign events the exposure is constant |
| `StrategyMA.RunsKeepOrder` | `src/simtrade/strat-MA/strategy.cpp:101-130` | from the constructor on, each reference is submitted once and each order is filed under its reference and contract |
| `AdaBoost.MatExp` | `python/adaboost/2.py:63-68` | every entry is replaced by its exponential |
| `AdaBoost.GenerateClassifier` | `python/adaboost/2.py:70-99` | over all columns, thresholds and modes the error reported is the least and the rule the first to reach it, if that is below the limit; prediction, error and rule belong together |
| `AdaBoost.SearchFinds` | `python/adaboost/2.py:92-98` | on normalised weights a rule is always found, and it is the first of the best |
| `AdaBoost.BeatsEveryTest` | `python/adaboost/2.py:80-98` | that rule misses no more weight than the test of any column against any multiple of the gap in range, above or below |
| `AdaBoost.NoWorseThanChance` | `python/adaboost/2.py:81-91` | its error is at most one half if some threshold is hit exactly by no row |
| `AdaBoost.WeightsStay` | `python/adaboost/2.py:120-121` | after any number of rounds weights are positive and sum to 1, and the normalisers are positive |
| `AdaBoost.WeightForm` | `python/adaboost/2.py:110-121` | weight times n times the product of the normalisers is exp(-label * last_pred), for any rules and alphas |
| `AdaBoost.ErrRateCounts` | `python/adaboost/2.py:123-124` | the error rate is the number of rows whose prediction has the wrong sign, divided by the number of rows |
| `AdaBoost.StopsWhenGoodEnough` | `python/adaboost/2.py:133-134` | training stops exactly when fewer than one row in ten thousand has the wrong sign |
| `AdaBoost.TrainingErrorBound` | `python/adaboost/2.py:110-154` | the number of rows that the accumulated prediction gets wrong, divided by the number of rows, is at most the product of the normalisers, and so is that of the rows Judge gets wrong |
| `AdaBoost.NormaliserForm` | `python/adaboost/2.py:115-121` | a normaliser is (1 - e) exp(-alpha) + e exp(alpha) |
| `AdaBoost.ChosenAlpha` | `python/adaboost/2.py:112` | the exponential of the chosen alpha squares to the odds, with the floor of 0.001 |
| `AdaBoost.RoundGain` | `python/adaboost/2.py:112-121` | under the chosen alpha the square of the normaliser is the gain of the error |
| `AdaBoost.GainBelowOne` | `python/adaboost/2.py:112` | the gain is between 0 and 1, and 1 only at chance |
| `AdaBoost.TrainingErrorGain` | `python/adaboost/2.py:110-124` | the square of the training error is at most the product of the gains |
| `AdaBoost.Judge` | `python/adaboost/2.py:136-154` | the sign of the weighted vote, 0 counting as -1, against the label |
| `AdaBoost.Reweight` | `python/adaboost/2.py:115-121` | the new weights are the old ones raised by the exponentials and divided by their sum |
| `AdaBoost.Train` | `python/adaboost/2.py:107-134` | a run of best rules with their alphas; weights and last_pred are those of the run; it stops after the first round that leaves fewer than one row in ten thousand wrong, or at the limit |
| `AdaBoost.TrainedGain` | `python/adaboost/2.py:107-134` | the square of the error rate of what Train returns is at most the product of the gains of the errors of its own rounds, and no gain is above 1, or 1 but at chance |
| `AdaBoost.TrainedBeatsChance` | `python/adaboost/2.py:107-134` | every rule Train chose errs at most half of the time, if some threshold is hit exactly by no row |
| `TwoFlags.StepKeepsInv` | `src/shm/shm.cpp:52-73` | each side keeps the other's flag down from call to return, and the content is the latest completed write |
| `TwoFlags.MutualExclusion` | `src/shm/shm.cpp:52-73` | Write and Read are never both past their wait test |
| `TwoFlags.ReadsLatest` | `src/shm/shm.cpp:64-73` | a Read returns the value of the latest completed Write |
| `TwoFlags.TestPassesIff` | `src/shm/shm.cpp:54-67` | when a wait ends |
| `TwoFlags.NothingMovesIff` | `src/shm/shm.cpp:52-73` | nothing can move exactly when both sides wait |
| `TwoFlags.StuckForever` | `src/shm/shm.cpp:52-73` | once both wait, nothing ever changes |
| `TwoFlags.StepSticksIff` | `src/shm/shm.cpp:52-73` | one step gets both sides stuck if and only if it is a call made while the other side waits |
| `TwoFlags.RunSticksIff` | `src/shm/shm.cpp:52-73` | a run ends stuck if and only if somewhere in it a call is made while the other side waits |
| `TwoFlags.ReadFirstStarves` | `src/shm/shm.cpp:64-73` | a Read before the first Write never returns, and ends with both sides stuck once the writer calls |
| `TwoFlags.StuckIsReachable` | `src/shm/shm.cpp:52-73` | two runs that get both sides stuck: before the first write, and after one |
| `TwoFlags.TwoCallsGetStuck` | `src/shm/shm.cpp:52-73` | wherever both sides are outside their calls, a Write and a Read that start together get stuck, in either order |
| `TwoFlags.ZeroedNeverPasses` | `src/shm/shm.cpp:18-50` | with both flags false, as in a new segment, no call ever gets through |
| `TwoFlags.RepeatsAndLosses` | `src/shm/shm.cpp:52-73` | undisturbed calls: the same value can be read again, and an unread value is overwritten |
| `Mailbox.Clip` | `src/shm_test/writter.cpp:31` | the part of the input that snprintf leaves: up to a terminator, at most 31 characters |
| `Mailbox.StepKeepsInv` | `src/shm_test/writter.cpp:26-36` | the flag says whose turn it is, and a message in flight is whole in the slot |
| `Mailbox.ReadsFollowWrites` | `src/shm_test/reader.cpp:26-34` | the messages read are a prefix of those written, in order and whole, with at most one in flight |
| `Mailbox.OneAtATime` | `src/shm_test/reader.cpp:26-34` | writer and reader are never both at the slot |
| `SnapshotText.JoinOfPieces` | `src/simtrade/simdata/datagener.h:19-30` | joining the pieces of a split gives the string back |
| `SnapshotText.PiecesOfJoin` | `src/simtrade/simdata/datagener.h:19-30` | splitting a join of pieces without the separator gives the pieces back |
| `SnapshotText.Split` | `src/simtrade/simdata/datagener.h:19-30` | the loop computes the pieces between separators |
| `SnapshotText.AtoiOfDecimal` | `src/simtrade/simdata/datagener.cpp:59-63` | atoi reads a printed integer back, whatever follows it |
| `SnapshotText.AtoiOfPadded` | `src/simtrade/simdata/datagener.cpp:48-49` | also when it was padded and stands between blanks |
| `SnapshotText.LineSplits` | `external/common/market_snapshot.h:46-63` | splitting a printed line at the bars gives its parts |
| `SnapshotText.EveryLevelShown` | `external/common/market_snapshot.h:50-54` | the line has the head, two parts for each level asked for, as many as there are, and the last part; each level reads back from its parts |
| `SnapshotText.NoLevelShown` | `external/common/market_snapshot.h:50-54` | at depth 0 or less it has the head and the last part only |
| `SnapshotText.Widths` | `external/common/market_snapshot.h:46-54` | sizes take at least three places and microseconds at least six, without changing the number |
| `SnapshotText.ReadableIff` | `src/simtrade/simdata/datagener.cpp:25-63` | a printed line has all the words that are read exactly when it shows a level and is a market update |
| `SnapshotText.WordsOf` | `src/simtrade/simdata/datagener.cpp:27-53` | which words those are |
| `SnapshotText.RoundTrip` | `src/simtrade/simdata/datagener.cpp:25-67` | reading a printed market update gives back ticker, seconds, top level, last trade, volume, turnover and open interest |
| `SnapshotText.MarketSnapshot.constructor` | `external/common/market_snapshot.h:28-44` | everything is zero |
| `SnapshotText.MarketSnapshot.Show` | `external/common/market_snapshot.h:46-63` | prints the line of the snapshot, to the depth asked for or the depth there is |
| `SnapshotText.HandleSnapshot` | `src/simtrade/simdata/datagener.cpp:25-67` | the new snapshot holds what `Read` finds in the line |

## Left out

- StringMaps.StringMap.Get: answers with a copy of the value instead of a pointer into the storage, so keeping or writing through such a pointer is not modelled.
- StringMaps.StringMap.Index: answers with a copy as well, not with a reference that can be assigned through.
- StringMaps.Node.ExpandTable: allocation does not fail, the union of child and table is two fields, and the table is a sequence that is replaced instead of a block that is reallocated.
- SnapshotMerge.MergeSnapshots: prices are reals, so rounding is not modelled, and sizes are unbounded, so neither is the overflow of their sums; fields other than prices, sizes and the initialised flag are not copied.
- Md5.MD5.Transform: the 64 unrolled steps are a table of rows with renamed registers; outside of them words are numbers below 2^32, and bytes are put together to words by sums instead of bitwise or.
- Md5.MD5.Init: asks for inputs shorter than 2^32 - 64 bytes, beyond which the 32-bit index of the loop wraps around.
- Md5.MD5.constructor: asks for the same bound on the message, since it calls `Init`.
- Md5.Hash: asks for the same bound on the message.
- Md5.ToStr: takes the digest as an argument; the call of getDigest before it is `GetDigest`.
- TokenLedger.SafeRestarts: one way only, because a restart at the wrong moment does no harm when the new order happens to carry the same mark; the exact condition is that of `AlwaysBalancedIff`. 32-bit overflow of tokens and ids is not modelled.
- CtpOrder.TokenManager.CheckOffset: reading a missing token or mark counts as 0 or false and does not add an entry to the map.
- CtpOrder.MessageSender.New: the request carries the fields that depend on the order; price, broker ids, flags and time conditions are constants or passed through.
- CtpOrder.MessageSender.Cancel: asks for a registered reference, for which the source would read past the end of its map.
- CtpOrder.MessageSender.Handle: asks for the same when it cancels or modifies.
- CtpOrder.Listener.OnRspUserLogin: the exit on an error, and handing the ids on to the sender, which only stores them, are not modelled.
- CtpOrder.Listener.OnRtnOrder: asks for issued ids in reports of the own session, for which the source would read past the end of its map, and for maps without reference -1; logging and the error callbacks, which change nothing, are not modelled.
- CtpOrder.Listener.OnRtnTrade: asks for issued ids and for maps without reference -1.
- CtpOrder.Desk.Take: one call ends before the next begins; interleavings are those of `TokenLedger`.
- StrategyMA.Strategy.constructor: the position query sent at construction is not among the messages.
- StrategyMA.Strategy.Modify: the new price of the order is not modelled.
- StrategyMA.Strategy.ModerateMainOrders: the price tests are a parameter.
- StrategyMA.Strategy.ModerateHedgeOrders: the price tests are a parameter.
- StrategyMA.Strategy.UpdatePos: average costs are not modelled, and `TradeClose` is a parameter.
- StrategyMA.Strategy.UpdatePosition: average costs are not modelled.
- StrategyMA.Strategy.UpdateExchangeInfo: prices, average costs, files and the order in which messages of one sweep are sent are not modelled.
- StrategyMA.Strategy.AddCloseOrderSize: not part of the modelled file, so any change within the stated limits.
- `CloseAllTodayPos`, which nothing in that file calls, `UpdateData`, `DataReady` and the time controller.
- AdaBoost.Train: needs at least one column; reading the CSV files, the rounding of floating-point numbers and a logarithm of 0 are not modelled.
- TwoFlags.ReadsLatest: says nothing about progress, which fails as `RunSticksIff` says; the busy-wait loops are tests that may be repeated, not loops.
- Mailbox.ReadsFollowWrites: starts when the reader has attached and the writer is at its test; a stale segment from an earlier run is not modelled.
- SnapshotText.RoundTrip: integers are unbounded, while atoi is only defined for values that fit an int; the 1023-character limit of the line buffer in `Run` is not modelled.
- Network, sockets, the trading API, files and printing, except as events, parameters or results.
