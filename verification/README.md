# Deterministic exchange core: a verified model

This project models the deterministic core of a single-process exchange and proves what
each layer keeps, what the layers guarantee together, and that snapshot recovery is the
same as never having stopped. `dafny verify dfyconfig.toml` checks all of it.

Each stateful component comes in two forms. The specification is a set of functions on
plain values: a book is two lists of price levels, each a FIFO list of orders; risk state
is two maps; a gateway is a book, risk state, a counter and a watermark. The storage is a
set of classes with the fields the program has: open-addressed index tables with back-shift
deletion, linked slots with free lists, a sorted level index with a slot pool. Every method
of those classes is proved to do to its storage exactly what the specification function
does to the value the storage stands for (`View()`), and the theorems are proved about the
specification over every input and every run. The journal, the engine and the session
front end interleave several threads; they are step functions on values, and their theorems
quantify over every sequence of steps.

| layer | modules |
|---|---|
| values, decisions, byte fields, lists | Types, Decisions, Bytes, Tables |
| order book | BookSpec, PriceLevels, ProbeIndexing, LevelIndexing, OrderIndexing, BookStore, BookSteps, BookPlan, BookIds, Priority, OrderBooks, BookLaws, PriceTime, BookRules, BookRestore, Reports, ModelBooks, ModelRuns |
| risk engine | RiskSpec, RiskStore, RiskEngines, RiskRules, RiskRestore |
| gateway | GatewaySpec, GatewayLaws, GatewayRuns, GatewayRules, Gateways, GatewayRestore, GatewayLimits |
| snapshot and recovery | StateCodec, Snapshots, StateSizes, SnapshotInput, Wire, JournalRecords, Layouts, SnapshotRules, Recovery, RecoveryRules |
| journal, events, engine | Journals, JournalRules, Events, EventRules, Engines, EngineRules |
| routing and sessions | Routers, Sessions, SessionEngines, SessionRules |

A third form states the decisions on their own terms. For every operation that can refuse,
a `...Rules` module lists what it asks as clauses in the order of checking, each a
comparison on lists, accounts or bytes with the refusal given when it is the first to fail
(`Decisions`), and proves that the operation succeeds if and only if all clauses hold,
answers the first failing refusal otherwise, and on success leaves exactly the stated state.

The main results:

- Recovery equals full replay (`Recovery.RecoveryIsFullReplay`), and encoding and decoding
  a snapshot undo each other in both directions.
- The book's four structures agree after every step, a plan never fails half way, the
  single-fill fast path is the general path, the fills are the only ones price-time priority
  allows, and over every run the book refines the array model.
- Resting orders and live reservations stay in bijection, exposure accounting is exact,
  positions stay within limits in every worst case, and internal errors are unreachable
  until the sequence counter is exhausted.
- The journal never shows or flushes more than it wrote, loses nothing on shutdown, and a
  checkpoint's sink replays to the gateway's state, under every interleaving.
- Every acceptance and every refusal of book, risk engine, gateway, engine, journal, session,
  front end and recovery is decided by clauses a caller can check beforehand, and every
  published event is told field by field (`BookRules`, `RiskRules`, `GatewayRules`,
  `EngineRules`, `JournalRules`, `SessionRules`, `RecoveryRules`, `EventRules`).
- A healthy journal can always finish, and a checkpoint can always be reached.
- The session counter counts applications across all shards, and a failed shard stops all.

Every lemma carries `{:induction false}`: its proof is its body.

## Model

| member | source | states |
|---|---|---|
| Recovery.RecoveryIsFullReplay | crates/hft-recovery/src/lib.rs:250-308 | for every run, cut point and report bound: the snapshot taken at the cut and the journal of the remaining commands recover to exactly the state of the uninterrupted run, and the answers before and after the cut are those of the uninterrupted run; the only condition on the state is that its resting orders are within limits |
| Recovery.SnapshottableIff | crates/hft-recovery/src/lib.rs:109-153 | in a buildable gateway a sound state encodes and is accepted back if and only if its resting orders are within limits and the orders-per-level capacity fits its 32-bit header field, which it does whenever the book has a level at all |
| Recovery.NoLevelsOverflow | crates/hft-recovery/src/lib.rs:648-654 | the input for which the capacity does not fit: a gateway without levels and with 2^32 orders per level can be built, its first state is sound and within limits, and encoding it fails with a length overflow |
| Recovery.SnapshotRecovers | crates/hft-recovery/src/lib.rs:250-308 | recovering from a snapshot and any tail of whole records is applying that tail to the state that was snapshotted |
| Recovery.RecoveredIsReplay | crates/hft-recovery/src/lib.rs:272-307 | whatever tail recovery accepts holds one in-sequence command a record, and the recovered state is the replay of exactly those commands |
| RecoveryRules.TailDecided | crates/hft-recovery/src/lib.rs:272-307 | a journal tail is accepted if and only if it tells commands: 64 bytes each, a valid record under the next sequence number, holding that command's frame; the recovered state is the replay of whatever commands it tells |
| RecoveryRules.ReadDecided | crates/hft-recovery/src/lib.rs:277-299 | what recovery says of one record: the format's first refusal at its offset, a sequence number that is not next, a frame that does not parse, a frame under another number, or the command |
| RecoveryRules.RecoverDecided | crates/hft-recovery/src/lib.rs:250-308 | recovery accepts exactly a snapshot that decodes with a tail of whole records that tells commands from the cut on, and gives their replay |
| Recovery.JournalReplays | crates/hft-recovery/src/lib.rs:272-307 | recovering the journal a run of consecutive commands left behind succeeds and gives the state of that run |
| Recovery.RecoverSnapshotAndTail | crates/hft-recovery/src/lib.rs:250-308 | the loop over live objects returns the error of the functional recovery or a valid gateway whose logical state is its result |
| Recovery.EncodeSnapshot | crates/hft-recovery/src/lib.rs:109-153 | snapshotting a valid gateway encodes the canonical export of its logical state, whatever its slot layout |
| Recovery.DecodeSnapshot | crates/hft-recovery/src/lib.rs:161-241 | an accepted snapshot yields a new, valid, sound gateway whose logical state is the decoded one; otherwise the first defect is returned |
| Snapshots.EncodedReads | crates/hft-recovery/src/lib.rs:109-241 | decoding an encoded state gives back that state and its cut, or precisely the defect restore finds in it |
| Snapshots.EncodedDecodes | crates/hft-recovery/src/lib.rs:109-241 | round trip: an encoded restorable state decodes to the same records and the same applied sequence |
| Snapshots.DecodedEncodes | crates/hft-recovery/src/lib.rs:161-241 | the other direction: an accepted byte string is the encoding of what it decodes to, so no second byte string decodes to a state |
| SnapshotRules.DecodeDecided | crates/hft-recovery/src/lib.rs:161-241 | what decoding says of any bytes, told by the bytes: too short, the first container demand they miss in the order of checking, the payload's defect, a cut that is not the counter's, the state's first defect, or exactly the records, cut and digest they hold |
| Layouts.SnapshotLayout | crates/hft-recovery/src/lib.rs:118-152 | where every field of an encoded snapshot lies, most significant byte first: magic, version, lengths, capacities, digest of domain, blanked header and payload, zeros |
| Layouts.HeadLayout | crates/hft-recovery/src/lib.rs:373-384 | the 47 bytes at the head of the payload, field by field |
| Layouts.AccountLayout | crates/hft-recovery/src/lib.rs:397-410 | the 109 bytes of an account, field by field, signed ones in two's complement |
| Layouts.ReservationLayout | crates/hft-recovery/src/lib.rs:412-417 | the 21 bytes of a reservation, field by field |
| Layouts.LevelLayout | crates/hft-recovery/src/lib.rs:419-427 | the 13 bytes of a price level with its orders behind them |
| Layouts.OrderLayout | crates/hft-recovery/src/lib.rs:427-434 | the 37 bytes of an order, field by field |
| Layouts.ListLayout | crates/hft-recovery/src/lib.rs:385-394 | element i of a list of one width starts at i widths |
| StateCodec.StateDecodes | crates/hft-recovery/src/lib.rs:373-496 | a state payload decodes to the records it was encoded from |
| StateCodec.StateEncodes | crates/hft-recovery/src/lib.rs:439-627 | an accepted payload re-encodes to itself |
| Bytes.ListReads | crates/hft-recovery/src/lib.rs:439-496 | any list whose elements read back reads back whole, behind what was read before, and leaves the rest |
| Bytes.ListWrites | crates/hft-recovery/src/lib.rs:439-496 | any list of elements that re-encode to what they were read from re-encodes to what it was read from |
| StateSizes.SoundEncodes | crates/hft-recovery/src/lib.rs:109-153 | encoding the export of a sound state of a buildable gateway cannot overflow a count or length field; it fails only if the orders-per-level capacity exceeds 32 bits |
| StateSizes.PayloadFits | crates/hft-recovery/src/lib.rs:639-653 | header and payload of any state within the capacities together stay below 2^64 bytes |
| SnapshotInput.DecodeState | crates/hft-recovery/src/lib.rs:439-496 | the offset-advancing decoder accepts and rejects exactly what the payload grammar does, with the same error |
| ProbeIndexing.ProbeIndex.FindSlot | crates/hft-book/src/lib.rs:146-160 | probing finds the bucket that holds the key, and reports absence exactly when the key is not in the map |
| ProbeIndexing.ProbeIndex.Insert | crates/hft-book/src/lib.rs:166-188 | the map gains exactly the key, the returned handle is its bucket; a duplicate key or a full index is refused without a change |
| ProbeIndexing.ProbeIndex.RemoveAt | crates/hft-book/src/lib.rs:193-233 | back-shift deletion terminates and leaves exactly the old map without the key, every remaining key reachable from its home bucket, and a log of moves from which every relocated handle follows; a stale handle changes nothing |
| ProbeIndexing.ContentsAre | crates/hft-book/src/lib.rs:76-81 | the map an index stands for holds exactly its occupied entries |
| ProbeIndexing.ContentsWithout | crates/hft-book/src/lib.rs:228-233 | if the bag of buckets lost one entry and gained a gap, the map lost exactly that key: the last step of the deletion proved in `RemoveAt` |
| ProbeIndexing.ShiftMove | crates/hft-book/src/lib.rs:204-226 | one relocating step of the back shift keeps keys unique, leaves the only gap at the new hole and preserves the bag of entries |
| ProbeIndexing.ShiftSkip | crates/hft-book/src/lib.rs:204-226 | a candidate whose own path does not cross the hole may stay, and the invariant of the walk survives |
| ProbeIndexing.ShiftEnd | crates/hft-book/src/lib.rs:204-226 | at an empty candidate no remaining key can need the hole: every key is reachable again |
| ProbeIndexing.SomeEmpty | crates/hft-book/src/lib.rs:80-87 | fewer distinct live values than buckets leave a bucket empty, so every probe and every deletion meets a gap |
| OrderIndexing.EncodeDecode | crates/hft-book/src/lib.rs:89-121 | packing a location into one word is inverted by unpacking, never yields zero, and fails exactly outside the capacities |
| OrderIndexing.RemovalKeeps | crates/hft-book/src/lib.rs:1504-1524 | deleting an id and applying the logged moves keeps the stored reverse handle of every live order exact, across sides |
| OrderIndexing.IndexHasRoom | crates/hft-book/src/lib.rs:76-87 | four buckets for at most two sides of live orders: an index coupled to the levels always has an empty bucket |
| PriceLevels.PushTailLinked | crates/hft-book/src/lib.rs:253-278 | appending links the first free slot behind the tail: chain, free list, length and total stay in agreement |
| PriceLevels.UnlinkLinked | crates/hft-book/src/lib.rs:282-315 | unlinking a live slot takes exactly it out of the chain and puts it at the head of the free list; every other order keeps its slot and place |
| PriceLevels.PushTailValid | crates/hft-book/src/lib.rs:253-278 | a level with room gains the order at the end of its queue and no other order moves |
| PriceLevels.UnlinkValid | crates/hft-book/src/lib.rs:282-315 | the queue loses exactly the order of the unlinked slot and keeps the order of the rest |
| PriceLevels.AggregateFits | crates/hft-book/src/lib.rs:38-38 | the maintained total of a valid level is below 2^128, so its unchecked additions never wrap |
| LevelIndexing.LevelIndex.Position | crates/hft-book/src/lib.rs:498-509 | binary search returns the split between better prices and the rest, and says whether the price is listed |
| LevelIndexing.LevelIndex.Insert | crates/hft-book/src/lib.rs:523-535 | a pooled slot is listed at its sorted place; occupied and free slots stay a partition; an empty pool refuses without a change |
| LevelIndexing.LevelIndex.Remove | crates/hft-book/src/lib.rs:538-549 | the listed price leaves, its slot returns to the pool, the others keep their order |
| OrderBooks.OrderBook.Submit | crates/hft-book/src/lib.rs:942-952 | result, reports and exported state are those of the specification, whichever path runs; a rejection leaves book and reports untouched |
| OrderBooks.OrderBook.TrySingleFill | crates/hft-book/src/lib.rs:1016-1076 | when the fast path answers at all, its result, report and book are those of the same specification as the general path; when it declines, nothing changed |
| OrderBooks.OrderBook.SubmitPlan | crates/hft-book/src/lib.rs:954-978 | the general path conforms to the specification for every validated order and report-buffer fill level |
| OrderBooks.OrderBook.BuildPlan | crates/hft-book/src/lib.rs:1082-1152 | planning reads the unchanged book and decides exactly the specified outcome: the makers taken in priority order, or the reason to refuse |
| OrderBooks.OrderBook.ApplyPlan | crates/hft-book/src/lib.rs:1158-1204 | applying a plan built against this book cannot fail: every captured slot is still live when its turn comes, and all four structures end in agreement on the specified book |
| OrderBooks.OrderBook.ApplyFill | crates/hft-book/src/lib.rs:1158-1204 | one planned fill reduces or removes the head maker and leaves every later maker of the plan its slot |
| OrderBooks.OrderBook.RemoveFilledOrder | crates/hft-book/src/lib.rs:1206-1235 | an exhausted maker leaves index and level together, and its level if it was the last |
| OrderBooks.OrderBook.RemoveIndexEntry | crates/hft-book/src/lib.rs:1504-1524 | after deletion the id is unindexed, every other order is indexed under its stored handle, and the view is unchanged |
| OrderBooks.OrderBook.RestAtTail | crates/hft-book/src/lib.rs:1461-1502 | with room checked, resting cannot fail: the order is at the tail of its price in the view and indexed |
| OrderBooks.OrderBook.Cancel | crates/hft-book/src/lib.rs:1395-1426 | an owned resting order leaves, its peers keep their places; identity errors change nothing |
| OrderBooks.OrderBook.Replace | crates/hft-book/src/lib.rs:1253-1383 | a same-price reduction keeps its place, anything else re-queues at its destination, identity is checked before price and quantity, and a refusal changes nothing |
| OrderBooks.OrderBook.LocateOrder | crates/hft-book/src/lib.rs:1534-1545 | the index resolves an id to the slot of the one order with that id, and to nothing exactly when the book holds none |
| OrderBooks.OrderBook.ViewUnique | crates/hft-book/src/lib.rs:76-87 | in every valid book each resting order is found at its own place: no id rests twice, on one side or across sides |
| OrderBooks.OrderBook.Top | crates/hft-book/src/lib.rs:656-664 | the best level with its maintained total and count, which are the sum and number of its resting orders |
| BookRules.SubmitDecided | crates/hft-book/src/lib.rs:942-1148 | told over the two priority lists: a new order is accepted if and only if its instrument is the book's, price and quantity are positive, its id rests on neither side, post-only meets nothing, the order one past the report room would not trade, fill-or-kill is covered by what meets its limit, and an unfilled rest finds room at its price or for a new price; otherwise the answer is the refusal of the first that fails, in this order |
| BookRules.SubmitExecutes | crates/hft-book/src/lib.rs:1158-1204 | what an accepted order does: exactly the reached orders of the facing list trade, in order, each all it can; that list loses them and keeps at most one remainder; the summary adds up; what rests queues behind everything at its price or better |
| BookRules.PostOnlyRests | crates/hft-book/src/lib.rs:996-1012 | an accepted post-only order has no fills and nothing that rests opposite meets its price |
| BookRules.ReportsTell | crates/hft-book/src/lib.rs:1053-1060 | each report names the maker of its fill, the taker, the taker's instrument and sequence, and the price and quantity of the fill |
| BookRules.CancelDecided | crates/hft-book/src/lib.rs:1395-1426 | a cancel is accepted if and only if it names the instrument and a resting order of the account, refused with the first that fails; it takes that order alone off its list and answers with what rested |
| BookRules.ReplaceDecided | crates/hft-book/src/lib.rs:1253-1382 | a replace is accepted if and only if instrument, id, owner, price and quantity are right and, unless it only shrinks in place, a new price meets nothing opposite and the list without the order has room; refused with the first that fails. It stays in place or queues last at its price, the other side is untouched, and every field of the answer is fixed |
| BookRules.DestinationIs | crates/hft-book/src/lib.rs:1297-1329 | checking the destination against the unchanged side is checking room on the side without the order, reason by reason |
| BookRules.PricesCount | crates/hft-book/src/lib.rs:1128-1142 | a sorted side has as many levels as its list has prices |
| BookRules.TradesReach | crates/hft-book/src/lib.rs:1090-1114 | the k-th order in priority trades if and only if it meets the limit and those before it leave something to trade |
| OrderBooks.OrderBook.ViewShaped | crates/hft-book/src/lib.rs:1128-1142 | every valid book's view is sorted, within its capacities and without empty levels or orders: what the rules above ask of a book |
| BookSteps.HoldsIffContains | crates/hft-book/src/lib.rs:1528-1545 | the index holds an id if and only if some level of the book does |
| BookSteps.LocateIs | crates/hft-book/src/lib.rs:1534-1545 | the slot an index entry names is the position the logical book finds for the id |
| BookPlan.PlanIsMatch | crates/hft-book/src/lib.rs:1082-1152 | fills planned against the unchanged book are the fills of matching one maker at a time against the changing book |
| Priority.MatchIsWalk | crates/hft-book/src/lib.rs:1082-1204 | matching fill by fill against the changing book is one walk of the unchanged priority list, and the untraded remainder is what the walk left |
| PriceTime.MatchIsPriceTime | crates/hft-book/src/lib.rs:1082-1204 | a fill sequence is the one the book performs if and only if it obeys price-time priority stated as rules: best price first, oldest first, nobody skipped, within the limit, stopping only when nobody crossing is left |
| PriceTime.SubmitConserves | crates/hft-book/src/lib.rs:954-978 | filled, resting and discarded add up to the order; reports sum to filled; the opposite side loses and the own side gains exactly those quantities |
| BookLaws.SubmitSound | crates/hft-book/src/lib.rs:942-978 | market invariant: after a submission the sides are sorted, uncrossed, within capacity, each queue in increasing sequence, ids and sequences unique |
| BookLaws.CancelSound | crates/hft-book/src/lib.rs:1395-1426 | the market invariant survives a cancel |
| BookLaws.ReplaceSound | crates/hft-book/src/lib.rs:1253-1383 | the market invariant survives a replace, including a move to another price |
| BookRestore.AcceptedIffExport | crates/hft-book/src/lib.rs:738-862 | exported state passes validation if and only if it is the canonical export of some sound book |
| BookRestore.SoundRestores | crates/hft-book/src/lib.rs:679-736 | the export of every sound book is accepted and imports back to that book |
| BookRestore.RestoreBook | crates/hft-book/src/lib.rs:720-904 | restoring builds a valid book whose export is the given state, or returns the first defect |
| ModelRuns.CompareRun | crates/hft-book/src/lib.rs:2371-2494 | refinement over every run from empty, with any sequence numbers: both objects end on the book the run specifies, each answer of each side is the specified one after the commands before it, reports and fills included, and the recorded differences are exactly the commands that are, on the book before them, a replace wrong both in value and in identity |
| ModelRuns.Compare | crates/hft-book/src/lib.rs:2399-2484 | one command given to both: both answers are the specified ones for the book before it, the book becomes the specified next book and the model mirrors it, and the answers are the same if and only if the command is not a replace that is wrong twice |
| ModelRuns.AgreeIff | crates/hft-model/src/lib.rs:505-533 | for every book and command of its instrument the answers of book and array model, summaries, cancelled orders, amendments, rejections and fills, are the same if and only if the command is not a replace with an invalid value and an identity that does not own a resting order |
| ModelRuns.UnknownAtZero | crates/hft-model/src/lib.rs:505-507 | the input for which they differ: a replace at price 0 on the empty book is `UnknownOrder` to the book and `InvalidPrice` to the model |
| ModelBooks.ModelBook.Submit | crates/hft-model/src/lib.rs:394-480 | the array model's submission has the outcome and fills of the book's specification and ends with the same levels, in any order; a rejection changes nothing |
| ModelBooks.ModelBook.Plan | crates/hft-model/src/lib.rs:299-381 | planning by scanning and sorting crossing prices refuses for the same first reason or returns the crossing prefix of the sorted side |
| ModelBooks.ModelBook.Simulate | crates/hft-model/src/lib.rs:339-353 | the dry walk counts exactly the fills matching performs and leaves exactly what it leaves |
| ModelBooks.ModelBook.Sweep | crates/hft-model/src/lib.rs:408-437 | sweeping price by price, popping queues and dropping emptied levels performs the specified match on an unsorted arrangement |
| ModelBooks.ModelBook.CrossingPrices | crates/hft-model/src/lib.rs:324-335 | the filtered and sorted prices are the crossing prefix of the sorted side |
| ModelBooks.ModelBook.Replace | crates/hft-model/src/lib.rs:499-614 | for a positive price and quantity the answer and levels are the book's; an invalid price or quantity is reported before identity; a refusal changes nothing |
| ModelBooks.ModelBook.Cancel | crates/hft-model/src/lib.rs:626-656 | the answer and levels of the book's cancel |
| ModelBooks.ReplaceAgreesIff | crates/hft-model/src/lib.rs:505-510 | on an invalid price or quantity the book gives the model's answer if and only if the id is resting and owned by the account |
| RiskEngines.RiskEngine.CheckAndReserve | crates/hft-risk/src/lib.rs:501-553 | limits, reservation and storage follow the specified check; a rejection changes nothing |
| RiskEngines.RiskEngine.Fill | crates/hft-risk/src/lib.rs:616-663 | one fill changes storage as specified: partial fills shrink the reservation, the last one closes it and frees its seat |
| RiskEngines.RiskEngine.SettleOrder | crates/hft-risk/src/lib.rs:561-606 | settling closes the reservation, releases the rest and frees the seat |
| RiskEngines.RiskEngine.AdjustReservation | crates/hft-risk/src/lib.rs:675-773 | an owned reservation is amended as specified; only increases are limit-checked; a refusal changes nothing |
| RiskEngines.RiskEngine.RestoreReservation | crates/hft-risk/src/lib.rs:783-840 | the total of an amended reservation is put back |
| RiskEngines.RiskEngine.Cancel | crates/hft-risk/src/lib.rs:861-875 | an owned reservation is released in full and its quantity returned |
| RiskEngines.RiskEngine.CanCancel | crates/hft-risk/src/lib.rs:846-854 | says whether the account owns a live reservation of that id, without changing anything |
| RiskEngines.RiskEngine.RegisterAccount | crates/hft-risk/src/lib.rs:441-473 | a new account with valid limits is opened; duplicates, bad limits and a full table are refused without a change |
| RiskEngines.RiskEngine.SetKillSwitch | crates/hft-risk/src/lib.rs:475-477 | only the switch changes; the engine stays sound |
| RiskEngines.RiskEngine.SetAccountKillSwitch | crates/hft-risk/src/lib.rs:482-495 | only that account's switch changes; an unknown account is refused without a change |
| RiskEngines.RiskEngine.Release | crates/hft-risk/src/lib.rs:415-436 | index, seats and free list lose exactly one reservation; relocated entries tell their seats the new handle |
| RiskSpec.ReserveSound | crates/hft-risk/src/lib.rs:501-553 | an accepted check reserves exactly the order, keeps every total equal to its sum over live reservations and both worst-case positions within the limit |
| RiskSpec.RecordFillSound | crates/hft-risk/src/lib.rs:616-663 | a fill succeeds exactly when a live reservation covers it, never overflows, and keeps the accounting exact |
| RiskSpec.CloseSound | crates/hft-risk/src/lib.rs:577-606 | closing a live reservation with a covered fill cannot fail and keeps the accounting exact |
| RiskSpec.AdjustSound | crates/hft-risk/src/lib.rs:675-773 | an accepted amendment changes that quantity only and keeps the state sound; reductions by the owner are always accepted |
| RiskSpec.RestoreUndoesAdjust | crates/hft-risk/src/lib.rs:783-840 | rolling an accepted amendment back cannot fail and restores the state exactly, whatever the new quantity was |
| RiskSpec.CancelReservationSound | crates/hft-risk/src/lib.rs:861-875 | an owned live reservation can always be cancelled and releases what it holds |
| RiskSpec.FillMovesPosition | crates/hft-risk/src/lib.rs:1042-1070 | a fill moves the total settled position by the filled quantity with the sign of its side |
| RiskRules.ReserveDecided | crates/hft-risk/src/lib.rs:501-556 | an order is reserved if and only if neither engine nor account is killed, quantity is positive, the id is above the watermark, a seat is free, the account is registered, and quantity, collar, price times quantity, worst-case long and short, and open orders are within the limits and their words; refused with the first that fails, in the order of checking |
| RiskRules.ReserveEffect | crates/hft-risk/src/lib.rs:501-556 | the whole state after an accepted check: one total up by the quantity, one more open order, one more reservation, the watermark; nothing else |
| RiskRules.KilledRefuses | crates/hft-risk/src/lib.rs:1078-1080 | no order is reserved while the engine or its account is killed |
| RiskRules.FillDecided | crates/hft-risk/src/lib.rs:616-667 | a fill is accepted if and only if it is positive and covered; the owner's position moves by it with the sign of the side, total and reservation shrink by it, and nothing else changes |
| RiskRules.SettleDecided | crates/hft-risk/src/lib.rs:561-610 | settling is accepted exactly when it is covered by a live reservation, and releases all of it |
| RiskRules.AdjustDecided | crates/hft-risk/src/lib.rs:675-773 | an amendment is accepted if and only if it is of an owned reservation and, if it increases it, total, notional and worst case fit words and limits; refused with the first that fails, in the order of checking |
| RiskRules.AdjustEffect | crates/hft-risk/src/lib.rs:675-773 | the whole state after an accepted amendment: the reservation at the new quantity and its owner's total to match |
| RiskRules.CancelReservationDecided | crates/hft-risk/src/lib.rs:846-875 | a reservation is cancelled if and only if it is live and the account's; all it held leaves its owner's total |
| RiskRules.RegisterDecided | crates/hft-risk/src/lib.rs:441-472 | registration is refused for invalid limits, a known account or a full table, in this order; a new account starts flat and live |
| RiskRestore.AcceptedIffExport | crates/hft-risk/src/lib.rs:924-1032 | exported risk state passes validation if and only if it is the canonical export of sound risk state |
| RiskRestore.RestoreEngine | crates/hft-risk/src/lib.rs:347-397 | restoring builds an engine holding exactly the given state, or returns the first defect |
| RiskRestore.ExportEngine | crates/hft-risk/src/lib.rs:300-338 | the export lists accounts and reservations in key order, independent of slot layout |
| GatewayRuns.ProcessKeeps | crates/hft-gateway/src/lib.rs:216-343 | every command keeps the coupling invariant; an internal risk-state error means exactly that the sequence counter is exhausted; a refusal leaves book, accounts and reservations as they were; no command moves the net settled position |
| GatewayRuns.FreshSound | crates/hft-gateway/src/lib.rs:75-82 | a gateway built around an idle risk engine and an empty book satisfies the coupling invariant |
| GatewayRuns.RunKeeps | crates/hft-gateway/src/lib.rs:216-343 | over any run the net position is constant, the counter advances by at most the run length, and no internal error appears before exhaustion |
| GatewayRuns.PositionSafety | crates/hft-risk/src/lib.rs:1104-1137 | in every sound state the exposure an account has resting in the book equals its reserved totals and would respect its position limit if one side filled completely and the other not at all |
| GatewayRuns.ReplaySplit | crates/hft-gateway/src/lib.rs:216-228 | replaying two runs in a row is replaying their concatenation, states and answers alike |
| GatewayLaws.MatchSettles | crates/hft-gateway/src/lib.rs:275-299 | all fills of one match settle on maker and taker without error and leave book and reservations in bijection |
| GatewayLaws.PairedLocates | crates/hft-gateway/src/lib.rs:327-343 | a live reservation is a resting order of the same owner, side and remaining quantity |
| GatewayRules.NewDecided | crates/hft-gateway/src/lib.rs:230-300 | a new order is accepted if and only if the sequence number is next and not the last, the id is above the watermark, and every clause of the risk engine and then of the book holds; refused with the first that fails, named by who refuses |
| GatewayRules.NewEffect | crates/hft-gateway/src/lib.rs:260-300 | what an accepted order leaves behind: reports of the reached orders in fill order, both lists, the summary, the watermarks, and every account's position moved by exactly what its own reports say |
| GatewayRules.NewRefusedLeaves | crates/hft-gateway/src/lib.rs:260-300 | what a refused order leaves behind: the spent sequence number, the watermark of a newer id, the engine's own once the risk check passed, and nothing else |
| GatewayRules.KilledTradesNothing | crates/hft-risk/src/lib.rs:501-506 | no new order is accepted, and no list changes, while the engine or the account is killed |
| GatewayRules.GatewayCancelDecided | crates/hft-gateway/src/lib.rs:327-343 | a cancel is accepted if and only if the sequence number is admitted, an order of that id rests and is the account's, and the instrument is the gateway's; refused with the first that fails. It takes that order, its reservation and its share of the totals, and answers with account and quantity, kill switches or not |
| GatewayRules.GatewayReplaceDecided | crates/hft-gateway/src/lib.rs:304-326 | a replace is accepted if and only if the sequence number is admitted and every clause of the amendment and then of the book holds; refused with the first that fails. The order is repriced, its reservation and its owner's total follow, nothing else changes |
| Gateways.Gateway.ProcessCommand | crates/hft-gateway/src/lib.rs:216-228 | the live gateway does what the specification says of its logical state, so gateways with equal logical state answer and evolve identically |
| Gateways.Gateway.ProcessNewOrder | crates/hft-gateway/src/lib.rs:260-300 | reserve, submit, settle and release, with the reservation undone when the book refuses |
| Gateways.Gateway.ProcessReplaceOrder | crates/hft-gateway/src/lib.rs:304-326 | the reservation adjusts first and is put back exactly when the book refuses |
| Gateways.Gateway.ProcessCancelOrder | crates/hft-gateway/src/lib.rs:327-343 | risk ownership is checked, the book cancels, the reservation is released |
| Gateways.Gateway.CheckSequence | crates/hft-gateway/src/lib.rs:246-258 | a gap and an exhausted counter are the two refusals, in that order |
| GatewayRestore.GatewayAcceptedIff | crates/hft-gateway/src/lib.rs:101-184 | an exported gateway is accepted if and only if it is the canonical export of a sound gateway whose resting orders are within their account limits |
| GatewayRestore.RestorableIff | crates/hft-gateway/src/lib.rs:101-184 | the export of a sound gateway is accepted if and only if every resting order respects its owner's per-order limits |
| GatewayRestore.RestoreGateway | crates/hft-gateway/src/lib.rs:101-184 | restoring yields a valid, sound gateway whose export is the given state, made of new objects only, or the first defect |
| GatewayLimits.StaysRestorableIff | crates/hft-gateway/src/lib.rs:163-176 | from a restorable state the next state is restorable if and only if the command is not an amendment that, judged on the state before the call, will be accepted although its owner's limits forbid it |
| GatewayLimits.AmendmentEscapes | crates/hft-risk/src/lib.rs:675-773 | from an empty gateway with one registered account, a new order and an amendment of it are both accepted; the state between them is within limits and the state after them is refused by restore |
| Events.BuildBatch | crates/hft-events/src/lib.rs:348-422 | building event by event into a buffer of the configured capacity never fails and gives the specified batch |
| Events.ValidateBatch | crates/hft-soak/src/events.rs:57-123 | the independent validator accepts a batch if and only if it is well formed, then counts its events by kind and folds their fingerprint, one terminal event and at most one top of book among them; of any other batch it reports the first defect in event order, a missing terminal event last |
| Events.PublicationWellFormed | crates/hft-events/src/lib.rs:348-422 | every published batch is well formed: terminal event first and once, dense 16-bit ordinals, trades only after acceptance and in fill order, top of book last, at most once and never after a rejection |
| Events.ReportsAreTrades | crates/hft-events/src/lib.rs:322-336 | reports exist only for an accepted new order, fit the buffer and carry the command's instrument |
| EventRules.PublicationTold | crates/hft-events/src/lib.rs:348-422 | every admitted command publishes a batch told field by field: first the answer or the reason with the command's identity; then for event k+1 the taker's id and maker, price and quantity of the k-th reached order of the list it traded against; last a top of book exactly when a best level moved, with price, volume and number of orders of both best levels after the command |
| EventRules.TopShows | crates/hft-gateway/src/lib.rs:371-375 | the best level shows the first price of the list, all that rests there and in how many orders |
| Wire.ParseEncode | crates/hft-wire/src/lib.rs:165-261 | every command parses back from its frame |
| Wire.EncodeParse | crates/hft-wire/src/lib.rs:165-261 | only encodings of commands parse |
| Layouts.FrameLayout | crates/hft-wire/src/lib.rs:211-262 | version, type, length and every field of each command frame, byte by byte |
| JournalRecords.RecordDecodes | crates/hft-journal/src/lib.rs:100-153 | a record decodes from its 64 bytes |
| JournalRecords.RecordEncodes | crates/hft-journal/src/lib.rs:111-153 | an accepted 64-byte block is the encoding of the record it decodes to |
| Layouts.RecordLayout | crates/hft-journal/src/lib.rs:100-108 | the 64 bytes of a record, field by field, the checksum over the record with its own four bytes zeroed |
| RecoveryRules.RecordDecided | crates/hft-journal/src/lib.rs:111-153 | 64 bytes are refused with the first demand of the record format that they miss, magic, version, flags, length, checksum, and read into their fields otherwise |
| Journals.JournalSafety | crates/hft-journal/src/lib.rs:231-281 | in every interleaving: durable <= written <= read <= enqueued; the sink is a byte prefix of the enqueued records, holds every record below the written watermark and has flushed every one below the durable watermark |
| Journals.ShutdownIsComplete | crates/hft-journal/src/lib.rs:650-673 | when shutdown reports completion the sink holds, flushed, exactly the records ever enqueued, both watermarks are final and nothing can be enqueued afterwards |
| JournalRules.EnqueueDecided | crates/hft-journal/src/lib.rs:389-402 | a frame is taken if and only if the writer is open, the counter has room, the frame fits a record and the ring has space, refused with the first that fails; it becomes one more record under the next number, and nothing else changes |
| JournalRules.CanFinish | crates/hft-journal/src/lib.rs:608-673 | from every reachable state without a failure, worker and cooperative sink can finish: everything enqueued is written, durable once the writer has closed or when every batch is flushed, and a closed channel completes |
| JournalRules.ExecPrompt | crates/hft-journal/src/lib.rs:631-640 | under flushing by batch, in every interleaving, durable and written watermark agree but for the batch being flushed |
| Journals.StatusIsConsistent | crates/hft-journal/src/lib.rs:231-244 | a status snapshot loaded field by field between worker steps never shows durable above written; completion comes with final counters, closure and no poison; poison is only shown of a poisoned channel |
| Journals.PopNeverFails | crates/hft-journal/src/lib.rs:484-510 | reading verifies every record and never fails: stored checksums match and sequences are dense in every reachable state |
| Journals.StepKeeps | crates/hft-journal/src/lib.rs:389-510 | every step of writer, worker, sink and status reader keeps the journal invariant |
| Journals.WriteAll | crates/hft-journal/src/lib.rs:694-715 | writes exactly the prefix the sink takes, succeeds exactly when the sink takes everything, retries interruptions, and treats zero and oversized counts as errors |
| Journals.WriteAllIsSteps | crates/hft-journal/src/lib.rs:608-643 | writing a record through any such sink is a run of the worker's write steps: the same bytes arrive, and the channel dies exactly when the write fails |
| Journals.Scan | crates/hft-journal/src/lib.rs:745-781 | accepts a byte string exactly when it is the encoding of densely sequenced records, and returns them |
| Engines.EngineSafety | crates/hft-engine/src/lib.rs:139-181 | over every interleaving from a fresh build: the gateway is the replay of the applied commands, journal and gateway sequences agree between calls, each applied command published exactly its own batch in order, and no invariant error is ever answered |
| Engines.TradesInFillOrder | crates/hft-events/src/lib.rs:348-422 | the i-th delivered or queued batch tells the i-th step of the run field by field, as `EventRules.PublicationTold`: answer, trades in fill order with maker and taker, tops of book |
| Engines.NextKeeps | crates/hft-engine/src/lib.rs:139-189 | every step of caller, worker, status reader and event consumer keeps the engine invariant, and every refusal is one a caller can cause |
| Engines.RefusalChangesNothing | crates/hft-engine/src/lib.rs:139-181 | a refused call leaves gateway, journal records, sink and published events as they were |
| EngineRules.CallDecided | crates/hft-engine/src/lib.rs:116-181 | an uninterrupted call applies its command if and only if the engine is healthy and open, instrument and sequence number are right, and event queue and journal ring have room, refused with the first that fails. Applied, it is the gateway's own step, one record with the command's frame and one batch that tells the step; refused, it changes nothing, or closes the engine if the refusal is fatal |
| EngineRules.CheckpointDecided | crates/hft-engine/src/lib.rs:217-239 | between calls a checkpoint may be taken if and only if the engine is healthy, admission is closed and shutdown complete, refused with the first that fails; the watermark error cannot occur |
| EngineRules.CheckpointReachable | crates/hft-engine/src/lib.rs:185-239 | between calls of a healthy engine a checkpoint can always be reached by closing admission and letting the worker finish |
| Engines.WatermarksMeet | crates/hft-engine/src/lib.rs:217-239 | after complete shutdown both watermarks equal the gateway's expected sequence: the checkpoint's mismatch error cannot occur |
| Engines.DurableCheckpoint | crates/hft-engine/src/lib.rs:217-239 | when a checkpoint may be taken the sink holds, flushed, exactly the journal of every command applied since the build, and the gateway is their replay |
| Engines.PrefixReplays | crates/hft-journal/src/lib.rs:745-781 | at any moment each whole-record prefix of the sink recovers to the state the live gateway had after that many commands |
| Routers.TryNew | crates/hft-router/src/lib.rs:46-85 | builds a table exactly for distinct instruments on shards that cover 0..n once; otherwise names the first offending shard or the least repeated instrument |
| Routers.CheckShards | crates/hft-router/src/lib.rs:54-64 | refuses the first shard that is out of range or repeated, in input order |
| Routers.SpanIsContiguous | crates/hft-router/src/lib.rs:77-78 | strictly sorted ids spanning one less than their number are contiguous |
| Routers.LookupIsScan | crates/hft-router/src/lib.rs:88-102 | dense offset and binary search both give what a linear scan of the original routes gives, for every id |
| Routers.InverseLookups | crates/hft-router/src/lib.rs:88-110 | the two lookups are inverse bijections between instruments and shards |
| Routers.OrderIndependent | crates/hft-router/src/lib.rs:37-46 | routes in any order give the identical table |
| Sessions.SessionStateMachine.Handle | crates/hft-session/src/lib.rs:148-229 | each event has exactly the specified effect; a refusal changes no field |
| Sessions.SessionStateMachine.Tick | crates/hft-session/src/lib.rs:238-269 | a due deadline fires as specified, an earlier tick changes nothing |
| Sessions.HandledKeeps | crates/hft-session/src/lib.rs:148-229 | over every event: a deadline is armed exactly in the waiting states, the timeout count is 0 when active and 1 when recovering, the counter is 1 before logon and never 0 |
| Sessions.HandledDecided | crates/hft-session/src/lib.rs:148-229 | every event in every state: accepted if and only if its clauses hold, refused with the first that fails, and what state, counter, deadline and missed heartbeats become |
| Sessions.TickDecided | crates/hft-session/src/lib.rs:238-269 | what a due deadline does in full: a missed heartbeat waits once more, anything else fails the session, and when the next deadline cannot be armed |
| Sessions.CommandAdmittedIff | crates/hft-session/src/lib.rs:172-205 | a command is admitted if and only if the session is active or recovering, the sequence is the expected one and neither counter nor deadline overflows; it then advances the counter by one and clears the timeouts |
| Sessions.CounterMoves | crates/hft-session/src/lib.rs:148-229 | no other event advances the counter |
| Sessions.TwoTimeoutsFail | crates/hft-session/src/lib.rs:238-269 | two heartbeat deadlines in a row fail the session, and a command between them saves it |
| Sessions.FailedForever | crates/hft-session/src/lib.rs:148-269 | no event and no tick leaves the failed state |
| Sessions.DueIff | crates/hft-session/src/lib.rs:238-269 | a tick leaves a session as it is if and only if no deadline is armed or the armed one is still ahead; at or after the deadline it moves to recovering or failed, or is refused because the next deadline would not fit 64 bits |
| Sessions.DueAfterEvent | crates/hft-session/src/lib.rs:148-229 | for every accepted event and every timeout, zero included: it arms `now` plus the logon timeout after a logon is sent, plus the heartbeat timeout after an accepted logon, a command or a heartbeat, and nothing otherwise; a later tick leaves the session as it is if and only if nothing was armed or the timeout has not passed |
| Sessions.DueAfterTick | crates/hft-session/src/lib.rs:238-269 | the same for the deadline that a missed heartbeat arms |
| Sessions.ZeroIsDueAtOnce | crates/hft-session/src/lib.rs:74-78 | whatever event arms it, a zero timeout is due at the tick that armed it: a zero logon timeout fails the session there, a zero heartbeat timeout with a second tick of the same instant |
| SessionEngines.CounterIsApplications | crates/hft-engine/src/session.rs:162-212 | over every interleaving: since the last logon the session counter advanced by exactly the number of commands applied across all shards |
| SessionEngines.NextKeeps | crates/hft-engine/src/session.rs:106-226 | only a call answered with a shard applies a command: one, on that shard, together with one step of the counter |
| SessionRules.DeskDecided | crates/hft-engine/src/session.rs:162-212 | one uninterrupted call of the front end: the first route with an unhealthy shard fails the session and halts every shard; then the session's clauses, the route and the shard's clauses refuse in this order and change nothing, but for a fatal refusal; and only a command that passes them all is applied, on its shard alone, with one step of the session |
| SessionRules.EventDecided | crates/hft-engine/src/session.rs:106-126 | a lifecycle event between calls: commands need admission, a refused event changes nothing, an accepted one moves the session and leaves the shards alone, and one that fails it halts them all |
| SessionEngines.RefusalsAdvanceNothing | crates/hft-engine/src/session.rs:162-212 | a refused call applies nothing on any shard and leaves the session as it was, or fails it and closes every shard |
| SessionEngines.FailureStopsAll | crates/hft-engine/src/session.rs:168-182 | once any shard is failed or poisoned, no command whose call starts later is ever applied on any shard |

## Findings

- Restore does not accept every reachable state. `adjust_reservation`
  (crates/hft-risk/src/lib.rs:675-773) checks neither the quantity limit nor the price
  collar and checks the notional only on increases, while restore enforces all three
  (crates/hft-gateway/src/lib.rs:163-176). The input is in `GatewayLimits.AmendmentEscapes`:
  in a fresh gateway an account limited to quantity 5 rests an order of 5 and amends it
  to 6, both are accepted, and the resulting state is refused by restore. The exact
  condition is `GatewayLimits.StaysRestorableIff`: from a restorable state the next state
  is restorable if and only if the command is not such an amendment, decided on the state
  before the call.
- The array model does not mirror the book's rejections of a replace exactly. It checks price
  and quantity before identity (crates/hft-model/src/lib.rs:505-510), the book identity first
  (crates/hft-book/src/lib.rs:1257-1268). The input is in `ModelRuns.UnknownAtZero`: a replace
  of an unknown id at price 0 is `UnknownOrder` to the book and `InvalidPrice` to the model.
  The exact condition is `ModelRuns.AgreeIff`: the answers agree if and only if the replace
  is not wrong both in value and in identity. The levels agree always (`ModelRuns.CompareRun`).
- A zero timeout does not disable a session deadline, although the documentation says so
  (crates/hft-session/src/lib.rs:74): the deadline is the current tick and is due at once
  (`Sessions.ZeroIsDueAtOnce`). No configuration disables one: every session that awaits
  logon, heartbeat or recovery has a deadline (`Sessions.HandledKeeps`), whatever arms it is
  `now` plus the timeout (`Sessions.DueAfterEvent`, `Sessions.DueAfterTick`), and a tick
  leaves the session as it is if and only if it comes before (`Sessions.DueIff`). The model
  follows the code.
- A state of a book with no levels but with a per-level capacity of 2^32 or more cannot be
  snapshotted: the capacity does not fit its header field. The input is in
  `Recovery.NoLevelsOverflow`, the exact condition in `Recovery.SnapshottableIff`. With at
  least one level the index size rules such capacities out.

## Left out

- Orders per level of zero: the program panics there, so constructors ask for at least one.
- Price levels are values inside the book's level sequences, as the program stores them
  inline; updates in place of one level are updates of the sequence.
- The reverse-handle callback of index deletion is a log of moves that the caller applies
  after the deletion; the order of callback calls within one deletion is kept.
- Non-canonical padding in exported book state: lists have their exact length, so the
  padding-slot error cannot be expressed.
- CRC32C (section 12.1 of RFC 3720) and SHA-256 (section 6.2 of FIPS 180-4) are arbitrary
  functions of fixed result width, and so is the hash an event fingerprint folds; nothing
  is claimed about collisions.
- Memory ordering of atomics and the ring buffer: steps are sequentially consistent over a
  bounded FIFO of 1024 records.
- Raw journal constructors without a status block, and reopening a journal file.
- The engine, the journal and the session front end are step functions on values, not
  objects: their in-place updates are the steps.
- Live engines inside the session front end carry gateway state as a value; that a live
  gateway object does the same is `Gateways.Gateway.ProcessCommand`.
- `sort_unstable_by_key` in route construction is a library call; its model is an insertion
  sort on values, of which only the sorted permutation is used.
- `MatchingShard` and `MultiInstrumentRouter` queues (crates/hft-router/src/lib.rs:117-371),
  `RetransmitBuffer`, `EngineConfig` text and `EngineBuilder`: they would add easy members.
- ModelRuns.Compare: commands carry the book's own instrument. The array model knows no
  instruments and would carry out a command that the book refuses as another market's.
- `ModelEngine`, the command generator and the random numbers of crates/hft-model: test
  support, and `ModelEngine` changes totals before it can reject an amendment.
- `stable_digest` of book, risk and gateway: states are compared by their export.
- Snapshot files, hard links, checkpoints on disk, backups, and the crates for input and
  output, foreign calls, command line and benchmarks: operating-system effects.
- Wire frames of responses: only commands are encoded and parsed.
- Journals.WriteAll: a sink that reports an oversized count is taken to have written
  nothing; the worker steps allow it any part of the record.
- SessionEngines.FailureStopsAll: a command already past its health check when a shard is
  poisoned may still be applied, as the program documents.
