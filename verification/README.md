# Overlay bridge: a verified model of its stateful cores

The bridge sits between a local overlay engine and a shared object plane. It keeps
a chain of bare 80-byte block headers (BRC-135) to answer merkle roots from, checks
the BEEF objects it is given, pushes records up a tunnel that may die at any time,
queues deliveries for the engine, and compares two engines' answers. This project
models those cores and proves what they promise over whole runs. The network, the
clock, the hash function, merkle paths and script execution are parameters or free
choices of the environment, so the theorems hold for all of them.

| files | models |
|---|---|
| `Bytes`, `Sums`, `HeaderWork` | bytes and sums; header fields, compact targets, proof of work |
| `HeaderChain`, `HeaderChainProofs` | the chain as a value, its steps and its invariant |
| `HeaderStore` | the same steps on fields updated in place; reads, warm-up and tracker |
| `HeaderRuns` | whole runs: work, canonical ancestry, cache and provenance |
| `HeaderMeaning` | one Observe in full, what a root query books, one delivery run alone |
| `HeaderRace`, `HeaderUnclosed` | `Observe` as three sections that interleave, and the tracker; a run that loses closure |
| `BumpGuard`, `BumpEncoding` | the BUMP bound checker, its grammar (BRC-74) and what a peer writes |
| `Uptunnel`, `UptunnelClient` | the confirm, resend and failover protocol |
| `PublishQueue`, `PublishLaws`, `PublishStranding` | lock-free reservation, bounded channel and wakeup, interleaved; when a record is enqueued and when it is shed; when a publisher is stranded |
| `Relay` | submission, queue, tunnel and guard, end to end, one submission at a time and interleaved |
| `Spv`, `SpvMeaning`, `SpvTheorems`, `SpvGraph`, `SpvVerifier`, `SpvDepth` | SPV verification of BEEF objects (BRC-62, BRC-96, BRC-95) |
| `Shadow` | the answer comparison |
| `FeedDrain`, `FeedLaws` | the engine queue and its drain at stop; what one delivery comes to |

## What the code does not do

Some expected properties fail. Each has a run or an input that shows it and, where
it is a condition, the exact one.

- **Closure of the canonical map under interleaving.** Run alone, `Observe` leaves
  the canonical map closed under recorded parents. An interleaved run keeps it closed
  throughout exactly when none of its third sections attaches a `Stale` header: one
  already canonical because another delivery re-anchored it, over a height whose
  canonical header is not its parent (`HeaderRace.RunClosedIff`). Ten steps from the
  start lose it (`HeaderUnclosed.InterleavingUncloses`).
- **Heights at the 32-bit edge, and a header that is its own parent.** These break
  the header index; nothing else does (`HeaderChainProofs.ObserveKeepsIff`). A
  warm-up anchored at the last height sets out to load every height
  (`HeaderStore.WarmRange`).
- **A publisher left waiting beside an empty queue.** A booking given back wakes nobody.
  Where publishers wait for room (`Wait` > 0), records of any size can strand one exactly
  when there is a byte bound; records that are never empty, exactly when the bound is
  more bytes than the channel holds records (`PublishStranding.StrandsIff`).
- **Unproven transactions behind a proven one are not checked.** The walks cover an
  acyclic object exactly when each spent unproven transaction has an unproven
  spender (`SpvTheorems.CoverageIff`, `SpvTheorems.ShadowedPasses`).
- **BUMPs of tree height 0.** They parse, and may be refused by the three-byte floor
  (`BumpGuard.RefusedParse`, `BumpGuard.FlatBumpsRefused`).
- **Confirmation without a reading.** When the send queue cannot be read, every byte
  written counts as acknowledged. A poll confirms a record past the acknowledged bytes
  exactly when its reading failed and the record is past its grace or too many are held
  (`UptunnelClient.Client.PollLocked`); `UptunnelClient.BlindConfirmation` is such a
  poll. A client whose readings succeed (`canRead`) makes none.
- **An object accepted after the drain.** A delivery answered without error may be
  queued once the last worker has gone, and then stays there
  (`FeedDrain.LeftBehind`, `FeedDrain.AcceptedAndStranded`).
- **Sets or multisets.** The comment on `sets` in feed/shadow.go says answers compare
  as sets; the code compares multisets (`Shadow.RepeatsDiffer`).

## Model

| member | source | states |
|---|---|---|
| `HeaderWork.WorkValue` | headers/chain.go:596-604 | reading the reversed hash big-endian gives the hash's little-endian value |
| `HeaderWork.CompactExact` | headers/chain.go:577-594 | a compact target with exponent e and mantissa m expands to m * 2^(8e) / 2^24, rounded down; only a zero mantissa expands to nothing |
| `HeaderWork.DifficultyOne` | headers/chain.go:579-594 | 0x1d00ffff is 0xffff * 2^208 |
| `HeaderWork.FieldsReadBack` | headers/chain.go:219-223 | a header built from its fields reads back its previous hash, root and bits |
| `HeaderWork.CheckWork` | headers/chain.go:543-563 | passes exactly when the bits stand for a target, no easier than the one the floor's stand for when it is set, and the hash is at most that target |
| `HeaderChainProofs.InitValid` | headers/chain.go:183-201 | a new chain satisfies the invariant |
| `HeaderChainProofs.RedeliverFrame` | headers/chain.go:240-249 | a header delivered again is no longer marked viaAnchor, and nothing else changes |
| `HeaderChainProofs.RedeliverValid` | headers/chain.go:239-254 | promotion of a re-anchored header keeps the invariant |
| `HeaderChainProofs.ReanchorKeeps` | headers/chain.go:271-278 | a parent recorded from any Lookup answer keeps indexes, links, closure and tip |
| `HeaderChainProofs.RecanonFrame` | headers/chain.go:332-352 | the walk back changes only the canonical map, at or below its start, where it puts the new tip |
| `HeaderChainProofs.RecanonCloses` | headers/chain.go:332-352 | the early stop leaves nothing stale: everything below the walk stays closed under recorded parents |
| `HeaderChainProofs.PruneHeld` | headers/chain.go:357-378 | pruning keeps exactly the headers at or above the floor, and in byHash also the startup anchor |
| `HeaderChainProofs.AttachBase` | headers/chain.go:293-314 | attaching keeps indexes, links, names and tip; a moved tip strictly rises and all that is held lies in the window; closure is kept for a header not known before |
| `HeaderChainProofs.ObserveKeeps` | headers/chain.go:215-314 | one Observe with any Lookup answer keeps the whole invariant, and a tip that changes is this header and is higher |
| `HeaderChainProofs.WrapBreaks` | headers/chain.go:295-301 | a child of a header at height 2^32-1 breaks the invariant |
| `HeaderChainProofs.SelfParentBreaks` | headers/chain.go:295-301 | a header that names itself as parent breaks the index |
| `HeaderChainProofs.ObserveKeepsIff` | headers/chain.go:215-314 | with a recorded parent the invariant is kept if and only if the header is not its own parent and its parent is below the last height |
| `HeaderRuns.RunValid` | headers/chain.go:215-378 | every sound run, with any Lookup answers, reorganisations and pruning, keeps the invariant, and the tip never falls |
| `HeaderRuns.CanonIsTipAncestry` | headers/chain.go:303-352 | after any sound run the canonical map holds the tip's k-th recorded ancestor at tip - k, down to the floor, and nothing above the tip |
| `HeaderRuns.TipMoveWindow` | headers/chain.go:306-311 | after each tip move every held header lies in [tip - window, tip] |
| `HeaderRuns.RunWorked` | headers/chain.go:215-314 | over every run each held header not marked viaAnchor was delivered with enough work, and carries its own root unless it was once re-anchored |
| `HeaderRuns.RunOwnRoots` | headers/chain.go:238-314 | with a Lookup that answers true roots, every held lane header carries its own root, the promoted ones included |
| `HeaderRuns.TipWorked` | headers/chain.go:215-314 | every tip but the startup anchor has a little-endian value at most the number its bits stand for, itself at most the floor's |
| `HeaderRuns.RunCacheTrue` | headers/chain.go:412-435 | in any interleaving the cache holds only what the fallback answers and at most 65536 entries |
| `HeaderRuns.CachedRefinesUncached` | headers/chain.go:392-436 | in every reachable state the cached RootAt answers what one with no cache would |
| `HeaderRuns.BookedOnce` | headers/chain.go:392-450 | over any run, one source is booked for each RootAt that ends |
| `HeaderRuns.StepHistoryTop` | headers/chain.go:370-377 | historyTop never falls, and covers every height a step drops |
| `HeaderRuns.HistoryIsForever` | headers/chain.go:438-450 | a height that is history, or that a run prunes, never books fallback afterwards |
| `HeaderMeaning.ObserveKnown` | headers/chain.go:239-254 | observing a known header clears its viaAnchor mark and changes nothing else |
| `HeaderMeaning.ObserveOrphan` | headers/chain.go:287-291 | a header whose parent is not found leaves the chain alone |
| `HeaderMeaning.ObserveAttached` | headers/chain.go:255-314 | every height, entry and tip after any other Observe: the header above its parent with its own root and parent, a found parent with the root found, every competitor as it was, the tip moved if and only if the header is higher, and only what leaves the window gone |
| `HeaderMeaning.CanonClosedInFields` | headers/chain.go:329-352 | after any sound run a canonical header's recorded parent, known one below in the window, is canonical there |
| `HeaderMeaning.TipOnTop` | headers/chain.go:306-311 | after any sound run the tip, once moved, is canonical and nothing held is above it |
| `HeaderMeaning.RunHistoryExact` | headers/chain.go:150-162 | historyTop is exactly the startup anchor's height, or the height just below the window if that is higher |
| `HeaderMeaning.BookingExact` | headers/chain.go:392-450 | after any sound run a query books lane exactly for a canonical lane header held, history exactly up to the anchor or below the window, fallback exactly above |
| `HeaderMeaning.FetchExact` | headers/chain.go:423-435 | a fetched root books the same way and is in the cache from then on; a height not answered books a miss |
| `HeaderMeaning.AloneIsObserve` | headers/chain.go:215-314 | one delivery of the interleaved store with nothing between its sections does exactly what Observe does |
| `HeaderStore.Store.constructor` | headers/chain.go:190-200 | a new store is the initial chain with an empty cache |
| `HeaderStore.Store.PutLocked` | headers/chain.go:317-327 | records the entry beside its competitors and lowers lowest |
| `HeaderStore.Store.RecanonLocked` | headers/chain.go:332-352 | the loop computes the recursive walk back |
| `HeaderStore.Store.DropBelow` | headers/chain.go:362-369 | the loop over heights drops from all three maps exactly what lies in [lowest, cutoff) |
| `HeaderStore.Store.PruneLocked` | headers/chain.go:357-378 | refines Prune, with lowest and historyTop |
| `HeaderStore.Store.RedeliverLocked` | headers/chain.go:239-254 | refines Redeliver |
| `HeaderStore.Store.ReanchorLocked` | headers/chain.go:266-278 | refines Reanchor, re-checking under the lock |
| `HeaderStore.Store.AttachLocked` | headers/chain.go:293-311 | refines Attach and reports whether the tip moved |
| `HeaderStore.Store.Observe` | headers/chain.go:215-314 | refines the step of a run, and every field of the observation says what happened |
| `HeaderStore.Store.BookAnchoredLocked` | headers/chain.go:444-450 | books history at or below historyTop, fallback above |
| `HeaderStore.Store.RootAt` | headers/chain.go:392-436 | answers the uncached root, an error exactly where the fallback fails, books one source, keeps the cache true |
| `HeaderStore.Store.HeaderForHeight` | headers/chain.go:457-493 | known exactly for a canonical lane header; one source booked; no fallback booked at or below historyTop |
| `HeaderStore.Store.HeaderByHash` | headers/chain.go:526-540 | absent exactly for what is not held, and the only known hash reported absent is the startup anchor |
| `HeaderStore.Store.WarmOne` | headers/warm.go:129-145 | one load; a cache that is full or a context that ended changes nothing; counted once |
| `HeaderStore.Store.Warm` | headers/warm.go:72-127 | the descending loop makes exactly the loads down from the anchor that were fed and found the context alive, and counts each height fed |
| `HeaderStore.WarmRange` | headers/warm.go:84-95 | the target is min(depth, half the cache, the chain) if and only if the anchor is below the last height |
| `HeaderStore.WarmFills` | headers/warm.go:113-145 | with room, every height loaded that the fallback answers is cached, nothing is lost and nothing booked |
| `HeaderStore.WarmedAtOnce` | headers/warm.go:51-71 | a warmed height is answered at once with the fallback's root and booked as history |
| `HeaderStore.Tracker.Learn` | headers/tracker.go:50-56 | the height is the highest learnt |
| `HeaderStore.Tracker.IsValidRootForHeight` | headers/tracker.go:61-73 | valid exactly for the canonical chain's root, or the fallback's where the chain holds none, whatever was asked before; an error exactly when the read failed |
| `HeaderRace.RunKeeps` | headers/chain.go:238-314 | every interleaving of the three sections with an honest Lookup keeps the shared invariant |
| `HeaderRace.RaceSafety` | headers/chain.go:238-314 | heights are true, byHash and at agree, without a window each missing parent is re-anchored at most once, the tracker never passes the tip and equals it at quiescence after a tip move |
| `HeaderRace.StepProgress` | headers/chain.go:293-314 | a tip that moves strictly rises, and no held lane header is demoted to viaAnchor |
| `HeaderRace.RaceWorked` | headers/chain.go:225-314 | in every interleaved run each held entry not marked viaAnchor, and each tip but the startup anchor, is that of an arrived header whose hash meets its target and the floor |
| `HeaderRace.LearnKeeps` | cmd/overlay-bridge/main.go:413-430 | learning a tip, or giving up on an orphan, keeps the shared invariant |
| `HeaderRace.AttachClosedIff` | headers/chain.go:293-311 | interleaved, the third section leaves the canonical map closed if and only if the header is not Stale |
| `HeaderRace.RunClosedIff` | headers/chain.go:238-314 | an interleaved run keeps the canonical map closed at every step if and only if none of its third sections attaches a Stale header |
| `HeaderUnclosed.CrossingUncloses` | headers/chain.go:258-311 | from any quiet state with a competitor at the tip's height, an enabled interleaving of two deliveries loses closure |
| `HeaderUnclosed.InterleavingUncloses` | headers/chain.go:238-314 | an enabled run from the start, with an honest Lookup, after which the canonical map is not closed |
| `BumpGuard.Cursor.Skip` | headers/bumpguard.go:130-136 | moves inside the bytes or refuses and stays |
| `BumpGuard.Cursor.ByteAt` | headers/bumpguard.go:138-145 | reads the byte at the position if there is one |
| `BumpGuard.Cursor.Fits` | headers/bumpguard.go:149-154 | the division test is exactly n * each <= remaining |
| `BumpGuard.Cursor.ReadVarInt` | headers/bumpguard.go:158-188 | agrees with the VarInt of the grammar, errors included |
| `BumpEncoding.VarIntRead` | headers/bumpguard.go:158-188 | each form of a number, in one byte below 0xFD or as 2, 4 or 8 base-256 digits after 0xFD, 0xFE or 0xFF, least significant first, reads back to it wherever it stands |
| `BumpEncoding.VarIntWritten` | headers/bumpguard.go:158-188 | whatever is read as a number is such a form of it |
| `BumpGuard.Cursor.ReadLeaf` | headers/bumpguard.go:88-99 | agrees with the grammar's leaf |
| `BumpGuard.Cursor.ReadLeaves` | headers/bumpguard.go:87-100 | the loop agrees with the grammar, and begins exactly the iterations LeafTurns defines |
| `BumpGuard.Cursor.ReadLevels` | headers/bumpguard.go:78-101 | the levels agree with the grammar: the leaf bound never refuses one that parses; the iterations begun are exactly LevelsTurns |
| `BumpGuard.Cursor.ReadBumps` | headers/bumpguard.go:67-102 | the three nested loops agree with the grammar and begin exactly the iterations BumpsTurns defines |
| `BumpGuard.TurnsBounded` | headers/bumpguard.go:59-104 | whatever counts an object declares, the iterations of the three nested loops, those that fail included, are at most its length |
| `BumpGuard.GuardBumps` | headers/bumpguard.go:38-104 | returns nil exactly when the section parses and its count passes the floor; it begins exactly the iterations SectionTurns defines, at most the object's length |
| `BumpGuard.TallAccepted` | headers/bumpguard.go:59-104 | a section whose tree heights are 1 to 64 is accepted whenever it parses |
| `BumpGuard.RefusedParse` | headers/bumpguard.go:63-66 | a section that parses and is refused has a BUMP of tree height 0, and a count between a third and a half of the bytes left |
| `BumpGuard.FlatBumpsRefused` | headers/bumpguard.go:63-66 | two BUMPs of tree height 0 parse and are refused |
| `BumpEncoding.WrittenAccepted` | headers/bumpguard.go:29-104 | whatever section a conforming peer writes is accepted, and read exactly to its end |
| `BumpEncoding.ParsesIffWritten` | headers/bumpguard.go:59-104 | a section parses to a given end if and only if the bytes there are those of some paths a peer may write |
| `BumpEncoding.AcceptsIffWritten` | headers/bumpguard.go:38-104 | the checker accepts exactly the objects whose section a peer may have written, tree height 0 allowed, with no more paths than a third of the bytes after their count |
| `BumpEncoding.ObjectAccepted` | headers/bumpguard.go:44-57 | a whole object, Atomic or not, with a section a peer may write is accepted |
| `Uptunnel.ExactlyOnePlace` | uptunnel/uptunnel.go:141-149 | each accepted record is in exactly one of unconfirmed, resend, confirmed and lost, once, and the counters add up |
| `Uptunnel.DoneExactlyOnce` | uptunnel/uptunnel.go:234-238 | done is called at most once for a record, exactly once when it is neither in flight nor waiting, never for one not accepted |
| `UptunnelClient.LeftoverWeight` | uptunnel/uptunnel.go:389-408 | settling a dead connection's records spends at least one resend of budget on each |
| `UptunnelClient.ChargeSpends` | uptunnel/uptunnel.go:264-270 | a failed flush and its charge strictly lower the sum of MaxResends + 1 - resends |
| `UptunnelClient.Client.constructor` | uptunnel/uptunnel.go:210-215 | a new client is in balance, open and has confirmed nothing unread; MaxResends defaults to 3 |
| `UptunnelClient.Client.PeerCloses` | uptunnel/uptunnel.go:541-550 | the reader marks a live connection dead, clean or not, and touches nothing else |
| `UptunnelClient.Client.ConfirmLocked` | uptunnel/uptunnel.go:420-426 | the record in hand is settled as confirmed and its callback due |
| `UptunnelClient.Client.LoseLocked` | uptunnel/uptunnel.go:428-438 | the record in hand is settled as lost and its callback due |
| `UptunnelClient.Client.RequeueLocked` | uptunnel/uptunnel.go:401-408 | one resend is spent: the record waits again, or is lost past its budget |
| `UptunnelClient.Client.ChargeResendsLocked` | uptunnel/uptunnel.go:412-418 | one resend is spent on every waiting record, in order |
| `UptunnelClient.Client.RetireLocked` | uptunnel/uptunnel.go:375-398 | nothing stays in flight; records are confirmed only after a clean close with a reading, and then exactly those acknowledged on this connection; past its budget a record is lost; the rest waits in order |
| `UptunnelClient.Client.SettleFlight` | uptunnel/uptunnel.go:389-397 | the loop confirms, gives up or queues each record, in order, by what the peer is known to have acknowledged and its budget |
| `UptunnelClient.Client.ReadAcked` | uptunnel/uptunnel.go:447-453 | a reading that succeeds gives the bytes acknowledged; one that fails counts every byte written |
| `UptunnelClient.Client.PollLocked` | uptunnel/uptunnel.go:442-469 | the early break confirms records in order, and exactly those acknowledged to their last byte, or any where the reading failed, that are past the grace or when more than 65536 are held |
| `UptunnelClient.BlindConfirmation` | uptunnel/uptunnel.go:449-453 | a poll of a new client that confirms a record of which nothing was acknowledged |
| `UptunnelClient.Client.ConfirmPrefix` | uptunnel/uptunnel.go:456-464 | under a monotone clock the eligible records are a prefix, and that prefix is confirmed, record by record in order |
| `UptunnelClient.Client.AdvanceLocked` | uptunnel/uptunnel.go:564-575 | the next address; the fail-back clock runs exactly away from the preferred one |
| `UptunnelClient.Client.MaybeFailBackLocked` | uptunnel/uptunnel.go:584-603 | never touches a record in flight; past Prefer the client is on the preferred address unless one is |
| `UptunnelClient.Client.EnsureConnLocked` | uptunnel/uptunnel.go:504-535 | a connection, kept or fresh with nothing written, or a failure with nothing in flight |
| `UptunnelClient.Client.WriteLocked` | uptunnel/uptunnel.go:324-346 | a write is recorded with its connection, record, bytes and time; the record is last in flight and ends at the last byte written on the connection; a failed write leaves the records alone |
| `UptunnelClient.Client.BreakLocked` | uptunnel/uptunnel.go:349-353 | no connection and nothing in flight, without giving any budget back |
| `UptunnelClient.Client.FlushResendLocked` | uptunnel/uptunnel.go:306-317 | every waiting record is written, or the connection broke and one failure is counted; the budget never grows |
| `UptunnelClient.Client.WriteNew` | uptunnel/uptunnel.go:292-300 | a new record is written only when none waits |
| `UptunnelClient.Client.SendLocked` | uptunnel/uptunnel.go:279-303 | on success nothing waits and the record is last in flight; on failure two failures are counted, it left no other trace and nothing is in flight |
| `UptunnelClient.Client.ReapLocked` | uptunnel/uptunnel.go:356-370 | a connection seen closed is retired and counted, a live one left alone; after a clean close with a reading, all that was acknowledged is confirmed; the address advances only after an unclean close |
| `UptunnelClient.Client.Refresh` | uptunnel/uptunnel.go:241-243 | a dead connection is reaped and counted; otherwise exactly the records the reading makes eligible are confirmed, in order |
| `UptunnelClient.Client.Send` | uptunnel/uptunnel.go:239-255 | keeps the balance for every behaviour of the network; reaps or polls first; on success the record, all its bytes, is the last write and nothing waits, on failure two failures are counted and no connection is left; a due fail-back is made when nothing is in flight; the callbacks run are exactly those of the records settled meanwhile |
| `UptunnelClient.Client.Poll` | uptunnel/uptunnel.go:259-275 | keeps the balance; reaps or polls first; then nothing waits, or the flush failed, with two failures counted, and strictly lowered the remaining budget and spent a resend of every record |
| `UptunnelClient.Client.CloseFlight` | uptunnel/uptunnel.go:481-489 | each record in flight is confirmed if acknowledged and lost otherwise, in order |
| `UptunnelClient.Client.Close` | uptunnel/uptunnel.go:473-502 | nothing is left in flight or waiting, and what is settled is exactly what was accepted; where readings succeed each record in flight is confirmed exactly if acknowledged to its last byte; all waiting ones are lost |
| `UptunnelClient.Client.PollWhileWaiting` | uptunnel/uptunnel.go:259-275 | whatever the network does, MaxResends Polls reach a point where nothing waits |
| `UptunnelClient.Session` | uptunnel/uptunnel.go:224-502 | over any sequence of Send, Poll, Close and peer closes: written - resent = confirmed + lost + unconfirmed + resend; the gauge is right; nothing flies while something waits; done runs at most once and exactly once by the end of Close; by the history of writes, at most MaxResends + 1 of a record, all of the same bytes; where readings succeed, every byte written on a confirmed record's connection up to and including its own was acknowledged; before a Close a record is lost only with its resends spent |
| `UptunnelClient.RecordsSound` | uptunnel/uptunnel.go:141-158 | whatever is in balance has that history |
| `PublishQueue.StepLedger` | uptunnel/queue.go:157-218 | each atomic step of a publisher or the drain keeps the byte ledger |
| `PublishQueue.QueueLedger` | uptunnel/queue.go:122-218 | under every interleaving bytes is exactly what is reserved, queued or being released; with a bound it is at most the bound or one non-empty record is booked alone; the channel is within capacity; enqueued and what publishers have sent but not counted = taken + queued + in hand |
| `PublishQueue.StepWake` | uptunnel/queue.go:140-218 | each atomic step keeps every waiting publisher blocked for a reason |
| `PublishQueue.NoLostWakeup` | uptunnel/queue.go:140-154 | a parked publisher's signal is closed, or the channel is full or a take is under way; only with a byte bound may it wait on a booking |
| `PublishQueue.AnnounceClosesAll` | uptunnel/queue.go:198-218 | the next completed take closes every signal taken before it |
| `PublishLaws.NewPublishes` | uptunnel/queue.go:122-186 | a publisher that finds room enqueues its record by its own steps alone, and changes nothing else |
| `PublishLaws.WokenPublishesReachable` | uptunnel/queue.go:140-154 | in every reachable state a parked publisher whose signal is closed, with room for its record, wakes, tries again and enqueues it by its own steps alone |
| `PublishLaws.NoRoomSheds` | uptunnel/queue.go:131-136 | where publishers do not wait, one that finds no room is shed and the queue is as it was |
| `PublishLaws.ShedForWantOfRoom` | uptunnel/queue.go:122-196 | over every run each record shed is a publisher that gave up, whose latest attempt found the channel full or the byte bound passed; publications = enqueued + shed + those at work |
| `PublishStranding.RoomForBooked` | uptunnel/queue.go:159-172 | with non-empty records and a bound no larger than the capacity, a booked record always finds room on the channel |
| `PublishStranding.StrandsIff` | uptunnel/queue.go:122-218 | for every capacity, some run strands a publisher beside an empty, idle queue if and only if publishers wait and there is a byte bound; with non-empty records, if and only if they wait and the bound exceeds the capacity |
| `Relay.Outlet.RunCalls` | uptunnel/queue.go:242-251 | confirmed callbacks count as sent and mark the pair, the others count as failed |
| `Relay.Bridge.Submit` | facade/facade.go:267-362 | a pair is dropped exactly when the plane delivered it or a record of it was confirmed, so what was shed or lost can be retried |
| `Relay.Bridge.SubmitTopics` | facade/facade.go:267-366 | the loop queues, in order, exactly the pairs the guard does not know, up to an engine error (502) or a full queue (503); 200 exactly when it reached the end |
| `Relay.UnknownInOrder` | facade/facade.go:307-347 | the records of a submission are one for each topic the guard does not know, in the topics' order |
| `Relay.Outlet.Tick` | uptunnel/queue.go:237-238 | a poll keeps the balance of what Run handed over, and binds no record to another pair |
| `Relay.Outlet.Deliver` | uptunnel/queue.go:241-257 | a record handed over is bound to its own pair, and sent or counted failed; the balance is kept |
| `Relay.LiveBridge.Offer` | facade/facade.go:267-362 | with submissions interleaved, a pair is dropped exactly when the plane delivered it or a record of it was confirmed by the time the guard is read |
| `Relay.LiveBridge.Publishing` | uptunnel/queue.go:122-206 | any step of a publisher keeps the balance; a record put on the channel is for the pair its publisher was offered |
| `Relay.LiveBridge.Receive` | uptunnel/queue.go:239 | Run takes the oldest record, with its pair |
| `Relay.LiveBridge.Deliver` | uptunnel/queue.go:241-257 | the record in hand goes to the client bound to its own pair; the balance is kept |
| `Relay.HandledOnce` | uptunnel/queue.go:226-260 | a record handed to the client is sent, failed, in flight or waiting, and exactly one of these |
| `Relay.NewCalls` | uptunnel/queue.go:242-251 | the callbacks of newly settled records count and mark exactly what the log gained |
| `Relay.EndToEnd` | uptunnel/queue.go:226-260 | with one submission at a time, enqueued = queued + sent + failed + unconfirmed + resend between records |
| `Relay.LiveEndToEnd` | uptunnel/queue.go:122-260 | with any number of publishers interleaved, at every step: enqueued and uncounted = queued + in hand + sent + failed + unconfirmed + resend |
| `Relay.LiveQuiescent` | uptunnel/queue.go:226-260 | so enqueued = queued + sent + failed + unconfirmed + resend at every quiescent point |
| `Relay.MarksFollowRecords` | facade/facade.go:336-346 | every marked pair is that of a record put on the channel, which the client confirmed under the id it was handed over with, and was let through by the guard |
| `Relay.Interleave` | uptunnel/queue.go:122-260 | every interleaving of submissions, publisher steps, takes, deliveries and ticks, whatever the network does, keeps that balance and marks only pairs it offered, once a record put on the channel for them has been confirmed |
| `Relay.MarkedMeansAcknowledged` | facade/facade.go:336-346 | where readings succeed, a pair marked Submitted has a record written on a connection of which the peer acknowledged every byte up to and including it |
| `SpvGraph.Total` | pkg/spv/check.go:179-185 | the running total is the exact sum, refused exactly when the sum passes 21e14 |
| `SpvGraph.CheckOutpoints` | pkg/spv/check.go:194-211 | passes exactly when every input names an outpoint, none null, no two the same |
| `SpvGraph.Graph.IsValidRoot` | pkg/spv/spv.go:332-348 | the tracker's own answer; a flag is raised exactly by a failure or a rejection above the tip |
| `SpvGraph.Graph.ChainTip` | pkg/spv/check.go:91-101 | the tracker's height, remembered |
| `SpvGraph.Graph.ProveMined` | pkg/spv/check.go:131-165 | ends on any finite graph; succeeds exactly when every path reached from the tip proves and every link matches, and then mined holds them |
| `SpvGraph.Graph.CheckFinal` | pkg/spv/check.go:276-301 | passes exactly for a final transaction |
| `SpvGraph.Graph.CheckDepth` | pkg/spv/check.go:303-313 | passes exactly for a proof deep enough under the tip |
| `SpvGraph.Graph.CheckSpends` | pkg/spv/check.go:220-250 | passes exactly when every spend exists and is mature and the exact input sum is in range |
| `SpvGraph.Graph.RunScripts` | pkg/spv/check.go:257-272 | passes exactly when every input's script verifies at its coin's height |
| `SpvGraph.Graph.CheckTx` | pkg/spv/check.go:168-273 | passes exactly when the structure, the sums, the policy and, unless skipped, the scripts do; a failure with no flag raised stands under every tracker that gives the same answers |
| `SpvMeaning.PassesExactly` | pkg/spv/check.go:168-273 | checkTx asks exactly: inputs and outputs, real and distinct outpoints, mature sources, no P2SH output, no confiscation, finality under the policy, exact sums in range, and the scripts unless skipped |
| `SpvMeaning.PassesConserves` | pkg/spv/check.go:220-253 | what a passing transaction pays is at most the sum of the very outputs its inputs name, itself at most 2,100,000,000,000,000 |
| `SpvMeaning.PassesSpends` | pkg/spv/check.go:347-356 | each input of a passing transaction names an output its source has |
| `SpvMeaning.P2shExact` | pkg/spv/check.go:186-193 | the scripts refused as outputs are exactly OP_HASH160, 20 bytes, OP_EQUAL |
| `SpvMeaning.ConfiscationExact` | pkg/spv/check.go:340-345 | a confiscation is exactly a first output that begins with the marker |
| `SpvMeaning.CoinHeightLaws` | pkg/spv/check.go:257-262 | a coin is judged where it was proven or as the newest; a P2SH coin that is no proven coinbase before genesis |
| `SpvMeaning.MatureExactly` | pkg/spv/check.go:303-313 | a coin mined at h is deep enough exactly when h + maturity is at most tip + 1 |
| `SpvMeaning.FinalExactly` | pkg/spv/check.go:276-301 | final exactly when unlocked, given up by every input, or locked to a height the tip has reached |
| `SpvGraph.Graph.CheckUnmined` | pkg/spv/check.go:109-128 | ends on any finite graph; succeeds exactly when every unproven transaction reached passes |
| `SpvGraph.Graph.Check` | pkg/spv/check.go:105-129 | succeeds exactly when everything reached from the tip is good, whatever earlier tips left in mined; a failure with no flag raised has a cause the tracker did answer for |
| `SpvVerifier.Classify` | pkg/spv/spv.go:242-258 | a refusal exactly when the deadline had not passed and the tracker neither failed nor was asked above its tip; each reason for its cause |
| `SpvVerifier.SpentTxids` | pkg/spv/spv.go:187-199 | exactly the txids some transaction of the object spends |
| `SpvVerifier.Verify` | pkg/spv/spv.go:187-238 | OK exactly when everything reached from every tip is good, so in any visiting order; a refused object would not pass under any tracker that keeps the answers given and fills in its errors and its rejections above the known tip; with nothing left open and time left there is no error |
| `SpvTheorems.CoverageIff` | pkg/spv/spv.go:220-234 | on an acyclic object the walks reach every unproven transaction if and only if each spent one has an unproven spender |
| `SpvTheorems.ProvenSpendsProven` | pkg/spv/check.go:136-149 | that holds when no proven transaction spends an unproven one |
| `SpvTheorems.PassingCovers` | pkg/spv/check.go:103-273 | OK then means every unproven transaction of the object passed, with exact sums outputs <= inputs <= 21e14, and every path reached proved |
| `SpvMeaning.PassingConserves` | pkg/spv/spv.go:187-238 | an OK on a covered object: no unproven transaction pays more than the outputs it names are worth, and every path reached computes a root the chain has at its height |
| `SpvTheorems.ShadowedPasses` | pkg/spv/check.go:136-149 | an object that passes though one of its transactions, well formed but for paying more than it spends, would not |
| `SpvTheorems.TrustSplit` | pkg/spv/check.go:254-272 | a full pass is exactly a pass without scripts together with every script of every unproven transaction reached |
| `SpvTheorems.TrustTransfers` | pkg/spv/spv.go:153-158 | a full pass under one tracker and finality policy and a pass without scripts under another, on one network, make a full pass under the other |
| `SpvDepth.Depths.Walk` | pkg/spv/spv.go:289-305 | ends even on a cycle; on an acyclic parent map the memoised answer is the longest parent chain, whatever was visited before |
| `SpvDepth.BuildParents` | pkg/spv/spv.go:264-282 | the in-object sources of every transaction, in input order |
| `SpvDepth.LinksExact` | pkg/spv/spv.go:274-281 | the parents linked are exactly the in-object sources |
| `SpvDepth.ObjectDepth` | pkg/spv/spv.go:286-311 | on an object with no cycle of spends no chain of in-object spends is longer than the depth, and one is that long |
| `Shadow.Canon` | feed/shadow.go:287-301 | the loop prints the sorted copy, comma-joined |
| `Shadow.SortedUnique` | feed/shadow.go:292 | there is one ascending order of a multiset, so any sort gives the same text |
| `Shadow.DecimalPlain` | feed/shadow.go:298 | a number prints as digits with no leading zero |
| `Shadow.JoinInjective` | feed/shadow.go:293-300 | the comma-joined decimals determine the list |
| `Shadow.CanonExact` | feed/shadow.go:287-301 | two canonical texts are equal if and only if the lists are equal as multisets; only the empty list prints nothing |
| `Shadow.ClassifyExact` | feed/shadow.go:261-276 | each of the four verdicts, if and only if, in terms of the answers alone, nil read as empty |
| `Shadow.ClassifySwaps` | feed/shadow.go:261-276 | swapping the engines swaps primary_only and shadow_only and fixes match and differ |
| `Shadow.RepeatsDiffer` | feed/shadow.go:278-285 | a repeated index makes answers differ |
| `FeedDrain.StepDrain` | feed/feed.go:176-234 | each atomic step of a handler, a worker or Start keeps the queue's order and what every worker holds |
| `FeedDrain.DrainComplete` | feed/feed.go:172-225 | whatever interleaves, when Start returns, everything accepted before its context ended was taken once, in order, and submitted to its end |
| `FeedDrain.LeftBehind` | feed/feed.go:193-218 | what is left after Start is exactly what was accepted after the last worker exited |
| `FeedDrain.AcceptedAndStranded` | feed/feed.go:346-362 | a run in which an object is accepted and never taken |
| `FeedDrain.DrainBounded` | feed/feed.go:193-211 | the workers' steps are bounded by the work in hand, and three more for each object that arrives |
| `FeedDrain.DrainMoves` | feed/feed.go:193-218 | after the context ends the drain is never stuck before it returns |
| `FeedDrain.FeedLedger` | feed/feed.go:345-370 | under every interleaving queuedBytes is exactly what is booked, queued or just taken; what is kept never exceeds QueueBytes, nor the queue its depth |
| `FeedLaws.Accepts` | feed/feed.go:345-363 | a delivery that finds the workers started and room, by count (256 by default) and bytes, is queued, and only that |
| `FeedLaws.ShedsUntilStarted` | feed/feed.go:346-351 | one before Start is shed and changes nothing else |
| `FeedLaws.ShedsWithoutRoom` | feed/feed.go:352-369 | one without room is shed and changes nothing else |
| `FeedLaws.Serves` | feed/feed.go:193-234 | a free worker takes the oldest object, gives its bytes back, submits it to its end and is free again |
| `FeedLaws.EachAnsweredOnce` | feed/feed.go:345-370 | over every run each delivery is accepted, shed or still in hand, and only one of these |

## Left out

- Sockets, dialing, keepalive and send-queue system calls: the environment chooses whether a dial or a write succeeds, when the peer closes and what it has acknowledged.
- HTTP servers and clients, JSON, metrics, flags, logging, route and topic parsing.
- SHA-256, merkle path computation, script execution and BEEF parsing and linking: parameters. Objects are modelled by txid, so one transaction carries one path, and the check for one txid proven at two heights (pkg/spv/check.go:144-146) cannot arise.
- Transactions that a BEEF names by txid only, or that cannot be linked: an object in the model holds its full transactions, linked as the parser links them.
- The object format codec: how a version word classifies an object is a parameter of the BUMP guard, and encoding a submission record always succeeds.
- Integer overflow of counters and of byte totals (the totals of satoshis are proved not to wrap).
- Counters of observed, rejected, orphaned, reanchored, replaced and pruned headers, of bytes written, and of inputs and proofs in an object.
- The startup check for a missing anchor hash, and lookup timeouts, which are Lookup answers that fail.
- `Known` and `Tip` on the store, `CurrentHeight` on the tracker: single-field reads.
- HeaderStore.Store.Observe: the three sections run without interference there; HeaderRace has them interleave.
- HeaderStore.Store.Warm: loads one height at a time, any of them finding the context ended; the loads of several workers in other orders, and between deliveries and reads, are events of HeaderRuns.
- HeaderRace.RaceSafety: supposes an honest Lookup, that the anchor's height is true, and headers one above their parents.
- UptunnelClient.Client.Send: global first-in first-out order is not claimed, since a flush broken midway puts records already flushed behind the one that failed. A nil done is a callback that does nothing.
- UptunnelClient.BlindConfirmation: composes the locked steps that Send and Poll run on a new client; the steps that do nothing there are left out.
- UptunnelClient.Session: calls run one after another, as the client's lock makes them, and a connection found closed during a call counts as closed after it, when it is next looked at; time is an abstract clock that never goes back.
- Relay.Bridge.Submit: bounds the queue by count and publishes in one step; the byte bound, waiting for room and other submissions are in Relay.LiveBridge. The guard is two sets that never expire.
- Relay.Bridge.SubmitTopics: the engine's answers and the shadow's offers are left out, and no callback runs between two topics of one submission.
- SpvVerifier.Verify: the deadline is an input that decides how a failure is classified; it does not cut a script short.
- FeedDrain.DrainComplete: one Start at a time, with at least one worker; without workers there is no queue. How one object is submitted, retried or cut short by the drain's own deadline is left out.
- The shadow's own queue, other local targets, load control and topic election: easier repeats of the above.
