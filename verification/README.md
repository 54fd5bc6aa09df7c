# Proofs about mrs_uav_bluetooth

This project models four parts of the Bluetooth bridge and proves what they promise.

**Reliable Mesh delivery with a turn token** (`src/app/service_node_mesh.cpp`). Nodes exchange topic
samples over a network that loses, duplicates and reorders frames. `MeshTables` says what each critical
section does to the tables of one node, and `MeshNode` holds the class whose methods update those tables
in place and are proved to compute exactly these transitions. `MeshWorker` turns the worker tick, the send
routine and the receive callbacks into events that interleave between critical sections. `MeshNetwork` puts
several nodes on the network and records what really happened: which payload each sample framed, what each
node published, which samples spent a turn. The main results:

- at most one token per channel over whole runs, reclaims of lost turns included (`TurnTokens`, `TurnSafety`,
  `TurnTheorems`, with concrete runs in `TurnWitness`);
- a receipt means the peer's bridge published a payload framed for that very sample (`AckSoundness`), and a
  repair or query of a published sample is answered by a receipt its sender accepts (`MeshReceipts`);
- exactly which frames a tick builds, and that every due one is built (`MeshTick`); exactly what the send
  routine decides and what each daemon answer changes (`MeshSends`, `MeshAnswers`);
- every sample is published at most once by each receiver (`AtMostOnce`);
- every native transfer handle is in exactly one place, and precisely one event loses one
  (`MeshHandles`, `MeshRuns`, with a run in `MeshLoss`);
- the newest value of a channel is kept and first transmissions never go back (`MeshLatest`);
- table bounds, the repair budget and sequence allocation across wrap-around (`MeshInvariant`), and the
  wire layout (`MeshFrame`).

**Expression evaluator** (`src/bridge/math_expression.cpp`). The two recursive-descent evaluators are
classes with a mutable position (`IntegerExpr`, `FloatExpr`). The exact one is proved complete and sound for
its grammar on every input string, exact within 128 bits, the inverse of a minimal printer
(`ExprTheorems`), and a refinement of the floating one where every division is exact (`ExprRefinement`). The
floating one is proved complete for its grammar with calls and decimal literals (`FloatTheorems`).

**BlueZ object cache** (`src/bluez/object_manager_cache.cpp`). The four path-indexed tables, maintained
from signals, equal a parse of the exported tree from scratch, an observer that replays the dispatched events holds
the cached key sets, and refreshes and daemon replacements reconcile with the snapshot (`CacheTheorems`,
`CacheEvents`, `CacheSnapshots`, `CacheRuns`; the class is in `ObjectCache`).

**Bridge layout and packet budgets** (`src/bridge/generic_message_bridge.cpp`, `src/app/service_node.cpp`).
Encoder and decoder expand field paths independently, the decoder knowing only the payload size; both obtain
the same ordered leaves (`LayoutTheorems`; the loops are in `BridgeCodec`), and what each of them accepts is
characterised by the path alone (`LayoutPaths`). `Advertisement` proves the byte
budgets of length/type/data structures (Bluetooth Core Specification, Vol 3, Part C, section 11).

## Where the code does less than it seems to promise

- Reclaiming a silent turn leaves one token exactly when no node holds it and no copy that carries it can
  still arrive or be taken back (`TurnTheorems.ReclaimSafeIff`); copies that were lost do not matter
  (`TurnWitness.LostTurnReclaimed`). The 12 s deadline alone does not give this: a holder that has nothing to
  send keeps its permission while the lowest member reclaims (`TurnTheorems.SilentHolderBreaks`, reached by
  `TurnWitness.SilentHolderReached`), and a copy that is merely late arrives after the reclaim
  (`TurnTheorems.LateCopyBreaks`, reached by `TurnWitness.LateCopyReached`).
- Line 603 of `service_node_mesh.cpp` overwrites the group slot when two peers of one fan-out acknowledge
  before their sends are recorded, and the first handle is then cancelled by nobody. A run loses a handle exactly
  when this happens (`MeshRuns.LossIffOverwrite`, `MeshRuns.EarlyReceiptsLose`, reached by `MeshLoss.HandleIsLost`).
- A malformed payload empties the waiting slot of its channel before it is rejected
  (`MeshLatest.MalformedOfferDropsWaiting`).
- A seen entry protects its key for 90 s and no longer (`AtMostOnce.DecodedAgainIff`).
- A refresh whose snapshot knows nothing of the device erases stale entries without an event
  (`CacheSnapshots.RefreshReplaysIff`), and removing only an interface cascades further than the daemon said
  unless nothing was left below it (`CacheTheorems.CascadeAgreesIff`).
- The handlers ignore some changes: an invalidated property other than the advertising payloads, a changed
  identity or parent of a GATT object, a value of the wrong type. The cache then differs from a parse exactly
  when such a property would read differently (`CacheTheorems.ChangeAgreesIff`).
- A path that changes its interface kind keeps its old entry after a refresh
  (`CacheSnapshots.ReconcilesExactlyIff`).
- The UUID selection reserves one list header although up to three are sent
  (`Advertisement.MixedWidthsExceedByFour`).
- The comments call sequences nonzero; 0 is handed out exactly when it is the first free one after the
  counter (`MeshInvariant.AllocatesZeroIff`, `MeshInvariant.ZeroIsAllocated`).
- A refused receipt is looked up in the node's own pending table by its sequence number and defers a sample
  of the node itself exactly when the numbers coincide (`MeshRefusal.RefusalTouchesIff`,
  `MeshRefusal.ReceiptDefersSample`).
- Encoder and decoder do not accept the same paths: the encoder follows an open slice in the middle of a path,
  which the decoder rejects (`LayoutPaths.CollectsIff`, `LayoutPaths.CountsIff`), and an index beyond a fixed
  array is counted by the decoder and fails only when it is bound (`LayoutPaths.BindsIff`).
- With division the two evaluators agree where every quotient is exact and part at the first remainder
  (`ExprRefinement.ExactDivisionRefines`, `ExprRefinement.LastDivisionIff`).

## Assumptions of the run theorems

Mutual exclusion assumes that all nodes computing a ring see the same lowest member, that this member is
not reset, that a silent turn is reclaimed only when nobody holds it and no copy of it can still arrive, and that a receiver forgets a key
only when no copy of that sample may still come. Receipt soundness assumes that a new sample's key is not
reused while a frame, receipt or receiver still carries it. At-most-once publication assumes no reset and
that copies and decodes stay within the retention. All of them assume that member lists exclude the
local and the unassigned address and that the nodes agree on the vendor opcode of a channel.

## Model

| member | source | states |
|---|---|---|
| MeshFrame.MakeReliableData | src/app/service_node_mesh.cpp:88-105 | the byte-by-byte assembly produces the wrapped frame the round trip is about |
| MeshFrame.WrapRoundTrip | src/app/service_node_mesh.cpp:49-105 | for every accepted bridge frame, sequence, swarm id and turn marker: two bytes longer on the wire, header fields decode to what was encoded, the receiver's reconstruction returns the original bytes |
| MeshFrame.WireBytes | src/app/service_node_mesh.cpp:88-105 | the bytes on the air: prefix, marker, sequence and swarm id low byte first, channel and payload as the bridge frame had them |
| MeshFrame.RoundTripIffAccepted | src/app/service_node_mesh.cpp:1135-1138 | a long enough payload survives the trip exactly when the sender's frame check accepts it |
| MeshFrame.ControlFramesKeepIdentity | src/app/service_node_mesh.cpp:976-982 | receipts and queries carry opcode, sequence and swarm id of the frame they answer |
| MeshFrame.ReceiptBytes | src/app/service_node_mesh.cpp:976-982 | a receipt is the first eight bytes of the frame it answers under the receipt marker |
| TurnRing.TurnMembers | src/app/service_node_mesh.cpp:111-118 | strictly ascending list of exactly the local address and the peers |
| TurnRing.RingIsOneCycle | src/app/service_node_mesh.cpp:1198-1229 | n consecutive handoffs visit all n members, none twice, and return to the start |
| TurnRing.SuccessorIsPeer | src/app/service_node_mesh.cpp:1223-1228 | with a peer present the turn is handed to a peer |
| MeshInvariant.AllocateSequence | src/app/service_node_mesh.cpp:1190-1192 | the retry loop ends after at most pending + 1 increments with a sequence that is not pending |
| MeshInvariant.AllocateIsFirstFree | src/app/service_node_mesh.cpp:1190-1192 | by pigeonhole, across 16-bit and 32-bit wraps, the result is the first free value after the counter |
| MeshInvariant.AllocatesZeroIff | src/app/service_node_mesh.cpp:1190-1192 | sequence 0 is handed out if and only if it is free and every sequence between the counter and the wrap is taken |
| MeshInvariant.PlanIsOk | src/app/service_node_mesh.cpp:1153-1230 | a planned send has distinct targets, a free sequence, and its successor among the targets |
| MeshInvariant.TickBounded | src/app/service_node_mesh.cpp:684-789 | a tick keeps at most 32 samples, 128 receipts, 3 repairs per peer, and builds at most 6 frames |
| MeshInvariant.EventKeeps | src/app/service_node_mesh.cpp:585-1333 | every event of a node keeps these bounds and the state of the running send |
| MeshInvariant.RunKeeps | src/app/service_node_mesh.cpp:585-1333 | they hold at every point of every run |
| MeshTick.TickServes | src/app/service_node_mesh.cpp:684-789 | everything a locked tick does: after the receipts, walking the awaited peers by sequence and address, a query or marked repair is built exactly where one is due while fewer than six frames are; for each the item and the peer's new record, the transfer checks, the back-off of peers of expired samples, and where every waiting value goes |
| MeshTick.FrameExactly | src/app/service_node_mesh.cpp:743-771 | serving a peer appends a query if and only if its query is due and its retry is not; a repair if and only if the retry is due, attempts are left, none is scheduled and the peer is not backed off; item and record in both cases |
| MeshTick.DueFrameBuilt | src/app/service_node_mesh.cpp:735-771 | an awaited peer of a live sample whose query or repair is due gets it in this tick unless six frames were built; a repair also gives way to a pause of the peer and to an earlier sample's repair to it |
| MeshTick.NothingWaits | src/app/service_node_mesh.cpp:723-788 | no value of a bridge frame is left in a slot after a tick: it is in the lowest live sample of its channel or released |
| MeshTick.ExpireEach | src/app/service_node_mesh.cpp:708-716 | the back-off of every peer after an expiry, in literal times and counts |
| MeshHandles.EventConserves | src/app/service_node_mesh.cpp:585-657 | for every handle and event, owned + settled + lost afterwards equals owned + issued before |
| MeshRuns.RunConserves | src/app/service_node_mesh.cpp:585-657 | over every run each issued handle is owned by one place, settled, or lost |
| MeshRuns.LossIffOverwrite | src/app/service_node_mesh.cpp:597-605 | a run loses no handle if and only if no recording finds its peer acknowledged and the group slot taken |
| MeshRuns.EarlyReceiptsLose | src/app/service_node_mesh.cpp:1283-1296 | from any node about to send two copies, two early receipts make the second recording lose the first handle |
| MeshLoss.HandleIsLost | src/app/service_node_mesh.cpp:597-605 | a run from a fresh node reaches the recording that loses a handle, for any two handles the daemon returned |
| MeshLatest.EventFresh | src/app/service_node_mesh.cpp:1097-1152 | slots, ready list and running send only ever hold the newest offer of their channel, not yet transmitted |
| MeshLatest.EventRetains | src/app/service_node_mesh.cpp:723-734 | the newest value stays in the slot, ready list, running send or a pending sample until that sample is complete, expired, evicted or cleared |
| MeshLatest.RunFresh | src/app/service_node_mesh.cpp:1087-1333 | the freshness invariant over whole runs of offers in age order |
| MeshLatest.FirstTransmissionsAdvance | src/app/service_node_mesh.cpp:1283-1333 | every first transmission carries the newest offer; an age repeats only for further copies of the same sample |
| MeshLatest.RepairsNeverGoBack | src/app/service_node_mesh.cpp:723-734 | a tick never replaces a sample's value by an older one |
| MeshLatest.SlotsNeverGoBack | src/app/service_node_mesh.cpp:1101-1133 | over every event a waiting value is only replaced by a newer one; a resumed value never displaces it |
| MeshLatest.MalformedOfferDropsWaiting | src/app/service_node_mesh.cpp:1124-1138 | a fresh offer is rejected exactly when it is no bridge frame, and then the waiting value is gone as well |
| MeshLogs.StepLogged | src/app/service_node_mesh.cpp:659-1333 | every network step keeps frames, pending samples, slots and publications in agreement with what was really offered and framed |
| TurnSafety.StepTokenOk | src/app/service_node_mesh.cpp:1002-1056 | every step keeps: what carries the turn belongs to a sample that spent it, unsent samples have no copies, published samples stay remembered while copies may come |
| TurnTheorems.OnlyLowestMints | src/app/service_node_mesh.cpp:1201-1218 | a permission is created only by a node that sees itself lowest, on first use or after the reclaim deadline |
| TurnTheorems.StepPlaces | src/app/service_node_mesh.cpp:1198-1333 | every step keeps, loses or moves the places of a token (holders, and samples whose marked copy may still be published or taken back); only a mint adds one, at the minting node |
| TurnTheorems.TokensNeverMultiply | src/app/service_node_mesh.cpp:1198-1333 | sending, refusal of every copy, repair, duplication, loss, delivery, expiry and eviction never raise the number of tokens |
| TurnTheorems.RunTokens | src/app/service_node_mesh.cpp:1198-1333 | in every disciplined run, reclaims of lost turns included, there is at most one token, and none before the lowest member first used the channel |
| TurnTheorems.MutualExclusion | src/app/service_node_mesh.cpp:1198-1333 | in every disciplined run no two nodes are permitted at once, nor one while a turn-carrying sample is unpublished |
| TurnTheorems.MintAdds | src/app/service_node_mesh.cpp:1213-1218 | a mint adds exactly its own node to the places of the token |
| TurnTheorems.ReclaimSafeIff | src/app/service_node_mesh.cpp:1213-1218 | a reclaim leaves at most one token if and only if no node held the turn and no copy that carries it could still arrive or be taken back |
| TurnTheorems.SilentHolderBreaks | src/app/service_node_mesh.cpp:1213-1218 | whenever another node silently holds the permission, the reclaim leaves two permitted nodes |
| TurnTheorems.LateCopyBreaks | src/app/service_node_mesh.cpp:1029-1052 | while a marked copy its receiver has not seen is on the air, the due reclaim of the lowest member, the delivery and the publication of the copy follow each other and leave two permitted nodes |
| TurnWitness.LateCopyReached | src/app/service_node_mesh.cpp:1029-1052 | a disciplined run reaches a state in which nobody holds the turn and its only copy is late; the due reclaim and then the copy leave two permitted nodes |
| TurnWitness.SilentHolderReached | src/app/service_node_mesh.cpp:1213-1218 | a disciplined run reaches a silent holder, and there the due reclaim of the lowest member leaves two permitted nodes |
| TurnWitness.LostTurnReclaimed | src/app/service_node_mesh.cpp:1213-1218 | a turn lost with its only copy is reclaimed in a disciplined run although its sample was never published |
| TurnTheorems.PlanHandsOn | src/app/service_node_mesh.cpp:1223-1228 | a turn-consuming plan names the ring successor of its node, a peer |
| TurnTheorems.OneMarkedCopy | src/app/service_node_mesh.cpp:1283-1287 | exactly one destination of a turn-consuming sample gets the marked copy |
| MeshReceipts.ReceivedExactly | src/app/service_node_mesh.cpp:996-1007 | a received data frame or query is answered if and only if its key is marked delivered, unless 128 receipts wait, and decoded if and only if it is data of an unknown key, which is then remembered as not delivered |
| MeshReceipts.FinishedExactly | src/app/service_node_mesh.cpp:1029-1057 | a successful decode of a remembered key marks it delivered, queues its receipt and records the turn the copy carried; a failed one forgets the key |
| MeshReceipts.StruckExactly | src/app/service_node_mesh.cpp:945-963 | a receipt strikes its source off exactly the sample with its sequence, key index, prefix and swarm, releases that transfer and clears the peer's back-off; any other changes nothing |
| MeshReceipts.RepairIsAnswered | src/app/service_node_mesh.cpp:945-1007 | the repair or query of a sample its receiver published puts a receipt into the receiver's queue that strikes the peer off at the sender |
| MeshReceipts.ReceiptLeaves | src/app/service_node_mesh.cpp:692-697 | a queued receipt moves four places with each tick and leaves in order |
| AckSoundness.MatchedKey | src/app/service_node_mesh.cpp:948-955 | a receipt matching a pending sample carries that sample's key |
| AckSoundness.StepReceiptsOk | src/app/service_node_mesh.cpp:945-1056 | every step keeps queued, sent and flying receipts truthful |
| AckSoundness.ReceiptMeansPublished | src/app/service_node_mesh.cpp:945-963 | when a receipt strikes a peer off, that peer published for this very sample a payload its sender framed and was offered |
| AtMostOnce.EventOnce | src/app/service_node_mesh.cpp:996-1056 | every event of a receiver keeps its seen table in agreement with what it published |
| AtMostOnce.PublishedAtMostOnce | src/app/service_node_mesh.cpp:1002-1056 | between resets each (source, key index, swarm, opcode, sequence) is published at most once |
| AtMostOnce.DeliveredMeansPublished | src/app/service_node_mesh.cpp:1029-1035 | a key marked delivered was published exactly once |
| AtMostOnce.DecodedAgainIff | src/app/service_node_mesh.cpp:686-691 | after a tick a further copy is decoded again if and only if the entry was older than 90 s |
| MeshHandles.RememberStored | src/app/service_node_mesh.cpp:585-609 | recording a returned handle adds it to exactly one place of the tables; what leaves is only the handle it replaces or overwrites |
| MeshNode.ReliableState.FlushCancellations | src/app/service_node_mesh.cpp:611-634 | with an application, cancelled handles followed by the remaining queue are the old queue, wherever a daemon call throws; without one the swapped batch is discarded |
| MeshNode.ReliableState.DropSample | src/app/service_node_mesh.cpp:1248-1254 | an evicted sample is forgotten and its group and target handles are all queued for cancellation |
| MeshNode.ReliableState.CancelAllSamples | src/app/service_node_mesh.cpp:640-646 | the queue gains exactly the handles of all pending samples |
| MeshNode.ReliableState.Clear | src/app/service_node_mesh.cpp:636-657 | releases every handle, forgets, and flushes: what was cancelled and what is still queued are together all handles the node held |
| MeshSends.ClearedExactly | src/app/service_node_mesh.cpp:636-657 | a reset forgets everything but the sequence counter, keeps the waiting values exactly when asked to, and releases every handle the samples hold |
| MeshNode.ReliableState.PurgeSeen | src/app/service_node_mesh.cpp:686-691 | erase-while-iterating keeps exactly the entries not older than 90 s |
| MeshNode.ReliableState.TakeAcks | src/app/service_node_mesh.cpp:692-697 | the first four receipts become outbound frames in order, the rest stay queued |
| MeshNode.ReliableState.ExpirePeers | src/app/service_node_mesh.cpp:708-716 | every awaited peer of an expired sample backs off as specified |
| MeshNode.ReliableState.ExpireSample | src/app/service_node_mesh.cpp:707-722 | expiry releases the sample's handles, backs off from its peers and forgets it |
| MeshLogs.RenewedOk | src/app/service_node_mesh.cpp:723-734 | a sample renewed with a waiting value keeps its sequence, key, channel and opcode, so its receipts still match |
| MeshNode.ReliableState.ServeTargets | src/app/service_node_mesh.cpp:735-771 | the loop over the awaited peers is the target pass, each step as MeshTick.FrameExactly says, with its limit of six frames |
| MeshNode.ReliableState.ServeSample | src/app/service_node_mesh.cpp:700-773 | completed, expired and live samples are handled as in the sample step |
| MeshNode.ReliableState.ServeSamples | src/app/service_node_mesh.cpp:698-773 | the erase-while-iterating loop visits the samples present at its start in sequence order |
| MeshNode.ReliableState.AnyBlocking | src/app/service_node_mesh.cpp:775-781 | true exactly when a pending sample of the channel blocks it |
| MeshNode.ReliableState.ReleaseReady | src/app/service_node_mesh.cpp:774-788 | exactly the waiting values of free channels move to the ready list, in channel order |
| MeshNode.ReliableState.MaintainLocked | src/app/service_node_mesh.cpp:684-789 | the whole locked tick computes the transition MeshTick.TickServes determines |
| MeshRefusal.RefusalTouchesIff | src/app/service_node_mesh.cpp:827-843 | a refusal changes the pending samples if and only if the frame names one awaited here and there is an attempt to refund or a retry to move; then it defers that target alone |
| MeshSends.RefusedExactly | src/app/service_node_mesh.cpp:827-843 | a refused frame puts its awaited peer off by 250 ms, refunds the attempt and marks the peer busy; nothing else changes |
| MeshSends.RequeuedExactly | src/app/service_node_mesh.cpp:849-855 | a receipt whose send threw returns to the front of the queue while fewer than 128 wait |
| MeshSends.RememberedExactly | src/app/service_node_mesh.cpp:585-609 | a recorded transfer blocks the channel of an awaiting sample, fills its group slot, or is queued for cancellation |
| MeshSends.CheckedExactly | src/app/service_node_mesh.cpp:793-803 | a finished transfer releases its channel if and only if its target still holds that very handle |
| MeshAnswers.FrameAnswered | src/app/service_node_mesh.cpp:816-857 | each answer to a frame of the tick: which admitted copies are recorded, what a refusal and what a failure changes |
| MeshAnswers.CheckAnsweredExactly | src/app/service_node_mesh.cpp:790-803 | a transfer still carried changes nothing, a finished one releases its channel |
| MeshRefusal.ReceiptDefersSample | src/app/service_node_mesh.cpp:830-842 | a run reaches a state in which refusing a receipt moves the retry of the node's own sample |
| MeshLatest.GateFresh | src/app/service_node_mesh.cpp:1101-1152 | the gate keeps the offered value, in its slot or in the running send, and every other retained value |
| MeshSends.GatedExactly | src/app/service_node_mesh.cpp:1101-1152 | a value goes on to planning if and only if the node is ready, the bridge reliable and coordinated, the payload a bridge frame, no sample blocks its channel, and no newer value replaced it; slot and outcome in every case |
| MeshNode.ReliableState.ProbeNext | src/app/service_node_mesh.cpp:1164-1179 | at most one due peer is probed, round robin, skipping peers that back off |
| MeshSends.ProbedExactly | src/app/service_node_mesh.cpp:1164-1179 | when the period has passed, the probed peer is the first in cyclic order from the cursor that does not back off, none if and only if all do |
| MeshNode.ReliableState.PlanSend | src/app/service_node_mesh.cpp:1153-1230 | targets, sequence, successor and turn, or the value is stored |
| MeshSends.TurnExactly | src/app/service_node_mesh.cpp:1198-1219 | a node may send if and only if it was permitted, or is lowest and uses the channel first or finds the deadline passed |
| MeshSends.PlannedExactly | src/app/service_node_mesh.cpp:1153-1230 | a plan is made if and only if somebody can be addressed and, with a known ring, the node may send; its targets are the live peers and the probed one, its sequence the first free one |
| MeshNode.ReliableState.OldestAmong | src/app/service_node_mesh.cpp:1242-1247 | the first of the oldest samples |
| MeshNode.ReliableState.Enqueue | src/app/service_node_mesh.cpp:1239-1274 | a full table loses its oldest sample, handles released, and the new sample awaits every target |
| MeshSends.EnqueuedExactly | src/app/service_node_mesh.cpp:1239-1274 | at 32 samples the oldest, the lowest sequence among equals, is evicted and its handles queued; the new sample awaits every target with the stated times, and all others stay |
| TurnTheorems.SpendPlaces | src/app/service_node_mesh.cpp:1275-1281 | spending moves the token from the node into its sample |
| MeshSends.SpentExactly | src/app/service_node_mesh.cpp:1275-1281 | spending gives the permission up and sets the reclaim deadline twelve seconds ahead |
| MeshAnswers.CopyAnswered | src/app/service_node_mesh.cpp:1283-1324 | each answer to a first copy: an admitted one counts and is recorded next, a refused or failed one is put off, only a refusal marks the peer busy |
| MeshSends.FailedExactly | src/app/service_node_mesh.cpp:1297-1324 | a first copy that was refused or failed is retried after 250 ms |
| MeshAnswers.SendFinishes | src/app/service_node_mesh.cpp:1325-1333 | the sample is withdrawn if and only if no copy was admitted; its value then waits again, unless a newer one does, and a spent turn comes back |
| TurnTheorems.FinishPlaces | src/app/service_node_mesh.cpp:1325-1331 | withdrawing a sample no copy of which was admitted takes its token back, and nothing else changes hands |
| MeshHandles.AckStored | src/app/service_node_mesh.cpp:947-963 | a receipt neither drops nor duplicates a handle: what its target held is queued for cancellation |
| MeshNode.ReliableState.QueueAck | src/app/service_node_mesh.cpp:973-993 | one receipt per source and transfer, within the bound |
| TurnTheorems.DecodePlaces | src/app/service_node_mesh.cpp:1029-1057 | publishing the marked copy moves the token from the sample to its successor; any other end of a decode moves none |
| IntegerExpr.IntegerParser.Evaluate | src/bridge/math_expression.cpp:198-204 | the class computes the evaluator the theorems are about, whole input consumed |
| IntegerExpr.IntegerParser.Whitespace | src/bridge/math_expression.cpp:213-217 | leaves the text after its leading blanks |
| IntegerExpr.IntegerParser.Consume | src/bridge/math_expression.cpp:222-230 | takes the token if it comes next after blanks, otherwise only the blanks |
| IntegerExpr.IntegerParser.ParseSum | src/bridge/math_expression.cpp:242-254 | result and new position of the sum loop |
| IntegerExpr.IntegerParser.ParseProduct | src/bridge/math_expression.cpp:258-273 | result and new position of the product loop |
| IntegerExpr.IntegerParser.ParseUnary | src/bridge/math_expression.cpp:277-286 | result and new position of signed operands |
| IntegerExpr.IntegerParser.ParsePrimary | src/bridge/math_expression.cpp:290-332 | result and new position of groups, literals and identifiers |
| IntegerExpr.IntegerParser.ParseLiteral | src/bridge/math_expression.cpp:301-314 | digits are accumulated with overflow checks; a decimal point or exponent asks for the floating path |
| IntegerExpr.IntegerParser.ParseIdentifier | src/bridge/math_expression.cpp:315-332 | the longest name; calls, pi and declined names ask for the floating path |
| ExprTheorems.Complete | src/bridge/math_expression.cpp:198-332 | every well-formed text with any blanks evaluates to its left-associative checked value, asks for the floating path where a literal or call does, or fails exactly as that evaluation does |
| ExprTheorems.PointAsksForFloating | src/bridge/math_expression.cpp:301-314 | a first literal with a point or exponent asks for the floating path whatever follows, unless the digits before it overflow |
| ExprTheorems.CallAsksForFloating | src/bridge/math_expression.cpp:315-332 | so does a first call, whatever its name and arguments |
| ExprTheorems.Sound | src/bridge/math_expression.cpp:198-332 | a returned value means the whole input was one well-formed relation with that checked value |
| ExprTheorems.Truncates | src/bridge/math_expression.cpp:268-270 | quotient and remainder are those of division truncating toward zero |
| ExprTheorems.QuotientRange | src/bridge/math_expression.cpp:268-270 | a quotient leaves the 128-bit range exactly for the minimum divided by -1 |
| ExprTheorems.CheckedIffExact | src/bridge/math_expression.cpp:242-314 | checked evaluation succeeds exactly when every intermediate lies in -2^127..2^127-1, and is then exact |
| ExprTheorems.ValueIffDenotes | src/bridge/math_expression.cpp:198-332 | for every input string, a value is returned if and only if the text denotes it |
| ExprTheorems.ParserInvertsPrinter | src/bridge/math_expression.cpp:185-337 | minimally parenthesised text of any tree, with any blanks, evaluates to the tree's checked value and fails exactly when that fails |
| ExprTheorems.WritesFits | src/bridge/math_expression.cpp:242-332 | text of a tree is well formed and means the tree |
| ExprTheorems.PrintWrites | src/bridge/math_expression.cpp:242-332 | the printer writes its tree, so every tree has such a text |
| ExprTheorems.PrintIsMinimal | src/bridge/math_expression.cpp:242-332 | no text of the same tree has fewer parentheses |
| FloatExpr.Parser.Evaluate | src/bridge/math_expression.cpp:35-42 | the class computes the floating evaluator over ideal reals, whole input consumed |
| FloatExpr.Parser.ParseSum | src/bridge/math_expression.cpp:77-85 | result and new position of the sum loop |
| FloatExpr.Parser.ParseProduct | src/bridge/math_expression.cpp:89-100 | result and new position of the product loop with its division check |
| FloatExpr.Parser.ParseUnary | src/bridge/math_expression.cpp:104-109 | result and new position of signed operands |
| FloatExpr.Parser.ParsePrimary | src/bridge/math_expression.cpp:137-174 | groups, scanned numbers, identifiers and calls |
| FloatExpr.Parser.ReadName | src/bridge/math_expression.cpp:156-163 | the longest identifier |
| FloatExpr.Parser.ParseCall | src/bridge/math_expression.cpp:164-171 | arguments in order, closing parenthesis, then the call FloatTheorems.CallExactly characterises |
| FloatExpr.Parser.ParseArguments | src/bridge/math_expression.cpp:167-167 | the do-while loop reads the comma-separated list |
| FloatTheorems.FloatingComplete | src/bridge/math_expression.cpp:35-174 | on every relation, calls and decimal literals included, with any blanks, the floating path returns its left-associative value over ideal reals or fails exactly as that evaluation does, arguments in order |
| FloatTheorems.CallExactly | src/bridge/math_expression.cpp:115-133 | a call fails if and only if the name is unknown or the number of arguments wrong; min is one of its arguments and at most both, max dually, clamp lies in its bounds and is the identity inside, abs, floor and round by their inequalities, the analytic functions get their arguments in order |
| FloatTheorems.MeaningIsUnique | src/bridge/math_expression.cpp:126-131 | these properties leave one value only for abs, floor, round, min, max and clamp with ordered bounds |
| ExprRefinement.ExactDivisionRefines | src/bridge/math_expression.cpp:35-332 | where every division is exact, a value of the exact path is also the value of the floating path |
| ExprRefinement.ExactRefinesFloating | src/bridge/math_expression.cpp:35-332 | on text without / and %, a value of the exact path is also the value of the floating path |
| ExprRefinement.LastDivisionIff | src/bridge/math_expression.cpp:89-100 | when only the last division may be inexact, the floating path returns the real quotient, and the paths agree if and only if there is no remainder |
| ExprRefinement.FloatingRejectsPercent | src/bridge/math_expression.cpp:35-174 | the floating path accepts no text with a percent sign |
| CacheTheorems.AddedAgrees | src/bluez/object_manager_cache.cpp:539-563 | processing added interfaces equals parsing the tree that gained them |
| CacheTheorems.RemovedAgrees | src/bluez/object_manager_cache.cpp:830-935 | the cascade equals parsing the tree that lost the subtree |
| CacheTheorems.CascadeAgreesIff | src/bluez/object_manager_cache.cpp:841-922 | if the daemon drops one interface only, cache and tree agree exactly when nothing deeper is left below it |
| CacheTheorems.CascadeExactly | src/bluez/object_manager_cache.cpp:830-922 | removing an interface takes exactly the object itself and the cached objects of deeper kinds whose path continues with a slash |
| CacheTheorems.FieldParsed | src/bluez/object_manager_cache.cpp:939-1108 | for every kind and property the parsed record holds the D-Bus value where it has the right type, exactly the byte-array entries of a payload map, and otherwise the literal default |
| CacheTheorems.FieldChanged | src/bluez/object_manager_cache.cpp:597-734 | property by property, a handler clears to the default, takes over the D-Bus value, or keeps the cached value |
| CacheTheorems.ChangeAgreesIff | src/bluez/object_manager_cache.cpp:583-735 | after any PropertiesChanged of an exported object the tables equal a parse if and only if every property is caught: an invalidated one is cleared or reads as its default anyway, a changed one is taken over or reads as before |
| CacheTheorems.ChangedAgrees | src/bluez/object_manager_cache.cpp:583-735 | PropertiesChanged with readable values and handled keys keeps all four tables equal to a parse |
| CacheTheorems.IgnoredInvalidation | src/bluez/object_manager_cache.cpp:638-652 | an input that is not caught: an invalidated signal strength stays cached although the property is gone |
| CacheEvents.ChangeEventsExactly | src/bluez/object_manager_cache.cpp:583-735 | which event follows which change: one for a device when anything arrives or a payload is withdrawn, for characteristics and descriptors one for metadata and then one for the value, none for anything else |
| CacheEvents.NothingChangesSilently | src/bluez/object_manager_cache.cpp:583-741 | a cached property that differs after a signal is announced, a value as a new value, anything else as a change |
| CacheEvents.AddedExactly | src/bluez/object_manager_cache.cpp:745-828 | processing an object announces exactly the keys it newly cached, each once, parents before children |
| CacheSnapshots.OrderIrrelevant | src/bluez/object_manager_cache.cpp:523-529 | the tables after a snapshot do not depend on the order of its objects |
| CacheSnapshots.ReloadIsBatch | src/bluez/object_manager_cache.cpp:504-537 | loading into empty tables gives the snapshot alone |
| CacheSnapshots.Reconciles | src/bluez/object_manager_cache.cpp:369-422 | below the device only snapshot paths stay, snapshot objects are cached with parsed values, everything else is untouched |
| CacheSnapshots.ReconcilesExactlyIff | src/bluez/object_manager_cache.cpp:369-422 | below the device the tables equal the snapshot if and only if no path changed its interface kind |
| CacheSnapshots.SiblingsUntouched | src/bluez/object_manager_cache.cpp:34-39 | a refresh leaves objects that merely share a name prefix with the device as they were |
| CacheSnapshots.RemovalReplays | src/bluez/object_manager_cache.cpp:830-935 | replaying the events of one removal signal gives the keys still cached |
| CacheSnapshots.ChangeReplays | src/bluez/object_manager_cache.cpp:583-741 | a property change never changes the replayed keys |
| CacheSnapshots.ProcessAllReplays | src/bluez/object_manager_cache.cpp:745-828 | replaying the additions of a snapshot gives the new keys |
| CacheSnapshots.RefreshReplaysIff | src/bluez/object_manager_cache.cpp:358-436 | the observer agrees after a refresh if and only if objects were found or nothing was cached below the device |
| CacheSnapshots.RefreshIsIdempotent | src/bluez/object_manager_cache.cpp:336-437 | repeating a refresh on the same snapshot changes nothing and sends no event |
| CacheRuns.RemovalChildrenFirst | src/bluez/object_manager_cache.cpp:841-922 | within one removal signal children are removed before parents |
| CacheRuns.RefreshChildrenFirst | src/bluez/object_manager_cache.cpp:395-420 | within one refresh children are removed before parents |
| CacheRuns.OwnerReplays | src/bluez/object_manager_cache.cpp:460-502 | after a daemon replacement the observer holds the cached keys, children removed first |
| CacheRuns.ReplacementIsBatch | src/bluez/object_manager_cache.cpp:460-537 | after a replacement with successful reload the tables are the new snapshot alone, in any order |
| CacheRuns.CacheAgrees | src/bluez/object_manager_cache.cpp:460-741 | a signal that is followed (it arrives, and a property change is caught) keeps an agreeing cache equal to a parse, and a daemon replacement restores agreement |
| CacheRuns.SignalObserves | src/bluez/object_manager_cache.cpp:336-741 | every handler, whatever property change it is given and whatever was missed before, keeps cache and observer in agreement, unless it is a refresh that erases silently |
| CacheRuns.RunAgrees | src/bluez/object_manager_cache.cpp:336-935 | over every run, missed signals and uncaught changes included, the tables equal a parse from scratch whenever every signal was followed since the last daemon replacement |
| CacheRuns.ChangeStaysIff | src/bluez/object_manager_cache.cpp:583-741 | at a point of a run that is in step, a property change leaves the tables equal to a parse if and only if it is caught |
| CacheRuns.RunObserves | src/bluez/object_manager_cache.cpp:336-935 | over every run, missed signals and any property changes included, the observer holds the cached key sets as long as no refresh erased silently |
| CacheRuns.FaithfulRun | src/bluez/object_manager_cache.cpp:336-935 | while every signal is followed exported tree, cache and observer agree throughout, and nothing is silenced |
| CacheRuns.RefreshRepairsIff | src/bluez/object_manager_cache.cpp:336-437 | an answered refresh of a named device repairs whatever was missed below its device if and only if no path changed its interface kind |
| ObjectCache.ObjectManagerCache.ProcessObject | src/bluez/object_manager_cache.cpp:745-828 | each known interface is parsed into its table; only new entries are announced, in table order |
| ObjectCache.ObjectManagerCache.EraseSubtree | src/bluez/object_manager_cache.cpp:843-874 | exactly the deeper kinds strictly below the path are erased, descriptors announced first |
| ObjectCache.ObjectManagerCache.RemoveInterface | src/bluez/object_manager_cache.cpp:842-922 | cascade of one interface with one removal event for each erased key, children first |
| ObjectCache.ObjectManagerCache.RemoveInterfaces | src/bluez/object_manager_cache.cpp:830-935 | the loop over the named interfaces |
| ObjectCache.ObjectManagerCache.Invalidate | src/bluez/object_manager_cache.cpp:638-652 | exactly the invalidated payloads are cleared, and whether there was one |
| ObjectCache.ObjectManagerCache.ChangeDevice | src/bluez/object_manager_cache.cpp:597-657 | merge, then clear; one event when anything was changed or cleared |
| ObjectCache.ObjectManagerCache.OnPropertiesChanged | src/bluez/object_manager_cache.cpp:583-741 | the handler computes the change the agreement theorems are about |
| ObjectCache.ObjectManagerCache.ProcessSnapshot | src/bluez/object_manager_cache.cpp:523-529 | tables and events of a whole snapshot |
| ObjectCache.ObjectManagerCache.EraseStale | src/bluez/object_manager_cache.cpp:377-407 | exactly the GATT paths below the device that the snapshot lacks are erased |
| ObjectCache.ObjectManagerCache.RefreshDevice | src/bluez/object_manager_cache.cpp:336-437 | without a device path or an answer nothing happens; otherwise erase stale, process the device's objects, stay silent if there are none, report whether a GATT object was found |
| ObjectCache.ObjectManagerCache.ForgetAll | src/bluez/object_manager_cache.cpp:468-489 | all tables emptied, one removal event for each key, children first |
| ObjectCache.ObjectManagerCache.OnOwnerChanged | src/bluez/object_manager_cache.cpp:460-537 | forget the old owner's objects, load the new owner's if the call succeeds |
| BridgeLayout.RangeIsStride | src/bridge/generic_message_bridge.cpp:154-160 | the slice loop generates exactly count_range indices, evenly spaced |
| LayoutPaths.FindExactly | src/bridge/generic_message_bridge.cpp:84-94 | the lookup returns the first member of that name and fails if and only if no member has it |
| LayoutPaths.SourceExactly | src/bridge/generic_message_bridge.cpp:253-289 | a source array yields exactly the selected indices, ascending, and is refused if and only if the selector leaves it or is missing in the middle of a path |
| LayoutPaths.CollectsIff | src/bridge/generic_message_bridge.cpp:376-418 | collecting succeeds if and only if the path resolves: names known, selectors only on arrays and in range, messages in the middle |
| LayoutPaths.CollectsExactly | src/bridge/generic_message_bridge.cpp:376-418 | it then lists exactly the selected leaves, in ascending order of their indices |
| LayoutPaths.EncodesIff | src/bridge/generic_message_bridge.cpp:952-988 | the encoder accepts a message if and only if every configured path resolves in it |
| LayoutPaths.EncodesExactly | src/bridge/generic_message_bridge.cpp:952-988 | the flattened list is exactly one entry for each computed member and each selected leaf, in configured and index order |
| LayoutPaths.CountsIff | src/bridge/generic_message_bridge.cpp:167-245 | a path can be counted if and only if its segments fit the schema and nothing open-ended lies below an array; it is open-ended if and only if it ends in a dynamic array taken whole or with an open slice |
| LayoutPaths.PlansIff | src/bridge/generic_message_bridge.cpp:1004-1022 | the decoder accepts a configuration if and only if every path can be counted and at most one is open-ended |
| LayoutPaths.BindsIff | src/bridge/generic_message_bridge.cpp:427-470 | a counted path is bound if and only if the indices it takes of fixed arrays exist, whatever the destination holds |
| LayoutPaths.DecodesIff | src/bridge/generic_message_bridge.cpp:1004-1061 | the decoder accepts a payload if and only if its plan is accepted, the size is that of some element count, and every path fits the fixed arrays |
| BridgeLayout.SegmentAgrees | src/bridge/generic_message_bridge.cpp:253-368 | on one array segment the decoder selects the encoder's indices, as many as the schema says |
| BridgeLayout.PathAgrees | src/bridge/generic_message_bridge.cpp:376-470 | for a whole path encoder and decoder bind the same ordered leaves |
| LayoutTheorems.CountIsLeaves | src/bridge/generic_message_bridge.cpp:167-245 | selection_count_for_path equals the number of bindings collected, unless open-ended |
| LayoutTheorems.LengthIsPlanned | src/bridge/generic_message_bridge.cpp:1004-1022 | encoded length is the decoder's fixed bytes plus those of the open-ended member |
| LayoutTheorems.RecoversCount | src/bridge/generic_message_bridge.cpp:1024-1036 | a payload of the encoded length yields the exact dynamic element count |
| LayoutTheorems.InferredIff | src/bridge/generic_message_bridge.cpp:1024-1036 | a size is accepted with a count if and only if it is the fixed bytes and that many elements; without an open-ended member if and only if it is the fixed bytes |
| LayoutTheorems.EntriesRecovered | src/bridge/generic_message_bridge.cpp:1038-1061 | the binding loop of the decoder yields the encoder's entries from every member on |
| LayoutTheorems.LayoutAgrees | src/bridge/generic_message_bridge.cpp:939-1061 | decoding a payload of the encoded length recovers the same ordered (member, place) list |
| LayoutTheorems.BindReaches | src/bridge/generic_message_bridge.cpp:427-470 | every bound leaf lies inside the destination's arrays, which only grew |
| BridgeCodec.SelectIndicesConst | src/bridge/generic_message_bridge.cpp:253-289 | source indices or a range error |
| BridgeCodec.CollectConst | src/bridge/generic_message_bridge.cpp:376-418 | appends the selected leaves in order, or fails |
| BridgeCodec.EncodeLayout | src/bridge/generic_message_bridge.cpp:952-988 | the encoder's loop flattens all members in order |
| BridgeCodec.MakePlan | src/bridge/generic_message_bridge.cpp:1004-1022 | fixed bytes and the one open-ended member, or an error for a second one |
| LayoutTheorems.SelectedFit | src/bridge/generic_message_bridge.cpp:298-368 | every selected index lies inside the destination array after its resize, which never shrinks it |
| BridgeCodec.Destination.SelectIndicesMutable | src/bridge/generic_message_bridge.cpp:298-368 | destination indices, and the array after any resize |
| BridgeCodec.Destination.BindLeaves | src/bridge/generic_message_bridge.cpp:427-470 | binds the selected leaves in order and grows the arrays on the way |
| BridgeCodec.Destination.DecodeLayout | src/bridge/generic_message_bridge.cpp:1004-1061 | both passes of the decoder |
| BridgeCodec.SendAndReceive | src/bridge/generic_message_bridge.cpp:939-1061 | end to end: sending succeeds if and only if every path resolves, what is sent is exactly the selected leaves in order, and the receiver returns them wherever it accepts the configuration |
| Advertisement.CompactUuidSize | src/app/service_node.cpp:287-303 | 2, 4 or 16 bytes by the UUID's length without dashes |
| Advertisement.UuidWidth | src/app/service_node.cpp:287-303 | the width follows from the number of characters that are not dashes |
| Advertisement.UuidListSize | src/app/service_node.cpp:308-332 | bytes of the three structures that carry the UUIDs grouped by width |
| Advertisement.ListsCostHeaders | src/app/service_node.cpp:308-332 | every width that occurs costs one two-byte header |
| Advertisement.FixedCosts | src/app/service_node.cpp:308-372 | bytes entry by entry: four and the data for a manufacturer entry, two, the UUID and the data for a service entry, two and the data for any other nonempty structure |
| Advertisement.EstimateCompeting | src/app/service_node.cpp:419-449 | the sum equals the encoded bytes of the listed structures, and those are counted entry by entry |
| Advertisement.EstimatePrimary | src/app/service_node.cpp:379-412 | the same for the primary packet, with the name where it is sent |
| Advertisement.ConstrainExtraPayload | src/app/service_node.cpp:505-530 | user data is the longest prefix whose structure fits beside the competing ones, none exactly when not one byte fits |
| Advertisement.ErasedKind | src/app/service_node.cpp:512-513 | of the configured raw entries exactly those of the user-data type do not compete |
| Advertisement.SelectServiceUuids | src/app/service_node.cpp:536-556 | the longest ordered prefix within the payload budget |
| Advertisement.SelectionWithinLimit | src/app/service_node.cpp:1193-1200 | a nonempty selection keeps the limit for one width and exceeds it by at most two bytes for each further width, four in all |
| Advertisement.ExceedsLimitIff | src/app/service_node.cpp:1193-1200 | a nonempty selection exceeds the limit if and only if the headers that were not reserved need more than it left of its budget |
| Advertisement.MixedWidthsExceedByFour | src/app/service_node.cpp:1193-1200 | one UUID of each width with an exactly full budget exceeds the limit by four bytes |

## Left out

- D-Bus calls, threads, timers, logging and ROS publication: only their outcomes appear, as inputs (a send admitted, refused or throwing; a transfer still pending; a decode delivered or not; a snapshot answered or not).
- The Mesh coordinator, provisioning, radio configuration, the peer manager and the payload codec: member and probe lists, addresses and swarm ids are inputs, a scalar has a positive wire width.
- Receive filters before the reliability branch (own source address, swarm admission): a delivered frame is one that passed them.
- Locks, and with them data races: every critical section is one step, and the end of a decode is a later step of its own.
- The send branch for unreliable bridges (lines 1334-1336) and plain forwarding (lines 1060-1063).
- `try_send` is assumed to refuse a busy destination, so line 594 replaces only a handle the daemon has finished with; a replaced handle counts as settled.
- The default of `blocks_channel` is taken as true; its declaration is not part of this model.
- MeshTables keeps the cancellation queue as a multiset; the class keeps the order. A flush may interleave with events more freely than in the code.
- Peer records that a lookup creates with default values are not entered in the model's peer table; an absent record reads as the default.
- Coalescing a waiting payload shorter than a bridge frame is undefined in the code; the model leaves the slot alone. Every stored reliable payload comes from a configured bridge in the network theorems.
- The `sample` and `age` fields are history tags of the model; the code has no counterpart and no transition depends on them.
- A receiver's element index is taken to be the sender's bridge element, as the channel key of the turn requires.
- Receiver-side freshness of repaired samples: a repair reuses an old sequence with a newer value, and the code promises no order there.
- Progress (a turn eventually comes round, a value is eventually delivered) is not stated: the network may lose everything.
- Expressions: error messages and columns, the finiteness check and IEEE rounding; the number scanner, the analytic functions and pi are parameters over ideal reals. `std::clamp` with crossed bounds is undefined in C++; the model compares with the lower bound first.
- The minimum modulo -1 counts as an overflow, as in the code, although its exact value 0 would fit.
- Object cache: adapter records and AdapterChanged events, timestamps, and lookups by UUID or address; property names are a datatype, events of one kind within a batch may come in any order.
- ObjectCache.ObjectManagerCache.RefreshDevice: the order of the processed objects is left open instead of ascending by path, because the tables do not depend on it.
- MeshRuns.RunConserves: a node with its Mesh application; without one a flush discards its batch, which only the class models.
- Bridge layout: scalar values, coercion, decode assignments and raw addresses (leaves are places, a path with indices); sizes are unbounded, so a byte count that overflows `size_t` is not modelled.
- Advertisement: structure type codes and the one-byte length field, controller capability selection, and the retries after BlueZ rejects a packet.
- User interface, terminal, SSH launcher, serial proxy, overlay application, pairing and GATT client wrappers.
