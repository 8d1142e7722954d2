# AgentThreshold in Dafny

A model of the four protocols the platform rests on, with proofs of what they guarantee. The
names follow the source; each module's header says which files it stands for.

* **Broadcast protocol** (`Execution*.dfy`, `SignedTx.dfy`). From an approved row to a mined
  transaction: prepare, submit, cancel, replace, the confirmation worker, the approval queue.
  `Execution.Next` is one atomic step, `Execution.Run` a run of interleaved calls. A call can die
  at any point; a send can report an error although the node took the payload. What holds however
  calls overlap is in `ExecutionInvariant.dfy`, what takes serialized prepares in
  `ExecutionNonces.dfy`, the order in which a row can change in `ExecutionRows.dfy`, the results in
  `ExecutionResults.dfy`, what overlapping calls can do in `ExecutionSerialization.dfy` and
  `ExecutionReplacement.dfy`, and what a cancellation is worth in `ExecutionCancellation.dfy`.
  `ExecutionPlatform.dfy`,
  `ExecutionCalls.dfy` and `ExecutionWorker.dfy` hold the imperative services: their methods write
  the tables as the source does, each atomic section is proved to be one step of the protocol, and
  everybody else takes steps in between.
* **Audit anchoring** (`Merkle.dfy`, `AuditEvents.dfy`, `AuditAnchor.dfy`, `AuditTable.dfy`,
  `Anchoring*.dfy`, `AnchorWorker.dfy`). Leaves, Merkle tree, contract, the batcher with its
  ambiguous failures, the worker with its two commits, and the proof the gateway serves.
* **Screening** (`PolicyEngine.dfy`, `Confidence.dfy`, `AnomalyScorer.dfy`, `Screening.dfy`,
  `Pipeline.dfy`). Nine rules with early returns, advisory signals, the rolling counters and the
  fail-closed pipeline over a whole history.
* **Rate limiting** (`TokenBucket.dfy`). The Redis script with its key lifetime.

keccak256 is a parameter: any function from byte strings to 32-byte digests. Binding results name
the function that computes the colliding pair from the given inputs, since "some collision exists"
would be true of every hash.

## Assumptions

* `prepare` is serialized per row, as `services/execution/src/execution_service/tokens.py:56-58`
  asks of its callers (`Config.serializedPrepare`), in the results about the payloads of a row and
  in the imperative services. `SerializationIsNeeded` proves that the nonce and mined-once
  guarantees hold if and only if it is, or nothing is configured to be sent. All other results on
  the broadcast protocol hold however prepares overlap.
* The nonce counter key is never evicted from Redis.
* The sweep and the decision of one approval request are one atomic step, which reads the clock
  twice. The source commits the sweep first (`SweepOnceIsEnough`: sweeping once more changes
  nothing) and takes no row lock between reading an approval and writing it. There is one worker
  loop.
* Contract reads, when they answer, answer truthfully; a failed read is always possible.
* Screenings of one agent are serialized; screenings of other agents interleave.

## What the code does not promise

* **Rolling windows.** `created_at` is filled in by `func.now()`, which in PostgreSQL is the start
  of the transaction, while the counters are read later in that transaction. The daily limit is
  therefore guaranteed over 24 hours less that lag, and over every closed 24-hour window if and only
  if there is no lag (`FullDayNeedsNoLag`); likewise for the rate limit.
* **Expiry of approvals.** An approver's request sweeps by one reading of the clock and signs by a
  second one, so `decided_at` can lie after `expires_at` by the time between the two. Approvals are
  granted no later than they expire, over all runs, if and only if no time passes
  (`ExpiryNeedsNoLag`).
* **Exactly-once anchoring.** An errored submission is anchored again by the retry if it lands after
  its resolve check (`LateLandingAnchorsTwice`) or if that check fails (`FailedResolveAnchorsTwice`).
* **Overlapping prepares.** `tokens.py:56-58` expects the guard on `status = 'approved'` to handle
  the only race between two prepares of a row. It does not: each can store a nonce of its own, and
  after a send that reports an error two payloads of the row can both be mined
  (`SerializationIsNeeded`).
* **Cancellation.** `cancel` looks at the row's status alone. An approved row whose attempt the node
  answered with an error may already be on its way: over all runs no cancelled row can be mined if
  and only if no attempts are configured at all (`CancellationIsNoRecall`), and a given cancellation
  holds if and only if nothing was handed over before it (`CancellationHoldsIfNothingWasSent`).
* **Zero roots.** A refused submission marks records with a batch the contract never saw if and only
  if their root is the zero digest (`ZeroRootMarksUnanchored`). A run in which that happens has
  computed an input that the hash takes to zero, and `EveryReachableStateAgrees` names it.
* **Replacements.** Tokens are issued for approved rows only. A stuck row can therefore be replaced
  only by callers whose calls for it overlapped (`ReplacementNeedsOverlap`).
* **Allow list.** Removing its last entry lifts it; `EmptyAllowListSoftens` says exactly when that
  softens a verdict.
* **Proof length.** `verify_proof` checks neither the length of the proof nor that of the leaf, and
  its index argument decides nothing. A proof binds its leaf to a leaf of the batch if and only if it
  has the tree's height and the leaf 32 bytes: a shorter one binds an interior node, a longer one
  what its excess steps hash to (`AcceptedProofBindsNode`), and interior nodes, prefixes of an event
  and other cuts through a pair of nodes are indeed accepted (`InteriorNodeIsAccepted`,
  `PreimageOfLeafIsAccepted`, `AnyCutOfPairIsAccepted`).
* **Leaf encoding.** A leaf tells its event from every other event of as many fields if and only if
  none of its own fields holds a "|" (`EncodingIdentifiesEvent`); neighbouring fields can always be
  read as one (`FewerFieldsAreAmbiguous`). `_validate_address` in
  `shared/src/at_shared/schemas/tx.py:32-35` lets a recorded address hold a "|".
* **Key lifetime.** The 60-second expiry of a bucket is invisible if and only if the bucket refills
  within it (`ExpiryCondition`), and only then is the rate bounded (`RateIsBounded`).
* **Retry-after.** The answered wait is exact if and only if the bucket has capacity and at least one
  token flows in per key lifetime (`RetryIsExact`); below that the key is forgotten first.

## Model

| member | source | states |
|---|---|---|
| Merkle.MerkleRoot | shared/src/at_shared/merkle.py:32-39 | the loop over levels computes the root of exactly the valid batches and reports the right error otherwise |
| Merkle.MerkleProof | shared/src/at_shared/merkle.py:42-56 | the loop collects the proof of the index, with the source's errors in its order |
| Merkle.VerifyProof | shared/src/at_shared/merkle.py:59-65 | the loop decides whether the proof folds the leaf to the root, whatever index it is given |
| Merkle.GeneratedProofVerifies | shared/src/at_shared/merkle.py:32-65 | for every batch and index the generated proof verifies against the computed root |
| Merkle.HeightIsCeilLog2 | shared/src/at_shared/merkle.py:42-56 | the height of a tree over n leaves is ceil(log2 n) |
| Merkle.ProofShape | shared/src/at_shared/merkle.py:42-56 | a generated proof has the tree's height and its flags are the bits of the index from the lowest, a right sibling exactly where the bit is 0 |
| Merkle.AcceptedLeafIsInBatch | shared/src/at_shared/merkle.py:59-65 | a leaf accepted with a proof of the tree's height is the leaf at the position its flags lead to, clamped through duplicated padding, exactly if it has 32 bytes, or a collision is computed |
| Merkle.PositionIsSpelled | shared/src/at_shared/merkle.py:42-56 | a path that spells an index inside the batch leads to that index |
| Merkle.AcceptedProofBindsNode | shared/src/at_shared/merkle.py:59-65 | for proofs of every length: what the excess steps fold the leaf to is a leaf, or for a short proof a node of the level at its depth, or a collision is computed |
| Merkle.InteriorNodeIsAccepted | shared/src/at_shared/merkle.py:59-65 | every interior node is accepted as a leaf, so the proof must not be shorter than the tree |
| Merkle.PreimageOfLeafIsAccepted | shared/src/at_shared/merkle.py:59-65 | every prefix of a recorded event is accepted as a leaf with a proof one step longer, so it must not be longer either |
| Merkle.AnyCutOfPairIsAccepted | shared/src/at_shared/merkle.py:59-65 | with a proof of the right length any cut through a pair of leaves is accepted, so the leaf must have 32 bytes |
| Merkle.RootBindsBatch | shared/src/at_shared/merkle.py:32-39 | two different batches of one length with one root yield a computed collision |
| Merkle.DuplicatePaddingKeepsRoot | shared/src/at_shared/merkle.py:32-39 | repeating the last leaf of an odd batch keeps the root, so equal lengths are needed |
| AuditEvents.EncodingIsInjective | shared/src/at_shared/audit_events.py:19-22 | an event with "\|"-free fields encodes apart from every other event of as many fields or more, whatever those fields hold |
| AuditEvents.EncodingInFull | shared/src/at_shared/audit_events.py:19-22 | the encoding is "v1\|" and the fields in order with "\|" between any two |
| AuditEvents.PipeInsideFieldIsAmbiguous | shared/src/at_shared/audit_events.py:19-22 | in every event of two fields or more, a "\|" in any field gives a named other event the same leaf |
| AuditEvents.EncodingIdentifiesEvent | shared/src/at_shared/audit_events.py:19-22 | no other event of as many fields has the encoding if and only if no field of the event holds a "\|" |
| AuditEvents.ShiftedEventVerifies | shared/src/at_shared/audit_events.py:19-22 | the recorded proof verifies for that other event as well |
| AuditEvents.FewerFieldsAreAmbiguous | shared/src/at_shared/audit_events.py:19-22 | an event with one field less always has the same encoding, so the number of fields must be known |
| AuditEvents.TamperedEventIsDetected | shared/src/at_shared/audit_events.py:19-22 | a proof at an anchored index that verifies for an event changed in any field, to whatever bytes, yields a computed collision; only the recorded event must be "\|"-free |
| AuditAnchor.Contract.Anchor | contracts/src/AuditAnchor.sol:64-75 | succeeds exactly for an authorized sender, a non-zero root and the next id, and then writes root, time and last id; otherwise it changes nothing and names the error, an unauthorized sender before anything else |
| AuditAnchor.Contract.AddAuthorizedAnchor | contracts/src/AuditAnchor.sol:82-86 | only the owner authorizes a sender, and never the zero address |
| AuditAnchor.Contract.RemoveAuthorizedAnchor | contracts/src/AuditAnchor.sol:88-93 | only the owner takes the right away |
| AuditAnchor.OnlyAuthorizedSendersAnchor | contracts/src/AuditAnchor.sol:64-75 | over every history, each batch it adds was written by one of its calls, under the next id, with the root and time it ends up with, from a sender authorized at that moment |
| AuditAnchor.OnlyTheOwnerAuthorizes | contracts/src/AuditAnchor.sol:82-93 | over every history a sender gains or loses the right to anchor only through a call of whoever is the owner at that moment |
| AuditAnchor.HistoryIsAppendOnly | contracts/src/AuditAnchor.sol:64-75 | over every history of calls by anybody, changes of ownership included, ids stay contiguous and written roots never change |
| AuditAnchor.BatchIsWrittenOnce | contracts/src/AuditAnchor.sol:64-75 | an id is written exactly once if it ends up anchored, and never twice |
| Anchoring.LoadsWhenDue | services/audit-service/src/audit_service/worker.py:144-160 | a tick takes up work exactly if something is pending, and a full batch of it or for long enough |
| Anchoring.StepKeepsInv | services/audit-service/src/audit_service/worker.py:144-199 | every step that submits no zero root, including RPC failures, crashes between commits and late landings, keeps chain, batch rows and marked records in agreement |
| Anchoring.EveryReachableStateAgrees | services/audit-service/src/audit_service/worker.py:144-199 | after every run, each batch a record is marked with has one root in the contract, the batch row and the marked records, or the run has computed an input that the hash takes to zero |
| Anchoring.ZeroRootIsComputed | services/audit-service/src/audit_service/worker.py:159-160 | a run with a zero root in it yields leaves that are one zero event hash, or a pair of nodes that the hash takes to zero |
| AnchoringResults.EveryMarkedRecordVerifies | services/api-gateway/app/routers/audit.py:96-137 | after every run each marked record gets a proof that verifies, against the root the contract holds, or the run has computed an input that the hash takes to zero |
| AnchoringResults.ProofInFull | services/api-gateway/app/routers/audit.py:96-137 | for a stored record: an error exactly if it is not anchored or its batch row is missing, otherwise the generated proof of its leaf, the root of the batch row, and `verified` exactly if the proof leads from the leaf to that root |
| AnchoringResults.OthersRecordsAreNotFound | services/api-gateway/app/routers/audit.py:96-137 | not found exactly if the organisation has no such record |
| AnchoringResults.RecordsAndMarksAreForever | services/audit-service/src/audit_service/worker.py:89-95 | over every run no record is dropped or altered and no mark is ever removed or changed |
| AnchoringResults.ConfirmedFlushIsAnchored | services/audit-service/src/audit_service/batcher.py:73-135 | in whatever way the flush of a non-zero root ends in confirmation, the chain holds that root at the confirmed id |
| AnchoringResults.FlushUsesItsAttempts | services/audit-service/src/audit_service/batcher.py:73-93 | a flush that is not cut off submits at most max_attempts times, gives up only after exactly that many, and confirms only after at least one |
| AnchoringResults.UndisturbedFlushAnchorsOnce | services/audit-service/src/audit_service/batcher.py:73-135 | if no errored submission lands after a successful resolve check, a confirmed flush leaves exactly one copy of its root and a failed one none |
| AnchoringResults.LateLandingAnchorsTwice | services/audit-service/src/audit_service/batcher.py:117-122 | from every state with a retry left, a late landing ends with the root anchored under two ids |
| AnchoringResults.FailedResolveAnchorsTwice | services/audit-service/src/audit_service/batcher.py:117-122 | likewise if the submission lands in time but the resolve read fails, so both halves of the condition are needed |
| AnchoringResults.ZeroRootIsTakenForAnchored | services/audit-service/src/audit_service/batcher.py:117-122 | the resolve read confirms a batch that is not on the chain exactly if its root is the zero digest |
| AnchoringResults.ZeroRootMarksUnanchored | services/audit-service/src/audit_service/batcher.py:117-122 | from every idle state with records to load, a tick whose submission is refused keeps marks and chain in agreement if and only if the root is not the zero digest |
| AnchoringResults.HealthyTickShrinks | services/audit-service/src/audit_service/worker.py:144-199 | a healthy due tick removes exactly min(pending, max_records) records from the pending set |
| AnchoringResults.PendingDrains | services/audit-service/src/audit_service/worker.py:144-199 | m healthy ticks drain the pending set exactly when m * max_records reaches its size |
| AnchoringResults.EveryRecordEndsUpVerified | services/audit-service/src/audit_service/worker.py:144-199 | end to end: m healthy ticks give every stored record a verifying proof, and drop none, exactly when m * max_records covers what was pending |
| AnchorWorker.AnchorBatcher.Flush | services/audit-service/src/audit_service/batcher.py:73-93 | over any buffer: a flush that returns an id has emptied it, and the chain holds its root at that id unless the root is the zero digest; a flush that raises, or is cut off, leaves the buffer as it was, whether or not its root has landed |
| AnchorWorker.AnchorBatcher.Add | services/audit-service/src/audit_service/batcher.py:63-71 | any leaf that is not 32 bytes is refused; one below the threshold is only buffered; the one that reaches it flushes the whole buffer once |
| AnchorWorker.DbAnchorWorker.FlushLoaded | services/audit-service/src/audit_service/worker.py:168-178 | feeding the loaded leaves and flushing the rest performs exactly one non-empty flush, over exactly the loaded sequence |
| AnchorWorker.DbAnchorWorker.Tick | services/audit-service/src/audit_service/worker.py:144-199 | whatever fails, a tick only adds to the history: no record or mark is lost and the ledger only grows; it flushes at most once, over exactly the loaded rows; an anchored tick leaves each of them marked with an id at which the batch row and, unless it is the zero digest, the chain hold their root, a failed one leaves them pending and the attempt on record |
| AnchorWorker.Deployment.MarkAnchored | services/audit-service/src/audit_service/worker.py:89-95 | the row-by-row update of the records found equals marking the whole batch in one step, and a failed commit marks none |
| AuditTable.OrderedByAge | services/audit-service/src/audit_service/worker.py:48-58 | the order of the table is by creation time, then by key |
| AuditTable.WhereKeepsOrder | services/audit-service/src/audit_service/worker.py:48-58 | every query returns its rows in that order, so a limited one returns the oldest |
| AnchorWorker.Deployment.MarkedRecordsVerify | services/api-gateway/app/routers/audit.py:96-137 | at every point of every tick, each marked record gets a proof that verifies against the contract's root, or an input that the hash takes to zero has been computed |
| SignedTx.SignedIsAccepted | services/execution/src/execution_service/validation.py:33-141 | the chain of checks accepts a submission exactly if its chain id is 1 for Ethereum, 8453 for Base, 42161 for Arbitrum, and sender, recipient, value, calldata and nonce are the row's and gas is within its limit; never for another chain |
| SignedTx.RefusalNamesMismatch | services/execution/src/execution_service/validation.py:101-141 | the error of a refusal names a mismatch that is there, and too much gas only if there is no other |
| SignedTx.NormalForms | services/execution/src/execution_service/validation.py:42-55 | addresses and calldata compare without regard to case, an empty address counts as none and no calldata as "0x" |
| Text.LowerIsPerCharacter | services/execution/src/execution_service/validation.py:42-55 | lower-casing replaces each capital by its small letter and nothing else |
| SignedTx.ReplacementIsAccepted | services/execution/src/execution_service/rbf.py:166-198 | a replacement is accepted exactly if it is the screened transfer, or nothing to the wallet itself, under the row's nonce and with a fee cap, or gas price if it has none, of at least the old price and its bump |
| ExecutionInvariant.StepKeepsInv | services/execution/src/execution_service/executor.py:81-204 | however calls overlap, each of the 21 kinds of step keeps the invariant of rows, approvals, tokens, locks, calls and the send log |
| ExecutionInvariant.ReachableStatesAreSound | services/execution/src/execution_service/executor.py:81-204 | the invariant holds after every run of interleaved calls |
| ExecutionNonces.StepKeepsNonces | services/blockchain/src/blockchain/nonce.py:22-35 | however prepares overlap, each step keeps every nonce reserved for, held by or about to be stored in one row alone |
| ExecutionNonces.StepKeepsPayloads | services/execution/src/execution_service/executor.py:81-188 | with serialized prepares each step keeps one prepare per row, and all that is sent or about to be what its row allows |
| ExecutionResults.EveryPayloadIsItsRowsOwn | services/execution/src/execution_service/executor.py:100-188 | every payload ever handed over carries its row's wallet and its row's one nonce, which no other row of the wallet has, and moves the screened value to the screened address or nothing; a submission also carries the row's calldata, the chain id 1, 8453 or 42161 of the row's chain, and no more gas than its ceiling |
| ExecutionResults.NoNonceServesTwoRows | services/blockchain/src/blockchain/nonce.py:22-35 | over every run, serialized or not, no two rows of a wallet ever hold one nonce |
| ExecutionResults.AtMostOneMinedPerRow | services/execution/src/execution_service/rbf.py:110-192 | whatever a chain with one transaction per sender and nonce mines, it mines at most one payload per row and no payload serves two rows |
| ExecutionResults.EscalationIsNeverBypassed | services/api-gateway/app/routers/approvals.py:129-154 | nothing is handed over for an escalated row unless a decision of the run granted it after finding it unexpired, and nothing ever for a rejected decision |
| ExecutionResults.GrantedWithinTheLag | services/api-gateway/app/routers/approvals.py:33-55 | an approval is granted later than it expires by no more than the longest time between a request's two readings of the clock |
| ExecutionResults.ExpiryNeedsNoLag | services/api-gateway/app/routers/approvals.py:129-154 | over all runs approvals are granted no later than they expire if and only if that time is not positive |
| ExecutionResults.ApprovalsAndRowsMoveTogether | services/notification/src/notification_service/expire.py:32-52 | an approval is pending exactly while its row is escalated, and rejected or expired exactly if the row is rejected |
| ExecutionResults.RowsNeverGoBack | services/execution/src/execution_service/monitor.py:54-134 | over every run a row only moves to a lower rank of (status, stuck_at), its intent fixed |
| ExecutionResults.TerminalRowsStay | services/execution/src/execution_service/executor.py:190-204 | rejected, cancelled and reorged rows stay so for ever |
| ExecutionResults.TransitionsAreBounded | services/execution/src/execution_service/rbf.py:60-87 | from any point of any run a row changes place at most as often as its rank, is flagged stuck at most once and replaced at most once |
| ExecutionResults.StepSendsForClaimedRow | services/execution/src/execution_service/executor.py:100-188 | every step hands over nothing, or one payload for a row that is approved (submit) or stuck (replacement) at that moment |
| ExecutionResults.FinishedRowsAreNeverSentAgain | services/execution/src/execution_service/monitor.py:54-134 | executed, reorged, rejected, cancelled and already replaced rows are never handed over again |
| ExecutionResults.BroadcastRowsWereSubmitted | services/execution/src/execution_service/executor.py:152-155 | a row that is broadcast, stuck, broadcasting, executed or reorged has a submission among what was handed over |
| ExecutionResults.AttemptsNeedTokens | services/execution/src/execution_service/tokens.py:27-79 | broadcast_attempts of a row never exceeds the tokens issued for it |
| ExecutionResults.OneTokenOnePayload | services/execution/src/execution_service/tokens.py:67-72 | everything handed over under one token is one payload of one kind, under a token issued for the row |
| ExecutionResults.OneSenderPerRow | services/execution/src/execution_service/executor.py:100-136 | no two calls are ever in the sending phase for one row |
| ExecutionSerialization.SerializationIsNeeded | services/execution/src/execution_service/tokens.py:46-65 | over all runs a row keeps its nonce if and only if prepares are serialized; every payload carries its row's nonce, and at most one payload per row is mined, each if and only if they are or no attempts are configured |
| ExecutionReplacement.ReplacementNeedsOverlap | services/execution/src/execution_service/executor.py:81-98 | in every run where calls of a row come one after the other, no replacement is ever handed over |
| ExecutionReplacement.OverlapAllowsReplacement | services/execution/src/execution_service/rbf.py:110-163 | some run, with a prepare that mints only after its row went out, hands a replacement over if and only if any attempts are configured |
| ExecutionCancellation.CancellationHoldsIfNothingWasSent | services/execution/src/execution_service/executor.py:190-204 | over every run a row stays cancelled, and nothing of it is ever with the network if and only if nothing was when it was cancelled |
| ExecutionCancellation.CancellationIsNoRecall | services/execution/src/execution_service/executor.py:190-204 | over all runs cancelled rows have nothing with the network if and only if no attempts are configured |
| ExecutionCancellation.SentRowCanBeCancelled | services/execution/src/execution_service/executor.py:166-204 | a send that errors, a crash and a cancellation leave a cancelled row with no attempt counted whose payload the network has |
| ExecutionFrames.OthersKeepCall | services/execution/src/execution_service/executor.py:100-156 | no step of anybody else changes what a call in flight has reached |
| ExecutionFrames.OthersKeepWatchedRow | services/execution/src/execution_service/monitor.py:54-134 | only the worker changes broadcast and executed rows, which is why it may update them by key after its RPCs |
| ExecutionFrames.LockedRowIsItsHolders | services/execution/src/execution_service/executor.py:121-156 | from the conditional update to the end of its transaction, no step of anybody but the call that won it changes the row |
| ExecutionFrames.WhoActs | services/execution/src/execution_service/worker.py:35-39 | the worker takes only the steps of its three loops, a call only those that name it |
| ExecutionPlatform.PrepareWaitsForItsRow | services/execution/src/execution_service/tokens.py:46-65 | serialized, a prepare of an approved row waits exactly for another prepare of the same row |
| ExecutionPlatform.Platform.Consume | services/execution/src/execution_service/tokens.py:27-39 | compare-and-delete: true exactly for the token on offer, which is then gone; one step of the protocol |
| ExecutionPlatform.Platform.Reserve | services/blockchain/src/blockchain/nonce.py:22-35 | the seed-or-increment script returns the counter's value, or the chain's nonce if there is no counter, and leaves one more in it; one step of the protocol |
| ExecutionPlatform.Platform.Claim | services/execution/src/execution_service/executor.py:121-136 | the conditional update wins exactly if the row is in the required status, and then holds its lock |
| ExecutionPlatform.Platform.HandOver | services/execution/src/execution_service/executor.py:168-172 | every send is logged, whatever the node answers |
| ExecutionPlatform.Platform.Commit | services/execution/src/execution_service/executor.py:152-155 | status, hash, time and attempt are written to the claimed row and to nothing else |
| ExecutionPlatform.Platform.Revert | services/execution/src/execution_service/executor.py:139-151 | a failed attempt is counted and the row given back |
| ExecutionCalls.ExecutionAdapter.Prepare | services/execution/src/execution_service/executor.py:81-98 | refused exactly if the row is not approved; otherwise the row holds the returned nonce, unchanged if it had one, and the returned token is on offer |
| ExecutionCalls.ExecutionAdapter.SendUntilAccepted | services/execution/src/execution_service/executor.py:166-188 | the retry loop sends between once and max_broadcast_attempts times, exactly that often when it fails |
| ExecutionCalls.ExecutionAdapter.Submit | services/execution/src/execution_service/executor.py:100-156 | with all other callers interleaving: each outcome happens only in a state that demands it (no token, not approved, no nonce, payload that does not fit, no provider, attempts exhausted, success); what is sent has the chain id of the row's chain and the row's nonce; a success has committed hash, time and nonce of a logged payload, a failure has given the row back with the attempt counted, and a refusal sent nothing |
| ExecutionCalls.StuckTxHandler.Replace | services/execution/src/execution_service/rbf.py:110-163 | likewise for a replacement: at most one send, and none without token, stuck row, fitting payload, renewed screening and claim |
| ExecutionCalls.ExecutionAdapter.Cancel | services/execution/src/execution_service/executor.py:190-204 | with everybody else interleaving: unless it gives up waiting for the lock, it succeeds exactly if the row is approved when it is updated, and then the row is cancelled and nothing else changes |
| ExecutionWorker.ConfirmMonitor.ConfirmBroadcasts | services/execution/src/execution_service/monitor.py:54-89 | with others interleaving at every RPC: of the polled rows exactly those whose receipt lies at least the chain's confirmations below the tip become executed, in its block; every other watched row stays |
| ExecutionWorker.ConfirmMonitor.DetectReorgs | services/execution/src/execution_service/monitor.py:92-134 | a polled row without receipt, or with one in another block than the recorded one, becomes reorged; with a failed RPC, the same block or no recorded block it stays as it is, and so does every other watched row |
| ExecutionWorker.ConfirmMonitor.FlagStuck | services/execution/src/execution_service/rbf.py:60-87 | only broadcast rows sent longer than the limit ago and never flagged before change, to stuck and now; unless the query limit is reached none of them is left |
| ExecutionWorker.ConfirmMonitor.Tick | services/execution/src/execution_service/worker.py:35-39 | confirm, reorg and stuck loops in that order, each on what the one before left: each polled row ends up executed, reorged or as it was, just as the receipt demands, and the overdue ones stuck, with their counts |
| ExecutionWorker.FindingIsAStep | services/execution/src/execution_service/monitor.py:54-134 | a finding of a loop applies to a row if and only if the protocol takes the corresponding step, and is written as the protocol writes it |
| ExecutionWorker.Commit | services/execution/src/execution_service/monitor.py:81-88 | the loop over findings writes each of them and nothing else |
| ExecutionWorker.Escalations.ExpireOverdue | services/api-gateway/app/routers/approvals.py:33-55 | the row-by-row loop expires exactly the approvals of the organisation that are pending after their expiry time, together with their rows |
| ExecutionWorker.Escalations.ExpireSome | services/notification/src/notification_service/expire.py:25-55 | at most `limit` overdue approvals expire, and fewer only if none is left |
| ExecutionWorker.Escalations.Decide | services/api-gateway/app/routers/approvals.py:129-154 | a decision is recorded exactly on an approval of the organisation that was pending and not overdue when it swept, together with its row; everything else it changes is the sweep |
| PolicyEngine.EngineResult.Merge | services/policy-engine/policy_engine/engine.py:79-85 | the harsher decision and all reasons, in place |
| PolicyEngine.Evaluate | services/policy-engine/policy_engine/engine.py:100-180 | with its early returns it decides the harshest verdict of all rules taken independently, for the reason of the first that fires; it rejects exactly on a deny-listed address, one missing from a non-empty allow list, in whatever case they are written, a limit exceeded, a rate reached, a time outside the window or too much gas, and approves exactly if besides fail-closed holds, the score is below its threshold and the counterparty is known |
| PolicyEngine.HarshestIsUnique | services/policy-engine/policy_engine/engine.py:79-85 | the independent rules determine one verdict |
| PolicyEngine.CaseDoesNotMatter | services/policy-engine/policy_engine/engine.py:116-128 | list entries and address may be written in any case: the verdict is the same |
| PolicyEngine.LowerCasingKeepsVerdict | services/policy-engine/policy_engine/engine.py:116-128 | in particular lower-casing all of them changes nothing |
| PolicyEngine.VerdictIsMonotone | services/policy-engine/policy_engine/engine.py:100-180 | a tighter policy or a worse context never softens the verdict |
| PolicyEngine.EmptyAllowListSoftens | services/policy-engine/policy_engine/engine.py:124-128 | emptying the allow list softens the verdict exactly when it objected and no other rule rejects |
| PolicyEngine.AdvisoryNeverApproves | services/policy-engine/policy_engine/engine.py:169-178 | anomaly score and counterparty history never turn a rejection into anything else |
| Confidence.ConfidenceIsMonotone | services/orchestrator/src/orchestrator/confidence.py:27-61 | the rounded confidence stays in 0..100 and never rises with a lower classifier confidence, a higher anomaly score, a higher risk level or a drain |
| Confidence.FactorsInFull | services/orchestrator/src/orchestrator/confidence.py:18-56 | the exact factor of every classifier confidence, anomaly score and risk level, clamped and missing ones included |
| Confidence.AggregateIsNearest | services/orchestrator/src/orchestrator/confidence.py:27-61 | the confidence is 0 on a drain and otherwise 100 times the three factors, to the nearest hundredth with ties to even |
| Confidence.ConfidenceBoundsSignals | services/orchestrator/src/orchestrator/confidence.py:27-61 | a confidence of at least t bounds each signal on its own: no drain, anomaly at most 100 - t, risk factor at least t/100 |
| AnomalyScorer.BuildBaseline | services/anomaly-scorer/anomaly_scorer/baseline.py:36-76 | the counting loop finds the mean, the daily rate and the share of the most frequent counterparty |
| AnomalyScorer.OneMorePayment | services/anomaly-scorer/anomaly_scorer/baseline.py:36-76 | totals and counts grow by each payment, and an address counts in whatever case it is written |
| AnomalyScorer.ScoreTransaction | services/anomaly-scorer/anomaly_scorer/scorer.py:51-146 | filling in the components and adding them up gives the weighted score, and the flag at 70 |
| AnomalyScorer.ComponentsInFull | services/anomaly-scorer/anomaly_scorer/scorer.py:65-127 | the four components in closed form: d/(d+std) of the distance d from the mean, novelty, the share of recent requests above the expected ones, 30 times the top share |
| AnomalyScorer.ScoreIsNearest | services/anomaly-scorer/anomaly_scorer/scorer.py:51-146 | the score is 0.60, 0.25, 0.10 and 0.05 times the components, to the nearest hundredth |
| AnomalyScorer.ScoreIsBounded | services/anomaly-scorer/anomaly_scorer/scorer.py:27-48 | over any baseline that aggregate builds the score lies in 0..96.5, and in 0..71.5 for a known counterparty |
| AnomalyScorer.ScoreIsMonotone | services/anomaly-scorer/anomaly_scorer/scorer.py:65-146 | the score never falls with the distance from the mean, the recent count or newness |
| Screening.SpendIsLimited | services/orchestrator/src/orchestrator/context.py:64-74 | over any serialized history, the dollars auto-approved for an agent in a window that its counters reach back over stay within the daily limit |
| Screening.SpendIsExact | services/orchestrator/src/orchestrator/context.py:64-74 | the spend counter is exactly what was auto-approved from its start to the last row, no more and no less |
| Screening.ContextInFull | services/orchestrator/src/orchestrator/context.py:50-121 | the whole context: dollars of the transfer, spend of the last 86400 seconds, addresses seen in 90 days, the score over them, the minute |
| Screening.OneMoreRow | services/orchestrator/src/orchestrator/context.py:64-84 | one more row raises the spend exactly if it is an approved one of the agent less than a day old, and the count exactly if it is one of the agent less than a minute old |
| Screening.MinuteInFull | services/orchestrator/src/orchestrator/context.py:118 | the minute is the number of whole minutes since the last full day |
| Screening.CountIsLimited | services/orchestrator/src/orchestrator/context.py:76-84 | likewise the auto-approved count and the rate limit |
| Screening.DailyLimitHolds | services/policy-engine/policy_engine/engine.py:134-146 | the daily limit holds in every closed window of 24 hours less the lag |
| Screening.RateLimitHolds | services/policy-engine/policy_engine/engine.py:148-153 | the rate limit holds in every closed minute less the lag |
| Screening.FullDayNeedsNoLag | services/orchestrator/src/orchestrator/context.py:59-74 | the limit holds in every closed 24-hour window if and only if counters are never read after created_at |
| Screening.FullMinuteNeedsNoLag | services/orchestrator/src/orchestrator/context.py:59-84 | the same for the rate limit and the closed minute |
| Pipeline.Pipeline.Screen | services/orchestrator/src/orchestrator/pipeline.py:105-415 | whatever the stages answer: a failed gating stage rejects and persists nothing; a final commit that fails raises, with no row of the agent added unless the commit took effect; otherwise exactly one row of the agent is added, with the decision the rules, the fork and the confidence demand |
| Pipeline.Pipeline.Persist | services/orchestrator/src/orchestrator/pipeline.py:310-393 | row, audit record and, for an escalation only, approval are committed together, and histories stay serialized |
| Pipeline.Pipeline.Settle | services/orchestrator/src/orchestrator/pipeline.py:252-284 | the final decision, updated step by step, and exactly which reasons it collects |
| Pipeline.FinalDecisions | services/orchestrator/src/orchestrator/pipeline.py:256-284 | exactly when the outcome is an approval, and exactly when a rejection; an unverifiable simulation escalates even a policy rejection |
| Pipeline.PersistedInFull | services/orchestrator/src/orchestrator/pipeline.py:215-284 | what a persisted verdict was based on: the risk agent is asked exactly on an escalation or a successful simulation that changes state, the confidence takes in all advisory answers, and decision, confidence and simulation fit |
| Pipeline.ApprovalPassedEveryGate | services/orchestrator/src/orchestrator/pipeline.py:204-284 | an approval means no rule objected, the simulation succeeded or was switched off, and the confidence reached the threshold |
| Pipeline.ApprovalAtDefaultThreshold | services/orchestrator/src/orchestrator/pipeline.py:256-284 | at threshold 60 an approval has an anomaly score of at most 40.00, no critical risk and no drain |
| TokenBucket.RedisBucket.Take | shared/src/at_shared/redis.py:47-70 | a request is allowed exactly if the stored tokens and the inflow since, capped at the capacity, make a token; the key is rewritten with what is left and lives 60 seconds on; a refusal names the least whole number of seconds in which the rest flows in; without Redis it refuses |
| TokenBucket.ServeInFull | shared/src/at_shared/redis.py:47-64 | one request in full: the level is the stored tokens and the inflow, capped, or a full bucket if the key is gone; what is answered, stored and when it expires follows from it |
| TokenBucket.RateIsBounded | shared/src/at_shared/redis.py:47-64 | over every stretch of a caller's requests between s and t at most capacity + refill * (t - s) are allowed, if and only if capacity <= 60 * refill |
| TokenBucket.ExpiryCondition | services/api-gateway/app/rate_limit.py:29-46 | the key lifetime never changes an answer if and only if capacity <= 60 * refill |
| TokenBucket.ProductionNeverNoticesExpiry | services/mcp-server/src/mcp_server/main.py:42-43 | the limits in use meet that condition |
| TokenBucket.RetryIsExact | shared/src/at_shared/redis.py:55-63 | over all histories, after a refusal waiting the returned seconds or longer is allowed and up to one second less refused, if and only if capacity >= 1 and 60 * refill >= 1 |
| TokenBucket.SlowBucketForgets | services/api-gateway/app/rate_limit.py:29-46 | below that rate a drained key is gone after a minute although the answer said to wait longer |

## Left out

* Upgrades of the contract's implementation, which its owner could use to replace any rule of it.
* Dashboard, SDKs, MCP transport, authentication, metrics, migrations and configuration.
* Real keccak, signature recovery, RLP and typed-transaction decoding: a decoded payload, or the
  fact that decoding failed, is an input.
* The notification outbox: its lease does not exclude concurrent deliveries, and what remains is easy.
* The PDF export's proofs, which are rebuilt from filtered rows and are not proofs of a batch.
* The reservations hash written beside the nonce counter; nothing reads it to decide anything.
* Time to live of decision tokens: a token may vanish at any moment.
* Reorganisations of the anchoring chain, and more than one audit worker or execution worker.
* Chain id, calldata and data of a replacement, which the code does not compare; the row that
  re-screening a replacement adds is one more screened row of the environment.
* Floating point: amounts, scores and bucket levels are reals, and the standard deviation of a
  baseline is a parameter.
* The text of reasons, risk summaries and escalation drafts; a reason stands for the rule that gave it.
* Stage timings: a stage that exceeds its budget is a stage that failed.
- ExecutionPlatform.Platform.Revert: a failed replacement ends as `stuck` or stays `broadcasting`, because the claim leaves the in-memory status at `stuck` and the assignment may write nothing; both are allowed.
- ExecutionCalls.ExecutionAdapter.Prepare: an update that waits for a lock is given up as a time-out; waiting and then going on is the same as being delayed.
- ExecutionWorker.ConfirmMonitor.ConfirmBroadcasts: rows are taken in any order, not by broadcast_at, since the limit makes the order matter only for fairness.
- Screening.DailyLimitHolds: concurrent screenings of one agent are not covered; the code does not serialize them.
