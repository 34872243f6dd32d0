# A model of the zk-blockchain node

The node keeps an Ethereum-style chain for a voting application. It runs either
alone, sealing one transaction per block, or as one of N validators that agree on
each block with an IBFT-style protocol (EIP-650). This project models both halves
of it in Dafny 4.11 and proves what the code promises:

- **Consensus** (`packages/blockchain/internal/consensus`). One validator is a
  function on values (`Protocol`): proposals, prepares, commits, round changes, the
  per-height lock, the buffer for future heights, the request queue and the re-entrant
  `finalize` that starts the next height and replays what was buffered for it. The
  running engine is a class (`Engines.Engine`, with one `RoundStates.RoundState` object
  per height) whose methods update fields step by step; each is proved to reach the
  state its function computes, and the recursion is proved to end. `Network` composes N
  validators over a network that may lose, repeat, reorder and alter messages; up to f
  validators are Byzantine and may sign anything. `Duties` states what each handler owes
  the clients and the other validators, `Pacing` and `Rounds` what moves them through
  the rounds.
- **Ledger** (`packages/blockchain/internal/chain`). The EVM is one uninterpreted
  function; hashes and Merkle roots are free constructors, so injective. Sealing,
  proposing, following and auditing are modelled separately (`Ledger`, `Storage`,
  `Following`; classes `Sequencers.Sequencer` and `Replayers.Replayer`) and proved to be
  the same state transition; `Outcomes` says what that transition is.
- **Smaller pieces on the same chain**: the development clock in 64-bit arithmetic, the
  gas estimate, log filtering, the transaction index, the system-operation text codec,
  and the quorum and rotation rules.

## What is proved

For every cluster, every quorum for which 2Q - N > f and every run:

- honest validators never finalize different blocks at one height
  (`Consensus.Agreement`), their chains are prefixes of one another
  (`Consensus.PrefixConsistency`), their stored certificates agree
  (`Consensus.CertificatesAgree`), and a committed block shuts out every other one in
  later rounds (`Consensus.ExclusionAfterCommitment`). These hold if every ROUND-CHANGE
  delivered to an honest validator that carries a block hashing to its locked hash
  carries one of its own height, and blocks are built on the head
  (`Network.ProperInput`); without that they are false, see the first finding below;
- every honest chain audits, whatever the input (`Replicas.EveryChainAudits`), and where
  agreement holds two honest databases hold the same blocks and receipts
  (`Replicas.ReplicasIdentical`);
- a PREPARE means what it should: whatever the input, an honest validator signs one only
  for a block it proposed itself or one that its own re-execution puts next on its chain
  (`Network.PreparesVouched`, `Replicas.PreparesReexecuted`; `Duties.PreparesExactly`
  gives the exact condition for a single proposal);
- a lock is handed on: a timed-out validator reports exactly its own lock, and whoever
  enters the round unlocked takes over the latest lock among those that asked for it
  (`Duties.TimeoutReports`, `Duties.LockHandedOn`);
- the schedule is nobody's to skip: an honest validator leaves round 0 only because a
  quorum asked, at least Q - f of them honest with their own timers run out
  (`Rounds.RoundsAskedFor`, `Rounds.QuietStaysInRound`), and none is ever left with work
  pending and no timer running (`Pacing.NeverStranded`);
- one event finishes, nests at most one finalization more than there are buffered
  heights, and keeps the buffer within its limits (`Nesting.TurnNests`);
- no client request is lost or answered twice (`Effects.EveryRequestOnce`), and who is
  answered, and with what, is exact (`Duties.AnsweredExactly`, `Duties.TurnExpires`).

For every chain a node can build, alone or by following: what is sealed audits
(`Following.SealImpliesAudit`), proposing and applying leaves the very database that
sealing leaves (`Following.ApplyingIsSealing`), audits compose
(`Storage.AuditComposes`), the head hash fixes all of history
(`Storage.HeadHashFixesHistory`), no offered block rewrites anything
(`Following.OffersNeverRewrite`), the index agrees with a scan
(`Index.IndexAgreesWithScan`), and the bloom filter only saves time
(`LogFilters.FilterSkipChangesNothing`). What a block does is stated on states and
headers (`Outcomes`): a transaction block succeeds exactly when the EVM has a run through
it (`ExecutesExactly`), a system operation sets one balance and nothing else
(`SetsBalance`), and the body determines every header field that execution gives
(`HeaderDetermined`). What a log query selects is stated by how each constraint narrows
its answer (`LogFilters.ConstraintNarrows`, `LogFilters.WholeHistory`), and which texts
are system operations by what they spell (`SysOps.ParsesExactly`).

## Where the code and its own text differ

The model follows the code.

- A lock taken over from a ROUND-CHANGE is checked against its hash but not against
  the height (`packages/blockchain/internal/consensus/engine.go:804-814`), although the
  comments say a lock belongs to its height. `Locks.AdoptionStaysInHeight` gives the
  exact condition for one validator. `Witness` writes out a run of four validators,
  one of them dishonest, in which such locks take an honest validator back from height
  3 to height 2 (`HeightFallsBack`), let it propose a block of height 3 there on a stale
  `synced`, and leave two honest chains different at height 3 (`HonestChainsDiffer`).
  `Scenes` says what each kind of turn in such a run does.
- `Round` is not part of the PREPARE tally's key
  (`packages/blockchain/internal/consensus/roundstate.go:60-77`): a PREPARE signed for
  another round of the height counts toward the current one.
  `Locks.PreparesOfOneRound` gives the exact condition, `Locks.PrepareOfAnotherRound` a
  case. The agreement proof does not need the tally to be of one round, because each
  validator's own votes are consistent.
- `FaultTolerance` reports N - Q
  (`packages/blockchain/internal/consensus/validators.go:87-90`). With the derived quorum
  that many faults are covered exactly when 3 does not divide N, with a larger
  configured one always (`Quorums.ReportedToleranceIsCovered`); N = 6 is a counterexample.
- "Timestamps strictly increase" holds up to the last 64-bit second: the successor of a
  block stamped 2^64 - 1 is stamped 0 and does not audit. `Following.SealImpliesAudit`
  and `Clock.StrictlyLater` state the exact condition, `Following.LastSecondFailsAudit`
  a case.
- `IncreaseTime` promises the next block at least `seconds` past the head;
  `Clock.JumpReachesExactly` says when that is so in 64-bit arithmetic, and
  `Clock.JumpFallsShort` shows a case where it is not.
- `EstimateGas` promises the smallest limit; `GasEstimate.AnswerIsLeast` says when it is,
  `GasEstimate.AnswerNeedNotBeLeast` shows a case where it is not.

## Model

| member | source | states |
|---|---|---|
| Consensus.Agreement | packages/blockchain/internal/consensus/engine.go:549-729 | In every run where no ROUND-CHANGE delivered to an honest validator reports a lock on a block of another height (or where it did no harm), no two honest validators hold different blocks at one height, whatever the rounds, losses, repeats, reorderings and Byzantine messages |
| Consensus.PrefixConsistency | packages/blockchain/internal/consensus/engine.go:690-729 | In such runs, of any two honest chains, at any two moments, one is a prefix of the other, with chains growing by finalize or by pulling a block an honest validator holds |
| Consensus.CommitOnce | packages/blockchain/internal/consensus/engine.go:564-653 | In such runs an honest validator COMMITs to at most one block per height over all rounds, PREPAREs at most one per (height, round), and after a COMMIT prepares nothing else at that height |
| Consensus.ExclusionAfterCommitment | packages/blockchain/internal/consensus/engine.go:575-653 | In such runs, once Q validators committed x in rounds up to r, no other block can have Q PREPAREs in round r or later |
| Consensus.QuorumsAgree | packages/blockchain/internal/consensus/engine.go:660-687 | In such runs two COMMIT quorums at one height are for the same block |
| Consensus.FinalizedHasQuorum | packages/blockchain/internal/consensus/engine.go:660-729 | In such runs every block an honest chain gained was committed by Q members, each Byzantine or having really signed it |
| Consensus.CertificatesAgree | packages/blockchain/internal/consensus/seals.go:132-151 | In such runs stored certificates of honest validators name one block per height and at least Q members each |
| Consensus.ChainGrows | packages/blockchain/internal/consensus/engine.go:690-729 | In such runs an honest chain and its signed messages are only extended, and (height, round) never moves back |
| Consensus.ReachedOnCourse | packages/blockchain/internal/consensus/engine.go:804-814 | The condition on the input is enough: under it no honest validator ever locks or finalizes a block of a height it is not deciding |
| ClusterSafety.ProperStepHealthy | packages/blockchain/internal/consensus/engine.go:234-265 | One step with proper input keeps the invariant behind that, at every honest validator |
| ClusterSafety.PreparesGuarded | packages/blockchain/internal/consensus/engine.go:628-653 | The quorum argument: once Q others committed at a height where a validator has not, no quorum it may join prepares a block of another height there |
| Course.ReactStays | packages/blockchain/internal/consensus/engine.go:234-265 | The one-validator part: relying on that, no event makes a validator lock or finalize a block of another height, even when a stale synced flag makes it propose one |
| Witness.HonestChainsDiffer | packages/blockchain/internal/consensus/engine.go:804-814 | The condition cannot be dropped: a run of four validators, one dishonest, every other rule kept, in which two honest chains differ at height 3 and one validator signed two COMMITs there |
| Witness.HeightFallsBack | packages/blockchain/internal/consensus/engine.go:804-814 | In that run an honest validator deciding height 3 is later deciding height 2 |
| Network.StartShared | packages/blockchain/internal/consensus/engine.go:278-285 | In every run every honest chain begins with the chain the cluster was started over |
| Network.CountedOnce | packages/blockchain/internal/consensus/roundstate.go:60-77 | In every run no honest validator counts one sender for two blocks in its COMMIT tally |
| Network.PreparesVouched | packages/blockchain/internal/consensus/engine.go:589-605 | In every run, whatever the input, every PREPARE of an honest validator is for a block it proposed itself in that round, or for one of the vote's height that is valid on its own chain there |
| Rounds.RoundsAskedFor | packages/blockchain/internal/consensus/engine.go:788-792 | In every run an honest validator is past round 0 only because a quorum asked for exactly its height and round, at least Q - f > 0 of them honest validators that really signed for it |
| Rounds.QuietStaysInRound | packages/blockchain/internal/consensus/engine.go:310-330 | As long as no honest timer runs out, whatever Byzantine validators send, every honest validator stays in round 0 |
| Rounds.ReactSpeaks | packages/blockchain/internal/consensus/engine.go:735-773 | A turn signs ROUND-CHANGE only on a timeout, and then for the next round of its height |
| ClusterSafety.EngineStepInv | packages/blockchain/internal/consensus/engine.go:234-265 | One event at one validator keeps the cluster invariant |
| ClusterSafety.PullStepInv | packages/blockchain/internal/chain/follow.go:134-205 | A block pulled from an honest validator keeps the cluster invariant: it brings its commit quorum along |
| HandlerSafety.ReactSafe | packages/blockchain/internal/consensus/engine.go:234-265 | Whatever event arrives, a validator that locks and finalizes only blocks of its height signs nothing that contradicts what it signed before, counts only genuine votes, stores only real certificates, and does not move back |
| HandlerSafety.OnMessageSafe | packages/blockchain/internal/consensus/engine.go:468-533 | The same, with the same proviso, for one message, current, past or future |
| HandlerSafety.StartHeightSafe | packages/blockchain/internal/consensus/engine.go:287-308 | The same, with the same proviso, for opening a height and replaying what was buffered for it |
| HandlerSafety.FinalizeSafe | packages/blockchain/internal/consensus/engine.go:690-729 | The same, with the same proviso, for finalizing a block that carries a commit quorum |
| HandlerSafety.CommitSigned | packages/blockchain/internal/consensus/engine.go:628-653 | Locking before broadcasting a COMMIT keeps the votes consistent |
| HandlerSafety.PrepareSigned | packages/blockchain/internal/consensus/engine.go:607-620 | Signing a PREPARE for the held proposal keeps the votes consistent |
| HandlerSafety.LockAdopted | packages/blockchain/internal/consensus/engine.go:804-814 | Taking over a reported lock keeps the votes consistent if the block is of the height being decided |
| HandlerSafety.RoundLeft | packages/blockchain/internal/consensus/roundstate.go:293-300 | Entering a later round keeps the lock, the commits and the consistency of all votes |
| VoteSafety.SignAndRecord | packages/blockchain/internal/consensus/roundstate.go:160-198 | Signing one more consistent vote and filing it in the own tally keeps the validator disciplined |
| Effects.EveryRequestOnce | packages/blockchain/internal/consensus/engine.go:909-952 | Over any run every submitted request is waiting or answered, exactly as often as it arrived; the chain gained only blocks valid where they stand; and every PREPARE signed is for an own proposal or a block valid where it would stand |
| Effects.ReactCounts | packages/blockchain/internal/consensus/engine.go:234-265 | One turn adds exactly the arriving request to those waiting or answered, and keeps counted COMMITs filed and signed PREPAREs vouched for |
| Effects.FinalizeKeeps | packages/blockchain/internal/consensus/engine.go:690-729 | Finalizing, with everything it sets off, loses and repeats no answer and appends only valid blocks |
| Effects.AppliedExtends | packages/blockchain/internal/chain/follow.go:134-205 | What the chain accepts is valid where it stands |
| Nesting.TurnNests | packages/blockchain/internal/consensus/engine.go:287-308 | One event finishes with finalizations nested at most one deeper than the buffered heights were many; afterwards at most 64 heights of at most 32 messages are buffered, all above the current height |
| Nesting.BufferKeepsNewest | packages/blockchain/internal/consensus/engine.go:535-547 | A full bucket loses its oldest message and keeps the new one; a full buffer turns away only untracked heights; nothing else changes |
| Nesting.StartHeightNests | packages/blockchain/internal/consensus/engine.go:287-308 | Opening a height nests no deeper than the buffered heights are many |
| Duties.PreparesExactly | packages/blockchain/internal/consensus/engine.go:549-620 | A proposal makes a validator sign anything or hold a block exactly when it is the current turn's, the validator is idle, its lock allows the hash, and the body hashes to it, is the next one on the head, timely and valid there; then a PREPARE for it is what it signs first |
| Duties.AnswersReexecuted | packages/blockchain/internal/consensus/engine.go:586-597 | With the ledger behind the engine, no signature answers a proposal that does not re-execute on the head |
| Duties.PrepareQuorumCommits | packages/blockchain/internal/consensus/engine.go:622-653 | A COMMIT is signed for the block being prepared exactly when Q members have prepared it |
| Duties.LockIsOfCommit | packages/blockchain/internal/consensus/engine.go:634-651 | The lock a COMMIT leaves is of that COMMIT's block and round |
| Duties.CommitQuorumDecides | packages/blockchain/internal/consensus/engine.go:660-687 | On a COMMIT quorum a validator that holds the block, proposed or locked, seals it with the votes counted and has it on its chain if it could land; one that lacks it asks to be caught up; short of a quorum nothing happens |
| Duties.TimeoutReports | packages/blockchain/internal/consensus/engine.go:735-773 | A timeout signs exactly one ROUND-CHANGE, for the next round, and it reports exactly the sender's own lock: round, hash and block, or none |
| Duties.LockHandedOn | packages/blockchain/internal/consensus/engine.go:788-818 | End to end on the senders' own locks: when Q validators timed out, an unlocked one that enters the round takes over the block of one whose lock is the latest among them, as locked in the round entered, and stays unlocked exactly if none of them is locked |
| Duties.AnsweredExactly | packages/blockchain/internal/consensus/engine.go:920-934 | When a block lands, exactly the requests with their own block at that height are answered, each with it; the others wait on without a candidate |
| Duties.HeadMovedAnswers | packages/blockchain/internal/consensus/engine.go:382-388 | A validator that hears of a head answers every request with a block at that height |
| Duties.FinalizeAnswers | packages/blockchain/internal/consensus/engine.go:719-728 | So does one that finalizes a block that lands |
| Duties.TurnExpires | packages/blockchain/internal/consensus/engine.go:938-952 | After every turn no request is past its deadline: those that were have been told so, and no others |
| Duties.SubmitAnswers | packages/blockchain/internal/consensus/engine.go:909-917 | A submission is refused exactly at a queue of 64 |
| Duties.TimerRuns | packages/blockchain/internal/consensus/engine.go:310-338 | The quiescence rule leaves the timer running exactly when there is a queued request, a vote of this round, a lock or peer activity |
| Duties.ProposesFirstBuildable | packages/blockchain/internal/consensus/engine.go:394-430 | An idle, synced, unlocked proposer rejects the requests it cannot build, in order, and proposes and prepares the block of the first it can |
| Pacing.NeverStranded | packages/blockchain/internal/consensus/engine.go:310-368 | Over any run: with a request waiting, a vote cast, a lock held or another's vote heard the round timer runs, at the timeout of the current round; a validator knows exactly when it is its turn; and it is past round 0 only with a quorum of members asking for that round |
| Pacing.ReactWatches | packages/blockchain/internal/consensus/engine.go:234-265 | What every turn keeps for that: place, timer and filed round changes, the buffered ones included |
| Pacing.TimeoutWatches | packages/blockchain/internal/consensus/engine.go:768-772 | A validator whose timer ran out sets it again, whatever became of the old one |
| Pacing.ReceivingRuns | packages/blockchain/internal/consensus/engine.go:514-519 | Accepting a message leaves the timer running and marks the height as active |
| Locks.HighestLockIsHighest | packages/blockchain/internal/consensus/roundstate.go:256-272 | The round-change scan, in any order that walks every vote, finds a lock-carrying vote of the highest locked round, and none exactly if no vote carries one |
| Locks.AdoptionStaysInHeight | packages/blockchain/internal/consensus/engine.go:804-814 | After adopting a reported lock the validator holds only blocks of its height exactly when the reported block is of that height |
| Locks.FinalizingMovesTo | packages/blockchain/internal/consensus/engine.go:690-729 | Finalizing moves the validator past the number of the block, so forward exactly when the block lands and is not of a lower height; the certificate stored names the round and the voters, whether or not it lands |
| Locks.RecordingFiles | packages/blockchain/internal/consensus/roundstate.go:160-216 | Recording counts a new vote and keeps each sender on at most one block; equivocation is flagged exactly on a second hash, marks the sender and removes its first vote; a repeat changes nothing |
| Locks.PreparesOfOneRound | packages/blockchain/internal/consensus/roundstate.go:60-77 | The PREPARE tally stays within one round exactly when no PREPARE of another round is filed |
| Locks.PrepareOfAnotherRound | packages/blockchain/internal/consensus/roundstate.go:60-77 | A PREPARE signed for round 1 and received in round 0 is counted there |
| Locks.LockOutranksQueue | packages/blockchain/internal/consensus/engine.go:394-466 | A proposer entering a round with a lock proposes and prepares exactly the locked block, whatever is queued |
| Locks.BackoffShape | packages/blockchain/internal/consensus/engine.go:340-368 | The round timer is flat for one rotation; from then on each round waits one base timeout longer than the one before; it never exceeds 30 seconds |
| Locks.AloneCannotDecide | packages/blockchain/internal/consensus/engine.go:628-653 | Own votes alone never reach a quorum of two or more |
| Protocol.StartHeight | packages/blockchain/internal/consensus/engine.go:287-308 | The re-entrant recursion ends; no bucket is added and everything left in the buffer lies above the validator |
| Protocol.OnMessage | packages/blockchain/internal/consensus/engine.go:468-533 | A message adds at most its own height to the buffer, which stays well formed |
| Protocol.React | packages/blockchain/internal/consensus/engine.go:234-265 | After every event the buffer is bounded and ahead of the current height |
| Protocol.Pull | packages/blockchain/internal/chain/follow.go:134-205 | The follower only extends the chain and touches nothing else |
| Protocol.WaitersAccounted | packages/blockchain/internal/consensus/engine.go:920-952 | Resolving and expiring waiters moves requests to answers, one for one |
| RoundStates.RoundState.constructor | packages/blockchain/internal/consensus/roundstate.go:135-149 | A fresh round state for a height |
| RoundStates.RoundState.Record | packages/blockchain/internal/consensus/roundstate.go:160-198 | New vote, repeat or equivocation, as specified |
| RoundStates.RoundState.File | packages/blockchain/internal/consensus/roundstate.go:178-198 | The vote goes to the tally of its kind |
| RoundStates.RoundState.Withdraw | packages/blockchain/internal/consensus/roundstate.go:209-216 | The vote withdrawn is the one filed |
| RoundStates.RoundState.LockOn | packages/blockchain/internal/consensus/roundstate.go:232-237 | The lock is set and nothing else changes |
| RoundStates.RoundState.HighestLock | packages/blockchain/internal/consensus/roundstate.go:256-272 | The loop finds the vote the specification names |
| RoundStates.RoundState.EnterRound | packages/blockchain/internal/consensus/roundstate.go:293-300 | A new round clears proposal and prepares, and keeps lock and commits |
| Engines.Engine.constructor | packages/blockchain/internal/consensus/engine.go:158-217 | An engine over a chain, before its loop |
| Engines.Engine.Start | packages/blockchain/internal/consensus/engine.go:234-285 | Starts the height after the head |
| Engines.Engine.React | packages/blockchain/internal/consensus/engine.go:234-265 | One turn of the loop reaches the specified state |
| Engines.Engine.ArmTimer | packages/blockchain/internal/consensus/engine.go:354-368 | Timer set to the specified backoff |
| Engines.Engine.ArmTimerIfWorkPending | packages/blockchain/internal/consensus/engine.go:331-338 | The quiescence rule |
| Engines.Engine.CheckSynced | packages/blockchain/internal/consensus/engine.go:980-988 | Synced means deciding the height after the head |
| Engines.Engine.ResolveWaiters | packages/blockchain/internal/consensus/engine.go:920-934 | In-place compaction answers exactly the requests whose block stands at the height and forgets stale candidates |
| Engines.Engine.ExpireWaiters | packages/blockchain/internal/consensus/engine.go:938-952 | In-place compaction times out exactly the requests past their deadline |
| Engines.Engine.BufferFuture | packages/blockchain/internal/consensus/engine.go:535-547 | Bounded buffering of future messages |
| Engines.Engine.MaybePropose | packages/blockchain/internal/consensus/engine.go:394-430 | Proposes when it is this turn, synced and idle |
| Engines.Engine.ProposeFromQueue | packages/blockchain/internal/consensus/engine.go:415-430 | The loop over the queue rejects what cannot be built and proposes the first that can |
| Engines.Engine.BroadcastProposal | packages/blockchain/internal/consensus/engine.go:432-466 | Proposal sent, prepared, timer armed |
| Engines.Engine.CastPrepare | packages/blockchain/internal/consensus/engine.go:607-620 | PREPARE recorded, sent, quorum checked |
| Engines.Engine.CheckPrepareQuorum | packages/blockchain/internal/consensus/engine.go:628-653 | Locks and commits on a PREPARE quorum for the held proposal |
| Engines.Engine.LockAndCommit | packages/blockchain/internal/consensus/engine.go:637-651 | The validator is locked when its COMMIT leaves |
| Engines.Engine.CheckCommitQuorum | packages/blockchain/internal/consensus/engine.go:660-687 | Finalizes the held block on a COMMIT quorum, or asks for catch-up |
| Engines.Engine.Finalize | packages/blockchain/internal/consensus/engine.go:690-729 | Certificate, block, waiters, next height |
| Engines.Engine.PutSeals | packages/blockchain/internal/consensus/seals.go:132-151 | The certificate is stored under number and hash |
| Engines.Engine.ApplyToChain | packages/blockchain/internal/consensus/engine.go:710-728 | A block that is or becomes the own chain's answers its waiters; any other is refused |
| Engines.Engine.StartHeight | packages/blockchain/internal/consensus/engine.go:287-308 | Opens a height, replays its bucket, drops the past, proposes |
| Engines.Engine.CatchUpTo | packages/blockchain/internal/consensus/engine.go:287-306 | The part of startHeight before proposing |
| Engines.Engine.Replay | packages/blockchain/internal/consensus/engine.go:291-297 | The loop over the bucket handles its messages in order |
| Engines.Engine.DropPast | packages/blockchain/internal/consensus/engine.go:298-303 | The loop over the buffer drops exactly the settled heights |
| Engines.Engine.OnMessage | packages/blockchain/internal/consensus/engine.go:468-533 | Dispatch of one message |
| Engines.Engine.FileMessage | packages/blockchain/internal/consensus/engine.go:498-519 | A new message makes the height live and the timer run |
| Engines.Engine.Dispatch | packages/blockchain/internal/consensus/engine.go:521-530 | What a newly filed message sets off |
| Engines.Engine.OnProposal | packages/blockchain/internal/consensus/engine.go:549-605 | A proposal is prepared only from its proposer, in the current idle round, acceptable to the lock and re-executed |
| Engines.Engine.CheckRoundChangeQuorum | packages/blockchain/internal/consensus/engine.go:788-818 | Enters a later round on a quorum of round changes |
| Engines.Engine.NextRound | packages/blockchain/internal/consensus/engine.go:794-815 | Enters the round and takes over a reported lock |
| Engines.Engine.AdoptLock | packages/blockchain/internal/consensus/engine.go:806-814 | A reported lock is taken over exactly if its body hashes to it and none is held |
| Engines.Engine.OnRoundTimeout | packages/blockchain/internal/consensus/engine.go:735-773 | Asks for the next round, reporting the lock |
| Engines.Engine.AskForRound | packages/blockchain/internal/consensus/engine.go:739-772 | The ROUND-CHANGE signed, recorded and sent |
| Engines.Engine.OnSubmit | packages/blockchain/internal/consensus/engine.go:909-917 | Queues a request or answers Busy |
| Engines.Engine.OnHeadMoved | packages/blockchain/internal/consensus/engine.go:382-388 | A moved head starts the next height |
| Quorums.DerivedQuorumIsLeast | packages/blockchain/internal/config/consensus.go:80-97 | DeriveQuorum(N) is the least Q with 2Q - N > f, and Q <= N - f |
| Quorums.AcceptedQuorumExactly | packages/blockchain/internal/config/consensus.go:377-388 | An override passes validation exactly when it is at most N and intersects |
| Quorums.ReportedToleranceIsCovered | packages/blockchain/internal/consensus/validators.go:87-90 | For every accepted quorum, derived or configured, N - Q faults are covered by intersection exactly when 3Q > 2N, that is unless 3 divides N and Q is the derived quorum |
| Quorums.ReportedToleranceCounterexample | packages/blockchain/internal/consensus/validators.go:87-90 | N = 6: two reported faults are not covered |
| Quorums.NewValidatorSet | packages/blockchain/internal/consensus/validators.go:47-79 | Succeeds exactly on a non-empty duplicate-free list with a reachable quorum; order and both lookups are exact |
| Quorums.TurnIsSum | packages/blockchain/internal/consensus/validators.go:117-143 | Reducing before adding gives (height + round) mod N |
| Quorums.RotationIsExact | packages/blockchain/internal/consensus/validators.go:117-143 | Any N consecutive rounds elect each validator exactly once |
| Quorums.HonestTurn | packages/blockchain/internal/consensus/validators.go:117-143 | Any f + 1 consecutive rounds have an honest proposer |
| Quorums.SharedHonestMember | packages/blockchain/internal/config/consensus.go:80-97 | Two quorums share a member outside any f |
| Replicas.EveryChainAudits | packages/blockchain/internal/consensus/engine.go:690-729 | Every honest chain of every run, whatever the input, is one the ledger can audit if the starting chain was |
| Replicas.ReplicasIdentical | packages/blockchain/internal/consensus/engine.go:690-729 | Wherever Agreement holds, two honest validators hold the same blocks and stored receipts at every common height |
| Replicas.PreparesReexecuted | packages/blockchain/internal/consensus/engine.go:589-605 | In every run every PREPARE of an honest validator is for a block it proposed itself, or for one the ledger can put on its chain at that height |
| Replicas.ValidatorAudits | packages/blockchain/internal/chain/replay.go:147-201 | The full audit of a validator's database succeeds and ends in its head's state |
| Ledger.SealedTxChecks | packages/blockchain/internal/chain/seal.go:102-137 | A sealed transaction block always re-executes to its own receipts, and passes linkage too exactly when its time moved forward |
| Ledger.SealedSysOpChecks | packages/blockchain/internal/chain/sequencer.go:756-813 | A system operation is sealed exactly when it is applicable, and then re-applies |
| Ledger.SealedEmptyChecks | packages/blockchain/internal/chain/sequencer.go:696-733 | An empty block re-executes to its parent's state |
| Ledger.ReplayBlock | packages/blockchain/internal/chain/replay.go:229-323 | One receipt per transaction; transactions or a system operation, never both |
| Ledger.Check | packages/blockchain/internal/chain/replay.go:333-394 | A block that passes commits to the state re-execution gave |
| Storage.ValidIsExecuted | packages/blockchain/internal/chain/replay.go:333-394 | A block may follow exactly when it re-executes and links to the head, with the receipts re-execution gives |
| Outcomes.SetsBalance | packages/blockchain/internal/chain/sysop.go:145-160 | Re-executing a block whose extra data parses as a system operation gives the named account that balance and leaves every other balance, every nonce and the rest of the state as they were |
| Outcomes.PrefixReserved | packages/blockchain/internal/chain/replay.go:252-275 | A block whose extra data starts with the prefix re-executes only as the operation its text spells, and carries no transactions |
| Outcomes.SealedBalance | packages/blockchain/internal/chain/sequencer.go:756-813 | The same for the state of the head after sealing one |
| Outcomes.ExecutesExactly | packages/blockchain/internal/chain/replay.go:277-323 | A transaction block re-executes exactly when the EVM has a run through all its transactions, each with its sender's next nonce and none failing; it ends in that run's last state with that run's receipts |
| Outcomes.HeaderDetermined | packages/blockchain/internal/chain/replay.go:356-394 | Two blocks with the same transactions, gas limit, number, time and extra data that both pass over the same state have headers equal in state root, gas used, both other roots and bloom |
| Outcomes.HeaderTotals | packages/blockchain/internal/chain/replay.go:356-394 | A header that passes names as gas used the sum of what its transactions used, and its bloom has exactly the bits of their logs |
| Outcomes.SealsExactly | packages/blockchain/internal/chain/sequencer.go:444-527 | A transaction is sealed exactly when its signature recovers, its gas fits the block, its nonce is the sender's next and the EVM runs it without failing; the block holds it, the state it led to and the parent's successor fields |
| Outcomes.SealsAsAsked | packages/blockchain/internal/chain/sequencer.go:696-813 | An empty block leaves the state alone; a system operation's block carries its text and changes one balance |
| Outcomes.AuditReports | packages/blockchain/internal/chain/replay.go:147-201 | The audit of a stored chain reports the range, its number of transactions and the gas of its headers, or names the first block that does not follow |
| Ledger.ApplyMessage | packages/blockchain/internal/chain/execute.go:136-147 | A result only when pre-checks pass |
| Storage.PersistStores | packages/blockchain/internal/chain/seal.go:237-259 | Persisting the next block extends the stored chain by it, files its receipts and changes no earlier ones |
| Storage.AuditComposes | packages/blockchain/internal/chain/replay.go:147-201 | Cut anywhere, the audit is that of its parts: success, totals, final state and first fault |
| Storage.HeadHashFixesHistory | packages/blockchain/internal/chain/replay.go:147-220 | Audited databases with the same genesis and head hash have the same length, blocks and stored receipts at every height |
| Storage.HeaderFixesContents | packages/blockchain/internal/chain/replay.go:333-394 | A header fixes the body, the parent hash and the receipts |
| Storage.AuditedBlock | packages/blockchain/internal/chain/replay.go:147-201 | What an audit establishes about each block of its range |
| Storage.AuditMeansFollows | packages/blockchain/internal/chain/replay.go:147-201 | The audit of a stored chain succeeds exactly when each block follows from those before it |
| Storage.BlockAt | packages/blockchain/internal/chain/replay.go:207-220 | A block read for the audit hashes to the hash it is filed under |
| Replayers.Replayer.Replay | packages/blockchain/internal/chain/replay.go:147-201 | The loop computes the specified audit, clamped start and empty range included |
| Replayers.Replayer.ReplayOne | packages/blockchain/internal/chain/replay.go:164-193 | One turn of that loop |
| Replayers.Replayer.ReplayBlock | packages/blockchain/internal/chain/replay.go:229-323 | The loop over transactions computes the specified re-execution |
| Replayers.Replayer.VerifyBlock | packages/blockchain/internal/chain/replay.go:356-394 | The first header commitment that is not met |
| Replayers.CompareReceipts | packages/blockchain/internal/chain/replay.go:422-447 | Accepts exactly equal receipts, otherwise names the first field that differs |
| Replayers.CompareLogs | packages/blockchain/internal/chain/replay.go:451-483 | Accepts exactly equal logs, otherwise names the first field that differs |
| Following.JudgeExactly | packages/blockchain/internal/chain/follow.go:134-205 | Every answer of ApplyExternalBlock, if and only if, in terms of the chain held |
| Following.NeverRewrites | packages/blockchain/internal/chain/follow.go:134-205 | An offered block extends the chain by itself or changes nothing |
| Following.OffersNeverRewrite | packages/blockchain/internal/chain/follow.go:74-205 | Under any sequence of offers the old chain stays a prefix, each added block was offered and follows, and audited chains stay audited |
| Following.CatchesUpExactly | packages/blockchain/internal/chain/follow.go:74-88 | Pulling the block each refusal names reaches the peer in exactly the missing number of steps |
| Following.EngineAppliesLedger | packages/blockchain/internal/chain/follow.go:134-205 | The engine's view of applying a block is the ledger's |
| Following.EngineVerifiesLedger | packages/blockchain/internal/chain/candidate.go:276-335 | The engine's view of verifying a proposal is the ledger's |
| Following.BuiltChecks | packages/blockchain/internal/chain/candidate.go:102-260 | A built block is the next one on the head, at the given time, and follows exactly when that is later than the head |
| Following.ApplyingIsSealing | packages/blockchain/internal/chain/candidate.go:102-172 | Applying a candidate to the head it was built on leaves exactly the database sealing it leaves, if and only if its time moved forward |
| Following.LastSecondFailsAudit | packages/blockchain/internal/chain/seal.go:23-32 | An empty block over a genesis stamped 2^64 - 1 is stamped 0 and fails the audit |
| Following.SealImpliesAudit | packages/blockchain/internal/chain/replay.go:147-323 | Along every run of sealed and accepted blocks the full audit succeeds, in the head's state, exactly when nothing was built on a block at the last 64-bit second |
| Sequencers.Sequencer.constructor | packages/blockchain/internal/chain/sequencer.go:115-186 | The clock is seeded from the stored head |
| Sequencers.Sequencer.SetDevOffset | packages/blockchain/internal/chain/sequencer.go:204-216 | The offset is clamped |
| Sequencers.Sequencer.IncreaseTime | packages/blockchain/internal/chain/sequencer.go:261-294 | The new total, or a refusal that changes nothing |
| Sequencers.Sequencer.SetNextBlockTimestamp | packages/blockchain/internal/chain/sequencer.go:322-337 | A pin is set exactly when it lies past the head |
| Sequencers.Sequencer.PeekTimestamp | packages/blockchain/internal/chain/sequencer.go:341-353 | The due timestamp, nothing consumed |
| Sequencers.Sequencer.CommitTimestamp | packages/blockchain/internal/chain/sequencer.go:359-378 | A pin is consumed once and the offset follows the sealed time |
| Sequencers.Sequencer.AdoptTimestamp | packages/blockchain/internal/chain/follow.go:234-250 | The offset follows an adopted block when adoption is on |
| Sequencers.AssembleBlock | packages/blockchain/internal/chain/seal.go:102-137 | The loop fills the header with the totals of the receipts |
| Sequencers.Sequencer.Finalize | packages/blockchain/internal/chain/seal.go:148-155 | Block persisted, pin consumed, event published |
| Sequencers.Sequencer.SubmitTx | packages/blockchain/internal/chain/sequencer.go:444-527 | Seals the built block, or fails with its error and leaves everything, pin included, untouched |
| Sequencers.Sequencer.MineEmpty | packages/blockchain/internal/chain/sequencer.go:696-733 | Seals an empty block at a requested later time, or at the due one |
| Sequencers.Sequencer.SetBalance | packages/blockchain/internal/chain/sequencer.go:744-813 | Seals a balance change that parses back, or changes nothing; afterwards the new head's state has that balance for that account and is otherwise the old head's |
| Sequencers.Sequencer.BuildCandidate | packages/blockchain/internal/chain/candidate.go:102-172 | Fails exactly when SubmitTx would, with the same error, and otherwise gives its block; changes nothing |
| Sequencers.Sequencer.BuildEmptyCandidate | packages/blockchain/internal/chain/candidate.go:181-203 | The empty block MineEmpty would seal, and nothing written |
| Sequencers.Sequencer.BuildSysOpCandidate | packages/blockchain/internal/chain/candidate.go:208-260 | The system-operation block SetBalance would seal, and nothing written |
| Sequencers.Sequencer.VerifyCandidate | packages/blockchain/internal/chain/candidate.go:276-335 | The specified verdict, with the future-drift bound before execution; writes nothing |
| Sequencers.Sequencer.ApplyExternalBlock | packages/blockchain/internal/chain/follow.go:134-205 | The specified verdict and database; clock adopted and event published exactly on acceptance |
| Sequencers.DueIsAdmissible | packages/blockchain/internal/chain/sequencer.go:341-353 | The due timestamp lies past the head unless the head is at the last second, so method runs are runs of the specified steps |
| Sequencers.DriftBound | packages/blockchain/internal/chain/candidate.go:276-335 | The bound on a proposal's timestamp is 15 seconds past the node's clock exactly as long as that time is not before 1970 |
| Sequencers.PinUsedOnce | packages/blockchain/internal/chain/sequencer.go:341-378 | A pin past the head stamps exactly one block; the next follows the clock, and no wall second is lost exactly when the pin was within the clamp or at most a second passed |
| Clock.OffsetStaysInRange | packages/blockchain/internal/chain/sequencer.go:196-294 | Every writer keeps the offset within 2^32 whole seconds and no product overflows |
| Clock.StrictlyLater | packages/blockchain/internal/chain/seal.go:23-32 | The next block is later than its parent exactly when a later second exists |
| Clock.ContinuesAfterRebase | packages/blockchain/internal/chain/sequencer.go:359-378 | After a consumed pin or adopted block no wall second is lost, exactly when the head is within the clamp or at most a second passed |
| Clock.ContinuesAfterSeed | packages/blockchain/internal/chain/sequencer.go:165-186 | The same after a restart |
| Clock.JumpFallsShort | packages/blockchain/internal/chain/sequencer.go:261-294 | A granted jump of two seconds that gains one |
| Clock.JumpReachesExactly | packages/blockchain/internal/chain/sequencer.go:261-294 | A granted jump reaches head + s exactly when the sums fit in 63 bits or the jump is at most one second |
| GasEstimate.EstimateGas | packages/blockchain/internal/chain/sequencer.go:596-669 | Terminates; the result works and its predecessor failed or is below the net use; failures at the ceiling are reported as such |
| GasEstimate.AnswerIsBoundary | packages/blockchain/internal/chain/sequencer.go:596-669 | With monotone success, limits from the net use up work exactly from the answer on |
| GasEstimate.AnswerIsUnique | packages/blockchain/internal/chain/sequencer.go:643-652 | With monotone success the probe cannot change the answer |
| GasEstimate.AnswerIsLeast | packages/blockchain/internal/chain/sequencer.go:577-594 | The answer is the least limit that works exactly when one less than the net use does not |
| GasEstimate.AnswerNeedNotBeLeast | packages/blockchain/internal/chain/sequencer.go:577-594 | An execution whose estimate is 50 000 although 30 000 suffice |
| GasEstimate.ProbeIsExact | packages/blockchain/internal/chain/sequencer.go:632-643 | The probe product is exact exactly up to 2^64 / 320 |
| GasEstimate.AnswerWithinOffer | packages/blockchain/internal/chain/sequencer.go:596-618 | The answer is within the block limit, and within what the caller offered if that is at least 21 000 |
| LogFilters.DeriveReceiptFields | packages/blockchain/internal/chain/txlookup.go:140-197 | Running counters give each receipt its own gas and each log its place in the block; fails exactly on a length mismatch or an unrecoverable creation |
| LogFilters.DerivingRestores | packages/blockchain/internal/chain/txlookup.go:140-197 | Deriving gives back the gas, transaction and bloom execution produced, and a creation's contract address from its sender and nonce |
| LogFilters.AppendBlockLogs | packages/blockchain/internal/chain/logs.go:201-227 | Appends exactly the block's matching logs, or reports missing receipts |
| LogFilters.FindLogs | packages/blockchain/internal/chain/logs.go:93-143 | The filtered query with the bloom skip, errors included |
| LogFilters.ScanForward | packages/blockchain/internal/chain/logs.go:124-141 | The loop over the range |
| LogFilters.MatchShows | packages/blockchain/internal/chain/logs.go:233-285 | A matching log always shows in a bloom that covers it |
| LogFilters.RuledOut | packages/blockchain/internal/chain/logs.go:233-252 | A block its bloom rules out has no matching log |
| LogFilters.EveryRunArchives | packages/blockchain/internal/chain/seal.go:237-259 | Along every run of a node its database is an archive, as the rows below assume |
| LogFilters.SkipChangesNothing | packages/blockchain/internal/chain/logs.go:120-143 | Skipping by bloom returns exactly what the exact scan returns |
| LogFilters.FilterSkipChangesNothing | packages/blockchain/internal/chain/logs.go:93-143 | The same for whole queries, tags, clamp and range cap included |
| LogFilters.ScanAscends | packages/blockchain/internal/chain/logs.go:93-96 | Results are in strictly ascending (block number, log index) order |
| LogFilters.ScanExactly | packages/blockchain/internal/chain/logs.go:120-143 | Results are exactly the matching logs the blocks of the range emitted |
| LogFilters.ConstraintNarrows | packages/blockchain/internal/chain/logs.go:255-285 | Adding addresses to a query keeps exactly the entries of its answer with such an address; adding a topic position keeps exactly those with a topic there and, unless it is a wildcard, one of the given; order and errors stay |
| LogFilters.BlockGivesAll | packages/blockchain/internal/chain/logs.go:201-227 | Without constraints a block gives all its logs, numbered through the block in the order of its receipts |
| LogFilters.WholeHistory | packages/blockchain/internal/chain/logs.go:93-143 | An unconstrained query from the earliest block on returns exactly the logs the chain emitted |
| LogFilters.TagsMean | packages/blockchain/internal/chain/logs.go:145-195 | Earliest is block 0; no tag, every other named tag and any number past the head are the head; a negative number is refused |
| LogFilters.RangesJoin | packages/blockchain/internal/chain/logs.go:107-143 | The length limit refuses a range or changes nothing, a range ending before it starts is empty, and cut anywhere a query is its two parts in order, up to the first error |
| LogFilters.HashNamesBlock | packages/blockchain/internal/chain/logs.go:93-106 | Asking by the hash of a block of the chain is asking for its number; a hash together with a range is refused |
| LogFilters.MissingReceiptsShow | packages/blockchain/internal/chain/logs.go:201-227 | A block whose receipts are gone is reported, not passed over |
| Index.FindTransaction | packages/blockchain/internal/chain/txlookup.go:77-104 | The lookup through the index, corruption distinguished from absence |
| Index.MinedOnce | packages/blockchain/internal/chain/validate.go:126-132 | A transaction is mined in at most one place of a chain whose blocks re-execute |
| Index.ExecutionSpends | packages/blockchain/internal/chain/validate.go:126-132 | Executing a transaction uses up its nonce, so it was unused before |
| Index.LookupIsScan | packages/blockchain/internal/chain/txlookup.go:77-104 | With an intact index a lookup is a scan of the whole chain |
| Index.IndexAgreesWithScan | packages/blockchain/internal/chain/seal.go:237-259 | Along every run lookup and scan agree on the one place |
| SysOps.RoundTrip | packages/blockchain/internal/chain/sysop.go:90-130 | Parse(Encode(op)) is op exactly when ApplySysOp would carry op out |
| SysOps.ParsedIsApplicable | packages/blockchain/internal/chain/sysop.go:99-160 | Whatever parses can be applied |
| SysOps.ParsesExactly | packages/blockchain/internal/chain/sysop.go:94-135 | A text is accepted as an operation if and only if it spells it: the prefix, setBalance, the address in full width with or without a hex prefix, and the value with one in the fewest digits, in any letter case |
| SysOps.EncodedFields | packages/blockchain/internal/chain/sysop.go:90-92 | An encoded operation splits back into its four fields |
| SysOps.HexWidth | packages/blockchain/internal/chain/sysop.go:90-92 | A quantity has at most w digits exactly when it is below 16^w |

## Left out

- Consensus.Agreement: proved under a condition on the delivered ROUND-CHANGE messages (`Network.ProperInput`), or if no honest validator went astray; one run shows that the condition cannot be dropped. That every breach of the condition can be made to lead to a disagreement is not claimed.
- Consensus.PrefixConsistency: the same condition; so too Consensus.CommitOnce, Consensus.ExclusionAfterCommitment, Consensus.QuorumsAgree, Consensus.FinalizedHasQuorum, Consensus.CertificatesAgree and Consensus.ChainGrows.
- Consensus.ChainGrows: heights are unbounded naturals. Validators start over any common chain, so a cluster stopped and restarted between heights is covered; the restart of an honest validator in the middle of a height is not modelled.
- HandlerSafety.ReactSafe: says nothing of the votes of a validator that has locked or finalized a block of another height; under proper input there is none (Course.ReactStays).
- ClusterSafety.PullStepInv: a follower pulls only blocks that an honest validator holds; pulling from a Byzantine peer, and adopting its block without a certificate, is not part of the consensus model (Following covers it for one node).
- Protocol.StartHeight: a quorum is at least two votes; a cluster whose quorum is one validator is not modelled.
- Index.IndexAgreesWithScan: assumes of the EVM that execution uses up the sender's nonce and lowers no other.
- Clock.OffsetStaysInRange: the wall clock is taken to lie within 2^62 seconds after 1970.
- GasEstimate.EstimateGas: execution is taken to cost at least one unit of gas and never more than the limit; with zero cost the lower bound of the search would wrap.
- Engines.Engine.ResolveWaiters: matches requests by height only, as the code does; that a success reply names the request's own canonical block is therefore not claimed.
- Engines.Engine.ArmTimer: durations are unbounded milliseconds; the overflow of a 64-bit duration after some 2^31 rounds is not modelled.
- Engines.Engine.React: the clock is read once per event, and the map order in which round changes are walked is a parameter of the configuration.
- LogFilters.DerivingRestores: receipt gas below 2^64, as every receipt's is; block and gas totals are otherwise unbounded.
- Sequencers.Sequencer.SetNextBlockTimestamp: which of the two errors is returned is modelled, their texts are not.
- Cryptography, RLP, tries, Pebble and EVM opcodes: signatures are unforgeable, hashes and roots injective, states always readable, execution one deterministic function.
- Transport, mTLS, HTTP, JSON-RPC, goroutines and channels: the owning loop is already a sequence of atomic steps; dropping on a full inbox is message loss.
- Disk, fsync and signing failures: writes are atomic and succeed.
- The pre-build in `submit`, the channel hand-over, the shutdown replies and the `done` guard against a second reply: requests enter the model when the loop takes them.
- The status snapshot, deadlines for display and logging: no effect on decisions.
- `SealedBy`, seal signatures and their order in a certificate: a certificate is the set of its signers.
- The backing array shared while the queue is compacted: the queue is a sequence overwritten in place.
- Receipt pointers filled in place by `deriveReceiptFields` and `annotateReceipts`: derived receipts are new values.
- Liveness: two honest locks on different blocks can stall a height; only safety, termination and arithmetic are claimed.
- The web and mobile applications, the contracts and circuit, configuration parsing other than the quorum rules, and deployment.
