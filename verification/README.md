# The swap desk, modelled and proved

A cross-chain atomic swap desk locks a counter-asset on one chain (leg A, the Buyer's) and FLOP on another (leg B, the
Seller's) under one hash, and has to survive a crash at any instant. This project models six of its parts in Dafny and proves
what each is for:

- **The crash-safe Buyer.** `Journal`, `JournalRuns`: one stored record, compare-and-swap saves, any number of writers.
  `BuyerState`, `BuyerSteps`: the record, the latches of `BuyerFlow`, and every segment between two awaits of `lockLegA`,
  `claimLegB` and `refundLegA` as one atomic step, over a rail that may land a transaction now, later or never, with crashes,
  failing saves, lost replies and several live instances. `BuyerLocks`, `BuyerOutcomes`, `BuyerResults`, `BuyerLines`: what
  every run keeps, with any number of live instances. `BuyerRefunds`: when the rail's refund is called, for any number of
  instances and for one. `BuyerExamples`: concrete runs that reach every exception those theorems name. `BuyerVerdict`: the
  chain's answers are the flow's rail's. `BuyerFlows`: the flow as the object with its latch fields, each method proved to be
  its step, each call a run of its steps. `BuyerProgress`, `BuyerLocking`, `BuyerCalls`: what each whole call comes to when
  nothing disturbs it, in the store and on the rail.
- **Posted lines.** `Frames`, `FrameRuns`, `FlowJournals`: intent saved before the post, lines adopted instead of repeated.
  `FrameRepeats`: exactly when a line is posted again. `FrameSecrets`: a line that carries the secret is stored as its digest only.
- **The timed protocol.** `Deadlines`, `DeadlineFacts`: the deadline check, with R10.2 of the FLOP yellow paper v0.5.0.
  `TimedSwap`: two escrows, a clock, an adversarial Seller, and a leg A whose claims end at its refund time or, as on Bitcoin,
  later. `BuyerAtomicity` joins it to the Buyer's flow.
- **The finality verdict.** `EvmChain`, `EvmRail`: the escrow contract on a chain with a finalized prefix and forks above it.
- **The board.** `Swap`, `SwapFacts`, `SwapFold`: two legs folded to one view. `SwapVerdicts`: when each status is reached and
  each reason given. `Board`, `BoardFacts`, `BoardStrangers`, `BoardBuild`: pairing over a room full of strangers. `BoardRows`,
  `BoardPairs`, `BoardViews`: which rows are kept, paired and folded, exactly. `Replay`, `Paper`, `Captured`: where evidence is
  looked for and what it is worth. `Text`, `Profile`: the context strings of the two offers.
- **Base58.** `Radix`, `Base58`: the carry loop of the Rust build script and the two Python loops, against one change of base
  (draft-msporny-base58, sections 3 and 4).

## How to read it

A step that cannot be taken changes nothing, so a run is any sequence of events and `After(run)` is where it leads; theorems
about runs quantify over all of them. Awaits become step boundaries: a step runs from the answer of one read, send or save
to the next await, so it uses at most one answer, taken at the moment it is used, and a control point stands wherever a call
waits. A save is the step that waits for it, and a line is checked and saved in one; a send and its reply, which may be
lost, are one step; a read or a build that fails or refuses ends its call (`LockReadFails`, `SettleReadFails`). A crash
drops an instance, a resume rebuilds it from the store. Hashes, digests and ids are injective names. tclk's contract
machine, signature checks, contract ids, `verifySecret` and rail-id normal form are parameters. Times are integers. The
rail's promises are those of `src/client/counter-rail.ts:209-248`.

Ten findings are proved as results, each with the exact condition and a concrete input that reaches it:

- A stranger's rows can take a crossing swap from its Seller, when the Buyer has signed an accept of that stranger's leg B
  (`BoardStrangers.OneStrangerRowMayDisplace`); `BoardStrangers.StrangersDisplaceExactly` says when, for all inputs.
- A flow that claims leg B itself after the never-landed verdict, or whose overlapping lock call records the lock as seen beside
  it, cannot save that: its own encoder refuses the record and the journal fails until a resume
  (`BuyerResults.SaveGoesThroughExactly`; the runs: `BuyerExamples.AClaimAfterTheVerdictIsNotSaved`,
  `BuyerExamples.ALockSeenAfterTheVerdictIsNotSaved`).
- A live flow whose accept B was stamped too late and its resumed self name different next steps, and that is the only such
  case (`BuyerResults.ResumedFlowNamesTheSameStep`; the run: `BuyerExamples.LateAcceptNamesAnotherStep`).
- A finished claim of leg B, receipt landed, is not always the end: a flow that never verified leg B, or whose account line does
  not stand, is told to see to that first, unless a refund of leg A was attempted (`BuyerResults.NextIsExactly`; the run:
  `BuyerExamples.AFinishedClaimIsNotAlwaysDone`).
- After the verdict a lock may still be prepared, never sent, exactly when a live `lockLegA` call is already past its deadline
  check: waiting for leg B's note, for the rail, or about to build (`BuyerResults.VerdictStopsPreparingExactly`; the runs:
  `BuyerExamples.ALockIsPreparedAfterTheVerdict` in the recovery of one instance, and
  `BuyerExamples.AFirstLockIsPreparedAfterTheVerdict` in the first call of another).
- Once a verdict or an own claim of leg B is saved, the rail's refund is called again exactly when a live instance already stands
  at its refund's call, its intent saved before (`BuyerRefunds.BarredCallsARefundExactly`, for any number of instances; the run:
  `BuyerExamples.TwoInstancesMayRefundAfterAClaim`). One instance at a time never does (`BuyerRefunds.BarredCallsNoRefund`).
- Once a line of a kind stands, another of that kind is posted exactly when a post of that kind whose end nobody knows may land
  yet, or a live instance is past its look at the room (`FrameRepeats.AKindIsRepeatedExactly`, for any number of instances; the
  runs: `FrameRuns.LatePostMayStandTwice` with one instance, `FrameRuns.TwoLiveInstancesMayPostTwice` with two).
- Behind a passing deadline check a Buyer can still end empty-handed exactly when the last claim of leg A is seen after leg B's
  refund time (`BuyerAtomicity.SentLocksAreSafeExactly`; the run: `TimedSwap.LateClaimLeavesTheBuyerEmptyHanded`). Where the chain
  ends claims at leg A's refund time the check excludes that; on Bitcoin, where a claim races the refund, the budget has to cover
  the race.
- The lock times the deadline check accepts have holes: they form one interval for every pair of offers at a residue exactly
  where the refund times are whole blocks apart (`DeadlineFacts.NoHoleExactlyWhenAligned`; `DeadlineFacts.MisalignedHasAHole`
  gives a pair with a hole at every other residue).
- The never-locked verdict is about this payer's terms only: another payer's row may still appear under the same hash lock
  (`EvmChain.OthersMayStillLock`).

## Model

| member | source | states |
|---|---|---|
| JournalRuns.HistoryIsOneChain | src/client/flow-resume.ts:439-471 | over every run of any instances with crashes and failing saves, the stored versions form one chain, revisions count up from 1, times never go back, and every live record is one of those versions |
| JournalRuns.NoUpdateIsLost | src/client/flow-resume.ts:422-437 | the stored body is every committed update's effect, each applied to the result of the one before: no writer replaced a version it had not read |
| JournalRuns.StepAppliesItsEffect | src/client/flow-resume.ts:439-471 | a step either leaves the store alone or makes exactly one version durable, by applying its own effect to the body held |
| JournalRuns.CommitsExactly | src/client/flow-resume.ts:439-471 | a version becomes durable if and only if a live flow that holds the stored one has a record to save and the store takes it, or a new record meets a free key, at the step's own time or the last version's where that is later |
| JournalRuns.FailsExactly | src/client/flow-resume.ts:454-470 | an instance fails if and only if its turn had something to save, or an invalid record, and no save of it resolved; it holds a new version exactly where one did |
| JournalRuns.CommitExtends | src/client/flow-resume.ts:454-470 | a write adds nothing, or one version built on the very version its writer held |
| JournalRuns.FailedForGood | src/client/flow-resume.ts:402-411 | after its first refused save an instance stays as it is and never changes the store again |
| Deadlines.TimelockSymmetryMinimumBlocks | src/deadlines.ts:54-79 | answers exactly on safe non-negative operands, with the least timelock that clears both the percentage margin and the finality margin |
| Deadlines.LeastTimelock | src/deadlines.ts:54-79 | the closed formula is the least admissible timelock: every timelock is admissible if and only if it is at or above it |
| Deadlines.BlocksBetween | src/deadlines.ts:87-98 | the block count rounded up, negative distances included, or nothing on operands the source refuses |
| Deadlines.CheckLegInvariants | src/deadlines.ts:123-157 | true exactly on a well-formed leg, and appends exactly what is wrong with it |
| Deadlines.CheckPolicy | src/deadlines.ts:164-177 | true exactly on a well-formed policy, and appends exactly what is wrong with it |
| Deadlines.CheckSwapDeadlines | src/deadlines.ts:187-278 | for any operands at all: ok if and only if rules 1 to 3 hold over well-formed operands, each malformed operand and each failing rule reported if and only if it is one |
| DeadlineFacts.RequiredRefundIsTightToOneBlock | src/deadlines.ts:239-270 | the published minimum for leg B's refund time suffices for rule 3, and rule 3 implies it up to less than one block |
| DeadlineFacts.AcceptedExactly | src/deadlines.ts:187-278 | the check accepts if and only if every operand is a safe integer in range, the reveal window and the finality budget fit, and leg B's distance in blocks, rounded up, exceeds leg A's by both margins |
| DeadlineFacts.RefundTimesStayApart | src/deadlines.ts:239-270 | a passing check keeps the two refund times more than (stall + lag - 1) blocks apart |
| DeadlineFacts.NoHoleExactlyWhenAligned | src/deadlines.ts:239-270 | the accepted lock times form one interval for every pair at a residue if and only if the refund times are whole blocks apart |
| DeadlineFacts.MisalignedHasAHole | src/deadlines.ts:239-270 | at every other residue, a concrete pair accepted before and after a lock time it is rejected at |
| TimedSwap.LegsMoveExactly | contracts-sol/README.md:67-86 | a leg can be brought into a state exactly when its escrow allows that: locked behind the guards, claimed strictly before its claims end, refunded from the refund time on |
| TimedSwap.TheRestMovesExactly | src/client/buyer.ts:1303-1372 | and the rest: the secret may come out at any time, the guards pass exactly over a passed check and a leg B locked under the statement, and the clock reaches exactly the times that leave no claim unseen too long and do not pass the Buyer's own time to act |
| TimedSwap.PaidOutIsForGood | contracts-sol/README.md:67-86 | however a run goes on, a leg claimed or refunded stays so |
| TimedSwap.EveryRunIsSafe | src/client/buyer.ts:1303-1372 | the invariant of two escrows, a clock and a Seller who does anything the escrows allow |
| TimedSwap.ClaimSeenLeavesAWindow | src/deadlines.ts:218-237 | whenever the Seller claims leg A and its last claim is seen within the budget the check adds, the Buyer knows the secret while leg B is still locked and its claim-by has not passed |
| TimedSwap.BuyerIsNeverEmptyHanded | src/deadlines.ts:218-237 | no run of a Buyer that acts in that window ends with leg A claimed and leg B refunded |
| TimedSwap.SafeExactlyWhenRefundBOutlastsReveal | README.md:1373-1398 | past the guards no continuation empties the Buyer's hands if and only if leg B's refund time is not before the moment leg A's last claim is seen, or no lock can land any more; whether the chain ends claims or not |
| TimedSwap.UncheckedIsSafeExactlyWhenRefundBOutlastsReveal | contracts-sol/README.md:67-86 | without the deadline check every run is safe if and only if leg B's refund time is not before that moment |
| TimedSwap.LateClaimLeavesTheBuyerEmptyHanded | contracts-sol/README.md:83-86 | the concrete continuation, from any state just past the guards, that empties the Buyer's hands otherwise |
| BuyerState.RebuiltFlowProjectsBack | src/client/buyer.ts:586-717 | the flow rebuilt from a record projects back onto it if and only if its frame flags agree with its ledger |
| BuyerState.ProjectedFlagsFollow | src/client/buyer.ts:690-717 | what a save writes always agrees in that way, so projecting twice is projecting once |
| BuyerLocks.AtMostOneLockLands | src/client/buyer.ts:1183-1268 | over every run with any number of live instances, crashes, resends and lost replies, on every kind of rail, at most one leg A lock ever lands |
| BuyerLocks.LandedIsHeld | src/client/buyer.ts:1442-1502 | a landed lock carries the ref the store holds and, on a signed rail, is the very transaction it holds |
| BuyerLocks.SentLocksAreSavedAndGuarded | src/client/buyer.ts:1230-1245 | every lock ever sent was durable first, and went behind guards that held: deadlines accepted, and at a later moment leg B's note locked under the swap's own terms |
| BuyerLocks.EveryRunKeepsInv | src/client/buyer.ts:1442-1502 | every lock ever saved is the held one, or can no longer land |
| BuyerOutcomes.EveryRunIsGood | src/client/buyer.ts:1671-1925 | with any number of live instances, the invariant tying the record, every instance's latches and control points, and the chain |
| BuyerOutcomes.SavedResumes | src/client/buyer.ts:586-717 | a sound saved record never resumes as corrupt and loses nothing |
| BuyerOutcomes.EncodesUnlessClaimedAfterVerdict | src/client/buyer.ts:1856-1925 | a sound flow's record encodes if and only if beside the verdict it neither claimed leg B itself nor recorded the lock as seen |
| BuyerRefunds.RefundsAreCalledOnSavedIntents | src/client/buyer.ts:1856-1990 | with any number of live instances, every call of the rail's refund was made over a record with the intent saved, the lock attempted, and on the escrow the lock seen landed |
| BuyerRefunds.BarredCallsARefundExactly | src/client/buyer.ts:1891-1956 | with any number of live instances, once a verdict or an own claim of leg B is saved some continuation calls the rail's refund if and only if a live instance already stands at that call |
| BuyerRefunds.RefundsAreCalledOnRefundableRecords | src/client/buyer.ts:1856-1990 | with one live instance at a time, every call of the rail's refund was made with the intent saved, no own claim of leg B, no verdict, and on the escrow the lock seen landed |
| BuyerRefunds.BarredCallsNoRefund | src/client/buyer.ts:1891-1894 | with one live instance at a time, once a verdict or an own claim of leg B is saved the rail's refund is never called again |
| BuyerExamples.TwoInstancesMayRefundAfterAClaim | src/client/buyer.ts:1856-1990 | a concrete run of two live instances that calls the refund on a record with leg B claimed: the condition above is needed |
| BuyerResults.ClaimedAndAdoptedExclude | src/client/buyer.ts:1700-1733 | no record and no flow ever says both that leg B was claimed by this flow and that its claim was adopted |
| BuyerResults.AttemptIsClearedOnlyOnADeadNote | src/client/buyer.ts:1761-1775 | in any state, a claim attempt is cleared only on a note that takes no claim and shows none |
| BuyerResults.BarredForGood | src/client/buyer.ts:1891-1894 | a saved verdict, own claim of leg B, attempt or evidence stays saved, however the run goes on |
| BuyerResults.VerdictIsForGood | src/client/buyer.ts:1904-1925 | a saved verdict stays saved, no lock landed, and none ever lands |
| BuyerResults.VerdictStopsLocks | src/client/buyer.ts:1184-1187 | after a saved verdict no lock is ever sent again, whatever calls were under way; and none prepared where no call is past its deadline check |
| BuyerResults.VerdictStopsPreparingExactly | src/client/buyer.ts:1212-1230 | after a saved verdict some continuation prepares another lock if and only if a live lock call, first or recovering, is already past its deadline check |
| BuyerExamples.ALockIsPreparedAfterTheVerdict | src/client/buyer.ts:1466-1494 | the concrete run of one instance that saves the verdict and then prepares a second lock, which is never sent |
| BuyerExamples.AFirstLockIsPreparedAfterTheVerdict | src/client/buyer.ts:1212-1230 | the concrete run of two: one passed its deadline check before the other's first attempt, and prepares a lock after the other saved the verdict |
| BuyerVerdict.AnswersAreTheRailsOwn | src/client/evm-rail.ts:265-277 | the chain's landed and never-locked answers are answers the flow's rail may give, whatever chain the finalized block ends up under |
| BuyerVerdict.EarlierVerdictIsNot | src/rails/evm-htlc.ts:1590-1599 | a verdict given before the refund time is not one: some chain above the block takes the lock |
| BuyerResults.SaveGoesThroughExactly | src/client/flow-resume.ts:451-464 | a sound flow's save with no fault goes through if and only if it holds the stored version and beside the verdict neither claimed leg B nor recorded the lock as seen; else the store is untouched and the journal failed |
| BuyerExamples.AClaimAfterTheVerdictIsNotSaved | src/client/flow-resume.ts:451-464 | the concrete run that ends with the claim made, the journal failed and the store untouched |
| BuyerExamples.ALockSeenAfterTheVerdictIsNotSaved | src/client/buyer.ts:1529-1537 | the concrete run in which a lock call overlapping the verdict reads a landed lock on a block that is not final, and its save is refused |
| BuyerResults.ResumeLosesNothing | src/client/buyer.ts:586-717 | every record ever held, whoever wrote it, resumes onto a flow that projects back to that very record |
| BuyerResults.ResumedFlowNamesTheSameStep | src/client/buyer.ts:484-547 | a crash and a resume decide the same next step as the live flow that holds the stored version, with exactly one exception |
| BuyerExamples.LateAcceptNamesAnotherStep | src/client/buyer.ts:484-547 | the concrete run that reaches the exception: accept B stamped when leg B's offer had expired |
| BuyerLines.LinesLandInOrder | src/client/buyer.ts:1733-1735 | in every version ever durable, by any instance, a landed line has the lines it answers landed and the fact it reports recorded |
| BuyerLines.PairingsWereChecked | src/client/buyer.ts:983-986 | a pairing in any version ever durable was accepted by the deadline check against the swap's own offer, and every later version has the same offer and pairing |
| BuyerResults.FlagsAreLatched | src/client/buyer.ts:1406-1424 | over every run a landed lock or refund-receipt frame has its flag set in the live flow |
| BuyerResults.NextIsSound | src/client/buyer.ts:484-547 | from every reachable record at every later time the named step is sound: refund only from the refund time on with no claim and no verdict, abandoned only if nothing was ever sent, lock only with leg B verified and the account line landed |
| BuyerResults.NextIsExactly | src/client/buyer.ts:483-547 | over every run and at any time, the flow rebuilt from the stored record names a step if and only if what that step takes is there, of the record and the clock alone |
| BuyerExamples.AFinishedClaimIsNotAlwaysDone | src/client/buyer.ts:510-518 | the concrete run of a claim of leg B, receipt landed, by a flow that never verified leg B: told to verify it, at any time |
| BuyerResults.RefundNamedMayStart | src/client/buyer.ts:1856-1894 | a resumed flow told to refund passes every check refundLegA makes before it reads the chain |
| BuyerAtomicity.EverySentLockPassedTheTimedGuards | src/client/buyer.ts:1303-1372 | under the pinned deadline policy every lock any process ever sent passed the lock guards the timed protocol starts from |
| BuyerAtomicity.SentLocksNeverLeaveTheBuyerEmptyHanded | src/client/buyer.ts:1303-1372 | from the very state a sent lock's guards saw, no continuation empties the hands of a Buyer that acts in its window, where leg A's last claim is seen within the finality budget |
| BuyerAtomicity.SentLocksAreSafeExactly | README.md:1373-1398 | and on every rail, Bitcoin included, that holds if and only if the last claim of leg A is seen by leg B's refund time, or no lock can land any more |
| BuyerAtomicity.PinnedIsInTime | src/client/buyer.ts:1343-1372 | a pinned policy with a reveal window accepts no lock at or past leg A's refund time |
| BuyerFlows.BuyerFlow.Resume | src/client/buyer.ts:586-682 | the constructor sets every latch exactly as a rebuild from the held record does |
| BuyerFlows.BuyerFlow.NextStep | src/client/buyer.ts:484-528 | answers the next-step function of the latches and the durable record, changing nothing |
| BuyerFlows.BuyerFlow.Persist | src/client/buyer.ts:720-727 | one turn of the write path with the live state laid over the record |
| BuyerFlows.BuyerFlow.BeginGuards | src/client/buyer.ts:1303-1336 | the deadline check of a new lock action at this moment: the call goes on to leg B's note, or ends |
| BuyerFlows.BuyerFlow.StartLock | src/client/buyer.ts:1206-1212 | a first lock begins with its guards, behind everything the call checks first |
| BuyerFlows.BuyerFlow.ReadGuardNote | src/client/buyer.ts:1336-1341 | leg B's note as the guards read it: the first lock, the resend or the fresh lock goes on, or the call ends |
| BuyerFlows.BuyerFlow.PrepareFirstLock | src/client/buyer.ts:1230-1262 | the prepared transaction and every latch set before anything may be sent |
| BuyerFlows.BuyerFlow.StartRecover | src/client/buyer.ts:1442-1455 | recovery begins with a read of the chain, before any guard |
| BuyerFlows.BuyerFlow.SendLock | src/client/buyer.ts:1277-1294 | the broadcast, the escrow's second guard, and a time-out's saved hash |
| BuyerFlows.BuyerFlow.RecoverLock | src/client/buyer.ts:1457-1466 | what that read answers: landed is recorded, pending sends nothing, never landed is read once more, unknown goes behind the guards |
| BuyerFlows.BuyerFlow.RereadLock | src/client/buyer.ts:1513-1527 | the second read after never-landed, then the guards of a new lock |
| BuyerFlows.BuyerFlow.ResendLock | src/client/buyer.ts:1474-1486 | the identical saved bytes, once, behind the guards that passed |
| BuyerFlows.BuyerFlow.PrepareFreshLock | src/client/buyer.ts:1488-1494 | one fresh lock under the saved ref or none |
| BuyerFlows.BuyerFlow.CallNote | src/client/buyer.ts:1704-1709 | this flow's own claim, or a write whose outcome is read back next |
| BuyerFlows.BuyerFlow.ReadBackNote | src/client/buyer.ts:1710-1722 | after a failed write the note decides: adopted, cleared or nothing decided, whatever was written in between |
| BuyerFlows.BuyerFlow.SettleClaimAttempt | src/client/buyer.ts:1761-1775 | leg B's note decides an attempt without an outcome |
| BuyerFlows.BuyerFlow.AskAbsence | src/client/buyer.ts:1912-1914 | only an attempt without evidence is asked about, on the rail that can say; anything else goes on |
| BuyerFlows.BuyerFlow.CheckLockAbsence | src/client/buyer.ts:1914-1925 | evidence, once; the verdict; or not final yet |
| BuyerFlows.BuyerFlow.RecoverRefund | src/client/buyer.ts:2058-2100 | the chain decides a refund without an outcome |
| BuyerFlows.BuyerFlow.LockLegA | src/client/buyer.ts:1163-1268 | the whole call is its segments in order |
| BuyerFlows.BuyerFlow.ClaimLegB | src/client/buyer.ts:1660-1737 | the whole call, up to its frames, is its segments in order |
| BuyerFlows.BuyerFlow.RefundLegA | src/client/buyer.ts:1823-1990 | the whole call, up to its frames, is its segments in order |
| BuyerFlows.LockCallIsARun | src/client/buyer.ts:1163-1268 | a lockLegA call takes the system where the run of its segments does, so everything proved over runs holds of it |
| BuyerFlows.SettleCallIsARun | src/client/buyer.ts:1660-1990 | the same for claimLegB and refundLegA |
| BuyerProgress.ReadBackDecides | src/client/buyer.ts:1717-1731 | in any state, a note read back is adopted if and only if it is claimed with that very secret, and the attempt cleared if and only if it shows none and takes none; no other latch moves |
| BuyerProgress.ReadNoteDecides | src/client/buyer.ts:1761-1775 | the same of the note a refund reads first, by the swap's statement |
| BuyerProgress.RecoverRefundDecides | src/client/buyer.ts:2058-2120 | in any state, evidence, the route to a claim and another refund each exactly on the answer that calls for it |
| BuyerProgress.FinishRefundDecides | src/client/buyer.ts:1958-2005 | the same of a refund just sent, its signed bytes dropped exactly where they were never broadcast |
| BuyerProgress.CalmLine | src/client/buyer.ts:815-1180 | a posted line, a saved pairing or a verified leg B is in the store when its step ends, with its stamp and its flags; one that may not act changes nothing |
| BuyerProgress.LegAClaimIsNoted | src/client/buyer.ts:1777-1795 | behind an adopted claim, leg A seen claimed is in the store, and nothing else comes of that look |
| BuyerProgress.SettlingStartsExactly | src/client/buyer.ts:1671-1713 | a claim of leg B or a refund of leg A begins if and only if its own checks pass; a refund reads leg B's note first where a claim attempt is open |
| BuyerProgress.FailedReadEnds | src/client/buyer.ts:1717-1719 | a failed read ends the call with nothing latched, wherever one waits for a read |
| BuyerProgress.InstancesBeginExactly | src/client/buyer.ts:815-868 | an instance begins with a new record if and only if its key is free, at rest and holding it |
| BuyerProgress.InstancesComeAndGoExactly | src/client/buyer.ts:549-575 | one comes back if and only if a record is held and adds up, at rest and holding it; a crash leaves everything else as it was |
| BuyerProgress.TheWorldMovesExactly | src/client/counter-rail.ts:209-248 | what happens to the chain, the note and the clock by itself, and nothing else |
| BuyerProgress.CalmClaim | src/client/buyer.ts:1671-1732 | an uninterrupted claim of leg B with no fault ends with its outcome in the store, whatever the note reads and however its write returned |
| BuyerProgress.CalmRefund | src/client/buyer.ts:1856-1990 | the same of a refund of leg A, over every answer of the note and the rail, with the calls of the rail's refund it made |
| BuyerLocking.CalmLock | src/client/buyer.ts:1183-1268 | the same of a lock of leg A: a first lock, a recovered one, the same bytes again, or one rebuilt under the saved ref |
| BuyerLocking.LockStartsExactly | src/client/buyer.ts:1183-1210 | a lock call begins if and only if its own checks pass, a first lock at its deadline check, an attempted one at the chain |
| BuyerLocking.FailedLockReadEnds | src/client/buyer.ts:1209-1230 | a failed read or build ends the lock call with nothing latched |
| BuyerCalls.ClaimIsRecorded | src/client/buyer.ts:1711-1732 | over every run, such a claim is recorded if and only if the note then shows its secret: as this flow's own if and only if its write returned, and the attempt cleared if and only if none can come |
| BuyerCalls.RefundIsRecorded | src/client/buyer.ts:1856-1990 | over every run, such a refund leaves all it came to in the store and calls the rail's refund as often as it came to |
| BuyerCalls.FirstRefundLands | src/client/buyer.ts:1958-2012 | over every run, a first refund of a lock known to have landed is called once over its saved intent and its evidence saved |
| BuyerCalls.RefundIsFoundAgain | src/client/buyer.ts:2058-2086 | over every run, a refund attempted before and seen on the chain is recorded and not made again |
| BuyerCalls.VerdictIsRecorded | src/client/buyer.ts:1907-1924 | over every run, the answer that the lock never landed is in the store when the call ends, and nothing is called |
| BuyerCalls.OpenAttemptHoldsTheRefund | src/client/buyer.ts:1752-1775 | over every run, an open attempt of leg B's claim holds the refund back and the call changes nothing |
| BuyerCalls.LockIsRecorded | src/client/buyer.ts:1183-1268 | over every run, such a lock leaves all it came to in the store and on the rail |
| BuyerCalls.FirstLockLands | src/client/buyer.ts:1212-1245 | over every run, a first lock whose guards hold is built once and sent at most once, its evidence saved; with a guard that does not hold nothing is built, sent or saved |
| BuyerCalls.LandedLockIsRecorded | src/client/buyer.ts:1442-1465 | over every run, a lock the recovery finds landed is recorded and nothing is built or sent |
| FrameRuns.EveryLineIsIntended | src/client/flow-resume.ts:546-563 | with any number of live instances, every line the party signed into a room is in the store's ledger, with that room and that text or its digest |
| FrameRuns.NoKindHasTwoTexts | src/client/flow-resume.ts:526-531 | no kind of line ever has two texts or stands in two rooms |
| FrameRuns.LandedMarksAreTrue | src/client/flow-resume.ts:596-617 | a landed mark names the party's own line at that very place |
| FrameRuns.LinesAndEntriesStay | src/client/flow-resume.ts:596-617 | however a run goes on no line is lost and no entry's room, text or mark moves |
| FrameSecrets.SecretLinesAreNeverStored | src/client/flow-resume.ts:486-488 | a kind only ever posted as digest-only is in no durable version in plain, over any run, though its line may stand in a room |
| FrameRuns.FailedNeverPosts | src/client/flow-resume.ts:557-561 | an instance whose save was refused neither posts nor writes, whatever step it takes |
| FrameRuns.EachKindIsPostedOnce | src/client/flow-resume.ts:510-565 | with one live instance at a time, and no post that was given up landing later, each kind of line is in the rooms at most once |
| FrameRuns.TheWorldMovesExactly | src/client/venue.ts:55-71 | anybody posts anything anywhere but under the party's signature, and a crash leaves open every post its instance was at |
| FrameRuns.TwoLiveInstancesMayPostTwice | src/client/flow-resume.ts:536-563 | a concrete run of two live instances that posts one saved intent twice: the condition above is needed |
| FrameRuns.LatePostMayStandTwice | src/client/flow-resume.ts:557-565 | a concrete run of one instance whose first post fails, is repeated and lands after all: the other condition is needed |
| FrameRepeats.AKindIsRepeatedExactly | src/client/flow-resume.ts:510-565 | with any number of live instances, once a line of a kind stands some continuation adds another if and only if a post of that kind may land yet or a live instance is past its look at the room for it |
| FlowJournals.MemoryFlowStore.Save | src/client/flow-store.ts:362-386 | the compare-and-swap, refused before the write or after it |
| FlowJournals.MemoryVenue.Post | src/client/venue.ts:55-71 | appends one signed line with the next place of its room and touches no other room |
| FlowJournals.MemoryVenue.Read | src/client/venue.ts:73-75 | the room as it stands |
| FlowJournals.FindOwnLine | src/client/flow-resume.ts:491-497 | the first own authenticated record with exactly the text |
| FlowJournals.FlowJournal.Commit | src/client/flow-resume.ts:439-471 | adopts a version only after the store's save resolved; a refused save fails the journal |
| FlowJournals.FlowJournal.EnsurePosted | src/client/flow-resume.ts:510-565 | a call nothing interrupts is exactly the steps of one posting, in order |
| FlowJournals.FlowJournal.PostLine | src/client/flow-resume.ts:557-563 | the last check before the post, the post, and a reply that may be lost |
| FlowJournals.FlowJournal.MarkLanded | src/client/flow-resume.ts:596-617 | the mark, refused where another place is recorded |
| FlowJournals.CalmCallLands | src/client/flow-resume.ts:510-565 | whatever happened before, an uninterrupted call with no fault ends with the line's entry landed in the store, unless a guarded line that does not stand yet is refused |
| FlowJournals.RefusedCallDoesNothing | src/client/flow-resume.ts:510-565 | and in that case it leaves no line, no intent and no mark |
| EvmChain.ExactlyOneSideIsOpen | contracts/EvmHashRail.sol:87-113 | at any moment a locked row can be paid out exactly one way: claimed strictly before its refund time, refunded from it on |
| EvmChain.CallsActExactly | contracts/EvmHashRail.sol:50-113 | what any call does to any row: locked if and only if no requirement fails, under the caller's terms; claimed by an opener strictly before the refund time and refunded by the payer from it on; nothing else of a row changes |
| EvmChain.EveryRowIsSound | contracts/EvmHashRail.sol:50-85 | on every chain, every row names a payee, an amount and a claim-by before its refund time |
| EvmChain.ExtensionKeepsRows | contracts/EvmHashRail.sol:50-105 | along every extension of a chain its locks keep their terms, and a new lock has a refund time past the prefix's last block |
| EvmChain.NeverLockedExactlyAtTheRefundTime | src/client/evm-rail.ts:257-277 | with no row at a block, no extension under any reorg above it ever holds the payer's lock if and only if that block is at or past the refund time |
| EvmChain.RowIsForGood | src/client/evm-rail.ts:257-277 | a lock landed at the finalized block is never undone |
| EvmChain.OthersMayStillLock | contracts/EvmHashRail.sol:50-72 | a row of other terms may appear under the same hash lock after the verdict |
| EvmRail.ReadLockAbsence | src/rails/evm-htlc.ts:1590-1599 | three reads of three moments answer by the finalized row and time alone; the latest row only holds the verdict back |
| EvmRail.FinalizedForVerdict | src/rails/evm-htlc.ts:1564-1578 | the tag's block where the node names one; the fallback depth exactly where it says outright that it has none; an error or a malformed answer is never a finalized block |
| EvmRail.VerdictIsPermanent | src/rails/evm-htlc.ts:1590-1599 | the time test of the verdict is exact for every chain above the finalized block |
| EvmRail.LatestRowIsNotEvidence | README.md:671-676 | a row seen only at the latest block can be gone for good on another fork |
| EvmRail.ConflictIsPermanent | src/client/evm-rail.ts:268-275 | another payer's row keeps this payer's lock out for good |
| EvmRail.EveryLockWasPreparedOnce | src/client/evm-rail.ts:152-174 | over any calls a prepared lock is sent at most once, directly behind its own approve |
| EvmRail.CommitSendsExactly | src/client/evm-rail.ts:152-174 | what each call hands to the network: a commit directly behind its own prepare sends that lock's approve, and the lock itself if and only if the approve went through and the guard passed; every other call sends nothing |
| EvmRail.ConnectedEvmCounterRail.PrepareLock | src/client/evm-rail.ts:152-155 | sends nothing and names the hash lock |
| EvmRail.ConnectedEvmCounterRail.CommitLock | src/client/evm-rail.ts:165-174 | consumes what was prepared whatever happens; the lock goes out only behind approve and guard |
| EvmRail.ConnectedEvmCounterRail.LockAbsence | src/client/evm-rail.ts:265-277 | each answer, for this account, holds on every chain that extends the finalized block |
| EvmRail.ConnectedEvmCounterRail.RecoverLock | src/client/evm-rail.ts:200-226 | landed, conflict and pending exactly, and a landed row makes a repeated lock change nothing |
| Swap.RefusalOf | src/swap.ts:157-193 | an observation is refused exactly when it is not bound to the leg's accepted lock, contract and nine terms |
| SwapFacts.SettledIsEarned | src/swap.ts:551-567 | settled means both machines claimed, parties and statement crossing, and a bound final claimed observation on each leg |
| SwapFacts.RefundsAreEarned | src/swap.ts:245-262 | every leg called refunded has a bound final refunded observation, or is a paper leg with none |
| SwapFacts.LockedIsVerified | src/swap.ts:592-622 | a-locked and b-locked are reached only by crossing legs over locks whose rails verified all nine terms |
| SwapFacts.LocksCountWhenVerified | src/swap.ts:580-622 | how far two crossing legs' locks are, exactly |
| SwapFacts.LockReasonNamesTheFault | src/swap.ts:124-147 | the reason for a lock that does not count names the first thing that would have to differ |
| SwapFacts.RobberyIsProven | src/swap.ts:522-545 | the fold says the Seller was robbed if and only if leg A alone came back and both final observations prove the order on a rail with value |
| SwapFacts.UnboundObservationIsAbsent | src/swap.ts:323-335 | an observation that fails its binding changes nothing but adds one reason |
| SwapFacts.TimeOnlyAbandons | src/swap.ts:580-622 | a later clock alone can only turn paired or b-locked into abandoned |
| SwapFacts.SettlementIsEvidenceOnly | src/swap.ts:217-221 | funded, claimed and refunded settlement come from bound observations alone |
| SwapFold.CollectStepReasons | src/swap.ts:269-278 | one reason per rejected step, in order |
| SwapFold.BindObservation | src/swap.ts:157-193 | returns the observation only when bound, and says why otherwise |
| SwapFold.RefundedFold | src/swap.ts:245-262 | a refund frame alone folds only on the paper rail with no observation |
| SwapFold.FoldSwap | src/swap.ts:313-623 | the imperative fold is exactly the specified one, reasons included |
| SwapVerdicts.StatusIsExactly | src/swap.ts:370-623 | any swap has a status if and only if what that status takes is there: of the two offers, the two machines, the bound observations, the verified locks and the clock |
| SwapVerdicts.ReasonIsExactly | src/swap.ts:313-623 | any swap gives a reason if and only if what that reason takes is there, each refusal of an observation naming the first of its terms that is wrong |
| SwapVerdicts.SecretIsExactly | src/swap.ts:551-578 | the secret shown is leg A's where leg A is claimed, else leg B's where leg B is, and none on any other swap |
| SwapVerdicts.PartiesAreExactly | src/swap.ts:370-500 | the offers, the parties, the fee, the pair key and the unsigned-time ground of any view, exactly |
| BoardFacts.EveryLegAIsOneSwap | src/board.ts:135-163 | the swaps are the distinct leg A offer ids of the export, each once |
| BoardFacts.CrossingWins | src/board.ts:203-222 | when some candidate crosses, the winner crosses and its accept of leg A is the earliest among those |
| BoardFacts.EveryLegBIsUsedOnce | src/board.ts:223-244 | every leg B candidate, told apart by its row's uid, wins its own leg A and no other, or is listed unpaired as often as it occurs |
| BoardFacts.NoLegBWinsTwice | src/board.ts:187-222 | no leg B is paired with two leg A offers |
| BoardFacts.ByPlaceKeeps | src/board.ts:178-186 | sorting by place loses and adds nothing |
| BoardFacts.ChosenAcceptIsTheEarliest | src/board.ts:84-94 | the counterparty's earliest accept if it has any, else the earliest, marked exactly when there was another to choose |
| BoardFacts.EachLegHasItsOwnEvidence | src/board.ts:96-119 | each leg is folded with its own contract's evidence, whether or not the other has any |
| BoardFacts.EvidenceIsIsolated | src/board.ts:257-273 | a swap's whole view depends on evidence only under its own two accepted contracts |
| BoardRows.OffersAreFirstRows | src/board.ts:135-141 | an offer is known if and only if an authentic row offers it, and the first such row's stands |
| BoardRows.LegAsAreFirstRows | src/board.ts:142-151 | a leg A is kept with the first row that opens it |
| BoardRows.OrderIsFirstSeen | src/board.ts:246-251 | the swaps stand in the order their leg A offers were first seen |
| BoardRows.AcceptsAreRows | src/board.ts:164-175 | the accepts of an offer are exactly the genuine ones in rows behind it, each with its row, in the order of the export |
| BoardRows.LegBsAreRows | src/board.ts:152-160 | the leg B candidates are exactly the rows that offer one, in that order |
| BoardPairs.SortingIsStable | src/board.ts:178-186 | rows at one place keep the order of the export |
| BoardPairs.PairingIsExactly | src/board.ts:187-222 | a pairing is the board's if and only if what it takes is there: no candidate, the first by row order, the first by an accepter, or the crossing one whose signer accepted leg A first |
| BoardPairs.WhyIsExactly | src/board.ts:223-244 | why a leg B is listed unpaired, each reason if and only if it holds, and none exactly for a winner |
| BoardViews.EverySwapFoldsItsRows | src/board.ts:60-75 | every swap's view is the join of the two legs' folds, each of its offer's row, its accept's row and that accept's deal room in order, or of the offer's row alone, under each leg's own evidence at the board's clock, with exactly the grounds and the shared-id reason the board adds |
| BoardViews.EverySwapIsJoined | src/board.ts:251-312 | and every swap has such a join |
| BoardViews.JoinsOnce | src/board.ts:60-94 | and only one: nothing else reaches the fold |
| BoardStrangers.StrangersDisplaceExactly | src/board.ts:183-222 | any rows by neither party leave a crossing pair's leg B as it was if and only if no stranger's leg B then crosses with an earlier accept |
| BoardStrangers.StrangersDoNotInterfere | src/board.ts:84-94 | and in that case the swap's whole view is unchanged |
| BoardStrangers.OnlyTheBuyersAcceptLetsAStrangerCross | src/board.ts:213-221 | a stranger can come in between only over a row by which the Buyer itself accepts that stranger's leg B |
| BoardStrangers.OneStrangerRowMayDisplace | src/board.ts:164-175 | a concrete export in which one stranger's row does |
| BoardBuild.CollectFrames | src/board.ts:121-176 | the collecting loop fills exactly the specified maps |
| BoardBuild.ChooseLegB | src/board.ts:207-222 | the running best is the specified choice |
| BoardBuild.PairLegs | src/board.ts:187-222 | the map of winners is exactly the pairing, leg A by leg A |
| BoardBuild.ListUnpaired | src/board.ts:223-244 | the unpaired list is exactly the losers in venue order |
| BoardBuild.BuildBoard | src/board.ts:121-312 | one view per leg A in first-seen order, folded with its own evidence, and one entry per leg B that won nothing |
| Replay.EveryBoardAcceptIsFound | src/replay.ts:113-166 | every genuine accept the board holds for a swap leg has its one candidate, with the same offer, accept, terms, and a row the board holds for it |
| Replay.EveryCandidateIsOnTheBoard | src/replay.ts:113-166 | and every candidate is a genuine accept the board holds, row included |
| Replay.CandidatesAreRows | src/replay.ts:120-159 | a contract has a candidate if and only if some row finds it, and it carries the first such row as its accept's and the latest offer before that as its offer's |
| Replay.FindSwapLegCandidates | src/replay.ts:113-166 | the loop fills exactly the specified maps |
| Paper.PaperEvidence | src/paper-evidence.ts:77-126 | an observation exactly when the note's terms match and a claimed note's secret opens the statement, bound to the very terms given |
| Paper.SettledPaperLegShowsTheSecret | src/swap.ts:551-567 | a settled swap's paper leg: the note held a secret that opens the statement both legs share |
| Paper.RefundedPaperLegMatches | src/swap.ts:509-549 | a bound note behind a refunded swap reads refunded under the leg's own terms |
| Paper.StripNoteBanner | src/paper-evidence.ts:40-48 | the last line that is not empty, nothing only for a body of line ends |
| Paper.BannerIsStripped | src/paper-evidence.ts:40-48 | a value under any banner with any number of line ends behind it is found |
| Captured.FoldCaptured | src/replay.ts:341-391 | the replay fold over paper legs is the board over the evidence of its own candidates |
| Captured.EvidenceExactly | src/replay.ts:369-391 | a contract has evidence if and only if it is a candidate's, its note was captured, and its machine took a paper lock under that contract; and then it is what the paper rail makes of that note |
| Captured.TheBoardIsGiven | src/replay.ts:341-391 | the board of a captured fold gets the export, the rooms and the clock as they are, and evidence exactly where two rows make a candidate and its note, lock and contract are there, as the paper rail makes it |
| Captured.SettledSwapsShowTheirSecrets | src/replay.ts:369-391 | a swap the replay calls settled has, for each leg, a captured note under that leg's contract whose secret opens the shared statement |
| Radix.ConvertRoundTrip | contracts-sol/smoke_check.py:21-35 | changing the base and back gives the same digits, leading zeros included, for any two bases |
| Radix.WidthFromBitLength | contracts-sol/smoke_check.py:25-25 | the bit length rounded up to bytes is exactly the width without a leading zero byte |
| Base58.EncodeDecoded | contracts-sol/smoke_check.py:21-35 | encoding what was decoded gives the string back, for every string over the alphabet |
| Base58.DecodeEncoded | contracts-sol/smoke_check.py:21-35 | decoding what was encoded gives the bytes back, for every byte string |
| Base58.Base58RoundTrips | contracts-sol/smoke_check.py:18-35 | both, in the alphabet in use |
| Base58.AlphabetIsExactly | contracts-sol/smoke_check.py:18-18 | the alphabet is every digit and letter but 0, O, I and l |
| Base58.B58Decode | contracts-sol/smoke_check.py:21-26 | the Python loop decodes exactly the strings over the alphabet, to the specified bytes |
| Base58.B58Encode | contracts-sol/smoke_check.py:29-35 | the Python loop writes the specified string |
| Base58.TimesPlusHolds | contracts-sol/htlc/build.rs:22-30 | one character's carry loop multiplies the number by 58 and adds the digit |
| Base58.TimesPlusIsMinimal | contracts-sol/htlc/build.rs:22-30 | it grows the vector by at most a byte and leaves no top zero byte |
| Base58.CarryIn | contracts-sol/htlc/build.rs:22-30 | the carry never exceeds 57, so the 32-bit sum cannot overflow |
| Base58.Decode | contracts-sol/htlc/build.rs:13-38 | exactly the 32-byte strings decode, to the bytes the Python decoder returns, with each error told apart |
| Profile.LegARoundTrip | src/profile.ts:51-62 | reading back what leg A wrote gives what it wants, its rail in canonical form |
| Profile.LegBRoundTrip | src/profile.ts:65-68 | the same for leg B |
| Profile.LegAIsWrittenExactly | src/profile.ts:51-62 | leg A's context is written if and only if the asset is one to 32 of its characters, the amount a positive decimal, the rail one, and the fee at most 10000 |
| Profile.LegBIsWrittenExactly | src/profile.ts:65-68 | and leg B's if and only if the offer id is 32 bytes in lower-case hexadecimal |
| Profile.ReadsExactlyWhatIsWritten | src/profile.ts:78-114 | a string is read if and only if it is what some context is written as, or the older form of leg A that lacks the segment of fee 0 |
| Profile.ParsedIsWrittenBack | src/profile.ts:78-114 | writing back what was read gives the very string, but for the older form without a fee segment |
| Profile.AmountPatternIsCanonical | src/profile.ts:29-29 | the amount pattern accepts exactly the decimals of the positive integers |
| Profile.FeePatternIsCanonical | src/types.ts:33-33 | the fee pattern accepts exactly the canonical decimals of 0 to 10000 |

## Left out

- BuyerResults.VerdictStopsLocks: asks for a deadline policy that accepts no lock at or past leg A's refund time; every pinned policy with a reveal window is one (`BuyerAtomicity.PinnedIsInTime`).
- BuyerRefunds.RefundsAreCalledOnRefundableRecords: one live instance at a time, because two can do otherwise; `BuyerRefunds.BarredCallsARefundExactly` says exactly when, for any number.
- BuyerRefunds.BarredCallsNoRefund: the same.
- BuyerCalls.ClaimIsRecorded: leaves out a flow that holds the verdict where the claim would be its own, because no record holds both (`BuyerResults.SaveGoesThroughExactly`).
- BuyerCalls.RefundIsRecorded: asks for a flow with everything it latched saved, so for no lock call of the same process in the middle of its own save; `BuyerProgress.ReadBackDecides` and the step lemmas beside it ask for nothing.
- BuyerCalls.LockIsRecorded: the same.
- BuyerFlows.BuyerFlow.StartLock: the asset, amount-floor, account and Solana clock guards are not modelled as such; where one refuses, the step is not taken or the call ends (`LockReadFails`).
- BuyerFlows.BuyerFlow.LockLegA: the posting of the lock frame after the lock is a step of its own (`LineLands`), outside the call.
- BuyerFlows.BuyerFlow.ClaimLegB: the reveal and the receipt after the claim are steps of their own, outside the call.
- BuyerFlows.BuyerFlow.RefundLegA: the two frames after the refund are steps of their own, outside the call.
- FrameRuns.EachKindIsPostedOnce: asks for one live instance and for no post that was given up landing later, and so says less than the exact `FrameRepeats.AKindIsRepeatedExactly`, which asks for neither. Rooms that forget lines are not modelled.
- FlowJournals.FlowJournal.MarkLanded: frame slots, the signed copies kept beside some entries, are not modelled, so a mark already there is never saved again to fill one.
- Captured.FoldCaptured: the evm, btc, near and sol branches and their evidence readers are not modelled; only paper evidence reaches the board there.
- EvmRail.ConnectedEvmCounterRail.LockAbsence: a node whose later answers do not extend the block it finalized is not modelled; finality is taken as the rail's own setting defines it.
- BuyerAtomicity.SentLocksNeverLeaveTheBuyerEmptyHanded: on Bitcoin the end of leg A's claims is given, not derived: it depends on when the Buyer's refund is in a block, which fees and the mempool decide.
- BuyerAtomicity.EverySentLockPassedTheTimedGuards: the timed protocol treats leg B as an ideal escrow, where the desk's leg B is a paper note anybody may write.
- IEEE rounding in the deadline arithmetic: operands and products are integers.
- The room-to-settle clause the lock guards add on one pinned policy, and their asset, amount and leg-B-match checks: they read only what the offers already fixed, and make the guards stricter.
- The Seller's flow, the watcher, the bundle writer, RPC, files, lock files, HTTP, timers and error wording: plumbing around the modelled parts.
- tclk's contract machine, frame codecs, signatures and hashes: parameters, or injective names.
- Flows without a store, `reconcileLockA`, `adopt`, the Solana-only chain clock and claim-order checks, and the rebroadcast of a dropped refund.
- The signed bytes of a refund: only that a handle was saved before the send.
- `checkLegBMatchesWant`, `checkOrientation`, swap ids and key files: short validators that would only add easy members.
