/**
 * The Buyer's flow as atomic steps between awaits: what each step of `lockLegA`, `claimLegB`, `refundLegA` and
 * the steps before them does to the flow's latches, to the stored record and to the world. A process may crash
 * between any two steps, a save may fail before or after its write, a reply may be lost, and any number of
 * instances may hold the same record.
 *
 * A step that its instance cannot take (a refused guard, an answer the rail may not give) changes nothing.
 */
module BuyerSteps {
  import opened Options
  import opened Journal
  import opened BuyerState

  // --- the world the flow acts on ----------------------------------------------------------------------------------

  /**
   * How a rail knows a lock: an escrow contract keyed by the hash lock (evm), or a transaction signed in advance,
   * found by its hash lock (near, sol) or by itself (btc).
   */
  datatype RailKind = Escrow | SignedByHashLock | SignedByOutpoint

  /** The guards a new lock action ran: the deadline check at one moment, leg B's note as it was read at a later one. */
  datatype GuardPass = GuardPass(atMs: nat, readAtMs: nat, offerA: Offer, pairing: Pairing, note: PaperNote)

  /** A lock transaction handed to the network. */
  datatype Sent = Sent(tx: nat, ref: Ref, refundAfterMs: nat, guard: GuardPass, sentAtMs: nat)

  /**
   * Leg A's chain. `dead` transactions can never land; `landed` ones did. `claimed` and `refunded` say what became of
   * a landed lock.
   */
  datatype Rail = Rail(kind: RailKind, issued: nat, sent: set<Sent>, dead: set<nat>, landed: set<Sent>, claimed: bool, refunded: bool)

  /** The rail's refund was called while the store held this record. */
  datatype RefundCall = RefundCall(stored: Record)

  datatype Env = Env(store: Store<Record>, nowMs: nat, rail: Rail, note: PaperNote, refundCalls: seq<RefundCall>)

  /** The deadline check under the rail's pinned policy: leg A's offer, leg B's, and the lock time. */
  type Policy = (Offer, Offer, nat) -> bool

  predicate DeadlinesSafe(policy: Policy, offerA: Offer, pairing: Pairing, lockTimeMs: nat) {
    policy(offerA, pairing.offerB, lockTimeMs)
  }

  /** The first half of `checkLockGuards`: the deadlines were safe at that moment. */
  predicate DeadlinesHeld(policy: Policy, guard: GuardPass) {
    DeadlinesSafe(policy, guard.offerA, guard.pairing, guard.atMs) && guard.atMs <= guard.readAtMs
  }

  /** All of `checkLockGuards`: and then leg B verified. */
  predicate GuardHeld(policy: Policy, guard: GuardPass) {
    DeadlinesHeld(policy, guard) && NoteVerifies(guard.note, guard.pairing)
  }

  function RefFor(kind: RailKind, statement: Statement, tx: nat): Ref {
    if kind.SignedByOutpoint? then OfTransaction(tx) else OfHashLock(statement)
  }

  predicate HasRef(sents: set<Sent>, ref: Ref) {
    exists s :: s in sents && s.ref == ref
  }

  // --- the rail's promises -------------------------------------------------------------------------------------------

  datatype LockAnswer = Landed | Pending | NeverLanded | Unknown

  /**
   * `recoverLock` and `resendLock`: "never-landed" from a signed rail is a proof that the transaction can no longer land;
   * from the escrow it only says that no lock is visible. Only a signed rail may not know.
   */
  predicate RailMayAnswer(rail: Rail, prepared: Prepared, answer: LockAnswer) {
    match answer
    case Landed => HasRef(rail.sent, prepared.ref)
    case Pending => true
    case NeverLanded => !rail.kind.Escrow? ==> prepared.tx in rail.dead
    case Unknown => !rail.kind.Escrow?
  }

  datatype Absence = AbsenceLanded | NeverLocked | NotFinal

  /** `lockAbsence`: "never locked" only from a finalized block at or past the refund time that has no lock. */
  predicate AbsenceMayBe(rail: Rail, ref: Ref, refundAfterMs: nat, nowMs: nat, answer: Absence) {
    match answer
    case AbsenceLanded => HasRef(rail.landed, ref)
    case NeverLocked => nowMs >= refundAfterMs && !HasRef(rail.landed, ref)
    case NotFinal => true
  }

  // --- one instance --------------------------------------------------------------------------------------------------

  /** What `lockLegA` is about to do behind its guards. */
  datatype NewAction = FirstLock | ResendSaved(prepared: Prepared) | FreshLock(prepared: Prepared)

  /** Where `lockLegA` stands. */
  datatype LockPc =
    | LockIdle
    | Guarding(guard: GuardPass, then_: NewAction)
    | Preparing(guard: GuardPass)
    | SavingPrepared(prepared: Prepared, guard: GuardPass)
    | Sending(prepared: Prepared, guard: GuardPass)
    | SavingOutcome
    | Recovering(prepared: Prepared)
    | Rereading(prepared: Prepared, passed: Option<GuardPass>)
    | Resending(prepared: Prepared, guard: GuardPass)
    | Rebuilding(prepared: Prepared, guard: GuardPass)

  /** Where `claimLegB` or `refundLegA` stands; one flag excludes the other. */
  datatype SettlePc =
    | SettleIdle
    | Saving(then_: SettlePc)
    | ClaimingNote(secret: Secret)
    | ReadingBack(secret: Secret)
    | ReadingNote
    | CheckingPending
    | CheckingAbsence
    | AwaitingAbsence
    | RecoveringRefund
    | Intending
    | Refunding
    | SendingRefund
    | Confirming

  datatype Instance = Instance(journal: Journal<Record>, latches: Latches, lockPc: LockPc, settlePc: SettlePc)

  datatype Result = Result(inst: Instance, env: Env)

  function WithLock(i: Instance, lock: LockLatches): Instance {
    i.(latches := i.latches.(lock := lock))
  }

  function WithClaim(i: Instance, claim: ClaimState): Instance {
    i.(latches := i.latches.(claim := claim))
  }

  function WithRefund(i: Instance, refund: RefundState): Instance {
    i.(latches := i.latches.(refund := refund))
  }

  function Body(i: Instance): Record {
    i.journal.current.body
  }

  /** The projection every save runs, and the encoder behind it. */
  function Finish(latches: Latches): Record -> Option<Record> {
    r => if Encodable(Project(latches, r)) then Some(Project(latches, r)) else None
  }

  /** One turn of the journal's write path with the flow's live state. */
  function Save(i: Instance, e: Env, body: Record, fault: Fault): Written<Record> {
    Commit(i.journal, e.store, SaveBody(body), Finish(i.latches), false, e.nowMs, fault)
  }

  function WithWrite(i: Instance, e: Env, written: Written<Record>): Result {
    Result(i.(journal := written.journal), e.(store := written.store))
  }

  // --- lockLegA --------------------------------------------------------------------------------------------------------

  datatype SendOutcome = NothingSent | ReplyLost | TimedOut(hash: nat) | Returned

  datatype LockAction =
    | StartLock
    | ReadGuardNote
    | PrepareFirst(accounts: nat, marker: nat)
    | SaveLock(fault: Fault)
    | Send(outcome: SendOutcome)
    | StartRecover
    | Recover(answer: LockAnswer)
    | Reread(found: bool)
    | Resend(answer: LockAnswer)
    | PrepareFresh
    | LockReadFails

  /** Everything `lockLegA` checks before it looks at the attempt latch. */
  predicate LockMayStart(i: Instance) {
    && !i.journal.failed && i.lockPc.LockIdle?
    && !i.latches.lock.neverLanded && i.latches.legBVerified && i.latches.offerA.Some? && i.latches.pairing.Some?
    && !(i.latches.lock.evidence.Some? && i.latches.lock.hashLock.Some?)
  }

  /** The deadline check of the guards, at this moment; leg B's note is read next. */
  function CheckedNow(l: Latches, e: Env): GuardPass
    requires l.offerA.Some? && l.pairing.Some?
  {
    GuardPass(e.nowMs, e.nowMs, l.offerA.value, l.pairing.value, NoNote)
  }

  /** `checkLockGuards`, up to its read of leg B's note: it goes on, or ends the call. */
  function StartGuards(policy: Policy, i: Instance, e: Env, then_: NewAction): LockPc {
    if i.latches.offerA.Some? && i.latches.pairing.Some? && DeadlinesHeld(policy, CheckedNow(i.latches, e))
    then Guarding(CheckedNow(i.latches, e), then_) else LockIdle
  }

  /** A fresh lock begins with its guards. */
  function DoStartLock(policy: Policy, i: Instance, e: Env): Result {
    if !LockMayStart(i) || i.latches.lock.attempted then Result(i, e)
    else Result(i.(lockPc := StartGuards(policy, i, e, FirstLock)), e)
  }

  /** Leg B's note as the guards read it; a first lock still has the deal room, the rail and its block marker to read. */
  function DoReadGuardNote(i: Instance, e: Env): Result {
    match i.lockPc
    case Guarding(guard, then_) =>
      var passed := guard.(note := e.note, readAtMs := e.nowMs);
      if !NoteVerifies(e.note, guard.pairing) then Result(i.(lockPc := LockIdle), e)
      else (match then_
            case FirstLock => Result(i.(lockPc := Preparing(passed)), e)
            case ResendSaved(prepared) => Result(i.(lockPc := Resending(prepared, passed)), e)
            case FreshLock(prepared) => Result(i.(lockPc := Rebuilding(prepared, passed)), e))
    case _ => Result(i, e)
  }

  /** The prepared transaction, and the latches set before anything may be sent. */
  function DoPrepareFirst(i: Instance, e: Env, accounts: nat, marker: nat): Result {
    match i.lockPc
    case Preparing(guard) =>
      var statement := guard.pairing.statement;
      var prepared := Prepared(RefFor(e.rail.kind, statement, e.rail.issued), e.rail.issued, None);
      Result(
        WithLock(i, i.latches.lock.(hashLock := Some(statement), fromBlock := Some(marker), accounts := Some(accounts),
                                    railRef := Some(prepared.ref), attempted := true, prepared := Some(prepared))).(
           lockPc := SavingPrepared(prepared, guard)),
        e.(rail := e.rail.(issued := e.rail.issued + 1)))
    case _ => Result(i, e)
  }

  /** The save before a send, and the save of what a send came to. */
  function DoSaveLock(i: Instance, e: Env, fault: Fault): Result {
    var written := Save(i, e, Body(i), fault);
    var r := WithWrite(i, e, written);
    match i.lockPc
    case SavingPrepared(prepared, guard) =>
      r.(inst := r.inst.(lockPc := if written.answer.Resolved? then Sending(prepared, guard) else LockIdle))
    case SavingOutcome => r.(inst := r.inst.(lockPc := LockIdle))
    case _ => Result(i, e)
  }

  function Handed(e: Env, prepared: Prepared, guard: GuardPass): Env {
    e.(rail := e.rail.(sent := e.rail.sent + {Sent(prepared.tx, prepared.ref, guard.offerA.refundAfterMs, guard, e.nowMs)}))
  }

  predicate HasTx(sents: set<Sent>, tx: nat) {
    exists s :: s in sents && s.tx == tx
  }

  /** A lock may land once, while it is not dead; the escrow takes one lock per hash lock, before its refund time. */
  predicate MayLand(e: Env, lock: Sent) {
    && lock in e.rail.sent && lock.tx !in e.rail.dead && !HasTx(e.rail.landed, lock.tx)
    && (e.rail.kind.Escrow? ==> e.nowMs < lock.refundAfterMs && !HasRef(e.rail.landed, lock.ref))
  }

  function Land(e: Env, lock: Sent): Env {
    if MayLand(e, lock) then e.(rail := e.rail.(landed := e.rail.landed + {lock})) else e
  }

  /**
   * `commitLock`. The escrow's two-step lock runs the deadline guard once more before its last step, and returns only
   * once its receipt shows the lock; a signed rail returns once the network took the transaction.
   */
  function DoSend(policy: Policy, i: Instance, e: Env, outcome: SendOutcome): Result {
    match i.lockPc
    case Sending(prepared, guard) =>
      if outcome.NothingSent? || (e.rail.kind.Escrow? && !DeadlinesSafe(policy, guard.offerA, guard.pairing, e.nowMs)) then
        Result(i.(lockPc := LockIdle), e)
      else
        var sent := Sent(prepared.tx, prepared.ref, guard.offerA.refundAfterMs, guard, e.nowMs);
        var e' := Handed(e, prepared, guard);
        (match outcome
         case TimedOut(hash) =>
           if i.latches.lock.prepared.Some? then
             Result(WithLock(i, i.latches.lock.(prepared := Some(i.latches.lock.prepared.value.(timedOutHash := Some(hash))))).(
                      lockPc := SavingOutcome), e')
           else Result(i.(lockPc := LockIdle), e')
         case Returned =>
           if !e.rail.kind.Escrow? then
             Result(WithLock(i, i.latches.lock.(evidence := Some(prepared.ref))).(lockPc := SavingOutcome), e')
           else if MayLand(e', sent) then
             Result(WithLock(i, i.latches.lock.(evidence := Some(prepared.ref))).(lockPc := SavingOutcome), Land(e', sent))
           else Result(i.(lockPc := LockIdle), e')
         case _ => Result(i.(lockPc := LockIdle), e'))
    case _ => Result(i, e)
  }

  /** `recordLockLanded`. */
  function RecordLanded(i: Instance, prepared: Prepared): Instance {
    WithLock(i, i.latches.lock.(evidence := Some(prepared.ref))).(lockPc := SavingOutcome)
  }

  /** `recoverLockA`, up to its first read of the chain. */
  function DoStartRecover(i: Instance, e: Env): Result {
    if !LockMayStart(i) || !i.latches.lock.attempted then Result(i, e)
    else if i.latches.lock.prepared.None? || i.latches.lock.hashLock.None? || i.latches.lock.accounts.None? then Result(i, e)
    else Result(i.(lockPc := Recovering(i.latches.lock.prepared.value)), e)
  }

  /** The answer of that read. A rail that does not know leads to the guards of a resend. */
  function DoRecover(policy: Policy, i: Instance, e: Env, answer: LockAnswer): Result {
    match i.lockPc
    case Recovering(prepared) =>
      if !RailMayAnswer(e.rail, prepared, answer) then Result(i, e)
      else (match answer
            case Landed => Result(RecordLanded(i, prepared), e)
            case Pending => Result(i.(lockPc := LockIdle), e)
            case NeverLanded => Result(i.(lockPc := Rereading(prepared, None)), e)
            case Unknown => Result(i.(lockPc := StartGuards(policy, i, e, ResendSaved(prepared))), e))
    case _ => Result(i, e)
  }

  /** `lockFoundAfterNeverLanded`, and the guards of a new lock when nothing was found. */
  function DoReread(policy: Policy, i: Instance, e: Env, found: bool): Result {
    match i.lockPc
    case Rereading(prepared, passed) =>
      if found then
        if HasRef(e.rail.landed, prepared.ref) then Result(RecordLanded(i, prepared), e) else Result(i, e)
      else if passed.Some? then Result(i.(lockPc := Rebuilding(prepared, passed.value)), e)
      else Result(i.(lockPc := StartGuards(policy, i, e, FreshLock(prepared))), e)
    case _ => Result(i, e)
  }

  /** `resendLock`: the identical saved bytes, once, behind the guards of a new lock action. */
  function DoResend(i: Instance, e: Env, answer: LockAnswer): Result {
    match i.lockPc
    case Resending(prepared, guard) =>
      var e' := Handed(e, prepared, guard);
      if !RailMayAnswer(e'.rail, prepared, answer) then Result(i, e)
      else (match answer
            case Landed => Result(RecordLanded(i, prepared), e')
            case NeverLanded => Result(i.(lockPc := Rereading(prepared, Some(guard))), e')
            case _ => Result(i.(lockPc := LockIdle), e'))
    case _ => Result(i, e)
  }

  /** One fresh lock for the same terms; a different ref is refused. */
  function DoPrepareFresh(i: Instance, e: Env): Result {
    match i.lockPc
    case Rebuilding(prepared, guard) =>
      var rebuilt := Prepared(RefFor(e.rail.kind, guard.pairing.statement, e.rail.issued), e.rail.issued, None);
      var e' := e.(rail := e.rail.(issued := e.rail.issued + 1));
      if rebuilt.ref != prepared.ref then Result(i.(lockPc := LockIdle), e')
      else Result(WithLock(i, i.latches.lock.(prepared := Some(rebuilt))).(lockPc := SavingPrepared(rebuilt, guard)), e')
    case _ => Result(i, e)
  }

  /** A read of the chain or the room, or the build of the transaction, failed and ended the call. */
  function DoLockReadFails(i: Instance, e: Env): Result {
    match i.lockPc
    case Guarding(_, _) => Result(i.(lockPc := LockIdle), e)
    case Preparing(_) => Result(i.(lockPc := LockIdle), e)
    case Recovering(_) => Result(i.(lockPc := LockIdle), e)
    case Rereading(_, _) => Result(i.(lockPc := LockIdle), e)
    case Resending(_, _) => Result(i.(lockPc := LockIdle), e)
    case Rebuilding(_, _) => Result(i.(lockPc := LockIdle), e)
    case _ => Result(i, e)
  }

  function DoLock(policy: Policy, i: Instance, e: Env, action: LockAction): Result {
    match action
    case StartLock => DoStartLock(policy, i, e)
    case ReadGuardNote => DoReadGuardNote(i, e)
    case PrepareFirst(accounts, marker) => DoPrepareFirst(i, e, accounts, marker)
    case SaveLock(fault) => DoSaveLock(i, e, fault)
    case Send(outcome) => DoSend(policy, i, e, outcome)
    case StartRecover => DoStartRecover(i, e)
    case Recover(answer) => DoRecover(policy, i, e, answer)
    case Reread(found) => DoReread(policy, i, e, found)
    case Resend(answer) => DoResend(i, e, answer)
    case PrepareFresh => DoPrepareFresh(i, e)
    case LockReadFails => DoLockReadFails(i, e)
  }

  // --- claimLegB and refundLegA -------------------------------------------------------------------------------------

  datatype NoteCall = NoteReturned | NoteReplyLost | NoteFailed

  datatype RefundOutcome = RefundReturned | RefundSeen | RefundClaimed | RefundNotBroadcast | RefundFailed

  datatype RefundAnswer = ReadsRefunded | ReadsClaimed | Undecided | NeverToLand

  datatype SettleAction =
    | StartClaim(secret: Secret)
    | CallNote(call: NoteCall)
    | ReadBack
    | SeeLegAClaimed
    | StartRefund
    | ReadNote
    | CheckPending(claimSeen: bool)
    | AskAbsence
    | CheckAbsence(answer: Absence)
    | RecoverRefund(refundAnswer: RefundAnswer)
    | Intend
    | CallRefund(signedTx: nat)
    | FinishRefund(outcome: RefundOutcome)
    | SettleReadFails
    | SaveSettle(fault: Fault)

  function AdoptClaim(l: Latches): Latches {
    l.(claim := l.claim.(adopted := true),
       refundNotes := if AdoptedClaim in l.refundNotes then l.refundNotes else l.refundNotes + [AdoptedClaim])
  }

  function DoStartClaim(i: Instance, e: Env, secret: Secret): Result {
    if i.journal.failed || !i.settlePc.SettleIdle? || i.latches.pairing.None? then Result(i, e)
    else if !Opens(i.latches.pairing.value.statement, secret) || i.latches.claim.claimed || i.latches.claim.adopted then Result(i, e)
    else Result(WithClaim(i, i.latches.claim.(attempted := true)).(settlePc := Saving(ClaimingNote(secret))), e)
  }

  /** The note write; one that did not return is read back next. */
  function DoCallNote(i: Instance, e: Env, call: NoteCall): Result {
    match i.settlePc
    case ClaimingNote(secret) =>
      var takes := NoteClaimable(e.note, e.nowMs) && Opens(e.note.statement, secret);
      var written := if takes && !call.NoteFailed? then NoteClaimed(HashOf(secret), secret) else e.note;
      var e' := e.(note := written);
      if takes && call.NoteReturned? then
        Result(WithClaim(i, i.latches.claim.(claimed := true)).(settlePc := Saving(SettleIdle)), e')
      else
        Result(i.(settlePc := ReadingBack(secret)), e')
    case _ => Result(i, e)
  }

  /** What the note is read as after a write that did not return; anybody may have written it in between. */
  function DoReadBack(i: Instance, e: Env): Result {
    match i.settlePc
    case ReadingBack(secret) =>
      if e.note.NoteClaimed? && e.note.secret == secret then
        Result(i.(latches := AdoptClaim(i.latches), settlePc := Saving(SettleIdle)), e)
      else if !NoteClaimable(e.note, e.nowMs) then
        Result(WithClaim(i, i.latches.claim.(attempted := false)).(settlePc := Saving(SettleIdle)), e)
      else
        Result(i.(settlePc := SettleIdle), e)
    case _ => Result(i, e)
  }

  /** `noteLegAClaimSeen`, after an adopted claim's frames. */
  function DoSeeLegAClaimed(i: Instance, e: Env): Result {
    if i.settlePc.SettleIdle? && !i.journal.failed && i.latches.claim.adopted && !i.latches.refund.claimSeen
       && i.latches.lock.accounts.Some? && e.rail.claimed
    then Result(WithRefund(i, i.latches.refund.(claimSeen := true)).(settlePc := Saving(SettleIdle)), e)
    else Result(i, e)
  }

  function DoStartRefund(i: Instance, e: Env): Result {
    if i.journal.failed || !i.settlePc.SettleIdle? || i.latches.pairing.None? || i.latches.offerA.None? then Result(i, e)
    else if i.latches.lock.hashLock.None? || i.latches.lock.neverLanded then Result(i, e)
    else if e.nowMs < i.latches.offerA.value.refundAfterMs || i.latches.lock.accounts.None? || i.latches.claim.claimed then Result(i, e)
    else Result(i.(settlePc := if i.latches.claim.attempted && !i.latches.claim.adopted then ReadingNote else CheckingPending), e)
  }

  /** `settleLegBClaimAttempt`: leg B's note decides what an attempt without an outcome came to. */
  function DoReadNote(i: Instance, e: Env): Result {
    if !i.settlePc.ReadingNote? || i.latches.pairing.None? then Result(i, e)
    else if NoteProvesClaim(e.note, i.latches.pairing.value.statement) then
      Result(i.(latches := AdoptClaim(i.latches), settlePc := Saving(CheckingPending)), e)
    else if NoteClaimable(e.note, e.nowMs) then Result(i.(settlePc := SettleIdle), e)
    else Result(WithClaim(i, i.latches.claim.(attempted := false)).(settlePc := Saving(CheckingPending)), e)
  }

  /** `routeToClaim`: the fact is saved once. */
  function RouteToClaim(i: Instance): Instance {
    if i.latches.refund.claimSeen then i.(settlePc := SettleIdle)
    else WithRefund(i, i.latches.refund.(claimSeen := true)).(settlePc := Saving(SettleIdle))
  }

  function DoCheckPending(i: Instance, e: Env, claimSeen: bool): Result {
    if !i.settlePc.CheckingPending? then Result(i, e)
    else if !e.rail.kind.Escrow? && claimSeen then
      (if e.rail.claimed || e.rail.kind.SignedByOutpoint? then Result(RouteToClaim(i), e) else Result(i, e))
    else Result(i.(settlePc := CheckingAbsence), e)
  }

  /** On the escrow, an attempt without evidence is asked about before anything is sent. */
  function DoAskAbsence(i: Instance, e: Env): Result {
    if !i.settlePc.CheckingAbsence? then Result(i, e)
    else if i.latches.lock.attempted && i.latches.lock.evidence.None? && i.latches.refund.evidence.None? && e.rail.kind.Escrow? then
      Result(i.(settlePc := AwaitingAbsence), e)
    else Result(i.(settlePc := RecoveringRefund), e)
  }

  /** The answer of that read. A lock call in the same process may have recorded the lock in between. */
  function DoCheckAbsence(i: Instance, e: Env, answer: Absence): Result {
    if !i.settlePc.AwaitingAbsence? || i.latches.lock.railRef.None? || i.latches.offerA.None? then Result(i, e)
    else if !AbsenceMayBe(e.rail, i.latches.lock.railRef.value, i.latches.offerA.value.refundAfterMs, e.nowMs, answer) then Result(i, e)
    else match answer
      case AbsenceLanded =>
        if i.latches.lock.evidence.Some? then Result(i.(settlePc := RecoveringRefund), e)
        else Result(WithLock(i, i.latches.lock.(evidence := i.latches.lock.railRef)).(settlePc := Saving(RecoveringRefund)), e)
      case NeverLocked => Result(WithLock(i, i.latches.lock.(neverLanded := true)).(settlePc := Saving(SettleIdle)), e)
      case NotFinal => Result(i.(settlePc := SettleIdle), e)
  }

  /** `recoverRefundA`: the chain decides what a refund without an outcome came to. */
  function DoRecoverRefund(i: Instance, e: Env, answer: RefundAnswer): Result {
    if !i.settlePc.RecoveringRefund? then Result(i, e)
    else if i.latches.refund.evidence.Some? then Result(i.(settlePc := Confirming), e)
    else if !i.latches.refund.attempted then Result(i.(settlePc := Intending), e)
    else (match answer
          case ReadsRefunded =>
            if e.rail.refunded
            then Result(WithRefund(i, i.latches.refund.(evidence := i.latches.lock.railRef)).(settlePc := Saving(Confirming)), e)
            else Result(i, e)
          case ReadsClaimed => if e.rail.claimed then Result(RouteToClaim(i), e) else Result(i, e)
          case Undecided => Result(i.(settlePc := SettleIdle), e)
          case NeverToLand =>
            if i.latches.refund.recovery.Some? && e.rail.kind.SignedByOutpoint? then Result(i.(settlePc := SettleIdle), e)
            else Result(WithRefund(i, i.latches.refund.(recovery := None)).(settlePc := Saving(Intending)), e))
  }

  function DoIntend(i: Instance, e: Env): Result {
    if !i.settlePc.Intending? then Result(i, e)
    else Result(WithRefund(i, i.latches.refund.(attempted := true)).(settlePc := Saving(Refunding)), e)
  }

  function StoredRecord(e: Env): Record {
    if e.store.held.Some? then e.store.held.value.body else NewRecord(Offer(0, 0, 0))
  }

  /** The call of the rail's `refund`. A signed rail hands over the signed refund, which is saved before it is sent. */
  function DoCallRefund(i: Instance, e: Env, signedTx: nat): Result {
    if !i.settlePc.Refunding? then Result(i, e)
    else
      var e' := e.(refundCalls := e.refundCalls + [RefundCall(StoredRecord(e))]);
      if e.rail.kind.Escrow? then Result(i.(settlePc := SendingRefund), e')
      else Result(WithRefund(i, i.latches.refund.(recovery := Some(signedTx))).(settlePc := Saving(SendingRefund)), e')
  }

  function DoFinishRefund(i: Instance, e: Env, outcome: RefundOutcome): Result {
    match i.settlePc
    case SendingRefund =>
      (match outcome
       case RefundReturned =>
         Result(WithRefund(i, i.latches.refund.(evidence := i.latches.lock.railRef)).(settlePc := Saving(Confirming)), e)
       case RefundSeen =>
         if e.rail.refunded
         then Result(WithRefund(i, i.latches.refund.(evidence := i.latches.lock.railRef)).(settlePc := Saving(Confirming)), e)
         else Result(i, e)
       case RefundClaimed => if e.rail.claimed then Result(RouteToClaim(i), e) else Result(i, e)
       case RefundNotBroadcast =>
         if e.rail.kind.Escrow? then Result(i, e)
         else Result(WithRefund(i, i.latches.refund.(recovery := None)).(settlePc := Saving(SettleIdle)), e)
       case RefundFailed => Result(i.(settlePc := SettleIdle), e))
    case Confirming =>
      if outcome.RefundClaimed? && e.rail.claimed then Result(RouteToClaim(i), e) else Result(i.(settlePc := SettleIdle), e)
    case _ => Result(i, e)
  }

  /** A read of the chain or of leg B's note failed and ended the call. */
  function DoSettleReadFails(i: Instance, e: Env): Result {
    match i.settlePc
    case ReadingBack(_) => Result(i.(settlePc := SettleIdle), e)
    case ReadingNote => Result(i.(settlePc := SettleIdle), e)
    case CheckingPending => Result(i.(settlePc := SettleIdle), e)
    case AwaitingAbsence => Result(i.(settlePc := SettleIdle), e)
    case RecoveringRefund => Result(i.(settlePc := SettleIdle), e)
    case _ => Result(i, e)
  }

  function DoSaveSettle(i: Instance, e: Env, fault: Fault): Result {
    match i.settlePc
    case Saving(then_) =>
      var written := Save(i, e, Body(i), fault);
      var r := WithWrite(i, e, written);
      r.(inst := r.inst.(settlePc := if written.answer.Resolved? then then_ else SettleIdle))
    case _ => Result(i, e)
  }

  function DoSettle(i: Instance, e: Env, action: SettleAction): Result {
    match action
    case StartClaim(secret) => DoStartClaim(i, e, secret)
    case CallNote(call) => DoCallNote(i, e, call)
    case ReadBack => DoReadBack(i, e)
    case SeeLegAClaimed => DoSeeLegAClaimed(i, e)
    case StartRefund => DoStartRefund(i, e)
    case ReadNote => DoReadNote(i, e)
    case CheckPending(claimSeen) => DoCheckPending(i, e, claimSeen)
    case AskAbsence => DoAskAbsence(i, e)
    case CheckAbsence(answer) => DoCheckAbsence(i, e, answer)
    case RecoverRefund(answer) => DoRecoverRefund(i, e, answer)
    case Intend => DoIntend(i, e)
    case CallRefund(signedTx) => DoCallRefund(i, e, signedTx)
    case FinishRefund(outcome) => DoFinishRefund(i, e, outcome)
    case SettleReadFails => DoSettleReadFails(i, e)
    case SaveSettle(fault) => DoSaveSettle(i, e, fault)
  }

  // --- the steps before the lock, and the lines that land --------------------------------------------------------------

  datatype LineAction =
    | OfferLands(fault: Fault)
    | SavePairing(pairing: Pairing, plannedLockMs: nat, fault: Fault)
    | AcceptLands(stampMs: nat, fault: Fault)
    | VerifyLegB(fault: Fault)
    | LineLands(kind: Kind, fault: Fault)

  /** When each later line of the Buyer may be posted. */
  predicate LineAllowed(i: Instance, e: Env, kind: Kind) {
    match kind
    case AccountA => i.latches.pairing.Some?
    case LockA => i.latches.lock.evidence.Some? && i.latches.offerA.Some? && e.nowMs < i.latches.offerA.value.refundAfterMs
    case RevealB => i.latches.claim.claimed || i.latches.claim.adopted
    case ReceiptB => RevealB in Body(i).landed && (i.latches.claim.claimed || i.latches.claim.adopted)
    case RefundA => i.latches.refund.evidence.Some? && e.rail.refunded
    case ReceiptRefundA => RefundA in Body(i).landed && i.latches.refund.evidence.Some? && e.rail.refunded
    case _ => false
  }

  function LandedFrame(l: Latches, kind: Kind): Latches {
    match kind
    case LockA => l.(lock := l.lock.(framePosted := true))
    case ReceiptRefundA => l.(refund := l.refund.(framesPosted := true))
    case _ => l
  }

  /** Whether the step's own checks let it act. */
  predicate LineReady(policy: Policy, i: Instance, e: Env, action: LineAction) {
    && !i.journal.failed
    && match action
       case OfferLands(_) => OfferA !in Body(i).landed
       case SavePairing(pairing, plannedLockMs, _) =>
         && i.latches.offerA.Some? && Body(i).pairing.None? && e.nowMs < pairing.offerB.expiresMs
         && DeadlinesSafe(policy, i.latches.offerA.value, pairing, plannedLockMs)
       case AcceptLands(_, _) => i.latches.offerA.Some? && Body(i).pairing.Some? && AcceptB !in Body(i).landed
       case VerifyLegB(_) => i.latches.pairing.Some? && NoteVerifies(e.note, i.latches.pairing.value)
       case LineLands(kind, _) => LineAllowed(i, e, kind)
  }

  /** The record the step's save is derived from. */
  function LineBody(i: Instance, action: LineAction): Record {
    match action
    case OfferLands(_) => Body(i).(landed := Body(i).landed + {OfferA})
    case SavePairing(pairing, _, _) => Body(i).(pairing := Some(pairing))
    case AcceptLands(stampMs, _) => Body(i).(landed := Body(i).landed + {AcceptB}, acceptBStampMs := Some(stampMs))
    case VerifyLegB(_) => Body(i)
    case LineLands(kind, _) => Body(i).(landed := Body(i).landed + {kind})
  }

  /** The latches set before the save. */
  function LatchedBefore(l: Latches, action: LineAction): Latches {
    if action.VerifyLegB? then l.(legBVerified := true) else l
  }

  /** The latches set once the save resolved; an accept B stamped too late leaves a live flow unpaired. */
  function LatchedAfter(l: Latches, body: Record, action: LineAction): Latches {
    match action
    case OfferLands(_) => l.(offerA := Some(body.offerA))
    case AcceptLands(stampMs, _) =>
      if body.pairing.Some? && stampMs < body.pairing.value.offerB.expiresMs
      then l.(pairing := body.pairing, acceptBStampMs := Some(stampMs)) else l
    case LineLands(kind, _) => LandedFrame(l, kind)
    case _ => l
  }

  function LineFlow(i: Instance, action: LineAction): Instance {
    i.(latches := LatchedBefore(i.latches, action))
  }

  function DoLine(policy: Policy, i: Instance, e: Env, action: LineAction): Result {
    if !LineReady(policy, i, e, action) then Result(i, e)
    else
      var flow := LineFlow(i, action);
      var written := Save(flow, e, LineBody(i, action), action.fault);
      var latches := if written.answer.Resolved? then LatchedAfter(flow.latches, Body(i), action) else flow.latches;
      Result(flow.(journal := written.journal, latches := latches), e.(store := written.store))
  }

  // --- the whole system ------------------------------------------------------------------------------------------------

  datatype Action = OnLock(lock: LockAction) | OnSettle(settle: SettleAction) | OnLine(line: LineAction)

  /** What happens outside the flow: the clock, the network, the Seller, whoever writes leg B's note. */
  datatype WorldEvent =
    | Tick(toMs: nat)
    | LockLands(lock: Sent)
    | LockDies(tx: nat)
    | SellerClaims
    | RefundLands
    | NoteBecomes(note: PaperNote)

  datatype Event =
    | Begin(id: nat, offerA: Offer, fault: Fault)
    | Resume(id: nat)
    | Crash(id: nat)
    | Act(id: nat, action: Action)
    | Outside(event: WorldEvent)

  datatype System = System(env: Env, live: map<nat, Instance>)

  /** The rail's kind, the pinned deadline policy, and whether more than one instance may be live at once. */
  datatype Config = Config(kind: RailKind, policy: Policy, many: bool)

  function DoAct(policy: Policy, i: Instance, e: Env, action: Action): Result {
    match action
    case OnLock(lock) => DoLock(policy, i, e, lock)
    case OnSettle(settle) => DoSettle(i, e, settle)
    case OnLine(line) => DoLine(policy, i, e, line)
  }

  function DoOutside(e: Env, event: WorldEvent): Env {
    match event
    case Tick(toMs) => if e.nowMs <= toMs then e.(nowMs := toMs) else e
    case LockLands(lock) => Land(e, lock)
    case LockDies(tx) => if HasTx(e.rail.landed, tx) then e else e.(rail := e.rail.(dead := e.rail.dead + {tx}))
    case SellerClaims =>
      if e.rail.landed != {} && !e.rail.refunded then e.(rail := e.rail.(claimed := true)) else e
    case RefundLands =>
      if e.rail.landed != {} && !e.rail.claimed && e.refundCalls != [] then e.(rail := e.rail.(refunded := true)) else e
    case NoteBecomes(note) => e.(note := note)
  }

  function Start(config: Config): System {
    System(Env(Store(None, []), 0, Rail(config.kind, 0, {}, {}, {}, false, false), NoNote, []), map[])
  }

  /** The write of a new flow's first version. */
  function FirstSave(e: Env, offerA: Offer, fault: Fault): Written<Record> {
    Commit(Unsaved(NewRecord(offerA), e.nowMs), e.store, SaveBody(NewRecord(offerA)), Finish(FreshLatches), true, e.nowMs, fault)
  }

  predicate MayJoin(config: Config, s: System, id: nat) {
    id !in s.live && (config.many || s.live == map[])
  }

  function Step(config: Config, s: System, event: Event): System {
    match event
    case Begin(id, offerA, fault) =>
      if !MayJoin(config, s, id) then s
      else
        var written := FirstSave(s.env, offerA, fault);
        var env' := s.env.(store := written.store);
        if written.answer.Resolved?
        then System(env', s.live[id := Instance(written.journal, FreshLatches, LockIdle, SettleIdle)])
        else s.(env := env')
    case Resume(id) =>
      if !MayJoin(config, s, id) || s.env.store.held.None? then s
      else (match Rebuild(s.env.store.held.value.body)
            case Corrupt => s
            case Flow(latches) => s.(live := s.live[id := Instance(Opened(s.env.store.held.value), latches, LockIdle, SettleIdle)]))
    case Crash(id) => s.(live := s.live - {id})
    case Act(id, action) =>
      if id !in s.live then s
      else
        var r := DoAct(config.policy, s.live[id], s.env, action);
        System(r.env, s.live[id := r.inst])
    case Outside(e) => s.(env := DoOutside(s.env, e))
  }

  function After(config: Config, run: seq<Event>): System {
    if run == [] then Start(config) else Step(config, After(config, run[..|run| - 1]), run[|run| - 1])
  }
}
