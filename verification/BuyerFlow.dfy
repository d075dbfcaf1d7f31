/**
 * The Buyer's flow as the object the source writes: latch fields that its steps read, set and save. Each method is one
 * segment between awaits, proved to be its step of `BuyerSteps`; the calls a runner makes (`lockLegA`, `claimLegB`,
 * `refundLegA`) are those segments in order, and so are runs of the step relation.
 */
module BuyerFlows {
  import opened Options
  import opened Journal
  import opened BuyerState
  import opened BuyerSteps

  /** What every instance of a flow acts on: the store, the chain, the clock, leg B's note. */
  class Surroundings {
    var env: Env

    constructor (kind: RailKind)
      ensures env == Start(Config(kind, (a: Offer, b: Offer, t: nat) => true, false)).env
    {
      env := Env(Store(None, []), 0, Rail(kind, 0, {}, {}, {}, false, false), NoNote, []);
    }

    /** The store's compare-and-swap. */
    method SaveVersion(expected: Option<Version<Record>>, next: Version<Record>, fault: Fault) returns (answer: Answer)
      modifies this
      ensures env == old(env).(store := CompareAndSwap(old(env).store, expected, next, fault).0)
      ensures answer == CompareAndSwap(old(env).store, expected, next, fault).1
    {
      if fault.Reject? || env.store.held != expected {
        return Threw;
      }
      env := env.(store := Store(Some(next), env.store.history + [next]));
      return if fault.CommitThenThrow? then Threw else Resolved;
    }

    /** A transaction goes to the network. */
    method Hand(prepared: Prepared, guard: GuardPass)
      modifies this
      ensures env == Handed(old(env), prepared, guard)
    {
      env := env.(rail := env.rail.(sent := env.rail.sent + {Sent(prepared.tx, prepared.ref, guard.offerA.refundAfterMs, guard, env.nowMs)}));
    }
  }

  /** A call's segments, one after the other. */
  function DoLocks(policy: Policy, i: Instance, e: Env, actions: seq<LockAction>): Result
    decreases |actions|
  {
    if actions == [] then Result(i, e)
    else
      var r := DoLock(policy, i, e, actions[0]);
      DoLocks(policy, r.inst, r.env, actions[1..])
  }

  function DoSettles(i: Instance, e: Env, actions: seq<SettleAction>): Result
    decreases |actions|
  {
    if actions == [] then Result(i, e)
    else
      var r := DoSettle(i, e, actions[0]);
      DoSettles(r.inst, r.env, actions[1..])
  }

  class BuyerFlow {
    const around: Surroundings
    var offerA: Option<Offer>
    var pairing: Option<Pairing>
    var acceptBStampMs: Option<nat>
    var legBVerified: bool
    var lock: LockLatches
    var claim: ClaimState
    var refund: RefundState
    var refundNotes: seq<Note>
    var journal: Journal<Record>
    var lockPc: LockPc          // where a `lockLegA` call stands; idle when none is pending
    var settlePc: SettlePc      // the same for `claimLegB` and `refundLegA`

    function LatchesNow(): Latches
      reads this
    {
      Latches(offerA, pairing, acceptBStampMs, legBVerified, lock, claim, refund, refundNotes)
    }

    function Value(): Instance
      reads this
    {
      Instance(journal, LatchesNow(), lockPc, settlePc)
    }

    function Now(): Result
      reads this, around
    {
      Result(Value(), around.env)
    }

    /** `resume`: the journal of the held version, and every latch from its record, or a refusal of one that does not add up. */
    constructor Resume(around: Surroundings)
      requires around.env.store.held.Some? && Rebuild(around.env.store.held.value.body).Flow?
      ensures this.around == around
      ensures Value() == Instance(Opened(around.env.store.held.value), Rebuild(around.env.store.held.value.body).latches, LockIdle, SettleIdle)
    {
      hide Rebuild;
      RebuiltIs(around.env.store.held.value.body);
      this.around := around;
      var version := around.env.store.held.value;
      var r := version.body;
      var acceptB := AcceptB in r.landed;
      journal := Opened(version);
      offerA := if OfferA in r.landed then Some(r.offerA) else None;
      pairing := if acceptB then r.pairing else None;
      acceptBStampMs := r.acceptBStampMs;
      legBVerified := r.legBVerified;
      var railRef := if r.lock.prepared.Some? then Some(r.lock.prepared.value.ref) else r.lock.evidence;
      lock := LockLatches(r.lock.attempted, r.lock.prepared, railRef, r.lock.fromBlock, r.lock.accounts, r.lock.hashLock, r.lock.evidence,
                          r.lock.framePosted || LockA in r.landed, r.lock.neverLanded);
      claim := r.claim;
      refund := r.refund.(framesPosted := r.refund.framesPosted || ReceiptRefundA in r.landed);
      refundNotes := r.refundNotes;
      lockPc, settlePc := LockIdle, SettleIdle;
    }

    /** `nextStep`: read from the latches and the record last made durable; nothing is changed. */
    method NextStep() returns (step: NextStep)
      ensures step == Next(LatchesNow(), journal.current.body, around.env.nowMs)
    {
      var r := journal.current.body;
      var nowMs := around.env.nowMs;
      if OfferA !in r.landed {
        return Bid;
      }
      if AcceptB !in r.landed {
        if r.pairing.Some? && nowMs >= r.pairing.value.offerB.expiresMs {
          return Abandoned;
        }
        return AcceptLegB;
      }
      if !legBVerified && !lock.attempted && AcceptBStampedLate(LatchesNow(), r) {
        return Abandoned;
      }
      if lock.neverLanded {
        return Done;
      }
      if refund.attempted {
        if ReceiptRefundA in r.landed {
          return Done;
        }
        if refund.claimSeen || claim.claimed {
          return if LegBDone(LatchesNow(), r) then Done else LearnSecret;
        }
        return BuyerState.RefundLegA;
      }
      if !legBVerified {
        return VerifyLegBLocked;
      }
      if AccountA !in r.landed {
        return PostAccountLineA;
      }
      if refund.claimSeen || claim.claimed {
        return if LegBDone(LatchesNow(), r) then Done else LearnSecret;
      }
      if lock.evidence.None? || !lock.framePosted {
        if lock.attempted && offerA.Some? && nowMs >= offerA.value.refundAfterMs {
          return BuyerState.RefundLegA;
        }
        return BuyerState.LockLegA;
      }
      if claim.attempted || claim.claimed {
        return if LegBDone(LatchesNow(), r) then Done else LearnSecret;
      }
      return LearnSecret;
    }

    /** `persist`: the live state laid over the record, encoded and saved; a refused save fails the flow. */
    method Persist(fault: Fault) returns (answer: Answer)
      modifies this`journal, around
      ensures var written := Save(old(Value()), old(around.env), old(Body(Value())), fault);
              Value() == old(Value()).(journal := written.journal) && around.env == old(around.env).(store := written.store)
              && answer == written.answer
    {
      if journal.failed {
        return Threw;
      }
      var finished := Finish(LatchesNow())(journal.current.body);
      if finished.None? {
        journal := journal.(failed := true);
        return Threw;
      }
      var next := Bumped(journal.current, finished.value, around.env.nowMs);
      answer := around.SaveVersion(journal.digest, next, fault);
      journal := if answer.Resolved? then Opened(next) else journal.(failed := true);
    }

    // --- the segments of lockLegA ------------------------------------------------------------------------------------------

    /** `checkLockGuards`, up to its read of leg B's note: the deadline check at this moment. */
    method BeginGuards(policy: Policy, then_: NewAction)
      modifies this`lockPc
      ensures Value() == old(Value()).(lockPc := StartGuards(policy, old(Value()), old(around.env), then_))
    {
      lockPc := LockIdle;
      if offerA.Some? && pairing.Some? {
        var checked := CheckedNow(LatchesNow(), around.env);
        if DeadlinesSafe(policy, checked.offerA, checked.pairing, checked.atMs) {
          lockPc := Guarding(checked, then_);
        }
      }
    }

    /** A fresh lock begins with its guards. */
    method StartLock(policy: Policy)
      modifies this`lockPc
      ensures Now() == DoStartLock(policy, old(Value()), old(around.env))
    {
      if LockMayStart(Value()) && !lock.attempted {
        BeginGuards(policy, FirstLock);
      }
    }

    /** Leg B's note as the guards read it: the new action goes on, or the call ends. */
    method ReadGuardNote()
      modifies this`lockPc
      ensures Now() == DoReadGuardNote(old(Value()), old(around.env))
    {
      if !lockPc.Guarding? {
        return;
      }
      var guard, then_ := lockPc.guard, lockPc.then_;
      lockPc := LockIdle;
      if !NoteVerifies(around.env.note, guard.pairing) {
        return;
      }
      var passed := guard.(note := around.env.note, readAtMs := around.env.nowMs);
      match then_ {
        case FirstLock => lockPc := Preparing(passed);
        case ResendSaved(prepared) => lockPc := Resending(prepared, passed);
        case FreshLock(prepared) => lockPc := Rebuilding(prepared, passed);
      }
    }

    /** `prepareLock` behind those guards, and every latch set before anything may be sent. */
    method PrepareFirstLock(accounts: nat, marker: nat)
      modifies this`lock, this`lockPc, around
      ensures Now() == DoPrepareFirst(old(Value()), old(around.env), accounts, marker)
    {
      if !lockPc.Preparing? {
        return;
      }
      var guard := lockPc.guard;
      var statement := guard.pairing.statement;
      var prepared := Prepared(RefFor(around.env.rail.kind, statement, around.env.rail.issued), around.env.rail.issued, None);
      around.env := around.env.(rail := around.env.rail.(issued := around.env.rail.issued + 1));
      lock := lock.(hashLock := Some(statement), fromBlock := Some(marker), accounts := Some(accounts), railRef := Some(prepared.ref));
      lock := lock.(attempted := true, prepared := Some(prepared));
      lockPc := SavingPrepared(prepared, guard);
    }

    /** A failed read or build ends the call: nothing of it is latched. */
    method FailLockRead()
      modifies this`lockPc
      ensures Now() == DoLockReadFails(old(Value()), old(around.env))
    {
      if lockPc.Guarding? || lockPc.Preparing? || lockPc.Recovering? || lockPc.Rereading? || lockPc.Resending? || lockPc.Rebuilding? {
        lockPc := LockIdle;
      }
    }

    /** The save before a send, and the save of what a send came to. */
    method SaveLock(fault: Fault)
      modifies this`journal, this`lockPc, around
      ensures Now() == DoSaveLock(old(Value()), old(around.env), fault)
    {
      if !lockPc.SavingPrepared? && !lockPc.SavingOutcome? {
        return;
      }
      var answer := Persist(fault);
      if lockPc.SavingPrepared? && answer.Resolved? {
        lockPc := Sending(lockPc.prepared, lockPc.guard);
      } else {
        lockPc := LockIdle;
      }
    }

    /** `commitLockRecordingTimeout`: the broadcast, its guard on the escrow, and a receipt time-out's hash. */
    method SendLock(policy: Policy, outcome: SendOutcome)
      modifies this`lock, this`lockPc, around
      ensures Now() == DoSend(policy, old(Value()), old(around.env), outcome)
    {
      if !lockPc.Sending? {
        return;
      }
      var prepared, guard := lockPc.prepared, lockPc.guard;
      lockPc := LockIdle;
      if outcome.NothingSent? {
        return;
      }
      if around.env.rail.kind.Escrow? && !DeadlinesSafe(policy, guard.offerA, guard.pairing, around.env.nowMs) {
        return;
      }
      var sent := Sent(prepared.tx, prepared.ref, guard.offerA.refundAfterMs, guard, around.env.nowMs);
      around.Hand(prepared, guard);
      match outcome {
        case TimedOut(hash) =>
          if lock.prepared.Some? {
            lock := lock.(prepared := Some(lock.prepared.value.(timedOutHash := Some(hash))));
            lockPc := SavingOutcome;
          }
        case Returned =>
          if around.env.rail.kind.Escrow? {
            if !MayLand(around.env, sent) {
              return;
            }
            around.env := Land(around.env, sent);
          }
          lock := lock.(evidence := Some(prepared.ref));
          lockPc := SavingOutcome;
        case _ =>
      }
    }

    /** `recoverLockA`, up to its first read: the chain is read before any guard. */
    method StartRecover()
      modifies this`lockPc
      ensures Now() == DoStartRecover(old(Value()), old(around.env))
    {
      if !LockMayStart(Value()) || !lock.attempted {
        return;
      }
      if lock.prepared.Some? && lock.hashLock.Some? && lock.accounts.Some? {
        lockPc := Recovering(lock.prepared.value);
      }
    }

    /** What that read answers: landed, pending, never landed, or unknown on a signed rail. */
    method RecoverLock(policy: Policy, answer: LockAnswer)
      modifies this`lock, this`lockPc
      ensures Now() == DoRecover(policy, old(Value()), old(around.env), answer)
    {
      if !lockPc.Recovering? {
        return;
      }
      var prepared := lockPc.prepared;
      if !RailMayAnswer(around.env.rail, prepared, answer) {
        return;
      }
      match answer {
        case Landed =>
          lock := lock.(evidence := Some(prepared.ref));
          lockPc := SavingOutcome;
        case Pending => lockPc := LockIdle;
        case NeverLanded => lockPc := Rereading(prepared, None);
        case Unknown => BeginGuards(policy, ResendSaved(prepared));
      }
    }

    /** `lockFoundAfterNeverLanded`, and the guards of a new lock when nothing was found. */
    method RereadLock(policy: Policy, found: bool)
      modifies this`lock, this`lockPc
      ensures Now() == DoReread(policy, old(Value()), old(around.env), found)
    {
      if !lockPc.Rereading? {
        return;
      }
      var prepared, passed := lockPc.prepared, lockPc.passed;
      if found {
        if HasRef(around.env.rail.landed, prepared.ref) {
          lock := lock.(evidence := Some(prepared.ref));
          lockPc := SavingOutcome;
        }
        return;
      }
      if passed.Some? {
        lockPc := Rebuilding(prepared, passed.value);
        return;
      }
      BeginGuards(policy, FreshLock(prepared));
    }

    /** `resendLock`: the identical saved bytes, behind every guard of a new lock. */
    method ResendLock(answer: LockAnswer)
      modifies this`lock, this`lockPc, around
      ensures Now() == DoResend(old(Value()), old(around.env), answer)
    {
      if !lockPc.Resending? {
        return;
      }
      var prepared, guard := lockPc.prepared, lockPc.guard;
      if !RailMayAnswer(Handed(around.env, prepared, guard).rail, prepared, answer) {
        return;
      }
      around.Hand(prepared, guard);
      match answer {
        case Landed =>
          lock := lock.(evidence := Some(prepared.ref));
          lockPc := SavingOutcome;
        case NeverLanded => lockPc := Rereading(prepared, Some(guard));
        case _ => lockPc := LockIdle;
      }
    }

    /** One fresh lock for the same terms, under the same ref or not at all. */
    method PrepareFreshLock()
      modifies this`lock, this`lockPc, around
      ensures Now() == DoPrepareFresh(old(Value()), old(around.env))
    {
      if !lockPc.Rebuilding? {
        return;
      }
      var prepared, guard := lockPc.prepared, lockPc.guard;
      var rebuilt := Prepared(RefFor(around.env.rail.kind, guard.pairing.statement, around.env.rail.issued), around.env.rail.issued, None);
      around.env := around.env.(rail := around.env.rail.(issued := around.env.rail.issued + 1));
      if rebuilt.ref != prepared.ref {
        lockPc := LockIdle;
        return;
      }
      lock := lock.(prepared := Some(rebuilt));
      lockPc := SavingPrepared(rebuilt, guard);
    }

    // --- the segments of claimLegB and refundLegA ----------------------------------------------------------------------------

    /** `adoptLegBClaim`: recorded once, and never a bar to leg A's refund. */
    method AdoptLegBClaim()
      modifies this`claim, this`refundNotes
      ensures Value() == old(Value()).(latches := AdoptClaim(old(LatchesNow())))
    {
      claim := claim.(adopted := true);
      if AdoptedClaim !in refundNotes {
        refundNotes := refundNotes + [AdoptedClaim];
      }
    }

    method StartClaim(secret: Secret)
      modifies this`claim, this`settlePc
      ensures Now() == DoStartClaim(old(Value()), old(around.env), secret)
    {
      if journal.failed || !settlePc.SettleIdle? || pairing.None? {
        return;
      }
      if !Opens(pairing.value.statement, secret) {
        return;
      }
      if !claim.claimed && !claim.adopted {
        claim := claim.(attempted := true);
        settlePc := Saving(ClaimingNote(secret));
      }
    }

    /** The note write: this flow's own claim, or a write whose outcome the note is read for next. */
    method CallNote(call: NoteCall)
      modifies this`claim, this`refundNotes, this`settlePc, around
      ensures Now() == DoCallNote(old(Value()), old(around.env), call)
    {
      if !settlePc.ClaimingNote? {
        return;
      }
      var secret := settlePc.secret;
      var takes := NoteClaimable(around.env.note, around.env.nowMs) && Opens(around.env.note.statement, secret);
      if takes && !call.NoteFailed? {
        around.env := around.env.(note := NoteClaimed(HashOf(secret), secret));
      }
      if takes && call.NoteReturned? {
        claim := claim.(claimed := true);
        settlePc := Saving(SettleIdle);
      } else {
        settlePc := ReadingBack(secret);
      }
    }

    /** The note after a write that did not return: a claim already there, one that provably did not land, or undecided. */
    method ReadBackNote()
      modifies this`claim, this`refundNotes, this`settlePc
      ensures Now() == DoReadBack(old(Value()), old(around.env))
    {
      if !settlePc.ReadingBack? {
        return;
      }
      var note, secret := around.env.note, settlePc.secret;
      settlePc := Saving(SettleIdle);
      if note.NoteClaimed? && note.secret == secret {
        AdoptLegBClaim();
      } else if !NoteClaimable(note, around.env.nowMs) {
        claim := claim.(attempted := false);
      } else {
        settlePc := SettleIdle;
      }
    }

    /** `noteLegAClaimSeen`. */
    method SeeLegAClaimed()
      modifies this`refund, this`settlePc
      ensures Now() == DoSeeLegAClaimed(old(Value()), old(around.env))
    {
      if !settlePc.SettleIdle? || journal.failed || !claim.adopted || refund.claimSeen || lock.accounts.None? {
        return;
      }
      if around.env.rail.claimed {
        refund := refund.(claimSeen := true);
        settlePc := Saving(SettleIdle);
      }
    }

    method StartRefund()
      modifies this`settlePc
      ensures Now() == DoStartRefund(old(Value()), old(around.env))
    {
      if journal.failed || !settlePc.SettleIdle? || pairing.None? || offerA.None? {
        return;
      }
      if lock.hashLock.None? || lock.neverLanded {
        return;
      }
      if around.env.nowMs < offerA.value.refundAfterMs || lock.accounts.None? || claim.claimed {
        return;
      }
      settlePc := if claim.attempted && !claim.adopted then ReadingNote else CheckingPending;
    }

    /** `settleLegBClaimAttempt`. */
    method SettleClaimAttempt()
      modifies this`claim, this`refundNotes, this`settlePc
      ensures Now() == DoReadNote(old(Value()), old(around.env))
    {
      if !settlePc.ReadingNote? || pairing.None? {
        return;
      }
      var note := around.env.note;
      if NoteProvesClaim(note, pairing.value.statement) {
        AdoptLegBClaim();
        settlePc := Saving(CheckingPending);
        return;
      }
      if NoteClaimable(note, around.env.nowMs) {
        settlePc := SettleIdle;
        return;
      }
      claim := claim.(attempted := false);
      settlePc := Saving(CheckingPending);
    }

    /** `routeToClaim`: the fact is latched once, and saved. */
    method RouteToClaimed()
      modifies this`refund, this`settlePc
      ensures Value() == RouteToClaim(old(Value()))
    {
      if refund.claimSeen {
        settlePc := SettleIdle;
        return;
      }
      refund := refund.(claimSeen := true);
      settlePc := Saving(SettleIdle);
    }

    method CheckPendingClaim(claimSeen: bool)
      modifies this`refund, this`settlePc
      ensures Now() == DoCheckPending(old(Value()), old(around.env), claimSeen)
    {
      if !settlePc.CheckingPending? {
        return;
      }
      if !around.env.rail.kind.Escrow? && claimSeen {
        if around.env.rail.claimed || around.env.rail.kind.SignedByOutpoint? {
          RouteToClaimed();
        }
        return;
      }
      settlePc := CheckingAbsence;
    }

    /** On the escrow, an attempt without evidence is asked about; anything else goes on to the refund's recovery. */
    method AskAbsence()
      modifies this`settlePc
      ensures Now() == DoAskAbsence(old(Value()), old(around.env))
    {
      if !settlePc.CheckingAbsence? {
        return;
      }
      if lock.attempted && lock.evidence.None? && refund.evidence.None? && around.env.rail.kind.Escrow? {
        settlePc := AwaitingAbsence;
      } else {
        settlePc := RecoveringRefund;
      }
    }

    /** What `lockAbsence` answers: evidence, the verdict, or not final yet. */
    method CheckLockAbsence(answer: Absence)
      modifies this`lock, this`settlePc
      ensures Now() == DoCheckAbsence(old(Value()), old(around.env), answer)
    {
      if !settlePc.AwaitingAbsence? || lock.railRef.None? || offerA.None? {
        return;
      }
      if !AbsenceMayBe(around.env.rail, lock.railRef.value, offerA.value.refundAfterMs, around.env.nowMs, answer) {
        return;
      }
      match answer {
        case AbsenceLanded =>
          if lock.evidence.Some? {
            settlePc := RecoveringRefund;
          } else {
            lock := lock.(evidence := lock.railRef);
            settlePc := Saving(RecoveringRefund);
          }
        case NeverLocked =>
          lock := lock.(neverLanded := true);
          settlePc := Saving(SettleIdle);
        case NotFinal => settlePc := SettleIdle;
      }
    }

    /** `recoverRefundA`. */
    method RecoverRefund(answer: RefundAnswer)
      modifies this`refund, this`settlePc
      ensures Now() == DoRecoverRefund(old(Value()), old(around.env), answer)
    {
      if !settlePc.RecoveringRefund? {
        return;
      }
      if refund.evidence.Some? {
        settlePc := Confirming;
        return;
      }
      if !refund.attempted {
        settlePc := Intending;
        return;
      }
      match answer {
        case ReadsRefunded =>
          if around.env.rail.refunded {
            refund := refund.(evidence := lock.railRef);
            settlePc := Saving(Confirming);
          }
        case ReadsClaimed =>
          if around.env.rail.claimed {
            RouteToClaimed();
          }
        case Undecided => settlePc := SettleIdle;
        case NeverToLand =>
          if refund.recovery.Some? && around.env.rail.kind.SignedByOutpoint? {
            settlePc := SettleIdle;
          } else {
            refund := refund.(recovery := None);
            settlePc := Saving(Intending);
          }
      }
    }

    method IntendRefund()
      modifies this`refund, this`settlePc
      ensures Now() == DoIntend(old(Value()), old(around.env))
    {
      if settlePc.Intending? {
        refund := refund.(attempted := true);
        settlePc := Saving(Refunding);
      }
    }

    /** The rail's refund; a signed one is handed over before it is sent. */
    method CallRefund(signedTx: nat)
      modifies this`refund, this`settlePc, around
      ensures Now() == DoCallRefund(old(Value()), old(around.env), signedTx)
    {
      if !settlePc.Refunding? {
        return;
      }
      around.env := around.env.(refundCalls := around.env.refundCalls + [RefundCall(StoredRecord(around.env))]);
      if around.env.rail.kind.Escrow? {
        settlePc := SendingRefund;
      } else {
        refund := refund.(recovery := Some(signedTx));
        settlePc := Saving(SendingRefund);
      }
    }

    method FinishRefund(outcome: RefundOutcome)
      modifies this`refund, this`settlePc
      ensures Now() == DoFinishRefund(old(Value()), old(around.env), outcome)
    {
      if settlePc.Confirming? {
        if outcome.RefundClaimed? && around.env.rail.claimed {
          RouteToClaimed();
        } else {
          settlePc := SettleIdle;
        }
        return;
      }
      if !settlePc.SendingRefund? {
        return;
      }
      match outcome {
        case RefundReturned =>
          refund := refund.(evidence := lock.railRef);
          settlePc := Saving(Confirming);
        case RefundSeen =>
          if around.env.rail.refunded {
            refund := refund.(evidence := lock.railRef);
            settlePc := Saving(Confirming);
          }
        case RefundClaimed =>
          if around.env.rail.claimed {
            RouteToClaimed();
          }
        case RefundNotBroadcast =>
          if !around.env.rail.kind.Escrow? {
            refund := refund.(recovery := None);
            settlePc := Saving(SettleIdle);
          }
        case RefundFailed => settlePc := SettleIdle;
      }
    }

    /** A failed read ends the call. */
    method FailSettleRead()
      modifies this`settlePc
      ensures Now() == DoSettleReadFails(old(Value()), old(around.env))
    {
      if settlePc.ReadingBack? || settlePc.ReadingNote? || settlePc.CheckingPending? || settlePc.AwaitingAbsence? || settlePc.RecoveringRefund? {
        settlePc := SettleIdle;
      }
    }

    method SaveSettle(fault: Fault)
      modifies this`journal, this`settlePc, around
      ensures Now() == DoSaveSettle(old(Value()), old(around.env), fault)
    {
      if !settlePc.Saving? {
        return;
      }
      var next := settlePc.then_;
      var answer := Persist(fault);
      settlePc := if answer.Resolved? then next else SettleIdle;
    }

    // --- the calls -----------------------------------------------------------------------------------------------------------

    method LockSegment(policy: Policy, action: LockAction)
      modifies this, around
      ensures Now() == DoLock(policy, old(Value()), old(around.env), action)
    {
      match action {
        case StartLock => StartLock(policy);
        case ReadGuardNote => ReadGuardNote();
        case PrepareFirst(accounts, marker) => PrepareFirstLock(accounts, marker);
        case SaveLock(fault) => SaveLock(fault);
        case Send(outcome) => SendLock(policy, outcome);
        case StartRecover => StartRecover();
        case Recover(answer) => RecoverLock(policy, answer);
        case Reread(found) => RereadLock(policy, found);
        case Resend(answer) => ResendLock(answer);
        case PrepareFresh => PrepareFreshLock();
        case LockReadFails => FailLockRead();
      }
    }

    method SettleSegment(action: SettleAction)
      modifies this, around
      ensures Now() == DoSettle(old(Value()), old(around.env), action)
    {
      match action {
        case StartClaim(secret) => StartClaim(secret);
        case CallNote(call) => CallNote(call);
        case ReadBack => ReadBackNote();
        case SeeLegAClaimed => SeeLegAClaimed();
        case StartRefund => StartRefund();
        case ReadNote => SettleClaimAttempt();
        case CheckPending(claimSeen) => CheckPendingClaim(claimSeen);
        case AskAbsence => AskAbsence();
        case CheckAbsence(answer) => CheckLockAbsence(answer);
        case RecoverRefund(answer) => RecoverRefund(answer);
        case Intend => IntendRefund();
        case CallRefund(signedTx) => CallRefund(signedTx);
        case FinishRefund(outcome) => FinishRefund(outcome);
        case SettleReadFails => FailSettleRead();
        case SaveSettle(fault) => SaveSettle(fault);
      }
    }

    /** `lockLegA`: a fresh lock or the recovery of an attempted one, segment by segment. */
    method LockLegA(policy: Policy, answers: LockAnswers)
      modifies this, around
      ensures Now() == DoLocks(policy, old(Value()), old(around.env), LockSteps(answers))
    {
      var steps := LockSteps(answers);
      RunLocks(policy, steps);
    }

    method RunLocks(policy: Policy, steps: seq<LockAction>)
      modifies this, around
      ensures Now() == DoLocks(policy, old(Value()), old(around.env), steps)
    {
      var k := 0;
      assert steps[k..] == steps;
      while k < |steps|
        invariant 0 <= k <= |steps|
        invariant DoLocks(policy, Value(), around.env, steps[k..]) == DoLocks(policy, old(Value()), old(around.env), steps)
      {
        LockTail(policy, Value(), around.env, steps, k);
        LockSegment(policy, steps[k]);
        k := k + 1;
      }
    }

    /** `claimLegB`, up to its frames. */
    method ClaimLegB(secret: Secret, intent: Fault, call: NoteCall, outcome: Fault)
      modifies this, around
      ensures Now() == DoSettles(old(Value()), old(around.env), ClaimSteps(secret, intent, call, outcome))
    {
      var steps := ClaimSteps(secret, intent, call, outcome);
      RunSettles(steps);
    }

    /** `refundLegA`, up to its frames: the claim attempt, the absence of the lock, the refund's recovery, its intent, its send. */
    method RefundLegA(answers: RefundAnswers)
      modifies this, around
      ensures Now() == DoSettles(old(Value()), old(around.env), RefundSteps(answers))
    {
      var steps := RefundSteps(answers);
      RunSettles(steps);
    }

    method RunSettles(steps: seq<SettleAction>)
      modifies this, around
      ensures Now() == DoSettles(old(Value()), old(around.env), steps)
    {
      var k := 0;
      assert steps[k..] == steps;
      while k < |steps|
        invariant 0 <= k <= |steps|
        invariant DoSettles(Value(), around.env, steps[k..]) == DoSettles(old(Value()), old(around.env), steps)
      {
        SettleTail(Value(), around.env, steps, k);
        SettleSegment(steps[k]);
        k := k + 1;
      }
    }
  }

  // --- a call's segments -------------------------------------------------------------------------------------------------------

  /** What the rail and the store answer to one `lockLegA`. */
  datatype LockAnswers = LockAnswers(
    accounts: nat, marker: nat, recovered: LockAnswer, found: bool, resent: LockAnswer, foundAgain: bool, firstSave: Fault,
    sent: SendOutcome, lastSave: Fault)

  /** Every segment of `lockLegA` in order; one that its call does not reach changes nothing. */
  function LockSteps(a: LockAnswers): seq<LockAction> {
    [BuyerSteps.StartLock, BuyerSteps.ReadGuardNote, PrepareFirst(a.accounts, a.marker), BuyerSteps.StartRecover, Recover(a.recovered),
     Reread(a.found), BuyerSteps.ReadGuardNote, Resend(a.resent), Reread(a.foundAgain), PrepareFresh,
     BuyerSteps.SaveLock(a.firstSave), Send(a.sent), BuyerSteps.SaveLock(a.lastSave)]
  }

  function ClaimSteps(secret: Secret, intent: Fault, call: NoteCall, outcome: Fault): seq<SettleAction> {
    [BuyerSteps.StartClaim(secret), BuyerSteps.SaveSettle(intent), BuyerSteps.CallNote(call), ReadBack,
     BuyerSteps.SaveSettle(outcome)]
  }

  /** What the note, the rail and the store answer to one `refundLegA`. */
  datatype RefundAnswers = RefundAnswers(
    claimSeen: bool, absence: Absence, recovered: RefundAnswer, signedTx: nat, finished: RefundOutcome, confirmed: RefundOutcome,
    saves: Saves)

  type Saves = s: seq<Fault> | |s| == 8 witness [NoFault, NoFault, NoFault, NoFault, NoFault, NoFault, NoFault, NoFault]

  /** Every segment of `refundLegA` in order. */
  function RefundSteps(a: RefundAnswers): seq<SettleAction> {
    [BuyerSteps.StartRefund, ReadNote, BuyerSteps.SaveSettle(a.saves[0]), CheckPending(a.claimSeen), BuyerSteps.SaveSettle(a.saves[1]),
     BuyerSteps.AskAbsence, CheckAbsence(a.absence), BuyerSteps.SaveSettle(a.saves[2]), BuyerSteps.RecoverRefund(a.recovered), BuyerSteps.SaveSettle(a.saves[3]),
     Intend, BuyerSteps.SaveSettle(a.saves[4]), BuyerSteps.CallRefund(a.signedTx), BuyerSteps.SaveSettle(a.saves[5]),
     BuyerSteps.FinishRefund(a.finished), BuyerSteps.SaveSettle(a.saves[6]), BuyerSteps.FinishRefund(a.confirmed),
     BuyerSteps.SaveSettle(a.saves[7])]
  }

  lemma LockTail(policy: Policy, i: Instance, e: Env, steps: seq<LockAction>, k: nat)
    requires k < |steps|
    ensures var r := DoLock(policy, i, e, steps[k]);
            DoLocks(policy, i, e, steps[k..]) == DoLocks(policy, r.inst, r.env, steps[k + 1..])
  {
    assert steps[k..][1..] == steps[k + 1..];
  }

  lemma SettleTail(i: Instance, e: Env, steps: seq<SettleAction>, k: nat)
    requires k < |steps|
    ensures var r := DoSettle(i, e, steps[k]);
            DoSettles(i, e, steps[k..]) == DoSettles(r.inst, r.env, steps[k + 1..])
  {
    assert steps[k..][1..] == steps[k + 1..];
  }

  // --- a call is a run -----------------------------------------------------------------------------------------------------

  function LockRun(id: nat, steps: seq<LockAction>): seq<Event> {
    seq(|steps|, k requires 0 <= k < |steps| => Act(id, OnLock(steps[k])))
  }

  function SettleRun(id: nat, steps: seq<SettleAction>): seq<Event> {
    seq(|steps|, k requires 0 <= k < |steps| => Act(id, OnSettle(steps[k])))
  }

  lemma AfterNext(config: Config, run: seq<Event>, event: Event)
    ensures After(config, run + [event]) == Step(config, After(config, run), event)
  {
    hide Step;
    assert (run + [event])[..|run|] == run;
  }

  lemma ActIs(config: Config, s: System, id: nat, action: Action)
    requires id in s.live
    ensures var r := DoAct(config.policy, s.live[id], s.env, action);
            Step(config, s, Act(id, action)) == System(r.env, s.live[id := r.inst])
  {
    hide DoAct;
  }

  /** The first segment of a call, and the run of the others after it. */
  lemma LockRunIs(run: seq<Event>, id: nat, steps: seq<LockAction>)
    ensures steps == [] ==> run + LockRun(id, steps) == run
    ensures steps != [] ==> run + LockRun(id, steps) == run + [Act(id, OnLock(steps[0]))] + LockRun(id, steps[1..])
  {
  }

  lemma SettleRunIs(run: seq<Event>, id: nat, steps: seq<SettleAction>)
    ensures steps == [] ==> run + SettleRun(id, steps) == run
    ensures steps != [] ==> run + SettleRun(id, steps) == run + [Act(id, OnSettle(steps[0]))] + SettleRun(id, steps[1..])
  {
  }

  /** A `lockLegA` call of a live instance takes the system where the run of its segments does. */
  lemma {:induction false} LockCallIsARun(config: Config, run: seq<Event>, id: nat, steps: seq<LockAction>)
    requires id in After(config, run).live
    ensures var s := After(config, run);
            var r := DoLocks(config.policy, s.live[id], s.env, steps);
            After(config, run + LockRun(id, steps)) == System(r.env, s.live[id := r.inst])
    decreases |steps|
  {
    hide After, Step, DoLock, LockRun;
    LockRunIs(run, id, steps);
    if steps != [] {
      var first := Act(id, OnLock(steps[0]));
      AfterNext(config, run, first);
      ActIs(config, After(config, run), id, first.action);
      LockCallIsARun(config, run + [first], id, steps[1..]);
    }
  }

  /** And so does a `claimLegB` or a `refundLegA`: what holds over every run holds of every call. */
  lemma {:induction false} SettleCallIsARun(config: Config, run: seq<Event>, id: nat, steps: seq<SettleAction>)
    requires id in After(config, run).live
    ensures var s := After(config, run);
            var r := DoSettles(s.live[id], s.env, steps);
            After(config, run + SettleRun(id, steps)) == System(r.env, s.live[id := r.inst])
    decreases |steps|
  {
    hide After, Step, DoSettle, SettleRun;
    SettleRunIs(run, id, steps);
    if steps != [] {
      var first := Act(id, OnSettle(steps[0]));
      AfterNext(config, run, first);
      ActIs(config, After(config, run), id, first.action);
      SettleCallIsARun(config, run + [first], id, steps[1..]);
    }
  }
}
