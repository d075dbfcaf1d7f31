/**
 * What the invariant of `BuyerOutcomes` means, for any number of live instances: a claim of one's own and an adopted one
 * exclude each other, a resume loses nothing, the verdict is final, and the next step named is a sound one.
 */
module BuyerResults {
  import opened Options
  import opened Journal
  import opened BuyerState
  import opened BuyerSteps
  import opened BuyerLocks
  import opened BuyerOutcomes

  // --- claim and refund ------------------------------------------------------------------------------------------------

  /** No flow and no record ever says both that leg B was claimed by this flow and that its claim was adopted. */
  lemma ClaimedAndAdoptedExclude(config: Config, run: seq<Event>)
    ensures var s := After(config, run);
            && (s.env.store.held.Some? ==> !(s.env.store.held.value.body.claim.claimed && s.env.store.held.value.body.claim.adopted))
            && forall id :: id in s.live ==> !(s.live[id].latches.claim.claimed && s.live[id].latches.claim.adopted)
  {
    EveryRunIsGood(config, run);
  }

  /** In any state at all, a claim attempt is cleared only by a step that sees a note no claim can take and no claim is in. */
  lemma AttemptIsClearedOnlyOnADeadNote(policy: Policy, i: Instance, e: Env, action: SettleAction)
    requires i.latches.claim.attempted && !DoSettle(i, e, action).inst.latches.claim.attempted
    ensures var note := DoSettle(i, e, action).env.note;
            && !(note.NoteLocked? && e.nowMs < note.refundAfterMs)
            && (i.settlePc.ReadingNote? && i.latches.pairing.Some? ==>
                  !(note.NoteClaimed? && HashOf(note.secret) == i.latches.pairing.value.statement))
            && (i.settlePc.ReadingBack? ==> !(note.NoteClaimed? && note.secret == i.settlePc.secret))
  {
    match action
    case CallNote(call) =>
    case ReadBack =>
    case ReadNote =>
    case StartClaim(secret) =>
    case SeeLegAClaimed =>
    case StartRefund =>
    case CheckPending(claimSeen) =>
    case AskAbsence =>
    case CheckAbsence(answer) =>
    case RecoverRefund(answer) =>
    case Intend =>
    case CallRefund(signedTx) =>
    case FinishRefund(outcome) =>
    case SettleReadFails =>
    case SaveSettle(fault) =>
  }

  // --- what the store keeps ----------------------------------------------------------------------------------------------

  /** The facts of a record that no save ever takes back. */
  predicate RecordKeeps(r: Record, r': Record) {
    && (r.lock.attempted ==> r'.lock.attempted)
    && (r.lock.evidence.Some? ==> r'.lock.evidence.Some?)
    && (r.lock.neverLanded ==> r'.lock.neverLanded)
    && (r.claim.claimed ==> r'.claim.claimed)
    && (r.refund.attempted ==> r'.refund.attempted)
    && (r.refund.evidence.Some? ==> r'.refund.evidence.Some?)
  }

  predicate StoreKeeps(store: Store<Record>, store': Store<Record>) {
    store.held.Some? ==> store'.held.Some? && RecordKeeps(store.held.value.body, store'.held.value.body)
  }

  lemma SaveKeepsStore(i: Instance, e: Env, body: Record, fault: Fault)
    requires InstOk(i, e) && i.journal.digest == Some(i.journal.current)
    ensures StoreKeeps(e.store, Save(i, e, body, fault).store)
  {
    SaveShape(i, e, body, fault);
  }

  lemma QuietKeepsStore(i: Instance, e: Env, r: Result)
    requires Quiet(i, e, r)
    ensures StoreKeeps(e.store, r.env.store)
  {
  }

  lemma SaveLockKeepsStore(i: Instance, e: Env, fault: Fault)
    requires InstOk(i, e) && i.journal.digest == Some(i.journal.current)
    ensures StoreKeeps(e.store, DoSaveLock(i, e, fault).env.store)
  {
    hide Save, InstOk;
    SaveKeepsStore(i, e, Body(i), fault);
  }

  lemma SendKeepsStore(policy: Policy, i: Instance, e: Env, outcome: SendOutcome)
    ensures DoSend(policy, i, e, outcome).env.store == e.store
  {
  }

  lemma LockKeepsStore(policy: Policy, i: Instance, e: Env, action: LockAction)
    requires InstOk(i, e) && i.journal.digest == Some(i.journal.current)
    ensures StoreKeeps(e.store, DoLock(policy, i, e, action).env.store)
  {
    match action
    case SaveLock(fault) => SaveLockKeepsStore(i, e, fault);
    case Send(outcome) => SendKeepsStore(policy, i, e, outcome);
    case _ => LockStands(policy, i, e, action);
  }

  lemma SaveSettleKeepsStore(i: Instance, e: Env, fault: Fault)
    requires InstOk(i, e) && i.journal.digest == Some(i.journal.current)
    ensures StoreKeeps(e.store, DoSaveSettle(i, e, fault).env.store)
  {
    hide Save, InstOk;
    SaveKeepsStore(i, e, Body(i), fault);
  }

  lemma SettleKeepsStore(i: Instance, e: Env, action: SettleAction)
    requires InstOk(i, e) && i.journal.digest == Some(i.journal.current)
    ensures StoreKeeps(e.store, DoSettle(i, e, action).env.store)
  {
    hide InstOk, StoreKeeps, Save, DoStartClaim, DoCallNote, DoReadBack, DoSeeLegAClaimed, DoStartRefund, DoReadNote, DoCheckPending, DoAskAbsence, DoCheckAbsence, DoRecoverRefund, DoIntend, DoCallRefund, DoFinishRefund, DoSettleReadFails;
    if action.SaveSettle? && i.settlePc.Saving? {
      SaveSettleKeepsStore(i, e, action.fault);
    } else {
      SettleIsQuiet(i, e, action);
      QuietKeepsStore(i, e, DoSettle(i, e, action));
    }
  }

  lemma LineKeepsStore(policy: Policy, i: Instance, e: Env, action: LineAction)
    requires InstOk(i, e) && i.journal.digest == Some(i.journal.current)
    ensures StoreKeeps(e.store, DoLine(policy, i, e, action).env.store)
  {
    if LineReady(policy, i, e, action) {
      LineIsSound(policy, i, e, action);
      LineShape(policy, i, e, action);
      SaveKeepsStore(LineFlow(i, action), e, LineBody(i, action), action.fault);
    }
  }

  lemma ActKeepsStore(policy: Policy, i: Instance, e: Env, action: Action)
    requires InstOk(i, e) && i.journal.digest == Some(i.journal.current)
    ensures StoreKeeps(e.store, DoAct(policy, i, e, action).env.store)
  {
    match action
    case OnLock(lock) => LockKeepsStore(policy, i, e, lock);
    case OnSettle(settle) => SettleKeepsStore(i, e, settle);
    case OnLine(line) => LineKeepsStore(policy, i, e, line);
  }

  lemma BeginKeepsStore(config: Config, s: System, id: nat, offerA: Offer, fault: Fault)
    ensures StoreKeeps(s.env.store, Step(config, s, Begin(id, offerA, fault)).env.store)
  {
    hide FirstSave;
    FirstVersion(s.env, offerA, fault);
  }

  lemma LiveActKeepsStore(config: Config, s: System, id: nat, action: Action)
    requires Good(config, s) && id in s.live
    ensures StoreKeeps(s.env.store, Step(config, s, Act(id, action)).env.store)
  {
    hide EnvInv, EnvOk, InstOk, StoreKeeps, DoAct, LatchedLock, LockPcInv;
    ActKeepsStore(config.policy, s.live[id], s.env, action);
  }

  lemma StepKeepsStore(config: Config, s: System, event: Event)
    requires Good(config, s)
    ensures StoreKeeps(s.env.store, Step(config, s, event).env.store)
  {
    hide Good, DoAct, FirstSave;
    match event
    case Begin(id, offerA, fault) => BeginKeepsStore(config, s, id, offerA, fault);
    case Act(id, action) => if id in s.live { LiveActKeepsStore(config, s, id, action); }
    case _ =>
  }

  /** The record says that no lock of leg A can ever land, or that this flow claimed leg B. */
  predicate RefundBarred(store: Store<Record>) {
    store.held.Some? && (store.held.value.body.lock.neverLanded || store.held.value.body.claim.claimed)
  }

  /** A run that goes on from another. */
  lemma AfterMore(config: Config, run: seq<Event>, more: seq<Event>)
    requires more != []
    ensures After(config, run + more) == Step(config, After(config, run + more[..|more| - 1]), more[|more| - 1])
  {
    hide Step;
    assert (run + more)[..|run + more| - 1] == run + more[..|more| - 1];
  }

  lemma AfterOne(config: Config, run: seq<Event>, event: Event)
    ensures After(config, run + [event]) == Step(config, After(config, run), event)
  {
    hide Step;
    AfterMore(config, run, [event]);
    assert run + [event][..0] == run;
  }

  /** A saved verdict, claim, attempt or evidence stays saved, however the run goes on. */
  lemma {:induction false} BarredForGood(config: Config, run: seq<Event>, more: seq<Event>)
    ensures StoreKeeps(After(config, run).env.store, After(config, run + more).env.store)
    ensures RefundBarred(After(config, run).env.store) ==> RefundBarred(After(config, run + more).env.store)
  {
    if more == [] {
      assert run + more == run;
    } else {
      var front := more[..|more| - 1];
      BarredForGood(config, run, front);
      EveryRunIsGood(config, run + front);
      AfterMore(config, run, more);
      StepKeepsStore(config, After(config, run + front), more[|more| - 1]);
    }
  }

  // --- the verdict -------------------------------------------------------------------------------------------------------

  predicate VerdictSavedIn(store: Store<Record>) {
    store.held.Some? && store.held.value.body.lock.neverLanded
  }

  /** A saved verdict is true for ever: it stays saved, no lock landed, and none ever lands. */
  lemma VerdictIsForGood(config: Config, run: seq<Event>, more: seq<Event>)
    requires VerdictSavedIn(After(config, run).env.store)
    ensures VerdictSavedIn(After(config, run + more).env.store)
    ensures After(config, run + more).env.rail.landed == {}
  {
    BarredForGood(config, run, more);
    EveryRunIsGood(config, run + more);
  }

  /** The deadline policy accepts no lock at or past leg A's refund time. */
  ghost predicate InTime(policy: Policy) {
    forall offerA: Offer, offerB: Offer, atMs: nat {:trigger policy(offerA, offerB, atMs)} :: policy(offerA, offerB, atMs) ==> atMs < offerA.refundAfterMs
  }

  /** The escrow, from leg A's refund time on, as one instance stands before it. */
  ghost predicate TooLate(policy: Policy, i: Instance, e: Env) {
    InTime(policy) && InstOk(i, e) && e.rail.kind.Escrow? && e.nowMs >= Body(i).offerA.refundAfterMs
  }

  /**
   * The deadline check is behind and `prepareLock` ahead, with no further look at the clock in between: for a first lock, or
   * for a fresh one in place of a dead one, whether leg B's note is still to be read or not.
   */
  predicate PastDeadlineCheck(pc: LockPc) {
    pc.Preparing? || pc.Rebuilding? || (pc.Guarding? && !pc.then_.ResendSaved?)
  }

  /** The step hands over nothing, and prepares nothing but for a call already past its deadline check. */
  predicate SendsNothing(i: Instance, e: Env, r: Result) {
    && r.env.rail.sent == e.rail.sent
    && (!PastDeadlineCheck(i.lockPc) ==> r.env.rail.issued == e.rail.issued && !PastDeadlineCheck(r.inst.lockPc))
  }

  lemma LateStartSendsNothing(policy: Policy, i: Instance, e: Env)
    requires TooLate(policy, i, e)
    ensures SendsNothing(i, e, DoStartLock(policy, i, e))
  {
  }

  lemma LateRecoverSendsNothing(policy: Policy, i: Instance, e: Env, answer: LockAnswer)
    requires TooLate(policy, i, e)
    ensures SendsNothing(i, e, DoRecover(policy, i, e, answer))
  {
  }

  lemma LateSendSendsNothing(policy: Policy, i: Instance, e: Env, outcome: SendOutcome)
    requires TooLate(policy, i, e)
    ensures SendsNothing(i, e, DoSend(policy, i, e, outcome))
  {
    if i.lockPc.Sending? {
      assert !policy(i.lockPc.guard.offerA, i.lockPc.guard.pairing.offerB, e.nowMs);
    }
  }

  lemma LateRereadSendsNothing(policy: Policy, i: Instance, e: Env, found: bool)
    requires TooLate(policy, i, e)
    ensures SendsNothing(i, e, DoReread(policy, i, e, found))
  {
  }

  lemma LateResendSendsNothing(policy: Policy, i: Instance, e: Env, answer: LockAnswer)
    requires TooLate(policy, i, e)
    ensures SendsNothing(i, e, DoResend(i, e, answer))
  {
  }

  lemma OtherLockStepsSendNothing(policy: Policy, i: Instance, e: Env, action: LockAction)
    requires action.ReadGuardNote? || action.PrepareFirst? || action.StartRecover? || action.SaveLock? || action.PrepareFresh? || action.LockReadFails?
    ensures SendsNothing(i, e, DoLock(policy, i, e, action))
  {
  }

  lemma LateLockSendsNothing(policy: Policy, i: Instance, e: Env, action: LockAction)
    requires TooLate(policy, i, e)
    ensures SendsNothing(i, e, DoLock(policy, i, e, action))
  {
    hide TooLate, SendsNothing, DoStartLock, DoReadGuardNote, DoPrepareFirst, DoStartRecover, DoSaveLock, DoSend, DoRecover, DoReread, DoResend, DoPrepareFresh, DoLockReadFails;
    match action
    case StartLock => LateStartSendsNothing(policy, i, e);
    case Send(outcome) => LateSendSendsNothing(policy, i, e, outcome);
    case Recover(answer) => LateRecoverSendsNothing(policy, i, e, answer);
    case Reread(found) => LateRereadSendsNothing(policy, i, e, found);
    case Resend(answer) => LateResendSendsNothing(policy, i, e, answer);
    case _ => OtherLockStepsSendNothing(policy, i, e, action);
  }

  lemma OtherStepsLeaveTheLock(policy: Policy, i: Instance, e: Env, action: Action)
    requires !action.OnLock?
    ensures var r := DoAct(policy, i, e, action);
            r.env.rail == e.rail && r.inst.lockPc == i.lockPc
  {
    if action.OnSettle? && !(action.settle.SaveSettle? && i.settlePc.Saving?) {
      SettleIsQuiet(i, e, action.settle);
    }
  }

  lemma LateActSendsNothing(policy: Policy, i: Instance, e: Env, action: Action)
    requires TooLate(policy, i, e)
    ensures SendsNothing(i, e, DoAct(policy, i, e, action))
  {
    match action
    case OnLock(lock) => LateLockSendsNothing(policy, i, e, lock);
    case _ => OtherStepsLeaveTheLock(policy, i, e, action);
  }

  /** No call of `lockLegA` has its deadline check behind it and its `prepareLock` before it. */
  ghost predicate NonePastDeadlineCheck(s: System) {
    forall id :: id in s.live ==> !PastDeadlineCheck(s.live[id].lockPc)
  }

  /** A step after the verdict sends nothing, and prepares nothing where no call is past its deadline check. */
  ghost predicate StaysStopped(s: System, s': System) {
    && s'.env.rail.sent == s.env.rail.sent
    && (NonePastDeadlineCheck(s) ==> NonePastDeadlineCheck(s') && s'.env.rail.issued == s.env.rail.issued)
  }

  lemma VerdictIsTooLate(config: Config, s: System, id: nat)
    requires Good(config, s) && InTime(config.policy) && VerdictSavedIn(s.env.store) && id in s.live
    ensures TooLate(config.policy, s.live[id], s.env)
  {
    assert InstOk(s.live[id], s.env);
  }

  lemma SteppedStaysStopped(s: System, id: nat, r: Result)
    requires id in s.live && SendsNothing(s.live[id], s.env, r)
    ensures StaysStopped(s, System(r.env, s.live[id := r.inst]))
  {
  }

  lemma BeginStaysStopped(config: Config, s: System, id: nat, offerA: Offer, fault: Fault)
    requires s.env.store.held.Some?
    ensures StaysStopped(s, Step(config, s, Begin(id, offerA, fault)))
  {
    FirstVersion(s.env, offerA, fault);
  }

  lemma OutsideStaysStopped(config: Config, s: System, event: WorldEvent)
    ensures StaysStopped(s, Step(config, s, Outside(event)))
  {
  }

  lemma VerdictStepSendsNothing(config: Config, s: System, event: Event)
    requires Good(config, s) && InTime(config.policy) && VerdictSavedIn(s.env.store)
    ensures StaysStopped(s, Step(config, s, event))
  {
    hide Good, TooLate, SendsNothing, DoAct, InTime;
    match event
    case Begin(id, offerA, fault) => BeginStaysStopped(config, s, id, offerA, fault);
    case Act(id, action) =>
      if id in s.live {
        VerdictIsTooLate(config, s, id);
        LateActSendsNothing(config.policy, s.live[id], s.env, action);
        SteppedStaysStopped(s, id, DoAct(config.policy, s.live[id], s.env, action));
      }
    case Outside(outside) => OutsideStaysStopped(config, s, outside);
    case _ =>
  }

  /**
   * After the verdict no lock is ever handed over again, whatever calls were under way; and none is prepared again unless a
   * call stood past its deadline check when the verdict was saved.
   */
  lemma {:induction false} VerdictStopsLocks(config: Config, run: seq<Event>, more: seq<Event>)
    requires InTime(config.policy) && VerdictSavedIn(After(config, run).env.store)
    ensures After(config, run + more).env.rail.sent == After(config, run).env.rail.sent
    ensures NonePastDeadlineCheck(After(config, run)) ==>
              NonePastDeadlineCheck(After(config, run + more)) && After(config, run + more).env.rail.issued == After(config, run).env.rail.issued
  {
    if more == [] {
      assert run + more == run;
    } else {
      var front := more[..|more| - 1];
      VerdictStopsLocks(config, run, front);
      VerdictIsForGood(config, run, front);
      EveryRunIsGood(config, run + front);
      AfterMore(config, run, more);
      VerdictStepSendsNothing(config, After(config, run + front), more[|more| - 1]);
    }
  }

  predicate PreparesAnother(config: Config, run: seq<Event>, more: seq<Event>) {
    After(config, run + more).env.rail.issued != After(config, run).env.rail.issued
  }

  /** What takes a call past its deadline check to its `prepareLock`: the note it waits for, where it does, and the build. */
  function PreparingEvents(id: nat, pc: LockPc): seq<Event> {
    if pc.Preparing? then [Act(id, OnLock(PrepareFirst(0, 0)))]
    else if pc.Rebuilding? then [Act(id, OnLock(PrepareFresh))]
    else if !pc.Guarding? then []
    else [Outside(NoteBecomes(NoteLocked(pc.guard.pairing.statement, pc.guard.pairing.offerB.refundAfterMs))), Act(id, OnLock(ReadGuardNote)),
          Act(id, OnLock(if pc.then_.FirstLock? then PrepareFirst(0, 0) else PrepareFresh))]
  }

  lemma ReadyPrepares(config: Config, s: System, id: nat)
    requires id in s.live && (s.live[id].lockPc.Preparing? || s.live[id].lockPc.Rebuilding?)
    ensures |PreparingEvents(id, s.live[id].lockPc)| == 1
    ensures Step(config, s, PreparingEvents(id, s.live[id].lockPc)[0]).env.rail.issued == s.env.rail.issued + 1
  {
  }

  lemma ReadyMayPrepare(config: Config, run: seq<Event>, id: nat)
    requires var s := After(config, run);
             id in s.live && (s.live[id].lockPc.Preparing? || s.live[id].lockPc.Rebuilding?)
    ensures After(config, run + PreparingEvents(id, After(config, run).live[id].lockPc)).env.rail.issued == After(config, run).env.rail.issued + 1
  {
    hide Step, PreparingEvents;
    ReadyPrepares(config, After(config, run), id);
    var events := PreparingEvents(id, After(config, run).live[id].lockPc);
    assert events == [events[0]];
    AfterOne(config, run, events[0]);
  }

  /** A call that waits for leg B's note goes on when the note reads locked under the swap's own terms. */
  lemma GuardingGoesOn(config: Config, s: System, id: nat)
    requires id in s.live && s.live[id].lockPc.Guarding? && !s.live[id].lockPc.then_.ResendSaved?
    ensures var events := PreparingEvents(id, s.live[id].lockPc);
            |events| == 3
            && var s' := Step(config, Step(config, s, events[0]), events[1]);
               && id in s'.live && s'.env.rail == s.env.rail && (s'.live[id].lockPc.Preparing? || s'.live[id].lockPc.Rebuilding?)
               && PreparingEvents(id, s'.live[id].lockPc) == [events[2]]
  {
  }

  lemma PastDeadlineCheckPrepares(config: Config, run: seq<Event>, id: nat)
    requires id in After(config, run).live && PastDeadlineCheck(After(config, run).live[id].lockPc)
    ensures After(config, run + PreparingEvents(id, After(config, run).live[id].lockPc)).env.rail.issued == After(config, run).env.rail.issued + 1
  {
    hide Step, PreparingEvents;
    var pc := After(config, run).live[id].lockPc;
    if pc.Guarding? {
      var events := PreparingEvents(id, pc);
      GuardingGoesOn(config, After(config, run), id);
      AfterOne(config, run, events[0]);
      AfterOne(config, run + [events[0]], events[1]);
      ReadyMayPrepare(config, run + [events[0]] + [events[1]], id);
      assert run + events == run + [events[0]] + [events[1]] + [events[2]];
    } else {
      ReadyMayPrepare(config, run, id);
    }
  }

  lemma PastDeadlineCheckMayPrepare(config: Config, run: seq<Event>)
    requires !NonePastDeadlineCheck(After(config, run))
    ensures exists more: seq<Event> :: PreparesAnother(config, run, more)
  {
    hide Step, PreparingEvents;
    var id :| id in After(config, run).live && PastDeadlineCheck(After(config, run).live[id].lockPc);
    PastDeadlineCheckPrepares(config, run, id);
    assert PreparesAnother(config, run, PreparingEvents(id, After(config, run).live[id].lockPc));
  }

  /**
   * After the verdict some continuation prepares another lock exactly when a live `lockLegA` call is already past its deadline
   * check: waiting for leg B's note, for the rail, or about to build.
   */
  lemma VerdictStopsPreparingExactly(config: Config, run: seq<Event>)
    requires InTime(config.policy) && VerdictSavedIn(After(config, run).env.store)
    ensures (exists more: seq<Event> :: PreparesAnother(config, run, more)) <==> !NonePastDeadlineCheck(After(config, run))
  {
    if NonePastDeadlineCheck(After(config, run)) {
      forall more: seq<Event> ensures !PreparesAnother(config, run, more) {
        VerdictStopsLocks(config, run, more);
      }
    } else {
      PastDeadlineCheckMayPrepare(config, run);
    }
  }

  // --- saving and resuming -------------------------------------------------------------------------------------------------

  /**
   * A live flow's save with no fault goes through exactly where the flow holds the stored version and has, beside the
   * verdict, neither claimed leg B itself nor recorded the lock as seen: that record is refused by its own encoder, the
   * journal fails, and only a resume goes on.
   */
  lemma SaveGoesThroughExactly(i: Instance, e: Env)
    requires EnvOk(e) && InstOk(i, e) && !i.journal.failed && i.journal.digest == Some(i.journal.current)
    ensures Save(i, e, Body(i), NoFault).answer.Resolved? <==>
              && e.store.held == Some(i.journal.current)
              && !(i.latches.lock.neverLanded && (i.latches.claim.claimed || i.latches.lock.evidence.Some?))
    ensures var w := Save(i, e, Body(i), NoFault);
            w.answer.Threw? ==> w.store == e.store && w.journal.failed
  {
    EncodesUnlessClaimedAfterVerdict(i.latches, Body(i), e);
  }

  /** Every record ever held resumes, and its flow projects back to that very record. */
  lemma ResumeLosesNothing(config: Config, run: seq<Event>)
    requires After(config, run).env.store.held.Some?
    ensures var r := After(config, run).env.store.held.value.body;
            Rebuild(r).Flow? && Project(Rebuild(r).latches, r) == r
  {
    EveryRunIsGood(config, run);
    SavedResumes(After(config, run).env.store.held.value.body, After(config, run).env);
  }

  /** A frame that landed has its flag set in memory too. */
  predicate FlagsLatched(l: Latches, landed: set<Kind>) {
    (LockA in landed ==> l.lock.framePosted) && (ReceiptRefundA in landed ==> l.refund.framesPosted)
  }

  /** The step leaves the ledger and the frame flags alone. */
  predicate LeavesFlags(i: Instance, r: Instance) {
    Body(r).landed == Body(i).landed && r.latches.lock.framePosted == i.latches.lock.framePosted
    && r.latches.refund.framesPosted == i.latches.refund.framesPosted
  }

  lemma SaveLeavesLedger(i: Instance, e: Env, body: Record, fault: Fault)
    ensures var w := Save(i, e, body, fault);
            w.journal.current.body.landed == (if w.answer.Resolved? then body else Body(i)).landed
  {
  }

  lemma StartLockLeavesFlags(policy: Policy, i: Instance, e: Env)
    ensures LeavesFlags(i, DoStartLock(policy, i, e).inst)
  {
  }

  lemma ReadGuardNoteLeavesFlags(i: Instance, e: Env)
    ensures LeavesFlags(i, DoReadGuardNote(i, e).inst)
  {
  }

  lemma PrepareFirstLeavesFlags(i: Instance, e: Env, accounts: nat, marker: nat)
    ensures LeavesFlags(i, DoPrepareFirst(i, e, accounts, marker).inst)
  {
  }

  lemma StartRecoverLeavesFlags(i: Instance, e: Env)
    ensures LeavesFlags(i, DoStartRecover(i, e).inst)
  {
  }

  lemma SaveLockLeavesFlags(i: Instance, e: Env, fault: Fault)
    ensures LeavesFlags(i, DoSaveLock(i, e, fault).inst)
  {
    SaveLeavesLedger(i, e, Body(i), fault);
  }

  lemma SendLeavesFlags(policy: Policy, i: Instance, e: Env, outcome: SendOutcome)
    ensures LeavesFlags(i, DoSend(policy, i, e, outcome).inst)
  {
  }

  lemma RecoverLeavesFlags(policy: Policy, i: Instance, e: Env, answer: LockAnswer)
    ensures LeavesFlags(i, DoRecover(policy, i, e, answer).inst)
  {
  }

  lemma RereadLeavesFlags(policy: Policy, i: Instance, e: Env, found: bool)
    ensures LeavesFlags(i, DoReread(policy, i, e, found).inst)
  {
  }

  lemma ResendLeavesFlags(i: Instance, e: Env, answer: LockAnswer)
    ensures LeavesFlags(i, DoResend(i, e, answer).inst)
  {
  }

  lemma PrepareFreshLeavesFlags(i: Instance, e: Env)
    ensures LeavesFlags(i, DoPrepareFresh(i, e).inst)
  {
  }

  lemma LockReadFailsLeavesFlags(i: Instance, e: Env)
    ensures LeavesFlags(i, DoLockReadFails(i, e).inst)
  {
  }

  lemma LockLeavesFlags(policy: Policy, i: Instance, e: Env, action: LockAction)
    ensures LeavesFlags(i, DoLock(policy, i, e, action).inst)
  {
    match action
    case StartLock => StartLockLeavesFlags(policy, i, e);
    case ReadGuardNote => ReadGuardNoteLeavesFlags(i, e);
    case PrepareFirst(accounts, marker) => PrepareFirstLeavesFlags(i, e, accounts, marker);
    case StartRecover => StartRecoverLeavesFlags(i, e);
    case SaveLock(fault) => SaveLockLeavesFlags(i, e, fault);
    case Send(outcome) => SendLeavesFlags(policy, i, e, outcome);
    case Recover(answer) => RecoverLeavesFlags(policy, i, e, answer);
    case Reread(found) => RereadLeavesFlags(policy, i, e, found);
    case Resend(answer) => ResendLeavesFlags(i, e, answer);
    case PrepareFresh => PrepareFreshLeavesFlags(i, e);
    case LockReadFails => LockReadFailsLeavesFlags(i, e);
  }

  lemma SaveSettleLeavesFlags(i: Instance, e: Env, fault: Fault)
    requires i.settlePc.Saving?
    ensures LeavesFlags(i, DoSaveSettle(i, e, fault).inst)
  {
    SaveLeavesLedger(i, e, Body(i), fault);
  }

  lemma SettleLeavesFlags(i: Instance, e: Env, action: SettleAction)
    ensures LeavesFlags(i, DoSettle(i, e, action).inst)
  {
    match action
    case SaveSettle(fault) => if i.settlePc.Saving? { SaveSettleLeavesFlags(i, e, fault); }
    case _ => SettleIsQuiet(i, e, action);
  }

  lemma LineLatchesFlags(policy: Policy, i: Instance, e: Env, action: LineAction)
    requires FlagsLatched(i.latches, Body(i).landed)
    ensures var r := DoLine(policy, i, e, action).inst;
            FlagsLatched(r.latches, Body(r).landed)
  {
    hide Save, LineReady;
    if LineReady(policy, i, e, action) {
      LineShape(policy, i, e, action);
      SaveLeavesLedger(LineFlow(i, action), e, LineBody(i, action), action.fault);
    }
  }

  ghost predicate AllFlagsLatched(s: System) {
    forall id :: id in s.live ==> FlagsLatched(s.live[id].latches, Body(s.live[id]).landed)
  }

  lemma ActLatchesFlags(policy: Policy, i: Instance, e: Env, action: Action)
    requires FlagsLatched(i.latches, Body(i).landed)
    ensures var r := DoAct(policy, i, e, action).inst;
            FlagsLatched(r.latches, Body(r).landed)
  {
    match action
    case OnLock(lock) => LockLeavesFlags(policy, i, e, lock);
    case OnSettle(settle) => SettleLeavesFlags(i, e, settle);
    case OnLine(line) => LineLatchesFlags(policy, i, e, line);
  }

  lemma BeginLatchesFlags(config: Config, s: System, id: nat, offerA: Offer, fault: Fault)
    requires AllFlagsLatched(s)
    ensures AllFlagsLatched(Step(config, s, Begin(id, offerA, fault)))
  {
    hide FirstSave;
    FirstVersion(s.env, offerA, fault);
  }

  lemma ActStepLatchesFlags(config: Config, s: System, id: nat, action: Action)
    requires AllFlagsLatched(s) && id in s.live
    ensures AllFlagsLatched(Step(config, s, Act(id, action)))
  {
    hide FlagsLatched, DoAct;
    ActLatchesFlags(config.policy, s.live[id], s.env, action);
  }

  lemma ResumeLatchesFlags(config: Config, s: System, id: nat)
    requires AllFlagsLatched(s)
    ensures AllFlagsLatched(Step(config, s, Resume(id)))
  {
    hide Encodable;
  }

  lemma StepLatchesFlags(config: Config, s: System, event: Event)
    requires AllFlagsLatched(s)
    ensures AllFlagsLatched(Step(config, s, event))
  {
    hide FlagsLatched, DoAct, Rebuild, FirstSave;
    match event
    case Begin(id, offerA, fault) => BeginLatchesFlags(config, s, id, offerA, fault);
    case Resume(id) => ResumeLatchesFlags(config, s, id);
    case Act(id, action) => if id in s.live { ActStepLatchesFlags(config, s, id, action); }
    case _ =>
  }

  lemma {:induction false} FlagsAreLatched(config: Config, run: seq<Event>)
    ensures AllFlagsLatched(After(config, run))
  {
    if run != [] {
      var front := run[..|run| - 1];
      FlagsAreLatched(config, front);
      StepLatchesFlags(config, After(config, front), run[|run| - 1]);
    }
  }

  /** Where only one instance may be live, only one is. */
  lemma {:induction false} LoneUnlessMany(config: Config, run: seq<Event>)
    ensures !config.many ==> forall id, other :: id in After(config, run).live && other in After(config, run).live ==> id == other
  {
    if run != [] {
      LoneUnlessMany(config, run[..|run| - 1]);
    }
  }

  lemma SavedFlowNamesTheSameStep(l: Latches, r: Record, e: Env, nowMs: nat)
    requires FlowOk(l, r, e) && Known(r, e) && FlagsLatched(l, r.landed) && Project(l, r) == r
    ensures Rebuild(r).Flow?
    ensures Next(l, r, nowMs) == Next(Rebuild(r).latches, r, nowMs)
            <==> !(AcceptB in r.landed && l.pairing.None? && AcceptBStampedLate(Rebuild(r).latches, r))
  {
    SavedResumes(r, e);
    var l' := Rebuild(r).latches;
    assert l'.lock.framePosted == l.lock.framePosted && l'.claim == l.claim && l'.legBVerified == l.legBVerified;
    assert l'.lock.attempted ==> l.offerA == l'.offerA;
  }

  lemma LiveFlowNamesTheSameStep(config: Config, run: seq<Event>, id: nat, nowMs: nat)
    requires id in After(config, run).live
    requires var i := After(config, run).live[id];
             After(config, run).env.store.held == Some(i.journal.current) && Project(i.latches, Body(i)) == Body(i)
    ensures var i := After(config, run).live[id];
            var r := Body(i);
            && Rebuild(r).Flow?
            && (Next(i.latches, r, nowMs) == Next(Rebuild(r).latches, r, nowMs)
                <==> !(AcceptB in r.landed && i.latches.pairing.None? && AcceptBStampedLate(Rebuild(r).latches, r)))
  {
    hide EnvInv, InstInv, Known, FlowOk, FlagsLatched, SettlePcOk, LockPcOk, Next, Rebuild, AcceptBStampedLate, Step;
    EveryRunIsGood(config, run);
    FlagsAreLatched(config, run);
    var s := After(config, run);
    SavedFlowNamesTheSameStep(s.live[id].latches, Body(s.live[id]), s.env, nowMs);
  }

  /** A crash and a resume leave the world alone, and the instance rebuilt from the stored version. */
  lemma CrashAndResume(config: Config, s: System, id: nat)
    requires id in s.live && s.env.store.held.Some? && Rebuild(s.env.store.held.value.body).Flow?
    requires !config.many ==> forall other :: other in s.live ==> other == id
    ensures var s' := Step(config, Step(config, s, Crash(id)), Resume(id));
            && s'.env == s.env && id in s'.live
            && s'.live[id] == Instance(Opened(s.env.store.held.value), Rebuild(s.env.store.held.value.body).latches, LockIdle, SettleIdle)
  {
  }

  /**
   * A crash and a resume decide the same next step: a live flow that holds the stored version, with its state saved in it,
   * names the step its resumed self names, with exactly one exception. An accept B that landed stamped too late leaves the
   * live flow unpaired, and only the resumed one calls the swap abandoned.
   */
  lemma ResumedFlowNamesTheSameStep(config: Config, run: seq<Event>, id: nat, nowMs: nat)
    requires id in After(config, run).live
    requires var i := After(config, run).live[id];
             After(config, run).env.store.held == Some(i.journal.current) && Project(i.latches, Body(i)) == Body(i)
    ensures var s, s' := After(config, run), After(config, run + [Crash(id), Resume(id)]);
            && id in s'.live && s'.env == s.env && s'.live[id].journal.current == s.live[id].journal.current
            && var (i, i') := (s.live[id], s'.live[id]);
               (Next(i.latches, Body(i), nowMs) == Next(i'.latches, Body(i'), nowMs)
                <==> !(AcceptB in Body(i).landed && i.latches.pairing.None? && AcceptBStampedLate(i'.latches, Body(i))))
  {
    hide Step, Next, Rebuild, AcceptBStampedLate, Project;
    LiveFlowNamesTheSameStep(config, run, id, nowMs);
    LoneUnlessMany(config, run);
    AfterOne(config, run, Crash(id));
    AfterOne(config, run + [Crash(id)], Resume(id));
    assert run + [Crash(id), Resume(id)] == run + [Crash(id)] + [Resume(id)];
    CrashAndResume(config, After(config, run), id);
  }

  // --- the next step -----------------------------------------------------------------------------------------------------

  /** What the step a resumed flow names may rely on, whenever it is taken from then on. */
  ghost predicate StepIsSound(step: NextStep, l: Latches, r: Record, e: Env, nowMs: nat) {
    match step
    case RefundLegA =>
      nowMs >= r.offerA.refundAfterMs && r.lock.attempted && !r.claim.claimed && !r.refund.claimSeen && !r.lock.neverLanded
    case Abandoned => !r.lock.attempted && e.rail.sent == {}
    case LockLegA =>
      && r.legBVerified && AccountA in r.landed && !r.lock.neverLanded && !r.claim.claimed && !r.refund.claimSeen
      && (r.lock.attempted ==> nowMs < r.offerA.refundAfterMs)
    case LearnSecret => (r.lock.attempted && r.lock.evidence.Some?) || r.claim.claimed || r.refund.claimSeen
    case Done => r.lock.neverLanded || ReceiptRefundA in r.landed || LegBDone(l, r)
    case VerifyLegBLocked => AcceptB in r.landed && !r.legBVerified && !r.lock.attempted
    case PostAccountLineA => r.legBVerified && AccountA !in r.landed
    case AcceptLegB => OfferA in r.landed && AcceptB !in r.landed
    case Bid => OfferA !in r.landed
  }

  lemma SentMeansAttempted(policy: Policy, e: Env, s: Sent)
    requires EnvInv(policy, e) && e.store.held.Some? && Known(e.store.held.value.body, e) && s in e.rail.sent
    ensures e.store.held.value.body.lock.attempted
  {
    assert SentWell(policy, e, s);
    var k :| 0 <= k < |e.store.history| && PreparedAt(e.store, k).Some? && PreparedAt(e.store, k).value.tx == s.tx
             && PreparedAt(e.store, k).value.ref == s.ref;
  }

  /** Over every run, at every later time, the step named from the stored record is sound. */
  lemma NextIsSound(config: Config, run: seq<Event>, nowMs: nat)
    requires After(config, run).env.store.held.Some? && After(config, run).env.nowMs <= nowMs
    ensures var e := After(config, run).env;
            var r := e.store.held.value.body;
            Rebuild(r).Flow? && StepIsSound(Next(Rebuild(r).latches, r, nowMs), Rebuild(r).latches, r, e, nowMs)
  {
    hide EnvInv, InstInv, InstOk, Step;
    EveryRunIsGood(config, run);
    var e := After(config, run).env;
    var r := e.store.held.value.body;
    SavedResumes(r, e);
    if s :| s in e.rail.sent {
      SentMeansAttempted(config.policy, e, s);
    }
  }

  /** A claim is known: this flow's own of leg B, or leg A's as it was seen. No refund is left to make. */
  predicate ClaimKnown(r: Record) {
    r.claim.claimed || r.refund.claimSeen
  }

  /** Leg B's receipt landed, and its claim is this flow's own or was adopted with leg A seen claimed. */
  predicate ClaimFinished(r: Record) {
    ReceiptB in r.landed && (r.claim.claimed || (r.claim.adopted && r.refund.claimSeen))
  }

  /** Leg B was verified and leg A's account line stands. */
  predicate ReadyToLock(r: Record) {
    r.legBVerified && AccountA in r.landed
  }

  /** Leg A's lock is recognised and its frame was posted. */
  predicate LockRecognised(r: Record) {
    r.lock.evidence.Some? && r.lock.framePosted
  }

  /** What each step takes, of the stored record and the clock alone. */
  predicate Names(step: NextStep, r: Record, nowMs: nat) {
    var expired := r.pairing.Some? && nowMs >= r.pairing.value.offerB.expiresMs;
    var stampedLate := r.pairing.Some? && r.acceptBStampMs.Some? && r.acceptBStampMs.value >= r.pairing.value.offerB.expiresMs;
    match step
    case Bid => OfferA !in r.landed
    case AcceptLegB => OfferA in r.landed && AcceptB !in r.landed && !expired
    case Abandoned =>
      || (OfferA in r.landed && AcceptB !in r.landed && expired) || (AcceptB in r.landed && !r.legBVerified && stampedLate)
    case VerifyLegBLocked => AcceptB in r.landed && !r.legBVerified && !stampedLate
    case PostAccountLineA => r.legBVerified && AccountA !in r.landed && !r.refund.attempted && !r.lock.neverLanded
    case Done =>
      || r.lock.neverLanded || (r.refund.attempted && ReceiptRefundA in r.landed)
      || (ClaimFinished(r) && (r.refund.attempted || ReadyToLock(r)))
    case RefundLegA =>
      && !r.lock.neverLanded && !ClaimKnown(r)
      && if r.refund.attempted then ReceiptRefundA !in r.landed
         else ReadyToLock(r) && r.lock.attempted && !LockRecognised(r) && nowMs >= r.offerA.refundAfterMs
    case LockLegA =>
      && !r.lock.neverLanded && !ClaimKnown(r) && !r.refund.attempted && ReadyToLock(r) && !LockRecognised(r)
      && (r.lock.attempted ==> nowMs < r.offerA.refundAfterMs)
    case LearnSecret =>
      && !r.lock.neverLanded && !ClaimFinished(r)
      && if r.refund.attempted then ClaimKnown(r) && ReceiptRefundA !in r.landed
         else ReadyToLock(r) && (ClaimKnown(r) || LockRecognised(r))
  }

  lemma RecordNames(r: Record, e: Env, nowMs: nat)
    requires Known(r, e)
    ensures Names(Next(RebuiltLatches(r), r, nowMs), r, nowMs)
  {
    hide RefSaved;
  }

  lemma NamesOne(r: Record, e: Env, nowMs: nat, step: NextStep, other: NextStep)
    requires Known(r, e) && Names(step, r, nowMs) && Names(other, r, nowMs)
    ensures step == other
  {
    hide RefSaved;
  }

  /**
   * The next step, exactly: over every run and at any time, the flow rebuilt from the stored record names a step if and only
   * if what that step takes is there. A finished claim of leg B is done where leg B was verified and the account line stands,
   * or a refund of leg A was attempted; before that the step left out is still named.
   */
  lemma NextIsExactly(config: Config, run: seq<Event>, nowMs: nat, step: NextStep)
    requires After(config, run).env.store.held.Some?
    ensures var r := After(config, run).env.store.held.value.body;
            Rebuild(r).Flow? && (Next(Rebuild(r).latches, r, nowMs) == step <==> Names(step, r, nowMs))
  {
    hide EnvInv, InstInv, InstOk, Step, Names, Known, Next;
    EveryRunIsGood(config, run);
    var e := After(config, run).env;
    var r := e.store.held.value.body;
    SavedResumes(r, e);
    RebuiltIs(r);
    RecordNames(r, e, nowMs);
    if Names(step, r, nowMs) {
      NamesOne(r, e, nowMs, step, Next(RebuiltLatches(r), r, nowMs));
    }
  }

  /** A resumed flow told to refund leg A gets past every check `refundLegA` makes before it reads the chain. */
  lemma RefundNamedMayStart(config: Config, run: seq<Event>, nowMs: nat)
    requires After(config, run).env.store.held.Some? && After(config, run).env.nowMs <= nowMs
    ensures var e := After(config, run).env;
            var r := e.store.held.value.body;
            && Rebuild(r).Flow?
            && var flow := Instance(Opened(e.store.held.value), Rebuild(r).latches, LockIdle, SettleIdle);
               (Next(flow.latches, r, nowMs) == RefundLegA ==> Refunds(DoStartRefund(flow, e.(nowMs := nowMs)).inst.settlePc))
  {
    EveryRunIsGood(config, run);
    NextIsSound(config, run, nowMs);
    SavedResumes(After(config, run).env.store.held.value.body, After(config, run).env);
  }
}
