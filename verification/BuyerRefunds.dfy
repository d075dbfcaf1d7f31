/**
 * When the rail's refund is called. With any number of live instances: only over a record that has the refund's intent and
 * the lock in it, and, once the record bars a refund, exactly by the instances already at their call. With one live
 * instance at a time: never over a record that bars it. `BuyerExamples` has the run of two instances that does otherwise.
 */
module BuyerRefunds {
  import opened Options
  import opened Journal
  import opened BuyerState
  import opened BuyerSteps
  import opened BuyerLocks
  import opened BuyerOutcomes
  import opened BuyerResults

  /** The refund's intent is durable: latched, and no longer on its way to its save. */
  predicate IntentSaved(pc: SettlePc) {
    IntentLatched(pc) && !(pc.Saving? && pc.then_.Refunding?)
  }

  /** The record says that a refund is under way, of a lock that was attempted and, on the escrow, seen. */
  predicate IntentIn(r: Record, kind: RailKind) {
    && r.refund.attempted && r.lock.attempted
    && (kind.Escrow? ==> r.lock.evidence.Some? || r.refund.evidence.Some?)
  }

  predicate Barred(r: Record) {
    r.lock.neverLanded || r.claim.claimed
  }

  // --- what each step may do to a refund -----------------------------------------------------------------------------------

  /** What is latched stays latched, and the prepared lock keeps its ref. */
  predicate Forward(l: Latches, l': Latches) {
    && (l.lock.attempted ==> l'.lock.attempted) && (l.lock.neverLanded ==> l'.lock.neverLanded)
    && (l.lock.evidence.Some? ==> l'.lock.evidence.Some?)
    && (l.claim.claimed ==> l'.claim.claimed)
    && (l.refund.attempted ==> l'.refund.attempted) && (l.refund.evidence.Some? ==> l'.refund.evidence.Some?)
    && (l.lock.prepared.Some? && l.lock.attempted ==>
          l'.lock.prepared.Some? && l'.lock.prepared.value.ref == l.lock.prepared.value.ref)
  }

  /** The step of a lock call that saves nothing. */
  predicate LockForward(i: Instance, e: Env, r: Result) {
    && r.inst.settlePc == i.settlePc && Forward(i.latches, r.inst.latches)
    && r.env.store == e.store && r.env.rail.kind == e.rail.kind && r.env.refundCalls == e.refundCalls
  }

  lemma StartLockForward(policy: Policy, i: Instance, e: Env)
    ensures LockForward(i, e, DoStartLock(policy, i, e))
  {
  }

  lemma ReadGuardNoteForward(i: Instance, e: Env)
    ensures LockForward(i, e, DoReadGuardNote(i, e))
  {
  }

  lemma PrepareFirstForward(policy: Policy, i: Instance, e: Env, accounts: nat, marker: nat)
    requires InstInv(policy, i, e)
    ensures LockForward(i, e, DoPrepareFirst(i, e, accounts, marker))
  {
  }

  lemma SendForward(policy: Policy, i: Instance, e: Env, outcome: SendOutcome)
    requires InstInv(policy, i, e)
    ensures LockForward(i, e, DoSend(policy, i, e, outcome))
  {
    hide LockPcInv, DeadlinesSafe, MayLand;
  }

  lemma StartRecoverForward(i: Instance, e: Env)
    ensures LockForward(i, e, DoStartRecover(i, e))
  {
  }

  lemma RecoverForward(policy: Policy, i: Instance, e: Env, answer: LockAnswer)
    ensures LockForward(i, e, DoRecover(policy, i, e, answer))
  {
  }

  lemma RereadForward(policy: Policy, i: Instance, e: Env, found: bool)
    ensures LockForward(i, e, DoReread(policy, i, e, found))
  {
  }

  lemma ResendForward(i: Instance, e: Env, answer: LockAnswer)
    ensures LockForward(i, e, DoResend(i, e, answer))
  {
  }

  lemma PrepareFreshForward(policy: Policy, i: Instance, e: Env)
    requires InstInv(policy, i, e)
    ensures LockForward(i, e, DoPrepareFresh(i, e))
  {
  }

  lemma LockReadFailsForward(i: Instance, e: Env)
    ensures LockForward(i, e, DoLockReadFails(i, e))
  {
  }

  lemma LockForwards(policy: Policy, i: Instance, e: Env, action: LockAction)
    requires InstInv(policy, i, e) && !action.SaveLock?
    ensures LockForward(i, e, DoLock(policy, i, e, action))
  {
    hide InstInv, LockForward, DoStartLock, DoReadGuardNote, DoPrepareFirst, DoStartRecover, DoSaveLock, DoSend, DoRecover, DoReread, DoResend, DoPrepareFresh, DoLockReadFails;
    match action
    case StartLock => StartLockForward(policy, i, e);
    case ReadGuardNote => ReadGuardNoteForward(i, e);
    case PrepareFirst(accounts, marker) => PrepareFirstForward(policy, i, e, accounts, marker);
    case Send(outcome) => SendForward(policy, i, e, outcome);
    case StartRecover => StartRecoverForward(i, e);
    case Recover(answer) => RecoverForward(policy, i, e, answer);
    case Reread(found) => RereadForward(policy, i, e, found);
    case Resend(answer) => ResendForward(i, e, answer);
    case PrepareFresh => PrepareFreshForward(policy, i, e);
    case LockReadFails => LockReadFailsForward(i, e);
  }

  /** The step of a claim or a refund that saves nothing: only an instance at its refund's call makes one. */
  predicate SettleForward(i: Instance, e: Env, r: Result) {
    && Forward(i.latches, r.inst.latches)
    && !r.inst.settlePc.Refunding? && (IntentSaved(r.inst.settlePc) ==> IntentSaved(i.settlePc))
    && r.env.store == e.store && r.env.rail.kind == e.rail.kind
    && r.env.refundCalls == if i.settlePc.Refunding? && r != Result(i, e) then e.refundCalls + [RefundCall(StoredRecord(e))] else e.refundCalls
  }

  /** The step was taken, or nothing changed. */
  predicate SettleMay(i: Instance, e: Env, r: Result) {
    r == Result(i, e) || SettleForward(i, e, r)
  }

  lemma StartClaimForward(i: Instance, e: Env, secret: Secret)
    ensures SettleMay(i, e, DoStartClaim(i, e, secret))
  {
  }

  lemma CallNoteForward(i: Instance, e: Env, call: NoteCall)
    ensures SettleMay(i, e, DoCallNote(i, e, call))
  {
  }

  lemma ReadBackForward(i: Instance, e: Env)
    ensures SettleMay(i, e, DoReadBack(i, e))
  {
  }

  lemma SeeLegAClaimedForward(i: Instance, e: Env)
    ensures SettleMay(i, e, DoSeeLegAClaimed(i, e))
  {
  }

  lemma StartRefundForward(i: Instance, e: Env)
    ensures SettleMay(i, e, DoStartRefund(i, e))
  {
  }

  lemma ReadNoteForward(i: Instance, e: Env)
    ensures SettleMay(i, e, DoReadNote(i, e))
  {
  }

  lemma CheckPendingForward(i: Instance, e: Env, claimSeen: bool)
    ensures SettleMay(i, e, DoCheckPending(i, e, claimSeen))
  {
  }

  lemma AskAbsenceForward(i: Instance, e: Env)
    ensures SettleMay(i, e, DoAskAbsence(i, e))
  {
  }

  lemma CheckAbsenceForward(i: Instance, e: Env, answer: Absence)
    ensures SettleMay(i, e, DoCheckAbsence(i, e, answer))
  {
  }

  /** A live flow whose refund got this far knows the lock by its ref. */
  lemma RefundKnowsTheLock(i: Instance, e: Env)
    requires InstOk(i, e) && PastAbsence(i.settlePc)
    ensures i.latches.lock.railRef.Some?
  {
  }

  lemma RecoverRefundForward(i: Instance, e: Env, answer: RefundAnswer)
    ensures SettleMay(i, e, DoRecoverRefund(i, e, answer))
  {
  }

  lemma IntendForward(i: Instance, e: Env)
    ensures SettleMay(i, e, DoIntend(i, e))
  {
  }

  lemma CallRefundForward(i: Instance, e: Env, signedTx: nat)
    ensures SettleMay(i, e, DoCallRefund(i, e, signedTx))
  {
  }

  lemma FinishRefundForward(i: Instance, e: Env, outcome: RefundOutcome)
    requires InstOk(i, e)
    ensures SettleMay(i, e, DoFinishRefund(i, e, outcome))
  {
    if i.settlePc.SendingRefund? {
      RefundKnowsTheLock(i, e);
    }
  }

  lemma SettleReadFailsForward(i: Instance, e: Env)
    ensures SettleMay(i, e, DoSettleReadFails(i, e))
  {
  }

  lemma SettleForwards(i: Instance, e: Env, action: SettleAction)
    requires InstOk(i, e) && !(action.SaveSettle? && i.settlePc.Saving?)
    ensures SettleMay(i, e, DoSettle(i, e, action))
  {
    hide InstOk, SettleMay, DoStartClaim, DoCallNote, DoReadBack, DoSeeLegAClaimed, DoStartRefund, DoReadNote, DoCheckPending, DoAskAbsence, DoCheckAbsence, DoRecoverRefund, DoIntend, DoCallRefund, DoFinishRefund, DoSettleReadFails;
    match action
    case StartClaim(secret) => StartClaimForward(i, e, secret);
    case CallNote(call) => CallNoteForward(i, e, call);
    case ReadBack => ReadBackForward(i, e);
    case SeeLegAClaimed => SeeLegAClaimedForward(i, e);
    case StartRefund => StartRefundForward(i, e);
    case ReadNote => ReadNoteForward(i, e);
    case CheckPending(claimSeen) => CheckPendingForward(i, e, claimSeen);
    case AskAbsence => AskAbsenceForward(i, e);
    case CheckAbsence(answer) => CheckAbsenceForward(i, e, answer);
    case RecoverRefund(answer) => RecoverRefundForward(i, e, answer);
    case Intend => IntendForward(i, e);
    case CallRefund(signedTx) => CallRefundForward(i, e, signedTx);
    case FinishRefund(outcome) => FinishRefundForward(i, e, outcome);
    case SettleReadFails => SettleReadFailsForward(i, e);
    case SaveSettle(fault) => SaveSettleElsewhere(i, e, fault);
  }

  lemma SaveSettleElsewhere(i: Instance, e: Env, fault: Fault)
    requires !i.settlePc.Saving?
    ensures SettleMay(i, e, DoSaveSettle(i, e, fault))
  {
  }

  // --- any number of instances: a saved intent stays in the store ------------------------------------------------------------

  predicate IntentStands(pc: SettlePc, store: Store<Record>, kind: RailKind) {
    IntentSaved(pc) ==> store.held.Some? && IntentIn(store.held.value.body, kind)
  }

  ghost predicate CallsAreIntended(e: Env) {
    forall k :: 0 <= k < |e.refundCalls| ==> IntentIn(e.refundCalls[k].stored, e.rail.kind)
  }

  ghost predicate Intended(s: System) {
    CallsAreIntended(s.env) && forall id :: id in s.live ==> IntentStands(s.live[id].settlePc, s.env.store, s.env.rail.kind)
  }

  /** Where one step got: its own intent stands, and its calls were intended. */
  ghost predicate IntendedResult(r: Result) {
    CallsAreIntended(r.env) && IntentStands(r.inst.settlePc, r.env.store, r.env.rail.kind)
  }

  lemma IntentStays(pc: SettlePc, store: Store<Record>, store': Store<Record>, kind: RailKind)
    requires IntentStands(pc, store, kind) && StoreKeeps(store, store')
    ensures IntentStands(pc, store', kind)
  {
  }

  /** A record written while an intent is latched has it, and bars nothing. */
  lemma LatchedIntentIsIn(i: Instance, e: Env, body: Record)
    requires RefundPcOk(i.settlePc, i.latches, e) && IntentLatched(i.settlePc)
    ensures IntentIn(Project(i.latches, body), e.rail.kind) && !Barred(Project(i.latches, body))
  {
  }

  lemma SaveSettleIntends(policy: Policy, i: Instance, e: Env, fault: Fault)
    requires InstInv(policy, i, e) && InstOk(i, e) && i.settlePc.Saving?
    requires CallsAreIntended(e) && IntentStands(i.settlePc, e.store, e.rail.kind)
    ensures IntendedResult(DoSaveSettle(i, e, fault))
  {
    hide InstInv, EnvInv, InstOk, CallsAreIntended, IntentIn, StoreKeeps, Save, DoSaveSettle;
    HoldsItsDigest(policy, i, e);
    SettlesWell(i, e);
    SaveKeepsStore(i, e, Body(i), fault);
    IntentStays(i.settlePc, e.store, Save(i, e, Body(i), fault).store, e.rail.kind);
    SaveShape(i, e, Body(i), fault);
    SaveSettleShape(i, e, fault);
    if IntentLatched(i.settlePc) {
      LatchedIntentIsIn(i, e, Body(i));
    }
    SaveCallsNothing(i, e, fault);
  }

  lemma SettlesWell(i: Instance, e: Env)
    requires InstOk(i, e)
    ensures RefundPcOk(i.settlePc, i.latches, e) && (i.settlePc.Saving? ==> !i.settlePc.then_.Saving?)
  {
  }

  lemma SaveCallsNothing(i: Instance, e: Env, fault: Fault)
    requires CallsAreIntended(e)
    ensures CallsAreIntended(DoSaveSettle(i, e, fault).env)
    ensures DoSaveSettle(i, e, fault).env.refundCalls == e.refundCalls
  {
  }

  lemma ForwardIntends(i: Instance, e: Env, r: Result)
    requires CallsAreIntended(e) && IntentStands(i.settlePc, e.store, e.rail.kind) && SettleMay(i, e, r)
    ensures IntendedResult(r)
  {
  }

  lemma SettleIntends(policy: Policy, i: Instance, e: Env, action: SettleAction)
    requires InstInv(policy, i, e) && InstOk(i, e)
    requires CallsAreIntended(e) && IntentStands(i.settlePc, e.store, e.rail.kind)
    ensures IntendedResult(DoSettle(i, e, action))
  {
    hide InstInv, EnvInv, InstOk, CallsAreIntended, IntentStands, SettleMay, IntendedResult, DoStartClaim, DoCallNote, DoReadBack, DoSeeLegAClaimed, DoStartRefund, DoReadNote, DoCheckPending, DoAskAbsence, DoCheckAbsence, DoRecoverRefund, DoIntend, DoCallRefund, DoFinishRefund, DoSettleReadFails, DoSaveSettle;
    if action.SaveSettle? && i.settlePc.Saving? {
      SaveSettleIntends(policy, i, e, action.fault);
    } else {
      SettleForwards(i, e, action);
      ForwardIntends(i, e, DoSettle(i, e, action));
    }
  }

  lemma SaveLockKeepsTheRefund(i: Instance, e: Env, fault: Fault)
    ensures var r := DoSaveLock(i, e, fault);
            r.inst.settlePc == i.settlePc && r.env.refundCalls == e.refundCalls && r.env.rail.kind == e.rail.kind
  {
    hide Save;
  }

  lemma LineKeepsTheRefund(policy: Policy, i: Instance, e: Env, action: LineAction)
    ensures var r := DoLine(policy, i, e, action);
            r.inst.settlePc == i.settlePc && r.env.refundCalls == e.refundCalls && r.env.rail.kind == e.rail.kind
  {
    hide Save, LineReady, LatchedAfter, LatchedBefore, LineBody;
  }

  /** Neither a lock call nor a line moves a refund, whatever it saves. */
  lemma OtherActsKeepTheRefund(policy: Policy, i: Instance, e: Env, action: Action)
    requires InstInv(policy, i, e) && !action.OnSettle?
    ensures var r := DoAct(policy, i, e, action);
            r.inst.settlePc == i.settlePc && r.env.refundCalls == e.refundCalls && r.env.rail.kind == e.rail.kind
  {
    hide InstInv, Forward, DoStartLock, DoReadGuardNote, DoPrepareFirst, DoStartRecover, DoSaveLock, DoSend, DoRecover, DoReread, DoResend, DoPrepareFresh, DoLockReadFails, DoLine;
    match action
    case OnLock(lock) => if lock.SaveLock? { SaveLockKeepsTheRefund(i, e, lock.fault); } else { LockForwards(policy, i, e, lock); }
    case OnLine(line) => LineKeepsTheRefund(policy, i, e, line);
  }

  lemma ActIntends(policy: Policy, i: Instance, e: Env, action: Action)
    requires InstInv(policy, i, e) && InstOk(i, e)
    requires CallsAreIntended(e) && IntentStands(i.settlePc, e.store, e.rail.kind)
    ensures IntendedResult(DoAct(policy, i, e, action))
  {
    hide InstInv, EnvInv, InstOk, DoLock, DoSettle, DoLine, StoreKeeps, IntentIn;
    match action
    case OnSettle(settle) => SettleIntends(policy, i, e, settle);
    case _ =>
      HoldsItsDigest(policy, i, e);
      ActKeepsStore(policy, i, e, action);
      OtherActsKeepTheRefund(policy, i, e, action);
      IntentStays(i.settlePc, e.store, DoAct(policy, i, e, action).env.store, e.rail.kind);
  }

  lemma ActStepIntends(config: Config, s: System, id: nat, action: Action)
    requires Good(config, s) && Intended(s) && id in s.live
    ensures Intended(Step(config, s, Act(id, action)))
  {
    hide InstInv, EnvInv, EnvOk, InstOk, DoAct, StoreKeeps, CallsAreIntended, IntentStands;
    ActIntends(config.policy, s.live[id], s.env, action);
    LiveActKeepsStore(config, s, id, action);
    OneKind(config, s, Act(id, action));
    var s' := Step(config, s, Act(id, action));
    forall other | other in s'.live && other != id ensures IntentStands(s'.live[other].settlePc, s'.env.store, s'.env.rail.kind) {
      IntentStays(s.live[other].settlePc, s.env.store, s'.env.store, s.env.rail.kind);
    }
  }

  lemma OneKind(config: Config, s: System, event: Event)
    requires Inv(config, s)
    ensures Step(config, s, event).env.rail.kind == s.env.rail.kind
  {
    hide EnvInv, InstInv, Step;
    StepKeepsInv(config, s, event);
  }

  lemma BeginIntends(config: Config, s: System, id: nat, offerA: Offer, fault: Fault)
    requires Intended(s)
    ensures Intended(Step(config, s, Begin(id, offerA, fault)))
  {
    hide FirstSave, StoreKeeps, IntentIn;
    FirstVersion(s.env, offerA, fault);
  }

  lemma StepIntends(config: Config, s: System, event: Event)
    requires Good(config, s) && Intended(s)
    ensures Intended(Step(config, s, event))
  {
    hide Good, DoAct, FirstSave;
    match event
    case Begin(id, offerA, fault) => BeginIntends(config, s, id, offerA, fault);
    case Act(id, action) => if id in s.live { ActStepIntends(config, s, id, action); }
    case _ =>
  }

  lemma {:induction false} EveryRunIntends(config: Config, run: seq<Event>)
    ensures Intended(After(config, run))
  {
    if run != [] {
      EveryRunIntends(config, run[..|run| - 1]);
      EveryRunIsGood(config, run[..|run| - 1]);
      StepIntends(config, After(config, run[..|run| - 1]), run[|run| - 1]);
    }
  }

  // --- any number of instances: once the record bars a refund ----------------------------------------------------------------

  ghost predicate NoneRefunding(s: System) {
    forall id :: id in s.live ==> !s.live[id].settlePc.Refunding?
  }

  /** No refund is called, and no instance comes to its call. */
  predicate KeepsFromRefunding(i: Instance, e: Env, r: Result) {
    !i.settlePc.Refunding? ==> !r.inst.settlePc.Refunding? && r.env.refundCalls == e.refundCalls
  }

  lemma SaveWonOnItsOwn(i: Instance, e: Env, body: Record, fault: Fault)
    requires i.journal.digest == Some(i.journal.current) && Save(i, e, body, fault).answer.Resolved?
    ensures e.store.held == Some(i.journal.current)
  {
    SaveShape(i, e, body, fault);
  }

  /** A flow on its way to its refund does not hold a version that bars it, so its save loses. */
  lemma BarredSaveLoses(policy: Policy, i: Instance, e: Env, fault: Fault)
    requires InstInv(policy, i, e) && InstOk(i, e) && RefundBarred(e.store) && Refunds(i.settlePc)
    ensures !Save(i, e, Body(i), fault).answer.Resolved?
  {
    hide InstInv, EnvInv, Save;
    HoldsItsDigest(policy, i, e);
    SaveShape(i, e, Body(i), fault);
    if Save(i, e, Body(i), fault).answer.Resolved? {
      SaveWonOnItsOwn(i, e, Body(i), fault);
    }
  }

  lemma BarredSettleKeepsFrom(policy: Policy, i: Instance, e: Env, action: SettleAction)
    requires InstInv(policy, i, e) && InstOk(i, e) && RefundBarred(e.store)
    ensures KeepsFromRefunding(i, e, DoSettle(i, e, action))
  {
    hide InstInv, EnvInv, InstOk, RefundBarred, Forward, Save, DoStartClaim, DoCallNote, DoReadBack, DoSeeLegAClaimed, DoStartRefund, DoReadNote, DoCheckPending, DoAskAbsence, DoCheckAbsence, DoRecoverRefund, DoIntend, DoCallRefund, DoFinishRefund, DoSettleReadFails, DoSaveSettle;
    if action.SaveSettle? && i.settlePc.Saving? {
      SaveSettleShape(i, e, action.fault);
      if i.settlePc.then_.Refunding? {
        BarredSaveLoses(policy, i, e, action.fault);
      }
    } else {
      SettleForwards(i, e, action);
    }
  }

  lemma BarredActKeepsFrom(policy: Policy, i: Instance, e: Env, action: Action)
    requires InstInv(policy, i, e) && InstOk(i, e) && RefundBarred(e.store)
    ensures KeepsFromRefunding(i, e, DoAct(policy, i, e, action))
  {
    hide InstInv, EnvInv, InstOk, RefundBarred, DoLock, DoSettle, DoLine;
    match action
    case OnSettle(settle) => BarredSettleKeepsFrom(policy, i, e, settle);
    case _ => OtherActsKeepTheRefund(policy, i, e, action);
  }

  lemma BarredStepKeepsFrom(config: Config, s: System, event: Event)
    requires Good(config, s) && RefundBarred(s.env.store) && NoneRefunding(s)
    ensures NoneRefunding(Step(config, s, event)) && Step(config, s, event).env.refundCalls == s.env.refundCalls
  {
    hide EnvInv, InstInv, EnvOk, InstOk, DoAct, FirstSave;
    match event
    case Begin(id, offerA, fault) => FirstVersion(s.env, offerA, fault);
    case Act(id, action) => if id in s.live { BarredActKeepsFrom(config.policy, s.live[id], s.env, action); }
    case _ =>
  }

  lemma {:induction false} BarredRunCallsNoRefund(config: Config, run: seq<Event>, more: seq<Event>)
    requires RefundBarred(After(config, run).env.store) && NoneRefunding(After(config, run))
    ensures NoneRefunding(After(config, run + more))
    ensures After(config, run + more).env.refundCalls == After(config, run).env.refundCalls
  {
    hide Good, Step, RefundBarred, NoneRefunding;
    if more == [] {
      assert run + more == run;
    } else {
      var front := more[..|more| - 1];
      BarredRunCallsNoRefund(config, run, front);
      BarredForGood(config, run, front);
      EveryRunIsGood(config, run + front);
      AfterMore(config, run, more);
      BarredStepKeepsFrom(config, After(config, run + front), more[|more| - 1]);
    }
  }

  predicate CallsARefund(config: Config, run: seq<Event>, more: seq<Event>) {
    After(config, run + more).env.refundCalls != After(config, run).env.refundCalls
  }

  lemma RefundingCalls(config: Config, s: System, id: nat)
    requires id in s.live && s.live[id].settlePc.Refunding?
    ensures |Step(config, s, Act(id, OnSettle(CallRefund(0)))).env.refundCalls| == |s.env.refundCalls| + 1
  {
  }

  lemma RefundingMayCall(config: Config, run: seq<Event>)
    requires !NoneRefunding(After(config, run))
    ensures exists more: seq<Event> :: CallsARefund(config, run, more)
  {
    hide Step;
    var id :| id in After(config, run).live && After(config, run).live[id].settlePc.Refunding?;
    var event := Act(id, OnSettle(CallRefund(0)));
    AfterOne(config, run, event);
    RefundingCalls(config, After(config, run), id);
    assert CallsARefund(config, run, [event]);
  }

  // --- what it means -------------------------------------------------------------------------------------------------------

  /**
   * Every call of the rail's refund, with any number of live instances, was made while the store held a record with the
   * refund's intent saved, the lock attempted, and on the escrow the lock seen landed.
   */
  lemma RefundsAreCalledOnSavedIntents(config: Config, run: seq<Event>, k: nat)
    requires k < |After(config, run).env.refundCalls|
    ensures var r := After(config, run).env.refundCalls[k].stored;
            && r.refund.attempted && r.lock.attempted
            && (config.kind.Escrow? ==> r.lock.evidence.Some? || r.refund.evidence.Some?)
  {
    EveryRunIntends(config, run);
    EveryRunKeepsInv(config, run);
  }

  /**
   * Once a verdict or an own claim of leg B is saved, some continuation calls the rail's refund exactly when a live
   * instance already stands at its call: its intent's save won before.
   */
  lemma BarredCallsARefundExactly(config: Config, run: seq<Event>)
    requires RefundBarred(After(config, run).env.store)
    ensures (exists more: seq<Event> :: CallsARefund(config, run, more))
            <==> exists id :: id in After(config, run).live && After(config, run).live[id].settlePc.Refunding?
  {
    hide Step, RefundBarred;
    if NoneRefunding(After(config, run)) {
      forall more: seq<Event> ensures !CallsARefund(config, run, more) {
        BarredRunCallsNoRefund(config, run, more);
      }
    } else {
      RefundingMayCall(config, run);
    }
  }

  // --- one live instance at a time -----------------------------------------------------------------------------------------

  /** The store is never ahead of the one flow there is, and no refund was called over a record that bars it. */
  ghost predicate Lone(s: System) {
    && (forall k :: 0 <= k < |s.env.refundCalls| ==> !Barred(s.env.refundCalls[k].stored))
    && (forall id :: id in s.live ==> s.env.store.held.Some? && NotAhead(s.env.store.held.value.body, s.live[id].latches))
  }

  lemma StillNotAhead(r: Record, l: Latches, l': Latches, e: Env)
    requires Known(r, e) && NotAhead(r, l) && Forward(l, l')
    ensures NotAhead(r, l')
  {
  }

  /** After a save the store is what it was, or the flow's own projection. */
  lemma SavedIsNotAhead(i: Instance, e: Env, body: Record, fault: Fault)
    requires e.store.held.Some? && NotAhead(e.store.held.value.body, i.latches) && i.journal.digest == Some(i.journal.current)
    requires FlowOk(i.latches, body, e)
    ensures var store := Save(i, e, body, fault).store;
            store.held.Some? && NotAhead(store.held.value.body, i.latches)
  {
    hide Save, FlowOk, NotAhead;
    SaveShape(i, e, body, fault);
    ProjectionIsSound(i.latches, body, e);
  }

  /** The latches a line sets are none the record could be ahead in. */
  lemma LineForward(l: Latches, body: Record, action: LineAction)
    ensures Forward(l, LatchedBefore(l, action))
    ensures Forward(LatchedBefore(l, action), LatchedAfter(LatchedBefore(l, action), body, action))
  {
  }

  ghost predicate Stood(policy: Policy, i: Instance, e: Env) {
    InstInv(policy, i, e) && EnvOk(e) && InstOk(i, e) && e.store.held.Some? && NotAhead(e.store.held.value.body, i.latches)
  }

  predicate StaysLone(r: Result) {
    r.env.store.held.Some? && NotAhead(r.env.store.held.value.body, r.inst.latches)
  }

  lemma HeldIsKnown(e: Env)
    requires EnvOk(e) && e.store.held.Some?
    ensures Known(e.store.held.value.body, e)
  {
  }

  lemma ForwardIsLone(e: Env, l: Latches, r: Result)
    requires EnvOk(e) && e.store.held.Some? && NotAhead(e.store.held.value.body, l)
    requires r.env.store == e.store && Forward(l, r.inst.latches)
    ensures StaysLone(r)
  {
    HeldIsKnown(e);
    StillNotAhead(e.store.held.value.body, l, r.inst.latches, e);
  }

  lemma LockIsLone(policy: Policy, i: Instance, e: Env, action: LockAction)
    requires Stood(policy, i, e)
    ensures StaysLone(DoLock(policy, i, e, action))
  {
    hide EnvInv, InstInv, EnvOk, InstOk, NotAhead, Save, DoStartLock, DoReadGuardNote, DoPrepareFirst, DoStartRecover, DoSend, DoRecover, DoReread, DoResend, DoPrepareFresh, DoLockReadFails;
    if action.SaveLock? {
      HoldsItsDigest(policy, i, e);
      FlowHolds(i, e);
      SavedIsNotAhead(i, e, Body(i), action.fault);
    } else {
      LockForwards(policy, i, e, action);
      ForwardIsLone(e, i.latches, DoLock(policy, i, e, action));
    }
  }

  lemma SettleIsLone(policy: Policy, i: Instance, e: Env, action: SettleAction)
    requires Stood(policy, i, e)
    ensures StaysLone(DoSettle(i, e, action))
  {
    hide EnvInv, InstInv, EnvOk, InstOk, NotAhead, Save, DoStartClaim, DoCallNote, DoReadBack, DoSeeLegAClaimed, DoStartRefund, DoReadNote, DoCheckPending, DoAskAbsence, DoCheckAbsence, DoRecoverRefund, DoIntend, DoCallRefund, DoFinishRefund, DoSettleReadFails, DoSaveSettle;
    if action.SaveSettle? && i.settlePc.Saving? {
      HoldsItsDigest(policy, i, e);
      FlowHolds(i, e);
      SavedIsNotAhead(i, e, Body(i), action.fault);
      SaveSettleShape(i, e, action.fault);
    } else {
      SettleForwards(i, e, action);
      ForwardIsLone(e, i.latches, DoSettle(i, e, action));
    }
  }

  lemma LineIsLone(policy: Policy, i: Instance, e: Env, action: LineAction)
    requires Stood(policy, i, e)
    ensures StaysLone(DoLine(policy, i, e, action))
  {
    hide EnvInv, InstInv, EnvOk, InstOk, NotAhead, Save, LineReady, Known, FlowOk, Forward, LatchedAfter, LatchedBefore, LineBody, DoLine;
    if LineReady(policy, i, e, action) {
      HoldsItsDigest(policy, i, e);
      LineIsSound(policy, i, e, action);
      LineForward(i.latches, Body(i), action);
      var flow := LineFlow(i, action);
      ForwardIsLone(e, i.latches, Result(flow, e));
      SavedIsNotAhead(flow, e, LineBody(i, action), action.fault);
      LineSaveGood(policy, i, e, action);
      LineShape(policy, i, e, action);
      var w := Save(flow, e, LineBody(i, action), action.fault);
      SavedWorldIsOk(flow, e, LineBody(i, action), w);
      if w.answer.Resolved? {
        ForwardIsLone(e.(store := w.store), flow.latches, DoLine(policy, i, e, action));
      }
    } else {
      LineWaits(policy, i, e, action);
    }
  }

  lemma LineWaits(policy: Policy, i: Instance, e: Env, action: LineAction)
    requires !LineReady(policy, i, e, action)
    ensures DoLine(policy, i, e, action) == Result(i, e)
  {
  }

  lemma SavedWorldIsOk(i: Instance, e: Env, body: Record, w: Written<Record>)
    requires SavedWell(i, e, body, w)
    ensures EnvOk(e.(store := w.store))
  {
  }

  lemma ActIsLone(policy: Policy, i: Instance, e: Env, action: Action)
    requires Stood(policy, i, e)
    ensures StaysLone(DoAct(policy, i, e, action))
  {
    hide Stood, StaysLone, DoLock, DoSettle, DoLine;
    match action
    case OnLock(lock) => LockIsLone(policy, i, e, lock);
    case OnSettle(settle) => SettleIsLone(policy, i, e, settle);
    case OnLine(line) => LineIsLone(policy, i, e, line);
  }

  /** A flow at its refund's call says itself that nothing bars it, so the record behind it says so too. */
  lemma LoneRefundingIsUnbarred(i: Instance, e: Env)
    requires InstOk(i, e) && Refunds(i.settlePc) && e.store.held.Some? && NotAhead(e.store.held.value.body, i.latches)
    ensures !Barred(e.store.held.value.body)
  {
  }

  /** A step adds at most one call, over the record then held, and only where the instance stood at its call. */
  lemma ActCalls(policy: Policy, i: Instance, e: Env, action: Action)
    requires InstInv(policy, i, e) && InstOk(i, e)
    ensures var calls := DoAct(policy, i, e, action).env.refundCalls;
            calls == e.refundCalls || (i.settlePc.Refunding? && calls == e.refundCalls + [RefundCall(StoredRecord(e))])
  {
    hide InstInv, InstOk, Forward, DoLock, DoLine, DoSettle;
    match action
    case OnSettle(settle) =>
      if settle.SaveSettle? && i.settlePc.Saving? {
        SaveSettleShape(i, e, settle.fault);
        SettleSaves(i, e, settle.fault);
      } else {
        SettleForwards(i, e, settle);
      }
    case _ => OtherActsKeepTheRefund(policy, i, e, action);
  }

  lemma SettleSaves(i: Instance, e: Env, fault: Fault)
    ensures DoSettle(i, e, SaveSettle(fault)) == DoSaveSettle(i, e, fault)
  {
  }

  ghost predicate AtMostOne(s: System) {
    forall id, other :: id in s.live && other in s.live ==> id == other
  }

  lemma ActKeepsLone(config: Config, s: System, id: nat, action: Action)
    requires Good(config, s) && Lone(s) && AtMostOne(s) && id in s.live
    ensures Lone(Step(config, s, Act(id, action)))
  {
    hide EnvInv, InstInv, EnvOk, InstOk, NotAhead, Barred, DoAct;
    ActIsLone(config.policy, s.live[id], s.env, action);
    ActCalls(config.policy, s.live[id], s.env, action);
    if s.live[id].settlePc.Refunding? {
      LoneRefundingIsUnbarred(s.live[id], s.env);
    }
  }

  lemma BeginKeepsLone(config: Config, s: System, id: nat, offerA: Offer, fault: Fault)
    requires Lone(s) && !config.many
    ensures Lone(Step(config, s, Begin(id, offerA, fault)))
  {
    hide FirstSave;
    FirstVersion(s.env, offerA, fault);
  }

  lemma ResumeKeepsLone(config: Config, s: System, id: nat)
    requires Good(config, s) && Lone(s)
    ensures Lone(Step(config, s, Resume(id)))
  {
    hide EnvInv, InstInv, InstOk, Known;
    if s.env.store.held.Some? {
      ResumedGood(s.env);
      ResumedIsNotAhead(s.env);
    }
  }

  lemma ResumedIsNotAhead(e: Env)
    requires EnvOk(e) && e.store.held.Some? && Rebuild(e.store.held.value.body).Flow?
    ensures NotAhead(e.store.held.value.body, Rebuild(e.store.held.value.body).latches)
  {
  }

  lemma StepKeepsLone(config: Config, s: System, event: Event)
    requires Good(config, s) && Lone(s) && AtMostOne(s) && !config.many
    ensures Lone(Step(config, s, event))
  {
    hide Good, NotAhead, DoAct, FirstSave;
    match event
    case Begin(id, offerA, fault) => BeginKeepsLone(config, s, id, offerA, fault);
    case Resume(id) => ResumeKeepsLone(config, s, id);
    case Act(id, action) => if id in s.live { ActKeepsLone(config, s, id, action); }
    case _ =>
  }

  lemma {:induction false} EveryRunIsLone(config: Config, run: seq<Event>)
    requires !config.many
    ensures Lone(After(config, run))
  {
    if run != [] {
      var front := run[..|run| - 1];
      EveryRunIsLone(config, front);
      EveryRunIsGood(config, front);
      LoneUnlessMany(config, front);
      StepKeepsLone(config, After(config, front), run[|run| - 1]);
    }
  }

  /** With one live instance at a time, every call was made over a record with the intent saved, and none that bars it. */
  lemma RefundsAreCalledOnRefundableRecords(config: Config, run: seq<Event>, k: nat)
    requires !config.many && k < |After(config, run).env.refundCalls|
    ensures var r := After(config, run).env.refundCalls[k].stored;
            && r.refund.attempted && r.lock.attempted && !r.claim.claimed && !r.lock.neverLanded
            && (config.kind.Escrow? ==> r.lock.evidence.Some? || r.refund.evidence.Some?)
  {
    RefundsAreCalledOnSavedIntents(config, run, k);
    EveryRunIsLone(config, run);
  }

  /** A lone flow never stands at its refund's call once the record bars it, so no continuation calls one. */
  lemma BarredCallsNoRefund(config: Config, run: seq<Event>, more: seq<Event>)
    requires !config.many && RefundBarred(After(config, run).env.store)
    ensures After(config, run + more).env.refundCalls == After(config, run).env.refundCalls
  {
    hide EnvInv, InstInv, InstOk, Step, NotAhead;
    EveryRunIsLone(config, run);
    EveryRunIsGood(config, run);
    var s := After(config, run);
    forall id | id in s.live ensures !s.live[id].settlePc.Refunding? {
      if s.live[id].settlePc.Refunding? {
        LoneRefundingIsUnbarred(s.live[id], s.env);
      }
    }
    BarredRunCallsNoRefund(config, run, more);
  }
}
