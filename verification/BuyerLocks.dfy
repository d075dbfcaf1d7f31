/**
 * At most one leg A lock ever lands, over every run: any number of live instances on one record, crashes at any
 * step, saves that fail before or after their write, lost replies, resends and time-outs.
 *
 * The argument: a lock is handed over only after its own save won the compare-and-swap, and a saved lock is replaced
 * only by an instance that still held it when the rail proved it dead. So every lock ever saved is the one the
 * store holds now, or can never land.
 */
module BuyerLocks {
  import opened Options
  import opened Journal
  import opened BuyerState
  import opened BuyerSteps

  // --- the invariant ---------------------------------------------------------------------------------------------------

  predicate SameLock(p: Prepared, q: Prepared) {
    p.tx == q.tx && p.ref == q.ref
  }

  function PreparedAt(store: Store<Record>, k: nat): Option<Prepared>
    requires k < |store.history|
  {
    store.history[k].body.lock.prepared
  }

  /** Some version of the record ever made durable held this lock. */
  ghost predicate WasSaved(store: Store<Record>, tx: nat, ref: Ref) {
    exists k :: 0 <= k < |store.history| && PreparedAt(store, k).Some? && PreparedAt(store, k).value.tx == tx
                && PreparedAt(store, k).value.ref == ref
  }

  ghost predicate HeldIsLast(store: Store<Record>) {
    store.held == if store.history == [] then None else Some(store.history[|store.history| - 1])
  }

  /** Every lock ever saved is the held one, by its ref, and on a signed rail by its transaction unless that is dead. */
  ghost predicate SavedLocksAgree(e: Env) {
    forall k :: 0 <= k < |e.store.history| && PreparedAt(e.store, k).Some? ==>
                  && e.store.held.Some? && e.store.held.value.body.lock.prepared.Some?
                  && PreparedAt(e.store, k).value.ref == e.store.held.value.body.lock.prepared.value.ref
                  && (e.rail.kind.Escrow? || PreparedAt(e.store, k).value.tx == e.store.held.value.body.lock.prepared.value.tx
                      || PreparedAt(e.store, k).value.tx in e.rail.dead)
  }

  ghost predicate SentWell(policy: Policy, e: Env, s: Sent) {
    && WasSaved(e.store, s.tx, s.ref)
    && GuardHeld(policy, s.guard) && s.guard.readAtMs <= s.sentAtMs <= e.nowMs
    && s.refundAfterMs == s.guard.offerA.refundAfterMs
  }

  ghost predicate EnvInv(policy: Policy, e: Env) {
    && HeldIsLast(e.store)
    && SavedLocksAgree(e)
    && (forall s :: s in e.rail.sent ==> SentWell(policy, e, s))
    && e.rail.landed <= e.rail.sent
    && (forall s :: s in e.rail.landed ==> s.tx !in e.rail.dead)
    && (forall s, t :: s in e.rail.landed && t in e.rail.landed && s.tx == t.tx ==> s == t)
    && (e.rail.kind.Escrow? ==> forall s, t :: s in e.rail.landed && t in e.rail.landed && s.ref == t.ref ==> s == t)
  }

  /** The instance's own saved lock, as its journal holds it. */
  function SavedLock(i: Instance): Option<Prepared> {
    Body(i).lock.prepared
  }

  predicate DeadOrEscrow(e: Env, tx: nat) {
    e.rail.kind.Escrow? || tx in e.rail.dead
  }

  ghost predicate GuardOld(policy: Policy, e: Env, guard: GuardPass) {
    GuardHeld(policy, guard) && guard.readAtMs <= e.nowMs
  }

  /** The lock in memory is the saved one, except between its being built and its save. */
  ghost predicate LatchedLock(i: Instance, e: Env) {
    && (i.latches.lock.prepared.Some? ==> i.latches.lock.attempted)
    && (SavedLock(i).Some? ==> i.latches.lock.prepared.Some? && i.latches.lock.prepared.value.ref == SavedLock(i).value.ref)
    && (i.lockPc.SavingPrepared? && !i.journal.failed ==>
          SavedLock(i).Some? ==> SavedLock(i).value.tx == i.latches.lock.prepared.value.tx || DeadOrEscrow(e, SavedLock(i).value.tx))
    && (!i.lockPc.SavingPrepared? && !i.journal.failed ==>
          (i.latches.lock.prepared.Some? <==> SavedLock(i).Some?)
          && (SavedLock(i).Some? ==> SameLock(i.latches.lock.prepared.value, SavedLock(i).value)))
  }

  ghost predicate LockPcInv(policy: Policy, i: Instance, e: Env) {
    match i.lockPc
    case LockIdle => true
    case SavingOutcome => true
    case Guarding(guard, then_) =>
      && DeadlinesHeld(policy, guard) && guard.readAtMs <= e.nowMs
      && (match then_
          case FirstLock => !i.latches.lock.attempted
          case ResendSaved(prepared) => i.latches.lock.prepared == Some(prepared) && WasSaved(e.store, prepared.tx, prepared.ref)
          case FreshLock(prepared) => i.latches.lock.prepared == Some(prepared) && DeadOrEscrow(e, prepared.tx))
    case Preparing(guard) => !i.latches.lock.attempted && GuardOld(policy, e, guard)
    case Recovering(prepared) => i.latches.lock.prepared == Some(prepared) && WasSaved(e.store, prepared.tx, prepared.ref)
    case SavingPrepared(prepared, guard) => i.latches.lock.prepared == Some(prepared) && GuardOld(policy, e, guard)
    case Sending(prepared, guard) =>
      && i.latches.lock.prepared.Some? && SameLock(i.latches.lock.prepared.value, prepared)
      && WasSaved(e.store, prepared.tx, prepared.ref) && GuardOld(policy, e, guard)
    case Rereading(prepared, passed) =>
      && i.latches.lock.prepared == Some(prepared) && DeadOrEscrow(e, prepared.tx)
      && (passed.Some? ==> GuardOld(policy, e, passed.value))
    case Resending(prepared, guard) =>
      i.latches.lock.prepared == Some(prepared) && WasSaved(e.store, prepared.tx, prepared.ref) && GuardOld(policy, e, guard)
    case Rebuilding(prepared, guard) =>
      i.latches.lock.prepared == Some(prepared) && DeadOrEscrow(e, prepared.tx) && GuardOld(policy, e, guard)
  }

  ghost predicate InstInv(policy: Policy, i: Instance, e: Env) {
    && i.journal.digest == Some(i.journal.current) && i.journal.current in e.store.history
    && LatchedLock(i, e) && LockPcInv(policy, i, e)
  }

  ghost predicate Inv(config: Config, s: System) {
    && s.env.rail.kind == config.kind
    && EnvInv(config.policy, s.env)
    && forall id :: id in s.live ==> InstInv(config.policy, s.live[id], s.env)
  }

  /** A step's result is sound, and the world it leaves is a later one. */
  ghost predicate Kept(policy: Policy, e: Env, r: Result) {
    EnvInv(policy, r.env) && InstInv(policy, r.inst, r.env) && Later(e, r.env)
  }

  lemma HoldsItsDigest(policy: Policy, i: Instance, e: Env)
    requires InstInv(policy, i, e)
    ensures i.journal.digest == Some(i.journal.current) && (i.lockPc.Sending? ==> i.latches.lock.prepared.Some?)
  {
  }

  // --- what other steps cannot disturb -------------------------------------------------------------------------------

  /** The world only grows: history, dead transactions and the clock. */
  ghost predicate Later(e: Env, e': Env) {
    && e.store.history <= e'.store.history && e.rail.dead <= e'.rail.dead && e.nowMs <= e'.nowMs && e.rail.kind == e'.rail.kind
  }

  lemma WasSavedStays(e: Env, e': Env, tx: nat, ref: Ref)
    requires Later(e, e') && WasSaved(e.store, tx, ref)
    ensures WasSaved(e'.store, tx, ref)
  {
    var k :| 0 <= k < |e.store.history| && PreparedAt(e.store, k).Some? && PreparedAt(e.store, k).value.tx == tx
             && PreparedAt(e.store, k).value.ref == ref;
    assert PreparedAt(e'.store, k) == PreparedAt(e.store, k);
  }

  lemma InstInvStays(policy: Policy, i: Instance, e: Env, e': Env)
    requires InstInv(policy, i, e) && Later(e, e')
    ensures InstInv(policy, i, e')
  {
    match i.lockPc
    case Sending(prepared, _) => WasSavedStays(e, e', prepared.tx, prepared.ref);
    case Recovering(prepared) => WasSavedStays(e, e', prepared.tx, prepared.ref);
    case Resending(prepared, _) => WasSavedStays(e, e', prepared.tx, prepared.ref);
    case Guarding(_, then_) =>
      if then_.ResendSaved? {
        WasSavedStays(e, e', then_.prepared.tx, then_.prepared.ref);
      }
    case _ =>
  }

  lemma SentWellStays(policy: Policy, e: Env, e': Env, s: Sent)
    requires SentWell(policy, e, s) && Later(e, e')
    ensures SentWell(policy, e', s)
  {
    WasSavedStays(e, e', s.tx, s.ref);
  }

  // --- a save ------------------------------------------------------------------------------------------------------------

  /** A save leaves the world as it was, or adds one version whose lock is the latched one, built on the held version. */
  lemma SaveShape(i: Instance, e: Env, body: Record, fault: Fault)
    requires i.journal.digest == Some(i.journal.current)
    ensures var w := Save(i, e, body, fault);
            && w.journal.digest == Some(w.journal.current)
            && (w.answer.Resolved? ==> !w.journal.failed && !i.journal.failed)
            && (w.answer.Threw? ==> w.journal.failed && w.journal.current == i.journal.current)
            && (|| w.store == e.store
                || (&& !i.journal.failed && e.store.held == Some(i.journal.current) && w.store.held.Some?
                    && w.store.history == e.store.history + [w.store.held.value]
                    && w.store.held.value.body == Project(i.latches, body)))
            && (w.answer.Resolved? ==> w.store != e.store && w.store.held == Some(w.journal.current))
  {
    var w := Save(i, e, body, fault);
    if w.answer.Resolved? {
      assert |w.store.history| == |e.store.history| + 1;
    }
  }

  /** A version added on the held one keeps every saved lock tied to the one now held. */
  lemma SavedLocksStillAgree(policy: Policy, i: Instance, e: Env, body: Record, store: Store<Record>)
    requires SavedLocksAgree(e) && LatchedLock(i, e) && LockPcInv(policy, i, e) && !i.journal.failed
    requires e.store.held == Some(i.journal.current) && store.held.Some? && store.held.value.body == Project(i.latches, body)
    requires store.history == e.store.history + [store.held.value]
    ensures SavedLocksAgree(e.(store := store))
  {
    var e' := e.(store := store);
    forall k | 0 <= k < |store.history| && PreparedAt(store, k).Some?
      ensures && store.held.value.body.lock.prepared.Some?
              && PreparedAt(store, k).value.ref == store.held.value.body.lock.prepared.value.ref
              && (e'.rail.kind.Escrow? || PreparedAt(store, k).value.tx == store.held.value.body.lock.prepared.value.tx
                  || PreparedAt(store, k).value.tx in e'.rail.dead)
    {
      if k < |e.store.history| {
        assert PreparedAt(store, k) == PreparedAt(e.store, k);
        assert e.store.held.value.body.lock.prepared == SavedLock(i);
      }
    }
  }

  lemma SaveKeepsEnv(policy: Policy, i: Instance, e: Env, body: Record, fault: Fault)
    requires EnvInv(policy, e) && InstInv(policy, i, e)
    ensures var e' := e.(store := Save(i, e, body, fault).store);
            EnvInv(policy, e') && Later(e, e')
    ensures var w := Save(i, e, body, fault);
            w.journal.current in w.store.history
            && (w.answer.Resolved? ==> w.journal.current.body == Project(i.latches, body))
  {
    hide SavedLocksAgree, LatchedLock, LockPcInv, Save, SentWell;
    SaveShape(i, e, body, fault);
    var w := Save(i, e, body, fault);
    var e' := e.(store := w.store);
    forall s | s in e.rail.sent ensures SentWell(policy, e', s) {
      SentWellStays(policy, e, e', s);
    }
    if w.store != e.store {
      SavedLocksStillAgree(policy, i, e, body, w.store);
    }
  }

  /** The lock of the newest version was saved. */
  lemma NewestWasSaved(store: Store<Record>, prepared: Prepared)
    requires store.history != [] && store.history[|store.history| - 1].body.lock.prepared == Some(prepared)
    ensures WasSaved(store, prepared.tx, prepared.ref)
  {
    assert PreparedAt(store, |store.history| - 1) == Some(prepared);
  }

  /** After a save the instance's latched lock is still tied to its saved one. */
  lemma SaveKeepsInst(policy: Policy, i: Instance, e: Env, body: Record, fault: Fault, i': Instance)
    requires EnvInv(policy, e) && InstInv(policy, i, e)
    requires var w := Save(i, e, body, fault);
             && i'.journal == w.journal
             && i'.latches.lock.prepared == i.latches.lock.prepared && i'.latches.lock.attempted == i.latches.lock.attempted
             && (i'.lockPc == i.lockPc
                 || i'.lockPc.LockIdle?
                 || (w.answer.Resolved? && i.lockPc.SavingPrepared? && i'.lockPc == Sending(i.lockPc.prepared, i.lockPc.guard)))
    ensures var e' := e.(store := Save(i, e, body, fault).store);
            InstInv(policy, i', e')
  {
    hide SavedLocksAgree, SentWell, Save, GuardHeld, HeldIsLast, EnvInv, DeadlinesHeld, WasSaved, NoteVerifies;
    SaveShape(i, e, body, fault);
    SaveKeepsEnv(policy, i, e, body, fault);
    var w := Save(i, e, body, fault);
    var e' := e.(store := w.store);
    InstInvStays(policy, i, e, e');
    if w.answer.Resolved? {
      assert w.journal.current.body.lock.prepared == i.latches.lock.prepared;
      if i.lockPc.SavingPrepared? {
        NewestWasSaved(e'.store, i.lockPc.prepared);
      }
    }
  }

  // --- the steps of lockLegA -------------------------------------------------------------------------------------------

  /** Handing over a saved lock behind its guards. */
  lemma HandKeepsEnv(policy: Policy, e: Env, prepared: Prepared, guard: GuardPass)
    requires EnvInv(policy, e) && WasSaved(e.store, prepared.tx, prepared.ref) && GuardOld(policy, e, guard)
    ensures EnvInv(policy, Handed(e, prepared, guard)) && Later(e, Handed(e, prepared, guard))
  {
    var e' := Handed(e, prepared, guard);
    forall s | s in e'.rail.sent ensures SentWell(policy, e', s) {
      if s in e.rail.sent {
        SentWellStays(policy, e, e', s);
      } else {
        WasSavedStays(e, e', prepared.tx, prepared.ref);
      }
    }
  }

  lemma StartLockStep(policy: Policy, i: Instance, e: Env)
    requires EnvInv(policy, e) && InstInv(policy, i, e)
    ensures Kept(policy, e, DoStartLock(policy, i, e))
  {
  }

  lemma ReadGuardNoteStep(policy: Policy, i: Instance, e: Env)
    requires EnvInv(policy, e) && InstInv(policy, i, e)
    ensures Kept(policy, e, DoReadGuardNote(i, e))
  {
    hide EnvInv, WasSaved, DeadOrEscrow;
  }

  lemma PrepareFirstStep(policy: Policy, i: Instance, e: Env, accounts: nat, marker: nat)
    requires EnvInv(policy, e) && InstInv(policy, i, e)
    ensures Kept(policy, e, DoPrepareFirst(i, e, accounts, marker))
  {
    var r := DoPrepareFirst(i, e, accounts, marker);
    IssueKeepsEnv(policy, e, r.env);
  }

  lemma SaveLockStep(policy: Policy, i: Instance, e: Env, fault: Fault)
    requires EnvInv(policy, e) && InstInv(policy, i, e)
    ensures Kept(policy, e, DoSaveLock(i, e, fault))
  {
    if i.lockPc.SavingPrepared? || i.lockPc.SavingOutcome? {
      var r := DoSaveLock(i, e, fault);
      SaveKeepsEnv(policy, i, e, Body(i), fault);
      SaveKeepsInst(policy, i, e, Body(i), fault, r.inst);
    }
  }

  lemma SendStep(policy: Policy, i: Instance, e: Env, outcome: SendOutcome)
    requires EnvInv(policy, e) && InstInv(policy, i, e)
    ensures Kept(policy, e, DoSend(policy, i, e, outcome))
  {
    hide SavedLocksAgree, SentWell, WasSaved, GuardHeld, MayLand, Land;
    if i.lockPc.Sending? {
      var e' := Handed(e, i.lockPc.prepared, i.lockPc.guard);
      HandKeepsEnv(policy, e, i.lockPc.prepared, i.lockPc.guard);
      InstInvStays(policy, i, e, e');
      var lock := Sent(i.lockPc.prepared.tx, i.lockPc.prepared.ref, i.lockPc.guard.offerA.refundAfterMs, i.lockPc.guard, e.nowMs);
      LandKeepsEnv(policy, e', lock);
      InstInvStays(policy, i, e, Land(e', lock));
    }
  }

  lemma LandKeepsEnv(policy: Policy, e: Env, lock: Sent)
    requires EnvInv(policy, e)
    ensures EnvInv(policy, Land(e, lock)) && Later(e, Land(e, lock))
  {
    forall s | s in e.rail.sent ensures SentWell(policy, Land(e, lock), s) {
      SentWellStays(policy, e, Land(e, lock), s);
    }
  }

  lemma StartRecoverStep(policy: Policy, i: Instance, e: Env)
    requires EnvInv(policy, e) && InstInv(policy, i, e)
    ensures Kept(policy, e, DoStartRecover(i, e))
  {
    if i.latches.lock.prepared.Some? && SavedLock(i).Some? {
      var k :| 0 <= k < |e.store.history| && e.store.history[k] == i.journal.current;
      assert PreparedAt(e.store, k) == SavedLock(i);
    }
  }

  lemma RecoverStep(policy: Policy, i: Instance, e: Env, answer: LockAnswer)
    requires EnvInv(policy, e) && InstInv(policy, i, e)
    ensures Kept(policy, e, DoRecover(policy, i, e, answer))
  {
  }

  lemma RereadStep(policy: Policy, i: Instance, e: Env, found: bool)
    requires EnvInv(policy, e) && InstInv(policy, i, e)
    ensures Kept(policy, e, DoReread(policy, i, e, found))
  {
  }

  lemma ResendStep(policy: Policy, i: Instance, e: Env, answer: LockAnswer)
    requires EnvInv(policy, e) && InstInv(policy, i, e)
    ensures Kept(policy, e, DoResend(i, e, answer))
  {
    hide SavedLocksAgree, SentWell, WasSaved, MayLand, Land;
    if i.lockPc.Resending? {
      HandKeepsEnv(policy, e, i.lockPc.prepared, i.lockPc.guard);
      InstInvStays(policy, i, e, Handed(e, i.lockPc.prepared, i.lockPc.guard));
    }
  }

  lemma PrepareFreshStep(policy: Policy, i: Instance, e: Env)
    requires EnvInv(policy, e) && InstInv(policy, i, e)
    ensures Kept(policy, e, DoPrepareFresh(i, e))
  {
    var r := DoPrepareFresh(i, e);
    IssueKeepsEnv(policy, e, r.env);
  }

  lemma LockReadFailsStep(policy: Policy, i: Instance, e: Env)
    requires EnvInv(policy, e) && InstInv(policy, i, e)
    ensures Kept(policy, e, DoLockReadFails(i, e))
  {
  }

  lemma LockStep(policy: Policy, i: Instance, e: Env, action: LockAction)
    requires EnvInv(policy, e) && InstInv(policy, i, e)
    ensures Kept(policy, e, DoLock(policy, i, e, action))
  {
    hide EnvInv, InstInv, Kept, DoStartLock, DoReadGuardNote, DoPrepareFirst, DoStartRecover, DoSaveLock, DoSend, DoRecover, DoReread, DoResend, DoPrepareFresh, DoLockReadFails;
    match action
    case StartLock => StartLockStep(policy, i, e);
    case ReadGuardNote => ReadGuardNoteStep(policy, i, e);
    case PrepareFirst(accounts, marker) => PrepareFirstStep(policy, i, e, accounts, marker);
    case SaveLock(fault) => SaveLockStep(policy, i, e, fault);
    case Send(outcome) => SendStep(policy, i, e, outcome);
    case StartRecover => StartRecoverStep(policy, i, e);
    case Recover(answer) => RecoverStep(policy, i, e, answer);
    case Reread(found) => RereadStep(policy, i, e, found);
    case Resend(answer) => ResendStep(policy, i, e, answer);
    case PrepareFresh => PrepareFreshStep(policy, i, e);
    case LockReadFails => LockReadFailsStep(policy, i, e);
  }

  /** Issuing a transaction number changes nothing the invariant reads. */
  lemma IssueKeepsEnv(policy: Policy, e: Env, e': Env)
    requires EnvInv(policy, e) && (e' == e || e' == e.(rail := e.rail.(issued := e.rail.issued + 1)))
    ensures EnvInv(policy, e') && Later(e, e')
  {
    forall s | s in e'.rail.sent ensures SentWell(policy, e', s) {
      SentWellStays(policy, e, e', s);
    }
  }

  // --- every other step --------------------------------------------------------------------------------------------------

  /** The step touches neither the lock nor the store nor the rail. */
  ghost predicate Quiet(i: Instance, e: Env, r: Result) {
    && r.inst.journal == i.journal && r.inst.lockPc == i.lockPc
    && r.inst.latches.lock.prepared == i.latches.lock.prepared && r.inst.latches.lock.attempted == i.latches.lock.attempted
    && r.inst.latches.lock.framePosted == i.latches.lock.framePosted
    && r.inst.latches.refund.framesPosted == i.latches.refund.framesPosted
    && r.env.rail == e.rail && r.env.store == e.store && r.env.nowMs == e.nowMs
  }

  lemma StartClaimIsQuiet(i: Instance, e: Env, secret: Secret)
    ensures Quiet(i, e, DoStartClaim(i, e, secret))
  {
  }

  lemma CallNoteIsQuiet(i: Instance, e: Env, call: NoteCall)
    ensures Quiet(i, e, DoCallNote(i, e, call))
  {
  }

  lemma ReadBackIsQuiet(i: Instance, e: Env)
    ensures Quiet(i, e, DoReadBack(i, e))
  {
  }

  lemma SeeLegAClaimedIsQuiet(i: Instance, e: Env)
    ensures Quiet(i, e, DoSeeLegAClaimed(i, e))
  {
  }

  lemma StartRefundIsQuiet(i: Instance, e: Env)
    ensures Quiet(i, e, DoStartRefund(i, e))
  {
  }

  lemma ReadNoteIsQuiet(i: Instance, e: Env)
    ensures Quiet(i, e, DoReadNote(i, e))
  {
  }

  lemma CheckPendingIsQuiet(i: Instance, e: Env, claimSeen: bool)
    ensures Quiet(i, e, DoCheckPending(i, e, claimSeen))
  {
  }

  lemma AskAbsenceIsQuiet(i: Instance, e: Env)
    ensures Quiet(i, e, DoAskAbsence(i, e))
  {
  }

  lemma CheckAbsenceIsQuiet(i: Instance, e: Env, answer: Absence)
    ensures Quiet(i, e, DoCheckAbsence(i, e, answer))
  {
  }

  lemma RecoverRefundIsQuiet(i: Instance, e: Env, answer: RefundAnswer)
    ensures Quiet(i, e, DoRecoverRefund(i, e, answer))
  {
  }

  lemma IntendIsQuiet(i: Instance, e: Env)
    ensures Quiet(i, e, DoIntend(i, e))
  {
  }

  lemma CallRefundIsQuiet(i: Instance, e: Env, signedTx: nat)
    ensures Quiet(i, e, DoCallRefund(i, e, signedTx))
  {
  }

  lemma FinishRefundIsQuiet(i: Instance, e: Env, outcome: RefundOutcome)
    ensures Quiet(i, e, DoFinishRefund(i, e, outcome))
  {
  }

  lemma SettleReadFailsIsQuiet(i: Instance, e: Env)
    ensures Quiet(i, e, DoSettleReadFails(i, e))
  {
  }

  /** Between its saves, claiming and refunding are quiet. */
  lemma SettleIsQuiet(i: Instance, e: Env, action: SettleAction)
    requires !(action.SaveSettle? && i.settlePc.Saving?)
    ensures Quiet(i, e, DoSettle(i, e, action))
  {
    match action
    case StartClaim(secret) => StartClaimIsQuiet(i, e, secret);
    case CallNote(call) => CallNoteIsQuiet(i, e, call);
    case ReadBack => ReadBackIsQuiet(i, e);
    case SeeLegAClaimed => SeeLegAClaimedIsQuiet(i, e);
    case StartRefund => StartRefundIsQuiet(i, e);
    case ReadNote => ReadNoteIsQuiet(i, e);
    case CheckPending(claimSeen) => CheckPendingIsQuiet(i, e, claimSeen);
    case AskAbsence => AskAbsenceIsQuiet(i, e);
    case CheckAbsence(answer) => CheckAbsenceIsQuiet(i, e, answer);
    case RecoverRefund(answer) => RecoverRefundIsQuiet(i, e, answer);
    case Intend => IntendIsQuiet(i, e);
    case CallRefund(signedTx) => CallRefundIsQuiet(i, e, signedTx);
    case FinishRefund(outcome) => FinishRefundIsQuiet(i, e, outcome);
    case SettleReadFails => SettleReadFailsIsQuiet(i, e);
    case SaveSettle(_) =>
  }

  lemma SaveSettleStep(policy: Policy, i: Instance, e: Env, fault: Fault)
    requires EnvInv(policy, e) && InstInv(policy, i, e)
    ensures Kept(policy, e, DoSaveSettle(i, e, fault))
  {
    if i.settlePc.Saving? {
      SaveKeepsEnv(policy, i, e, Body(i), fault);
      SaveKeepsInst(policy, i, e, Body(i), fault, DoSaveSettle(i, e, fault).inst);
    }
  }

  lemma QuietStep(policy: Policy, i: Instance, e: Env, r: Result)
    requires EnvInv(policy, e) && InstInv(policy, i, e) && Quiet(i, e, r)
    ensures Kept(policy, e, r)
  {
    QuietKeepsEnv(policy, e, r.env);
    QuietKeepsInst(policy, i, e, r.inst, r.env);
  }

  lemma SettleStep(policy: Policy, i: Instance, e: Env, action: SettleAction)
    requires EnvInv(policy, e) && InstInv(policy, i, e)
    ensures Kept(policy, e, DoSettle(i, e, action))
  {
    hide EnvInv, InstInv, Kept, DoStartClaim, DoCallNote, DoReadBack, DoSeeLegAClaimed, DoStartRefund, DoReadNote, DoCheckPending, DoAskAbsence, DoCheckAbsence, DoRecoverRefund, DoIntend, DoCallRefund, DoFinishRefund, DoSettleReadFails, DoSaveSettle;
    match action
    case SaveSettle(fault) => SaveSettleStep(policy, i, e, fault);
    case _ =>
      SettleIsQuiet(i, e, action);
      QuietStep(policy, i, e, DoSettle(i, e, action));
  }

  lemma QuietKeepsInst(policy: Policy, i: Instance, e: Env, i': Instance, e': Env)
    requires InstInv(policy, i, e) && Later(e, e')
    requires i'.journal == i.journal && i'.lockPc == i.lockPc
    requires i'.latches.lock.prepared == i.latches.lock.prepared && i'.latches.lock.attempted == i.latches.lock.attempted
    ensures InstInv(policy, i', e')
  {
    InstInvStays(policy, i, e, e');
  }

  /** A step that touches neither the rail nor the store. */
  lemma QuietKeepsEnv(policy: Policy, e: Env, e': Env)
    requires EnvInv(policy, e) && e'.rail == e.rail && e'.store == e.store && e'.nowMs == e.nowMs
    ensures EnvInv(policy, e') && Later(e, e')
  {
    forall s | s in e'.rail.sent ensures SentWell(policy, e', s) {
      SentWellStays(policy, e, e', s);
    }
  }

  /** A line's latches never touch the lock. */
  lemma LineLeavesTheLock(l: Latches, body: Record, action: LineAction)
    ensures LatchedBefore(l, action).lock.prepared == l.lock.prepared
    ensures LatchedBefore(l, action).lock.attempted == l.lock.attempted
    ensures LatchedAfter(l, body, action).lock.prepared == l.lock.prepared
    ensures LatchedAfter(l, body, action).lock.attempted == l.lock.attempted
  {
  }

  lemma LineStep(policy: Policy, i: Instance, e: Env, action: LineAction)
    requires EnvInv(policy, e) && InstInv(policy, i, e)
    ensures Kept(policy, e, DoLine(policy, i, e, action))
  {
    hide SavedLocksAgree, SentWell, WasSaved, EnvInv, LineReady, Save, LockPcInv;
    if LineReady(policy, i, e, action) {
      var flow, body := LineFlow(i, action), LineBody(i, action);
      LineLeavesTheLock(i.latches, Body(i), action);
      LineLeavesTheLock(flow.latches, Body(i), action);
      QuietKeepsInst(policy, i, e, flow, e);
      SaveKeepsEnv(policy, flow, e, body, action.fault);
      SaveKeepsInst(policy, flow, e, body, action.fault, DoLine(policy, i, e, action).inst);
    }
  }

  /** What the world may do on its own: time passes, a transaction dies, a landed lock is claimed or refunded, a note changes. */
  lemma WorldMovesOn(policy: Policy, e: Env, e': Env)
    requires EnvInv(policy, e) && e'.store == e.store && e.nowMs <= e'.nowMs
    requires e'.rail.kind == e.rail.kind && e'.rail.sent == e.rail.sent && e'.rail.landed == e.rail.landed && e.rail.dead <= e'.rail.dead
    requires forall s :: s in e.rail.landed ==> s.tx !in e'.rail.dead
    ensures EnvInv(policy, e') && Later(e, e')
  {
    forall s | s in e'.rail.sent ensures SentWell(policy, e', s) {
      SentWellStays(policy, e, e', s);
    }
  }

  lemma OutsideStep(policy: Policy, e: Env, event: WorldEvent)
    requires EnvInv(policy, e)
    ensures EnvInv(policy, DoOutside(e, event)) && Later(e, DoOutside(e, event))
  {
    match event
    case LockLands(lock) => LandKeepsEnv(policy, e, lock);
    case _ => WorldMovesOn(policy, e, DoOutside(e, event));
  }

  lemma ActStep(policy: Policy, i: Instance, e: Env, action: Action)
    requires EnvInv(policy, e) && InstInv(policy, i, e)
    ensures Kept(policy, e, DoAct(policy, i, e, action))
  {
    match action
    case OnLock(lock) => LockStep(policy, i, e, lock);
    case OnSettle(settle) => SettleStep(policy, i, e, settle);
    case OnLine(line) => LineStep(policy, i, e, line);
  }

  lemma ActKeepsInv(config: Config, s: System, id: nat, action: Action)
    requires Inv(config, s)
    ensures Inv(config, Step(config, s, Act(id, action)))
  {
    if id in s.live {
      ActStep(config.policy, s.live[id], s.env, action);
      var s' := Step(config, s, Act(id, action));
      forall other | other in s'.live ensures InstInv(config.policy, s'.live[other], s'.env) {
        if other != id {
          InstInvStays(config.policy, s.live[other], s.env, s'.env);
        }
      }
    }
  }

  lemma OutsideKeepsInv(config: Config, s: System, event: WorldEvent)
    requires Inv(config, s)
    ensures Inv(config, Step(config, s, Outside(event)))
  {
    OutsideStep(config.policy, s.env, event);
    var e' := DoOutside(s.env, event);
    forall id | id in s.live ensures InstInv(config.policy, s.live[id], e') {
      InstInvStays(config.policy, s.live[id], s.env, e');
    }
  }

  lemma RebuiltKeepsLock(r: Record)
    requires Rebuild(r).Flow?
    ensures Rebuild(r).latches.lock.prepared == r.lock.prepared && (r.lock.prepared.Some? ==> Rebuild(r).latches.lock.attempted)
  {
  }

  lemma ResumeKeepsInv(config: Config, s: System, id: nat)
    requires Inv(config, s)
    ensures Inv(config, Step(config, s, Resume(id)))
  {
    if MayJoin(config, s, id) && s.env.store.held.Some? && Rebuild(s.env.store.held.value.body).Flow? {
      RebuiltKeepsLock(s.env.store.held.value.body);
    }
  }

  /** A flow's first save writes its new record under an empty key, or nothing. */
  lemma FirstVersion(e: Env, offerA: Offer, fault: Fault)
    ensures var w := FirstSave(e, offerA, fault);
            && (w.store == e.store
                || (&& e.store.held.None? && w.store.held.Some? && w.store.held.value.body == NewRecord(offerA)
                    && w.store.history == e.store.history + [w.store.held.value]))
            && (w.answer.Resolved? ==> w.store != e.store && w.store.held.Some? && w.journal == Opened(w.store.held.value))
  {
    var w := FirstSave(e, offerA, fault);
    if w.answer.Resolved? {
      assert |w.store.history| == |e.store.history| + 1;
    }
  }

  lemma FirstKeepsEnv(policy: Policy, e: Env, e': Env)
    requires EnvInv(policy, e)
    requires e'.store == e.store || (e'.store.held.Some? && e'.store.held.value.body.lock.prepared.None?
                                     && e.store.held.None? && e'.store.history == e.store.history + [e'.store.held.value])
    requires e' == e.(store := e'.store)
    ensures EnvInv(policy, e') && Later(e, e')
  {
    forall s | s in e'.rail.sent ensures SentWell(policy, e', s) {
      SentWellStays(policy, e, e', s);
    }
    assert e'.store != e.store ==> e.store.history == [] && PreparedAt(e'.store, 0).None?;
  }

  lemma BeginKeepsInv(config: Config, s: System, id: nat, offerA: Offer, fault: Fault)
    requires Inv(config, s)
    ensures Inv(config, Step(config, s, Begin(id, offerA, fault)))
  {
    var s' := Step(config, s, Begin(id, offerA, fault));
    FirstVersion(s.env, offerA, fault);
    FirstKeepsEnv(config.policy, s.env, s'.env);
    forall other | other in s'.live ensures InstInv(config.policy, s'.live[other], s'.env) {
      if other in s.live {
        InstInvStays(config.policy, s.live[other], s.env, s'.env);
      }
    }
  }

  lemma StepKeepsInv(config: Config, s: System, event: Event)
    requires Inv(config, s)
    ensures Inv(config, Step(config, s, event))
  {
    match event
    case Begin(id, offerA, fault) => BeginKeepsInv(config, s, id, offerA, fault);
    case Resume(id) => ResumeKeepsInv(config, s, id);
    case Crash(id) =>
    case Act(id, action) => ActKeepsInv(config, s, id, action);
    case Outside(e) => OutsideKeepsInv(config, s, e);
  }

  lemma {:induction false} EveryRunKeepsInv(config: Config, run: seq<Event>)
    ensures Inv(config, After(config, run))
  {
    if run != [] {
      EveryRunKeepsInv(config, run[..|run| - 1]);
      StepKeepsInv(config, After(config, run[..|run| - 1]), run[|run| - 1]);
    }
  }

  // --- what it means -----------------------------------------------------------------------------------------------------

  /** Over every run, on every kind of rail, at most one leg A lock ever lands. */
  lemma AtMostOneLockLands(config: Config, run: seq<Event>, s: Sent, t: Sent)
    requires s in After(config, run).env.rail.landed && t in After(config, run).env.rail.landed
    ensures s == t
  {
    EveryRunKeepsInv(config, run);
    var e := After(config, run).env;
    LandedIsHeld(config.policy, e, s);
    LandedIsHeld(config.policy, e, t);
  }

  /** A landed lock carries the ref the store holds and, on a signed rail, is the very transaction it holds. */
  lemma LandedIsHeld(policy: Policy, e: Env, s: Sent)
    requires EnvInv(policy, e) && s in e.rail.landed
    ensures e.store.held.Some? && e.store.held.value.body.lock.prepared.Some?
    ensures s.ref == e.store.held.value.body.lock.prepared.value.ref
    ensures e.rail.kind.Escrow? || s.tx == e.store.held.value.body.lock.prepared.value.tx
  {
    assert SentWell(policy, e, s);
    var k :| 0 <= k < |e.store.history| && PreparedAt(e.store, k).Some? && PreparedAt(e.store, k).value.tx == s.tx
             && PreparedAt(e.store, k).value.ref == s.ref;
  }

  /**
   * A lock is durable before it is visible, and no lock is handed over but behind the guards: at some moment before the
   * send the deadline check accepted the pair, and at a later one leg B's note read locked under the swap's own terms.
   */
  lemma SentLocksAreSavedAndGuarded(config: Config, run: seq<Event>, s: Sent)
    requires s in After(config, run).env.rail.sent
    ensures var e := After(config, run).env;
            && WasSaved(e.store, s.tx, s.ref)
            && s.guard.atMs <= s.guard.readAtMs <= s.sentAtMs <= e.nowMs
            && DeadlinesSafe(config.policy, s.guard.offerA, s.guard.pairing, s.guard.atMs)
            && NoteVerifies(s.guard.note, s.guard.pairing)
  {
    EveryRunKeepsInv(config, run);
    assert SentWell(config.policy, After(config, run).env, s);
  }
}
