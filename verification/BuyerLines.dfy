/**
 * The order of the Buyer's lines. In every version of the record any instance ever made durable, a line marked landed has
 * the lines it answers landed before it and the fact it reports recorded beside it, and a pairing is one that was checked.
 */
module BuyerLines {
  import opened Options
  import opened Journal
  import opened BuyerState
  import opened BuyerSteps
  import BuyerLocks
  import BuyerOutcomes
  import BuyerResults

  /** What a set of landed lines presupposes of the other lines. */
  predicate InOrder(landed: set<Kind>) {
    && (AcceptB in landed ==> OfferA in landed)
    && (AccountA in landed || RevealB in landed ==> AcceptB in landed)
    && (LockA in landed ==> OfferA in landed)
    && (ReceiptB in landed ==> RevealB in landed)
    && (ReceiptRefundA in landed ==> RefundA in landed)
  }

  /** What it presupposes of the facts: a landed lock, a claim of leg B, a landed refund. */
  predicate Backed(landed: set<Kind>, lockEvidence: Option<Ref>, claim: ClaimState, refundEvidence: Option<Ref>) {
    && (LockA in landed ==> lockEvidence.Some?)
    && (RevealB in landed ==> claim.claimed || claim.adopted)
    && (RefundA in landed ==> refundEvidence.Some?)
  }

  predicate RecordFollows(r: Record) {
    && InOrder(r.landed) && Backed(r.landed, r.lock.evidence, r.claim, r.refund.evidence)
    && (r.legBVerified ==> AcceptB in r.landed)
    && (r.claim.attempted || r.claim.claimed || r.claim.adopted ==> AcceptB in r.landed)
    && (r.refund.evidence.Some? ==> r.lock.prepared.Some? || r.lock.evidence.Some?)
  }

  predicate FlowFollows(l: Latches, landed: set<Kind>) {
    && InOrder(landed) && Backed(landed, l.lock.evidence, l.claim, l.refund.evidence)
    && (l.offerA.Some? ==> OfferA in landed) && (l.pairing.Some? ==> AcceptB in landed)
    && (l.legBVerified ==> AcceptB in landed)
    && (l.claim.attempted || l.claim.claimed || l.claim.adopted ==> AcceptB in landed)
    && (l.lock.railRef.Some? <==> l.lock.prepared.Some? || l.lock.evidence.Some?)
    && (l.refund.evidence.Some? ==> l.lock.railRef.Some?)
  }

  /** A flow in the middle of a claim of leg B has accept B behind it. */
  predicate ClaimsAfterAccept(pc: SettlePc, landed: set<Kind>) {
    match pc
    case Saving(then_) => ClaimsAfterAccept(then_, landed)
    case ClaimingNote(_) => AcceptB in landed
    case ReadingBack(_) => AcceptB in landed
    case ReadingNote => AcceptB in landed
    case _ => true
  }

  ghost predicate StoreFollows(store: Store<Record>) {
    && (store.held.Some? ==> RecordFollows(store.held.value.body))
    && forall k :: 0 <= k < |store.history| ==> RecordFollows(store.history[k].body)
  }

  predicate InstFollows(i: Instance) {
    FlowFollows(i.latches, Body(i).landed) && ClaimsAfterAccept(i.settlePc, Body(i).landed)
  }

  ghost predicate Follows(s: System) {
    StoreFollows(s.env.store) && forall id :: id in s.live ==> InstFollows(s.live[id])
  }

  ghost predicate Before(policy: Policy, i: Instance, e: Env) {
    BuyerLocks.InstInv(policy, i, e) && StoreFollows(e.store) && InstFollows(i)
  }

  ghost predicate ResultFollows(r: Result) {
    StoreFollows(r.env.store) && InstFollows(r.inst)
  }

  lemma ProjectionFollows(l: Latches, r: Record)
    requires FlowFollows(l, r.landed)
    ensures RecordFollows(Project(l, r))
  {
  }

  lemma RebuiltFollows(r: Record)
    requires RecordFollows(r) && Rebuild(r).Flow?
    ensures FlowFollows(Rebuild(r).latches, r.landed)
  {
  }

  /** A save of a flow whose lines follow, and what it then holds. */
  lemma SaveFollows(i: Instance, e: Env, body: Record, fault: Fault)
    requires i.journal.digest == Some(i.journal.current) && StoreFollows(e.store) && FlowFollows(i.latches, body.landed)
    ensures var w := Save(i, e, body, fault);
            && StoreFollows(w.store)
            && (w.answer.Resolved? ==> Body(i.(journal := w.journal)).landed == body.landed)
            && (!w.answer.Resolved? ==> w.journal.current == i.journal.current)
  {
    BuyerLocks.SaveShape(i, e, body, fault);
    ProjectionFollows(i.latches, body);
  }

  lemma StartLockFollows(policy: Policy, i: Instance, e: Env)
    requires Before(policy, i, e)
    ensures ResultFollows(DoStartLock(policy, i, e))
  {
  }

  lemma ReadGuardNoteFollows(policy: Policy, i: Instance, e: Env)
    requires Before(policy, i, e)
    ensures ResultFollows(DoReadGuardNote(i, e))
  {
  }

  lemma PrepareFirstFollows(policy: Policy, i: Instance, e: Env, accounts: nat, marker: nat)
    requires Before(policy, i, e)
    ensures ResultFollows(DoPrepareFirst(i, e, accounts, marker))
  {
  }

  lemma StartRecoverFollows(policy: Policy, i: Instance, e: Env)
    requires Before(policy, i, e)
    ensures ResultFollows(DoStartRecover(i, e))
  {
  }

  lemma SeenFollows(i: Instance, ref: Ref)
    requires InstFollows(i) && i.latches.lock.prepared.Some?
    ensures InstFollows(WithLock(i, i.latches.lock.(evidence := Some(ref))))
  {
  }

  lemma TimedOutFollows(i: Instance, prepared: Prepared)
    requires InstFollows(i) && i.latches.lock.prepared.Some?
    ensures InstFollows(WithLock(i, i.latches.lock.(prepared := Some(prepared))))
  {
  }

  lemma SendFollows(policy: Policy, i: Instance, e: Env, outcome: SendOutcome)
    requires Before(policy, i, e)
    ensures ResultFollows(DoSend(policy, i, e, outcome))
  {
    hide BuyerLocks.InstInv, FlowFollows, ClaimsAfterAccept, MayLand, StoreFollows;
    BuyerLocks.HoldsItsDigest(policy, i, e);
    if i.lockPc.Sending? {
      var prepared := i.latches.lock.prepared.value;
      SeenFollows(i, i.lockPc.prepared.ref);
      if outcome.TimedOut? {
        TimedOutFollows(i, prepared.(timedOutHash := Some(outcome.hash)));
      }
    }
  }

  lemma RecoverFollows(policy: Policy, i: Instance, e: Env, answer: LockAnswer)
    requires Before(policy, i, e)
    ensures ResultFollows(DoRecover(policy, i, e, answer))
  {
  }

  lemma RereadFollows(policy: Policy, i: Instance, e: Env, found: bool)
    requires Before(policy, i, e)
    ensures ResultFollows(DoReread(policy, i, e, found))
  {
  }

  lemma ResendFollows(policy: Policy, i: Instance, e: Env, answer: LockAnswer)
    requires Before(policy, i, e)
    ensures ResultFollows(DoResend(i, e, answer))
  {
  }

  lemma PrepareFreshFollows(policy: Policy, i: Instance, e: Env)
    requires Before(policy, i, e)
    ensures ResultFollows(DoPrepareFresh(i, e))
  {
  }

  lemma SaveLockFollows(policy: Policy, i: Instance, e: Env, fault: Fault)
    requires Before(policy, i, e)
    ensures ResultFollows(DoSaveLock(i, e, fault))
  {
    hide BuyerLocks.InstInv, FlowFollows, StoreFollows, Save;
    BuyerLocks.HoldsItsDigest(policy, i, e);
    SaveFollows(i, e, Body(i), fault);
  }

  lemma LockReadFailsFollows(policy: Policy, i: Instance, e: Env)
    requires Before(policy, i, e)
    ensures ResultFollows(DoLockReadFails(i, e))
  {
  }

  lemma LockFollows(policy: Policy, i: Instance, e: Env, action: LockAction)
    requires Before(policy, i, e)
    ensures ResultFollows(DoLock(policy, i, e, action))
  {
    hide Before, ResultFollows, DoStartLock, DoReadGuardNote, DoPrepareFirst, DoStartRecover, DoSaveLock, DoSend, DoRecover, DoReread, DoResend, DoPrepareFresh, DoLockReadFails;
    match action
    case StartLock => StartLockFollows(policy, i, e);
    case ReadGuardNote => ReadGuardNoteFollows(policy, i, e);
    case PrepareFirst(accounts, marker) => PrepareFirstFollows(policy, i, e, accounts, marker);
    case StartRecover => StartRecoverFollows(policy, i, e);
    case SaveLock(fault) => SaveLockFollows(policy, i, e, fault);
    case Send(outcome) => SendFollows(policy, i, e, outcome);
    case Recover(answer) => RecoverFollows(policy, i, e, answer);
    case Reread(found) => RereadFollows(policy, i, e, found);
    case Resend(answer) => ResendFollows(policy, i, e, answer);
    case PrepareFresh => PrepareFreshFollows(policy, i, e);
    case LockReadFails => LockReadFailsFollows(policy, i, e);
  }

  lemma StartClaimFollows(i: Instance, e: Env, secret: Secret)
    requires StoreFollows(e.store) && InstFollows(i)
    ensures ResultFollows(DoStartClaim(i, e, secret))
  {
  }

  lemma CallNoteFollows(i: Instance, e: Env, call: NoteCall)
    requires StoreFollows(e.store) && InstFollows(i)
    ensures ResultFollows(DoCallNote(i, e, call))
  {
  }

  lemma AdoptedFollows(i: Instance)
    requires InstFollows(i) && i.settlePc.ReadingBack?
    ensures InstFollows(i.(latches := AdoptClaim(i.latches), settlePc := Saving(SettleIdle)))
  {
  }

  lemma ClearedFollows(i: Instance)
    requires InstFollows(i) && i.settlePc.ReadingBack?
    ensures InstFollows(WithClaim(i, i.latches.claim.(attempted := false)).(settlePc := Saving(SettleIdle)))
  {
  }

  lemma ReadBackFollows(i: Instance, e: Env)
    requires StoreFollows(e.store) && InstFollows(i)
    ensures ResultFollows(DoReadBack(i, e))
  {
    if i.settlePc.ReadingBack? {
      AdoptedFollows(i);
      ClearedFollows(i);
    }
  }

  lemma SeeLegAClaimedFollows(i: Instance, e: Env)
    requires StoreFollows(e.store) && InstFollows(i)
    ensures ResultFollows(DoSeeLegAClaimed(i, e))
  {
  }

  lemma StartRefundFollows(i: Instance, e: Env)
    requires StoreFollows(e.store) && InstFollows(i)
    ensures ResultFollows(DoStartRefund(i, e))
  {
  }

  lemma ReadNoteFollows(i: Instance, e: Env)
    requires StoreFollows(e.store) && InstFollows(i)
    ensures ResultFollows(DoReadNote(i, e))
  {
  }

  lemma CheckPendingFollows(i: Instance, e: Env, claimSeen: bool)
    requires StoreFollows(e.store) && InstFollows(i)
    ensures ResultFollows(DoCheckPending(i, e, claimSeen))
  {
  }

  lemma AskAbsenceFollows(i: Instance, e: Env)
    requires StoreFollows(e.store) && InstFollows(i)
    ensures ResultFollows(DoAskAbsence(i, e))
  {
  }

  lemma CheckAbsenceFollows(i: Instance, e: Env, answer: Absence)
    requires StoreFollows(e.store) && InstFollows(i)
    ensures ResultFollows(DoCheckAbsence(i, e, answer))
  {
  }

  lemma RecoverRefundFollows(i: Instance, e: Env, answer: RefundAnswer)
    requires StoreFollows(e.store) && InstFollows(i)
    ensures ResultFollows(DoRecoverRefund(i, e, answer))
  {
  }

  lemma IntendFollows(i: Instance, e: Env)
    requires StoreFollows(e.store) && InstFollows(i)
    ensures ResultFollows(DoIntend(i, e))
  {
  }

  lemma CallRefundFollows(i: Instance, e: Env, signedTx: nat)
    requires StoreFollows(e.store) && InstFollows(i)
    ensures ResultFollows(DoCallRefund(i, e, signedTx))
  {
  }

  lemma FinishRefundFollows(i: Instance, e: Env, outcome: RefundOutcome)
    requires StoreFollows(e.store) && InstFollows(i)
    ensures ResultFollows(DoFinishRefund(i, e, outcome))
  {
  }

  lemma SettleReadFailsFollows(i: Instance, e: Env)
    requires StoreFollows(e.store) && InstFollows(i)
    ensures ResultFollows(DoSettleReadFails(i, e))
  {
  }

  lemma SaveSettleFollows(policy: Policy, i: Instance, e: Env, fault: Fault)
    requires Before(policy, i, e)
    ensures ResultFollows(DoSaveSettle(i, e, fault))
  {
    SaveFollows(i, e, Body(i), fault);
  }

  lemma SettleFollows(policy: Policy, i: Instance, e: Env, action: SettleAction)
    requires Before(policy, i, e)
    ensures ResultFollows(DoSettle(i, e, action))
  {
    hide BuyerLocks.InstInv, StoreFollows, InstFollows, ResultFollows, DoStartClaim, DoCallNote, DoReadBack, DoSeeLegAClaimed, DoStartRefund, DoReadNote, DoCheckPending, DoAskAbsence, DoCheckAbsence, DoRecoverRefund, DoIntend, DoCallRefund, DoFinishRefund, DoSettleReadFails, DoSaveSettle;
    match action
    case StartClaim(secret) => StartClaimFollows(i, e, secret);
    case CallNote(call) => CallNoteFollows(i, e, call);
    case ReadBack => ReadBackFollows(i, e);
    case SeeLegAClaimed => SeeLegAClaimedFollows(i, e);
    case StartRefund => StartRefundFollows(i, e);
    case ReadNote => ReadNoteFollows(i, e);
    case CheckPending(claimSeen) => CheckPendingFollows(i, e, claimSeen);
    case AskAbsence => AskAbsenceFollows(i, e);
    case CheckAbsence(answer) => CheckAbsenceFollows(i, e, answer);
    case RecoverRefund(answer) => RecoverRefundFollows(i, e, answer);
    case Intend => IntendFollows(i, e);
    case CallRefund(signedTx) => CallRefundFollows(i, e, signedTx);
    case FinishRefund(outcome) => FinishRefundFollows(i, e, outcome);
    case SettleReadFails => SettleReadFailsFollows(i, e);
    case SaveSettle(fault) => SaveSettleFollows(policy, i, e, fault);
  }

  /** Where a line's own checks passed, the flow and the record its save derives still follow. */
  lemma ReadyLineFollows(policy: Policy, i: Instance, e: Env, action: LineAction)
    requires InstFollows(i) && LineReady(policy, i, e, action)
    ensures FlowFollows(LineFlow(i, action).latches, LineBody(i, action).landed)
    ensures FlowFollows(LatchedAfter(LineFlow(i, action).latches, Body(i), action), LineBody(i, action).landed)
    ensures FlowFollows(LineFlow(i, action).latches, Body(i).landed)
  {
  }

  lemma ClaimsStayAfterAccept(pc: SettlePc, landed: set<Kind>, landed': set<Kind>)
    requires ClaimsAfterAccept(pc, landed) && landed <= landed'
    ensures ClaimsAfterAccept(pc, landed')
  {
    if pc.Saving? {
      ClaimsStayAfterAccept(pc.then_, landed, landed');
    }
  }

  /** What a line's step leaves: the write's journal and store, and the latches of before or of after the line. */
  lemma LineShape(policy: Policy, i: Instance, e: Env, action: LineAction)
    requires LineReady(policy, i, e, action)
    ensures var (flow, w) := (LineFlow(i, action), Save(LineFlow(i, action), e, LineBody(i, action), action.fault));
            && DoLine(policy, i, e, action).env.store == w.store
            && DoLine(policy, i, e, action).inst
               == i.(journal := w.journal,
                     latches := if w.answer.Resolved? then LatchedAfter(flow.latches, Body(i), action) else flow.latches)
  {
  }

  lemma Joined(i: Instance, journal: Journal<Record>, latches: Latches, landed: set<Kind>)
    requires FlowFollows(latches, landed) && journal.current.body.landed == landed && ClaimsAfterAccept(i.settlePc, landed)
    ensures InstFollows(i.(journal := journal, latches := latches))
  {
  }

  lemma LineFollows(policy: Policy, i: Instance, e: Env, action: LineAction)
    requires Before(policy, i, e)
    ensures ResultFollows(DoLine(policy, i, e, action))
  {
    hide BuyerLocks.InstInv, FlowFollows, LatchedAfter, LatchedBefore, LineReady, Save, StoreFollows;
    BuyerLocks.HoldsItsDigest(policy, i, e);
    if LineReady(policy, i, e, action) {
      var (flow, body) := (LineFlow(i, action), LineBody(i, action));
      var w := Save(flow, e, body, action.fault);
      ReadyLineFollows(policy, i, e, action);
      SaveFollows(flow, e, body, action.fault);
      LineShape(policy, i, e, action);
      if w.answer.Resolved? {
        ClaimsStayAfterAccept(i.settlePc, Body(i).landed, body.landed);
        Joined(i, w.journal, LatchedAfter(flow.latches, Body(i), action), body.landed);
      } else {
        Joined(i, w.journal, flow.latches, Body(i).landed);
      }
    }
  }

  lemma FirstSaveFollows(e: Env, offerA: Offer, fault: Fault)
    requires StoreFollows(e.store)
    ensures var w := FirstSave(e, offerA, fault);
            StoreFollows(w.store) && (w.answer.Resolved? ==> InstFollows(Instance(w.journal, FreshLatches, LockIdle, SettleIdle)))
  {
    hide FirstSave;
    BuyerLocks.FirstVersion(e, offerA, fault);
  }

  lemma ActFollows(policy: Policy, i: Instance, e: Env, action: Action)
    requires Before(policy, i, e)
    ensures ResultFollows(DoAct(policy, i, e, action))
  {
    match action
    case OnLock(lock) => LockFollows(policy, i, e, lock);
    case OnSettle(settle) => SettleFollows(policy, i, e, settle);
    case OnLine(line) => LineFollows(policy, i, e, line);
  }

  lemma ResumeFollows(config: Config, s: System, id: nat)
    requires Follows(s)
    ensures Follows(Step(config, s, Resume(id)))
  {
    hide FlowFollows, RecordFollows;
    if s.env.store.held.Some? && Rebuild(s.env.store.held.value.body).Flow? {
      RebuiltFollows(s.env.store.held.value.body);
    }
  }

  lemma ActStepFollows(config: Config, s: System, id: nat, action: Action)
    requires BuyerLocks.Inv(config, s) && Follows(s) && id in s.live
    ensures Follows(Step(config, s, Act(id, action)))
  {
    hide BuyerLocks.InstInv, BuyerLocks.EnvInv, StoreFollows, InstFollows, DoAct;
    ActFollows(config.policy, s.live[id], s.env, action);
  }

  lemma StepFollows(config: Config, s: System, event: Event)
    requires BuyerLocks.Inv(config, s) && Follows(s)
    ensures Follows(Step(config, s, event))
  {
    hide BuyerLocks.Inv, FlowFollows, RecordFollows, DoAct;
    match event
    case Begin(_, offerA, fault) => FirstSaveFollows(s.env, offerA, fault);
    case Act(id, action) =>
      if id in s.live {
        ActStepFollows(config, s, id, action);
      }
    case Resume(id) => ResumeFollows(config, s, id);
    case _ =>
  }

  lemma {:induction false} EveryRunFollows(config: Config, run: seq<Event>)
    ensures Follows(After(config, run))
  {
    if run != [] {
      EveryRunFollows(config, run[..|run| - 1]);
      BuyerLocks.EveryRunKeepsInv(config, run[..|run| - 1]);
      StepFollows(config, After(config, run[..|run| - 1]), run[|run| - 1]);
    }
  }

  /**
   * Over every run, with any number of live instances: whatever version was ever durable, each line it marks landed has
   * the lines before it landed too, and the fact it reports in the same record.
   */
  lemma LinesLandInOrder(config: Config, run: seq<Event>, k: nat)
    requires k < |After(config, run).env.store.history|
    ensures var r := After(config, run).env.store.history[k].body;
            && (AcceptB in r.landed ==> OfferA in r.landed)
            && (AccountA in r.landed || r.legBVerified ==> AcceptB in r.landed)
            && (LockA in r.landed ==> OfferA in r.landed && r.lock.evidence.Some?)
            && (RevealB in r.landed ==> AcceptB in r.landed && (r.claim.claimed || r.claim.adopted))
            && (ReceiptB in r.landed ==> RevealB in r.landed)
            && (RefundA in r.landed ==> r.refund.evidence.Some?)
            && (ReceiptRefundA in r.landed ==> RefundA in r.landed)
  {
    EveryRunFollows(config, run);
  }

  // --- the pairing -----------------------------------------------------------------------------------------------------

  /** The deadline policy accepted the record's pair of offers, at some lock time. */
  ghost predicate Checked(policy: Policy, r: Record) {
    r.pairing.Some? ==> exists lockTimeMs: nat :: policy(r.offerA, r.pairing.value.offerB, lockTimeMs)
  }

  /** Every durable version's pair was checked, and each version keeps the offer and the pairing of those before it. */
  ghost predicate PairsHold(policy: Policy, store: Store<Record>) {
    && (forall k :: 0 <= k < |store.history| ==> Checked(policy, store.history[k].body))
    && (forall j, k :: 0 <= j <= k < |store.history| ==> BuyerOutcomes.Carries(store.history[j].body, store.history[k].body))
  }

  lemma SavePairsHold(policy: Policy, i: Instance, e: Env, body: Record, fault: Fault)
    requires BuyerLocks.HeldIsLast(e.store) && i.journal.digest == Some(i.journal.current) && PairsHold(policy, e.store)
    requires Checked(policy, body) && BuyerOutcomes.Carries(Body(i), body)
    ensures PairsHold(policy, Save(i, e, body, fault).store)
  {
    hide Save, Checked;
    BuyerLocks.SaveShape(i, e, body, fault);
    ProjectionIsChecked(policy, i.latches, body);
    var store := Save(i, e, body, fault).store;
    if store != e.store {
      var last := |e.store.history|;
      assert store.history[last - 1] == i.journal.current;
      forall j | 0 <= j <= last ensures BuyerOutcomes.Carries(store.history[j].body, store.history[last].body) {
        assert j < last ==> BuyerOutcomes.Carries(e.store.history[j].body, e.store.history[last - 1].body);
      }
    }
  }

  lemma ProjectionIsChecked(policy: Policy, l: Latches, r: Record)
    requires Checked(policy, r)
    ensures Checked(policy, Project(l, r))
  {
  }

  /** What a flow stands on: its own version is one of the durable ones. */
  lemma OwnVersionIsChecked(policy: Policy, i: Instance, e: Env)
    requires BuyerLocks.EnvInv(policy, e) && BuyerLocks.InstInv(policy, i, e) && PairsHold(policy, e.store)
    ensures BuyerLocks.HeldIsLast(e.store) && i.journal.digest == Some(i.journal.current) && Checked(policy, Body(i))
  {
    hide BuyerLocks.SavedLocksAgree, BuyerLocks.SentWell, BuyerLocks.LatchedLock, BuyerLocks.LockPcInv, Checked;
    var k :| 0 <= k < |e.store.history| && e.store.history[k] == i.journal.current;
  }

  /** A line carries the pairing on, or sets one the policy accepted against this swap's own offer. */
  lemma LineIsChecked(policy: Policy, i: Instance, e: Env, action: LineAction)
    requires BuyerOutcomes.InstOk(i, e) && LineReady(policy, i, e, action) && Checked(policy, Body(i))
    ensures Checked(policy, LineBody(i, action)) && BuyerOutcomes.Carries(Body(i), LineBody(i, action))
  {
    if action.SavePairing? {
      assert policy(Body(i).offerA, action.pairing.offerB, action.plannedLockMs);
    }
  }

  lemma LinePairsHold(policy: Policy, i: Instance, e: Env, action: LineAction)
    requires BuyerLocks.EnvInv(policy, e) && BuyerLocks.InstInv(policy, i, e) && BuyerOutcomes.InstOk(i, e) && PairsHold(policy, e.store)
    ensures PairsHold(policy, DoLine(policy, i, e, action).env.store)
  {
    hide BuyerLocks.EnvInv, BuyerLocks.InstInv, BuyerOutcomes.InstOk, PairsHold, Checked, Save, LineReady, LineBody;
    if LineReady(policy, i, e, action) {
      OwnVersionIsChecked(policy, i, e);
      LineIsChecked(policy, i, e, action);
      LineShape(policy, i, e, action);
      SavePairsHold(policy, LineFlow(i, action), e, LineBody(i, action), action.fault);
    }
  }

  /** A lock call or a settling call saves the flow's own version with its state laid over it, or nothing. */
  lemma CallSavesItsVersion(policy: Policy, i: Instance, e: Env, action: Action)
    requires !action.OnLine?
    ensures var store := DoAct(policy, i, e, action).env.store;
            store == e.store || exists fault :: store == Save(i, e, Body(i), fault).store
  {
    hide Save;
    match action
    case OnLock(lock) =>
      if lock.Send? {
        BuyerResults.SendKeepsStore(policy, i, e, lock.outcome);
      } else if !lock.SaveLock? {
        BuyerOutcomes.LockStands(policy, i, e, lock);
      }
    case OnSettle(settle) =>
      if !(settle.SaveSettle? && i.settlePc.Saving?) {
        BuyerLocks.SettleIsQuiet(i, e, settle);
      }
  }

  lemma ActPairsHold(policy: Policy, i: Instance, e: Env, action: Action)
    requires BuyerLocks.EnvInv(policy, e) && BuyerLocks.InstInv(policy, i, e) && BuyerOutcomes.InstOk(i, e) && PairsHold(policy, e.store)
    ensures PairsHold(policy, DoAct(policy, i, e, action).env.store)
  {
    hide BuyerLocks.EnvInv, BuyerLocks.InstInv, BuyerOutcomes.InstOk, PairsHold, Checked, Save, DoLock, DoSettle, DoLine;
    match action
    case OnLine(line) => LinePairsHold(policy, i, e, line);
    case _ =>
      OwnVersionIsChecked(policy, i, e);
      CallSavesItsVersion(policy, i, e, action);
      if DoAct(policy, i, e, action).env.store != e.store {
        var fault :| DoAct(policy, i, e, action).env.store == Save(i, e, Body(i), fault).store;
        SavePairsHold(policy, i, e, Body(i), fault);
      }
  }

  lemma BeginPairsHold(config: Config, s: System, id: nat, offerA: Offer, fault: Fault)
    requires BuyerLocks.HeldIsLast(s.env.store) && PairsHold(config.policy, s.env.store)
    ensures PairsHold(config.policy, Step(config, s, Begin(id, offerA, fault)).env.store)
  {
    hide FirstSave;
    BuyerLocks.FirstVersion(s.env, offerA, fault);
  }

  lemma StepPairsHold(config: Config, s: System, event: Event)
    requires BuyerOutcomes.Good(config, s) && PairsHold(config.policy, s.env.store)
    ensures PairsHold(config.policy, Step(config, s, event).env.store)
  {
    hide BuyerLocks.InstInv, BuyerOutcomes.EnvOk, BuyerOutcomes.InstOk, PairsHold, DoAct, FirstSave, BuyerLocks.SentWell, BuyerLocks.SavedLocksAgree;
    match event
    case Begin(id, offerA, fault) => BeginPairsHold(config, s, id, offerA, fault);
    case Act(id, action) => if id in s.live { ActPairsHold(config.policy, s.live[id], s.env, action); }
    case _ =>
  }

  lemma {:induction false} EveryPairHolds(config: Config, run: seq<Event>)
    ensures PairsHold(config.policy, After(config, run).env.store)
  {
    if run != [] {
      EveryPairHolds(config, run[..|run| - 1]);
      BuyerOutcomes.EveryRunIsGood(config, run[..|run| - 1]);
      StepPairsHold(config, After(config, run[..|run| - 1]), run[|run| - 1]);
    }
  }

  /**
   * Over every run, with any number of live instances: a pairing in any version ever durable was accepted by the deadline
   * policy against the swap's own offer, and every later version has the same offer and the same pairing.
   */
  lemma PairingsWereChecked(config: Config, run: seq<Event>, j: nat, k: nat)
    requires j <= k < |After(config, run).env.store.history|
    requires After(config, run).env.store.history[j].body.pairing.Some?
    ensures var (r, later) := (After(config, run).env.store.history[j].body, After(config, run).env.store.history[k].body);
            && (exists lockTimeMs: nat :: config.policy(r.offerA, r.pairing.value.offerB, lockTimeMs))
            && later.offerA == r.offerA && later.pairing == r.pairing
  {
    hide Step;
    EveryPairHolds(config, run);
  }
}
