/**
 * What every Buyer flow and the record they share keep over every run: any number of live instances, crashes at any
 * step, failing saves, lost replies, and `lockLegA` overlapping `claimLegB` or `refundLegA` in one process.
 */
module BuyerOutcomes {
  import opened Options
  import opened Journal
  import opened BuyerState
  import opened BuyerSteps
  import opened BuyerLocks

  // --- what a saved record says ----------------------------------------------------------------------------------------

  predicate PairingSaved(landed: set<Kind>, pairing: Option<Pairing>, stampMs: Option<nat>, legBVerified: bool) {
    && (AcceptB in landed ==> OfferA in landed && pairing.Some?)
    && (AcceptB in landed <==> stampMs.Some?)
    && (legBVerified ==> AcceptB in landed)
  }

  predicate LockSaved(lock: LockState, landed: set<Kind>, pairing: Option<Pairing>, legBVerified: bool) {
    && (lock.attempted ==>
          && AcceptB in landed && legBVerified && pairing.Some? && lock.hashLock == Some(pairing.value.statement)
          && lock.accounts.Some? && lock.prepared.Some?)
    && (lock.hashLock.Some? || lock.evidence.Some? || lock.prepared.Some? || lock.neverLanded ==> lock.attempted)
    && (LockA in landed ==> lock.evidence.Some?)
  }

  /** The escrow finds a lock by its hash lock. */
  predicate RefSaved(prepared: Option<Prepared>, pairing: Option<Pairing>, kind: RailKind) {
    kind.Escrow? && prepared.Some? ==> pairing.Some? && prepared.value.ref == OfHashLock(pairing.value.statement)
  }

  /**
   * A verdict is reached only once leg A's refund time has come, on the escrow, with no lock landed. A lock call of the
   * same process may still record a lock it saw on a block that was not final.
   */
  predicate VerdictSaved(lock: LockState, refund: RefundState, refundAfterMs: nat, rail: Rail, nowMs: nat) {
    lock.neverLanded ==>
      rail.kind.Escrow? && nowMs >= refundAfterMs && rail.landed == {} && refund.evidence.None?
  }

  /** A claim of leg A was seen only where there is one, except that the Bitcoin leg's check may see one before it confirms. */
  predicate RefundSaved(refund: RefundState, attempted: bool, landed: set<Kind>, refundAfterMs: nat, rail: Rail, nowMs: nat) {
    && (refund.attempted ==> attempted && nowMs >= refundAfterMs)
    && (refund.recovery.Some? || refund.evidence.Some? ==> refund.attempted)
    && (refund.claimSeen ==> rail.claimed || rail.kind.SignedByOutpoint?)
    && (RefundA in landed || ReceiptRefundA in landed ==> refund.evidence.Some?)
  }

  predicate ClaimSaved(claim: ClaimState, landed: set<Kind>, notes: seq<Note>) {
    && (claim.claimed || claim.adopted ==> claim.attempted)
    && !(claim.claimed && claim.adopted)
    && (claim.attempted ==> AcceptB in landed)
    && (ReceiptB in landed || RevealB in landed ==> claim.claimed || claim.adopted)
    && (notes == [] || notes == [AdoptedClaim])
  }

  /** Everything above: what the steps keep of the record the flow would save right now. */
  predicate Coherent(r: Record, e: Env) {
    && PairingSaved(r.landed, r.pairing, r.acceptBStampMs, r.legBVerified)
    && LockSaved(r.lock, r.landed, r.pairing, r.legBVerified) && RefSaved(r.lock.prepared, r.pairing, e.rail.kind)
    && VerdictSaved(r.lock, r.refund, r.offerA.refundAfterMs, e.rail, e.nowMs)
    && RefundSaved(r.refund, r.lock.attempted, r.landed, r.offerA.refundAfterMs, e.rail, e.nowMs)
    && ClaimSaved(r.claim, r.landed, r.refundNotes)
  }

  predicate Known(r: Record, e: Env) {
    Coherent(r, e) && Encodable(r) && FlagsFollowLedger(r)
  }

  /** The latches that a projection does not carry agree with the record. */
  predicate Tied(l: Latches, r: Record) {
    && (l.offerA.Some? ==> l.offerA == Some(r.offerA) && OfferA in r.landed)
    && (l.pairing.Some? ==> l.pairing == r.pairing && l.offerA.Some? && AcceptB in r.landed)
    && (l.acceptBStampMs.Some? ==> l.acceptBStampMs == r.acceptBStampMs)
    && (l.pairing.Some? <==> l.acceptBStampMs.Some?)
    && (l.legBVerified || l.lock.attempted || l.claim.attempted ==> l.pairing.Some?)
    && (l.lock.prepared.Some? ==> l.lock.railRef == Some(l.lock.prepared.value.ref))
  }

  predicate FlowOk(l: Latches, r: Record, e: Env) {
    Tied(l, r) && Coherent(Project(l, r), e)
  }

  // --- the invariant ---------------------------------------------------------------------------------------------------

  /** What the flow's own version of the record says is also set in the live flow. */
  predicate NotAhead(r: Record, l: Latches) {
    && (r.lock.attempted ==> l.lock.attempted)
    && (r.lock.neverLanded ==> l.lock.neverLanded)
    && (r.lock.evidence.Some? ==> l.lock.evidence.Some?)
    && (r.claim.claimed ==> l.claim.claimed)
    && (r.refund.attempted ==> l.refund.attempted)
    && (r.refund.evidence.Some? ==> l.refund.evidence.Some?)
    && (r.lock.prepared.Some? ==> l.lock.prepared.Some? && l.lock.prepared.value.ref == r.lock.prepared.value.ref)
  }

  /** Where the settling step is, or will be once its save resolved. */
  function Target(pc: SettlePc): SettlePc {
    if pc.Saving? then pc.then_ else pc
  }

  /** From here on a refund may be, or is being, sent. */
  predicate PastAbsence(pc: SettlePc) {
    var t := Target(pc);
    t.RecoveringRefund? || t.Intending? || t.Refunding? || t.SendingRefund? || t.Confirming?
  }

  /** `refundLegA` passed its own checks and has not ended. */
  predicate Refunds(pc: SettlePc) {
    var t := Target(pc);
    PastAbsence(pc) || t.ReadingNote? || t.CheckingPending? || t.CheckingAbsence? || t.AwaitingAbsence?
  }

  /** The refund's intent is latched: it is durable, or its save is under way. */
  predicate IntentLatched(pc: SettlePc) {
    Target(pc).Refunding? || Target(pc).SendingRefund?
  }

  predicate RefundPcOk(pc: SettlePc, l: Latches, e: Env) {
    && (Refunds(pc) ==>
          && !l.claim.claimed && !l.lock.neverLanded && l.lock.attempted && l.offerA.Some? && e.nowMs >= l.offerA.value.refundAfterMs)
    && (Target(pc).AwaitingAbsence? ==> e.rail.kind.Escrow? && l.refund.evidence.None?)
    && (PastAbsence(pc) && e.rail.kind.Escrow? ==> l.lock.evidence.Some? || l.refund.evidence.Some?)
    && (IntentLatched(pc) ==> l.refund.attempted)
  }

  predicate ClaimPcOk(pc: SettlePc, l: Latches) {
    var t := Target(pc);
    && (t.ClaimingNote? || t.ReadingBack? || t.ReadingNote? ==> l.claim == ClaimState(true, false, false) && l.pairing.Some?)
    && (t.ClaimingNote? ==> Opens(l.pairing.value.statement, t.secret))
  }

  predicate SettlePcOk(pc: SettlePc, l: Latches, e: Env) {
    RefundPcOk(pc, l, e) && ClaimPcOk(pc, l) && (pc.Saving? ==> !pc.then_.Saving?)
  }

  /**
   * A lock step in flight belongs to a paired flow whose leg B was verified, and its guard pass is this swap's own; a first
   * lock is still unattempted, and only a signed rail resends.
   */
  predicate LockPcOk(pc: LockPc, l: Latches, offerA: Offer, kind: RailKind) {
    && (match pc
        case Guarding(guard, then_) =>
          && guard.offerA == offerA
          && (match then_
              case FirstLock => l.pairing == Some(guard.pairing) && l.offerA.Some? && l.legBVerified && !l.lock.attempted
              case ResendSaved(_) => !kind.Escrow? && l.pairing.Some? && l.lock.attempted
              case FreshLock(_) => l.pairing.Some? && l.lock.attempted)
        case Preparing(guard) =>
          guard.offerA == offerA && l.pairing == Some(guard.pairing) && l.offerA.Some? && l.legBVerified && !l.lock.attempted
        case SavingPrepared(_, guard) => guard.offerA == offerA
        case Sending(_, guard) => guard.offerA == offerA
        case Rereading(_, passed) => passed.Some? ==> !kind.Escrow? && passed.value.offerA == offerA
        case Rebuilding(_, guard) => guard.offerA == offerA
        case Resending(_, guard) => !kind.Escrow? && guard.offerA == offerA
        case _ => true)
    && (!pc.LockIdle? && !pc.Guarding? && !pc.Preparing? && !pc.SavingOutcome? ==> l.pairing.Some? && l.lock.attempted)
  }

  /** The version a flow holds may be an old one; its offer, and its pairing once it has one, are the held record's. */
  predicate StoreOk(i: Instance, e: Env) {
    && e.store.held.Some?
    && Body(i).offerA == e.store.held.value.body.offerA
    && (Body(i).pairing.Some? ==> Body(i).pairing == e.store.held.value.body.pairing)
  }

  predicate LatchesOk(i: Instance, e: Env) {
    FlowOk(i.latches, Body(i), e) && NotAhead(Body(i), i.latches)
  }

  predicate InstOk(i: Instance, e: Env) {
    && StoreOk(i, e) && LatchesOk(i, e)
    && SettlePcOk(i.settlePc, i.latches, e)
    && LockPcOk(i.lockPc, i.latches, Body(i).offerA, e.rail.kind)
  }

  lemma FlowHolds(i: Instance, e: Env)
    requires InstOk(i, e)
    ensures FlowOk(i.latches, Body(i), e)
  {
  }

  ghost predicate EnvOk(e: Env) {
    && (e.rail.claimed ==> e.rail.landed != {})
    && (forall s :: s in e.rail.sent ==> e.store.held.Some? && s.refundAfterMs == e.store.held.value.body.offerA.refundAfterMs)
    && (e.store.held.Some? ==> Known(e.store.held.value.body, e))
  }

  /** A sound world with sound instances. */
  ghost predicate AllOk(s: System) {
    && EnvOk(s.env)
    && (forall id :: id in s.live ==> InstOk(s.live[id], s.env))
  }

  ghost predicate Good(config: Config, s: System) {
    Inv(config, s) && AllOk(s)
  }

  // --- saving ------------------------------------------------------------------------------------------------------------

  /** What a sound flow saves is a sound record. */
  lemma SavedIsKnown(l: Latches, r: Record, e: Env)
    requires FlowOk(l, r, e) && Encodable(Project(l, r))
    ensures Known(Project(l, r), e)
  {
    ProjectedFlagsFollow(l, r);
  }

  /** A sound flow's record encodes, unless beside the verdict it claimed leg B itself or recorded the lock as seen. */
  lemma EncodesUnlessClaimedAfterVerdict(l: Latches, r: Record, e: Env)
    requires FlowOk(l, r, e) && EnvOk(e)
    ensures Encodable(Project(l, r)) <==> !(l.lock.neverLanded && (l.claim.claimed || l.lock.evidence.Some?))
  {
  }

  /** Saving changes what the record says by nothing but the flow's own state. */
  lemma ProjectionIsSound(l: Latches, body: Record, e: Env)
    requires FlowOk(l, body, e)
    ensures FlowOk(l, Project(l, body), e) && NotAhead(Project(l, body), l)
  {
    ProjectedFlagsFollow(l, body);
  }

  /** What one save wrote, if it wrote: the projection, which encoded. */
  lemma SavedEncodes(i: Instance, e: Env, body: Record, fault: Fault)
    requires i.journal.digest == Some(i.journal.current)
    ensures var w := Save(i, e, body, fault);
            && (w.store != e.store ==> Encodable(Project(i.latches, body)))
            && (w.answer.Resolved? ==> w.journal.current.body == Project(i.latches, body))
  {
  }

  /** A record derived from another keeps its offer, and its pairing once it has one. */
  predicate Carries(r: Record, r': Record) {
    r'.offerA == r.offerA && (r.pairing.Some? ==> r'.pairing == r.pairing)
  }

  /** A world and an instance after a write of the flow's projection. */
  lemma WriteGood(i: Instance, e: Env, body: Record, journal: Journal<Record>, store: Store<Record>)
    requires EnvOk(e) && InstOk(i, e)
    requires FlowOk(i.latches, body, e) && Carries(Body(i), body)
    requires store == e.store || (store.held.Some? && store.held.value.body == Project(i.latches, body) && Encodable(Project(i.latches, body)))
    requires if journal.failed then journal.current == i.journal.current
             else store != e.store && store.held == Some(journal.current)
    ensures EnvOk(e.(store := store)) && InstOk(i.(journal := journal), e.(store := store))
  {
    ProjectionIsSound(i.latches, body, e);
    if store != e.store {
      SavedIsKnown(i.latches, body, e);
    }
  }

  /** What a save by a sound flow leaves: a sound world and flow, and what the flow holds is what was written. */
  ghost predicate SavedWell(i: Instance, e: Env, body: Record, w: Written<Record>) {
    var i', e' := i.(journal := w.journal), e.(store := w.store);
    && EnvOk(e') && InstOk(i', e')
    && (w.answer.Resolved? ==> Body(i') == Project(i.latches, body) && e'.store.held == Some(i'.journal.current) && !w.journal.failed)
    && (w.answer.Threw? ==> Body(i') == Body(i) && w.journal.failed)
  }

  /** A save by a sound flow, of its live state over `body`. */
  lemma SaveGood(i: Instance, e: Env, body: Record, fault: Fault)
    requires EnvOk(e) && InstOk(i, e) && i.journal.digest == Some(i.journal.current)
    requires FlowOk(i.latches, body, e) && Carries(Body(i), body)
    ensures SavedWell(i, e, body, Save(i, e, body, fault))
  {
    var w := Save(i, e, body, fault);
    SaveShape(i, e, body, fault);
    SavedEncodes(i, e, body, fault);
    WriteGood(i, e, body, w.journal, w.store);
  }

  // --- what a step may change ------------------------------------------------------------------------------------------

  /** The store keeps its record, or holds one derived from it. */
  predicate StoreCarries(store: Store<Record>, store': Store<Record>) {
    store.held.Some? ==> store'.held.Some? && Carries(store.held.value.body, store'.held.value.body)
  }

  /** The escrow takes no lock from its refund time on. */
  predicate LandsInTime(e: Env, e': Env) {
    || e'.rail.landed == e.rail.landed || !e.rail.kind.Escrow?
    || (e.store.held.Some? && e'.nowMs < e.store.held.value.body.offerA.refundAfterMs)
  }

  /** The world moves on: time, saves, transactions, claims; a lock lands only where no verdict can have been reached. */
  predicate MovesOn(e: Env, e': Env) {
    && StoreCarries(e.store, e'.store) && e'.rail.kind == e.rail.kind && e.nowMs <= e'.nowMs
    && (e.rail.claimed ==> e'.rail.claimed) && (e'.rail.landed == {} ==> e.rail.landed == {})
    && LandsInTime(e, e')
  }

  /** Whatever the world or other instances do, a sound instance stays one. */
  lemma InstOkStays(i: Instance, e: Env, e': Env)
    requires InstOk(i, e) && MovesOn(e, e')
    ensures InstOk(i, e')
  {
  }

  lemma EnvOkStays(e: Env, e': Env)
    requires EnvOk(e) && MovesOn(e, e') && e'.store == e.store
    requires e'.rail.claimed ==> e'.rail.landed != {}
    requires forall s :: s in e'.rail.sent ==> s in e.rail.sent || (e.store.held.Some? && s.refundAfterMs == e.store.held.value.body.offerA.refundAfterMs)
    ensures EnvOk(e')
  {
  }

  lemma LockPcMoves(i: Instance, e: Env, pc: LockPc)
    requires InstOk(i, e) && LockPcOk(pc, i.latches, Body(i).offerA, e.rail.kind)
    ensures InstOk(i.(lockPc := pc), e)
  {
  }

  lemma SettlePcMoves(i: Instance, e: Env, pc: SettlePc)
    requires InstOk(i, e) && SettlePcOk(pc, i.latches, e)
    ensures InstOk(i.(settlePc := pc), e)
  {
  }

  lemma ClaimMoves(i: Instance, e: Env, claim: ClaimState, notes: seq<Note>, pc: SettlePc)
    requires InstOk(i, e)
    requires ClaimSaved(claim, Body(i).landed, notes) && (claim.attempted ==> i.latches.pairing.Some?)
    requires i.latches.claim.claimed ==> claim.claimed
    requires SettlePcOk(pc, i.latches.(claim := claim, refundNotes := notes), e)
    ensures InstOk(i.(latches := i.latches.(claim := claim, refundNotes := notes), settlePc := pc), e)
  {
  }

  lemma RefundMoves(i: Instance, e: Env, refund: RefundState, pc: SettlePc)
    requires InstOk(i, e)
    requires var body := Project(i.latches, Body(i));
             && RefundSaved(refund, body.lock.attempted, body.landed, body.offerA.refundAfterMs, e.rail, e.nowMs)
             && (i.latches.lock.neverLanded ==> refund.evidence.None?)
             && (i.latches.refund.attempted ==> refund.attempted) && (i.latches.refund.evidence.Some? ==> refund.evidence.Some?)
    requires SettlePcOk(pc, i.latches.(refund := refund), e)
    ensures InstOk(WithRefund(i, refund).(settlePc := pc), e)
  {
  }

  /** The lock is recorded as seen. */
  lemma EvidenceMoves(i: Instance, e: Env, ref: Ref)
    requires InstOk(i, e) && i.latches.lock.attempted
    ensures InstOk(WithLock(i, i.latches.lock.(evidence := Some(ref))), e)
  {
  }

  /** The saved lock is replaced by another of the same ref. */
  lemma PreparedMoves(i: Instance, e: Env, prepared: Prepared)
    requires InstOk(i, e) && i.latches.lock.prepared.Some? && i.latches.lock.prepared.value.ref == prepared.ref
    ensures InstOk(WithLock(i, i.latches.lock.(prepared := Some(prepared))), e)
  {
  }

  // --- the steps -------------------------------------------------------------------------------------------------------

  ghost predicate Before(policy: Policy, i: Instance, e: Env) {
    EnvInv(policy, e) && InstInv(policy, i, e) && EnvOk(e) && InstOk(i, e)
  }

  ghost predicate StepGood(r: Result) {
    EnvOk(r.env) && InstOk(r.inst, r.env)
  }

  lemma StartLockGood(policy: Policy, i: Instance, e: Env)
    requires EnvOk(e) && InstOk(i, e)
    ensures StepGood(DoStartLock(policy, i, e))
  {
    if LockMayStart(i) && !i.latches.lock.attempted {
      LockPcGood(i, e, StartGuards(policy, i, e, FirstLock));
    }
  }

  lemma ReadGuardNoteGood(i: Instance, e: Env)
    requires EnvOk(e) && InstOk(i, e)
    ensures StepGood(DoReadGuardNote(i, e))
  {
    if i.lockPc.Guarding? {
      LockPcGood(i, e, DoReadGuardNote(i, e).inst.lockPc);
    }
  }

  /** The first lock's latches, set over a flow that has none. */
  lemma FirstLatchesGood(i: Instance, e: Env, accounts: nat, marker: nat, prepared: Prepared)
    requires EnvOk(e) && InstOk(i, e) && i.lockPc.Preparing?
    requires i.latches.lock.prepared.None? && i.journal.digest == Some(i.journal.current)
    requires prepared.ref == RefFor(e.rail.kind, i.lockPc.guard.pairing.statement, prepared.tx)
    ensures StepGood(Result(
              WithLock(i, i.latches.lock.(hashLock := Some(i.lockPc.guard.pairing.statement), fromBlock := Some(marker),
                                          accounts := Some(accounts), railRef := Some(prepared.ref), attempted := true,
                                          prepared := Some(prepared))).(lockPc := SavingPrepared(prepared, i.lockPc.guard)), e))
  {
  }

  lemma PrepareFirstGood(policy: Policy, i: Instance, e: Env, accounts: nat, marker: nat)
    requires Before(policy, i, e)
    ensures StepGood(DoPrepareFirst(i, e, accounts, marker))
  {
    if i.lockPc.Preparing? {
      var prepared := Prepared(RefFor(e.rail.kind, i.lockPc.guard.pairing.statement, e.rail.issued), e.rail.issued, None);
      IssueGood(i, e);
      FirstLatchesGood(i, e.(rail := e.rail.(issued := e.rail.issued + 1)), accounts, marker, prepared);
    }
  }

  /** Handing over a lock behind this swap's own guards, at or before the verdict. */
  lemma HandGood(i: Instance, e: Env, prepared: Prepared, guard: GuardPass)
    requires EnvOk(e) && InstOk(i, e) && guard.offerA == Body(i).offerA
    ensures EnvOk(Handed(e, prepared, guard)) && InstOk(i, Handed(e, prepared, guard))
  {
    EnvOkStays(e, Handed(e, prepared, guard));
    InstOkStays(i, e, Handed(e, prepared, guard));
  }

  lemma LandKeepsEnvOk(e: Env, lock: Sent)
    requires EnvOk(e)
    ensures EnvOk(Land(e, lock))
  {
    if MayLand(e, lock) {
      EnvOkStays(e, Land(e, lock));
    }
  }

  /** A lock that may land proves that no verdict stands, in the store or in any flow. */
  lemma LandKeepsInstOk(i: Instance, e: Env, lock: Sent)
    requires EnvOk(e) && InstOk(i, e)
    ensures InstOk(i, Land(e, lock))
    ensures e.rail.kind.Escrow? && MayLand(e, lock) ==> !i.latches.lock.neverLanded
  {
    if MayLand(e, lock) {
      InstOkStays(i, e, Land(e, lock));
    }
  }

  /** The lock is seen on the chain: recorded, and its outcome saved next. */
  lemma SeenGood(i: Instance, e: Env, ref: Ref)
    requires EnvOk(e) && InstOk(i, e) && i.latches.lock.attempted
    ensures StepGood(Result(WithLock(i, i.latches.lock.(evidence := Some(ref))).(lockPc := SavingOutcome), e))
  {
    EvidenceMoves(i, e, ref);
    LockPcMoves(WithLock(i, i.latches.lock.(evidence := Some(ref))), e, SavingOutcome);
  }

  /** A lock step waits, or ends. */
  lemma LockPcGood(i: Instance, e: Env, pc: LockPc)
    requires EnvOk(e) && InstOk(i, e) && LockPcOk(pc, i.latches, Body(i).offerA, e.rail.kind)
    ensures StepGood(Result(i.(lockPc := pc), e))
  {
    LockPcMoves(i, e, pc);
  }

  lemma SettlePcGood(i: Instance, e: Env, pc: SettlePc)
    requires EnvOk(e) && InstOk(i, e) && SettlePcOk(pc, i.latches, e)
    ensures StepGood(Result(i.(settlePc := pc), e))
  {
    SettlePcMoves(i, e, pc);
  }

  lemma SendGood(policy: Policy, i: Instance, e: Env, outcome: SendOutcome)
    requires Before(policy, i, e)
    ensures StepGood(DoSend(policy, i, e, outcome))
  {
    match i.lockPc
    case Sending(prepared, guard) =>
      LockPcGood(i, e, LockIdle);
      if !(outcome.NothingSent? || (e.rail.kind.Escrow? && !DeadlinesSafe(policy, guard.offerA, guard.pairing, e.nowMs))) {
        SentGood(policy, i, e, outcome);
      }
    case _ =>
  }

  lemma SentGood(policy: Policy, i: Instance, e: Env, outcome: SendOutcome)
    requires Before(policy, i, e) && i.lockPc.Sending? && !outcome.NothingSent?
    requires !(e.rail.kind.Escrow? && !DeadlinesSafe(policy, i.lockPc.guard.offerA, i.lockPc.guard.pairing, e.nowMs))
    ensures StepGood(DoSend(policy, i, e, outcome))
  {
    hide EnvOk;
    var prepared, guard := i.lockPc.prepared, i.lockPc.guard;
    var sent := Sent(prepared.tx, prepared.ref, guard.offerA.refundAfterMs, guard, e.nowMs);
    var e' := Handed(e, prepared, guard);
    HandGood(i, e, prepared, guard);
    LockPcGood(i, e', LockIdle);
    match outcome
    case TimedOut(hash) =>
      var timedOut := i.latches.lock.prepared.value.(timedOutHash := Some(hash));
      PreparedMoves(i, e', timedOut);
      LockPcGood(WithLock(i, i.latches.lock.(prepared := Some(timedOut))), e', SavingOutcome);
    case Returned =>
      if e.rail.kind.Escrow? {
        LandKeepsEnvOk(e', sent);
        LandKeepsInstOk(i, e', sent);
        if MayLand(e', sent) {
          SeenGood(i, Land(e', sent), prepared.ref);
        }
      } else {
        SeenGood(i, e', prepared.ref);
      }
    case _ =>
  }

  lemma StartRecoverGood(i: Instance, e: Env)
    requires EnvOk(e) && InstOk(i, e)
    ensures StepGood(DoStartRecover(i, e))
  {
    if LockMayStart(i) && i.latches.lock.attempted && i.latches.lock.prepared.Some? {
      LockPcGood(i, e, Recovering(i.latches.lock.prepared.value));
    }
  }

  lemma RecoverGood(policy: Policy, i: Instance, e: Env, answer: LockAnswer)
    requires EnvOk(e) && InstOk(i, e)
    ensures StepGood(DoRecover(policy, i, e, answer))
  {
    hide EnvOk, HasRef;
    match i.lockPc
    case Recovering(prepared) =>
      SeenGood(i, e, prepared.ref);
      LockPcGood(i, e, LockIdle);
      LockPcGood(i, e, Rereading(prepared, None));
      if !e.rail.kind.Escrow? {
        LockPcGood(i, e, StartGuards(policy, i, e, ResendSaved(prepared)));
      }
    case _ =>
  }

  lemma RereadGood(policy: Policy, i: Instance, e: Env, found: bool)
    requires Before(policy, i, e)
    ensures StepGood(DoReread(policy, i, e, found))
  {
    match i.lockPc
    case Rereading(prepared, passed) =>
      if found {
        if HasRef(e.rail.landed, prepared.ref) {
          SeenGood(i, e, prepared.ref);
        }
      } else if passed.Some? {
        LockPcGood(i, e, Rebuilding(prepared, passed.value));
      } else {
        LockPcGood(i, e, StartGuards(policy, i, e, FreshLock(prepared)));
      }
    case _ =>
  }

  lemma ResendGood(policy: Policy, i: Instance, e: Env, answer: LockAnswer)
    requires Before(policy, i, e)
    ensures StepGood(DoResend(i, e, answer))
  {
    hide EnvInv, EnvOk, HasRef;
    match i.lockPc
    case Resending(prepared, guard) =>
      var e' := Handed(e, prepared, guard);
      HandGood(i, e, prepared, guard);
      LockPcGood(i, e', LockIdle);
      if RailMayAnswer(e'.rail, prepared, answer) {
        match answer
        case Landed => SeenGood(i, e', prepared.ref);
        case NeverLanded => LockPcGood(i, e', Rereading(prepared, Some(guard)));
        case _ =>
      }
    case _ =>
  }

  /** The rebuilt lock replaces the saved one only under its own ref. */
  lemma RebuiltGood(i: Instance, e: Env, rebuilt: Prepared)
    requires EnvOk(e) && InstOk(i, e) && i.lockPc.Rebuilding?
    requires i.latches.lock.prepared.Some? && i.latches.lock.prepared.value.ref == rebuilt.ref
    ensures StepGood(Result(WithLock(i, i.latches.lock.(prepared := Some(rebuilt))).(lockPc := SavingPrepared(rebuilt, i.lockPc.guard)), e))
  {
    PreparedMoves(i, e, rebuilt);
    LockPcGood(WithLock(i, i.latches.lock.(prepared := Some(rebuilt))), e, SavingPrepared(rebuilt, i.lockPc.guard));
  }

  lemma IssueGood(i: Instance, e: Env)
    requires EnvOk(e) && InstOk(i, e)
    ensures StepGood(Result(i, e.(rail := e.rail.(issued := e.rail.issued + 1))))
  {
    EnvOkStays(e, e.(rail := e.rail.(issued := e.rail.issued + 1)));
    InstOkStays(i, e, e.(rail := e.rail.(issued := e.rail.issued + 1)));
  }

  /** What a rebuilt lock leaves: nothing under another ref, else the rebuilt one, on its way to its save. */
  lemma PrepareFreshShape(i: Instance, e: Env) returns (rebuilt: Prepared)
    requires i.lockPc.Rebuilding?
    ensures var e' := e.(rail := e.rail.(issued := e.rail.issued + 1));
            DoPrepareFresh(i, e)
              == if rebuilt.ref != i.lockPc.prepared.ref then Result(i.(lockPc := LockIdle), e')
                 else Result(WithLock(i, i.latches.lock.(prepared := Some(rebuilt))).(lockPc := SavingPrepared(rebuilt, i.lockPc.guard)), e')
  {
    rebuilt := Prepared(RefFor(e.rail.kind, i.lockPc.guard.pairing.statement, e.rail.issued), e.rail.issued, None);
  }

  lemma FreshLockGood(i: Instance, e: Env, rebuilt: Prepared, r: Result)
    requires EnvOk(e) && InstOk(i, e) && i.lockPc.Rebuilding? && i.latches.lock.prepared == Some(i.lockPc.prepared)
    requires r.env == e.(rail := e.rail.(issued := e.rail.issued + 1))
    requires r.inst == if rebuilt.ref != i.lockPc.prepared.ref then i.(lockPc := LockIdle)
                       else WithLock(i, i.latches.lock.(prepared := Some(rebuilt))).(lockPc := SavingPrepared(rebuilt, i.lockPc.guard))
    ensures StepGood(r)
  {
    hide EnvOk, InstOk;
    IssueGood(i, e);
    if rebuilt.ref != i.lockPc.prepared.ref {
      LockPcGood(i, r.env, LockIdle);
    } else {
      RebuiltGood(i, r.env, rebuilt);
    }
    assert r == Result(r.inst, r.env);
  }

  lemma PrepareFreshGood(i: Instance, e: Env)
    requires EnvOk(e) && InstOk(i, e)
    requires i.lockPc.Rebuilding? ==> i.latches.lock.prepared == Some(i.lockPc.prepared)
    ensures StepGood(DoPrepareFresh(i, e))
  {
    hide EnvOk, InstOk, RefFor;
    if i.lockPc.Rebuilding? {
      var rebuilt := PrepareFreshShape(i, e);
      FreshLockGood(i, e, rebuilt, DoPrepareFresh(i, e));
    }
  }

  lemma LockReadFailsGood(i: Instance, e: Env)
    requires EnvOk(e) && InstOk(i, e)
    ensures StepGood(DoLockReadFails(i, e))
  {
    LockPcGood(i, e, LockIdle);
  }

  /** What a lock's save leaves, with its write named. */
  lemma SaveLockShape(i: Instance, e: Env, fault: Fault)
    requires i.lockPc.SavingPrepared? || i.lockPc.SavingOutcome?
    ensures var w := Save(i, e, Body(i), fault);
            DoSaveLock(i, e, fault)
              == Result(i.(journal := w.journal,
                           lockPc := if i.lockPc.SavingPrepared? && w.answer.Resolved? then Sending(i.lockPc.prepared, i.lockPc.guard)
                                     else LockIdle),
                        e.(store := w.store))
  {
  }

  lemma SaveLockGood(i: Instance, e: Env, fault: Fault)
    requires EnvOk(e) && InstOk(i, e) && i.journal.digest == Some(i.journal.current)
    ensures StepGood(DoSaveLock(i, e, fault))
  {
    if i.lockPc.SavingPrepared? || i.lockPc.SavingOutcome? {
      SaveGood(i, e, Body(i), fault);
      SavedLockPcGood(i, e, Save(i, e, Body(i), fault));
      SaveLockShape(i, e, fault);
    }
  }

  /** After a lock's save the step goes on, or ends. */
  lemma SavedLockPcGood(i: Instance, e: Env, w: Written<Record>)
    requires LockPcOk(i.lockPc, i.latches, Body(i).offerA, e.rail.kind)
    requires SavedWell(i, e, Body(i), w)
    ensures StepGood(Result(i.(journal := w.journal, lockPc := LockIdle), e.(store := w.store)))
    ensures i.lockPc.SavingPrepared? ==>
              StepGood(Result(i.(journal := w.journal, lockPc := Sending(i.lockPc.prepared, i.lockPc.guard)), e.(store := w.store)))
  {
    var r := WithWrite(i, e, w);
    LockPcGood(r.inst, r.env, LockIdle);
    if i.lockPc.SavingPrepared? {
      LockPcGood(r.inst, r.env, Sending(i.lockPc.prepared, i.lockPc.guard));
    }
  }

  lemma StartClaimGood(i: Instance, e: Env, secret: Secret)
    requires EnvOk(e) && InstOk(i, e)
    ensures StepGood(DoStartClaim(i, e, secret))
  {
  }

  /** Leg B's note is nobody's record. */
  lemma NoteGood(i: Instance, e: Env, note: PaperNote)
    requires EnvOk(e) && InstOk(i, e)
    ensures EnvOk(e.(note := note)) && InstOk(i, e.(note := note))
  {
    EnvOkStays(e, e.(note := note));
    InstOkStays(i, e, e.(note := note));
  }

  /** An attempt's outcome: claimed, adopted, or provably not landed. */
  lemma OutcomeGood(i: Instance, e: Env, pc: SettlePc)
    requires EnvOk(e) && InstOk(i, e) && i.latches.claim == ClaimState(true, false, false) && i.latches.pairing.Some?
    requires pc == Saving(SettleIdle) || (pc == Saving(CheckingPending) && Refunds(i.settlePc))
    ensures pc.then_.SettleIdle? ==> StepGood(Result(WithClaim(i, i.latches.claim.(claimed := true)).(settlePc := pc), e))
    ensures StepGood(Result(i.(latches := AdoptClaim(i.latches), settlePc := pc), e))
    ensures RevealB !in Body(i).landed && ReceiptB !in Body(i).landed
    ensures StepGood(Result(WithClaim(i, i.latches.claim.(attempted := false)).(settlePc := pc), e))
  {
    hide EnvOk;
    var l := i.latches;
    var adopted := AdoptClaim(l);
    ClaimMoves(i, e, adopted.claim, adopted.refundNotes, pc);
    ClaimMoves(i, e, l.claim.(attempted := false), l.refundNotes, pc);
    if pc.then_.SettleIdle? {
      ClaimMoves(i, e, l.claim.(claimed := true), l.refundNotes, pc);
    }
    assert WithClaim(i, l.claim.(attempted := false)).latches == l.(claim := l.claim.(attempted := false), refundNotes := l.refundNotes);
    assert WithClaim(i, l.claim.(claimed := true)).latches == l.(claim := l.claim.(claimed := true), refundNotes := l.refundNotes);
    assert adopted == l.(claim := adopted.claim, refundNotes := adopted.refundNotes);
  }

  /** What the note write leaves: a claim of this flow, or a note to read back. */
  lemma CallNoteShape(i: Instance, e: Env, call: NoteCall)
    requires i.settlePc.ClaimingNote?
    ensures var (r, l, pc) := (DoCallNote(i, e, call), i.latches, Saving(SettleIdle));
            && r.env == e.(note := r.env.note)
            && (|| r.inst == WithClaim(i, l.claim.(claimed := true)).(settlePc := pc)
                || r.inst == i.(settlePc := ReadingBack(i.settlePc.secret)))
  {
  }

  lemma CallNoteGood(i: Instance, e: Env, call: NoteCall)
    requires EnvOk(e) && InstOk(i, e)
    ensures StepGood(DoCallNote(i, e, call))
  {
    if i.settlePc.ClaimingNote? {
      CallNoteShape(i, e, call);
      var r := DoCallNote(i, e, call);
      NoteGood(i, e, r.env.note);
      OutcomeGood(i, r.env, Saving(SettleIdle));
      SettlePcGood(i, r.env, ReadingBack(i.settlePc.secret));
      assert StepGood(Result(r.inst, r.env));
    }
  }

  lemma ReadBackGood(i: Instance, e: Env)
    requires EnvOk(e) && InstOk(i, e)
    ensures StepGood(DoReadBack(i, e))
  {
    if i.settlePc.ReadingBack? {
      OutcomeGood(i, e, Saving(SettleIdle));
      SettlePcGood(i, e, SettleIdle);
    }
  }

  lemma SeeLegAClaimedGood(i: Instance, e: Env)
    requires EnvOk(e) && InstOk(i, e)
    ensures StepGood(DoSeeLegAClaimed(i, e))
  {
  }

  lemma StartRefundGood(i: Instance, e: Env)
    requires EnvOk(e) && InstOk(i, e)
    ensures StepGood(DoStartRefund(i, e))
  {
  }

  lemma ReadNoteGood(i: Instance, e: Env)
    requires EnvOk(e) && InstOk(i, e)
    ensures StepGood(DoReadNote(i, e))
  {
    if i.settlePc.ReadingNote? && i.latches.pairing.Some? {
      OutcomeGood(i, e, Saving(CheckingPending));
      SettlePcGood(i, e, SettleIdle);
    }
  }

  lemma CheckPendingGood(i: Instance, e: Env, claimSeen: bool)
    requires EnvOk(e) && InstOk(i, e)
    ensures StepGood(DoCheckPending(i, e, claimSeen))
  {
    if i.settlePc.CheckingPending? {
      SettlePcGood(i, e, CheckingAbsence);
      if e.rail.claimed || e.rail.kind.SignedByOutpoint? {
        RouteGood(i, e);
      }
    }
  }

  lemma AskAbsenceGood(i: Instance, e: Env)
    requires EnvOk(e) && InstOk(i, e)
    ensures StepGood(DoAskAbsence(i, e))
  {
    if i.settlePc.CheckingAbsence? {
      if i.latches.lock.attempted && i.latches.lock.evidence.None? && i.latches.refund.evidence.None? && e.rail.kind.Escrow? {
        SettlePcGood(i, e, AwaitingAbsence);
      } else {
        SettlePcGood(i, e, RecoveringRefund);
      }
    }
  }

  lemma CheckAbsenceGood(policy: Policy, i: Instance, e: Env, answer: Absence)
    requires Before(policy, i, e)
    ensures StepGood(DoCheckAbsence(i, e, answer))
  {
    if i.settlePc.AwaitingAbsence? && i.latches.lock.railRef.Some? && i.latches.offerA.Some?
       && AbsenceMayBe(e.rail, i.latches.lock.railRef.value, i.latches.offerA.value.refundAfterMs, e.nowMs, answer) {
      match answer
      case AbsenceLanded =>
        if i.latches.lock.evidence.Some? {
          SettlePcGood(i, e, RecoveringRefund);
        } else {
          EvidenceMoves(i, e, i.latches.lock.railRef.value);
          SettlePcGood(WithLock(i, i.latches.lock.(evidence := i.latches.lock.railRef)), e, Saving(RecoveringRefund));
        }
      case NeverLocked => VerdictGood(policy, i, e);
      case NotFinal => SettlePcGood(i, e, SettleIdle);
    }
  }

  /** On the escrow whatever landed, whichever instance sent it, landed under the one hash lock. */
  lemma LandedUnderTheRef(policy: Policy, i: Instance, e: Env, s: Sent)
    requires Before(policy, i, e) && e.rail.kind.Escrow? && s in e.rail.landed
    requires i.latches.lock.attempted && i.latches.lock.railRef.Some?
    ensures s.ref == i.latches.lock.railRef.value
  {
    LandedIsHeld(policy, e, s);
    assert e.store.held.value.body.pairing == Body(i).pairing;
  }

  /** Nothing under the saved ref landed, so nothing landed at all. */
  lemma NothingLanded(policy: Policy, i: Instance, e: Env)
    requires Before(policy, i, e) && e.rail.kind.Escrow? && i.latches.lock.attempted && i.latches.lock.railRef.Some?
    requires !HasRef(e.rail.landed, i.latches.lock.railRef.value)
    ensures e.rail.landed == {}
  {
    if s :| s in e.rail.landed {
      LandedUnderTheRef(policy, i, e, s);
    }
  }

  lemma VerdictGood(policy: Policy, i: Instance, e: Env)
    requires Before(policy, i, e) && i.settlePc.AwaitingAbsence?
    requires i.latches.lock.railRef.Some? && !HasRef(e.rail.landed, i.latches.lock.railRef.value)
    ensures StepGood(Result(WithLock(i, i.latches.lock.(neverLanded := true)).(settlePc := Saving(SettleIdle)), e))
  {
    NothingLanded(policy, i, e);
  }

  /** A refund's outcome, or its recovery handle. */
  lemma RefundGood(i: Instance, e: Env, refund: RefundState, pc: SettlePc)
    requires EnvOk(e) && InstOk(i, e)
    requires var body := Project(i.latches, Body(i));
             && RefundSaved(refund, body.lock.attempted, body.landed, body.offerA.refundAfterMs, e.rail, e.nowMs)
             && (i.latches.lock.neverLanded ==> refund.evidence.None?)
             && (i.latches.refund.attempted ==> refund.attempted) && (i.latches.refund.evidence.Some? ==> refund.evidence.Some?)
    requires SettlePcOk(pc, i.latches.(refund := refund), e)
    ensures StepGood(Result(WithRefund(i, refund).(settlePc := pc), e))
  {
    RefundMoves(i, e, refund, pc);
  }

  lemma RouteGood(i: Instance, e: Env)
    requires EnvOk(e) && InstOk(i, e) && (e.rail.claimed || e.rail.kind.SignedByOutpoint?)
    ensures StepGood(Result(RouteToClaim(i), e))
  {
    if i.latches.refund.claimSeen {
      SettlePcGood(i, e, SettleIdle);
    } else {
      RefundGood(i, e, i.latches.refund.(claimSeen := true), Saving(SettleIdle));
    }
  }

  lemma RecoverRefundGood(i: Instance, e: Env, answer: RefundAnswer)
    requires EnvOk(e) && InstOk(i, e)
    ensures StepGood(DoRecoverRefund(i, e, answer))
  {
    if i.settlePc.RecoveringRefund? {
      if i.latches.refund.evidence.Some? {
        SettlePcGood(i, e, Confirming);
      } else if !i.latches.refund.attempted {
        SettlePcGood(i, e, Intending);
      } else {
        SettlePcGood(i, e, SettleIdle);
        match answer
        case ReadsRefunded => RefundGood(i, e, i.latches.refund.(evidence := i.latches.lock.railRef), Saving(Confirming));
        case ReadsClaimed => if e.rail.claimed { RouteGood(i, e); }
        case Undecided =>
        case NeverToLand => RefundGood(i, e, i.latches.refund.(recovery := None), Saving(Intending));
      }
    }
  }

  lemma IntendGood(i: Instance, e: Env)
    requires EnvOk(e) && InstOk(i, e)
    ensures StepGood(DoIntend(i, e))
  {
  }

  lemma CalledGood(i: Instance, e: Env, call: RefundCall)
    requires EnvOk(e) && InstOk(i, e)
    ensures StepGood(Result(i, e.(refundCalls := e.refundCalls + [call])))
  {
    InstOkStays(i, e, e.(refundCalls := e.refundCalls + [call]));
  }

  lemma CallRefundGood(i: Instance, e: Env, signedTx: nat)
    requires EnvOk(e) && InstOk(i, e)
    ensures StepGood(DoCallRefund(i, e, signedTx))
  {
    if i.settlePc.Refunding? {
      var e' := e.(refundCalls := e.refundCalls + [RefundCall(StoredRecord(e))]);
      CalledGood(i, e, RefundCall(StoredRecord(e)));
      if e.rail.kind.Escrow? {
        SettlePcGood(i, e', SendingRefund);
      } else {
        RefundGood(i, e', i.latches.refund.(recovery := Some(signedTx)), Saving(SendingRefund));
      }
    }
  }

  lemma FinishRefundGood(i: Instance, e: Env, outcome: RefundOutcome)
    requires EnvOk(e) && InstOk(i, e)
    ensures StepGood(DoFinishRefund(i, e, outcome))
  {
    hide EnvOk, InstOk, RouteToClaim;
    if i.settlePc.SendingRefund? {
      SentRefundGood(i, e);
    }
    EndsGood(i, e);
    if e.rail.claimed {
      RouteGood(i, e);
    }
  }

  /** A refund that was sent: seen, or known not to have left. */
  lemma SentRefundGood(i: Instance, e: Env)
    requires EnvOk(e) && InstOk(i, e) && i.settlePc.SendingRefund?
    ensures StepGood(Result(WithRefund(i, i.latches.refund.(evidence := i.latches.lock.railRef)).(settlePc := Saving(Confirming)), e))
    ensures StepGood(Result(WithRefund(i, i.latches.refund.(recovery := None)).(settlePc := Saving(SettleIdle)), e))
  {
    hide EnvOk;
    RefundGood(i, e, i.latches.refund.(evidence := i.latches.lock.railRef), Saving(Confirming));
    RefundGood(i, e, i.latches.refund.(recovery := None), Saving(SettleIdle));
  }

  /** A settling call may end anywhere. */
  lemma EndsGood(i: Instance, e: Env)
    requires EnvOk(e) && InstOk(i, e)
    ensures StepGood(Result(i.(settlePc := SettleIdle), e))
  {
    hide EnvOk;
    SettlePcGood(i, e, SettleIdle);
  }

  lemma SettleReadFailsGood(i: Instance, e: Env)
    requires EnvOk(e) && InstOk(i, e)
    ensures StepGood(DoSettleReadFails(i, e))
  {
    SettlePcGood(i, e, SettleIdle);
  }

  /** What a settling step's save leaves, with its write named. */
  lemma SaveSettleShape(i: Instance, e: Env, fault: Fault)
    requires i.settlePc.Saving?
    ensures var w := Save(i, e, Body(i), fault);
            DoSaveSettle(i, e, fault)
              == Result(i.(journal := w.journal, settlePc := if w.answer.Resolved? then i.settlePc.then_ else SettleIdle),
                        e.(store := w.store))
  {
  }

  lemma SaveSettleGood(i: Instance, e: Env, fault: Fault)
    requires EnvOk(e) && InstOk(i, e) && i.journal.digest == Some(i.journal.current)
    ensures StepGood(DoSaveSettle(i, e, fault))
  {
    if i.settlePc.Saving? {
      SaveGood(i, e, Body(i), fault);
      SavedSettlePcGood(i, e, Save(i, e, Body(i), fault));
      SaveSettleShape(i, e, fault);
    }
  }

  /** After a settling step's save the step goes on, or ends. */
  lemma SavedSettlePcGood(i: Instance, e: Env, w: Written<Record>)
    requires i.settlePc.Saving? && SavedWell(i, e, Body(i), w)
    ensures StepGood(Result(i.(journal := w.journal, settlePc := SettleIdle), e.(store := w.store)))
    ensures w.answer.Resolved? ==> StepGood(Result(i.(journal := w.journal, settlePc := i.settlePc.then_), e.(store := w.store)))
  {
    var r := WithWrite(i, e, w);
    SettlePcGood(r.inst, r.env, SettleIdle);
    if w.answer.Resolved? {
      SettlePcGood(r.inst, r.env, i.settlePc.then_);
    }
  }

  lemma BuildStepGood(policy: Policy, i: Instance, e: Env, action: LockAction)
    requires Before(policy, i, e) && (action.StartLock? || action.ReadGuardNote? || action.PrepareFirst? || action.SaveLock? || action.PrepareFresh? || action.LockReadFails?)
    ensures StepGood(DoLock(policy, i, e, action))
  {
    hide EnvInv, EnvOk, InstOk, StepGood, DoStartLock, DoReadGuardNote, DoPrepareFirst, DoStartRecover, DoSaveLock, DoSend, DoRecover, DoReread, DoResend, DoPrepareFresh, DoLockReadFails;
    match action
    case StartLock => StartLockGood(policy, i, e);
    case ReadGuardNote => ReadGuardNoteGood(i, e);
    case PrepareFirst(accounts, marker) => PrepareFirstGood(policy, i, e, accounts, marker);
    case SaveLock(fault) => SaveLockGood(i, e, fault);
    case PrepareFresh => PrepareFreshGood(i, e);
    case LockReadFails => LockReadFailsGood(i, e);
  }

  lemma LockStepGood(policy: Policy, i: Instance, e: Env, action: LockAction)
    requires Before(policy, i, e)
    ensures StepGood(DoLock(policy, i, e, action))
  {
    hide EnvInv, InstInv, EnvOk, InstOk, StepGood, DoStartLock, DoReadGuardNote, DoPrepareFirst, DoStartRecover, DoSaveLock, DoSend, DoRecover, DoReread, DoResend, DoPrepareFresh, DoLockReadFails;
    match action
    case Send(outcome) => SendGood(policy, i, e, outcome);
    case StartRecover => StartRecoverGood(i, e);
    case Recover(answer) => RecoverGood(policy, i, e, answer);
    case Reread(found) => RereadGood(policy, i, e, found);
    case Resend(answer) => ResendGood(policy, i, e, answer);
    case _ => BuildStepGood(policy, i, e, action);
  }

  lemma ClaimStepGood(i: Instance, e: Env, action: SettleAction)
    requires EnvOk(e) && InstOk(i, e)
    requires action.StartClaim? || action.CallNote? || action.ReadBack? || action.SeeLegAClaimed? || action.StartRefund? || action.ReadNote? || action.CheckPending?
    ensures StepGood(DoSettle(i, e, action))
  {
    hide EnvOk, InstOk, StepGood, DoStartClaim, DoCallNote, DoReadBack, DoSeeLegAClaimed, DoStartRefund, DoReadNote, DoCheckPending, DoAskAbsence, DoCheckAbsence, DoRecoverRefund, DoIntend, DoCallRefund, DoFinishRefund, DoSettleReadFails, DoSaveSettle;
    match action
    case StartClaim(secret) => StartClaimGood(i, e, secret);
    case CallNote(call) => CallNoteGood(i, e, call);
    case ReadBack => ReadBackGood(i, e);
    case SeeLegAClaimed => SeeLegAClaimedGood(i, e);
    case StartRefund => StartRefundGood(i, e);
    case ReadNote => ReadNoteGood(i, e);
    case CheckPending(claimSeen) => CheckPendingGood(i, e, claimSeen);
  }

  lemma RefundStepGood(i: Instance, e: Env, action: SettleAction)
    requires EnvOk(e) && InstOk(i, e)
    requires action.AskAbsence? || action.RecoverRefund? || action.Intend? || action.CallRefund? || action.FinishRefund? || action.SettleReadFails?
    ensures StepGood(DoSettle(i, e, action))
  {
    hide EnvOk, InstOk, StepGood, DoStartClaim, DoCallNote, DoReadBack, DoSeeLegAClaimed, DoStartRefund, DoReadNote, DoCheckPending, DoAskAbsence, DoCheckAbsence, DoRecoverRefund, DoIntend, DoCallRefund, DoFinishRefund, DoSettleReadFails, DoSaveSettle;
    match action
    case AskAbsence => AskAbsenceGood(i, e);
    case RecoverRefund(answer) => RecoverRefundGood(i, e, answer);
    case Intend => IntendGood(i, e);
    case CallRefund(signedTx) => CallRefundGood(i, e, signedTx);
    case FinishRefund(outcome) => FinishRefundGood(i, e, outcome);
    case SettleReadFails => SettleReadFailsGood(i, e);
  }

  lemma SettleStepGood(policy: Policy, i: Instance, e: Env, action: SettleAction)
    requires Before(policy, i, e)
    ensures StepGood(DoSettle(i, e, action))
  {
    hide EnvInv, InstInv, EnvOk, InstOk, StepGood, DoStartClaim, DoCallNote, DoReadBack, DoSeeLegAClaimed, DoStartRefund, DoReadNote, DoCheckPending, DoAskAbsence, DoCheckAbsence, DoRecoverRefund, DoIntend, DoCallRefund, DoFinishRefund, DoSettleReadFails, DoSaveSettle;
    HoldsItsDigest(policy, i, e);
    match action
    case CheckAbsence(answer) => CheckAbsenceGood(policy, i, e, answer);
    case SaveSettle(fault) => SaveSettleGood(i, e, fault);
    case _ =>
      if action.AskAbsence? || action.RecoverRefund? || action.Intend? || action.CallRefund? || action.FinishRefund? || action.SettleReadFails? {
        RefundStepGood(i, e, action);
      } else {
        ClaimStepGood(i, e, action);
      }
  }

  /** A line's own checks make its record a sound one. */
  lemma LineIsSound(policy: Policy, i: Instance, e: Env, action: LineAction)
    requires InstOk(i, e) && LineReady(policy, i, e, action)
    ensures InstOk(LineFlow(i, action), e)
    ensures FlowOk(LineFlow(i, action).latches, LineBody(i, action), e)
  {
  }

  /** A landed frame's flag says what the ledger says. */
  lemma LandedFrameProjectsTheSame(l: Latches, kind: Kind, r: Record)
    requires kind in r.landed
    ensures Project(LandedFrame(l, kind), r) == Project(l, r)
  {
  }

  lemma LatchedAfterProjectsTheSame(l: Latches, body: Record, action: LineAction, r: Record)
    requires action.LineLands? ==> action.kind in r.landed
    ensures Project(LatchedAfter(l, body, action), r) == Project(l, r)
  {
    match action
    case LineLands(kind, _) => LandedFrameProjectsTheSame(l, kind, r);
    case _ =>
  }

  lemma LatchedAfterIsTied(i: Instance, action: LineAction)
    requires Tied(i.latches, Body(i))
    requires action.AcceptLands? ==> i.latches.offerA.Some? && AcceptB !in Body(i).landed && i.latches.acceptBStampMs.None?
    requires action.SavePairing? ==> Body(i).pairing.None?
    requires action.VerifyLegB? ==> i.latches.pairing.Some?
    ensures var l := LatchedBefore(i.latches, action);
            Tied(LatchedAfter(l, Body(i), action), Project(l, LineBody(i, action)))
  {
  }

  /** The latches a landed line sets agree with the record it landed in. */
  lemma LatchedAfterIsSound(policy: Policy, i: Instance, e: Env, action: LineAction)
    requires InstOk(i, e) && LineReady(policy, i, e, action)
    ensures var flow := LineFlow(i, action);
            FlowOk(LatchedAfter(flow.latches, Body(i), action), Project(flow.latches, LineBody(i, action)), e)
  {
    LatchedAfterIsTied(i, action);
    LineIsSound(policy, i, e, action);
    var l, r := LatchedBefore(i.latches, action), LineBody(i, action);
    ProjectedFlagsFollow(l, r);
    LatchedAfterProjectsTheSame(l, Body(i), action, Project(l, r));
  }

  lemma LatchedAfterIsNotAhead(l: Latches, body: Record, action: LineAction, r: Record)
    requires NotAhead(r, l)
    ensures NotAhead(r, LatchedAfter(l, body, action))
  {
  }

  lemma LatchedAfterKeepsSettling(l: Latches, body: Record, action: LineAction, pc: SettlePc, e: Env)
    requires Tied(l, body) && SettlePcOk(pc, l, e)
    ensures SettlePcOk(pc, LatchedAfter(l, body, action), e)
  {
  }

  lemma LatchedAfterKeepsLocking(l: Latches, body: Record, action: LineAction, pc: LockPc, offerA: Offer, kind: RailKind)
    requires Tied(l, body) && LockPcOk(pc, l, offerA, kind)
    ensures LockPcOk(pc, LatchedAfter(l, body, action), offerA, kind)
  {
  }

  lemma LineLandedGood(policy: Policy, i: Instance, e: Env, action: LineAction, i': Instance, e': Env)
    requires InstOk(i, e) && LineReady(policy, i, e, action)
    requires EnvOk(e') && InstOk(i', e') && i'.latches == LineFlow(i, action).latches && Body(i').offerA == Body(i).offerA
    requires Body(i') == Project(i'.latches, LineBody(i, action)) && e' == e.(store := e'.store)
    ensures StepGood(Result(i'.(latches := LatchedAfter(i'.latches, Body(i), action)), e'))
  {
    LatchedAfterIsSound(policy, i, e, action);
    LatchedAfterIsNotAhead(i'.latches, Body(i), action, Body(i'));
    LatchedAfterKeepsSettling(i'.latches, Body(i), action, i'.settlePc, e');
    LatchedAfterKeepsLocking(i'.latches, Body(i), action, i'.lockPc, Body(i).offerA, e'.rail.kind);
  }

  /** What one line's step leaves, with its save named. */
  lemma LineShape(policy: Policy, i: Instance, e: Env, action: LineAction)
    requires LineReady(policy, i, e, action)
    ensures var flow := LineFlow(i, action);
            var w := Save(flow, e, LineBody(i, action), action.fault);
            var saved := flow.(journal := w.journal);
            DoLine(policy, i, e, action)
              == Result(if w.answer.Resolved? then saved.(latches := LatchedAfter(flow.latches, Body(i), action)) else saved, e.(store := w.store))
  {
  }

  /** The save behind a line. */
  lemma LineSaveGood(policy: Policy, i: Instance, e: Env, action: LineAction)
    requires EnvOk(e) && InstOk(i, e) && i.journal.digest == Some(i.journal.current) && LineReady(policy, i, e, action)
    ensures SavedWell(LineFlow(i, action), e, LineBody(i, action), Save(LineFlow(i, action), e, LineBody(i, action), action.fault))
  {
    LineIsSound(policy, i, e, action);
    SaveGood(LineFlow(i, action), e, LineBody(i, action), action.fault);
  }

  lemma LineGood(policy: Policy, i: Instance, e: Env, action: LineAction)
    requires EnvOk(e) && InstOk(i, e) && i.journal.digest == Some(i.journal.current)
    ensures StepGood(DoLine(policy, i, e, action))
  {
    hide EnvOk, InstOk, Save, SavedWell, LineReady;
    if LineReady(policy, i, e, action) {
      LineSaveGood(policy, i, e, action);
      LineShape(policy, i, e, action);
      LineWrittenGood(policy, i, e, action, Save(LineFlow(i, action), e, LineBody(i, action), action.fault));
    }
  }

  lemma LineWrittenGood(policy: Policy, i: Instance, e: Env, action: LineAction, w: Written<Record>)
    requires InstOk(i, e) && LineReady(policy, i, e, action)
    requires SavedWell(LineFlow(i, action), e, LineBody(i, action), w)
    ensures var saved := LineFlow(i, action).(journal := w.journal);
            StepGood(Result(if w.answer.Resolved? then saved.(latches := LatchedAfter(saved.latches, Body(i), action)) else saved,
                            e.(store := w.store)))
  {
    if w.answer.Resolved? {
      LineLandedGood(policy, i, e, action, LineFlow(i, action).(journal := w.journal), e.(store := w.store));
    }
  }

  lemma OutsideKeepsEnvOk(e: Env, event: WorldEvent)
    requires EnvOk(e)
    ensures EnvOk(DoOutside(e, event))
  {
    hide Known, Land;
    match event
    case LockLands(lock) => LandKeepsEnvOk(e, lock);
    case _ => EnvOkStays(e, DoOutside(e, event));
  }

  lemma OutsideKeepsInstOk(i: Instance, e: Env, event: WorldEvent)
    requires EnvOk(e) && InstOk(i, e)
    ensures InstOk(i, DoOutside(e, event))
  {
    hide EnvOk, InstOk, Land;
    match event
    case LockLands(lock) => LandKeepsInstOk(i, e, lock);
    case _ => InstOkStays(i, e, DoOutside(e, event));
  }

  // --- resuming ----------------------------------------------------------------------------------------------------------

  /** A saved record always resumes, onto a flow that projects back to it. */
  lemma SavedResumes(r: Record, e: Env)
    requires Known(r, e)
    ensures Rebuild(r).Flow? && Project(Rebuild(r).latches, r) == r && Tied(Rebuild(r).latches, r)
  {
    RebuiltFlowProjectsBack(r);
  }

  lemma ResumedGood(e: Env)
    requires EnvOk(e) && e.store.held.Some?
    ensures var r := e.store.held.value.body;
            Rebuild(r).Flow? && InstOk(Instance(Opened(e.store.held.value), Rebuild(r).latches, LockIdle, SettleIdle), e)
  {
    SavedResumes(e.store.held.value.body, e);
  }

  lemma FirstIsGood(e: Env, offerA: Offer, store: Store<Record>)
    requires e.rail.sent == {} && e.rail.landed == {} && EnvOk(e)
    requires store.held.Some? && store.held.value.body == NewRecord(offerA)
    ensures EnvOk(e.(store := store))
    ensures InstOk(Instance(Opened(store.held.value), FreshLatches, LockIdle, SettleIdle), e.(store := store))
  {
  }

  /** Before the first save nothing was sent, so nothing landed. */
  lemma FirstGood(policy: Policy, e: Env, offerA: Offer, fault: Fault)
    requires EnvInv(policy, e) && EnvOk(e)
    ensures var w := FirstSave(e, offerA, fault);
            && EnvOk(e.(store := w.store))
            && (w.answer.Resolved? ==> InstOk(Instance(w.journal, FreshLatches, LockIdle, SettleIdle), e.(store := w.store)))
  {
    FirstVersion(e, offerA, fault);
    if e.store.held.None? && FirstSave(e, offerA, fault).store != e.store {
      FirstIsGood(e, offerA, FirstSave(e, offerA, fault).store);
    }
  }

  // --- every run ---------------------------------------------------------------------------------------------------------

  lemma ActGood(policy: Policy, i: Instance, e: Env, action: Action)
    requires Before(policy, i, e)
    ensures StepGood(DoAct(policy, i, e, action))
  {
    hide EnvInv, EnvOk, InstOk, StepGood, DoLock, DoSettle, DoLine;
    match action
    case OnLock(lock) => LockStepGood(policy, i, e, lock);
    case OnSettle(settle) => SettleStepGood(policy, i, e, settle);
    case OnLine(line) => LineGood(policy, i, e, line);
  }

  /** A save by one instance, seen from the others. */
  lemma SaveMovesOn(i: Instance, e: Env, body: Record, fault: Fault)
    requires i.journal.digest == Some(i.journal.current) && Carries(Body(i), body)
    ensures MovesOn(e, e.(store := Save(i, e, body, fault).store))
  {
    SaveShape(i, e, body, fault);
  }

  lemma SendMovesOn(policy: Policy, i: Instance, e: Env, outcome: SendOutcome)
    requires InstOk(i, e)
    ensures MovesOn(e, DoSend(policy, i, e, outcome).env)
  {
  }

  /** The step sends no lock that lands at once, and saves nothing. */
  predicate Stands(e: Env, e': Env) {
    && e'.store == e.store && e'.nowMs == e.nowMs && e'.rail.kind == e.rail.kind && e'.rail.landed == e.rail.landed
    && e'.rail.claimed == e.rail.claimed
  }

  lemma StartLockStands(policy: Policy, i: Instance, e: Env)
    ensures Stands(e, DoStartLock(policy, i, e).env)
  {
  }

  lemma ReadGuardNoteStands(i: Instance, e: Env)
    ensures Stands(e, DoReadGuardNote(i, e).env)
  {
  }

  lemma PrepareFirstStands(i: Instance, e: Env, accounts: nat, marker: nat)
    ensures Stands(e, DoPrepareFirst(i, e, accounts, marker).env)
  {
  }

  lemma StartRecoverStands(i: Instance, e: Env)
    ensures Stands(e, DoStartRecover(i, e).env)
  {
  }

  lemma RecoverStands(policy: Policy, i: Instance, e: Env, answer: LockAnswer)
    ensures Stands(e, DoRecover(policy, i, e, answer).env)
  {
  }

  lemma RereadStands(policy: Policy, i: Instance, e: Env, found: bool)
    ensures Stands(e, DoReread(policy, i, e, found).env)
  {
  }

  lemma ResendStands(policy: Policy, i: Instance, e: Env, answer: LockAnswer)
    ensures Stands(e, DoResend(i, e, answer).env)
  {
  }

  lemma PrepareFreshStands(i: Instance, e: Env)
    ensures Stands(e, DoPrepareFresh(i, e).env)
  {
  }

  lemma LockReadFailsStands(i: Instance, e: Env)
    ensures Stands(e, DoLockReadFails(i, e).env)
  {
  }

  lemma StandingMovesOn(e: Env, e': Env)
    requires Stands(e, e')
    ensures MovesOn(e, e')
  {
  }

  lemma SaveLockMovesOn(i: Instance, e: Env, fault: Fault)
    requires i.journal.digest == Some(i.journal.current)
    ensures MovesOn(e, DoSaveLock(i, e, fault).env)
  {
    hide Save;
    SaveMovesOn(i, e, Body(i), fault);
  }

  lemma LockStands(policy: Policy, i: Instance, e: Env, action: LockAction)
    requires !action.SaveLock? && !action.Send?
    ensures Stands(e, DoLock(policy, i, e, action).env)
  {
    match action
    case StartLock => StartLockStands(policy, i, e);
    case ReadGuardNote => ReadGuardNoteStands(i, e);
    case PrepareFirst(accounts, marker) => PrepareFirstStands(i, e, accounts, marker);
    case StartRecover => StartRecoverStands(i, e);
    case Recover(answer) => RecoverStands(policy, i, e, answer);
    case Reread(found) => RereadStands(policy, i, e, found);
    case Resend(answer) => ResendStands(policy, i, e, answer);
    case PrepareFresh => PrepareFreshStands(i, e);
    case LockReadFails => LockReadFailsStands(i, e);
  }

  lemma LockMovesOn(policy: Policy, i: Instance, e: Env, action: LockAction)
    requires InstOk(i, e) && i.journal.digest == Some(i.journal.current)
    ensures MovesOn(e, DoLock(policy, i, e, action).env)
  {
    match action
    case SaveLock(fault) => SaveLockMovesOn(i, e, fault);
    case Send(outcome) => SendMovesOn(policy, i, e, outcome);
    case _ =>
      LockStands(policy, i, e, action);
      StandingMovesOn(e, DoLock(policy, i, e, action).env);
  }

  lemma SaveSettleMovesOn(i: Instance, e: Env, fault: Fault)
    requires i.journal.digest == Some(i.journal.current)
    ensures MovesOn(e, DoSaveSettle(i, e, fault).env)
  {
    hide Save;
    SaveMovesOn(i, e, Body(i), fault);
  }

  lemma SettleMovesOn(i: Instance, e: Env, action: SettleAction)
    requires i.journal.digest == Some(i.journal.current)
    ensures MovesOn(e, DoSettle(i, e, action).env)
  {
    match action
    case SaveSettle(fault) => SaveSettleMovesOn(i, e, fault);
    case _ =>
      SettleIsQuiet(i, e, action);
      StandingMovesOn(e, DoSettle(i, e, action).env);
  }

  lemma LineMovesOn(policy: Policy, i: Instance, e: Env, action: LineAction)
    requires InstOk(i, e) && i.journal.digest == Some(i.journal.current)
    ensures MovesOn(e, DoLine(policy, i, e, action).env)
  {
    hide Save, InstOk;
    if LineReady(policy, i, e, action) {
      LineShape(policy, i, e, action);
      SaveMovesOn(LineFlow(i, action), e, LineBody(i, action), action.fault);
    }
  }

  /** One instance's step, seen from the others. */
  lemma ActMovesOn(policy: Policy, i: Instance, e: Env, action: Action)
    requires InstOk(i, e) && i.journal.digest == Some(i.journal.current)
    ensures MovesOn(e, DoAct(policy, i, e, action).env)
  {
    match action
    case OnLock(lock) => LockMovesOn(policy, i, e, lock);
    case OnSettle(settle) => SettleMovesOn(i, e, settle);
    case OnLine(line) => LineMovesOn(policy, i, e, line);
  }

  /** One instance was replaced by a sound one in a world that moved on. */
  lemma OneStepped(s: System, id: nat, r: Result)
    requires AllOk(s) && StepGood(r) && MovesOn(s.env, r.env)
    ensures AllOk(System(r.env, s.live[id := r.inst]))
  {
    forall other | other in s.live && other != id ensures InstOk(s.live[other], r.env) {
      InstOkStays(s.live[other], s.env, r.env);
    }
  }

  lemma ActKeepsGood(config: Config, s: System, id: nat, action: Action)
    requires Good(config, s)
    ensures Good(config, Step(config, s, Act(id, action)))
  {
    hide EnvInv, EnvOk, InstOk, StepGood, MovesOn, DoAct;
    ActKeepsInv(config, s, id, action);
    if id in s.live {
      ActGood(config.policy, s.live[id], s.env, action);
      ActMovesOn(config.policy, s.live[id], s.env, action);
      OneStepped(s, id, DoAct(config.policy, s.live[id], s.env, action));
    }
  }

  lemma OutsideKeepsGood(config: Config, s: System, event: WorldEvent)
    requires Good(config, s)
    ensures Good(config, Step(config, s, Outside(event)))
  {
    hide Inv, EnvOk, InstOk, DoOutside;
    OutsideKeepsInv(config, s, event);
    OutsideKeepsEnvOk(s.env, event);
    forall id | id in s.live ensures InstOk(s.live[id], DoOutside(s.env, event)) {
      OutsideKeepsInstOk(s.live[id], s.env, event);
    }
  }

  lemma LiveFlowsHaveARecord(s: System)
    requires AllOk(s) && s.live != map[]
    ensures s.env.store.held.Some?
  {
    var id :| id in s.live;
    assert InstOk(s.live[id], s.env);
  }

  /** A first save goes through only where no flow lives yet: every live flow has a record in the store. */
  lemma BeginIsOk(config: Config, s: System, id: nat, offerA: Offer, fault: Fault)
    requires EnvInv(config.policy, s.env) && AllOk(s) && MayJoin(config, s, id)
    ensures AllOk(Step(config, s, Begin(id, offerA, fault)))
  {
    FirstVersion(s.env, offerA, fault);
    FirstGood(config.policy, s.env, offerA, fault);
    if s.live != map[] {
      LiveFlowsHaveARecord(s);
    }
  }

  lemma BeginKeepsGood(config: Config, s: System, id: nat, offerA: Offer, fault: Fault)
    requires Good(config, s)
    ensures Good(config, Step(config, s, Begin(id, offerA, fault)))
  {
    BeginKeepsInv(config, s, id, offerA, fault);
    if MayJoin(config, s, id) {
      BeginIsOk(config, s, id, offerA, fault);
    }
  }

  lemma ResumeKeepsGood(config: Config, s: System, id: nat)
    requires Good(config, s)
    ensures Good(config, Step(config, s, Resume(id)))
  {
    hide Inv, EnvOk, InstOk;
    ResumeKeepsInv(config, s, id);
    if s.env.store.held.Some? {
      ResumedGood(s.env);
      OneJoined(s, id, Instance(Opened(s.env.store.held.value), Rebuild(s.env.store.held.value.body).latches, LockIdle, SettleIdle));
    }
  }

  lemma OneJoined(s: System, id: nat, i: Instance)
    requires AllOk(s) && InstOk(i, s.env)
    ensures AllOk(s.(live := s.live[id := i]))
  {
  }

  lemma StepKeepsGood(config: Config, s: System, event: Event)
    requires Good(config, s)
    ensures Good(config, Step(config, s, event))
  {
    match event
    case Begin(id, offerA, fault) => BeginKeepsGood(config, s, id, offerA, fault);
    case Resume(id) => ResumeKeepsGood(config, s, id);
    case Crash(id) => StepKeepsInv(config, s, event);
    case Act(id, action) => ActKeepsGood(config, s, id, action);
    case Outside(outside) => OutsideKeepsGood(config, s, outside);
  }

  /** Over every run, with any number of live instances. */
  lemma {:induction false} EveryRunIsGood(config: Config, run: seq<Event>)
    ensures Good(config, After(config, run))
  {
    if run != [] {
      EveryRunIsGood(config, run[..|run| - 1]);
      StepKeepsGood(config, After(config, run[..|run| - 1]), run[|run| - 1]);
    } else {
      EveryRunKeepsInv(config, run);
    }
  }
}
