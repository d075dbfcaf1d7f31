/**
 * What a call that nothing disturbs comes to: every save goes through, nothing else moves in between, and the rail and leg B's
 * note answer as they stand. Each such call ends with its outcome latched and in the store.
 */
module BuyerProgress {
  import opened Options
  import opened Journal
  import opened BuyerState
  import opened BuyerSteps
  import opened BuyerOutcomes
  import opened BuyerFlows

  // --- at rest between two segments ------------------------------------------------------------------------------------------

  /** The flow holds the stored version and no save of it was refused. */
  predicate Calm(i: Instance, e: Env) {
    !i.journal.failed && i.journal.digest == Some(i.journal.current) && e.store.held == Some(i.journal.current)
  }

  /** Nothing the flow latched is missing from its record. */
  predicate AllSaved(i: Instance) {
    Project(i.latches, Body(i)) == Body(i)
  }

  /** What the latches must obey for any record they are laid over to be encoded. */
  predicate Writable(l: Latches) {
    && (l.lock.prepared.Some? || l.lock.evidence.Some? || l.lock.neverLanded ==> l.lock.attempted)
    && (l.refund.recovery.Some? || l.refund.evidence.Some? ==> l.refund.attempted)
    && (l.lock.neverLanded ==> l.lock.evidence.None? && l.refund.evidence.None? && !l.refund.claimSeen && !l.claim.claimed)
    && (l.claim.claimed || l.claim.adopted ==> l.claim.attempted)
    && !(l.claim.claimed && l.claim.adopted)
    && |l.refundNotes| <= 64
  }

  lemma WritableIsEncodable(l: Latches, r: Record)
    ensures Writable(l) <==> Encodable(Project(l, r))
  {
  }

  /** A call has come to this point, with these latches in the store, from where it began; only the store and the note moved. */
  predicate Reached(r: Result, l: Latches, pc: SettlePc, i: Instance, e: Env, note: PaperNote, calls: seq<RefundCall>) {
    && Calm(r.inst, r.env) && r.inst.latches == l && r.inst.settlePc == pc && r.inst.lockPc == i.lockPc
    && Body(r.inst) == Project(l, Body(i))
    && r.env == e.(store := r.env.store, note := note, refundCalls := calls)
  }

  /** The same with the latches set and the save still to come. */
  predicate AboutToSave(r: Result, l: Latches, then_: SettlePc, i: Instance, e: Env, note: PaperNote, calls: seq<RefundCall>) {
    && Calm(r.inst, r.env) && r.inst.latches == l && r.inst.settlePc == Saving(then_) && r.inst.lockPc == i.lockPc
    && Project(l, Body(r.inst)) == Project(l, Body(i))
    && r.env == e.(store := r.env.store, note := note, refundCalls := calls)
  }

  lemma CalmSave(i: Instance, e: Env, body: Record)
    requires Calm(i, e) && Encodable(Project(i.latches, body))
    ensures var w := Save(i, e, body, NoFault);
            w.answer.Resolved? && Calm(i.(journal := w.journal), e.(store := w.store)) && w.journal.current.body == Project(i.latches, body)
  {
  }

  lemma SaveGoesThrough(r: Result, l: Latches, then_: SettlePc, i: Instance, e: Env, note: PaperNote, calls: seq<RefundCall>)
    requires AboutToSave(r, l, then_, i, e, note, calls) && Writable(l)
    ensures Reached(DoSettle(r.inst, r.env, SaveSettle(NoFault)), l, then_, i, e, note, calls)
  {
    hide Project, Encodable, Writable, Save, DoSaveSettle;
    WritableIsEncodable(l, Body(r.inst));
    CalmSave(r.inst, r.env, Body(r.inst));
    SaveSettleShape(r.inst, r.env, NoFault);
  }

  lemma ProjectsOver(l: Latches, l': Latches, r: Record)
    ensures Project(l, Project(l', r)) == Project(l, r)
  {
  }

  lemma TwoSettles(i: Instance, e: Env, first: seq<SettleAction>, rest: seq<SettleAction>)
    ensures var r := DoSettles(i, e, first);
            DoSettles(i, e, first + rest) == DoSettles(r.inst, r.env, rest)
    decreases |first|
  {
    hide DoSettle;
    if first == [] {
      assert first + rest == rest;
    } else {
      var r := DoSettle(i, e, first[0]);
      TwoSettles(r.inst, r.env, first[1..], rest);
      assert (first + rest)[1..] == first[1..] + rest;
    }
  }

  // --- the lines, and the steps before the lock ----------------------------------------------------------------------------

  /** When a step that posts, pairs or verifies acts at all. */
  predicate LineActs(policy: Policy, i: Instance, e: Env, action: LineAction) {
    var (l, r) := (i.latches, Body(i));
    match action
    case OfferLands(_) => OfferA !in r.landed
    case SavePairing(pairing, plannedLockMs, _) =>
      && l.offerA.Some? && r.pairing.None? && e.nowMs < pairing.offerB.expiresMs && policy(l.offerA.value, pairing.offerB, plannedLockMs)
    case AcceptLands(_, _) => l.offerA.Some? && r.pairing.Some? && AcceptB !in r.landed
    case VerifyLegB(_) => l.pairing.Some? && e.note == NoteLocked(l.pairing.value.statement, l.pairing.value.offerB.refundAfterMs)
    case LineLands(kind, _) => LineMayLand(l, r.landed, e, kind)
  }

  predicate LineMayLand(l: Latches, landed: set<Kind>, e: Env, kind: Kind) {
    match kind
    case AccountA => l.pairing.Some?
    case LockA => l.lock.evidence.Some? && l.offerA.Some? && e.nowMs < l.offerA.value.refundAfterMs
    case RevealB => l.claim.claimed || l.claim.adopted
    case ReceiptB => RevealB in landed && (l.claim.claimed || l.claim.adopted)
    case RefundA => l.refund.evidence.Some? && e.rail.refunded
    case ReceiptRefundA => RefundA in landed && l.refund.evidence.Some? && e.rail.refunded
    case _ => false
  }

  /** The flow once such a step is saved: an accept B stamped at or after leg B's offer expiry leaves it unpaired. */
  function LatchesAfterLine(i: Instance, action: LineAction): Latches {
    var (l, r) := (i.latches, Body(i));
    match action
    case OfferLands(_) => l.(offerA := Some(r.offerA))
    case SavePairing(_, _, _) => l
    case AcceptLands(stampMs, _) =>
      if r.pairing.Some? && stampMs < r.pairing.value.offerB.expiresMs then l.(pairing := r.pairing, acceptBStampMs := Some(stampMs)) else l
    case VerifyLegB(_) => l.(legBVerified := true)
    case LineLands(kind, _) =>
      if kind == LockA then l.(lock := l.lock.(framePosted := true))
      else if kind == ReceiptRefundA then l.(refund := l.refund.(framesPosted := true))
      else l
  }

  /** And its record: the line marked landed, the pairing, the venue's stamp, or leg B verified. */
  function RecordAfterLine(r: Record, action: LineAction): Record {
    match action
    case OfferLands(_) => r.(landed := r.landed + {OfferA})
    case SavePairing(pairing, _, _) => r.(pairing := Some(pairing))
    case AcceptLands(stampMs, _) => r.(landed := r.landed + {AcceptB}, acceptBStampMs := Some(stampMs))
    case VerifyLegB(_) => r.(legBVerified := true)
    case LineLands(kind, _) =>
      r.(landed := r.landed + {kind}, lock := r.lock.(framePosted := r.lock.framePosted || kind == LockA),
         refund := r.refund.(framesPosted := r.refund.framesPosted || kind == ReceiptRefundA))
  }

  lemma ReadyActs(policy: Policy, i: Instance, e: Env, action: LineAction)
    ensures LineReady(policy, i, e, action) <==> !i.journal.failed && LineActs(policy, i, e, action)
  {
  }

  lemma LineLatches(i: Instance, action: LineAction)
    ensures LatchedAfter(LatchedBefore(i.latches, action), Body(i), action) == LatchesAfterLine(i, action)
  {
  }

  lemma LineRecord(i: Instance, action: LineAction)
    requires AllSaved(i)
    ensures Project(LatchedBefore(i.latches, action), LineBody(i, action)) == RecordAfterLine(Body(i), action)
  {
  }

  lemma LineWritable(l: Latches, action: LineAction)
    ensures Writable(LatchedBefore(l, action)) <==> Writable(l)
  {
  }

  /** A posted line, a saved pairing or a verified leg B is in the store when its step ends; one that may not act changes nothing. */
  lemma CalmLine(policy: Policy, i: Instance, e: Env, action: LineAction)
    requires Calm(i, e) && AllSaved(i) && Writable(i.latches) && action.fault == NoFault
    ensures var r := DoLine(policy, i, e, action);
            if LineActs(policy, i, e, action) then
              && Calm(r.inst, r.env) && Body(r.inst) == RecordAfterLine(Body(i), action)
              && r.inst.(journal := i.journal) == i.(latches := LatchesAfterLine(i, action)) && r.env.(store := e.store) == e
            else r == Result(i, e)
  {
    hide LineReady, LineActs, LatchedAfter, LatchesAfterLine, LatchedBefore, LineBody, RecordAfterLine, Project, Encodable, Writable, AllSaved, Save;
    ReadyActs(policy, i, e, action);
    LineLatches(i, action);
    LineRecord(i, action);
    LineWritable(i.latches, action);
    WritableIsEncodable(LatchedBefore(i.latches, action), LineBody(i, action));
    CalmSave(LineFlow(i, action), e, LineBody(i, action));
  }

  // --- claimLegB ---------------------------------------------------------------------------------------------------------------

  /** Leg B's note takes this secret now. */
  predicate Takes(note: PaperNote, nowMs: nat, secret: Secret) {
    note.NoteLocked? && nowMs < note.refundAfterMs && note.statement == HashOf(secret)
  }

  /** Leg B's note after the write: a claim unless it refused or the write failed. */
  function NoteAfter(note: PaperNote, nowMs: nat, secret: Secret, call: NoteCall): PaperNote {
    if Takes(note, nowMs, secret) && call != NoteFailed then NoteClaimed(HashOf(secret), secret) else note
  }

  /** What the claim comes to: this flow's own, adopted, provably not made, or still open. */
  function ClaimComesTo(note: PaperNote, nowMs: nat, secret: Secret, call: NoteCall): ClaimState {
    var after := NoteAfter(note, nowMs, secret, call);
    if Takes(note, nowMs, secret) && call == NoteReturned then ClaimState(true, true, false)
    else if after.NoteClaimed? && after.secret == secret then ClaimState(true, false, true)
    else if after.NoteLocked? && nowMs < after.refundAfterMs then ClaimState(true, false, false)
    else ClaimState(false, false, false)
  }

  function Claiming(l: Latches, claim: ClaimState): Latches {
    l.(claim := claim, refundNotes := if claim.adopted && AdoptedClaim !in l.refundNotes then l.refundNotes + [AdoptedClaim] else l.refundNotes)
  }

  predicate MayClaim(i: Instance, secret: Secret) {
    && i.settlePc.SettleIdle? && i.latches.pairing.Some? && i.latches.pairing.value.statement == HashOf(secret)
    && !i.latches.claim.claimed && !i.latches.claim.adopted
  }

  lemma ClaimIsBegun(i: Instance, e: Env, secret: Secret)
    requires Calm(i, e) && AllSaved(i) && MayClaim(i, secret) && Writable(i.latches)
    ensures Reached(DoSettles(i, e, [StartClaim(secret), SaveSettle(NoFault)]), i.latches.(claim := ClaimState(true, false, false)),
                    ClaimingNote(secret), i, e, e.note, e.refundCalls)
  {
    hide Project, Save, DoSaveSettle;
    var l := i.latches.(claim := ClaimState(true, false, false));
    var r := DoSettle(i, e, StartClaim(secret));
    SaveGoesThrough(r, l, ClaimingNote(secret), i, e, e.note, e.refundCalls);
    assert [StartClaim(secret), SaveSettle(NoFault)][1..] == [SaveSettle(NoFault)];
    assert [SaveSettle(NoFault)][1..] == [];
  }

  /** One more segment, and then the rest. */
  lemma SettlesOn(i: Instance, e: Env, action: SettleAction, rest: seq<SettleAction>)
    ensures var r := DoSettle(i, e, action);
            DoSettles(i, e, [action] + rest) == DoSettles(r.inst, r.env, rest)
  {
    hide DoSettle;
    assert ([action] + rest)[1..] == rest;
  }

  /** A segment its call does not reach changes nothing. */
  lemma NothingToSettle(r: Result, action: SettleAction)
    requires r.inst.settlePc.SettleIdle? && !action.StartClaim? && !action.StartRefund? && !action.SeeLegAClaimed?
    ensures DoSettle(r.inst, r.env, action) == r
  {
  }

  lemma ClaimIsSettled(r: Result, i: Instance, e: Env, secret: Secret, call: NoteCall)
    requires var l := i.latches.(claim := ClaimState(true, false, false));
             Reached(r, l, ClaimingNote(secret), i, e, e.note, e.refundCalls)
    requires Writable(Claiming(i.latches, ClaimComesTo(e.note, e.nowMs, secret, call)))
    ensures Reached(DoSettles(r.inst, r.env, [CallNote(call), ReadBack, SaveSettle(NoFault)]),
                    Claiming(i.latches, ClaimComesTo(e.note, e.nowMs, secret, call)), SettleIdle, i, e,
                    NoteAfter(e.note, e.nowMs, secret, call), e.refundCalls)
  {
    hide Project, Save, DoSaveSettle, Writable;
    var claim, after := ClaimComesTo(e.note, e.nowMs, secret, call), NoteAfter(e.note, e.nowMs, secret, call);
    var l' := Claiming(i.latches, claim);
    ProjectsOver(l', r.inst.latches, Body(i));
    var r1 := DoSettle(r.inst, r.env, CallNote(call));
    var r2 := DoSettle(r1.inst, r1.env, ReadBack);
    SettlesOn(r.inst, r.env, CallNote(call), [ReadBack, SaveSettle(NoFault)]);
    SettlesOn(r1.inst, r1.env, ReadBack, [SaveSettle(NoFault)]);
    SettlesOn(r2.inst, r2.env, SaveSettle(NoFault), []);
    assert [CallNote(call)] + [ReadBack, SaveSettle(NoFault)] == [CallNote(call), ReadBack, SaveSettle(NoFault)];
    if claim == ClaimState(true, false, false) {
      assert l' == i.latches.(claim := claim);
      NothingToSettle(r2, SaveSettle(NoFault));
    } else {
      SaveGoesThrough(r2, l', SettleIdle, i, e, after, e.refundCalls);
    }
  }

  /**
   * A `claimLegB` nothing disturbs ends with its outcome in the store, whatever leg B's note reads and however its write
   * returned: the flow's own claim, an adopted one, an attempt that provably did not land, or one still open.
   */
  lemma CalmClaim(i: Instance, e: Env, secret: Secret, call: NoteCall)
    requires Calm(i, e) && AllSaved(i) && MayClaim(i, secret) && Writable(i.latches)
    requires Writable(Claiming(i.latches, ClaimComesTo(e.note, e.nowMs, secret, call)))
    ensures Reached(DoSettles(i, e, ClaimSteps(secret, NoFault, call, NoFault)),
                    Claiming(i.latches, ClaimComesTo(e.note, e.nowMs, secret, call)), SettleIdle, i, e,
                    NoteAfter(e.note, e.nowMs, secret, call), e.refundCalls)
  {
    hide Project, DoSettle, DoSettles, Writable, Reached;
    ClaimIsBegun(i, e, secret);
    ClaimIsSettled(DoSettles(i, e, [StartClaim(secret), SaveSettle(NoFault)]), i, e, secret, call);
    TwoSettles(i, e, [StartClaim(secret), SaveSettle(NoFault)], [CallNote(call), ReadBack, SaveSettle(NoFault)]);
    assert ClaimSteps(secret, NoFault, call, NoFault)
           == [StartClaim(secret), SaveSettle(NoFault)] + [CallNote(call), ReadBack, SaveSettle(NoFault)];
  }

  // --- refundLegA ----------------------------------------------------------------------------------------------------------------

  /** Whether the call goes on from a stage, and with which latches. */
  datatype Stage = On(l: Latches) | Ends(l: Latches)

  function SeenClaimed(l: Latches): Latches {
    l.(refund := l.refund.(claimSeen := true))
  }

  function SeenRefunded(l: Latches): Latches {
    l.(refund := l.refund.(evidence := l.lock.railRef))
  }

  /** Leg B's note decides an attempt of its claim that has no outcome yet; one still open holds the refund back. */
  function AfterNote(l: Latches, note: PaperNote, nowMs: nat): Stage
    requires l.pairing.Some?
  {
    if !l.claim.attempted || l.claim.adopted then On(l)
    else if note.NoteClaimed? && l.pairing.value.statement == HashOf(note.secret) then On(Claiming(l, ClaimState(true, false, true)))
    else if note.NoteLocked? && nowMs < note.refundAfterMs then Ends(l)
    else On(l.(claim := ClaimState(false, false, false)))
  }

  /** On a signed rail a claim of leg A, seen before anything is sent, ends the refund. */
  function AfterPending(l: Latches, kind: RailKind, claimSeen: bool): Stage {
    if kind != Escrow && claimSeen then Ends(SeenClaimed(l)) else On(l)
  }

  /** On the escrow a lock without evidence is asked about first: it is evidence, a verdict, or not final yet. */
  function AfterAbsence(l: Latches, kind: RailKind, absence: Absence): Stage {
    if kind != Escrow || l.lock.evidence.Some? || l.refund.evidence.Some? then On(l)
    else if absence == AbsenceLanded then On(l.(lock := l.lock.(evidence := l.lock.railRef)))
    else if absence == NeverLocked then Ends(l.(lock := l.lock.(neverLanded := true)))
    else Ends(l)
  }

  /** Where a refund's recovery, or its send, leads. */
  datatype Way = Confirms(l: Latches) | Sends(l: Latches) | Stops(l: Latches)

  /** A refund already attempted is looked for before another is made. */
  function AfterRecovery(l: Latches, kind: RailKind, answer: RefundAnswer): Way {
    if l.refund.evidence.Some? then Confirms(l)
    else if !l.refund.attempted then Sends(l)
    else if answer == ReadsRefunded then Confirms(SeenRefunded(l))
    else if answer == ReadsClaimed then Stops(SeenClaimed(l))
    else if answer == Undecided || (kind == SignedByOutpoint && l.refund.recovery.Some?) then Stops(l)
    else Sends(l.(refund := l.refund.(recovery := None)))
  }

  /** The intent, saved before the rail's refund is called. */
  function Intended(l: Latches): Latches {
    l.(refund := l.refund.(attempted := true))
  }

  /** The refund as it is sent; a signed rail's transaction is saved first. */
  function Called(l: Latches, kind: RailKind, signedTx: nat): Latches {
    if kind == Escrow then Intended(l) else l.(refund := l.refund.(attempted := true, recovery := Some(signedTx)))
  }

  function AfterSend(l: Latches, kind: RailKind, signedTx: nat, finished: RefundOutcome): Way {
    var called := Called(l, kind, signedTx);
    if finished == RefundReturned || finished == RefundSeen then Confirms(SeenRefunded(called))
    else if finished == RefundClaimed then Stops(SeenClaimed(called))
    else if finished == RefundNotBroadcast then Stops(called.(refund := called.refund.(recovery := None)))
    else Stops(called)
  }

  function AfterConfirm(l: Latches, claimed: bool, confirmed: RefundOutcome): Latches {
    if confirmed == RefundClaimed && claimed then SeenClaimed(l) else l
  }

  predicate MayRefund(i: Instance, nowMs: nat) {
    && i.settlePc.SettleIdle? && i.latches.pairing.Some? && i.latches.offerA.Some? && i.latches.lock.hashLock.Some?
    && i.latches.lock.accounts.Some? && !i.latches.lock.neverLanded && !i.latches.claim.claimed
    && nowMs >= i.latches.offerA.value.refundAfterMs
  }

  lemma {:induction false} IdleStays(r: Result, actions: seq<SettleAction>)
    requires r.inst.settlePc.SettleIdle?
    requires forall k :: 0 <= k < |actions| ==> !actions[k].StartClaim? && !actions[k].StartRefund? && !actions[k].SeeLegAClaimed?
    ensures DoSettles(r.inst, r.env, actions) == r
    decreases |actions|
  {
    hide DoSettle;
    if actions != [] {
      NothingToSettle(r, actions[0]);
      IdleStays(r, actions[1..]);
    }
  }

  lemma NoteIsRead(i: Instance, e: Env)
    requires Calm(i, e) && AllSaved(i) && MayRefund(i, e.nowMs) && Writable(AfterNote(i.latches, e.note, e.nowMs).l)
    ensures var stage := AfterNote(i.latches, e.note, e.nowMs);
            Reached(DoSettles(i, e, [StartRefund, ReadNote, SaveSettle(NoFault)]), stage.l, if stage.On? then CheckingPending else SettleIdle,
                    i, e, e.note, e.refundCalls)
  {
    hide Project, Save, DoSaveSettle, Writable;
    var stage := AfterNote(i.latches, e.note, e.nowMs);
    var r1 := DoSettle(i, e, StartRefund);
    var r2 := DoSettle(r1.inst, r1.env, ReadNote);
    SettlesOn(i, e, StartRefund, [ReadNote, SaveSettle(NoFault)]);
    SettlesOn(r1.inst, r1.env, ReadNote, [SaveSettle(NoFault)]);
    SettlesOn(r2.inst, r2.env, SaveSettle(NoFault), []);
    assert [StartRefund] + [ReadNote, SaveSettle(NoFault)] == [StartRefund, ReadNote, SaveSettle(NoFault)];
    if r2.inst.settlePc.Saving? {
      SaveGoesThrough(r2, stage.l, CheckingPending, i, e, e.note, e.refundCalls);
    } else {
      NothingToSave(r2);
    }
  }

  lemma NothingToSave(r: Result)
    requires !r.inst.settlePc.Saving?
    ensures DoSettle(r.inst, r.env, SaveSettle(NoFault)) == r
  {
  }

  lemma PendingIsChecked(r: Result, l: Latches, i: Instance, e: Env, claimSeen: bool)
    requires Reached(r, l, CheckingPending, i, e, e.note, e.refundCalls)
    requires claimSeen ==> e.rail.claimed || e.rail.kind == SignedByOutpoint
    requires Writable(AfterPending(l, e.rail.kind, claimSeen).l)
    ensures var stage := AfterPending(l, e.rail.kind, claimSeen);
            Reached(DoSettles(r.inst, r.env, [CheckPending(claimSeen), SaveSettle(NoFault)]), stage.l,
                    if stage.On? then BuyerSteps.CheckingAbsence else SettleIdle, i, e, e.note, e.refundCalls)
  {
    hide Project, Save, DoSaveSettle, Writable;
    var stage := AfterPending(l, e.rail.kind, claimSeen);
    ProjectsOver(stage.l, l, Body(i));
    var r1 := DoSettle(r.inst, r.env, CheckPending(claimSeen));
    SettlesOn(r.inst, r.env, CheckPending(claimSeen), [SaveSettle(NoFault)]);
    SettlesOn(r1.inst, r1.env, SaveSettle(NoFault), []);
    assert [CheckPending(claimSeen)] + [SaveSettle(NoFault)] == [CheckPending(claimSeen), SaveSettle(NoFault)];
    if r1.inst.settlePc.Saving? {
      SaveGoesThrough(r1, stage.l, SettleIdle, i, e, e.note, e.refundCalls);
    } else {
      NothingToSave(r1);
    }
  }

  lemma AbsenceIsChecked(r: Result, l: Latches, i: Instance, e: Env, absence: Absence)
    requires Reached(r, l, BuyerSteps.CheckingAbsence, i, e, e.note, e.refundCalls)
    requires l.lock.attempted && l.lock.railRef.Some? && l.offerA.Some?
    requires AbsenceMayBe(e.rail, l.lock.railRef.value, l.offerA.value.refundAfterMs, e.nowMs, absence)
    requires Writable(AfterAbsence(l, e.rail.kind, absence).l)
    ensures var stage := AfterAbsence(l, e.rail.kind, absence);
            Reached(DoSettles(r.inst, r.env, [AskAbsence, CheckAbsence(absence), SaveSettle(NoFault)]), stage.l,
                    if stage.On? then RecoveringRefund else SettleIdle, i, e, e.note, e.refundCalls)
  {
    hide Project, Save, DoSaveSettle, Writable, AbsenceMayBe;
    var stage := AfterAbsence(l, e.rail.kind, absence);
    ProjectsOver(stage.l, l, Body(i));
    var r1 := DoSettle(r.inst, r.env, AskAbsence);
    var r2 := DoSettle(r1.inst, r1.env, CheckAbsence(absence));
    SettlesOn(r.inst, r.env, AskAbsence, [CheckAbsence(absence), SaveSettle(NoFault)]);
    SettlesOn(r1.inst, r1.env, CheckAbsence(absence), [SaveSettle(NoFault)]);
    SettlesOn(r2.inst, r2.env, SaveSettle(NoFault), []);
    assert [AskAbsence] + [CheckAbsence(absence), SaveSettle(NoFault)] == [AskAbsence, CheckAbsence(absence), SaveSettle(NoFault)];
    if r2.inst.settlePc.Saving? {
      SaveGoesThrough(r2, stage.l, r2.inst.settlePc.then_, i, e, e.note, e.refundCalls);
    } else {
      NothingToSave(r2);
    }
  }

  /** Where a way leads. */
  function PcOf(way: Way): SettlePc {
    match way
    case Confirms(_) => Confirming
    case Sends(_) => Intending
    case Stops(_) => SettleIdle
  }

  lemma RefundIsLookedFor(r: Result, l: Latches, i: Instance, e: Env, answer: RefundAnswer)
    requires Reached(r, l, RecoveringRefund, i, e, e.note, e.refundCalls)
    requires (answer == ReadsRefunded ==> e.rail.refunded) && (answer == ReadsClaimed ==> e.rail.claimed)
    requires Writable(AfterRecovery(l, e.rail.kind, answer).l)
    ensures var way := AfterRecovery(l, e.rail.kind, answer);
            Reached(DoSettles(r.inst, r.env, [RecoverRefund(answer), SaveSettle(NoFault)]), way.l, PcOf(way), i, e, e.note, e.refundCalls)
  {
    hide Project, Save, DoSaveSettle, Writable;
    var way := AfterRecovery(l, e.rail.kind, answer);
    ProjectsOver(way.l, l, Body(i));
    var r1 := DoSettle(r.inst, r.env, RecoverRefund(answer));
    SettlesOn(r.inst, r.env, RecoverRefund(answer), [SaveSettle(NoFault)]);
    SettlesOn(r1.inst, r1.env, SaveSettle(NoFault), []);
    assert [RecoverRefund(answer)] + [SaveSettle(NoFault)] == [RecoverRefund(answer), SaveSettle(NoFault)];
    if r1.inst.settlePc.Saving? {
      SaveGoesThrough(r1, way.l, PcOf(way), i, e, e.note, e.refundCalls);
    } else {
      NothingToSave(r1);
    }
  }

  lemma IntentIsSaved(r: Result, l: Latches, i: Instance, e: Env)
    requires Reached(r, l, Intending, i, e, e.note, e.refundCalls) && Writable(Intended(l))
    ensures Reached(DoSettles(r.inst, r.env, [Intend, SaveSettle(NoFault)]), Intended(l), Refunding, i, e, e.note, e.refundCalls)
  {
    hide Project, Save, DoSaveSettle, Writable;
    ProjectsOver(Intended(l), l, Body(i));
    var r1 := DoSettle(r.inst, r.env, Intend);
    SettlesOn(r.inst, r.env, Intend, [SaveSettle(NoFault)]);
    SettlesOn(r1.inst, r1.env, SaveSettle(NoFault), []);
    assert [Intend] + [SaveSettle(NoFault)] == [Intend, SaveSettle(NoFault)];
    SaveGoesThrough(r1, Intended(l), Refunding, i, e, e.note, e.refundCalls);
  }

  /** The rail's refund is called over the saved intent. */
  function CallsAfter(l: Latches, i: Instance, e: Env): seq<RefundCall> {
    e.refundCalls + [RefundCall(Project(Intended(l), Body(i)))]
  }

  lemma RefundIsCalled(r: Result, l: Latches, i: Instance, e: Env, signedTx: nat)
    requires Reached(r, Intended(l), Refunding, i, e, e.note, e.refundCalls) && Writable(Called(l, e.rail.kind, signedTx))
    ensures Reached(DoSettles(r.inst, r.env, [CallRefund(signedTx), SaveSettle(NoFault)]), Called(l, e.rail.kind, signedTx), SendingRefund,
                    i, e, e.note, CallsAfter(l, i, e))
  {
    hide Project, Save, DoSaveSettle, Writable;
    var l' := Called(l, e.rail.kind, signedTx);
    ProjectsOver(l', Intended(l), Body(i));
    var r1 := DoSettle(r.inst, r.env, CallRefund(signedTx));
    SettlesOn(r.inst, r.env, CallRefund(signedTx), [SaveSettle(NoFault)]);
    SettlesOn(r1.inst, r1.env, SaveSettle(NoFault), []);
    assert [CallRefund(signedTx)] + [SaveSettle(NoFault)] == [CallRefund(signedTx), SaveSettle(NoFault)];
    assert StoredRecord(r.env) == Project(Intended(l), Body(i));
    if r1.inst.settlePc.Saving? {
      SaveGoesThrough(r1, l', SendingRefund, i, e, e.note, CallsAfter(l, i, e));
    } else {
      NothingToSave(r1);
    }
  }

  lemma RefundIsFinished(r: Result, l: Latches, i: Instance, e: Env, signedTx: nat, finished: RefundOutcome)
    requires Reached(r, Called(l, e.rail.kind, signedTx), SendingRefund, i, e, e.note, CallsAfter(l, i, e))
    requires finished == RefundSeen ==> e.rail.refunded
    requires (finished == RefundClaimed ==> e.rail.claimed) && (finished == RefundNotBroadcast ==> e.rail.kind != Escrow)
    requires Writable(AfterSend(l, e.rail.kind, signedTx, finished).l)
    ensures var way := AfterSend(l, e.rail.kind, signedTx, finished);
            Reached(DoSettles(r.inst, r.env, [FinishRefund(finished), SaveSettle(NoFault)]), way.l, PcOf(way), i, e, e.note, CallsAfter(l, i, e))
  {
    hide Project, Save, DoSaveSettle, Writable, CallsAfter;
    var way := AfterSend(l, e.rail.kind, signedTx, finished);
    ProjectsOver(way.l, Called(l, e.rail.kind, signedTx), Body(i));
    var r1 := DoSettle(r.inst, r.env, FinishRefund(finished));
    SettlesOn(r.inst, r.env, FinishRefund(finished), [SaveSettle(NoFault)]);
    SettlesOn(r1.inst, r1.env, SaveSettle(NoFault), []);
    assert [FinishRefund(finished)] + [SaveSettle(NoFault)] == [FinishRefund(finished), SaveSettle(NoFault)];
    if r1.inst.settlePc.Saving? {
      SaveGoesThrough(r1, way.l, PcOf(way), i, e, e.note, CallsAfter(l, i, e));
    } else {
      NothingToSave(r1);
    }
  }

  lemma RefundIsConfirmed(r: Result, l: Latches, i: Instance, e: Env, calls: seq<RefundCall>, confirmed: RefundOutcome)
    requires Reached(r, l, Confirming, i, e, e.note, calls) && Writable(AfterConfirm(l, e.rail.claimed, confirmed))
    ensures Reached(DoSettles(r.inst, r.env, [FinishRefund(confirmed), SaveSettle(NoFault)]), AfterConfirm(l, e.rail.claimed, confirmed),
                    SettleIdle, i, e, e.note, calls)
  {
    hide Project, Save, DoSaveSettle, Writable;
    var l' := AfterConfirm(l, e.rail.claimed, confirmed);
    ProjectsOver(l', l, Body(i));
    var r1 := DoSettle(r.inst, r.env, FinishRefund(confirmed));
    SettlesOn(r.inst, r.env, FinishRefund(confirmed), [SaveSettle(NoFault)]);
    SettlesOn(r1.inst, r1.env, SaveSettle(NoFault), []);
    assert [FinishRefund(confirmed)] + [SaveSettle(NoFault)] == [FinishRefund(confirmed), SaveSettle(NoFault)];
    if r1.inst.settlePc.Saving? {
      SaveGoesThrough(r1, l', SettleIdle, i, e, e.note, calls);
    } else {
      NothingToSave(r1);
    }
  }

  // --- the reads that decide, whatever happened before them --------------------------------------------------------------------

  /** Only these latches moved; the journal, the lock call and the world are as they were. */
  predicate OnlyMoved(r: Result, i: Instance, e: Env, claim: ClaimState, refund: RefundState, notes: seq<Note>) {
    && r.env == e && r.inst.journal == i.journal && r.inst.lockPc == i.lockPc
    && r.inst.latches == i.latches.(claim := claim, refund := refund, refundNotes := notes)
  }

  predicate Shows(note: PaperNote, secret: Secret) {
    note.NoteClaimed? && note.secret == secret
  }

  predicate StillTakes(note: PaperNote, nowMs: nat) {
    note.NoteLocked? && nowMs < note.refundAfterMs
  }

  /** The note read back adopts exactly a claim with this very secret, and clears the attempt exactly where none can come. */
  lemma ReadBackDecides(i: Instance, e: Env)
    requires i.settlePc.ReadingBack?
    ensures var (r, claim, shows, takes) := (DoReadBack(i, e), i.latches.claim, Shows(e.note, i.settlePc.secret), StillTakes(e.note, e.nowMs));
            && OnlyMoved(r, i, e, r.inst.latches.claim, i.latches.refund, r.inst.latches.refundNotes)
            && r.inst.latches.claim == ClaimState(claim.attempted && (shows || takes), claim.claimed, claim.adopted || shows)
            && (shows ==> AdoptedClaim in r.inst.latches.refundNotes) && (!shows ==> r.inst.latches.refundNotes == i.latches.refundNotes)
            && r.inst.settlePc == if shows || !takes then Saving(SettleIdle) else SettleIdle
  {
  }

  /** The note read before a refund decides an open attempt the same way, by the swap's statement, and lets the refund go on. */
  lemma ReadNoteDecides(i: Instance, e: Env)
    requires i.settlePc.ReadingNote? && i.latches.pairing.Some?
    ensures var (r, claim, takes) := (DoReadNote(i, e), i.latches.claim, StillTakes(e.note, e.nowMs));
            var shows := e.note.NoteClaimed? && HashOf(e.note.secret) == i.latches.pairing.value.statement;
            && OnlyMoved(r, i, e, r.inst.latches.claim, i.latches.refund, r.inst.latches.refundNotes)
            && r.inst.latches.claim == ClaimState(claim.attempted && (shows || takes), claim.claimed, claim.adopted || shows)
            && (shows ==> AdoptedClaim in r.inst.latches.refundNotes) && (!shows ==> r.inst.latches.refundNotes == i.latches.refundNotes)
            && r.inst.settlePc == if shows || !takes then Saving(CheckingPending) else SettleIdle
  {
  }

  /** A refund attempted before: its evidence is taken exactly from a chain that shows it, and its route to a claim as well. */
  lemma RecoverRefundDecides(i: Instance, e: Env, answer: RefundAnswer)
    requires i.settlePc.RecoveringRefund?
    ensures var (r, refund) := (DoRecoverRefund(i, e, answer), i.latches.refund);
            var asked := refund.evidence.None? && refund.attempted;
            var (found, routed) := (asked && answer == ReadsRefunded && e.rail.refunded, asked && answer == ReadsClaimed && e.rail.claimed);
            var again := asked && answer == NeverToLand && !(refund.recovery.Some? && e.rail.kind == SignedByOutpoint);
            && OnlyMoved(r, i, e, i.latches.claim, r.inst.latches.refund, i.latches.refundNotes)
            && r.inst.latches.refund
               == RefundState(refund.attempted, if again then None else refund.recovery, if found then i.latches.lock.railRef else refund.evidence,
                              refund.framesPosted, refund.claimSeen || routed)
            && (r.inst.settlePc == Confirming <==> refund.evidence.Some?) && (r.inst.settlePc == Intending <==> refund.evidence.None? && !asked)
            && (r.inst.settlePc == Saving(Confirming) <==> found) && (r.inst.settlePc == Saving(Intending) <==> again)
            && (r.inst.settlePc == Saving(SettleIdle) <==> routed && !refund.claimSeen)
  {
  }

  /** A refund just sent: the same of its outcome, with the signed bytes dropped exactly where they were never broadcast. */
  lemma FinishRefundDecides(i: Instance, e: Env, outcome: RefundOutcome)
    requires i.settlePc.SendingRefund?
    ensures var (r, refund) := (DoFinishRefund(i, e, outcome), i.latches.refund);
            var (found, routed) := (outcome == RefundReturned || (outcome == RefundSeen && e.rail.refunded), outcome == RefundClaimed && e.rail.claimed);
            var dropped := outcome == RefundNotBroadcast && e.rail.kind != Escrow;
            && OnlyMoved(r, i, e, i.latches.claim, r.inst.latches.refund, i.latches.refundNotes)
            && r.inst.latches.refund
               == RefundState(refund.attempted, if dropped then None else refund.recovery, if found then i.latches.lock.railRef else refund.evidence,
                              refund.framesPosted, refund.claimSeen || routed)
            && (r.inst.settlePc == Saving(Confirming) <==> found)
            && (r.inst.settlePc == Saving(SettleIdle) <==> dropped || (routed && !refund.claimSeen))
            && (r.inst.settlePc == SettleIdle <==> outcome == RefundFailed || (routed && refund.claimSeen))
  {
  }

  /** A claim or a refund begins exactly where its own checks pass; a refund reads the note first where an attempt is open. */
  lemma SettlingStartsExactly(i: Instance, e: Env, secret: Secret)
    ensures DoSettle(i, e, StartClaim(secret))
            == Result(if !i.journal.failed && MayClaim(i, secret)
                      then i.(latches := i.latches.(claim := i.latches.claim.(attempted := true)), settlePc := Saving(ClaimingNote(secret)))
                      else i, e)
    ensures DoSettle(i, e, StartRefund)
            == Result(if !i.journal.failed && MayRefund(i, e.nowMs)
                      then i.(settlePc := if i.latches.claim.attempted && !i.latches.claim.adopted then ReadingNote else CheckingPending)
                      else i, e)
  {
  }

  /** A failed read ends the call with nothing latched, wherever a call waits for one. */
  lemma FailedReadEnds(i: Instance, e: Env)
    ensures var waits := i.settlePc.ReadingBack? || i.settlePc in {ReadingNote, CheckingPending, AwaitingAbsence, RecoveringRefund};
            DoSettle(i, e, SettleReadFails) == Result(i.(settlePc := if waits then SettleIdle else i.settlePc), e)
  {
  }

  /** Behind an adopted claim, leg A seen claimed is in the store; nothing else comes of that look. */
  lemma LegAClaimIsNoted(i: Instance, e: Env)
    requires Calm(i, e) && AllSaved(i) && Writable(SeenClaimed(i.latches)) && i.settlePc.SettleIdle?
    ensures var seen := i.latches.claim.adopted && i.latches.lock.accounts.Some? && e.rail.claimed;
            Reached(DoSettles(i, e, [SeeLegAClaimed, SaveSettle(NoFault)]), if seen then SeenClaimed(i.latches) else i.latches, SettleIdle,
                    i, e, e.note, e.refundCalls)
  {
    hide Project, Save, DoSaveSettle, Writable;
    var r1 := DoSettle(i, e, SeeLegAClaimed);
    SettlesOn(i, e, SeeLegAClaimed, [SaveSettle(NoFault)]);
    SettlesOn(r1.inst, r1.env, SaveSettle(NoFault), []);
    assert [SeeLegAClaimed] + [SaveSettle(NoFault)] == [SeeLegAClaimed, SaveSettle(NoFault)];
    if r1.inst.settlePc.Saving? {
      SaveGoesThrough(r1, SeenClaimed(i.latches), SettleIdle, i, e, e.note, e.refundCalls);
    } else {
      NothingToSave(r1);
    }
  }

  // --- the whole refund call -----------------------------------------------------------------------------------------------------

  /** The answers are the ones the rail may give of itself as it stands, and no save fails. */
  predicate Undisturbed(i: Instance, e: Env, a: RefundAnswers) {
    && (forall k :: 0 <= k < 8 ==> a.saves[k] == NoFault)
    && (a.claimSeen ==> e.rail.claimed || e.rail.kind == SignedByOutpoint)
    && i.latches.lock.railRef.Some? && i.latches.offerA.Some?
    && AbsenceMayBe(e.rail, i.latches.lock.railRef.value, i.latches.offerA.value.refundAfterMs, e.nowMs, a.absence)
    && (a.recovered == ReadsRefunded || a.finished == RefundSeen ==> e.rail.refunded)
    && (a.recovered == ReadsClaimed || a.finished == RefundClaimed ==> e.rail.claimed)
    && (a.finished == RefundNotBroadcast ==> e.rail.kind != Escrow)
  }

  /** Where a `refundLegA` nothing disturbs ends, and the refund calls it made. */
  function RefundComesTo(i: Instance, e: Env, a: RefundAnswers): (Latches, seq<RefundCall>)
    requires i.latches.pairing.Some?
  {
    var noted := AfterNote(i.latches, e.note, e.nowMs);
    if noted.Ends? then (noted.l, e.refundCalls)
    else
      var pending := AfterPending(noted.l, e.rail.kind, a.claimSeen);
      if pending.Ends? then (pending.l, e.refundCalls)
      else
        var found := AfterAbsence(pending.l, e.rail.kind, a.absence);
        if found.Ends? then (found.l, e.refundCalls) else RecoveryComesTo(found.l, i, e, a)
  }

  function RecoveryComesTo(l: Latches, i: Instance, e: Env, a: RefundAnswers): (Latches, seq<RefundCall>) {
    match AfterRecovery(l, e.rail.kind, a.recovered)
    case Stops(stopped) => (stopped, e.refundCalls)
    case Confirms(seen) => (AfterConfirm(seen, e.rail.claimed, a.finished), e.refundCalls)
    case Sends(free) =>
      var sent := AfterSend(free, e.rail.kind, a.signedTx, a.finished);
      (if sent.Stops? then sent.l else AfterConfirm(sent.l, e.rail.claimed, a.confirmed), CallsAfter(free, i, e))
  }

  /** The latches a refund may go on with: whatever it sets next, the record is encoded. */
  predicate Refundable(l: Latches) {
    Writable(l) && l.lock.attempted && !l.lock.neverLanded && !l.claim.claimed
  }

  lemma NoteKeeps(l: Latches, note: PaperNote, nowMs: nat)
    requires Refundable(l) && l.pairing.Some? && |l.refundNotes| < 64
    ensures Refundable(AfterNote(l, note, nowMs).l) && AfterNote(l, note, nowMs).l.lock == l.lock && AfterNote(l, note, nowMs).l.offerA == l.offerA
    ensures AfterNote(l, note, nowMs).l.refund == l.refund
  {
  }

  lemma PendingKeeps(l: Latches, kind: RailKind, claimSeen: bool)
    requires Refundable(l)
    ensures Refundable(AfterPending(l, kind, claimSeen).l)
    ensures AfterPending(l, kind, claimSeen).On? ==> AfterPending(l, kind, claimSeen).l == l
  {
  }

  lemma AbsenceKeeps(l: Latches, kind: RailKind, absence: Absence)
    requires Refundable(l) && (kind == Escrow && absence == NeverLocked ==> !l.refund.claimSeen)
    ensures var stage := AfterAbsence(l, kind, absence);
            Writable(stage.l) && (stage.On? ==> Refundable(stage.l))
  {
  }

  lemma RecoveryKeeps(l: Latches, kind: RailKind, answer: RefundAnswer)
    requires Refundable(l)
    ensures Refundable(AfterRecovery(l, kind, answer).l)
  {
  }

  lemma SendKeeps(l: Latches, kind: RailKind, signedTx: nat, finished: RefundOutcome)
    requires Refundable(l)
    ensures Refundable(Intended(l)) && Refundable(Called(l, kind, signedTx)) && Refundable(AfterSend(l, kind, signedTx, finished).l)
  {
  }

  lemma ConfirmKeeps(l: Latches, claimed: bool, confirmed: RefundOutcome)
    requires Refundable(l)
    ensures Refundable(AfterConfirm(l, claimed, confirmed))
  {
  }

  function NoteActs(): seq<SettleAction> {
    [StartRefund, ReadNote, SaveSettle(NoFault)]
  }

  function PendingActs(a: RefundAnswers): seq<SettleAction> {
    [CheckPending(a.claimSeen), SaveSettle(NoFault)]
  }

  function AbsenceActs(a: RefundAnswers): seq<SettleAction> {
    [AskAbsence, CheckAbsence(a.absence), SaveSettle(NoFault)]
  }

  function RecoveryActs(a: RefundAnswers): seq<SettleAction> {
    [RecoverRefund(a.recovered), SaveSettle(NoFault)]
  }

  function IntentActs(): seq<SettleAction> {
    [Intend, SaveSettle(NoFault)]
  }

  function CallActs(a: RefundAnswers): seq<SettleAction> {
    [CallRefund(a.signedTx), SaveSettle(NoFault)]
  }

  function FinishActs(outcome: RefundOutcome): seq<SettleAction> {
    [FinishRefund(outcome), SaveSettle(NoFault)]
  }

  function SendActs(a: RefundAnswers): seq<SettleAction> {
    IntentActs() + (CallActs(a) + FinishActs(a.finished))
  }

  function LastActs(a: RefundAnswers): seq<SettleAction> {
    RecoveryActs(a) + (SendActs(a) + FinishActs(a.confirmed))
  }

  lemma StepsAreThese(i: Instance, e: Env, a: RefundAnswers)
    requires Undisturbed(i, e, a)
    ensures RefundSteps(a) == NoteActs() + (PendingActs(a) + (AbsenceActs(a) + LastActs(a)))
  {
    hide AbsenceMayBe;
  }

  lemma RefundIsSent(r: Result, l: Latches, i: Instance, e: Env, a: RefundAnswers)
    requires Undisturbed(i, e, a) && Refundable(l) && Reached(r, l, Intending, i, e, e.note, e.refundCalls)
    ensures var way := AfterSend(l, e.rail.kind, a.signedTx, a.finished);
            Reached(DoSettles(r.inst, r.env, SendActs(a)), way.l, PcOf(way), i, e, e.note, CallsAfter(l, i, e))
  {
    hide Reached, DoSettles, Project, AbsenceMayBe, Writable, Intended, Called, AfterSend, CallsAfter, PcOf;
    SendKeeps(l, e.rail.kind, a.signedTx, a.finished);
    var r1 := DoSettles(r.inst, r.env, IntentActs());
    IntentIsSaved(r, l, i, e);
    var r2 := DoSettles(r1.inst, r1.env, CallActs(a));
    RefundIsCalled(r1, l, i, e, a.signedTx);
    RefundIsFinished(r2, l, i, e, a.signedTx, a.finished);
    TwoSettles(r.inst, r.env, IntentActs(), CallActs(a) + FinishActs(a.finished));
    TwoSettles(r1.inst, r1.env, CallActs(a), FinishActs(a.finished));
  }

  /** A call whose pc is idle has ended: the segments left change nothing. */
  lemma EndedStays(r: Result, actions: seq<SettleAction>, l: Latches, i: Instance, e: Env, note: PaperNote, calls: seq<RefundCall>)
    requires Reached(r, l, SettleIdle, i, e, note, calls)
    requires forall k :: 0 <= k < |actions| ==> !actions[k].StartClaim? && !actions[k].StartRefund? && !actions[k].SeeLegAClaimed?
    ensures Reached(DoSettles(r.inst, r.env, actions), l, SettleIdle, i, e, note, calls)
  {
    hide DoSettles, Project;
    IdleStays(r, actions);
  }

  lemma ConfirmingWaits(r: Result, a: RefundAnswers, l: Latches, i: Instance, e: Env)
    requires Reached(r, l, Confirming, i, e, e.note, e.refundCalls) && Writable(AfterConfirm(l, e.rail.claimed, a.finished))
    ensures Reached(DoSettles(r.inst, r.env, SendActs(a)), AfterConfirm(l, e.rail.claimed, a.finished), SettleIdle, i, e, e.note, e.refundCalls)
  {
    hide Reached, Project, Writable, DoFinishRefund;
    assert r.inst.settlePc == Confirming by {
      ConfirmingIs(r, l, i, e);
    }
    NothingForConfirming(r, IntentActs() + CallActs(a));
    TwoSettles(r.inst, r.env, IntentActs() + CallActs(a), FinishActs(a.finished));
    assert SendActs(a) == (IntentActs() + CallActs(a)) + FinishActs(a.finished);
    RefundIsConfirmed(r, l, i, e, e.refundCalls, a.finished);
  }

  lemma ConfirmingIs(r: Result, l: Latches, i: Instance, e: Env)
    requires Reached(r, l, Confirming, i, e, e.note, e.refundCalls)
    ensures r.inst.settlePc == Confirming
  {
  }

  lemma ConfirmingSkips(r: Result, action: SettleAction)
    requires r.inst.settlePc == Confirming && (action.Intend? || action.SaveSettle? || action.CallRefund?)
    ensures DoSettle(r.inst, r.env, action) == r
  {
    hide Save;
  }

  lemma {:induction false} NothingForConfirming(r: Result, actions: seq<SettleAction>)
    requires r.inst.settlePc == Confirming
    requires forall k :: 0 <= k < |actions| ==> actions[k].Intend? || actions[k].SaveSettle? || actions[k].CallRefund?
    ensures DoSettles(r.inst, r.env, actions) == r
    decreases |actions|
  {
    hide DoSettle;
    if actions != [] {
      ConfirmingSkips(r, actions[0]);
      NothingForConfirming(r, actions[1..]);
    }
  }

  lemma RefundIsRecovered(r: Result, l: Latches, i: Instance, e: Env, a: RefundAnswers)
    requires Undisturbed(i, e, a) && Refundable(l) && Reached(r, l, RecoveringRefund, i, e, e.note, e.refundCalls)
    ensures var (l', calls) := RecoveryComesTo(l, i, e, a);
            Reached(DoSettles(r.inst, r.env, LastActs(a)), l', SettleIdle, i, e, e.note, calls)
  {
    hide Reached, DoSettles, Project, AbsenceMayBe, Writable, AfterRecovery, AfterSend, AfterConfirm, CallsAfter;
    RecoveryKeeps(l, e.rail.kind, a.recovered);
    RefundIsLookedFor(r, l, i, e, a.recovered);
    var way := AfterRecovery(l, e.rail.kind, a.recovered);
    var r1 := DoSettles(r.inst, r.env, RecoveryActs(a));
    var r2 := DoSettles(r1.inst, r1.env, SendActs(a));
    TwoSettles(r.inst, r.env, RecoveryActs(a), SendActs(a) + FinishActs(a.confirmed));
    TwoSettles(r1.inst, r1.env, SendActs(a), FinishActs(a.confirmed));
    match way
    case Stops(stopped) =>
      EndedStays(r1, SendActs(a) + FinishActs(a.confirmed), stopped, i, e, e.note, e.refundCalls);
    case Confirms(seen) =>
      ConfirmKeeps(seen, e.rail.claimed, a.finished);
      ConfirmingWaits(r1, a, seen, i, e);
      EndedStays(r2, FinishActs(a.confirmed), AfterConfirm(seen, e.rail.claimed, a.finished), i, e, e.note, e.refundCalls);
    case Sends(free) =>
      RefundIsSent(r1, free, i, e, a);
      SendKeeps(free, e.rail.kind, a.signedTx, a.finished);
      var sent := AfterSend(free, e.rail.kind, a.signedTx, a.finished);
      if sent.Stops? {
        EndedStays(r2, FinishActs(a.confirmed), sent.l, i, e, e.note, CallsAfter(free, i, e));
      } else {
        SentConfirms(free, e.rail.kind, a.signedTx, a.finished);
        ConfirmKeeps(sent.l, e.rail.claimed, a.confirmed);
        RefundIsConfirmed(r2, sent.l, i, e, CallsAfter(free, i, e), a.confirmed);
      }
  }

  lemma SentConfirms(l: Latches, kind: RailKind, signedTx: nat, finished: RefundOutcome)
    ensures AfterSend(l, kind, signedTx, finished).Stops? || AfterSend(l, kind, signedTx, finished).Confirms?
  {
  }

  /**
   * A `refundLegA` nothing disturbs ends with its outcome in the store, whatever the note, the rail and the recovery answer:
   * the claim attempt's, the lock's evidence or the verdict, the claim that was seen, the refund's intent and its evidence.
   */
  lemma CalmRefund(i: Instance, e: Env, a: RefundAnswers)
    requires Calm(i, e) && AllSaved(i) && MayRefund(i, e.nowMs) && Undisturbed(i, e, a)
    requires Refundable(i.latches) && |i.latches.refundNotes| < 64
    requires e.rail.kind == Escrow && a.absence == NeverLocked ==> !i.latches.refund.claimSeen
    ensures var (l, calls) := RefundComesTo(i, e, a);
            Reached(DoSettles(i, e, RefundSteps(a)), l, SettleIdle, i, e, e.note, calls)
  {
    hide Reached, DoSettles, Project, Writable, AfterNote, AfterPending, AfterAbsence, RecoveryComesTo, AbsenceMayBe, Calm, AllSaved, RefundSteps;
    StepsAreThese(i, e, a);
    NoteKeeps(i.latches, e.note, e.nowMs);
    NoteIsRead(i, e);
    var noted := AfterNote(i.latches, e.note, e.nowMs);
    var r1 := DoSettles(i, e, NoteActs());
    TwoSettles(i, e, NoteActs(), PendingActs(a) + (AbsenceActs(a) + LastActs(a)));
    if noted.Ends? {
      EndedStays(r1, PendingActs(a) + (AbsenceActs(a) + LastActs(a)), noted.l, i, e, e.note, e.refundCalls);
    } else {
      PendingAndOn(r1, noted.l, i, e, a);
    }
  }

  lemma PendingAndOn(r: Result, l: Latches, i: Instance, e: Env, a: RefundAnswers)
    requires Undisturbed(i, e, a) && Refundable(l) && l.lock == i.latches.lock && l.offerA == i.latches.offerA
    requires e.rail.kind == Escrow && a.absence == NeverLocked ==> !l.refund.claimSeen
    requires Reached(r, l, CheckingPending, i, e, e.note, e.refundCalls)
    ensures var pending := AfterPending(l, e.rail.kind, a.claimSeen);
            var found := AfterAbsence(pending.l, e.rail.kind, a.absence);
            var (l', calls) := if pending.Ends? then (pending.l, e.refundCalls)
                               else if found.Ends? then (found.l, e.refundCalls) else RecoveryComesTo(found.l, i, e, a);
            Reached(DoSettles(r.inst, r.env, PendingActs(a) + (AbsenceActs(a) + LastActs(a))), l', SettleIdle, i, e, e.note, calls)
  {
    hide Reached, DoSettles, Project, Writable, AfterPending, AfterAbsence, RecoveryComesTo, AbsenceMayBe;
    PendingKeeps(l, e.rail.kind, a.claimSeen);
    PendingIsChecked(r, l, i, e, a.claimSeen);
    var pending := AfterPending(l, e.rail.kind, a.claimSeen);
    var r1 := DoSettles(r.inst, r.env, PendingActs(a));
    TwoSettles(r.inst, r.env, PendingActs(a), AbsenceActs(a) + LastActs(a));
    if pending.Ends? {
      EndedStays(r1, AbsenceActs(a) + LastActs(a), pending.l, i, e, e.note, e.refundCalls);
    } else {
      AbsenceKeeps(l, e.rail.kind, a.absence);
      AbsenceIsChecked(r1, l, i, e, a.absence);
      var found := AfterAbsence(l, e.rail.kind, a.absence);
      var r2 := DoSettles(r1.inst, r1.env, AbsenceActs(a));
      TwoSettles(r1.inst, r1.env, AbsenceActs(a), LastActs(a));
      if found.Ends? {
        EndedStays(r2, LastActs(a), found.l, i, e, e.note, e.refundCalls);
      } else {
        RefundIsRecovered(r2, found.l, i, e, a);
      }
    }
  }

  // --- ways a refund goes ----------------------------------------------------------------------------------------------------------

  /** No attempt of leg B's claim is still open: none, one with an outcome, or one the note decides. */
  predicate AttemptDecided(l: Latches, note: PaperNote, nowMs: nat)
    requires l.pairing.Some?
  {
    l.claim.attempted && !l.claim.adopted ==>
      (note.NoteClaimed? && l.pairing.value.statement == HashOf(note.secret)) || !(note.NoteLocked? && nowMs < note.refundAfterMs)
  }

  lemma NoteDecides(l: Latches, note: PaperNote, nowMs: nat)
    requires l.pairing.Some?
    ensures var stage := AfterNote(l, note, nowMs);
            && (stage.On? <==> AttemptDecided(l, note, nowMs)) && stage.l.lock == l.lock && stage.l.refund == l.refund
            && (stage.Ends? ==> stage.l == l)
  {
  }

  /** The lock is known to have landed, or the rail is asked and says so. */
  predicate LockKnown(l: Latches, kind: RailKind, absence: Absence) {
    kind == Escrow && l.lock.evidence.None? && l.refund.evidence.None? ==> absence == AbsenceLanded
  }

  lemma AbsenceLeads(l: Latches, kind: RailKind, absence: Absence)
    ensures var stage := AfterAbsence(l, kind, absence);
            && (stage.On? <==> LockKnown(l, kind, absence)) && stage.l.refund == l.refund && stage.l.lock.railRef == l.lock.railRef
            && (stage.l.lock.neverLanded <==> l.lock.neverLanded || (stage.Ends? && absence == NeverLocked))
  {
  }

  /** Up to the refund's own recovery, nothing of the refund is touched. */
  lemma RecoveryIsReached(i: Instance, e: Env, a: RefundAnswers) returns (l: Latches)
    requires i.latches.pairing.Some? && AttemptDecided(i.latches, e.note, e.nowMs) && (e.rail.kind == Escrow || !a.claimSeen)
    requires LockKnown(i.latches, e.rail.kind, a.absence)
    ensures RefundComesTo(i, e, a) == RecoveryComesTo(l, i, e, a) && l.refund == i.latches.refund && l.lock.railRef == i.latches.lock.railRef
  {
    hide AfterNote, AfterAbsence, RecoveryComesTo;
    NoteDecides(i.latches, e.note, e.nowMs);
    var noted := AfterNote(i.latches, e.note, e.nowMs).l;
    AbsenceLeads(noted, e.rail.kind, a.absence);
    l := AfterAbsence(noted, e.rail.kind, a.absence).l;
  }

  /** A first refund whose send returned, or was seen on the chain. */
  lemma FirstRefundComesTo(i: Instance, e: Env, a: RefundAnswers)
    requires i.latches.pairing.Some? && AttemptDecided(i.latches, e.note, e.nowMs) && (e.rail.kind == Escrow || !a.claimSeen)
    requires LockKnown(i.latches, e.rail.kind, a.absence)
    requires !i.latches.refund.attempted && i.latches.refund.evidence.None? && (a.finished == RefundReturned || a.finished == RefundSeen)
    ensures var (l, calls) := RefundComesTo(i, e, a);
            && l.refund.attempted && l.refund.evidence == i.latches.lock.railRef
            && |calls| == |e.refundCalls| + 1 && calls[..|e.refundCalls|] == e.refundCalls && calls[|e.refundCalls|].stored.refund.attempted
  {
    hide RefundComesTo;
    var l := RecoveryIsReached(i, e, a);
  }

  /** A refund attempted before, found on the chain. */
  lemma FoundRefundComesTo(i: Instance, e: Env, a: RefundAnswers)
    requires i.latches.pairing.Some? && AttemptDecided(i.latches, e.note, e.nowMs) && (e.rail.kind == Escrow || !a.claimSeen)
    requires LockKnown(i.latches, e.rail.kind, a.absence)
    requires i.latches.refund.attempted && i.latches.refund.evidence.None? && a.recovered == ReadsRefunded
    ensures RefundComesTo(i, e, a).0.refund.evidence == i.latches.lock.railRef && RefundComesTo(i, e, a).1 == e.refundCalls
  {
    hide RefundComesTo;
    var l := RecoveryIsReached(i, e, a);
  }

  /** The rail says the lock never landed. */
  lemma VerdictComesTo(i: Instance, e: Env, a: RefundAnswers)
    requires i.latches.pairing.Some? && AttemptDecided(i.latches, e.note, e.nowMs) && e.rail.kind == Escrow
    requires i.latches.lock.evidence.None? && i.latches.refund.evidence.None? && a.absence == NeverLocked
    ensures RefundComesTo(i, e, a).0.lock.neverLanded && RefundComesTo(i, e, a).1 == e.refundCalls
  {
    hide AfterNote, AfterAbsence, RecoveryComesTo;
    NoteDecides(i.latches, e.note, e.nowMs);
    AbsenceLeads(AfterNote(i.latches, e.note, e.nowMs).l, e.rail.kind, a.absence);
  }

  // --- the world -------------------------------------------------------------------------------------------------------------------

  /** What the world may do by itself. */
  predicate WorldMay(e: Env, event: WorldEvent) {
    match event
    case Tick(toMs) => e.nowMs <= toMs
    case LockLands(lock) =>
      && lock in e.rail.sent && lock.tx !in e.rail.dead && (forall s :: s in e.rail.landed ==> s.tx != lock.tx)
      && (e.rail.kind == Escrow ==> e.nowMs < lock.refundAfterMs && forall s :: s in e.rail.landed ==> s.ref != lock.ref)
    case LockDies(tx) => forall s :: s in e.rail.landed ==> s.tx != tx
    case SellerClaims => e.rail.landed != {} && !e.rail.refunded
    case RefundLands => e.rail.landed != {} && !e.rail.claimed && e.refundCalls != []
    case NoteBecomes(_) => true
  }

  /**
   * The clock goes on; a lock handed over may land or die, on the escrow before its refund time and once per hash lock; the
   * Seller may claim what landed and is not refunded; a refund may land once it was called and nothing is claimed; and leg B's
   * note may become anything. Nothing else happens by itself.
   */
  lemma TheWorldMovesExactly(e: Env, event: WorldEvent)
    ensures DoOutside(e, event)
            == if !WorldMay(e, event) then e
               else match event
                    case Tick(toMs) => e.(nowMs := toMs)
                    case LockLands(lock) => e.(rail := e.rail.(landed := e.rail.landed + {lock}))
                    case LockDies(tx) => e.(rail := e.rail.(dead := e.rail.dead + {tx}))
                    case SellerClaims => e.(rail := e.rail.(claimed := true))
                    case RefundLands => e.(rail := e.rail.(refunded := true))
                    case NoteBecomes(note) => e.(note := note)
  {
  }

  /** A new record's first version is in the store under a free key, and its flow holds it. */
  lemma FirstSaveGoesThrough(e: Env, offerA: Offer)
    ensures var w := FirstSave(e, offerA, NoFault);
            && (w.answer.Resolved? <==> e.store.held.None?) && (w.answer.Threw? ==> w.store == e.store)
            && (w.answer.Resolved? ==>
                  && !w.journal.failed && w.journal.digest == Some(w.journal.current) && w.store.held == Some(w.journal.current)
                  && w.journal.current.body == NewRecord(offerA))
  {
    assert Project(FreshLatches, NewRecord(offerA)) == NewRecord(offerA);
  }

  /** An instance begins with a new record under a free key, at rest and holding it. */
  lemma InstancesBeginExactly(config: Config, s: System, id: nat, offerA: Offer)
    ensures var begun := Step(config, s, Begin(id, offerA, NoFault));
            if id !in s.live && (config.many || s.live == map[]) && s.env.store.held.None? then
              && id in begun.live && begun.live[id].latches == FreshLatches && begun.live[id].lockPc.LockIdle?
              && begun.live[id].settlePc.SettleIdle? && Calm(begun.live[id], begun.env) && Body(begun.live[id]) == NewRecord(offerA)
              && begun.live == s.live[id := begun.live[id]] && begun.env.(store := s.env.store) == s.env
            else begun == s
  {
    hide FirstSave;
    FirstSaveGoesThrough(s.env, offerA);
  }

  /** One comes back from a held record that adds up, at rest and holding it; a crash ends one and leaves everything else as it was. */
  lemma InstancesComeAndGoExactly(config: Config, s: System, id: nat)
    ensures var (joins, held) := (id !in s.live && (config.many || s.live == map[]), s.env.store.held);
            && Step(config, s, Resume(id))
               == (if joins && held.Some? && Rebuild(held.value.body).Flow?
                   then s.(live := s.live[id := Instance(Opened(held.value), Rebuild(held.value.body).latches, LockIdle, SettleIdle)])
                   else s)
            && Step(config, s, Crash(id)) == s.(live := s.live - {id})
  {
    hide Rebuild;
  }
}
