/**
 * The Buyer's persisted record and the latches `BuyerFlow` (`src/client/buyer.ts`) keeps in memory: how a
 * flow is rebuilt from its record, how its live state is laid over a record, and the next step it names.
 */
module BuyerState {
  import opened Options

  // --- values --------------------------------------------------------------------------------------------------------

  /** A secret and the statement it opens; hashing is an injective name. */
  datatype Secret = Secret(id: nat)

  datatype Statement = HashOf(secret: Secret)

  predicate Opens(statement: Statement, secret: Secret) {
    statement == HashOf(secret)
  }

  /** The deadlines of one signed offer. */
  datatype Offer = Offer(claimByMs: nat, refundAfterMs: nat, expiresMs: nat)

  /** Leg B's offer, and the statement both accepts carry. */
  datatype Pairing = Pairing(offerB: Offer, statement: Statement)

  /** The lines a Buyer posts. */
  datatype Kind = OfferA | AcceptB | AccountA | LockA | RevealB | ReceiptB | RefundA | ReceiptRefundA

  /** What a lock is found by: the hash lock (evm, near, sol), or the funding transaction itself (btc). */
  datatype Ref = OfHashLock(statement: Statement) | OfTransaction(tx: nat)

  /** What `prepareLock` returned: the write ref, the transaction it built, and a hash saved after a receipt timeout. */
  datatype Prepared = Prepared(ref: Ref, tx: nat, timedOutHash: Option<nat>)

  datatype Note = AdoptedClaim | OtherNote(text: nat)

  // --- the record ------------------------------------------------------------------------------------------------------

  datatype LockState = LockState(
    attempted: bool,
    prepared: Option<Prepared>,
    fromBlock: Option<nat>,
    accounts: Option<nat>,
    hashLock: Option<Statement>,
    evidence: Option<Ref>,
    framePosted: bool,
    neverLanded: bool)

  /** The three leg B claim flags: a claim attempted, returned, or adopted from a note already claimed. */
  datatype ClaimState = ClaimState(attempted: bool, claimed: bool, adopted: bool)

  datatype RefundState = RefundState(
    attempted: bool,
    recovery: Option<nat>,
    evidence: Option<Ref>,
    framesPosted: bool,
    claimSeen: bool)

  /** `BuyerFlowRecord`, without the revision and the times, which the journal moves. */
  datatype Record = Record(
    offerA: Offer,
    pairing: Option<Pairing>,       // frames acceptA, offerB and acceptB, once saved
    acceptBStampMs: Option<nat>,    // the venue's own stamp on accept B, once landed
    landed: set<Kind>,              // the ledger entries marked landed
    legBVerified: bool,
    lock: LockState,
    claim: ClaimState,
    refund: RefundState,
    refundNotes: seq<Note>)

  function NewRecord(offerA: Offer): Record {
    Record(offerA, None, None, {}, false, LockState(false, None, None, None, None, None, false, false),
           ClaimState(false, false, false), RefundState(false, None, None, false, false), [])
  }

  /** The cross-field rules the record's reader and writer both enforce. */
  predicate Encodable(r: Record) {
    && (r.lock.prepared.Some? || r.lock.evidence.Some? || r.lock.neverLanded ==> r.lock.attempted)
    && (r.refund.recovery.Some? || r.refund.evidence.Some? ==> r.refund.attempted)
    && (r.lock.neverLanded ==> r.lock.evidence.None? && r.refund.evidence.None? && !r.refund.claimSeen && !r.claim.claimed)
    && (r.claim.claimed || r.claim.adopted ==> r.claim.attempted)
    && !(r.claim.claimed && r.claim.adopted)
    && |r.refundNotes| <= 64
  }

  // --- the live flow ---------------------------------------------------------------------------------------------------

  /** The lock's latches: `LockState` and the rail ref, which is rebuilt and not stored on its own. */
  datatype LockLatches = LockLatches(
    attempted: bool,
    prepared: Option<Prepared>,
    railRef: Option<Ref>,
    fromBlock: Option<nat>,
    accounts: Option<nat>,
    hashLock: Option<Statement>,
    evidence: Option<Ref>,
    framePosted: bool,
    neverLanded: bool)

  /** The fields of a `BuyerFlow` that its steps read and set. */
  datatype Latches = Latches(
    offerA: Option<Offer>,
    pairing: Option<Pairing>,
    acceptBStampMs: Option<nat>,
    legBVerified: bool,
    lock: LockLatches,
    claim: ClaimState,
    refund: RefundState,
    refundNotes: seq<Note>)

  /** A flow that has just been constructed. */
  const FreshLatches := Latches(None, None, None, false, LockLatches(false, None, None, None, None, None, None, false, false),
                                ClaimState(false, false, false), RefundState(false, None, None, false, false), [])

  datatype Restored = Flow(latches: Latches) | Corrupt

  /** Every latch as a stored record sets it. */
  function RebuiltLatches(r: Record): Latches {
    var acceptB := AcceptB in r.landed;
    Latches(
      if OfferA in r.landed then Some(r.offerA) else None,
      if acceptB then r.pairing else None,
      r.acceptBStampMs,
      r.legBVerified,
      LockLatches(
        r.lock.attempted,
        r.lock.prepared,
        if r.lock.prepared.Some? then Some(r.lock.prepared.value.ref) else r.lock.evidence,
        r.lock.fromBlock,
        r.lock.accounts,
        r.lock.hashLock,
        r.lock.evidence,
        r.lock.framePosted || LockA in r.landed,
        r.lock.neverLanded),
      r.claim,
      r.refund.(framesPosted := r.refund.framesPosted || ReceiptRefundA in r.landed),
      r.refundNotes)
  }

  /** `applyRecord`: every latch from a stored record, or a typed refusal of one that does not add up. */
  function Rebuild(r: Record): Restored {
    var acceptB := AcceptB in r.landed;
    if !Encodable(r) then Corrupt
    else if acceptB && r.pairing.None? then Corrupt
    else if r.lock.attempted && !acceptB then Corrupt
    else if r.lock.hashLock.Some? && r.pairing.Some? && r.lock.hashLock.value != r.pairing.value.statement then Corrupt
    else Flow(RebuiltLatches(r))
  }

  lemma RebuiltIs(r: Record)
    requires Rebuild(r).Flow?
    ensures Rebuild(r).latches == RebuiltLatches(r)
  {
  }

  /** `project`: the flow's live state laid over a record; the frames and the ledger stay the record's own. */
  function Project(l: Latches, r: Record): Record {
    r.(legBVerified := l.legBVerified,
       lock := LockState(l.lock.attempted, l.lock.prepared, l.lock.fromBlock, l.lock.accounts, l.lock.hashLock, l.lock.evidence,
                         l.lock.framePosted || LockA in r.landed, l.lock.neverLanded),
       claim := l.claim,
       refund := l.refund.(framesPosted := l.refund.framesPosted || ReceiptRefundA in r.landed),
       refundNotes := l.refundNotes)
  }

  /** The frame flags of a record agree with its ledger. */
  predicate FlagsFollowLedger(r: Record) {
    (LockA in r.landed ==> r.lock.framePosted) && (ReceiptRefundA in r.landed ==> r.refund.framesPosted)
  }

  /**
   * Resume loses nothing: the flow rebuilt from a record projects back onto that very record, exactly when the
   * record's frame flags agree with its ledger.
   */
  lemma RebuiltFlowProjectsBack(r: Record)
    requires Rebuild(r).Flow?
    ensures Project(Rebuild(r).latches, r) == r <==> FlagsFollowLedger(r)
  {
    var p := Project(Rebuild(r).latches, r);
    assert p == r <==> p.lock == r.lock && p.refund == r.refund;
  }

  /** A projected record's flags agree with its ledger, so what is saved can be resumed without loss. */
  lemma ProjectedFlagsFollow(l: Latches, r: Record)
    ensures FlagsFollowLedger(Project(l, r))
    ensures Project(l, Project(l, r)) == Project(l, r)
  {
  }

  // --- the next step ---------------------------------------------------------------------------------------------------

  datatype NextStep =
    | Bid | AcceptLegB | VerifyLegBLocked | PostAccountLineA | LockLegA | LearnSecret | RefundLegA | Done | Abandoned

  /** Leg B's receipt landed, and its claim is this flow's own, or adopted with leg A seen claimed. */
  predicate LegBDone(l: Latches, r: Record) {
    ReceiptB in r.landed && (l.claim.claimed || (l.claim.adopted && l.refund.claimSeen))
  }

  predicate AcceptBStampedLate(l: Latches, r: Record) {
    r.pairing.Some? && l.acceptBStampMs.Some? && l.acceptBStampMs.value >= r.pairing.value.offerB.expiresMs
  }

  /** `nextStep`, of a flow whose journal exists: `r` is the record last made durable. */
  function Next(l: Latches, r: Record, nowMs: nat): NextStep {
    if OfferA !in r.landed then Bid
    else if AcceptB !in r.landed then
      if r.pairing.Some? && nowMs >= r.pairing.value.offerB.expiresMs then Abandoned else AcceptLegB
    else if !l.legBVerified && !l.lock.attempted && AcceptBStampedLate(l, r) then Abandoned
    else if l.lock.neverLanded then Done
    else if l.refund.attempted then
      if ReceiptRefundA in r.landed then Done
      else if l.refund.claimSeen || l.claim.claimed then (if LegBDone(l, r) then Done else LearnSecret)
      else RefundLegA
    else if !l.legBVerified then VerifyLegBLocked
    else if AccountA !in r.landed then PostAccountLineA
    else if l.refund.claimSeen || l.claim.claimed then (if LegBDone(l, r) then Done else LearnSecret)
    else if l.lock.evidence.None? || !l.lock.framePosted then
      if l.lock.attempted && l.offerA.Some? && nowMs >= l.offerA.value.refundAfterMs then RefundLegA else LockLegA
    else if l.claim.attempted || l.claim.claimed then (if LegBDone(l, r) then Done else LearnSecret)
    else LearnSecret
  }

  // --- leg B's paper note ----------------------------------------------------------------------------------------------

  /** Leg B's note: world-writable, so any value may stand in it. */
  datatype PaperNote =
    | NoNote
    | NoteLocked(statement: Statement, refundAfterMs: nat)
    | NoteClaimed(statement: Statement, secret: Secret)
    | NoteRefunded

  /** `paperRail.verifyLock`: locked, under the accepted terms. */
  predicate NoteVerifies(note: PaperNote, pairing: Pairing) {
    note == NoteLocked(pairing.statement, pairing.offerB.refundAfterMs)
  }

  /** `legBNoteClaimable`: the note can still take a claim. */
  predicate NoteClaimable(note: PaperNote, nowMs: nat) {
    note.NoteLocked? && nowMs < note.refundAfterMs
  }

  /** The note reads claimed with the secret that opens the swap's statement. */
  predicate NoteProvesClaim(note: PaperNote, statement: Statement) {
    note.NoteClaimed? && Opens(statement, note.secret)
  }
}
