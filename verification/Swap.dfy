/**
 * The composite fold of two legs into one swap view (`src/swap.ts`): rail observations are bound to the leg they observe
 * before anything may read them, and the status is decided from the two contract machines, the bound evidence and the clock.
 *
 * The contract machine itself (`foldTranscript`) is not modelled: a leg's fold is its result.
 */
module Swap {
  import opened Options

  // --- what a leg folds to ---------------------------------------------------------------------------------------------

  type Did = nat
  type Id = nat
  type Rail = nat

  /** tclk's rehearsal rail: a note anybody can write, and no value. */
  const PAPER: Rail := 0

  /** How an offer declares itself a leg of a swap. */
  datatype SwapLeg = NotALeg | LegOfA(swapId: Id, feeBps: nat) | LegOfB(swapId: Id, legAOfferId: Id)

  /** `oriented` is what `checkOrientation` says of the offer under the caller's rail registry. */
  datatype Offer = Offer(id: Id, from: Did, leg: SwapLeg, oriented: bool, claimByMs: int, expiresMs: int)

  /** The nine fields an accepted offer commits to. */
  datatype Terms = Terms(contract: Id, lock: nat, statement: nat, amount: nat, asset: nat, payer: Did, payee: Did, claimByMs: int,
                         refundAfterMs: int)

  datatype MachineStatus = Proposed | Accepted | LockedM | ClaimedM | RefundedM | Cancelled

  /** The contract machine's state; `terms` is what `lockTerms` makes of it, when it can. */
  datatype State = State(
    status: MachineStatus,
    offer: Offer,
    contract: Option<Id>,
    payer: Option<Did>,
    payee: Option<Did>,
    statement: Option<nat>,
    rail: Option<Rail>,
    railRef: Option<Id>,
    secret: Option<nat>,
    terms: Option<Terms>)

  datatype Step = Step(ok: bool, isLock: bool, atMs: int)

  datatype LegFold = NoFold | LegFold(state: Option<State>, steps: seq<Step>)

  function StateOf(fold: LegFold): Option<State> {
    if fold.NoFold? then None else fold.state
  }

  function StepsOf(fold: LegFold): seq<Step> {
    if fold.NoFold? then [] else fold.steps
  }

  // --- evidence --------------------------------------------------------------------------------------------------------

  datatype RailStatus = RailLocked | RailClaimed | RailRefunded

  datatype Verified = VerifiedTrue | VerifiedFalse | NothingToCheck

  datatype LockEvidence = LockEvidence(rail: Rail, ref: Id, terms: Terms, railVerified: Verified)

  /** What an observation says it observed: the binding, whole or not at all. */
  datatype Binding = Binding(rail: Rail, ref: Id, contract: Id, terms: Terms)

  datatype Observation = Observation(status: RailStatus, final: bool, binding: Option<Binding>, transitionAtMs: Option<int>)

  datatype Evidence = Evidence(a: Option<LockEvidence>, b: Option<LockEvidence>, aRail: Option<Observation>, bRail: Option<Observation>)

  const NO_EVIDENCE := Evidence(None, None, None, None)

  datatype Leg = A | B

  /** An observation of this very leg: its accepted lock's rail and ref, its contract, and all nine of its terms. */
  predicate Bound(state: Option<State>, observation: Observation) {
    && observation.binding.Some? && state.Some? && state.value.rail.Some? && state.value.railRef.Some? && state.value.terms.Some?
    && observation.binding.value == Binding(state.value.rail.value, state.value.railRef.value, state.value.terms.value.contract,
                                           state.value.terms.value)
  }

  datatype Refusal = NoBinding | NoAcceptedLock | NoAcceptedPair | OtherRail | OtherRef | OtherContract | OtherTerms

  /** Why `bindObservation` refuses an observation: the first check that fails. */
  function RefusalOf(state: Option<State>, observation: Observation): (why: Option<Refusal>)
    ensures why.None? <==> Bound(state, observation)
  {
    if observation.binding.None? then Some(NoBinding)
    else if state.None? || state.value.rail.None? || state.value.railRef.None? then Some(NoAcceptedLock)
    else if state.value.terms.None? then Some(NoAcceptedPair)
    else if observation.binding.value.rail != state.value.rail.value then Some(OtherRail)
    else if observation.binding.value.ref != state.value.railRef.value then Some(OtherRef)
    else if observation.binding.value.contract != state.value.terms.value.contract then Some(OtherContract)
    else if observation.binding.value.terms != state.value.terms.value then Some(OtherTerms)
    else None
  }

  function BoundOnly(state: Option<State>, observation: Option<Observation>): Option<Observation> {
    if observation.Some? && Bound(state, observation.value) then observation else None
  }

  // --- the view --------------------------------------------------------------------------------------------------------

  datatype Status =
    | Unpaired | OrientationUnsupported | Bid | AcceptedS | Paired | BLocked | ALocked | Revealed | Settled
    | RefundedS | RefundedA | RefundedB | Abandoned

  datatype Settlement = NoneKnown | Unverified | Funded | ClaimedV | RefundedV

  datatype Reason =
    | StepRejected(leg: Leg, index: nat)
    | ObservationIgnored(leg: Leg, why: Refusal)
    | PaperRehearsal
    | NotOpen | NotASwapLeg(leg: Leg) | WrongContext(leg: Leg) | NotOriented(leg: Leg)
    | CancelledLeg(leg: Leg) | RefundedAlone | AdvancedAlone
    | SwapIdDiffers | OtherLegA | BeforeAccept | NotYetAccepted | MissingParties | PartiesDoNotCross | StatementsDiffer
    | LockOrderViolated
    | RefundNotCorroborated(leg: Leg) | RefundConflicts(leg: Leg)
    | ClaimRevealNotRecorded | RefundedAfterClaim | RefundedClaimUnproven
    | AwaitingFinality | RevealedOnBFirst | BNeverLocked | ANeverLocked
    | LockUnverified(leg: Leg) | OtherRailOrRef(leg: Leg) | TermsDiffer(leg: Leg)
    | SharedSwapId(swapId: Id, count: nat)

  datatype Coordination = OrderOfUnsignedTimes | PairedByRowOrder | PairedNoCrossing | AcceptByRowOrder(leg: Leg)

  datatype Identity = Identity(
    swapId: Option<Id>,
    legAOfferId: Option<Id>,
    legBOfferId: Option<Id>,
    buyer: Option<Did>,
    seller: Option<Did>,
    feeBps: Option<nat>,
    pairKey: Option<(Id, Id, Id)>)

  const NOBODY := Identity(None, None, None, None, None, None, None)

  /** What a view says besides its reasons. */
  datatype Body = Body(
    identity: Identity,
    status: Status,
    evidence: Evidence,
    settlementA: Settlement,
    settlementB: Settlement,
    coordination: seq<Coordination>,
    secret: Option<nat>)

  datatype View = View(body: Body, reasons: seq<Reason>)

  datatype Input = Input(legA: LegFold, legB: LegFold, evidence: Evidence, nowMs: int)

  // --- the pure pieces -------------------------------------------------------------------------------------------------

  function SettlementFor(evidence: Option<LockEvidence>, rail: Option<Observation>): Settlement {
    if rail.Some? then
      match rail.value.status
      case RailLocked => Funded
      case RailClaimed => ClaimedV
      case RailRefunded => RefundedV
    else if evidence.None? || evidence.value.railVerified.NothingToCheck? then NoneKnown
    else Unverified
  }

  predicate FinallyClaimed(rail: Option<Observation>) {
    rail.Some? && rail.value.status == RailClaimed && rail.value.final
  }

  predicate FinallyRefunded(rail: Option<Observation>) {
    rail.Some? && rail.value.status == RailRefunded && rail.value.final
  }

  /** `refundedFold`: only the paper rail, with no observation at all, folds from a refund frame alone. */
  predicate RefundedLeg(state: State, rail: Option<Observation>) {
    FinallyRefunded(rail) || (state.status == RefundedM && state.rail == Some(PAPER) && rail.None?)
  }

  function RefundReasons(leg: Leg, state: State, rail: Option<Observation>): seq<Reason> {
    if state.status != RefundedM || RefundedLeg(state, rail) then []
    else if rail.None? then [RefundNotCorroborated(leg)]
    else [RefundConflicts(leg)]
  }

  /** The evidence is of this leg's accepted lock, in all nine terms, and the rail corroborates it. */
  predicate Corroborated(evidence: Option<LockEvidence>, state: State) {
    && evidence.Some? && state.rail == Some(evidence.value.rail) && state.railRef == Some(evidence.value.ref)
    && state.terms == Some(evidence.value.terms) && evidence.value.railVerified.VerifiedTrue?
  }

  /** `evaluateLock`'s reason for a leg that is not corroborated. */
  function LockReason(leg: Leg, evidence: Option<LockEvidence>, state: State): Reason {
    if evidence.None? then LockUnverified(leg)
    else if state.rail != Some(evidence.value.rail) || state.railRef != Some(evidence.value.ref) then OtherRailOrRef(leg)
    else if state.terms != Some(evidence.value.terms) then TermsDiffer(leg)
    else LockUnverified(leg)
  }

  function StepReasons(leg: Leg, steps: seq<Step>): seq<Reason> {
    if steps == [] then []
    else StepReasons(leg, steps[..|steps| - 1]) + if steps[|steps| - 1].ok then [] else [StepRejected(leg, |steps| - 1)]
  }

  /** The time of the first lock the machine took. */
  function LockedAt(steps: seq<Step>): Option<int> {
    if steps == [] then None
    else if LockedAt(steps[..|steps| - 1]).Some? then LockedAt(steps[..|steps| - 1])
    else if steps[|steps| - 1].ok && steps[|steps| - 1].isLock then Some(steps[|steps| - 1].atMs)
    else None
  }

  predicate LockOrderIsViolated(legA: LegFold, legB: LegFold) {
    && LockedAt(StepsOf(legA)).Some? && LockedAt(StepsOf(legB)).Some?
    && LockedAt(StepsOf(legA)).value < LockedAt(StepsOf(legB)).value
  }

  // --- the fold --------------------------------------------------------------------------------------------------------

  /** A stage's answer: the view's body, and the reasons it adds. */
  datatype Answer = Answer(body: Body, added: seq<Reason>)

  function Say(body: Body, status: Status, added: seq<Reason>): Answer {
    Answer(body.(status := status), added)
  }

  function More(reasons: seq<Reason>, answer: Answer): Answer {
    Answer(answer.body, reasons + answer.added)
  }

  /** Leg A alone. */
  function FoldAlone(a: State, body: Body): Answer {
    match a.status
    case Proposed => Say(body, Bid, [])
    case Accepted => Say(body.(identity := body.identity.(seller := a.payee)), AcceptedS, [])
    case Cancelled => Say(body, Abandoned, [CancelledLeg(A)])
    case RefundedM =>
      if RefundedLeg(a, body.evidence.aRail) then Say(body, RefundedA, [RefundedAlone])
      else More(RefundReasons(A, a, body.evidence.aRail), Say(body, Unpaired, [AdvancedAlone]))
    case _ => Say(body, Unpaired, [AdvancedAlone])
  }

  /** Two legs that cross, past every refund and claim: how far the locks are. */
  function FoldLocks(a: State, b: State, nowMs: int, body: Body): Answer {
    if b.status != LockedM then
      if nowMs >= a.offer.expiresMs then Say(body, Abandoned, [BNeverLocked]) else Say(body, Paired, [])
    else if !Corroborated(body.evidence.b, b) then Say(body, Paired, [LockReason(B, body.evidence.b, b)])
    else if a.status != LockedM then
      if nowMs >= a.offer.claimByMs then Say(body, Abandoned, [ANeverLocked]) else Say(body, BLocked, [])
    else if !Corroborated(body.evidence.a, a) then Say(body, BLocked, [LockReason(A, body.evidence.a, a)])
    else Say(body, ALocked, [])
  }

  /** Two legs that cross, neither refunded: claimed, or on the way. */
  function FoldClaims(a: State, b: State, nowMs: int, body: Body): Answer {
    if a.status == ClaimedM then
      var known := if a.secret.Some? then body.(secret := a.secret) else body;
      if b.status == ClaimedM then
        if FinallyClaimed(body.evidence.aRail) && FinallyClaimed(body.evidence.bRail) then Say(known, Settled, [])
        else Say(known, Revealed, [AwaitingFinality])
      else Say(known, Revealed, [])
    else if b.status == ClaimedM then
      Say(if b.secret.Some? then body.(secret := b.secret) else body, Revealed, [RevealedOnBFirst])
    else FoldLocks(a, b, nowMs, body)
  }

  /** Leg B's claim is on a rail that carries value, and came before leg A's refund on the chains' own clocks. */
  predicate ClaimBeforeRefundProven(aRail: Option<Observation>, bRail: Option<Observation>) {
    && FinallyClaimed(bRail) && bRail.value.binding.Some? && bRail.value.binding.value.rail != PAPER && FinallyRefunded(aRail)
    && bRail.value.transitionAtMs.Some? && aRail.value.transitionAtMs.Some?
    && bRail.value.transitionAtMs.value < aRail.value.transitionAtMs.value
  }

  /** Two legs that cross. */
  function FoldCrossing(a: State, b: State, nowMs: int, body: Body): Answer {
    if a.status == Cancelled || b.status == Cancelled then
      Say(body, Abandoned, [CancelledLeg(if a.status == Cancelled then A else B)])
    else
      var refundedA, refundedB := RefundedLeg(a, body.evidence.aRail), RefundedLeg(b, body.evidence.bRail);
      var noted := RefundReasons(A, a, body.evidence.aRail) + RefundReasons(B, b, body.evidence.bRail)
                   + if FinallyClaimed(body.evidence.aRail) && a.status != ClaimedM && !refundedA then [ClaimRevealNotRecorded] else [];
      if refundedA && refundedB then More(noted, Say(body, RefundedS, []))
      else if refundedA then
        More(noted, Say(body, RefundedA,
                        if b.status == ClaimedM || FinallyClaimed(body.evidence.bRail) then
                          [if ClaimBeforeRefundProven(body.evidence.aRail, body.evidence.bRail) then RefundedAfterClaim
                           else RefundedClaimUnproven]
                        else []))
      else if refundedB then More(noted, Say(body, RefundedB, []))
      else More(noted, FoldClaims(a, b, nowMs, body))
  }

  predicate Crosses(a: State, b: State) {
    && a.payer.Some? && a.payee.Some? && b.payer.Some? && b.payee.Some?
    && a.payer == b.payee && a.payee == b.payer && a.statement == b.statement
  }

  /** Both legs accepted or further: the parties and the statement must cross. */
  function FoldParties(legA: LegFold, legB: LegFold, a: State, b: State, nowMs: int, body: Body): Answer {
    if a.payer.None? || a.payee.None? || b.payer.None? || b.payee.None? then Answer(body, [MissingParties])
    else if a.payer != b.payee || a.payee != b.payer then Answer(body, [PartiesDoNotCross])
    else if a.statement != b.statement then Answer(body, [StatementsDiffer])
    else
      var known := body.(identity := body.identity.(buyer := a.payer, seller := a.payee));
      if LockOrderIsViolated(legA, legB) then
        More([LockOrderViolated], FoldCrossing(a, b, nowMs, known.(coordination := known.coordination + [OrderOfUnsignedTimes])))
      else FoldCrossing(a, b, nowMs, known)
  }

  function PairKeyOf(a: State, b: State): Option<(Id, Id, Id)> {
    if a.contract.Some? && b.contract.Some? then Some((a.offer.id, a.contract.value, b.contract.value)) else None
  }

  function FoldPair(legA: LegFold, legB: LegFold, a: State, b: State, nowMs: int, body: Body): Answer
    requires a.offer.leg.LegOfA?
  {
    var named := body.(identity := body.identity.(legBOfferId := Some(b.offer.id)));
    if b.offer.leg.NotALeg? then Answer(named, [NotASwapLeg(B)])
    else if b.offer.leg.LegOfA? then Answer(named, [WrongContext(B)])
    else if b.offer.leg.swapId != a.offer.leg.swapId then Answer(named, [SwapIdDiffers])
    else if b.offer.leg.legAOfferId != a.offer.id then Answer(named, [OtherLegA])
    else if !b.offer.oriented then Say(named, OrientationUnsupported, [NotOriented(B)])
    else
      var known := named.(identity := named.identity.(seller := Some(b.offer.from), pairKey := PairKeyOf(a, b)));
      if a.status == Proposed then Say(known, if b.status == Proposed then Bid else Unpaired, [BeforeAccept])
      else if a.status == Accepted && b.status == Proposed then Say(known, AcceptedS, [])
      else if b.status == Proposed then Answer(known, [NotYetAccepted])
      else FoldParties(legA, legB, a, b, nowMs, known)
  }

  function FoldLegs(legA: LegFold, legB: LegFold, nowMs: int, body: Body): Answer {
    if StateOf(legA).None? then Answer(body, [NotOpen])
    else
      var a := StateOf(legA).value;
      var named := body.(identity := body.identity.(legAOfferId := Some(a.offer.id)));
      if a.offer.leg.NotALeg? then Answer(named, [NotASwapLeg(A)])
      else if a.offer.leg.LegOfB? then Answer(named, [WrongContext(A)])
      else
        var known := named.(identity := named.identity.(swapId := Some(a.offer.leg.swapId), feeBps := Some(a.offer.leg.feeBps)));
        if !a.offer.oriented then Say(known, OrientationUnsupported, [NotOriented(A)])
        else
          var mine := known.(identity := known.identity.(buyer := Some(a.offer.from)));
          if StateOf(legB).None? then FoldAlone(a, mine)
          else FoldPair(legA, legB, a, StateOf(legB).value, nowMs, mine)
  }

  function BoundEvidence(input: Input): Evidence {
    input.evidence.(aRail := BoundOnly(StateOf(input.legA), input.evidence.aRail),
                    bRail := BoundOnly(StateOf(input.legB), input.evidence.bRail))
  }

  function Ignored(leg: Leg, state: Option<State>, observation: Option<Observation>): seq<Reason> {
    if observation.Some? && !Bound(state, observation.value) then [ObservationIgnored(leg, RefusalOf(state, observation.value).value)] else []
  }

  predicate FromPaper(evidence: Option<LockEvidence>) {
    evidence.Some? && evidence.value.rail == PAPER
  }

  function FirstReasons(input: Input): seq<Reason> {
    StepReasons(A, StepsOf(input.legA)) + StepReasons(B, StepsOf(input.legB))
    + Ignored(A, StateOf(input.legA), input.evidence.aRail) + Ignored(B, StateOf(input.legB), input.evidence.bRail)
    + if FromPaper(input.evidence.a) || FromPaper(input.evidence.b) then [PaperRehearsal] else []
  }

  function StartBody(evidence: Evidence): Body {
    Body(NOBODY, Unpaired, evidence, SettlementFor(evidence.a, evidence.aRail), SettlementFor(evidence.b, evidence.bRail), [], None)
  }

  function Fold(input: Input): View {
    var answer := FoldLegs(input.legA, input.legB, input.nowMs, StartBody(BoundEvidence(input)));
    View(answer.body, FirstReasons(input) + answer.added)
  }
}
