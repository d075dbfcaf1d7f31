/**
 * What a swap view says, exactly: for any two legs, any evidence and any clock, when each status is reached, when each reason
 * is given, whose secret is shown and who the parties are.
 */
module SwapVerdicts {
  import opened Options
  import opened Swap
  import opened SwapFacts

  // --- the two legs ----------------------------------------------------------------------------------------------------

  /** Leg A folded to an open contract whose offer declares itself a leg A. */
  predicate OpensSwap(input: Input) {
    StateOf(input.legA).Some? && StateOf(input.legA).value.offer.leg.LegOfA?
  }

  /** Leg A is a swap under the caller's rails, and there is no leg B. */
  predicate Alone(input: Input) {
    OpensSwap(input) && StateOf(input.legA).value.offer.oriented && StateOf(input.legB).None?
  }

  /** The same with a leg B beside it, of whatever kind. */
  predicate Beside(input: Input) {
    OpensSwap(input) && StateOf(input.legA).value.offer.oriented && StateOf(input.legB).Some?
  }

  /** The second offer declares itself the leg B of the first. */
  predicate NamesLegA(a: Offer, b: Offer)
    requires a.leg.LegOfA?
  {
    b.leg == LegOfB(a.leg.swapId, a.id)
  }

  predicate Matched(input: Input) {
    && Beside(input)
    && NamesLegA(StateOf(input.legA).value.offer, StateOf(input.legB).value.offer) && StateOf(input.legB).value.offer.oriented
  }

  /** Both legs are accepted or further, between the same two parties the other way round, under one statement. */
  predicate Joined(input: Input) {
    && Matched(input)
    && var (a, b) := (StateOf(input.legA).value, StateOf(input.legB).value);
       a.status != Proposed && b.status != Proposed && Crosses(a, b)
  }

  predicate Standing(input: Input) {
    Joined(input) && StateOf(input.legA).value.status != Cancelled && StateOf(input.legB).value.status != Cancelled
  }

  predicate RefundedOnA(input: Input) {
    StateOf(input.legA).Some? && RefundIsEarned(StateOf(input.legA).value, input.evidence.aRail)
  }

  predicate RefundedOnB(input: Input) {
    StateOf(input.legB).Some? && RefundIsEarned(StateOf(input.legB).value, input.evidence.bRail)
  }

  predicate Unrefunded(input: Input) {
    Standing(input) && !RefundedOnA(input) && !RefundedOnB(input)
  }

  predicate ClaimedOnA(input: Input) {
    Unrefunded(input) && StateOf(input.legA).value.status == ClaimedM
  }

  predicate ClaimedOnB(input: Input) {
    Unrefunded(input) && StateOf(input.legB).value.status == ClaimedM
  }

  predicate BothObservedClaimed(input: Input) {
    && StateOf(input.legA).Some? && ObservedFinally(StateOf(input.legA).value, input.evidence.aRail, RailClaimed)
    && StateOf(input.legB).Some? && ObservedFinally(StateOf(input.legB).value, input.evidence.bRail, RailClaimed)
  }

  /** Neither refunded nor claimed: the pair is on its way to its locks. */
  predicate OnTheWay(input: Input) {
    Unrefunded(input) && StateOf(input.legA).value.status != ClaimedM && StateOf(input.legB).value.status != ClaimedM
  }

  predicate LockedOnA(input: Input) {
    OnTheWay(input) && StateOf(input.legA).value.status == LockedM
  }

  predicate LockedOnB(input: Input) {
    OnTheWay(input) && StateOf(input.legB).value.status == LockedM
  }

  predicate VerifiedOnA(input: Input) {
    LockedOnA(input) && LockIsVerified(StateOf(input.legA).value, input.evidence.a)
  }

  predicate VerifiedOnB(input: Input) {
    LockedOnB(input) && LockIsVerified(StateOf(input.legB).value, input.evidence.b)
  }

  // --- when a status is reached --------------------------------------------------------------------------------------------

  /** What each status takes. */
  predicate Reached(status: Status, input: Input) {
    var (legA, legB) := (StateOf(input.legA), StateOf(input.legB));
    match status
    case OrientationUnsupported =>
      OpensSwap(input) && (!legA.value.offer.oriented || (legB.Some? && NamesLegA(legA.value.offer, legB.value.offer) && !legB.value.offer.oriented))
    case Bid => (Alone(input) || (Matched(input) && legB.value.status == Proposed)) && legA.value.status == Proposed
    case AcceptedS => (Alone(input) || (Matched(input) && legB.value.status == Proposed)) && legA.value.status == Accepted
    case RefundedS => Standing(input) && RefundedOnA(input) && RefundedOnB(input)
    case RefundedA => (Standing(input) && RefundedOnA(input) && !RefundedOnB(input))
                      || (Alone(input) && legA.value.status == RefundedM && RefundedOnA(input))
    case RefundedB => Standing(input) && !RefundedOnA(input) && RefundedOnB(input)
    case Settled => ClaimedOnA(input) && ClaimedOnB(input) && BothObservedClaimed(input)
    case Revealed => (ClaimedOnA(input) || ClaimedOnB(input)) && !(ClaimedOnA(input) && ClaimedOnB(input) && BothObservedClaimed(input))
    case ALocked => VerifiedOnA(input) && VerifiedOnB(input)
    case BLocked => VerifiedOnB(input) && !VerifiedOnA(input) && (LockedOnA(input) || input.nowMs < legA.value.offer.claimByMs)
    case Paired => OnTheWay(input) && !VerifiedOnB(input) && (LockedOnB(input) || input.nowMs < legA.value.offer.expiresMs)
    case Abandoned =>
      || (Alone(input) && legA.value.status == Cancelled) || (Joined(input) && !Standing(input))
      || (OnTheWay(input) && !LockedOnB(input) && input.nowMs >= legA.value.offer.expiresMs)
      || (VerifiedOnB(input) && !LockedOnA(input) && input.nowMs >= legA.value.offer.claimByMs)
    case Unpaired =>
      || !OpensSwap(input) || (Beside(input) && !NamesLegA(legA.value.offer, legB.value.offer))
      || (Alone(input) && (legA.value.status in {LockedM, ClaimedM} || (legA.value.status == RefundedM && !RefundedOnA(input))))
      || (Matched(input) && !Joined(input) && !(legB.value.status == Proposed && legA.value.status in {Proposed, Accepted}))
  }

  /** The observations a stage reads are the supplied ones, where they are bound. */
  predicate Binds(body: Body, a: State, b: State, evidence: Evidence) {
    body.evidence == evidence.(aRail := BoundOnly(Some(a), evidence.aRail), bRail := BoundOnly(Some(b), evidence.bRail))
  }

  lemma RefundsAreThose(a: State, rail: Option<Observation>)
    ensures RefundedLeg(a, BoundOnly(Some(a), rail)) <==> RefundIsEarned(a, rail)
    ensures FinallyClaimed(BoundOnly(Some(a), rail)) <==> ObservedFinally(a, rail, RailClaimed)
  {
  }

  lemma CrossingReaches(input: Input, body: Body)
    requires Joined(input) && Binds(body, StateOf(input.legA).value, StateOf(input.legB).value, input.evidence)
    ensures Reached(FoldCrossing(StateOf(input.legA).value, StateOf(input.legB).value, input.nowMs, body).body.status, input)
  {
    hide RefundedLeg, RefundIsEarned, FinallyClaimed, ObservedFinally, LockIsVerified, Corroborated, BoundOnly, Crosses, RefundReasons;
    var (a, b) := (StateOf(input.legA).value, StateOf(input.legB).value);
    RefundsAreThose(a, input.evidence.aRail);
    RefundsAreThose(b, input.evidence.bRail);
    VerifiedIsCorroborated(a, input.evidence.a);
    VerifiedIsCorroborated(b, input.evidence.b);
  }

  lemma VerifiedIsCorroborated(state: State, evidence: Option<LockEvidence>)
    ensures Corroborated(evidence, state) <==> LockIsVerified(state, evidence)
  {
  }

  /** One leg's view of another stage: the body with its parties known, and what the order of the two locks adds to it. */
  lemma PartiesReach(input: Input, body: Body)
    requires Matched(input) && Binds(body, StateOf(input.legA).value, StateOf(input.legB).value, input.evidence) && body.status == Unpaired
    requires StateOf(input.legA).value.status != Proposed && StateOf(input.legB).value.status != Proposed
    ensures Reached(FoldParties(input.legA, input.legB, StateOf(input.legA).value, StateOf(input.legB).value, input.nowMs, body).body.status, input)
  {
    hide FoldCrossing, Reached, BoundOnly, RefundIsEarned, LockIsVerified, ObservedFinally, LockOrderIsViolated;
    var (a, b) := (StateOf(input.legA).value, StateOf(input.legB).value);
    var known := body.(identity := body.identity.(buyer := a.payer, seller := a.payee));
    if Crosses(a, b) {
      CrossingReaches(input, known);
      CrossingReaches(input, known.(coordination := known.coordination + [OrderOfUnsignedTimes]));
    } else {
      ApartIsUnpaired(input);
    }
  }

  lemma ApartIsUnpaired(input: Input)
    requires Matched(input) && !Joined(input)
    requires StateOf(input.legA).value.status != Proposed && StateOf(input.legB).value.status != Proposed
    ensures Reached(Unpaired, input)
  {
  }

  lemma PairReaches(input: Input, body: Body)
    requires Beside(input) && Binds(body, StateOf(input.legA).value, StateOf(input.legB).value, input.evidence) && body.status == Unpaired
    ensures Reached(FoldPair(input.legA, input.legB, StateOf(input.legA).value, StateOf(input.legB).value, input.nowMs, body).body.status, input)
  {
    hide FoldParties, BoundOnly, RefundIsEarned, LockIsVerified, ObservedFinally, Crosses;
    var (a, b) := (StateOf(input.legA).value, StateOf(input.legB).value);
    var named := body.(identity := body.identity.(legBOfferId := Some(b.offer.id)));
    var paired := named.(identity := named.identity.(seller := Some(b.offer.from), pairKey := PairKeyOf(a, b)));
    if Matched(input) && a.status != Proposed && b.status != Proposed {
      PartiesReach(input, paired);
    }
  }

  lemma AloneReaches(input: Input, body: Body)
    requires Alone(input) && body.status == Unpaired
    requires body.evidence.aRail == BoundOnly(StateOf(input.legA), input.evidence.aRail)
    ensures Reached(FoldAlone(StateOf(input.legA).value, body).body.status, input)
  {
    RefundsAreThose(StateOf(input.legA).value, input.evidence.aRail);
  }

  lemma EveryFoldReaches(input: Input)
    ensures Reached(Fold(input).body.status, input)
  {
    hide FoldPair, FoldAlone, RefundIsEarned, LockIsVerified, ObservedFinally, Crosses, FirstReasons;
    if OpensSwap(input) && StateOf(input.legA).value.offer.oriented {
      if StateOf(input.legB).None? {
        AloneReaches(input, OpenedBody(input));
      } else {
        PairReaches(input, OpenedBody(input));
      }
    }
  }

  lemma ReachedOnce(input: Input, status: Status, other: Status)
    requires Reached(status, input) && Reached(other, input)
    ensures status == other
  {
    hide RefundIsEarned, LockIsVerified, ObservedFinally, Crosses;
    ReachedIsOf(input, status);
    ReachedIsOf(input, other);
  }

  /** Which kind of input a status belongs to, and no other. */
  lemma ReachedIsOf(input: Input, status: Status)
    requires Reached(status, input)
    ensures OnTheWay(input) ==> status in {ALocked, BLocked, Paired, Abandoned}
    ensures ClaimedOnA(input) || ClaimedOnB(input) ==> status in {Settled, Revealed}
    ensures Standing(input) && !Unrefunded(input) ==> status in {RefundedS, RefundedA, RefundedB}
    ensures Joined(input) && !Standing(input) ==> status == Abandoned
  {
    hide RefundIsEarned, LockIsVerified, ObservedFinally, Crosses;
  }

  /** The status of any swap, exactly: a view has a status if and only if what that status takes is there. */
  lemma StatusIsExactly(input: Input, status: Status)
    ensures Fold(input).body.status == status <==> Reached(status, input)
  {
    hide Reached, Fold;
    EveryFoldReaches(input);
    if Reached(status, input) {
      ReachedOnce(input, status, Fold(input).body.status);
    }
  }

  // --- who, whose secret, in which order -------------------------------------------------------------------------------------

  /** The first lock step the machine took, and its time. */
  ghost predicate FirstLock(steps: seq<Step>, atMs: int) {
    exists k :: 0 <= k < |steps| && IsFirstLock(steps, k) && steps[k].atMs == atMs
  }

  predicate IsFirstLock(steps: seq<Step>, k: nat)
    requires k < |steps|
  {
    steps[k].ok && steps[k].isLock && forall j :: 0 <= j < k ==> !(steps[j].ok && steps[j].isLock)
  }

  lemma {:induction false} FirstLockIsFound(steps: seq<Step>, atMs: int)
    ensures LockedAt(steps) == Some(atMs) <==> FirstLock(steps, atMs)
    ensures LockedAt(steps).None? <==> forall k :: 0 <= k < |steps| ==> !(steps[k].ok && steps[k].isLock)
  {
    if steps != [] {
      var front := steps[..|steps| - 1];
      FirstLockIsFound(front, atMs);
      assert forall k :: 0 <= k < |front| ==> front[k] == steps[k];
      if FirstLock(front, atMs) {
        var k :| 0 <= k < |front| && IsFirstLock(front, k) && front[k].atMs == atMs;
        assert IsFirstLock(steps, k);
      }
      if FirstLock(steps, atMs) {
        var k :| 0 <= k < |steps| && IsFirstLock(steps, k) && steps[k].atMs == atMs;
        if k < |front| {
          assert IsFirstLock(front, k);
        }
      }
      if LockedAt(front).None? && steps[|front|].ok && steps[|front|].isLock {
        assert IsFirstLock(steps, |front|);
      }
    }
  }

  /** Leg A's first lock is older than leg B's, by the venue's unsigned times. */
  ghost predicate ALockedFirst(input: Input) {
    exists a, b :: FirstLock(StepsOf(input.legA), a) && FirstLock(StepsOf(input.legB), b) && a < b
  }

  lemma OrderIsThat(input: Input)
    ensures LockOrderIsViolated(input.legA, input.legB) <==> ALockedFirst(input)
  {
    hide FirstLock, LockedAt;
    forall at: int ensures FirstLock(StepsOf(input.legA), at) <==> LockedAt(StepsOf(input.legA)) == Some(at) {
      FirstLockIsFound(StepsOf(input.legA), at);
    }
    forall at: int ensures FirstLock(StepsOf(input.legB), at) <==> LockedAt(StepsOf(input.legB)) == Some(at) {
      FirstLockIsFound(StepsOf(input.legB), at);
    }
    if LockOrderIsViolated(input.legA, input.legB) {
      var a, b := LockedAt(StepsOf(input.legA)).value, LockedAt(StepsOf(input.legB)).value;
      assert FirstLock(StepsOf(input.legA), a) && FirstLock(StepsOf(input.legB), b);
    }
  }

  /** What a view says of its swap besides its status. */
  ghost predicate Introduces(body: Body, input: Input) {
    var (legA, legB, who) := (StateOf(input.legA), StateOf(input.legB), body.identity);
    && who.legAOfferId == (if legA.Some? then Some(legA.value.offer.id) else None)
    && who.swapId == (if OpensSwap(input) then Some(legA.value.offer.leg.swapId) else None)
    && who.feeBps == (if OpensSwap(input) then Some(legA.value.offer.leg.feeBps) else None)
    && who.legBOfferId == (if Beside(input) then Some(legB.value.offer.id) else None)
    && who.pairKey == (if Matched(input) && legA.value.contract.Some? && legB.value.contract.Some?
                       then Some((legA.value.offer.id, legA.value.contract.value, legB.value.contract.value)) else None)
    && who.buyer == (if Joined(input) then legA.value.payer
                     else if Alone(input) || Beside(input) then Some(legA.value.offer.from) else None)
    && who.seller == (if Joined(input) || (Alone(input) && legA.value.status == Accepted) then legA.value.payee
                      else if Matched(input) then Some(legB.value.offer.from) else None)
    && body.coordination == (if Joined(input) && ALockedFirst(input) then [OrderOfUnsignedTimes] else [])
  }

  lemma CrossingIntroducesNobody(a: State, b: State, nowMs: int, body: Body)
    ensures var said := FoldCrossing(a, b, nowMs, body).body;
            said.identity == body.identity && said.coordination == body.coordination
  {
  }

  lemma PairIntroduces(input: Input, body: Body)
    requires Beside(input) && body == OpenedBody(input)
    ensures Introduces(FoldPair(input.legA, input.legB, StateOf(input.legA).value, StateOf(input.legB).value, input.nowMs, body).body, input)
  {
    hide FoldCrossing, LockOrderIsViolated, ALockedFirst, SettlementFor, BoundOnly;
    var (a, b) := (StateOf(input.legA).value, StateOf(input.legB).value);
    var named := body.(identity := body.identity.(legBOfferId := Some(b.offer.id)));
    var paired := named.(identity := named.identity.(seller := Some(b.offer.from), pairKey := PairKeyOf(a, b)));
    var known := paired.(identity := paired.identity.(buyer := a.payer, seller := a.payee));
    CrossingIntroducesNobody(a, b, input.nowMs, known);
    CrossingIntroducesNobody(a, b, input.nowMs, known.(coordination := known.coordination + [OrderOfUnsignedTimes]));
    OrderIsThat(input);
  }

  /** The offers, the parties, the pair's key and the ground of every view, exactly. */
  lemma PartiesAreExactly(input: Input)
    ensures Introduces(Fold(input).body, input)
  {
    hide FoldPair, FirstReasons, SettlementFor, BoundOnly, ALockedFirst;
    if Beside(input) {
      PairIntroduces(input, OpenedBody(input));
    }
  }

  lemma CrossingShows(a: State, b: State, nowMs: int, body: Body)
    requires body.secret.None?
    ensures var said := FoldCrossing(a, b, nowMs, body).body;
            var unrefunded := a.status != Cancelled && b.status != Cancelled
                              && !RefundedLeg(a, body.evidence.aRail) && !RefundedLeg(b, body.evidence.bRail);
            said.secret == if unrefunded && a.status == ClaimedM then a.secret
                           else if unrefunded && b.status == ClaimedM then b.secret else None
  {
    hide RefundedLeg, Corroborated, FinallyClaimed, RefundReasons;
  }

  lemma PairShows(input: Input, body: Body)
    requires Beside(input) && body.secret.None? && Binds(body, StateOf(input.legA).value, StateOf(input.legB).value, input.evidence)
    ensures FoldPair(input.legA, input.legB, StateOf(input.legA).value, StateOf(input.legB).value, input.nowMs, body).body.secret
            == if ClaimedOnA(input) then StateOf(input.legA).value.secret
               else if ClaimedOnB(input) then StateOf(input.legB).value.secret else None
  {
    hide FoldCrossing, LockOrderIsViolated, BoundOnly, RefundedLeg, RefundIsEarned;
    var (a, b) := (StateOf(input.legA).value, StateOf(input.legB).value);
    var named := body.(identity := body.identity.(legBOfferId := Some(b.offer.id)));
    var paired := named.(identity := named.identity.(seller := Some(b.offer.from), pairKey := PairKeyOf(a, b)));
    var known := paired.(identity := paired.identity.(buyer := a.payer, seller := a.payee));
    CrossingShows(a, b, input.nowMs, known);
    CrossingShows(a, b, input.nowMs, known.(coordination := known.coordination + [OrderOfUnsignedTimes]));
    RefundsAreThose(a, input.evidence.aRail);
    RefundsAreThose(b, input.evidence.bRail);
  }

  /** The secret a view shows: leg A's where leg A is claimed, else leg B's where leg B is, and none on any other swap. */
  lemma SecretIsExactly(input: Input)
    ensures Fold(input).body.secret
            == if ClaimedOnA(input) then StateOf(input.legA).value.secret
               else if ClaimedOnB(input) then StateOf(input.legB).value.secret else None
  {
    hide FoldPair, FirstReasons, SettlementFor, BoundOnly, RefundIsEarned;
    if Beside(input) {
      PairShows(input, OpenedBody(input));
    }
  }

  // --- when a reason is given ------------------------------------------------------------------------------------------------

  /** What each refusal of an observation takes: nothing is wrong before the term it names, and the term it names is. */
  predicate RefusedFor(why: Refusal, state: Option<State>, observation: Observation) {
    var locked := observation.binding.Some? && state.Some? && state.value.rail.Some? && state.value.railRef.Some?;
    var accepted := locked && state.value.terms.Some?;
    var sameLock := accepted && observation.binding.value.rail == state.value.rail.value
                    && observation.binding.value.ref == state.value.railRef.value;
    match why
    case NoBinding => observation.binding.None?
    case NoAcceptedLock => observation.binding.Some? && !locked
    case NoAcceptedPair => locked && !accepted
    case OtherRail => accepted && observation.binding.value.rail != state.value.rail.value
    case OtherRef =>
      && accepted && observation.binding.value.rail == state.value.rail.value
      && observation.binding.value.ref != state.value.railRef.value
    case OtherContract => sameLock && observation.binding.value.contract != state.value.terms.value.contract
    case OtherTerms =>
      && sameLock && observation.binding.value.contract == state.value.terms.value.contract
      && observation.binding.value.terms != state.value.terms.value
  }

  /** Leg A's refund frame counts or not whether or not there is a leg B; leg B's only in a standing pair. */
  predicate WeighsRefund(leg: Leg, input: Input) {
    Standing(input) || (leg == A && Alone(input))
  }

  predicate RefundFrameAlone(leg: Leg, input: Input) {
    var (state, rail) := if leg == A then (StateOf(input.legA), input.evidence.aRail) else (StateOf(input.legB), input.evidence.bRail);
    state.Some? && state.value.status == RefundedM && !RefundIsEarned(state.value, rail)
  }

  predicate Observed(leg: Leg, input: Input) {
    if leg == A then input.evidence.aRail.Some? && Bound(StateOf(input.legA), input.evidence.aRail.value)
    else input.evidence.bRail.Some? && Bound(StateOf(input.legB), input.evidence.bRail.value)
  }

  /** A locked leg whose lock does not count, and the first fault of its evidence. */
  predicate LockFault(leg: Leg, input: Input, reason: Reason) {
    if leg == B then LockedOnB(input) && !VerifiedOnB(input) && FaultIs(B, StateOf(input.legB).value, input.evidence.b, reason)
    else VerifiedOnB(input) && LockedOnA(input) && !VerifiedOnA(input) && FaultIs(A, StateOf(input.legA).value, input.evidence.a, reason)
  }

  predicate FaultIs(leg: Leg, state: State, evidence: Option<LockEvidence>, reason: Reason) {
    if evidence.None? then reason == LockUnverified(leg)
    else if state.rail != Some(evidence.value.rail) || state.railRef != Some(evidence.value.ref) then reason == OtherRailOrRef(leg)
    else if state.terms != Some(evidence.value.terms) then reason == TermsDiffer(leg)
    else reason == LockUnverified(leg)
  }

  /** What each reason takes. */
  ghost predicate Given(reason: Reason, input: Input) {
    var (legA, legB) := (StateOf(input.legA), StateOf(input.legB));
    match reason
    case StepRejected(leg, index) =>
      var steps := StepsOf(if leg == A then input.legA else input.legB);
      index < |steps| && !steps[index].ok
    case ObservationIgnored(leg, why) =>
      var (state, rail) := if leg == A then (legA, input.evidence.aRail) else (legB, input.evidence.bRail);
      rail.Some? && RefusedFor(why, state, rail.value)
    case PaperRehearsal =>
      || (input.evidence.a.Some? && input.evidence.a.value.rail == PAPER)
      || (input.evidence.b.Some? && input.evidence.b.value.rail == PAPER)
    case NotOpen => legA.None?
    case NotASwapLeg(leg) => if leg == A then legA.Some? && legA.value.offer.leg.NotALeg? else Beside(input) && legB.value.offer.leg.NotALeg?
    case WrongContext(leg) => if leg == A then legA.Some? && legA.value.offer.leg.LegOfB? else Beside(input) && legB.value.offer.leg.LegOfA?
    case SwapIdDiffers => Beside(input) && legB.value.offer.leg.LegOfB? && legB.value.offer.leg.swapId != legA.value.offer.leg.swapId
    case OtherLegA =>
      && Beside(input) && legB.value.offer.leg.LegOfB? && legB.value.offer.leg.swapId == legA.value.offer.leg.swapId
      && legB.value.offer.leg.legAOfferId != legA.value.offer.id
    case NotOriented(leg) =>
      if leg == A then OpensSwap(input) && !legA.value.offer.oriented
      else Beside(input) && NamesLegA(legA.value.offer, legB.value.offer) && !legB.value.offer.oriented
    case BeforeAccept => Matched(input) && legA.value.status == Proposed
    case NotYetAccepted => Matched(input) && legB.value.status == Proposed && legA.value.status !in {Proposed, Accepted}
    case MissingParties => BothAccepted(input) && SomePartyMissing(legA.value, legB.value)
    case PartiesDoNotCross => BothAccepted(input) && !SomePartyMissing(legA.value, legB.value) && !PartiesCross(legA.value, legB.value)
    case StatementsDiffer =>
      && BothAccepted(input) && !SomePartyMissing(legA.value, legB.value) && PartiesCross(legA.value, legB.value)
      && legA.value.statement != legB.value.statement
    case LockOrderViolated => Joined(input) && ALockedFirst(input)
    case CancelledLeg(leg) =>
      if leg == A then (Joined(input) || Alone(input)) && legA.value.status == Cancelled
      else Joined(input) && legA.value.status != Cancelled && legB.value.status == Cancelled
    case RefundedAlone => Alone(input) && legA.value.status == RefundedM && RefundedOnA(input)
    case AdvancedAlone => Alone(input) && Reached(Unpaired, input)
    case RefundNotCorroborated(leg) => WeighsRefund(leg, input) && RefundFrameAlone(leg, input) && !Observed(leg, input)
    case RefundConflicts(leg) => WeighsRefund(leg, input) && RefundFrameAlone(leg, input) && Observed(leg, input)
    case ClaimRevealNotRecorded =>
      && Standing(input) && !RefundedOnA(input) && legA.value.status != ClaimedM
      && ObservedFinally(legA.value, input.evidence.aRail, RailClaimed)
    case RefundedAfterClaim =>
      Standing(input) && Reached(RefundedA, input) && RobberyIsObserved(legA.value, legB.value, input.evidence.aRail, input.evidence.bRail)
    case RefundedClaimUnproven =>
      && Standing(input) && Reached(RefundedA, input)
      && (legB.value.status == ClaimedM || ObservedFinally(legB.value, input.evidence.bRail, RailClaimed))
      && !RobberyIsObserved(legA.value, legB.value, input.evidence.aRail, input.evidence.bRail)
    case AwaitingFinality => ClaimedOnA(input) && ClaimedOnB(input) && !BothObservedClaimed(input)
    case RevealedOnBFirst => ClaimedOnB(input) && !ClaimedOnA(input)
    case BNeverLocked => OnTheWay(input) && !LockedOnB(input) && input.nowMs >= legA.value.offer.expiresMs
    case ANeverLocked => VerifiedOnB(input) && !LockedOnA(input) && input.nowMs >= legA.value.offer.claimByMs
    case LockUnverified(leg) => LockFault(leg, input, reason)
    case OtherRailOrRef(leg) => LockFault(leg, input, reason)
    case TermsDiffer(leg) => LockFault(leg, input, reason)
    case SharedSwapId(_, _) => false
  }

  predicate BothAccepted(input: Input) {
    Matched(input) && StateOf(input.legA).value.status != Proposed && StateOf(input.legB).value.status != Proposed
  }

  predicate SomePartyMissing(a: State, b: State) {
    a.payer.None? || a.payee.None? || b.payer.None? || b.payee.None?
  }

  predicate PartiesCross(a: State, b: State) {
    a.payer == b.payee && a.payee == b.payer
  }

  /** The reasons of the first look at the two transcripts and the evidence. */
  predicate IsFirst(reason: Reason) {
    reason.StepRejected? || reason.ObservationIgnored? || reason.PaperRehearsal?
  }

  lemma {:induction false} StepReasonsExactly(leg: Leg, steps: seq<Step>, reason: Reason)
    ensures reason in StepReasons(leg, steps)
            <==> reason.StepRejected? && reason.leg == leg && reason.index < |steps| && !steps[reason.index].ok
  {
    if steps != [] {
      StepReasonsExactly(leg, steps[..|steps| - 1], reason);
    }
  }

  lemma FirstReasonsExactly(input: Input, reason: Reason)
    ensures reason in FirstReasons(input) <==> IsFirst(reason) && Given(reason, input)
  {
    hide RefusalOf, RefusedFor, Bound;
    StepReasonsExactly(A, StepsOf(input.legA), reason);
    StepReasonsExactly(B, StepsOf(input.legB), reason);
    forall why: Refusal, observation: Observation, state: Option<State>
      ensures RefusalOf(state, observation) == Some(why) <==> RefusedFor(why, state, observation)
      ensures RefusedFor(why, state, observation) ==> !Bound(state, observation)
      ensures !Bound(state, observation) ==> RefusalOf(state, observation).Some?
    {
      RefusalIsThat(state, observation, why);
    }
  }

  lemma RefusalIsThat(state: Option<State>, observation: Observation, why: Refusal)
    ensures RefusalOf(state, observation) == Some(why) <==> RefusedFor(why, state, observation)
    ensures RefusedFor(why, state, observation) ==> !Bound(state, observation)
    ensures !Bound(state, observation) ==> RefusalOf(state, observation).Some?
  {
  }

  /** The reasons a joined pair adds past its parties. */
  predicate IsOfCrossing(reason: Reason) {
    || reason.CancelledLeg? || reason.RefundNotCorroborated? || reason.RefundConflicts? || reason.ClaimRevealNotRecorded?
    || reason.RefundedAfterClaim? || reason.RefundedClaimUnproven? || reason.AwaitingFinality? || reason.RevealedOnBFirst?
    || reason.BNeverLocked? || reason.ANeverLocked? || reason.LockUnverified? || reason.OtherRailOrRef? || reason.TermsDiffer?
  }

  lemma LockFaultIsThat(leg: Leg, evidence: Option<LockEvidence>, state: State, reason: Reason)
    ensures FaultIs(leg, state, evidence, reason) <==> reason == LockReason(leg, evidence, state)
  {
  }

  lemma RefundReasonsAreThose(leg: Leg, state: State, rail: Option<Observation>, reason: Reason)
    ensures reason in RefundReasons(leg, state, BoundOnly(Some(state), rail)) <==>
              && state.status == RefundedM && !RefundIsEarned(state, rail)
              && reason == if rail.Some? && Bound(Some(state), rail.value) then RefundConflicts(leg) else RefundNotCorroborated(leg)
  {
  }

  lemma ProvenIsRobbery(a: State, b: State, evidence: Evidence)
    ensures ClaimBeforeRefundProven(BoundOnly(Some(a), evidence.aRail), BoundOnly(Some(b), evidence.bRail))
            <==> RobberyIsObserved(a, b, evidence.aRail, evidence.bRail)
  {
  }

  lemma LocksGive(input: Input, body: Body, reason: Reason)
    requires OnTheWay(input) && Binds(body, StateOf(input.legA).value, StateOf(input.legB).value, input.evidence)
    ensures reason in FoldLocks(StateOf(input.legA).value, StateOf(input.legB).value, input.nowMs, body).added <==>
              || (reason == BNeverLocked && !LockedOnB(input) && input.nowMs >= StateOf(input.legA).value.offer.expiresMs)
              || (reason == ANeverLocked && VerifiedOnB(input) && !LockedOnA(input)
                  && input.nowMs >= StateOf(input.legA).value.offer.claimByMs)
              || LockFault(A, input, reason) || LockFault(B, input, reason)
  {
    hide LockIsVerified, Corroborated, BoundOnly, FaultIs, LockReason, ALockedFirst, Reached, Crosses, RefundIsEarned, NamesLegA;
    var (a, b) := (StateOf(input.legA).value, StateOf(input.legB).value);
    VerifiedIsCorroborated(a, input.evidence.a);
    VerifiedIsCorroborated(b, input.evidence.b);
    LockFaultIsThat(A, input.evidence.a, a, reason);
    LockFaultIsThat(B, input.evidence.b, b, reason);
  }

  lemma ClaimsGive(input: Input, body: Body, reason: Reason)
    requires Unrefunded(input) && Binds(body, StateOf(input.legA).value, StateOf(input.legB).value, input.evidence)
    ensures reason in FoldClaims(StateOf(input.legA).value, StateOf(input.legB).value, input.nowMs, body).added <==>
              Given(reason, input) && (reason.AwaitingFinality? || reason.RevealedOnBFirst? || IsOfLocks(reason))
  {
    hide FoldLocks, Reached, RobberyIsObserved, ALockedFirst, BoundOnly, FinallyClaimed, ObservedFinally, LockFault, Crosses, RefundIsEarned,
         NamesLegA, Bound;
    var (a, b) := (StateOf(input.legA).value, StateOf(input.legB).value);
    RefundsAreThose(a, input.evidence.aRail);
    RefundsAreThose(b, input.evidence.bRail);
    FaultsNameTheirLeg(input, reason);
    if a.status != ClaimedM && b.status != ClaimedM {
      LocksGive(input, body, reason);
      LockReasonsAreGiven(input, reason);
    } else {
      NoLocksThere(input, reason);
    }
  }

  lemma LockReasonsAreGiven(input: Input, reason: Reason)
    requires OnTheWay(input)
    ensures IsOfLocks(reason) && Given(reason, input) <==>
              || (reason == BNeverLocked && !LockedOnB(input) && input.nowMs >= StateOf(input.legA).value.offer.expiresMs)
              || (reason == ANeverLocked && VerifiedOnB(input) && !LockedOnA(input)
                  && input.nowMs >= StateOf(input.legA).value.offer.claimByMs)
              || LockFault(A, input, reason) || LockFault(B, input, reason)
  {
    hide OnTheWay, LockFault, ALockedFirst, RobberyIsObserved, Reached;
    FaultsNameTheirLeg(input, reason);
    match reason
    case LockUnverified(leg) => assert leg == A || leg == B;
    case OtherRailOrRef(leg) => assert leg == A || leg == B;
    case TermsDiffer(leg) => assert leg == A || leg == B;
    case _ =>
  }

  predicate IsOfLocks(reason: Reason) {
    reason.BNeverLocked? || reason.ANeverLocked? || reason.LockUnverified? || reason.OtherRailOrRef? || reason.TermsDiffer?
  }

  lemma FaultsNameTheirLeg(input: Input, reason: Reason)
    ensures LockFault(A, input, reason) ==> (reason.LockUnverified? || reason.OtherRailOrRef? || reason.TermsDiffer?) && reason.leg == A
    ensures LockFault(B, input, reason) ==> (reason.LockUnverified? || reason.OtherRailOrRef? || reason.TermsDiffer?) && reason.leg == B
  {
    hide OnTheWay, LockIsVerified;
  }

  predicate IsOfFrames(reason: Reason) {
    reason.RefundNotCorroborated? || reason.RefundConflicts? || reason.ClaimRevealNotRecorded?
  }

  /** What a standing pair notes about its two refund frames and leg A's unrecorded claim. */
  function Noted(a: State, b: State, evidence: Evidence): seq<Reason> {
    RefundReasons(A, a, evidence.aRail) + RefundReasons(B, b, evidence.bRail)
    + if FinallyClaimed(evidence.aRail) && a.status != ClaimedM && !RefundedLeg(a, evidence.aRail) then [ClaimRevealNotRecorded] else []
  }

  lemma FramesGive(input: Input, evidence: Evidence, reason: Reason)
    requires Standing(input)
    requires evidence.aRail == BoundOnly(StateOf(input.legA), input.evidence.aRail)
    requires evidence.bRail == BoundOnly(StateOf(input.legB), input.evidence.bRail)
    ensures reason in Noted(StateOf(input.legA).value, StateOf(input.legB).value, evidence) <==> IsOfFrames(reason) && Given(reason, input)
  {
    hide Crosses, RobberyIsObserved, ALockedFirst, BoundOnly, FinallyClaimed, ObservedFinally, LockFault, RefundedLeg, RefundIsEarned,
         RefundReasons, Bound, Reached, NamesLegA;
    var (a, b) := (StateOf(input.legA).value, StateOf(input.legB).value);
    RefundsAreThose(a, input.evidence.aRail);
    RefundsAreThose(b, input.evidence.bRail);
    RefundReasonsAreThose(A, a, input.evidence.aRail, reason);
    RefundReasonsAreThose(B, b, input.evidence.bRail, reason);
    match reason
    case RefundNotCorroborated(leg) => assert leg == A || leg == B;
    case RefundConflicts(leg) => assert leg == A || leg == B;
    case _ =>
  }

  lemma CancelledGives(input: Input, body: Body, reason: Reason)
    requires Joined(input) && !Standing(input)
    ensures reason in FoldCrossing(StateOf(input.legA).value, StateOf(input.legB).value, input.nowMs, body).added
            <==> IsOfCrossing(reason) && Given(reason, input)
  {
    hide Crosses, RobberyIsObserved, ALockedFirst, ObservedFinally, LockFault, RefundIsEarned, Bound, NamesLegA, RefundedLeg, RefundReasons, FoldClaims;
    NoLocksThere(input, reason);
    if reason.CancelledLeg? {
      assert reason.leg == A || reason.leg == B;
    }
  }

  /** What a pair that stands adds, beside what it notes. */
  lemma StandingAdds(a: State, b: State, nowMs: int, body: Body)
    requires a.status != Cancelled && b.status != Cancelled
    ensures var (refundedA, refundedB) := (RefundedLeg(a, body.evidence.aRail), RefundedLeg(b, body.evidence.bRail));
            FoldCrossing(a, b, nowMs, body).added
            == Noted(a, b, body.evidence)
               + if refundedA && refundedB then []
                 else if refundedA then
                   (if b.status == ClaimedM || FinallyClaimed(body.evidence.bRail) then
                      [if ClaimBeforeRefundProven(body.evidence.aRail, body.evidence.bRail) then RefundedAfterClaim else RefundedClaimUnproven]
                    else [])
                 else if refundedB then []
                 else FoldClaims(a, b, nowMs, body).added
  {
    hide FoldClaims, RefundReasons, RefundedLeg, FinallyClaimed, ClaimBeforeRefundProven;
  }

  lemma RefundGives(input: Input, body: Body, reason: Reason)
    requires Standing(input) && !Unrefunded(input) && Binds(body, StateOf(input.legA).value, StateOf(input.legB).value, input.evidence)
    ensures reason in FoldCrossing(StateOf(input.legA).value, StateOf(input.legB).value, input.nowMs, body).added
            <==> IsOfCrossing(reason) && Given(reason, input)
  {
    hide Crosses, RobberyIsObserved, ALockedFirst, BoundOnly, FinallyClaimed, ObservedFinally, LockFault, RefundedLeg, RefundIsEarned,
         ClaimBeforeRefundProven, FoldCrossing, FoldClaims, Noted, Bound, NamesLegA;
    var (a, b) := (StateOf(input.legA).value, StateOf(input.legB).value);
    RefundsAreThose(a, input.evidence.aRail);
    RefundsAreThose(b, input.evidence.bRail);
    ProvenIsRobbery(a, b, input.evidence);
    RobberyShowsAClaim(a, b, input.evidence);
    FramesGive(input, body.evidence, reason);
    StandingAdds(a, b, input.nowMs, body);
    NoLocksThere(input, reason);
  }

  lemma RobberyShowsAClaim(a: State, b: State, evidence: Evidence)
    ensures RobberyIsObserved(a, b, evidence.aRail, evidence.bRail) ==> ObservedFinally(b, evidence.bRail, RailClaimed)
  {
  }

  lemma UnrefundedGives(input: Input, body: Body, reason: Reason)
    requires Unrefunded(input) && Binds(body, StateOf(input.legA).value, StateOf(input.legB).value, input.evidence)
    ensures reason in FoldCrossing(StateOf(input.legA).value, StateOf(input.legB).value, input.nowMs, body).added
            <==> IsOfCrossing(reason) && Given(reason, input)
  {
    hide Crosses, RobberyIsObserved, ALockedFirst, BoundOnly, FinallyClaimed, ObservedFinally, LockFault, RefundedLeg, RefundIsEarned,
         ClaimBeforeRefundProven, FoldCrossing, FoldClaims, Noted, Bound, NamesLegA;
    var (a, b) := (StateOf(input.legA).value, StateOf(input.legB).value);
    RefundsAreThose(a, input.evidence.aRail);
    RefundsAreThose(b, input.evidence.bRail);
    FramesGive(input, body.evidence, reason);
    StandingAdds(a, b, input.nowMs, body);
    ClaimsGive(input, body, reason);
  }

  /** The reasons a joined pair adds past its parties, exactly. */
  lemma CrossingGives(input: Input, body: Body, reason: Reason)
    requires Joined(input) && Binds(body, StateOf(input.legA).value, StateOf(input.legB).value, input.evidence)
    ensures reason in FoldCrossing(StateOf(input.legA).value, StateOf(input.legB).value, input.nowMs, body).added
            <==> IsOfCrossing(reason) && Given(reason, input)
  {
    hide Given, Joined, Standing, Unrefunded, FoldCrossing, Binds;
    if !Standing(input) {
      CancelledGives(input, body, reason);
    } else if !Unrefunded(input) {
      RefundGives(input, body, reason);
    } else {
      UnrefundedGives(input, body, reason);
    }
  }

  lemma NoLocksThere(input: Input, reason: Reason)
    requires !OnTheWay(input)
    ensures forall leg :: !LockFault(leg, input, reason)
  {
  }

  /** The reasons of a pair both of whose legs are accepted. */
  predicate IsOfParties(reason: Reason) {
    || IsOfCrossing(reason) || reason.MissingParties? || reason.PartiesDoNotCross? || reason.StatementsDiffer? || reason.LockOrderViolated?
  }

  lemma JoinedIsAllOfThese(input: Input)
    requires BothAccepted(input)
    ensures var (a, b) := (StateOf(input.legA).value, StateOf(input.legB).value);
            Joined(input) <==> !SomePartyMissing(a, b) && PartiesCross(a, b) && a.statement == b.statement
  {
  }

  /** A reason past the parties is given to joined pairs only. */
  lemma CrossingReasonsAreOfJoined(input: Input, reason: Reason)
    requires BothAccepted(input) && !Joined(input) && IsOfCrossing(reason)
    ensures !Given(reason, input)
  {
    hide RobberyIsObserved, ALockedFirst, ObservedFinally, RefundIsEarned, Bound, NamesLegA, Crosses, Reached;
    NoLocksThere(input, reason);
  }

  lemma PartiesGive(input: Input, body: Body, reason: Reason)
    requires BothAccepted(input) && Binds(body, StateOf(input.legA).value, StateOf(input.legB).value, input.evidence)
    ensures reason in FoldParties(input.legA, input.legB, StateOf(input.legA).value, StateOf(input.legB).value, input.nowMs, body).added
            <==> IsOfParties(reason) && Given(reason, input)
  {
    hide FoldCrossing, LockOrderIsViolated, ALockedFirst, BoundOnly, RobberyIsObserved, ObservedFinally, RefundIsEarned, Bound, NamesLegA, Reached,
         LockFault;
    var (a, b) := (StateOf(input.legA).value, StateOf(input.legB).value);
    JoinedIsAllOfThese(input);
    OrderIsThat(input);
    if Joined(input) {
      var known := body.(identity := body.identity.(buyer := a.payer, seller := a.payee));
      CrossingGives(input, known, reason);
      CrossingGives(input, known.(coordination := known.coordination + [OrderOfUnsignedTimes]), reason);
    } else if IsOfCrossing(reason) {
      CrossingReasonsAreOfJoined(input, reason);
    }
  }

  lemma PartyReasonsAreOfAccepted(input: Input, reason: Reason)
    requires Beside(input) && !BothAccepted(input) && IsOfParties(reason)
    ensures !Given(reason, input)
  {
    hide RobberyIsObserved, ALockedFirst, ObservedFinally, RefundIsEarned, Bound, NamesLegA, Crosses, Reached;
    NoLocksThere(input, reason);
  }

  lemma UnmatchedGives(input: Input, body: Body, reason: Reason)
    requires Beside(input) && !Matched(input)
    ensures reason in FoldPair(input.legA, input.legB, StateOf(input.legA).value, StateOf(input.legB).value, input.nowMs, body).added
            <==> !IsFirst(reason) && Given(reason, input)
  {
    hide FoldParties, ALockedFirst, RobberyIsObserved, ObservedFinally, RefundIsEarned, Bound, Reached, LockFault, Crosses, RefusedFor;
    NoLocksThere(input, reason);
    if IsOfParties(reason) {
      PartyReasonsAreOfAccepted(input, reason);
    }
  }

  lemma EarlyPairGives(input: Input, body: Body, reason: Reason)
    requires Matched(input) && !BothAccepted(input)
    ensures reason in FoldPair(input.legA, input.legB, StateOf(input.legA).value, StateOf(input.legB).value, input.nowMs, body).added
            <==> !IsFirst(reason) && Given(reason, input)
  {
    hide FoldParties, ALockedFirst, RobberyIsObserved, ObservedFinally, RefundIsEarned, Bound, Reached, LockFault, Crosses, Joined, RefusedFor,
         WeighsRefund, RefundFrameAlone, PartiesCross, SomePartyMissing;
    if IsOfParties(reason) {
      PartyReasonsAreOfAccepted(input, reason);
    }
  }

  lemma AcceptedReasonsAreOfParties(input: Input, reason: Reason)
    requires BothAccepted(input) && !IsFirst(reason) && Given(reason, input)
    ensures IsOfParties(reason)
  {
    hide ALockedFirst, RobberyIsObserved, ObservedFinally, RefundIsEarned, Bound, LockFault, Crosses, Joined, WeighsRefund, RefundFrameAlone,
         PartiesCross, SomePartyMissing;
  }

  lemma PairGives(input: Input, body: Body, reason: Reason)
    requires BothAccepted(input) && Binds(body, StateOf(input.legA).value, StateOf(input.legB).value, input.evidence)
    ensures reason in FoldPair(input.legA, input.legB, StateOf(input.legA).value, StateOf(input.legB).value, input.nowMs, body).added
            <==> !IsFirst(reason) && Given(reason, input)
  {
    hide FoldParties, BoundOnly, Given;
    var (a, b) := (StateOf(input.legA).value, StateOf(input.legB).value);
    var named := body.(identity := body.identity.(legBOfferId := Some(b.offer.id)));
    PartiesGive(input, named.(identity := named.identity.(seller := Some(b.offer.from), pairKey := PairKeyOf(a, b))), reason);
    if !IsFirst(reason) && Given(reason, input) {
      AcceptedReasonsAreOfParties(input, reason);
    }
  }

  lemma AloneGives(input: Input, body: Body, reason: Reason)
    requires Alone(input) && body.evidence.aRail == BoundOnly(StateOf(input.legA), input.evidence.aRail)
    ensures reason in FoldAlone(StateOf(input.legA).value, body).added <==> !IsFirst(reason) && Given(reason, input)
  {
    hide ALockedFirst, RobberyIsObserved, ObservedFinally, RefundIsEarned, RefundedLeg, RefundReasons, Bound, LockFault, Crosses, BoundOnly;
    var a := StateOf(input.legA).value;
    RefundsAreThose(a, input.evidence.aRail);
    RefundReasonsAreThose(A, a, input.evidence.aRail, reason);
    NoLocksThere(input, reason);
  }

  lemma LegsGive(input: Input, reason: Reason)
    requires !Alone(input) && !Beside(input)
    ensures reason in FoldLegs(input.legA, input.legB, input.nowMs, StartBody(BoundEvidence(input))).added
            <==> !IsFirst(reason) && Given(reason, input)
  {
    hide ALockedFirst, RobberyIsObserved, ObservedFinally, RefundIsEarned, Bound, Crosses, BoundEvidence, SettlementFor, FoldAlone, FoldPair;
    NoLocksThere(input, reason);
  }

  /** The reasons of any swap, exactly: a view gives a reason if and only if what that reason takes is there. */
  lemma ReasonIsExactly(input: Input, reason: Reason)
    ensures reason in Fold(input).reasons <==> Given(reason, input)
  {
    hide Given, FirstReasons, FoldAlone, FoldPair, SettlementFor, BoundOnly;
    FirstReasonsExactly(input, reason);
    if Alone(input) {
      AloneGives(input, OpenedBody(input), reason);
    } else if BothAccepted(input) {
      PairGives(input, OpenedBody(input), reason);
    } else if Matched(input) {
      EarlyPairGives(input, OpenedBody(input), reason);
    } else if Beside(input) {
      UnmatchedGives(input, OpenedBody(input), reason);
    } else {
      LegsGive(input, reason);
    }
  }
}
