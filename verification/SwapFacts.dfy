/** What a swap view's status is worth: terminal verdicts are earned, unbound evidence is inert, and time only abandons. */
module SwapFacts {
  import opened Options
  import opened Swap

  // --- terminal verdicts -----------------------------------------------------------------------------------------------

  /** The supplied observation is of this leg, and it is final. */
  predicate ObservedFinally(state: State, observation: Option<Observation>, status: RailStatus) {
    observation.Some? && Bound(Some(state), observation.value) && observation.value.status == status && observation.value.final
  }

  /** The leg's refund was observed, or it is a rehearsal leg whose refund frame nothing observed contradicts. */
  predicate RefundIsEarned(state: State, observation: Option<Observation>) {
    || ObservedFinally(state, observation, RailRefunded)
    || (state.status == RefundedM && state.rail == Some(PAPER) && (observation.None? || !Bound(Some(state), observation.value)))
  }

  /** What a status that names money says of the two legs. */
  predicate Earned(status: Status, a: State, b: State, evidence: Evidence) {
    && (status == Settled ==> a.status == ClaimedM && b.status == ClaimedM && FinallyClaimed(evidence.aRail) && FinallyClaimed(evidence.bRail))
    && (status == RefundedS || status == RefundedA ==> RefundedLeg(a, evidence.aRail))
    && (status == RefundedS || status == RefundedB ==> RefundedLeg(b, evidence.bRail))
  }

  predicate NamesBothLegs(status: Status) {
    status == Settled || status == RefundedS || status == RefundedB
  }

  lemma CrossingEarns(a: State, b: State, nowMs: int, body: Body)
    ensures Earned(FoldCrossing(a, b, nowMs, body).body.status, a, b, body.evidence)
  {
  }

  lemma PartiesEarn(legA: LegFold, legB: LegFold, a: State, b: State, nowMs: int, body: Body)
    requires body.status == Unpaired
    ensures var status := FoldParties(legA, legB, a, b, nowMs, body).body.status;
            Earned(status, a, b, body.evidence) && (NamesBothLegs(status) ==> Crosses(a, b))
  {
    var known := body.(identity := body.identity.(buyer := a.payer, seller := a.payee));
    CrossingEarns(a, b, nowMs, known);
    CrossingEarns(a, b, nowMs, known.(coordination := known.coordination + [OrderOfUnsignedTimes]));
  }

  lemma PairEarns(legA: LegFold, legB: LegFold, a: State, b: State, nowMs: int, body: Body)
    requires a.offer.leg.LegOfA? && body.status == Unpaired
    ensures var status := FoldPair(legA, legB, a, b, nowMs, body).body.status;
            && Earned(status, a, b, body.evidence)
            && (NamesBothLegs(status) ==> Crosses(a, b) && b.offer.leg.LegOfB? && b.offer.leg.legAOfferId == a.offer.id)
  {
    var named := body.(identity := body.identity.(legBOfferId := Some(b.offer.id)));
    PartiesEarn(legA, legB, a, b, nowMs, named.(identity := named.identity.(seller := Some(b.offer.from), pairKey := PairKeyOf(a, b))));
  }

  /** A verdict that names both legs' money is reached only by a crossing pair, and leg A's refund alone only by leg A. */
  lemma LegsEarn(input: Input)
    ensures var status := Fold(input).body.status;
            && (NamesBothLegs(status) || status == RefundedA ==> StateOf(input.legA).Some?)
            && (status == RefundedA ==> RefundedLeg(StateOf(input.legA).value, BoundEvidence(input).aRail))
            && (NamesBothLegs(status) ==>
                  && StateOf(input.legB).Some?
                  && var (a, b) := (StateOf(input.legA).value, StateOf(input.legB).value);
                     && Earned(status, a, b, BoundEvidence(input)) && Crosses(a, b)
                     && a.offer.leg.LegOfA? && b.offer.leg.LegOfB? && b.offer.leg.legAOfferId == a.offer.id)
  {
    if StateOf(input.legA).Some? && StateOf(input.legB).Some? && StateOf(input.legA).value.offer.leg.LegOfA? {
      PairEarns(input.legA, input.legB, StateOf(input.legA).value, StateOf(input.legB).value, input.nowMs, OpenedBody(input));
    }
  }

  /** The view once leg A's own offer is read. */
  function OpenedBody(input: Input): Body
    requires StateOf(input.legA).Some? && StateOf(input.legA).value.offer.leg.LegOfA?
  {
    var (a, body) := (StateOf(input.legA).value, StartBody(BoundEvidence(input)));
    var named := body.(identity := body.identity.(legAOfferId := Some(a.offer.id)));
    var known := named.(identity := named.identity.(swapId := Some(a.offer.leg.swapId), feeBps := Some(a.offer.leg.feeBps)));
    known.(identity := known.identity.(buyer := Some(a.offer.from)))
  }

  /**
   * `settled` is earned: both machines are claimed, the parties cross under one statement, and each leg has a final
   * claimed observation bound to its own accepted lock, contract and nine terms.
   */
  lemma SettledIsEarned(input: Input)
    requires Fold(input).body.status == Settled
    ensures StateOf(input.legA).Some? && StateOf(input.legB).Some?
    ensures var (a, b) := (StateOf(input.legA).value, StateOf(input.legB).value);
            && a.status == ClaimedM && b.status == ClaimedM && Crosses(a, b)
            && ObservedFinally(a, input.evidence.aRail, RailClaimed) && ObservedFinally(b, input.evidence.bRail, RailClaimed)
            && a.offer.leg.LegOfA? && b.offer.leg.LegOfB? && b.offer.leg.legAOfferId == a.offer.id
  {
    LegsEarn(input);
  }

  /** Every leg a status calls refunded was refunded: observed finally on its own lock, or a rehearsal leg nothing observed. */
  lemma RefundsAreEarned(input: Input)
    ensures var status := Fold(input).body.status;
            && (status == RefundedS || status == RefundedA ==>
                  StateOf(input.legA).Some? && RefundIsEarned(StateOf(input.legA).value, input.evidence.aRail))
            && (status == RefundedS || status == RefundedB ==>
                  StateOf(input.legB).Some? && RefundIsEarned(StateOf(input.legB).value, input.evidence.bRail))
  {
    LegsEarn(input);
  }

  // --- locks ---------------------------------------------------------------------------------------------------------------

  /** The evidence is the leg's own accepted lock, word for word, and its rail verified it. */
  predicate LockIsVerified(state: State, evidence: Option<LockEvidence>) {
    && state.rail.Some? && state.railRef.Some? && state.terms.Some?
    && evidence == Some(LockEvidence(state.rail.value, state.railRef.value, state.terms.value, VerifiedTrue))
  }

  predicate NamesLocks(status: Status) {
    status == ALocked || status == BLocked
  }

  /** What a status that names a lock says of the two legs. */
  predicate LocksHold(status: Status, a: State, b: State, evidence: Evidence) {
    && (NamesLocks(status) ==> b.status == LockedM && LockIsVerified(b, evidence.b))
    && (status == ALocked ==> a.status == LockedM && LockIsVerified(a, evidence.a))
  }

  /** How far two crossing legs' locks are, exactly: each lock counts only with its rail behind it. */
  lemma LocksCountWhenVerified(a: State, b: State, nowMs: int, body: Body)
    ensures var status := FoldLocks(a, b, nowMs, body).body.status;
            var lockedB := b.status == LockedM && LockIsVerified(b, body.evidence.b);
            && (status == ALocked <==> lockedB && a.status == LockedM && LockIsVerified(a, body.evidence.a))
            && (status == BLocked <==>
                  lockedB && if a.status == LockedM then !LockIsVerified(a, body.evidence.a) else nowMs < a.offer.claimByMs)
            && (status == Paired <==> if b.status == LockedM then !lockedB else nowMs < a.offer.expiresMs)
            && (status in {ALocked, BLocked, Paired, Abandoned})
  {
  }

  lemma CrossingHolds(a: State, b: State, nowMs: int, body: Body)
    ensures LocksHold(FoldCrossing(a, b, nowMs, body).body.status, a, b, body.evidence)
  {
    LocksCountWhenVerified(a, b, nowMs, body);
  }

  lemma PairHolds(legA: LegFold, legB: LegFold, a: State, b: State, nowMs: int, body: Body)
    requires a.offer.leg.LegOfA? && body.status == Unpaired
    ensures var status := FoldPair(legA, legB, a, b, nowMs, body).body.status;
            LocksHold(status, a, b, body.evidence) && (NamesLocks(status) ==> Crosses(a, b))
  {
    var named := body.(identity := body.identity.(legBOfferId := Some(b.offer.id)));
    var paired := named.(identity := named.identity.(seller := Some(b.offer.from), pairKey := PairKeyOf(a, b)));
    var known := paired.(identity := paired.identity.(buyer := a.payer, seller := a.payee));
    CrossingHolds(a, b, nowMs, known);
    CrossingHolds(a, b, nowMs, known.(coordination := known.coordination + [OrderOfUnsignedTimes]));
  }

  /** A status that names a lock is reached only by crossing legs, over locks whose rails verified all nine terms. */
  lemma LockedIsVerified(input: Input)
    requires NamesLocks(Fold(input).body.status)
    ensures StateOf(input.legA).Some? && StateOf(input.legB).Some?
    ensures var (a, b) := (StateOf(input.legA).value, StateOf(input.legB).value);
            Crosses(a, b) && LocksHold(Fold(input).body.status, a, b, input.evidence)
  {
    if StateOf(input.legA).Some? && StateOf(input.legB).Some? && StateOf(input.legA).value.offer.leg.LegOfA? {
      PairHolds(input.legA, input.legB, StateOf(input.legA).value, StateOf(input.legB).value, input.nowMs, OpenedBody(input));
    }
  }

  /** The reason for a lock that does not count names the first thing that would have to differ for it to count. */
  lemma LockReasonNamesTheFault(leg: Leg, evidence: LockEvidence, state: State)
    requires state.rail.Some? && state.railRef.Some? && state.terms.Some?
    ensures var (reason, verified) := (LockReason(leg, Some(evidence), state), evidence.(railVerified := VerifiedTrue));
            && (reason == LockUnverified(leg) <==> LockIsVerified(state, Some(verified)))
            && (reason == TermsDiffer(leg) <==>
                  !LockIsVerified(state, Some(verified)) && LockIsVerified(state.(terms := Some(evidence.terms)), Some(verified)))
            && (reason == OtherRailOrRef(leg) <==> !LockIsVerified(state.(terms := Some(evidence.terms)), Some(verified)))
    ensures LockReason(leg, None, state) == LockUnverified(leg)
  {
  }

  // --- the Seller robbed ---------------------------------------------------------------------------------------------------

  /** Leg B was claimed on a rail that carries value before leg A was refunded, both observed finally, on the chains' clocks. */
  predicate RobberyIsObserved(a: State, b: State, aRail: Option<Observation>, bRail: Option<Observation>) {
    && ObservedFinally(b, bRail, RailClaimed) && b.rail != Some(PAPER) && ObservedFinally(a, aRail, RailRefunded)
    && bRail.value.transitionAtMs.Some? && aRail.value.transitionAtMs.Some?
    && bRail.value.transitionAtMs.value < aRail.value.transitionAtMs.value
  }

  lemma ClaimsAccuseNobody(a: State, b: State, nowMs: int, body: Body)
    ensures var answer := FoldClaims(a, b, nowMs, body);
            RefundedAfterClaim !in answer.added && answer.body.status != RefundedA
  {
    hide Corroborated, FinallyClaimed;
  }

  lemma CrossingAccuses(a: State, b: State, nowMs: int, body: Body)
    requires body.evidence.aRail.Some? ==> Bound(Some(a), body.evidence.aRail.value)
    requires body.evidence.bRail.Some? ==> Bound(Some(b), body.evidence.bRail.value)
    ensures var answer := FoldCrossing(a, b, nowMs, body);
            RefundedAfterClaim in answer.added <==>
              answer.body.status == RefundedA && RobberyIsObserved(a, b, body.evidence.aRail, body.evidence.bRail)
  {
    hide FoldClaims;
    ClaimsAccuseNobody(a, b, nowMs, body);
  }

  lemma PairAccuses(legA: LegFold, legB: LegFold, a: State, b: State, nowMs: int, body: Body)
    requires a.offer.leg.LegOfA? && body.status == Unpaired
    requires body.evidence.aRail.Some? ==> Bound(Some(a), body.evidence.aRail.value)
    requires body.evidence.bRail.Some? ==> Bound(Some(b), body.evidence.bRail.value)
    ensures var answer := FoldPair(legA, legB, a, b, nowMs, body);
            RefundedAfterClaim in answer.added <==>
              answer.body.status == RefundedA && RobberyIsObserved(a, b, body.evidence.aRail, body.evidence.bRail)
  {
    hide FoldCrossing, RobberyIsObserved, LockOrderIsViolated, Bound;
    var named := body.(identity := body.identity.(legBOfferId := Some(b.offer.id)));
    var paired := named.(identity := named.identity.(seller := Some(b.offer.from), pairKey := PairKeyOf(a, b)));
    var known := paired.(identity := paired.identity.(buyer := a.payer, seller := a.payee));
    CrossingAccuses(a, b, nowMs, known);
    CrossingAccuses(a, b, nowMs, known.(coordination := known.coordination + [OrderOfUnsignedTimes]));
  }

  lemma {:induction false} StepReasonsAreSteps(leg: Leg, steps: seq<Step>)
    ensures forall r :: r in StepReasons(leg, steps) ==> r.StepRejected?
  {
    if steps != [] {
      StepReasonsAreSteps(leg, steps[..|steps| - 1]);
    }
  }

  lemma FirstReasonsAreFirst(input: Input)
    ensures forall r :: r in FirstReasons(input) ==> r.StepRejected? || r.ObservationIgnored? || r.PaperRehearsal?
    ensures PaperRehearsal in FirstReasons(input) <==>
              || (input.evidence.a.Some? && input.evidence.a.value.rail == PAPER)
              || (input.evidence.b.Some? && input.evidence.b.value.rail == PAPER)
  {
    StepReasonsAreSteps(A, StepsOf(input.legA));
    StepReasonsAreSteps(B, StepsOf(input.legB));
  }

  /** The fold says the Seller was robbed exactly when leg A alone came back and both final observations prove the order. */
  lemma RobberyIsProven(input: Input)
    ensures RefundedAfterClaim in Fold(input).reasons <==>
              && Fold(input).body.status == RefundedA && StateOf(input.legA).Some? && StateOf(input.legB).Some?
              && RobberyIsObserved(StateOf(input.legA).value, StateOf(input.legB).value, input.evidence.aRail, input.evidence.bRail)
  {
    hide FoldPair, FirstReasons;
    FirstReasonsAreFirst(input);
    if StateOf(input.legA).Some? && StateOf(input.legB).Some? && StateOf(input.legA).value.offer.leg.LegOfA? {
      PairAccuses(input.legA, input.legB, StateOf(input.legA).value, StateOf(input.legB).value, input.nowMs, OpenedBody(input));
    }
  }

  // --- evidence that is not bound ----------------------------------------------------------------------------------------

  /**
   * An observation that fails its binding leaves everything but the reasons as if it had not been supplied, and adds to
   * those one reason that names it.
   */
  lemma UnboundObservationIsAbsent(input: Input, leg: Leg) returns (before: seq<Reason>, after: seq<Reason>)
    requires leg == A ==> input.evidence.aRail.Some? && !Bound(StateOf(input.legA), input.evidence.aRail.value)
    requires leg == B ==> input.evidence.bRail.Some? && !Bound(StateOf(input.legB), input.evidence.bRail.value)
    ensures var (state, observation) := if leg == A then (StateOf(input.legA), input.evidence.aRail) else (StateOf(input.legB), input.evidence.bRail);
            var without := input.(evidence := if leg == A then input.evidence.(aRail := None) else input.evidence.(bRail := None));
            && Fold(input).body == Fold(without).body
            && Fold(input).reasons == before + Ignored(leg, state, observation) + after
            && Fold(without).reasons == before + after
            && |Ignored(leg, state, observation)| == 1
  {
    var without := input.(evidence := if leg == A then input.evidence.(aRail := None) else input.evidence.(bRail := None));
    assert BoundEvidence(without) == BoundEvidence(input);
    var steps := StepReasons(A, StepsOf(input.legA)) + StepReasons(B, StepsOf(input.legB));
    var a, b := Ignored(A, StateOf(input.legA), input.evidence.aRail), Ignored(B, StateOf(input.legB), input.evidence.bRail);
    var paper := if FromPaper(input.evidence.a) || FromPaper(input.evidence.b) then [PaperRehearsal] else [];
    var added := FoldLegs(input.legA, input.legB, input.nowMs, StartBody(BoundEvidence(input))).added;
    if leg == A {
      before, after := steps, b + paper + added;
      Regroup(steps, a, b, paper, added);
      Regroup(steps, [], b, paper, added);
    } else {
      before, after := steps + a, paper + added;
      Regroup(steps, a, b, paper, added);
      Regroup(steps, a, [], paper, added);
    }
  }

  lemma Regroup<T>(s: seq<T>, a: seq<T>, b: seq<T>, p: seq<T>, t: seq<T>)
    ensures s + a + b + p + t == s + a + (b + p + t) == (s + a) + b + (p + t)
    ensures s + [] + b + p + t == s + (b + p + t)
    ensures s + a + [] + p + t == (s + a) + (p + t)
  {
  }

  // --- time --------------------------------------------------------------------------------------------------------------

  lemma LocksAbandonOnly(a: State, b: State, nowMs: int, laterMs: int, body: Body)
    requires nowMs <= laterMs
    ensures var (now, later) := (FoldLocks(a, b, nowMs, body).body, FoldLocks(a, b, laterMs, body).body);
            now == later || ((now.status == Paired || now.status == BLocked) && later == now.(status := Abandoned))
  {
  }

  lemma CrossingAbandonsOnly(a: State, b: State, nowMs: int, laterMs: int, body: Body)
    requires nowMs <= laterMs
    ensures var (now, later) := (FoldCrossing(a, b, nowMs, body).body, FoldCrossing(a, b, laterMs, body).body);
            now == later || ((now.status == Paired || now.status == BLocked) && later == now.(status := Abandoned))
  {
    LocksAbandonOnly(a, b, nowMs, laterMs, body);
  }

  lemma PartiesAbandonOnly(legA: LegFold, legB: LegFold, a: State, b: State, nowMs: int, laterMs: int, body: Body)
    requires nowMs <= laterMs
    ensures var (now, later) := (FoldParties(legA, legB, a, b, nowMs, body).body, FoldParties(legA, legB, a, b, laterMs, body).body);
            now == later || ((now.status == Paired || now.status == BLocked) && later == now.(status := Abandoned))
  {
    var known := body.(identity := body.identity.(buyer := a.payer, seller := a.payee));
    CrossingAbandonsOnly(a, b, nowMs, laterMs, known);
    CrossingAbandonsOnly(a, b, nowMs, laterMs, known.(coordination := known.coordination + [OrderOfUnsignedTimes]));
  }

  lemma PairAbandonsOnly(legA: LegFold, legB: LegFold, a: State, b: State, nowMs: int, laterMs: int, body: Body)
    requires nowMs <= laterMs && a.offer.leg.LegOfA?
    ensures var (now, later) := (FoldPair(legA, legB, a, b, nowMs, body).body, FoldPair(legA, legB, a, b, laterMs, body).body);
            now == later || ((now.status == Paired || now.status == BLocked) && later == now.(status := Abandoned))
  {
    var named := body.(identity := body.identity.(legBOfferId := Some(b.offer.id)));
    var known := named.(identity := named.identity.(seller := Some(b.offer.from), pairKey := PairKeyOf(a, b)));
    PartiesAbandonOnly(legA, legB, a, b, nowMs, laterMs, known);
  }

  /** A later clock alone changes nothing but the status, and that only from paired or b-locked to abandoned. */
  lemma TimeOnlyAbandons(input: Input, laterMs: int)
    requires input.nowMs <= laterMs
    ensures var (now, later) := (Fold(input).body, Fold(input.(nowMs := laterMs)).body);
            now == later || ((now.status == Paired || now.status == BLocked) && later == now.(status := Abandoned))
  {
    assert BoundEvidence(input.(nowMs := laterMs)) == BoundEvidence(input);
    if StateOf(input.legA).Some? && StateOf(input.legB).Some? && StateOf(input.legA).value.offer.leg.LegOfA? {
      PairAbandonsOnly(input.legA, input.legB, StateOf(input.legA).value, StateOf(input.legB).value, input.nowMs, laterMs, OpenedBody(input));
    }
  }

  // --- settlement ----------------------------------------------------------------------------------------------------------

  /** What a leg's settlement view says of the evidence supplied for it, and of nothing else. */
  predicate SettlementShows(settlement: Settlement, state: Option<State>, lock: Option<LockEvidence>, rail: Option<Observation>) {
    var observed := rail.Some? && Bound(state, rail.value);
    match settlement
    case NoneKnown => !observed && (lock.Some? ==> lock.value.railVerified == NothingToCheck)
    case Unverified => !observed && lock.Some? && lock.value.railVerified != NothingToCheck
    case Funded => observed && rail.value.status == RailLocked
    case ClaimedV => observed && rail.value.status == RailClaimed
    case RefundedV => observed && rail.value.status == RailRefunded
  }

  /** A leg's settlement view comes from its evidence alone: no frame of either leg can raise or lower it. */
  lemma SettlementIsEvidenceOnly(input: Input)
    ensures var body := Fold(input).body;
            && body.evidence == BoundEvidence(input)
            && SettlementShows(body.settlementA, StateOf(input.legA), input.evidence.a, input.evidence.aRail)
            && SettlementShows(body.settlementB, StateOf(input.legB), input.evidence.b, input.evidence.bRail)
  {
    StagesKeepEvidence(input);
  }

  predicate SameEvidence(body: Body, body': Body) {
    body'.evidence == body.evidence && body'.settlementA == body.settlementA && body'.settlementB == body.settlementB
  }

  lemma CrossingKeepsEvidence(a: State, b: State, nowMs: int, body: Body)
    ensures SameEvidence(body, FoldCrossing(a, b, nowMs, body).body)
  {
  }

  lemma PairKeepsEvidence(legA: LegFold, legB: LegFold, a: State, b: State, nowMs: int, body: Body)
    requires a.offer.leg.LegOfA?
    ensures SameEvidence(body, FoldPair(legA, legB, a, b, nowMs, body).body)
  {
    var named := body.(identity := body.identity.(legBOfferId := Some(b.offer.id)));
    var paired := named.(identity := named.identity.(seller := Some(b.offer.from), pairKey := PairKeyOf(a, b)));
    var known := paired.(identity := paired.identity.(buyer := a.payer, seller := a.payee));
    CrossingKeepsEvidence(a, b, nowMs, known);
    CrossingKeepsEvidence(a, b, nowMs, known.(coordination := known.coordination + [OrderOfUnsignedTimes]));
  }

  lemma StagesKeepEvidence(input: Input)
    ensures SameEvidence(StartBody(BoundEvidence(input)), Fold(input).body)
  {
    if StateOf(input.legA).Some? && StateOf(input.legB).Some? && StateOf(input.legA).value.offer.leg.LegOfA? {
      PairKeepsEvidence(input.legA, input.legB, StateOf(input.legA).value, StateOf(input.legB).value, input.nowMs, OpenedBody(input));
    }
  }
}
