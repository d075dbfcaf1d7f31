/** `foldSwap` as the source writes it: one pass that assigns the view and pushes onto a shared list of reasons. */
module SwapFold {
  import opened Options
  import opened Swap

  /** The list every step of the fold pushes onto. */
  class Reasons {
    var items: seq<Reason>

    constructor ()
      ensures items == []
    {
      items := [];
    }

    method Push(reason: Reason)
      modifies this
      ensures items == old(items) + [reason]
    {
      items := items + [reason];
    }
  }

  /** Every rejected step of a leg becomes a reason, in order. */
  method CollectStepReasons(fold: LegFold, leg: Leg, reasons: Reasons)
    modifies reasons
    ensures reasons.items == old(reasons.items) + StepReasons(leg, StepsOf(fold))
  {
    var steps := StepsOf(fold);
    var k := 0;
    while k < |steps|
      invariant 0 <= k <= |steps|
      invariant reasons.items == old(reasons.items) + StepReasons(leg, steps[..k])
    {
      assert steps[..k + 1][..k] == steps[..k];
      if !steps[k].ok {
        reasons.Push(StepRejected(leg, k));
      }
      k := k + 1;
    }
    assert steps[..k] == steps;
  }

  /** `lockTimestampMs`: the first lock the machine took. */
  method LockTimestamp(fold: LegFold) returns (atMs: Option<int>)
    ensures atMs == LockedAt(StepsOf(fold))
  {
    var steps := StepsOf(fold);
    var k := 0;
    while k < |steps|
      invariant 0 <= k <= |steps| && LockedAt(steps[..k]).None?
    {
      assert steps[..k + 1][..k] == steps[..k];
      if steps[k].ok && steps[k].isLock {
        FirstLock(steps, k);
        return Some(steps[k].atMs);
      }
      k := k + 1;
    }
    assert steps[..k] == steps;
    return None;
  }

  lemma {:induction false} FirstLock(steps: seq<Step>, k: nat)
    requires k < |steps| && steps[k].ok && steps[k].isLock && LockedAt(steps[..k]).None?
    ensures LockedAt(steps) == Some(steps[k].atMs)
    decreases |steps|
  {
    var front := steps[..|steps| - 1];
    if k < |front| {
      assert front[..k] == steps[..k];
      FirstLock(front, k);
    } else {
      assert front == steps[..k];
    }
  }

  /** An observation is used only when it is of this leg; a refused one is reported and is absent from here on. */
  method BindObservation(leg: Leg, state: Option<State>, observation: Option<Observation>, reasons: Reasons)
    returns (bound: Option<Observation>)
    modifies reasons
    ensures bound == BoundOnly(state, observation)
    ensures reasons.items == old(reasons.items) + Ignored(leg, state, observation)
  {
    assert reasons.items + [] == reasons.items;
    if observation.None? {
      return None;
    }
    var why := RefusalOf(state, observation.value);
    if why.Some? {
      reasons.Push(ObservationIgnored(leg, why.value));
      return None;
    }
    return observation;
  }

  method RefundedFold(leg: Leg, state: State, rail: Option<Observation>, reasons: Reasons) returns (refunded: bool)
    modifies reasons
    ensures refunded == RefundedLeg(state, rail)
    ensures reasons.items == old(reasons.items) + RefundReasons(leg, state, rail)
  {
    assert reasons.items + [] == reasons.items;
    if state.status != RefundedM {
      return rail.Some? && rail.value.status == RailRefunded && rail.value.final;
    }
    if state.rail == Some(PAPER) && rail.None? {
      return true;
    }
    var railRefunded := rail.Some? && rail.value.status == RailRefunded && rail.value.final;
    if !railRefunded {
      reasons.Push(if rail.None? then RefundNotCorroborated(leg) else RefundConflicts(leg));
    }
    return railRefunded;
  }

  /** The locks of two crossing legs. */
  method FoldLocksInto(a: State, b: State, nowMs: int, start: Body, reasons: Reasons) returns (view: Body)
    modifies reasons
    ensures view == FoldLocks(a, b, nowMs, start).body
    ensures reasons.items == old(reasons.items) + FoldLocks(a, b, nowMs, start).added
  {
    view := start;
    assert reasons.items + [] == reasons.items;
    if b.status != LockedM {
      if nowMs >= a.offer.expiresMs {
        reasons.Push(BNeverLocked);
        view := view.(status := Abandoned);
        return;
      }
      view := view.(status := Paired);
      return;
    }
    if !Corroborated(view.evidence.b, b) {
      reasons.Push(LockReason(B, view.evidence.b, b));
      view := view.(status := Paired);
      return;
    }
    if a.status != LockedM {
      if nowMs >= a.offer.claimByMs {
        reasons.Push(ANeverLocked);
        view := view.(status := Abandoned);
        return;
      }
      view := view.(status := BLocked);
      return;
    }
    if !Corroborated(view.evidence.a, a) {
      reasons.Push(LockReason(A, view.evidence.a, a));
      view := view.(status := BLocked);
      return;
    }
    view := view.(status := ALocked);
  }

  /** The claims of two crossing legs that are not refunded. */
  method FoldClaimsInto(a: State, b: State, nowMs: int, start: Body, reasons: Reasons) returns (view: Body)
    modifies reasons
    ensures view == FoldClaims(a, b, nowMs, start).body
    ensures reasons.items == old(reasons.items) + FoldClaims(a, b, nowMs, start).added
  {
    view := start;
    assert reasons.items + [] == reasons.items;
    if a.status == ClaimedM {
      if a.secret.Some? {
        view := view.(secret := a.secret);
      }
      if b.status == ClaimedM {
        if FinallyClaimed(view.evidence.aRail) && FinallyClaimed(view.evidence.bRail) {
          view := view.(status := Settled);
          return;
        }
        reasons.Push(AwaitingFinality);
      }
      view := view.(status := Revealed);
      return;
    }
    if b.status == ClaimedM {
      if b.secret.Some? {
        view := view.(secret := b.secret);
      }
      reasons.Push(RevealedOnBFirst);
      view := view.(status := Revealed);
      return;
    }
    view := FoldLocksInto(a, b, nowMs, view, reasons);
  }

  /** Two legs whose parties and statement cross. */
  method FoldCrossingInto(a: State, b: State, nowMs: int, start: Body, reasons: Reasons) returns (view: Body)
    modifies reasons
    ensures view == FoldCrossing(a, b, nowMs, start).body
    ensures reasons.items == old(reasons.items) + FoldCrossing(a, b, nowMs, start).added
  {
    view := start;
    ghost var said := reasons.items;
    if a.status == Cancelled || b.status == Cancelled {
      reasons.Push(CancelledLeg(if a.status == Cancelled then A else B));
      view := view.(status := Abandoned);
      return;
    }
    var refundedA := RefundedFold(A, a, view.evidence.aRail, reasons);
    var refundedB := RefundedFold(B, b, view.evidence.bRail, reasons);
    ghost var noted := RefundReasons(A, a, view.evidence.aRail) + RefundReasons(B, b, view.evidence.bRail);
    assert reasons.items == said + noted;
    if FinallyClaimed(view.evidence.aRail) && a.status != ClaimedM && !refundedA {
      reasons.Push(ClaimRevealNotRecorded);
      noted := noted + [ClaimRevealNotRecorded];
    } else {
      assert noted + [] == noted;
    }
    assert reasons.items == said + noted;
    assert forall more: seq<Reason> :: said + noted + more == said + (noted + more);
    assert reasons.items + [] == reasons.items;
    if refundedA && refundedB {
      view := view.(status := RefundedS);
      return;
    }
    if refundedA {
      if b.status == ClaimedM || FinallyClaimed(view.evidence.bRail) {
        reasons.Push(if ClaimBeforeRefundProven(view.evidence.aRail, view.evidence.bRail) then RefundedAfterClaim
                     else RefundedClaimUnproven);
      }
      view := view.(status := RefundedA);
      return;
    }
    if refundedB {
      view := view.(status := RefundedB);
      return;
    }
    view := FoldClaimsInto(a, b, nowMs, view, reasons);
  }

  method FoldPartiesInto(legA: LegFold, legB: LegFold, a: State, b: State, nowMs: int, start: Body, reasons: Reasons)
    returns (view: Body)
    modifies reasons
    ensures view == FoldParties(legA, legB, a, b, nowMs, start).body
    ensures reasons.items == old(reasons.items) + FoldParties(legA, legB, a, b, nowMs, start).added
  {
    view := start;
    ghost var said := reasons.items;
    if a.payer.None? || a.payee.None? || b.payer.None? || b.payee.None? {
      reasons.Push(MissingParties);
      return;
    }
    if a.payer != b.payee || a.payee != b.payer {
      reasons.Push(PartiesDoNotCross);
      return;
    }
    if a.statement != b.statement {
      reasons.Push(StatementsDiffer);
      return;
    }
    view := view.(identity := view.identity.(buyer := a.payer, seller := a.payee));
    var aLockMs := LockTimestamp(legA);
    var bLockMs := LockTimestamp(legB);
    if aLockMs.Some? && bLockMs.Some? && aLockMs.value < bLockMs.value {
      reasons.Push(LockOrderViolated);
      view := view.(coordination := view.coordination + [OrderOfUnsignedTimes]);
    }
    assert forall more: seq<Reason> :: said + [LockOrderViolated] + more == said + ([LockOrderViolated] + more);
    view := FoldCrossingInto(a, b, nowMs, view, reasons);
  }

  method FoldPairInto(legA: LegFold, legB: LegFold, a: State, b: State, nowMs: int, start: Body, reasons: Reasons)
    returns (view: Body)
    requires a.offer.leg.LegOfA?
    modifies reasons
    ensures view == FoldPair(legA, legB, a, b, nowMs, start).body
    ensures reasons.items == old(reasons.items) + FoldPair(legA, legB, a, b, nowMs, start).added
  {
    view := start.(identity := start.identity.(legBOfferId := Some(b.offer.id)));
    assert reasons.items + [] == reasons.items;
    if b.offer.leg.NotALeg? {
      reasons.Push(NotASwapLeg(B));
      return;
    }
    if b.offer.leg.LegOfA? {
      reasons.Push(WrongContext(B));
      return;
    }
    if b.offer.leg.swapId != a.offer.leg.swapId {
      reasons.Push(SwapIdDiffers);
      return;
    }
    if b.offer.leg.legAOfferId != a.offer.id {
      reasons.Push(OtherLegA);
      return;
    }
    if !b.offer.oriented {
      reasons.Push(NotOriented(B));
      view := view.(status := OrientationUnsupported);
      return;
    }
    view := view.(identity := view.identity.(seller := Some(b.offer.from), pairKey := PairKeyOf(a, b)));
    if a.status == Proposed {
      reasons.Push(BeforeAccept);
      view := view.(status := if b.status == Proposed then Bid else Unpaired);
      return;
    }
    if a.status == Accepted && b.status == Proposed {
      view := view.(status := AcceptedS);
      return;
    }
    if b.status == Proposed {
      reasons.Push(NotYetAccepted);
      return;
    }
    view := FoldPartiesInto(legA, legB, a, b, nowMs, view, reasons);
  }

  method FoldAloneInto(a: State, start: Body, reasons: Reasons) returns (view: Body)
    modifies reasons
    ensures view == FoldAlone(a, start).body
    ensures reasons.items == old(reasons.items) + FoldAlone(a, start).added
  {
    view := start;
    ghost var said := reasons.items;
    assert said + [] == said;
    if a.status == Proposed {
      view := view.(status := Bid);
      return;
    }
    if a.status == Accepted {
      view := view.(identity := view.identity.(seller := a.payee), status := AcceptedS);
      return;
    }
    if a.status == Cancelled {
      reasons.Push(CancelledLeg(A));
      view := view.(status := Abandoned);
      return;
    }
    if a.status == RefundedM {
      var refunded := RefundedFold(A, a, view.evidence.aRail, reasons);
      if refunded {
        reasons.Push(RefundedAlone);
        view := view.(status := RefundedA);
        return;
      }
    }
    reasons.Push(AdvancedAlone);
    view := view.(status := Unpaired);
  }

  method FoldLegsInto(legA: LegFold, legB: LegFold, nowMs: int, start: Body, reasons: Reasons) returns (view: Body)
    modifies reasons
    ensures view == FoldLegs(legA, legB, nowMs, start).body
    ensures reasons.items == old(reasons.items) + FoldLegs(legA, legB, nowMs, start).added
  {
    view := start;
    var stateA := StateOf(legA);
    if stateA.None? {
      reasons.Push(NotOpen);
      return;
    }
    var a := stateA.value;
    view := view.(identity := view.identity.(legAOfferId := Some(a.offer.id)));
    if a.offer.leg.NotALeg? {
      reasons.Push(NotASwapLeg(A));
      return;
    }
    if a.offer.leg.LegOfB? {
      reasons.Push(WrongContext(A));
      return;
    }
    view := view.(identity := view.identity.(swapId := Some(a.offer.leg.swapId), feeBps := Some(a.offer.leg.feeBps)));
    if !a.offer.oriented {
      reasons.Push(NotOriented(A));
      view := view.(status := OrientationUnsupported);
      return;
    }
    view := view.(identity := view.identity.(buyer := Some(a.offer.from)));
    var stateB := StateOf(legB);
    if stateB.None? {
      view := FoldAloneInto(a, view, reasons);
      return;
    }
    view := FoldPairInto(legA, legB, a, stateB.value, nowMs, view, reasons);
  }

  /** `foldSwap`: never fails on data, and is exactly `Fold`. */
  method FoldSwap(input: Input) returns (view: View)
    ensures view == Fold(input)
  {
    var reasons := new Reasons();
    CollectStepReasons(input.legA, A, reasons);
    CollectStepReasons(input.legB, B, reasons);
    var evidence := input.evidence.(aRail := None, bRail := None);
    var aRail := BindObservation(A, StateOf(input.legA), input.evidence.aRail, reasons);
    var bRail := BindObservation(B, StateOf(input.legB), input.evidence.bRail, reasons);
    if aRail.Some? {
      evidence := evidence.(aRail := aRail);
    }
    if bRail.Some? {
      evidence := evidence.(bRail := bRail);
    }
    assert reasons.items + [] == reasons.items;
    if FromPaper(evidence.a) || FromPaper(evidence.b) {
      reasons.Push(PaperRehearsal);
    }
    FirstReasonsAre(input, reasons.items);
    var body := FoldLegsInto(input.legA, input.legB, input.nowMs, StartBody(evidence), reasons);
    view := View(body, reasons.items);
  }

  lemma FirstReasonsAre(input: Input, said: seq<Reason>)
    requires said == [] + StepReasons(A, StepsOf(input.legA)) + StepReasons(B, StepsOf(input.legB))
                     + Ignored(A, StateOf(input.legA), input.evidence.aRail) + Ignored(B, StateOf(input.legB), input.evidence.bRail)
                     + if FromPaper(input.evidence.a) || FromPaper(input.evidence.b) then [PaperRehearsal] else []
    ensures said == FirstReasons(input)
  {
    assert [] + StepReasons(A, StepsOf(input.legA)) == StepReasons(A, StepsOf(input.legA));
  }
}
