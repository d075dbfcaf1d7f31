/**
 * Two hash time-locked escrows under one clock, and a Seller who does whatever the escrows allow.
 *
 * An escrow pays a refund from its refund time on, and a claim strictly before the time its claims end: the refund time
 * itself where the chain enforces one, and later on Bitcoin, where nothing but the refund ends them. A claim of leg A
 * becomes visible to the Buyer within a given time. The Buyer locks leg A only through its lock guards.
 */
module TimedSwap {
  import opened Deadlines
  import DeadlineFacts

  datatype Escrow = NotLocked | Locked | Claimed | Refunded

  datatype Swap = Swap(
    legA: Leg,
    legB: Leg,
    policy: Policy,
    statement: nat,      // the statement leg A is accepted under; its secret is the Seller's
    startMs: int,
    claimEndsMs: int,    // leg A takes neither a lock nor a claim from then on
    seenWithinMs: int,   // how long a claim of leg A may go unseen
    actByMs: int,        // a Buyer who knows the secret claims leg B before the clock moves past this
    checksDeadlines: bool)

  predicate WellFormed(swap: Swap) {
    && LegOk(swap.legA) && LegOk(swap.legB) && PolicyOk(swap.policy)
    && swap.legA.refundAfterMs.n <= swap.claimEndsMs && 0 <= swap.seenWithinMs && swap.actByMs < swap.legB.refundAfterMs.n
  }

  /** Leg A's last claim is seen within the finality budget that the deadline check adds to leg A's refund time. */
  predicate Budgeted(swap: Swap)
    requires WellFormed(swap)
  {
    swap.claimEndsMs + swap.seenWithinMs <= swap.legA.refundAfterMs.n + swap.policy.finalityAMs.n
  }

  datatype State = State(
    nowMs: int,
    a: Escrow,
    b: Escrow,
    bStatement: nat,
    guarded: bool,       // the Buyer's lock guards passed, so its lock may land at any later time
    claimedAtMs: int,
    buyerKnows: bool)

  datatype Event =
    | Tick(toMs: int)
    | SellerLocksB(statement: nat)
    | BuyerGuards(checkedAtMs: int)
    | LockALands
    | SellerClaimsA
    | SellerPublishesSecret
    | ClaimASeen
    | BuyerClaimsB
    | BuyerRefundsA
    | SellerRefundsB

  function Start(swap: Swap): State {
    State(swap.startMs, NotLocked, NotLocked, 0, false, 0, false)
  }

  /** The deadline check passed at this moment or before, and leg B is locked under leg A's statement now. */
  predicate LockGuards(swap: Swap, s: State, checkedAtMs: int) {
    && s.b == Locked && s.bStatement == swap.statement && checkedAtMs <= s.nowMs
    && (swap.checksDeadlines ==> Accepted(swap.legA, swap.legB, Num(checkedAtMs), swap.policy))
  }

  predicate BuyerCanClaimB(swap: Swap, s: State)
    requires WellFormed(swap)
  {
    s.buyerKnows && s.b == Locked && s.bStatement == swap.statement && s.nowMs < swap.legB.refundAfterMs.n
  }

  /** The clock passes neither the time a claim may go unseen nor the Buyer's own time to act. */
  predicate MayTick(swap: Swap, s: State, toMs: int)
    requires WellFormed(swap)
  {
    && s.nowMs < toMs
    && (s.a == Claimed && !s.buyerKnows ==> toMs <= s.claimedAtMs + swap.seenWithinMs)
    && (BuyerCanClaimB(swap, s) ==> toMs <= swap.actByMs)
  }

  /** An event that is not possible changes nothing. */
  function Step(swap: Swap, s: State, event: Event): State
    requires WellFormed(swap)
  {
    match event
    case Tick(toMs) => if MayTick(swap, s, toMs) then s.(nowMs := toMs) else s
    case SellerLocksB(statement) =>
      if s.b == NotLocked && s.nowMs < swap.legB.refundAfterMs.n then s.(b := Locked, bStatement := statement) else s
    case BuyerGuards(checkedAtMs) => if LockGuards(swap, s, checkedAtMs) then s.(guarded := true) else s
    case LockALands =>
      if s.guarded && s.a == NotLocked && s.nowMs < swap.claimEndsMs then s.(a := Locked) else s
    case SellerClaimsA =>
      if s.a == Locked && s.nowMs < swap.claimEndsMs then s.(a := Claimed, claimedAtMs := s.nowMs) else s
    case SellerPublishesSecret => s.(buyerKnows := true)
    case ClaimASeen => if s.a == Claimed then s.(buyerKnows := true) else s
    case BuyerClaimsB => if BuyerCanClaimB(swap, s) then s.(b := Claimed) else s
    case BuyerRefundsA =>
      if s.a == Locked && s.nowMs >= swap.legA.refundAfterMs.n then s.(a := Refunded) else s
    case SellerRefundsB =>
      if s.b == Locked && s.nowMs >= swap.legB.refundAfterMs.n then s.(b := Refunded) else s
  }

  /** Where a run leads from any state. */
  function From(swap: Swap, s: State, run: seq<Event>): State
    requires WellFormed(swap)
  {
    if run == [] then s else Step(swap, From(swap, s, run[..|run| - 1]), run[|run| - 1])
  }

  function After(swap: Swap, run: seq<Event>): State
    requires WellFormed(swap)
  {
    From(swap, Start(swap), run)
  }

  /** The Seller was paid on leg A and took leg B back. */
  predicate BuyerEmptyHanded(s: State) {
    s.a == Claimed && s.b == Refunded
  }

  // --- the escrows -----------------------------------------------------------------------------------------------------

  /** Leg A leaves a state only as its escrow allows: locked behind the guards and claimed before its claims end, refunded from its refund time on. */
  ghost predicate AMoves(swap: Swap, s: State, now: Escrow)
    requires WellFormed(swap)
  {
    match now
    case NotLocked => false
    case Locked => s.a == NotLocked && s.guarded && s.nowMs < swap.claimEndsMs
    case Claimed => s.a == Locked && s.nowMs < swap.claimEndsMs
    case Refunded => s.a == Locked && swap.legA.refundAfterMs.n <= s.nowMs
  }

  /** Leg B is the Seller's to lock and to refund; the Buyer claims it with the secret of the statement it is locked under. */
  ghost predicate BMoves(swap: Swap, s: State, now: Escrow)
    requires WellFormed(swap)
  {
    match now
    case NotLocked => false
    case Locked => s.b == NotLocked && s.nowMs < swap.legB.refundAfterMs.n
    case Claimed => s.b == Locked && s.buyerKnows && s.bStatement == swap.statement && s.nowMs < swap.legB.refundAfterMs.n
    case Refunded => s.b == Locked && swap.legB.refundAfterMs.n <= s.nowMs
  }

  /**
   * A leg can be brought into a state by some event exactly when its escrow allows that, and no event moves both legs, or a
   * leg and the clock.
   */
  lemma LegsMoveExactly(swap: Swap, s: State, now: Escrow)
    requires WellFormed(swap)
    ensures s.a != now ==> ((exists event: Event :: Step(swap, s, event).a == now) <==> AMoves(swap, s, now))
    ensures s.b != now ==> ((exists event: Event :: Step(swap, s, event).b == now) <==> BMoves(swap, s, now))
    ensures forall event: Event {:trigger Step(swap, s, event)} ::
              var t := Step(swap, s, event);
              (t.a == s.a || t.b == s.b) && (t.nowMs == s.nowMs || (t.nowMs > s.nowMs && t.a == s.a && t.b == s.b))
  {
    hide WellFormed, Step;
    forall event: Event
      ensures s.a != now && Step(swap, s, event).a == now ==> AMoves(swap, s, now)
      ensures s.b != now && Step(swap, s, event).b == now ==> BMoves(swap, s, now)
      ensures var t := Step(swap, s, event);
              (t.a == s.a || t.b == s.b) && (t.nowMs == s.nowMs || (t.nowMs > s.nowMs && t.a == s.a && t.b == s.b))
    {
      EventMoves(swap, s, event);
    }
    if AMoves(swap, s, now) {
      MovesA(swap, s, now);
    }
    if BMoves(swap, s, now) {
      MovesB(swap, s, now);
    }
  }

  lemma EventMoves(swap: Swap, s: State, event: Event)
    requires WellFormed(swap)
    ensures var t := Step(swap, s, event);
            && (t.a != s.a ==> AMoves(swap, s, t.a)) && (t.b != s.b ==> BMoves(swap, s, t.b))
            && (t.a == s.a || t.b == s.b) && (t.nowMs == s.nowMs || (t.nowMs > s.nowMs && t.a == s.a && t.b == s.b))
  {
    hide Accepted, LockGuards, MayTick;
    if event.Tick? && MayTick(swap, s, event.toMs) {
      TicksOn(swap, s, event.toMs);
    }
  }

  lemma TicksOn(swap: Swap, s: State, toMs: int)
    requires WellFormed(swap) && MayTick(swap, s, toMs)
    ensures s.nowMs < toMs
  {
  }

  lemma MovesA(swap: Swap, s: State, now: Escrow)
    requires WellFormed(swap) && AMoves(swap, s, now)
    ensures exists event: Event :: Step(swap, s, event).a == now
  {
    hide Accepted;
    var event := match now case Locked => LockALands case Claimed => SellerClaimsA case _ => BuyerRefundsA;
    assert Step(swap, s, event).a == now;
  }

  lemma MovesB(swap: Swap, s: State, now: Escrow)
    requires WellFormed(swap) && BMoves(swap, s, now)
    ensures exists event: Event :: Step(swap, s, event).b == now
  {
    hide Accepted;
    var event := match now case Locked => SellerLocksB(0) case Claimed => BuyerClaimsB case _ => SellerRefundsB;
    assert Step(swap, s, event).b == now;
  }

  /**
   * What else can happen: the secret may be published at any time; the guards pass exactly where a deadline check did and leg
   * B stands locked under leg A's statement; the clock may reach any later time that leaves no claim of leg A unseen longer
   * than promised and does not pass the Buyer's own time to act; and a claim of leg A is stamped with its moment.
   */
  lemma TheRestMovesExactly(swap: Swap, s: State, toMs: int)
    requires WellFormed(swap) && toMs > s.nowMs
    ensures exists event: Event :: Step(swap, s, event).buyerKnows
    ensures !s.guarded ==> ((exists event: Event :: Step(swap, s, event).guarded) <==>
              && s.b == Locked && s.bStatement == swap.statement
              && exists checkedAtMs: int :: checkedAtMs <= s.nowMs && CheckedAt(swap, checkedAtMs))
    ensures (exists event: Event :: Step(swap, s, event).nowMs == toMs) <==>
              && (s.a == Claimed && !s.buyerKnows ==> toMs <= s.claimedAtMs + swap.seenWithinMs)
              && (s.buyerKnows && s.b == Locked && s.bStatement == swap.statement && s.nowMs < swap.legB.refundAfterMs.n ==> toMs <= swap.actByMs)
    ensures forall event: Event {:trigger Step(swap, s, event)} ::
              var t := Step(swap, s, event);
              t.claimedAtMs == if t.a == Claimed && s.a != Claimed then s.nowMs else s.claimedAtMs
  {
    hide Accepted;
    assert Step(swap, s, SellerPublishesSecret).buyerKnows;
    assert MayTick(swap, s, toMs) ==> Step(swap, s, Tick(toMs)).nowMs == toMs;
    forall checkedAtMs: int | s.b == Locked && s.bStatement == swap.statement && checkedAtMs <= s.nowMs && CheckedAt(swap, checkedAtMs)
      ensures Step(swap, s, BuyerGuards(checkedAtMs)).guarded
    {
    }
    if event: Event :| !s.guarded && Step(swap, s, event).guarded {
      assert CheckedAt(swap, event.checkedAtMs);
    }
  }

  /** The deadline check accepts this lock time, where the swap is checked at all. */
  predicate CheckedAt(swap: Swap, checkedAtMs: int) {
    swap.checksDeadlines ==> Accepted(swap.legA, swap.legB, Num(checkedAtMs), swap.policy)
  }

  /** However a run goes on, the clock does not go back and a leg claimed or refunded stays so. */
  lemma {:induction false} PaidOutIsForGood(swap: Swap, run: seq<Event>, more: seq<Event>)
    requires WellFormed(swap)
    ensures var s, t := After(swap, run), After(swap, run + more);
            && s.nowMs <= t.nowMs && (s.buyerKnows ==> t.buyerKnows)
            && (s.a == Claimed || s.a == Refunded ==> t.a == s.a) && (s.b == Claimed || s.b == Refunded ==> t.b == s.b)
    decreases |more|
  {
    if more == [] {
      assert run + more == run;
    } else {
      PaidOutIsForGood(swap, run, more[..|more| - 1]);
      assert (run + more)[..|run + more| - 1] == run + more[..|more| - 1];
    }
  }

  // --- safety ----------------------------------------------------------------------------------------------------------

  /** A claim of leg A at the last moment is seen before leg B's refund time. */
  predicate RefundBOutlastsReveal(swap: Swap)
    requires WellFormed(swap)
  {
    swap.claimEndsMs + swap.seenWithinMs <= swap.legB.refundAfterMs.n
  }

  ghost predicate Safe(swap: Swap, s: State)
    requires WellFormed(swap)
  {
    && (s.a != NotLocked ==> s.guarded)
    && (s.guarded ==> s.b != NotLocked && s.bStatement == swap.statement)
    && (s.guarded && swap.checksDeadlines ==>
          swap.legA.refundAfterMs.n + swap.policy.finalityAMs.n <= swap.legB.claimByMs.n < swap.legB.refundAfterMs.n)
    && (s.b == Refunded ==> s.nowMs >= swap.legB.refundAfterMs.n)
    && (s.a == Claimed ==> s.claimedAtMs < swap.claimEndsMs && s.claimedAtMs <= s.nowMs)
    && (s.a == Claimed && !s.buyerKnows ==> s.nowMs <= s.claimedAtMs + swap.seenWithinMs)
    && (s.a == Claimed && s.b == Locked ==> s.nowMs < swap.legB.refundAfterMs.n)
    && !BuyerEmptyHanded(s)
  }

  lemma StepKeepsSafe(swap: Swap, s: State, event: Event)
    requires WellFormed(swap) && ((swap.checksDeadlines && Budgeted(swap)) || RefundBOutlastsReveal(swap))
    requires Safe(swap, s)
    ensures Safe(swap, Step(swap, s, event))
  {
    if event.BuyerGuards? && LockGuards(swap, s, event.checkedAtMs) && swap.checksDeadlines {
      DeadlineFacts.AcceptedOrdersTheDeadlines(swap.legA, swap.legB, Num(event.checkedAtMs), swap.policy);
    }
  }

  lemma {:induction false} EveryRunFromSafeIsSafe(swap: Swap, s: State, run: seq<Event>)
    requires WellFormed(swap) && ((swap.checksDeadlines && Budgeted(swap)) || RefundBOutlastsReveal(swap))
    requires Safe(swap, s)
    ensures Safe(swap, From(swap, s, run))
  {
    if run != [] {
      EveryRunFromSafeIsSafe(swap, s, run[..|run| - 1]);
      StepKeepsSafe(swap, From(swap, s, run[..|run| - 1]), run[|run| - 1]);
    }
  }

  lemma EveryRunIsSafe(swap: Swap, run: seq<Event>)
    requires WellFormed(swap) && ((swap.checksDeadlines && Budgeted(swap)) || RefundBOutlastsReveal(swap))
    ensures Safe(swap, After(swap, run))
  {
    EveryRunFromSafeIsSafe(swap, Start(swap), run);
  }

  /**
   * The Buyer's window. Whenever the Seller claims leg A, and however late the claim is seen within the
   * budget, the moment the Buyer learns the secret leg B's claim-by has not passed, and leg B is
   * still locked under that very secret unless it was already claimed for the Buyer.
   */
  lemma ClaimSeenLeavesAWindow(swap: Swap, run: seq<Event>)
    requires WellFormed(swap) && swap.checksDeadlines && Budgeted(swap)
    requires After(swap, run).a == Claimed && !After(swap, run).buyerKnows
    ensures var s := After(swap, run + [ClaimASeen]);
            && s.buyerKnows && s.nowMs < swap.legB.claimByMs.n && s.bStatement == swap.statement
            && (s.b == Claimed || BuyerCanClaimB(swap, s))
  {
    EveryRunIsSafe(swap, run);
    assert (run + [ClaimASeen])[..|run|] == run;
  }

  /**
   * No run of a Buyer that acts in that window ends with leg A claimed and leg B refunded; and once leg B's
   * refund time has come, a Buyer whose leg A was claimed holds leg B.
   */
  lemma BuyerIsNeverEmptyHanded(swap: Swap, run: seq<Event>)
    requires WellFormed(swap) && swap.checksDeadlines && Budgeted(swap)
    ensures var s := After(swap, run);
            && !BuyerEmptyHanded(s)
            && (s.nowMs >= swap.legB.refundAfterMs.n && s.a == Claimed ==> s.b == Claimed)
  {
    EveryRunIsSafe(swap, run);
  }

  // --- what the deadlines have to say --------------------------------------------------------------------------------

  /** No continuation of a state leaves the Buyer empty-handed. */
  ghost predicate NeverEmptyHandedFrom(swap: Swap, s: State)
    requires WellFormed(swap)
  {
    forall run: seq<Event> :: !BuyerEmptyHanded(From(swap, s, run))
  }

  /** Just past the guards: leg B locked under the swap's statement, leg A about to be locked, the secret still the Seller's. */
  predicate JustGuarded(swap: Swap, s: State) {
    s.guarded && s.a == NotLocked && s.b == Locked && s.bStatement == swap.statement && !s.buyerKnows
  }

  /** A Seller who claims at the last moment and refunds leg B before the claim is seen. */
  function LateClaim(swap: Swap): seq<Event>
    requires WellFormed(swap)
  {
    [LockALands, Tick(swap.claimEndsMs - 1), SellerClaimsA, Tick(swap.claimEndsMs - 1 + swap.seenWithinMs), SellerRefundsB]
  }

  lemma FromAppend(swap: Swap, s: State, run: seq<Event>, event: Event)
    requires WellFormed(swap)
    ensures From(swap, s, run + [event]) == Step(swap, From(swap, s, run), event)
  {
    assert (run + [event])[..|run|] == run;
  }

  lemma {:induction false} FromMore(swap: Swap, s: State, run: seq<Event>, more: seq<Event>)
    requires WellFormed(swap)
    ensures From(swap, s, run + more) == From(swap, From(swap, s, run), more)
    decreases |more|
  {
    if more == [] {
      assert run + more == run;
    } else {
      FromMore(swap, s, run, more[..|more| - 1]);
      assert (run + more)[..|run + more| - 1] == run + more[..|more| - 1];
    }
  }

  lemma LateClaimLeavesTheBuyerEmptyHanded(swap: Swap, s: State)
    requires WellFormed(swap) && !RefundBOutlastsReveal(swap)
    requires JustGuarded(swap, s) && s.nowMs < swap.claimEndsMs
    ensures BuyerEmptyHanded(From(swap, s, LateClaim(swap)))
  {
    var run := LateClaim(swap);
    var lastMs := swap.claimEndsMs - 1;
    forall i | 0 <= i < 5 ensures From(swap, s, run[..i + 1]) == Step(swap, From(swap, s, run[..i]), run[i]) {
      assert run[..i + 1] == run[..i] + [run[i]];
      FromAppend(swap, s, run[..i], run[i]);
    }
    assert run[..5] == run && run[..0] == [];
    assert From(swap, s, run[..1]) == s.(a := Locked);
    assert From(swap, s, run[..2]) == s.(a := Locked, nowMs := lastMs);
    assert From(swap, s, run[..3]) == s.(a := Claimed, nowMs := lastMs, claimedAtMs := lastMs);
    assert From(swap, s, run[..4]).nowMs == lastMs + swap.seenWithinMs;
  }

  /** From the end of leg A's claims on nothing locks or claims it. */
  lemma {:induction false} TooLateToLock(swap: Swap, s: State, run: seq<Event>)
    requires WellFormed(swap) && s.a == NotLocked && swap.claimEndsMs <= s.nowMs
    ensures From(swap, s, run).a == NotLocked && swap.claimEndsMs <= From(swap, s, run).nowMs
  {
    if run != [] {
      TooLateToLock(swap, s, run[..|run| - 1]);
    }
  }

  /**
   * Past the guards the deadlines alone decide, whatever the guards checked of them: no continuation leaves the Buyer
   * empty-handed exactly when leg B's refund time is not before the moment the last claim of leg A is seen, or no lock can
   * land any more.
   */
  lemma SafeExactlyWhenRefundBOutlastsReveal(swap: Swap, s: State)
    requires WellFormed(swap) && JustGuarded(swap, s)
    requires swap.checksDeadlines ==> swap.legA.refundAfterMs.n + swap.policy.finalityAMs.n <= swap.legB.claimByMs.n
    ensures NeverEmptyHandedFrom(swap, s) <==> RefundBOutlastsReveal(swap) || swap.claimEndsMs <= s.nowMs
  {
    if RefundBOutlastsReveal(swap) {
      forall run: seq<Event> ensures !BuyerEmptyHanded(From(swap, s, run)) {
        EveryRunFromSafeIsSafe(swap, s, run);
      }
    } else if swap.claimEndsMs <= s.nowMs {
      forall run: seq<Event> ensures !BuyerEmptyHanded(From(swap, s, run)) {
        TooLateToLock(swap, s, run);
      }
    } else {
      LateClaimLeavesTheBuyerEmptyHanded(swap, s);
      assert BuyerEmptyHanded(From(swap, s, LateClaim(swap)));
    }
  }

  /**
   * For a Buyer who checks only that leg B is locked, over whole runs: every run is safe exactly when leg B's refund time
   * is not before the moment the last claim of leg A is seen. The deadline check establishes that within its budget.
   */
  lemma UncheckedIsSafeExactlyWhenRefundBOutlastsReveal(swap: Swap)
    requires WellFormed(swap) && !swap.checksDeadlines
    requires swap.startMs < swap.claimEndsMs && swap.startMs < swap.legB.refundAfterMs.n
    ensures NeverEmptyHandedFrom(swap, Start(swap)) <==> RefundBOutlastsReveal(swap)
  {
    if RefundBOutlastsReveal(swap) {
      forall run: seq<Event> ensures !BuyerEmptyHanded(From(swap, Start(swap), run)) {
        EveryRunFromSafeIsSafe(swap, Start(swap), run);
      }
    } else {
      var opening := [SellerLocksB(swap.statement), BuyerGuards(swap.startMs)];
      FromAppend(swap, Start(swap), [], opening[0]);
      FromAppend(swap, Start(swap), [opening[0]], opening[1]);
      assert [] + [opening[0]] == [opening[0]] && [opening[0]] + [opening[1]] == opening;
      var s := From(swap, Start(swap), opening);
      assert JustGuarded(swap, s) && s.nowMs == swap.startMs;
      LateClaimLeavesTheBuyerEmptyHanded(swap, s);
      FromMore(swap, Start(swap), opening, LateClaim(swap));
      assert BuyerEmptyHanded(From(swap, Start(swap), opening + LateClaim(swap)));
    }
  }
}
