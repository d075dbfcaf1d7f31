/**
 * Where the two models meet: under the deadline check of `Deadlines` as the rail's policy, every leg A lock the Buyer's
 * flow ever hands over, whichever process or retry sent it, went through the lock guards that `TimedSwap` starts from.
 */
module BuyerAtomicity {
  import D = Deadlines
  import DeadlineFacts
  import TimedSwap
  import opened BuyerState
  import opened BuyerSteps
  import opened BuyerLocks
  import opened BuyerResults

  function LegOf(offer: Offer): D.Leg {
    D.Leg(D.Num(offer.claimByMs), D.Num(offer.refundAfterMs), D.Num(offer.expiresMs))
  }

  /** `checkSwapDeadlines` under a pinned policy, as the lock guards call it. */
  function Pinned(policy: D.Policy): Policy {
    (offerA: Offer, offerB: Offer, lockTimeMs: nat) => D.Accepted(LegOf(offerA), LegOf(offerB), D.Num(lockTimeMs), policy)
  }

  /**
   * How leg A's chain treats a claim, and what the Buyer does about it: when claims end, how long one may go unseen, and
   * by when the Buyer acts on leg B.
   */
  datatype Timing = Timing(claimEndsMs: int, seenWithinMs: int, actByMs: int)

  /** Claims end at leg A's refund time where the chain enforces it; on Bitcoin nothing but the refund ends them. */
  predicate TimingOf(kind: RailKind, guard: GuardPass, timing: Timing) {
    && guard.offerA.refundAfterMs <= timing.claimEndsMs && (!kind.SignedByOutpoint? ==> timing.claimEndsMs == guard.offerA.refundAfterMs)
    && 0 <= timing.seenWithinMs && timing.actByMs < guard.pairing.offerB.refundAfterMs
  }

  /** The timed swap of one guard pass. */
  function SwapOf(guard: GuardPass, policy: D.Policy, timing: Timing): TimedSwap.Swap {
    TimedSwap.Swap(LegOf(guard.offerA), LegOf(guard.pairing.offerB), policy, guard.pairing.statement.secret.id, guard.readAtMs,
                   timing.claimEndsMs, timing.seenWithinMs, timing.actByMs, true)
  }

  /** What the guards saw, as a state of the timed swap. */
  function SeenBy(guard: GuardPass): TimedSwap.State {
    TimedSwap.State(
      guard.readAtMs, TimedSwap.NotLocked, if guard.note.NoteLocked? then TimedSwap.Locked else TimedSwap.NotLocked,
      if guard.note.NoteLocked? then guard.note.statement.secret.id else 0, false, 0, false)
  }

  /**
   * Every lock ever handed over was guarded: at some moment before the send leg B's note was locked under the swap's own
   * statement until leg B's own refund time, behind a deadline check that passed: the timed swap's lock guards held. So leg A's refund time plus the
   * finality budget is no later than leg B's claim-by, and that is before leg B's refund time.
   */
  lemma EverySentLockPassedTheTimedGuards(kind: RailKind, many: bool, policy: D.Policy, run: seq<Event>, s: Sent, timing: Timing)
    requires s in After(Config(kind, Pinned(policy), many), run).env.rail.sent && TimingOf(kind, s.guard, timing)
    ensures s.guard.atMs <= s.guard.readAtMs <= s.sentAtMs
    ensures s.guard.note == NoteLocked(s.guard.pairing.statement, s.guard.pairing.offerB.refundAfterMs)
    ensures var swap := SwapOf(s.guard, policy, timing);
            && TimedSwap.WellFormed(swap) && TimedSwap.LockGuards(swap, SeenBy(s.guard), s.guard.atMs)
            && s.guard.offerA.refundAfterMs + policy.finalityAMs.n <= s.guard.pairing.offerB.claimByMs
                 < s.guard.pairing.offerB.refundAfterMs
  {
    SentLocksAreSavedAndGuarded(Config(kind, Pinned(policy), many), run, s);
    DeadlineFacts.AcceptedOrdersTheDeadlines(LegOf(s.guard.offerA), LegOf(s.guard.pairing.offerB), D.Num(s.guard.atMs), policy);
  }

  /**
   * Whatever happens from the moment a sent lock's guards saw: the lock landing then, later or never, the Seller claiming at
   * the last moment or publishing the secret, refunds, and the clock. Where leg A's last claim is seen within the finality
   * budget the deadline check allows for, a Buyer who acts in its window never ends with leg A claimed and leg B refunded, and
   * holds leg B once its refund time has come and leg A was claimed.
   */
  lemma SentLocksNeverLeaveTheBuyerEmptyHanded(kind: RailKind, many: bool, policy: D.Policy, run: seq<Event>, s: Sent, timing: Timing,
                                                timed: seq<TimedSwap.Event>)
    requires s in After(Config(kind, Pinned(policy), many), run).env.rail.sent && TimingOf(kind, s.guard, timing)
    requires D.PolicyOk(policy) ==> timing.claimEndsMs + timing.seenWithinMs <= s.guard.offerA.refundAfterMs + policy.finalityAMs.n
    ensures var swap := SwapOf(s.guard, policy, timing);
            && TimedSwap.WellFormed(swap)
            && var end := TimedSwap.From(swap, SeenBy(s.guard).(guarded := true), timed);
               && !TimedSwap.BuyerEmptyHanded(end)
               && (end.nowMs >= s.guard.pairing.offerB.refundAfterMs && end.a == TimedSwap.Claimed ==> end.b == TimedSwap.Claimed)
  {
    EverySentLockPassedTheTimedGuards(kind, many, policy, run, s, timing);
    TimedSwap.EveryRunFromSafeIsSafe(SwapOf(s.guard, policy, timing), SeenBy(s.guard).(guarded := true), timed);
  }

  /**
   * And exactly when, on every rail: no continuation leaves the Buyer empty-handed if and only if the last claim of leg A is
   * seen by leg B's refund time, or no lock could land any more when the guards had run. On Bitcoin, where a claim races the
   * refund from leg A's refund time on, the check alone does not decide that.
   */
  lemma SentLocksAreSafeExactly(kind: RailKind, many: bool, policy: D.Policy, run: seq<Event>, s: Sent, timing: Timing)
    requires s in After(Config(kind, Pinned(policy), many), run).env.rail.sent && TimingOf(kind, s.guard, timing)
    ensures var swap := SwapOf(s.guard, policy, timing);
            && TimedSwap.WellFormed(swap)
            && (TimedSwap.NeverEmptyHandedFrom(swap, SeenBy(s.guard).(guarded := true))
                <==> timing.claimEndsMs + timing.seenWithinMs <= s.guard.pairing.offerB.refundAfterMs || timing.claimEndsMs <= s.guard.readAtMs)
  {
    hide After, TimedSwap.From, D.Accepted, TimedSwap.NeverEmptyHandedFrom;
    EverySentLockPassedTheTimedGuards(kind, many, policy, run, s, timing);
    var swap := SwapOf(s.guard, policy, timing);
    TimedSwap.SafeExactlyWhenRefundBOutlastsReveal(swap, SeenBy(s.guard).(guarded := true));
  }

  /** A pinned policy with a reveal window accepts no lock at or past leg A's refund time, as `VerdictStopsLocks` asks. */
  lemma PinnedIsInTime(policy: D.Policy)
    requires D.PolicyOk(policy) ==> policy.minRevealWindowMs.n > 0
    ensures InTime(Pinned(policy))
  {
  }
}
