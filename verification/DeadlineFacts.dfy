/** What a passing deadline check buys, in milliseconds on the two legs' own clocks. */
module DeadlineFacts {
  import opened Deadlines

  /** A passing check orders leg A's refund time plus its finality budget before leg B's claim-by and refund time. */
  lemma AcceptedOrdersTheDeadlines(legA: Leg, legB: Leg, lockTimeMs: Operand, policy: Policy)
    requires Accepted(legA, legB, lockTimeMs, policy)
    ensures lockTimeMs.n + policy.minRevealWindowMs.n <= legA.refundAfterMs.n
    ensures legA.refundAfterMs.n + policy.finalityAMs.n <= legB.claimByMs.n < legB.refundAfterMs.n
  {
  }

  /** An integer of at least this size that a JavaScript number holds exactly. */
  predicate Within(v: Operand, least: int) {
    v.Num? && least <= v.n <= 9007199254740991
  }

  /** Every operand of the check is there and in range, and each leg can be claimed before it is refunded. */
  predicate AllGiven(legA: Leg, legB: Leg, lockTimeMs: Operand, policy: Policy) {
    && legA.Leg? && legB.Leg? && policy.Policy? && Within(lockTimeMs, 1)
    && Within(legA.claimByMs, 1) && Within(legA.refundAfterMs, 1) && Within(legA.expiresMs, 1) && legA.claimByMs.n < legA.refundAfterMs.n
    && Within(legB.claimByMs, 1) && Within(legB.refundAfterMs, 1) && Within(legB.expiresMs, 1) && legB.claimByMs.n < legB.refundAfterMs.n
    && Within(policy.minRevealWindowMs, 0) && Within(policy.finalityAMs, 0) && Within(policy.flopMarginPercent, 0)
    && Within(policy.flopMaxFinalityStallBlocks, 0) && Within(policy.flopFinalityLagBlocks, 0) && Within(policy.flopBlockMs, 1)
  }

  /**
   * What the check accepts, in numbers: with `other` and `flop` the two legs' refund distances in FLOP blocks, rounded up, the
   * reveal window, the finality budget before leg B's claim-by, and both margins of the longer timelock over the shorter.
   */
  lemma AcceptedExactly(legA: Leg, legB: Leg, lockTimeMs: Operand, policy: Policy, other: int, flop: int)
    requires AllGiven(legA, legB, lockTimeMs, policy) ==>
               && policy.flopBlockMs.n * (other - 1) < legA.refundAfterMs.n - lockTimeMs.n <= policy.flopBlockMs.n * other
               && policy.flopBlockMs.n * (flop - 1) < legB.refundAfterMs.n - lockTimeMs.n <= policy.flopBlockMs.n * flop
    ensures Accepted(legA, legB, lockTimeMs, policy) <==>
              && AllGiven(legA, legB, lockTimeMs, policy)
              && lockTimeMs.n + policy.minRevealWindowMs.n <= legA.refundAfterMs.n
              && legA.refundAfterMs.n + policy.finalityAMs.n <= legB.claimByMs.n
              && 0 <= other && 100 * (flop - other) >= other * policy.flopMarginPercent.n
              && other + policy.flopMaxFinalityStallBlocks.n + policy.flopFinalityLagBlocks.n <= flop
  {
    if AllGiven(legA, legB, lockTimeMs, policy) {
      RoundsOnce(policy.flopBlockMs.n, legA.refundAfterMs.n - lockTimeMs.n, other, OtherBlocks(legA, lockTimeMs, policy));
      RoundsOnce(policy.flopBlockMs.n, legB.refundAfterMs.n - lockTimeMs.n, flop, FlopBlocks(legB, lockTimeMs, policy));
    }
  }

  /** Rounding up gives one number. */
  lemma RoundsOnce(b: int, distance: int, x: int, y: int)
    requires b > 0 && b * (x - 1) < distance <= b * x && b * (y - 1) < distance <= b * y
    ensures x == y
  {
    Scale(b, x - 1, y);
    Scale(b, y - 1, x);
  }

  /** Rule 3's minimum for leg B's refund time, over validated operands. */
  function RequiredBRefundAfterMs(legA: Leg, lockTimeMs: Operand, policy: Policy): int
    requires LegOk(legA) && IsPositive(lockTimeMs) && PolicyOk(policy) && OtherBlocks(legA, lockTimeMs, policy) >= 0
  {
    lockTimeMs.n
    + MinimumBlocks(OtherBlocks(legA, lockTimeMs, policy), policy.flopMarginPercent.n, policy.flopMaxFinalityStallBlocks.n,
                    policy.flopFinalityLagBlocks.n) * policy.flopBlockMs.n
  }

  lemma Scale(b: int, x: int, y: int)
    requires b > 0
    ensures x <= y ==> b * x <= b * y
    ensures b * x < b * y ==> x < y
  {
    if x <= y {
      assert b * (y - x) >= 0;
    } else {
      assert b * (x - y) >= 0;
    }
  }

  /**
   * The published minimum is sufficient for rule 3, and rule 3 implies it up to less than one block: the
   * whole slack is the rounding of leg B's own timelock.
   */
  lemma RequiredRefundIsTightToOneBlock(legA: Leg, legB: Leg, lockTimeMs: Operand, policy: Policy)
    requires OperandsOk(legA, legB, lockTimeMs, policy) && OtherBlocks(legA, lockTimeMs, policy) >= 0
    ensures legB.refundAfterMs.n >= RequiredBRefundAfterMs(legA, lockTimeMs, policy)
            ==> TimelocksAdmissible(legA, legB, lockTimeMs, policy)
    ensures TimelocksAdmissible(legA, legB, lockTimeMs, policy)
            ==> legB.refundAfterMs.n > RequiredBRefundAfterMs(legA, lockTimeMs, policy) - policy.flopBlockMs.n
  {
    var b, tOther, tFlop := policy.flopBlockMs.n, OtherBlocks(legA, lockTimeMs, policy), FlopBlocks(legB, lockTimeMs, policy);
    var p, stall, lag := policy.flopMarginPercent.n, policy.flopMaxFinalityStallBlocks.n, policy.flopFinalityLagBlocks.n;
    var required := MinimumBlocks(tOther, p, stall, lag);
    LeastTimelock(tOther, p, stall, lag);
    assert Admissible(tFlop, tOther, p, stall, lag) <==> required <= tFlop;
    WholeBlocksCover(b, legB.refundAfterMs.n - lockTimeMs.n, tFlop, required);
  }

  /** A distance of `tFlop` blocks, rounded up, covers `required` blocks, up to less than one. */
  lemma WholeBlocksCover(b: int, distance: int, tFlop: int, required: int)
    requires b > 0 && b * (tFlop - 1) < distance <= b * tFlop
    ensures distance >= required * b ==> required <= tFlop
    ensures required <= tFlop ==> distance > required * b - b
  {
    assert required * b == b * required;
    assert b * (required - 1) == b * required - b;
    Scale(b, required, tFlop);
    Scale(b, tFlop + 1, required);
    assert b * (tFlop + 1) == b * tFlop + b;
    Scale(b, required - 1, tFlop - 1);
  }

  /** Rule 3 keeps leg B's refund time behind leg A's by the stall and lag, less one block of rounding. */
  lemma RefundTimesStayApart(legA: Leg, legB: Leg, lockTimeMs: Operand, policy: Policy)
    requires Accepted(legA, legB, lockTimeMs, policy)
    ensures legB.refundAfterMs.n - legA.refundAfterMs.n
            > (policy.flopMaxFinalityStallBlocks.n + policy.flopFinalityLagBlocks.n - 1) * policy.flopBlockMs.n
  {
    var b, tOther, tFlop := policy.flopBlockMs.n, OtherBlocks(legA, lockTimeMs, policy), FlopBlocks(legB, lockTimeMs, policy);
    var margin := policy.flopMaxFinalityStallBlocks.n + policy.flopFinalityLagBlocks.n;
    Scale(b, margin - 1, tFlop - 1 - tOther);
    assert b * (tFlop - 1 - tOther) == b * (tFlop - 1) - b * tOther;
    assert b * (margin - 1) == (margin - 1) * b;
  }

  // --- which lock times pass -----------------------------------------------------------------------------------------

  /** The accepted lock times of a pair have no hole. */
  ghost predicate NoHole(legA: Leg, legB: Leg, policy: Policy) {
    forall early: int, between: int, late: int ::
      early <= between <= late && Accepted(legA, legB, Num(early), policy) && Accepted(legA, legB, Num(late), policy)
      ==> Accepted(legA, legB, Num(between), policy)
  }

  /** Every pair whose refund times lie a given number of milliseconds past a whole number of blocks apart. */
  ghost predicate NoHoleAtResidue(blockMs: int, residue: int)
    requires blockMs > 0
  {
    forall legA, legB, policy :: LegOk(legA) && LegOk(legB) && PolicyOk(policy) && policy.flopBlockMs.n == blockMs
        && (legB.refundAfterMs.n - legA.refundAfterMs.n) % blockMs == residue
      ==> NoHole(legA, legB, policy)
  }

  lemma CeilDivUnique(a: int, b: int, c: int)
    requires b > 0 && b * (c - 1) < a <= b * c
    ensures CeilDiv(a, b) == c
  {
    var d := CeilDiv(a, b);
    Scale(b, d - 1, c);
    Scale(b, c - 1, d);
    Scale(b, c, d - 1);
    Scale(b, d, c - 1);
  }

  /** Rounding up commutes with whole blocks. */
  lemma CeilDivShift(a: int, b: int, k: int)
    requires b > 0
    ensures CeilDiv(a + b * k, b) == CeilDiv(a, b) + k
  {
    var c := CeilDiv(a, b);
    assert b * (c + k - 1) == b * (c - 1) + b * k && b * (c + k) == b * c + b * k;
    CeilDivUnique(a + b * k, b, c + k);
  }

  lemma CeilDivMonotone(a: int, a': int, b: int)
    requires b > 0 && a <= a'
    ensures CeilDiv(a, b) <= CeilDiv(a', b)
  {
    Scale(b, CeilDiv(a', b), CeilDiv(a, b) - 1);
  }

  /** With a fixed distance between the timelocks, a shorter one is admissible whenever a longer one is. */
  lemma ShorterIsAdmissible(apart: int, longer: nat, shorter: nat, marginPercent: nat, stall: nat, lag: nat)
    requires shorter <= longer
    requires Admissible(longer + apart, longer, marginPercent, stall, lag)
    ensures Admissible(shorter + apart, shorter, marginPercent, stall, lag)
  {
    assert (longer - shorter) * marginPercent >= 0;
    assert (longer - shorter) * marginPercent == longer * marginPercent - shorter * marginPercent;
  }

  lemma AlignedHasNoHole(legA: Leg, legB: Leg, policy: Policy, apart: int, early: int, between: int, late: int)
    requires LegOk(legA) && LegOk(legB) && PolicyOk(policy)
    requires legB.refundAfterMs.n - legA.refundAfterMs.n == policy.flopBlockMs.n * apart
    requires early <= between <= late
    requires Accepted(legA, legB, Num(early), policy) && Accepted(legA, legB, Num(late), policy)
    ensures Accepted(legA, legB, Num(between), policy)
  {
    var a, b := legA.refundAfterMs.n, policy.flopBlockMs.n;
    CeilDivShift(a - early, b, apart);
    CeilDivShift(a - between, b, apart);
    CeilDivMonotone(a - between, a - early, b);
    CeilDivMonotone(a - late, a - between, b);
    var tEarly, tBetween := OtherBlocks(legA, Num(early), policy), OtherBlocks(legA, Num(between), policy);
    assert FlopBlocks(legB, Num(early), policy) == tEarly + apart;
    assert FlopBlocks(legB, Num(between), policy) == tBetween + apart;
    ShorterIsAdmissible(apart, tEarly, tBetween, policy.flopMarginPercent.n, policy.flopMaxFinalityStallBlocks.n,
                        policy.flopFinalityLagBlocks.n);
  }

  lemma WholeBlocks(b: int, distance: int) returns (apart: int)
    requires b > 0 && distance % b == 0
    ensures distance == b * apart
  {
    apart := distance / b;
  }

  lemma RemainderIs(b: int, r: int)
    requires 0 <= r < b
    ensures r % b == r
  {
  }

  function HolePolicy(blockMs: int): Policy {
    Policy(Num(0), Num(0), Num(0), Num(1), Num(0), Num(blockMs))
  }

  /** At a residue other than 0: accepted one and two blocks before leg A's refund time, rejected in between. */
  lemma MisalignedHasAHole(blockMs: int, residue: int)
    requires 0 < residue < blockMs && 4 * blockMs <= MAX_SAFE_INTEGER
    ensures var legA := Leg(Num(1), Num(3 * blockMs), Num(1));
            var legB := Leg(Num(3 * blockMs), Num(3 * blockMs + residue), Num(1));
            && Accepted(legA, legB, Num(blockMs), HolePolicy(blockMs))
            && !Accepted(legA, legB, Num(2 * blockMs - 1), HolePolicy(blockMs))
            && Accepted(legA, legB, Num(2 * blockMs), HolePolicy(blockMs))
  {
    CeilDivUnique(2 * blockMs, blockMs, 2);
    CeilDivUnique(2 * blockMs + residue, blockMs, 3);
    CeilDivUnique(blockMs + 1, blockMs, 2);
    CeilDivUnique(blockMs + 1 + residue, blockMs, 2);
    CeilDivUnique(blockMs, blockMs, 1);
    CeilDivUnique(blockMs + residue, blockMs, 2);
  }

  lemma AlignedPairHasNoHole(legA: Leg, legB: Leg, policy: Policy)
    requires LegOk(legA) && LegOk(legB) && PolicyOk(policy)
    requires (legB.refundAfterMs.n - legA.refundAfterMs.n) % policy.flopBlockMs.n == 0
    ensures NoHole(legA, legB, policy)
  {
    var apart := WholeBlocks(policy.flopBlockMs.n, legB.refundAfterMs.n - legA.refundAfterMs.n);
    forall early: int, between: int, late: int |
      early <= between <= late && Accepted(legA, legB, Num(early), policy) && Accepted(legA, legB, Num(late), policy)
      ensures Accepted(legA, legB, Num(between), policy)
    {
      AlignedHasNoHole(legA, legB, policy, apart, early, between, late);
    }
  }

  lemma MisalignedPairHasAHole(blockMs: int, residue: int)
    requires 0 < residue < blockMs && 4 * blockMs <= MAX_SAFE_INTEGER
    ensures !NoHoleAtResidue(blockMs, residue)
  {
    var legA := Leg(Num(1), Num(3 * blockMs), Num(1));
    var legB := Leg(Num(3 * blockMs), Num(3 * blockMs + residue), Num(1));
    MisalignedHasAHole(blockMs, residue);
    RemainderIs(blockMs, residue);
    assert !NoHole(legA, legB, HolePolicy(blockMs));
  }

  /**
   * Whole blocks apart is exactly what it takes: with refund times a whole number of blocks apart the accepted
   * lock times are one interval, and at every other residue some pair has a rejected time between two accepted ones.
   */
  lemma NoHoleExactlyWhenAligned(blockMs: int, residue: int)
    requires 0 <= residue < blockMs && 4 * blockMs <= MAX_SAFE_INTEGER
    ensures NoHoleAtResidue(blockMs, residue) <==> residue == 0
  {
    if residue == 0 {
      forall legA, legB, policy | LegOk(legA) && LegOk(legB) && PolicyOk(policy) && policy.flopBlockMs.n == blockMs
        && (legB.refundAfterMs.n - legA.refundAfterMs.n) % blockMs == residue
        ensures NoHole(legA, legB, policy)
      {
        AlignedPairHasNoHole(legA, legB, policy);
      }
    } else {
      MisalignedPairHasAHole(blockMs, residue);
    }
  }
}
