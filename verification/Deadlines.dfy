/**
 * The deadline rules of `src/deadlines.ts`: per-leg invariants, the policy's own checks, and rules 1 to 3,
 * the last of them R10.2 of the FLOP yellow paper v0.5.0.
 *
 * An operand is anything a caller may hand in. Arithmetic is over the integers.
 */
module Deadlines {
  import opened Options

  const MAX_SAFE_INTEGER: int := 0x1F_FFFF_FFFF_FFFF

  /** An integer-valued number, or anything else (a fraction, NaN, a string, a missing field). */
  datatype Operand = Num(n: int) | NotAnInteger

  predicate IsSafeInt(v: Operand) {
    v.Num? && -MAX_SAFE_INTEGER <= v.n <= MAX_SAFE_INTEGER
  }

  predicate IsPositive(v: Operand) {
    IsSafeInt(v) && v.n > 0
  }

  predicate IsNonNegative(v: Operand) {
    IsSafeInt(v) && v.n >= 0
  }

  datatype Leg = NoLeg | Leg(claimByMs: Operand, refundAfterMs: Operand, expiresMs: Operand)

  datatype Policy =
    | NoPolicy
    | Policy(minRevealWindowMs: Operand, finalityAMs: Operand, flopMarginPercent: Operand,
             flopMaxFinalityStallBlocks: Operand, flopFinalityLagBlocks: Operand, flopBlockMs: Operand)

  datatype Party = LegA | LegB

  datatype Violation =
    | BadLockTime
    | LegNotAnObject(leg: Party)
    | BadClaimBy(leg: Party)
    | BadRefundAfter(leg: Party)
    | BadExpires(leg: Party)
    | ClaimByNotBeforeRefund(leg: Party)
    | PolicyNotAnObject
    | BadPolicyField(index: nat)
    | Rule1
    | Rule2
    | Rule3
    | Rule3NotEvaluated

  datatype DeadlineCheck = DeadlineCheck(
    ok: bool,
    violations: seq<Violation>,
    requiredBRefundAfterMs: Option<int>,
    requiredBClaimByMs: Option<int>,
    tOtherBlocks: Option<int>,
    tFlopBlocks: Option<int>,
    requiredTFlopBlocks: Option<int>)

  // --- the arithmetic ----------------------------------------------------------------------------------------------

  /** The least whole number of `b`s that covers `a`. */
  function CeilDiv(a: int, b: int): (c: int)
    requires b > 0
    ensures b * (c - 1) < a <= b * c
  {
    -((-a) / b)
  }

  function Max(a: int, b: int): int {
    if a < b then b else a
  }

  /** R10.2's minimum over validated operands. */
  function MinimumBlocks(tOther: nat, marginPercent: nat, stall: nat, lag: nat): (blocks: nat)
  {
    CeilDivNonNegative(tOther * marginPercent);
    tOther + Max(CeilDiv(tOther * marginPercent, 100), stall + lag)
  }

  lemma CeilDivNonNegative(a: nat)
    ensures CeilDiv(a, 100) >= 0
  {
  }

  /** `None` where the source throws: an operand that is not a safe non-negative integer. */
  function TimelockSymmetryMinimumBlocks(tOther: Operand, marginPercent: Operand, stall: Operand, lag: Operand): (blocks: Option<int>)
    ensures blocks.Some? <==> IsNonNegative(tOther) && IsNonNegative(marginPercent) && IsNonNegative(stall) && IsNonNegative(lag)
    ensures blocks.Some? ==> IsLeastTimelock(blocks.value, tOther.n, marginPercent.n, stall.n, lag.n)
  {
    if !IsNonNegative(tOther) || !IsNonNegative(marginPercent) || !IsNonNegative(stall) || !IsNonNegative(lag) then None
    else
      var blocks := MinimumBlocks(tOther.n, marginPercent.n, stall.n, lag.n);
      LeastTimelock(tOther.n, marginPercent.n, stall.n, lag.n);
      Some(blocks)
  }

  /** R10.2: the FLOP timelock outlasts the other one by the percentage margin and by the finality margin. */
  predicate Admissible(tFlop: int, tOther: nat, marginPercent: nat, stall: nat, lag: nat) {
    100 * (tFlop - tOther) >= tOther * marginPercent && tFlop >= tOther + stall + lag
  }

  ghost predicate IsLeastTimelock(blocks: int, tOther: nat, marginPercent: nat, stall: nat, lag: nat) {
    forall t: int :: Admissible(t, tOther, marginPercent, stall, lag) <==> blocks <= t
  }

  lemma LeastTimelock(tOther: nat, marginPercent: nat, stall: nat, lag: nat)
    ensures IsLeastTimelock(MinimumBlocks(tOther, marginPercent, stall, lag), tOther, marginPercent, stall, lag)
  {
    var product, percent := tOther * marginPercent, CeilDiv(tOther * marginPercent, 100);
    forall t: int
      ensures Admissible(t, tOther, marginPercent, stall, lag) <==> MinimumBlocks(tOther, marginPercent, stall, lag) <= t
    {
      assert 100 * (t - tOther) >= product <==> t - tOther >= percent;
    }
  }

  /** `None` where the source throws. Rounded up; may be zero or negative. */
  function BlocksBetween(fromMs: Operand, toMs: Operand, blockMs: Operand): (blocks: Option<int>)
    ensures blocks.Some? <==> IsSafeInt(fromMs) && IsSafeInt(toMs) && IsPositive(blockMs)
    ensures blocks.Some? ==> blockMs.n * (blocks.value - 1) < toMs.n - fromMs.n <= blockMs.n * blocks.value
  {
    if !IsSafeInt(fromMs) || !IsSafeInt(toMs) || !IsPositive(blockMs) then None
    else Some(CeilDiv(toMs.n - fromMs.n, blockMs.n))
  }

  // --- what a passing check means ------------------------------------------------------------------------------------

  predicate LegOk(leg: Leg) {
    && leg.Leg? && IsPositive(leg.claimByMs) && IsPositive(leg.refundAfterMs) && IsPositive(leg.expiresMs)
    && leg.claimByMs.n < leg.refundAfterMs.n
  }

  predicate PolicyOk(policy: Policy) {
    && policy.Policy?
    && IsNonNegative(policy.minRevealWindowMs) && IsNonNegative(policy.finalityAMs) && IsNonNegative(policy.flopMarginPercent)
    && IsNonNegative(policy.flopMaxFinalityStallBlocks) && IsNonNegative(policy.flopFinalityLagBlocks)
    && IsPositive(policy.flopBlockMs)
  }

  predicate OperandsOk(legA: Leg, legB: Leg, lockTimeMs: Operand, policy: Policy) {
    IsPositive(lockTimeMs) && LegOk(legA) && LegOk(legB) && PolicyOk(policy)
  }

  /** Rule 1: the Seller's window to reveal on chain A after the lock. */
  predicate RevealWindowLongEnough(legA: Leg, lockTimeMs: Operand, policy: Policy)
    requires LegOk(legA) && IsPositive(lockTimeMs) && PolicyOk(policy)
  {
    legA.refundAfterMs.n - lockTimeMs.n >= policy.minRevealWindowMs.n
  }

  /** Rule 2: leg B can still be claimed after the latest reveal became visible. */
  predicate ClaimWindowOutlastsFinality(legA: Leg, legB: Leg, policy: Policy)
    requires LegOk(legA) && LegOk(legB) && PolicyOk(policy)
  {
    legB.claimByMs.n >= legA.refundAfterMs.n + policy.finalityAMs.n
  }

  function OtherBlocks(legA: Leg, lockTimeMs: Operand, policy: Policy): int
    requires LegOk(legA) && IsPositive(lockTimeMs) && PolicyOk(policy)
  {
    CeilDiv(legA.refundAfterMs.n - lockTimeMs.n, policy.flopBlockMs.n)
  }

  function FlopBlocks(legB: Leg, lockTimeMs: Operand, policy: Policy): int
    requires LegOk(legB) && IsPositive(lockTimeMs) && PolicyOk(policy)
  {
    CeilDiv(legB.refundAfterMs.n - lockTimeMs.n, policy.flopBlockMs.n)
  }

  /** Rule 3: R10.2 over the two timelocks in FLOP blocks; a timelock already past fails it. */
  predicate TimelocksAdmissible(legA: Leg, legB: Leg, lockTimeMs: Operand, policy: Policy)
    requires OperandsOk(legA, legB, lockTimeMs, policy)
  {
    && OtherBlocks(legA, lockTimeMs, policy) >= 0
    && Admissible(FlopBlocks(legB, lockTimeMs, policy), OtherBlocks(legA, lockTimeMs, policy), policy.flopMarginPercent.n,
                  policy.flopMaxFinalityStallBlocks.n, policy.flopFinalityLagBlocks.n)
  }

  predicate Accepted(legA: Leg, legB: Leg, lockTimeMs: Operand, policy: Policy) {
    && OperandsOk(legA, legB, lockTimeMs, policy)
    && RevealWindowLongEnough(legA, lockTimeMs, policy)
    && ClaimWindowOutlastsFinality(legA, legB, policy)
    && TimelocksAdmissible(legA, legB, lockTimeMs, policy)
  }

  /** When a leg's violation is reported. */
  predicate LegViolated(v: Violation, party: Party, leg: Leg) {
    match v
    case LegNotAnObject(p) => p == party && leg.NoLeg?
    case BadClaimBy(p) => p == party && leg.Leg? && !IsPositive(leg.claimByMs)
    case BadRefundAfter(p) => p == party && leg.Leg? && !IsPositive(leg.refundAfterMs)
    case BadExpires(p) => p == party && leg.Leg? && !IsPositive(leg.expiresMs)
    case ClaimByNotBeforeRefund(p) =>
      && p == party && leg.Leg? && IsPositive(leg.claimByMs) && IsPositive(leg.refundAfterMs) && IsPositive(leg.expiresMs)
      && leg.claimByMs.n >= leg.refundAfterMs.n
    case _ => false
  }

  /** And a policy's: the fields are counted in the order the source lists them, and the last one must be positive. */
  predicate PolicyViolated(v: Violation, policy: Policy) {
    match v
    case PolicyNotAnObject => policy.NoPolicy?
    case BadPolicyField(index) =>
      && policy.Policy?
      && (match index
          case 0 => !IsNonNegative(policy.minRevealWindowMs)
          case 1 => !IsNonNegative(policy.finalityAMs)
          case 2 => !IsNonNegative(policy.flopMarginPercent)
          case 3 => !IsNonNegative(policy.flopMaxFinalityStallBlocks)
          case 4 => !IsNonNegative(policy.flopFinalityLagBlocks)
          case 5 => !IsPositive(policy.flopBlockMs)
          case _ => false)
    case _ => false
  }

  /** Everything the check reports: what is malformed, and over well-formed operands each rule that fails. */
  predicate Violated(v: Violation, legA: Leg, legB: Leg, lockTimeMs: Operand, policy: Policy) {
    var ok := OperandsOk(legA, legB, lockTimeMs, policy);
    match v
    case BadLockTime => !IsPositive(lockTimeMs)
    case Rule1 => ok && !RevealWindowLongEnough(legA, lockTimeMs, policy)
    case Rule2 => ok && !ClaimWindowOutlastsFinality(legA, legB, policy)
    case Rule3 => ok && OtherBlocks(legA, lockTimeMs, policy) >= 0 && !TimelocksAdmissible(legA, legB, lockTimeMs, policy)
    case Rule3NotEvaluated => ok && OtherBlocks(legA, lockTimeMs, policy) < 0
    case _ => LegViolated(v, LegA, legA) || LegViolated(v, LegB, legB) || PolicyViolated(v, policy)
  }

  // --- the checker -----------------------------------------------------------------------------------------------------

  /** The list the checks append to. */
  class Violations {
    var items: seq<Violation>

    constructor ()
      ensures items == []
    {
      items := [];
    }

    method Push(violation: Violation)
      modifies this
      ensures items == old(items) + [violation]
    {
      items := items + [violation];
    }
  }

  /** `old(items)` is kept, something is appended exactly when the leg is not well formed. */
  method CheckLegInvariants(party: Party, leg: Leg, violations: Violations) returns (ok: bool)
    modifies violations
    ensures ok <==> LegOk(leg)
    ensures old(violations.items) <= violations.items
    ensures ok <==> violations.items == old(violations.items)
    ensures forall v :: v in violations.items <==> v in old(violations.items) || LegViolated(v, party, leg)
  {
    if leg.NoLeg? {
      violations.Push(LegNotAnObject(party));
      return false;
    }
    ok := true;
    if !IsPositive(leg.claimByMs) {
      violations.Push(BadClaimBy(party));
      ok := false;
    }
    if !IsPositive(leg.refundAfterMs) {
      violations.Push(BadRefundAfter(party));
      ok := false;
    }
    if !IsPositive(leg.expiresMs) {
      violations.Push(BadExpires(party));
      ok := false;
    }
    if ok && !(leg.claimByMs.n < leg.refundAfterMs.n) {
      violations.Push(ClaimByNotBeforeRefund(party));
      ok := false;
    }
  }

  /** The policy's fields in the order the source lists them; the last one must be positive. */
  function PolicyFields(policy: Policy): (fields: seq<(Operand, bool)>)
    requires policy.Policy?
    ensures (forall i :: 0 <= i < |fields| ==> FieldOk(fields[i])) <==> PolicyOk(policy)
  {
    var fields := [(policy.minRevealWindowMs, false), (policy.finalityAMs, false), (policy.flopMarginPercent, false),
                   (policy.flopMaxFinalityStallBlocks, false), (policy.flopFinalityLagBlocks, false), (policy.flopBlockMs, true)];
    assert (forall i :: 0 <= i < |fields| ==> FieldOk(fields[i])) ==>
      FieldOk(fields[0]) && FieldOk(fields[1]) && FieldOk(fields[2]) && FieldOk(fields[3]) && FieldOk(fields[4]) && FieldOk(fields[5]);
    fields
  }

  predicate FieldOk(field: (Operand, bool)) {
    if field.1 then IsPositive(field.0) else IsNonNegative(field.0)
  }

  method CheckPolicy(policy: Policy, violations: Violations) returns (ok: bool)
    modifies violations
    ensures ok <==> PolicyOk(policy)
    ensures old(violations.items) <= violations.items
    ensures ok <==> violations.items == old(violations.items)
    ensures forall v :: v in violations.items <==> v in old(violations.items) || PolicyViolated(v, policy)
  {
    if policy.NoPolicy? {
      violations.Push(PolicyNotAnObject);
      return false;
    }
    ok := true;
    var fields := PolicyFields(policy);
    var i := 0;
    while i < |fields|
      invariant 0 <= i <= |fields|
      invariant ok <==> forall j :: 0 <= j < i ==> FieldOk(fields[j])
      invariant old(violations.items) <= violations.items
      invariant ok <==> violations.items == old(violations.items)
      invariant forall v :: v in violations.items <==> v in old(violations.items) || (v.BadPolicyField? && v.index < i && !FieldOk(fields[v.index]))
    {
      if !FieldOk(fields[i]) {
        violations.Push(BadPolicyField(i));
        ok := false;
      }
      i := i + 1;
    }
    FieldsAreThese(policy);
  }

  lemma FieldsAreThese(policy: Policy)
    requires policy.Policy?
    ensures forall v: Violation :: PolicyViolated(v, policy) <==>
              v.BadPolicyField? && v.index < |PolicyFields(policy)| && !FieldOk(PolicyFields(policy)[v.index])
  {
  }

  /** What is malformed is reported as such, and the rules only over well-formed operands. */
  lemma ViolatedIs(v: Violation, legA: Leg, legB: Leg, lockTimeMs: Operand, policy: Policy)
    ensures !OperandsOk(legA, legB, lockTimeMs, policy) ==>
              (Violated(v, legA, legB, lockTimeMs, policy) <==>
                 || (v.BadLockTime? && !IsPositive(lockTimeMs)) || LegViolated(v, LegA, legA) || LegViolated(v, LegB, legB)
                 || PolicyViolated(v, policy))
    ensures OperandsOk(legA, legB, lockTimeMs, policy) ==>
              && !LegViolated(v, LegA, legA) && !LegViolated(v, LegB, legB) && !PolicyViolated(v, policy)
              && (Violated(v, legA, legB, lockTimeMs, policy) <==>
                    || (v.Rule1? && !RevealWindowLongEnough(legA, lockTimeMs, policy))
                    || (v.Rule2? && !ClaimWindowOutlastsFinality(legA, legB, policy))
                    || (v.Rule3? && OtherBlocks(legA, lockTimeMs, policy) >= 0 && !TimelocksAdmissible(legA, legB, lockTimeMs, policy))
                    || (v.Rule3NotEvaluated? && OtherBlocks(legA, lockTimeMs, policy) < 0))
  {
    hide Admissible, OtherBlocks, FlopBlocks;
  }

  /**
   * `checkSwapDeadlines`: never fails, whatever it is given. `ok` is exactly rules 1 to 3 over well-formed
   * operands, each rule is reported exactly when it fails, and the audit fields are the operands of rule 3.
   */
  method CheckSwapDeadlines(legA: Leg, legB: Leg, lockTimeMs: Operand, policy: Policy) returns (check: DeadlineCheck)
    ensures check.ok <==> Accepted(legA, legB, lockTimeMs, policy)
    ensures check.ok <==> check.violations == []
    ensures forall v :: v in check.violations <==> Violated(v, legA, legB, lockTimeMs, policy)
    ensures !OperandsOk(legA, legB, lockTimeMs, policy) ==>
      check.requiredBClaimByMs.None? && check.tOtherBlocks.None? && check.tFlopBlocks.None? && check.requiredTFlopBlocks.None?
    ensures OperandsOk(legA, legB, lockTimeMs, policy) ==>
      && check.requiredBClaimByMs == Some(legA.refundAfterMs.n + policy.finalityAMs.n)
      && check.tOtherBlocks == Some(OtherBlocks(legA, lockTimeMs, policy))
      && check.tFlopBlocks == Some(FlopBlocks(legB, lockTimeMs, policy))
      && (check.requiredBRefundAfterMs.Some? <==> check.requiredTFlopBlocks.Some?)
      && (check.requiredTFlopBlocks.Some? ==>
            && check.requiredBRefundAfterMs == Some(lockTimeMs.n + check.requiredTFlopBlocks.value * policy.flopBlockMs.n)
            && OtherBlocks(legA, lockTimeMs, policy) >= 0
            && IsLeastTimelock(check.requiredTFlopBlocks.value, OtherBlocks(legA, lockTimeMs, policy), policy.flopMarginPercent.n,
                               policy.flopMaxFinalityStallBlocks.n, policy.flopFinalityLagBlocks.n))
  {
    hide LegViolated, PolicyViolated, Violated;
    forall v: Violation {
      ViolatedIs(v, legA, legB, lockTimeMs, policy);
    }
    var violations := new Violations();
    if !IsPositive(lockTimeMs) {
      violations.Push(BadLockTime);
    }
    var legAOk := CheckLegInvariants(LegA, legA, violations);
    var legBOk := CheckLegInvariants(LegB, legB, violations);
    var policyOk := CheckPolicy(policy, violations);
    if !IsPositive(lockTimeMs) || !legAOk || !legBOk || !policyOk {
      return DeadlineCheck(false, violations.items, None, None, None, None, None);
    }
    assert violations.items == [];

    var requiredBClaimByMs := legA.refundAfterMs.n + policy.finalityAMs.n;
    var revealWindowMs := legA.refundAfterMs.n - lockTimeMs.n;
    if revealWindowMs < policy.minRevealWindowMs.n {
      violations.Push(Rule1);
    }
    if legB.claimByMs.n < requiredBClaimByMs {
      violations.Push(Rule2);
    }

    var requiredTFlopBlocks, requiredBRefundAfterMs: Option<int> := None, None;
    var tOther := BlocksBetween(lockTimeMs, legA.refundAfterMs, policy.flopBlockMs);
    var tFlop := BlocksBetween(lockTimeMs, legB.refundAfterMs, policy.flopBlockMs);
    SafeQuotient(legA.refundAfterMs.n, lockTimeMs.n, policy.flopBlockMs.n, tOther.value);
    requiredTFlopBlocks := TimelockSymmetryMinimumBlocks(
      Num(tOther.value), policy.flopMarginPercent, policy.flopMaxFinalityStallBlocks, policy.flopFinalityLagBlocks);
    if requiredTFlopBlocks.None? {
      violations.Push(Rule3NotEvaluated);
    } else {
      requiredBRefundAfterMs := Some(lockTimeMs.n + requiredTFlopBlocks.value * policy.flopBlockMs.n);
      assert TimelocksAdmissible(legA, legB, lockTimeMs, policy) <==> requiredTFlopBlocks.value <= tFlop.value;
      if tFlop.value < requiredTFlopBlocks.value {
        violations.Push(Rule3);
      }
    }
    check := DeadlineCheck(violations.items == [], violations.items, requiredBRefundAfterMs, Some(requiredBClaimByMs), tOther, tFlop,
                           requiredTFlopBlocks);
  }

  lemma Stretches(b: int, k: nat)
    requires b >= 1
    ensures b * k >= k
  {
    assert (b - 1) * k >= 0;
  }

  /** A count of blocks between two safe times is a safe count. */
  lemma SafeQuotient(to: int, from: int, blockMs: int, c: int)
    requires 0 < to <= MAX_SAFE_INTEGER && 0 < from <= MAX_SAFE_INTEGER && 0 < blockMs
    requires blockMs * (c - 1) < to - from <= blockMs * c
    ensures -MAX_SAFE_INTEGER <= c <= MAX_SAFE_INTEGER
  {
    if c > 0 {
      Stretches(blockMs, c - 1);
    } else {
      Stretches(blockMs, -c);
      assert blockMs * c == -(blockMs * -c);
    }
  }
}
