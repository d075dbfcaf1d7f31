/**
 * The flow's rail against the chain: the answers `EvmRail` gives about a lock that may never have landed are answers
 * `BuyerSteps` lets the flow act on, on whatever chain the finalized block ends up under.
 */
module BuyerVerdict {
  import opened Options
  import opened EvmChain
  import E = EvmRail
  import BuyerState
  import B = BuyerSteps

  /** What is asked for: the lock of one payer, under the terms of one swap. */
  datatype Query = Query(finality: E.Finality, hashLock: HashLock, payer: Address, refundAfterMs: nat)

  /**
   * The flow's rail is this chain: a lock landed under the ref exactly when the chain holds the payer's lock, and the payer
   * locks under this hash lock on the swap's own terms only.
   */
  predicate Reflects(rail: B.Rail, ref: BuyerState.Ref, chain: seq<Block>, q: Query) {
    && rail.kind == B.Escrow
    && (B.HasRef(rail.landed, ref) <==> Holds(chain, q.hashLock, q.payer, q.refundAfterMs))
    && (RowAt(chain, q.hashLock).Some? && RowAt(chain, q.hashLock).value.payer == q.payer ==>
          RowAt(chain, q.hashLock).value.refundAfterMs == q.refundAfterMs)
  }

  /** The flow's reading of a row: its own lock, or nothing it acts on. */
  function ReadingOf(q: Query, found: E.Absence): Option<B.Absence> {
    match found
    case LandedRow(row) => if row.payer == q.payer then Some(B.AbsenceLanded) else None
    case NeverLockedVerdict => Some(B.NeverLocked)
    case NotFinal => Some(B.NotFinal)
  }

  /**
   * Whatever chain extends the finalized block, the answer is one the flow's rail may give, at any clock that is not behind
   * that block.
   */
  lemma AnswersAreTheRailsOwn(q: Query, first: E.View, second: E.View, found: E.Absence, rail: B.Rail, ref: BuyerState.Ref,
                              chain: seq<Block>, nowMs: nat)
    requires E.Sane(first) && E.FinalizedForVerdict(q.finality, first).Some?
    requires var height := E.FinalizedForVerdict(q.finality, first).value;
             E.Prefix(first, height) <= chain && TimeMs(first.chain[height]) <= nowMs
    requires WellTimed(chain) && Reflects(rail, ref, chain, q)
    requires E.Answers(q.finality, first, second, q.hashLock, q.refundAfterMs, found) && ReadingOf(q, found).Some?
    ensures B.AbsenceMayBe(rail, ref, q.refundAfterMs, nowMs, ReadingOf(q, found).value)
  {
    var height := E.FinalizedForVerdict(q.finality, first).value;
    var prefix := E.Prefix(first, height);
    assert prefix[|prefix| - 1] == first.chain[height];
    ExtensionKeepsRows(prefix, chain);
  }

  /** A verdict given too early is not the rail's own: before the refund time a chain above the block still takes the lock. */
  lemma EarlierVerdictIsNot(q: Query, first: E.View, rail: B.Rail, ref: BuyerState.Ref, nowMs: nat)
    requires E.Sane(first) && WellTimed(first.chain) && E.FinalizedForVerdict(q.finality, first).Some?
    requires var height := E.FinalizedForVerdict(q.finality, first).value;
             RowAt(E.Prefix(first, height), q.hashLock).None? && TimeMs(first.chain[height]) < q.refundAfterMs
    requires Reflects(rail, ref, WithLock(E.Prefix(first, E.FinalizedForVerdict(q.finality, first).value), q.hashLock, q.payer, q.refundAfterMs), q)
    ensures !B.AbsenceMayBe(rail, ref, q.refundAfterMs, nowMs, B.NeverLocked)
  {
    var prefix := E.Prefix(first, E.FinalizedForVerdict(q.finality, first).value);
    assert prefix[|prefix| - 1] == first.chain[|prefix| - 1];
    EarlyEnoughMayStillLock(prefix, q.hashLock, q.payer, q.refundAfterMs);
  }
}
