/**
 * The escrow contract `contracts/EvmHashRail.sol` on a chain of blocks, and what a prefix of the chain says about every
 * chain that extends it.
 */
module EvmChain {
  import opened Options

  /** Addresses and hash locks are names; 0 is the zero address. */
  type Address = nat
  type HashLock = nat

  datatype Status = Locked | Claimed | Refunded

  datatype Row = Row(payer: Address, payee: Address, token: Address, amount: nat, claimByMs: nat, refundAfterMs: nat, status: Status)

  /** A transaction the chain mined: a call of the escrow, or anything else. `paid` says whether the token moved. */
  datatype Tx =
    | Lock(sender: Address, hashLock: HashLock, payee: Address, amount: nat, token: Address, claimByMs: nat, refundAfterMs: nat, paid: bool)
    | Claim(hashLock: HashLock, opens: bool, paid: bool)
    | Refund(sender: Address, hashLock: HashLock, paid: bool)
    | Other

  datatype Block = Block(timestampS: nat, txs: seq<Tx>)

  type Locks = map<HashLock, Row>

  function TimeMs(block: Block): nat {
    block.timestampS * 1000
  }

  // --- the contract ------------------------------------------------------------------------------------------------------

  /** Every `require` of `lock`; a failed one reverts the call. */
  predicate LockAccepted(locks: Locks, tx: Tx, nowMs: nat)
    requires tx.Lock?
  {
    && tx.hashLock !in locks && tx.payee != 0 && tx.amount > 0 && tx.claimByMs < tx.refundAfterMs && nowMs < tx.refundAfterMs
    && tx.paid
  }

  function Execute(locks: Locks, tx: Tx, nowMs: nat): Locks {
    match tx
    case Lock(sender, hashLock, payee, amount, token, claimByMs, refundAfterMs, _) =>
      if LockAccepted(locks, tx, nowMs)
      then locks[hashLock := Row(sender, payee, token, amount, claimByMs, refundAfterMs, Locked)]
      else locks
    case Claim(hashLock, opens, paid) =>
      if hashLock in locks && locks[hashLock].status == Locked && nowMs < locks[hashLock].refundAfterMs && opens && paid
      then locks[hashLock := locks[hashLock].(status := Claimed)]
      else locks
    case Refund(sender, hashLock, paid) =>
      if hashLock in locks && locks[hashLock].status == Locked && sender == locks[hashLock].payer
         && nowMs >= locks[hashLock].refundAfterMs && paid
      then locks[hashLock := locks[hashLock].(status := Refunded)]
      else locks
    case Other => locks
  }

  function ExecuteAll(locks: Locks, txs: seq<Tx>, nowMs: nat): Locks {
    if txs == [] then locks else Execute(ExecuteAll(locks, txs[..|txs| - 1], nowMs), txs[|txs| - 1], nowMs)
  }

  /** The contract's storage after a chain's blocks. */
  function State(chain: seq<Block>): Locks {
    if chain == [] then map[]
    else
      var block := chain[|chain| - 1];
      ExecuteAll(State(chain[..|chain| - 1]), block.txs, TimeMs(block))
  }

  function RowAt(chain: seq<Block>, hashLock: HashLock): Option<Row> {
    if hashLock in State(chain) then Some(State(chain)[hashLock]) else None
  }

  /** Block times never go back along the chain. */
  ghost predicate WellTimed(chain: seq<Block>) {
    forall i, j :: 0 <= i < j < |chain| ==> chain[i].timestampS <= chain[j].timestampS
  }

  // --- what a call does ------------------------------------------------------------------------------------------------------

  /**
   * A locked row can be paid out one way at any moment: to an opener of the hash strictly before its refund time, back to its
   * payer from that time on.
   */
  lemma ExactlyOneSideIsOpen(locks: Locks, hashLock: HashLock, nowMs: nat)
    requires hashLock in locks && locks[hashLock].status == Locked
    ensures var claimed := Execute(locks, Claim(hashLock, true, true), nowMs);
            var refunded := Execute(locks, Refund(locks[hashLock].payer, hashLock, true), nowMs);
            && (claimed == locks <==> refunded != locks)
            && (nowMs < locks[hashLock].refundAfterMs ==> claimed == locks[hashLock := locks[hashLock].(status := Claimed)])
            && (nowMs >= locks[hashLock].refundAfterMs ==> refunded == locks[hashLock := locks[hashLock].(status := Refunded)])
  {
    assert locks[hashLock := locks[hashLock].(status := Claimed)][hashLock].status == Claimed;
    assert locks[hashLock := locks[hashLock].(status := Refunded)][hashLock].status == Refunded;
  }

  /**
   * What any call does to any row, exactly: a row appears only by a lock no requirement of which fails, under the caller's
   * terms; a locked one is claimed by whoever opens it strictly before its refund time, and refunded by its payer from it on;
   * nothing else of a row changes.
   */
  lemma CallsActExactly(locks: Locks, tx: Tx, nowMs: nat, h: HashLock)
    ensures var after := Execute(locks, tx, nowMs);
            if h !in locks then
              && (h in after <==>
                    && tx.Lock? && tx.hashLock == h && tx.payee != 0 && tx.amount > 0 && tx.claimByMs < tx.refundAfterMs
                    && nowMs < tx.refundAfterMs && tx.paid)
              && (h in after ==>
                    after[h] == Row(tx.sender, tx.payee, tx.token, tx.amount, tx.claimByMs, tx.refundAfterMs, Locked))
            else
              && h in after
              && after[h] == locks[h].(status :=
                   if locks[h].status == Locked && tx.Claim? && tx.hashLock == h && tx.opens && tx.paid && nowMs < locks[h].refundAfterMs
                   then Claimed
                   else if locks[h].status == Locked && tx.Refund? && tx.hashLock == h && tx.paid && tx.sender == locks[h].payer
                           && nowMs >= locks[h].refundAfterMs
                   then Refunded
                   else locks[h].status)
  {
  }

  /** Every row ever locked names a payee, an amount and a claim-by before its refund time. */
  ghost predicate RowsAreSound(locks: Locks) {
    forall h :: h in locks ==> locks[h].payee != 0 && locks[h].amount > 0 && locks[h].claimByMs < locks[h].refundAfterMs
  }

  lemma {:induction false} BlockKeepsRowsSound(locks: Locks, txs: seq<Tx>, nowMs: nat)
    requires RowsAreSound(locks)
    ensures RowsAreSound(ExecuteAll(locks, txs, nowMs))
  {
    if txs != [] {
      BlockKeepsRowsSound(locks, txs[..|txs| - 1], nowMs);
    }
  }

  lemma {:induction false} EveryRowIsSound(chain: seq<Block>)
    ensures RowsAreSound(State(chain))
  {
    if chain != [] {
      EveryRowIsSound(chain[..|chain| - 1]);
      BlockKeepsRowsSound(State(chain[..|chain| - 1]), chain[|chain| - 1].txs, TimeMs(chain[|chain| - 1]));
    }
  }

  // --- what stays ----------------------------------------------------------------------------------------------------------

  /** A row keeps its terms; its status only leaves Locked, once. */
  predicate RowStays(before: Row, now: Row) {
    now.(status := before.status) == before && (before.status != Locked ==> now == before)
  }

  ghost predicate RowsStay(before: Locks, now: Locks) {
    forall h :: h in before ==> h in now && RowStays(before[h], now[h])
  }

  /** A row that was not there before was locked under a refund time later than the moment. */
  ghost predicate NewRowsAreEarly(before: Locks, now: Locks, nowMs: nat) {
    forall h :: h in now && h !in before ==> nowMs < now[h].refundAfterMs
  }

  lemma ExecuteKeepsRows(locks: Locks, tx: Tx, nowMs: nat)
    ensures RowsStay(locks, Execute(locks, tx, nowMs)) && NewRowsAreEarly(locks, Execute(locks, tx, nowMs), nowMs)
  {
  }

  lemma {:induction false} BlockKeepsRows(locks: Locks, txs: seq<Tx>, nowMs: nat)
    ensures RowsStay(locks, ExecuteAll(locks, txs, nowMs)) && NewRowsAreEarly(locks, ExecuteAll(locks, txs, nowMs), nowMs)
  {
    if txs != [] {
      BlockKeepsRows(locks, txs[..|txs| - 1], nowMs);
      ExecuteKeepsRows(ExecuteAll(locks, txs[..|txs| - 1], nowMs), txs[|txs| - 1], nowMs);
    }
  }

  /**
   * Along every extension of a prefix, its rows stay, with their terms, and a row it does not have can only be locked
   * under a refund time later than the prefix's last block.
   */
  lemma {:induction false} ExtensionKeepsRows(prefix: seq<Block>, chain: seq<Block>)
    requires prefix != [] && prefix <= chain && WellTimed(chain)
    ensures RowsStay(State(prefix), State(chain))
    ensures NewRowsAreEarly(State(prefix), State(chain), TimeMs(prefix[|prefix| - 1]))
    decreases |chain|
  {
    if |prefix| == |chain| {
      assert prefix == chain;
    } else {
      var front, block := chain[..|chain| - 1], chain[|chain| - 1];
      ExtensionKeepsRows(prefix, front);
      BlockKeepsRows(State(front), block.txs, TimeMs(block));
      assert prefix[|prefix| - 1] == chain[|prefix| - 1];
    }
  }

  // --- one payer's lock ------------------------------------------------------------------------------------------------------

  /** The row a payer's lock under given terms leaves, whatever became of it since. */
  predicate IsLockOf(row: Row, payer: Address, refundAfterMs: nat) {
    row.payer == payer && row.refundAfterMs == refundAfterMs
  }

  predicate Holds(chain: seq<Block>, hashLock: HashLock, payer: Address, refundAfterMs: nat) {
    RowAt(chain, hashLock).Some? && IsLockOf(RowAt(chain, hashLock).value, payer, refundAfterMs)
  }

  /** No chain that extends the prefix ever holds the lock. */
  ghost predicate NeverLocked(prefix: seq<Block>, hashLock: HashLock, payer: Address, refundAfterMs: nat) {
    forall chain :: prefix <= chain && WellTimed(chain) ==> !Holds(chain, hashLock, payer, refundAfterMs)
  }

  /** Every chain that extends the prefix holds the lock. */
  ghost predicate LandedForGood(prefix: seq<Block>, hashLock: HashLock, payer: Address, refundAfterMs: nat) {
    forall chain :: prefix <= chain && WellTimed(chain) ==> Holds(chain, hashLock, payer, refundAfterMs)
  }

  lemma RowIsForGood(prefix: seq<Block>, hashLock: HashLock, payer: Address, refundAfterMs: nat)
    requires prefix != [] && Holds(prefix, hashLock, payer, refundAfterMs)
    ensures LandedForGood(prefix, hashLock, payer, refundAfterMs)
  {
    forall chain | prefix <= chain && WellTimed(chain) ensures Holds(chain, hashLock, payer, refundAfterMs) {
      ExtensionKeepsRows(prefix, chain);
    }
  }

  /** A chain that goes on with the lock in one more block, as long as the refund time has not come. */
  function WithLock(prefix: seq<Block>, hashLock: HashLock, payer: Address, refundAfterMs: nat): seq<Block>
    requires prefix != []
  {
    prefix + [Block(prefix[|prefix| - 1].timestampS, [Lock(payer, hashLock, 1, 1, 1, 0, refundAfterMs, true)])]
  }

  lemma EarlyEnoughMayStillLock(prefix: seq<Block>, hashLock: HashLock, payer: Address, refundAfterMs: nat)
    requires prefix != [] && WellTimed(prefix) && RowAt(prefix, hashLock).None?
    requires TimeMs(prefix[|prefix| - 1]) < refundAfterMs
    ensures var chain := WithLock(prefix, hashLock, payer, refundAfterMs);
            prefix <= chain && WellTimed(chain) && Holds(chain, hashLock, payer, refundAfterMs)
  {
    var chain := WithLock(prefix, hashLock, payer, refundAfterMs);
    var block := chain[|chain| - 1];
    assert chain[..|chain| - 1] == prefix;
    assert block.txs[..0] == [];
    assert ExecuteAll(State(prefix), block.txs, TimeMs(block)) == Execute(State(prefix), block.txs[0], TimeMs(block));
  }

  /**
   * The verdict is exact: with no row under the hash lock at the end of a prefix, no extension of it ever holds the payer's
   * lock if and only if the prefix's last block is at or past the refund time.
   */
  lemma NeverLockedExactlyAtTheRefundTime(prefix: seq<Block>, hashLock: HashLock, payer: Address, refundAfterMs: nat)
    requires prefix != [] && WellTimed(prefix) && RowAt(prefix, hashLock).None?
    ensures NeverLocked(prefix, hashLock, payer, refundAfterMs) <==> TimeMs(prefix[|prefix| - 1]) >= refundAfterMs
  {
    if TimeMs(prefix[|prefix| - 1]) >= refundAfterMs {
      forall chain | prefix <= chain && WellTimed(chain) ensures !Holds(chain, hashLock, payer, refundAfterMs) {
        ExtensionKeepsRows(prefix, chain);
      }
    } else {
      EarlyEnoughMayStillLock(prefix, hashLock, payer, refundAfterMs);
    }
  }

  /**
   * The verdict is about one payer's terms, not about the hash lock: under the same hash lock a row of other terms can
   * appear after it, whoever pays, because the contract compares the clock with the refund time of the call.
   */
  lemma OthersMayStillLock(prefix: seq<Block>, hashLock: HashLock, payer: Address, refundAfterMs: nat)
    requires prefix != [] && WellTimed(prefix) && RowAt(prefix, hashLock).None?
    requires TimeMs(prefix[|prefix| - 1]) >= refundAfterMs
    ensures NeverLocked(prefix, hashLock, payer, refundAfterMs)
    ensures var later := TimeMs(prefix[|prefix| - 1]) + 1;
            var chain := WithLock(prefix, hashLock, payer, later);
            prefix <= chain && WellTimed(chain) && RowAt(chain, hashLock).Some?
  {
    NeverLockedExactlyAtTheRefundTime(prefix, hashLock, payer, refundAfterMs);
    EarlyEnoughMayStillLock(prefix, hashLock, payer, TimeMs(prefix[|prefix| - 1]) + 1);
  }
}
