/**
 * The reads behind the Buyer's "never locked" verdict (`readLockAbsence`, `lockAbsence`), the weaker reads of `recoverLock`,
 * and the two-step lock that consumes what was prepared. Every read is a snapshot of its own: the node may answer from a
 * longer chain, or from another fork above the finalized block, each time.
 */
module EvmRail {
  import opened Options
  import opened EvmChain

  // --- what the node answers -------------------------------------------------------------------------------------------

  /** How a rail finds its finalized block: so many blocks below the head, or the node's tag with or without a fallback. */
  datatype Finality = Confirmations(confirmations: nat) | Tagged(fallbackConfirmations: Option<nat>)

  /** The node's answer to the read of the tag. An unsupported tag is a JSON-RPC error -32601 or -32602. */
  datatype TagAnswer = TagBlock(height: nat) | TagNull | TagUnsupported | TagError | TagMalformed

  /** One moment: the chain the node sees, and its answer for the tag. */
  datatype View = View(chain: seq<Block>, tag: TagAnswer)

  predicate Sane(view: View) {
    view.chain != [] && (view.tag.TagBlock? ==> view.tag.height < |view.chain|)
  }

  function Numbered(view: View, confirmations: nat): (height: Option<nat>)
    requires Sane(view)
    ensures height.Some? ==> height.value + confirmations + 1 == |view.chain|
    ensures height.None? ==> |view.chain| <= confirmations
  {
    if |view.chain| - 1 < confirmations then None else Some(|view.chain| - 1 - confirmations)
  }

  /** `finalizedBlockForVerdict`: the fallback counts only when the node says outright that it has no such tag. */
  function FinalizedForVerdict(finality: Finality, view: View): (height: Option<nat>)
    requires Sane(view)
    ensures height.Some? ==> height.value < |view.chain|
    ensures finality.Tagged? && view.tag.TagBlock? ==> height == Some(view.tag.height)
    ensures finality.Tagged? && (view.tag.TagError? || view.tag.TagMalformed?) ==> height.None?
    ensures finality == Tagged(None) && !view.tag.TagBlock? ==> height.None?
    ensures forall depth: nat :: finality == Confirmations(depth)
                                 || (finality == Tagged(Some(depth)) && (view.tag.TagNull? || view.tag.TagUnsupported?)) ==>
              if height.None? then |view.chain| <= depth else height.value + depth + 1 == |view.chain|
  {
    match finality
    case Confirmations(confirmations) => Numbered(view, confirmations)
    case Tagged(fallback) =>
      match view.tag
      case TagBlock(height) => Some(height)
      case TagError => None
      case TagMalformed => None
      case _ => if fallback.None? then None else Numbered(view, fallback.value)
  }

  /** The chain up to a finalized block. */
  function Prefix(view: View, height: nat): seq<Block>
    requires height < |view.chain|
  {
    view.chain[..height + 1]
  }

  /** What finality means: every later view extends the chain that was finalized before. */
  ghost predicate Extends(view: View, later: View, height: nat)
    requires height < |view.chain|
  {
    Sane(later) && WellTimed(later.chain) && Prefix(view, height) <= later.chain
  }

  // --- the verdict ---------------------------------------------------------------------------------------------------------

  datatype Absence = LandedRow(row: Row) | NeverLockedVerdict | NotFinal

  /** The answer is the finalized row's; with none there the finalized time and the latest row tell a verdict from a wait. */
  predicate Answers(finality: Finality, first: View, second: View, hashLock: HashLock, refundAfterMs: nat, found: Absence)
    requires Sane(first)
  {
    var height := FinalizedForVerdict(finality, first);
    if height.None? then found.NotFinal?
    else
      var prefix := Prefix(first, height.value);
      && (found.LandedRow? <==> RowAt(prefix, hashLock).Some?)
      && (found.LandedRow? ==> found.row == RowAt(prefix, hashLock).value)
      && (found.NeverLockedVerdict? <==>
            RowAt(prefix, hashLock).None? && TimeMs(first.chain[height.value]) >= refundAfterMs && RowAt(second.chain, hashLock).None?)
  }

  /**
   * `readLockAbsence`: the finalized block, then the row at the latest block, then the row at the finalized one. The answer
   * is decided by the finalized row and the finalized time; the latest row can only hold the verdict back.
   */
  method ReadLockAbsence(finality: Finality, first: View, second: View, third: View, hashLock: HashLock, refundAfterMs: nat)
    returns (found: Absence)
    requires Sane(first) && WellTimed(first.chain)
    requires var height := FinalizedForVerdict(finality, first);
             height.Some? ==> Extends(first, second, height.value) && Extends(first, third, height.value)
    ensures Answers(finality, first, second, hashLock, refundAfterMs, found)
  {
    var height := FinalizedForVerdict(finality, first);
    if height.None? {
      return NotFinal;
    }
    var latest := RowAt(second.chain, hashLock);
    assert third.chain[..height.value + 1] == Prefix(first, height.value);
    var atFinalized := RowAt(third.chain[..height.value + 1], hashLock);
    if atFinalized.Some? {
      return LandedRow(atFinalized.value);
    }
    if TimeMs(first.chain[height.value]) < refundAfterMs {
      return NotFinal;
    }
    if latest.Some? {
      return NotFinal;
    }
    return NeverLockedVerdict;
  }

  /**
   * The verdict is permanently true, and no earlier answer would be: with no row at the finalized block, every chain above
   * it stays without this payer's lock exactly when that block is at or past the refund time.
   */
  lemma VerdictIsPermanent(finality: Finality, first: View, hashLock: HashLock, payer: Address, refundAfterMs: nat)
    requires Sane(first) && WellTimed(first.chain) && FinalizedForVerdict(finality, first).Some?
    requires RowAt(Prefix(first, FinalizedForVerdict(finality, first).value), hashLock).None?
    ensures var height := FinalizedForVerdict(finality, first).value;
            NeverLocked(Prefix(first, height), hashLock, payer, refundAfterMs) <==> TimeMs(first.chain[height]) >= refundAfterMs
  {
    var height := FinalizedForVerdict(finality, first).value;
    var prefix := Prefix(first, height);
    assert prefix[|prefix| - 1] == first.chain[height];
    NeverLockedExactlyAtTheRefundTime(prefix, hashLock, payer, refundAfterMs);
  }

  /** Another payer's row under the hash lock keeps this payer's lock out for good. */
  lemma ConflictIsPermanent(prefix: seq<Block>, chain: seq<Block>, hashLock: HashLock, payer: Address, refundAfterMs: nat)
    requires prefix != [] && prefix <= chain && WellTimed(chain)
    requires RowAt(prefix, hashLock).Some? && RowAt(prefix, hashLock).value.payer != payer
    ensures !Holds(chain, hashLock, payer, refundAfterMs)
  {
    ExtensionKeepsRows(prefix, chain);
  }

  /**
   * A row seen only at the latest block proves nothing: on a fork above the finalized block it can be gone, and past the
   * refund time gone for good.
   */
  lemma LatestRowIsNotEvidence(prefix: seq<Block>, hashLock: HashLock, payer: Address, refundAfterMs: nat, lateS: nat)
    requires prefix != [] && WellTimed(prefix) && RowAt(prefix, hashLock).None?
    requires TimeMs(prefix[|prefix| - 1]) < refundAfterMs <= lateS * 1000
    ensures var seen := WithLock(prefix, hashLock, payer, refundAfterMs);
            var fork := prefix + [Block(lateS, [])];
            && prefix <= seen && WellTimed(seen) && Holds(seen, hashLock, payer, refundAfterMs)
            && prefix <= fork && WellTimed(fork) && NeverLocked(fork, hashLock, payer, refundAfterMs)
  {
    EarlyEnoughMayStillLock(prefix, hashLock, payer, refundAfterMs);
    var fork := prefix + [Block(lateS, [])];
    assert fork[..|fork| - 1] == prefix;
    assert prefix[|prefix| - 1].timestampS <= lateS;
    NeverLockedExactlyAtTheRefundTime(fork, hashLock, payer, refundAfterMs);
  }

  // --- the connected rail ---------------------------------------------------------------------------------------------------

  /** The terms of one prepared lock. */
  datatype Terms = Terms(hashLock: HashLock, payee: Address, amount: nat, token: Address, claimByMs: nat, refundAfterMs: nat)

  datatype Write = ApproveWrite(token: Address, amount: nat) | LockWrite(terms: Terms)

  datatype Refusal = NotPrepared | ApproveFailed | GuardRefused | LockFailed

  datatype Committed = Sent(hashLock: HashLock) | Refused(why: Refusal)

  datatype Verdict = Landed | Never | Later | LockConflict

  /** The node's answer about a hash saved after a receipt time-out. */
  datatype TxStatus = TxPending | TxSuccess | TxReverted | TxUnknown

  datatype Recovery = RecoveredLanded | RecoveredPending | RecoveredNeverLanded | RecoveredConflict

  /** The handle's own state, and the calls made of it. */
  datatype Handle = Handle(prepared: Option<Terms>, writes: seq<Write>)

  datatype Call = Prepare(terms: Terms) | Commit(approved: bool, guardPasses: bool, mined: bool)

  /** One call of `prepareLock` or `commitLock`. */
  function Called(h: Handle, call: Call): Handle {
    match call
    case Prepare(terms) => h.(prepared := Some(terms))
    case Commit(approved, guardPasses, _) =>
      if h.prepared.None? then h
      else
        var terms := h.prepared.value;
        Handle(None, h.writes + [ApproveWrite(terms.token, terms.amount)]
                     + if approved && guardPasses then [LockWrite(terms)] else [])
  }

  function CalledAll(calls: seq<Call>): Handle {
    if calls == [] then Handle(None, []) else Called(CalledAll(calls[..|calls| - 1]), calls[|calls| - 1])
  }

  function LockWrites(writes: seq<Write>): nat {
    if writes == [] then 0 else LockWrites(writes[..|writes| - 1]) + if writes[|writes| - 1].LockWrite? then 1 else 0
  }

  function Prepares(calls: seq<Call>): nat {
    if calls == [] then 0 else Prepares(calls[..|calls| - 1]) + if calls[|calls| - 1].Prepare? then 1 else 0
  }

  lemma LockWritesOfSum(writes: seq<Write>, write: Write)
    ensures LockWrites(writes + [write]) == LockWrites(writes) + if write.LockWrite? then 1 else 0
  {
    assert (writes + [write])[..|writes|] == writes;
  }

  /**
   * Over any calls, a prepared lock is sent at most once, however often `commitLock` is called or fails, and every lock
   * goes out directly behind the approve of its own token and amount.
   */
  lemma {:induction false} EveryLockWasPreparedOnce(calls: seq<Call>)
    ensures var h := CalledAll(calls);
            && LockWrites(h.writes) + (if h.prepared.Some? then 1 else 0) <= Prepares(calls)
            && forall k :: 0 <= k < |h.writes| && h.writes[k].LockWrite? ==>
                 k > 0 && h.writes[k - 1] == ApproveWrite(h.writes[k].terms.token, h.writes[k].terms.amount)
  {
    if calls != [] {
      var front, call := calls[..|calls| - 1], calls[|calls| - 1];
      EveryLockWasPreparedOnce(front);
      var before := CalledAll(front);
      if call.Commit? && before.prepared.Some? {
        var terms := before.prepared.value;
        var approved := before.writes + [ApproveWrite(terms.token, terms.amount)];
        LockWritesOfSum(before.writes, ApproveWrite(terms.token, terms.amount));
        LockWritesOfSum(approved, LockWrite(terms));
        assert approved + [] == approved;
      }
    }
  }

  /** What one call hands to the network over what is prepared. */
  function SentBy(prepared: Option<Terms>, call: Call): seq<Write> {
    if call.Prepare? || prepared.None? then []
    else if call.approved && call.guardPasses
      then [ApproveWrite(prepared.value.token, prepared.value.amount), LockWrite(prepared.value)]
      else [ApproveWrite(prepared.value.token, prepared.value.amount)]
  }

  lemma CallSends(h: Handle, call: Call)
    ensures Called(h, call).prepared == (if call.Prepare? then Some(call.terms) else None)
    ensures Called(h, call).writes == h.writes + SentBy(h.prepared, call)
  {
    assert h.writes + [] == h.writes;
  }

  /**
   * What each call hands to the network, exactly: a commit directly behind its own prepare sends that lock's approve, and the
   * lock itself if and only if the approve went through and the guard passed; every other call sends nothing.
   */
  lemma CommitSendsExactly(calls: seq<Call>)
    requires calls != []
    ensures var (n, call) := (|calls| - 1, calls[|calls| - 1]);
            CalledAll(calls).writes
            == CalledAll(calls[..n]).writes
               + if call.Commit? && n > 0 && calls[n - 1].Prepare? then
                   var terms := calls[n - 1].terms;
                   if call.approved && call.guardPasses then [ApproveWrite(terms.token, terms.amount), LockWrite(terms)]
                   else [ApproveWrite(terms.token, terms.amount)]
                 else []
  {
    hide Called;
    var front := calls[..|calls| - 1];
    CallSends(CalledAll(front), calls[|calls| - 1]);
    if front != [] {
      CallSends(CalledAll(front[..|front| - 1]), front[|front| - 1]);
    }
  }

  /** `ConnectedEvmCounterRail`: one party's handle on the escrow. */
  class ConnectedEvmCounterRail {
    const account: Address
    const finality: Finality
    var prepared: Option<Terms>
    var exchanges: seq<Write>

    function State(): Handle
      reads this
    {
      Handle(prepared, exchanges)
    }

    constructor (account: Address, finality: Finality)
      ensures this.account == account && this.finality == finality && State() == CalledAll([])
    {
      this.account := account;
      this.finality := finality;
      prepared := None;
      exchanges := [];
    }

    /** Nothing goes out: an escrow lock's ref is its hash lock. */
    method PrepareLock(terms: Terms) returns (ref: HashLock)
      modifies this
      ensures State() == Called(old(State()), Prepare(terms))
      ensures ref == terms.hashLock
    {
      prepared := Some(terms);
      ref := terms.hashLock;
    }

    /** The approve, the caller's guard, then the lock; what was prepared is consumed whatever happens. */
    method CommitLock(approved: bool, guardPasses: bool, mined: bool) returns (r: Committed)
      modifies this
      ensures State() == Called(old(State()), Commit(approved, guardPasses, mined))
      ensures old(prepared).None? <==> r == Refused(NotPrepared)
      ensures r.Sent? <==> old(prepared).Some? && approved && guardPasses && mined
      ensures r.Sent? ==> r.hashLock == old(prepared).value.hashLock
      ensures r == Refused(ApproveFailed) || r == Refused(GuardRefused) ==> LockWrites(exchanges) == LockWrites(old(exchanges))
    {
      if prepared.None? {
        return Refused(NotPrepared);
      }
      var terms := prepared.value;
      prepared := None;
      LockWritesOfSum(exchanges, ApproveWrite(terms.token, terms.amount));
      exchanges := exchanges + [ApproveWrite(terms.token, terms.amount)];
      assert exchanges + [] == exchanges;
      if !approved {
        return Refused(ApproveFailed);
      }
      if !guardPasses {
        return Refused(GuardRefused);
      }
      exchanges := exchanges + [LockWrite(terms)];
      if !mined {
        return Refused(LockFailed);
      }
      r := Sent(terms.hashLock);
    }

    /**
     * `lockAbsence`: a verdict about this account's own lock, under the terms it was prepared with. Each answer holds on
     * every chain that extends the finalized block.
     */
    method LockAbsence(first: View, second: View, third: View, hashLock: HashLock, refundAfterMs: nat) returns (verdict: Verdict)
      requires Sane(first) && WellTimed(first.chain)
      requires var height := FinalizedForVerdict(finality, first);
               height.Some? ==> Extends(first, second, height.value) && Extends(first, third, height.value)
      ensures FinalizedForVerdict(finality, first).None? ==> verdict == Later
      ensures FinalizedForVerdict(finality, first).Some? ==>
                var height := FinalizedForVerdict(finality, first).value;
                var prefix := Prefix(first, height);
                && (verdict == Never ==> NeverLocked(prefix, hashLock, account, refundAfterMs))
                && (verdict == Never <==> RowAt(prefix, hashLock).None? && TimeMs(first.chain[height]) >= refundAfterMs
                                          && RowAt(second.chain, hashLock).None?)
                && (verdict == Landed ==> RowAt(prefix, hashLock).Some?
                                          && LandedForGood(prefix, hashLock, account, RowAt(prefix, hashLock).value.refundAfterMs))
                && (verdict == LockConflict ==> forall chain :: prefix <= chain && WellTimed(chain)
                                                  ==> !Holds(chain, hashLock, account, refundAfterMs))
                && (verdict == Later <==> RowAt(prefix, hashLock).None?
                                          && (TimeMs(first.chain[height]) < refundAfterMs || RowAt(second.chain, hashLock).Some?))
    {
      var found := ReadLockAbsence(finality, first, second, third, hashLock, refundAfterMs);
      match found
      case NotFinal => return Later;
      case NeverLockedVerdict =>
        VerdictIsPermanent(finality, first, hashLock, account, refundAfterMs);
        return Never;
      case LandedRow(row) =>
        ghost var prefix := Prefix(first, FinalizedForVerdict(finality, first).value);
        if row.payer != account {
          forall chain | prefix <= chain && WellTimed(chain) ensures !Holds(chain, hashLock, account, refundAfterMs) {
            ConflictIsPermanent(prefix, chain, hashLock, account, refundAfterMs);
          }
          return LockConflict;
        }
        RowIsForGood(prefix, hashLock, account, row.refundAfterMs);
        return Landed;
    }

    /** `recoverLock`: the row at the latest block, else what became of a hash saved after a time-out. */
    method RecoverLock(latest: View, hashLock: HashLock, saved: Option<TxStatus>) returns (r: Recovery)
      requires Sane(latest)
      ensures r == RecoveredLanded <==> RowAt(latest.chain, hashLock).Some? && RowAt(latest.chain, hashLock).value.payer == account
      ensures r == RecoveredConflict <==> RowAt(latest.chain, hashLock).Some? && RowAt(latest.chain, hashLock).value.payer != account
      ensures r == RecoveredPending <==> RowAt(latest.chain, hashLock).None? && (saved == Some(TxPending) || saved == Some(TxSuccess))
      ensures r == RecoveredLanded ==> forall tx: Tx, nowMs :: tx.Lock? && tx.hashLock == hashLock
                                         ==> Execute(EvmChain.State(latest.chain), tx, nowMs) == EvmChain.State(latest.chain)
    {
      var row := RowAt(latest.chain, hashLock);
      if row.Some? {
        return if row.value.payer != account then RecoveredConflict else RecoveredLanded;
      }
      if saved.None? {
        return RecoveredNeverLanded;
      }
      return if saved.value.TxPending? || saved.value.TxSuccess? then RecoveredPending else RecoveredNeverLanded;
    }
  }
}
