/**
 * Every whole call of a reachable flow comes to an end: over every run, a `lockLegA`, `claimLegB` or `refundLegA` that nothing
 * disturbs leaves its outcome in the store, and the record it leaves is the one the next process resumes from.
 */
module BuyerCalls {
  import opened Options
  import opened Journal
  import opened BuyerState
  import opened BuyerSteps
  import opened BuyerLocks
  import opened BuyerOutcomes
  import opened BuyerFlows
  import opened BuyerProgress
  import opened BuyerLocking

  /** A live flow between two calls, with everything it latched in the store. */
  predicate AtRest(s: System, id: nat) {
    id in s.live && Calm(s.live[id], s.env) && AllSaved(s.live[id])
  }

  /** One instance and the world around it. */
  function Around(s: System, id: nat): Result
    requires id in s.live
  {
    Result(s.live[id], s.env)
  }

  /** What every run keeps of a flow at rest. */
  lemma RestIsSound(config: Config, run: seq<Event>, id: nat)
    requires AtRest(After(config, run), id)
    ensures var s := After(config, run);
            var (l, r) := (s.live[id].latches, Body(s.live[id]));
            && Known(r, s.env) && Writable(l) && Tied(l, r) && (s.env.rail.claimed ==> s.env.rail.landed != {})
            && |l.refundNotes| <= 1
  {
    hide EnvInv, InstInv, Step, Inv;
    EveryRunIsGood(config, run);
    var s := After(config, run);
    var i := s.live[id];
    FlowHolds(i, s.env);
    WritableIsEncodable(i.latches, Body(i));
  }

  // --- claimLegB -------------------------------------------------------------------------------------------------------------------

  /** The run of one `claimLegB` whose saves go through. */
  function ClaimCall(run: seq<Event>, id: nat, secret: Secret, call: NoteCall): seq<Event> {
    run + SettleRun(id, ClaimSteps(secret, NoFault, call, NoFault))
  }

  /**
   * Over every run, a claim of leg B nothing disturbs is recorded exactly when leg B's note then reads claimed with the secret:
   * as this flow's own where its write returned, adopted otherwise. Where it is not, the attempt is cleared exactly when the
   * note takes no claim any more. A flow that holds the verdict has no record for a claim of its own.
   */
  lemma ClaimIsRecorded(config: Config, run: seq<Event>, id: nat, secret: Secret, call: NoteCall)
    requires AtRest(After(config, run), id) && MayClaim(After(config, run).live[id], secret)
    requires var (i, e) := (After(config, run).live[id], After(config, run).env);
             i.latches.lock.neverLanded ==> !(Takes(e.note, e.nowMs, secret) && call == NoteReturned)
    ensures var (i, e, s') := (After(config, run).live[id], After(config, run).env, After(config, ClaimCall(run, id, secret, call)));
            && AtRest(s', id) && s'.live[id].settlePc.SettleIdle? && s'.env.store.held.Some?
            && s'.env.note == NoteAfter(e.note, e.nowMs, secret, call)
            && var (claim, note) := (s'.env.store.held.value.body.claim, s'.env.note);
               && s'.live[id].latches == Claiming(i.latches, claim)
               && s'.env.store.held.value.body == Project(Claiming(i.latches, claim), Body(i))
               && (claim.claimed <==> Takes(e.note, e.nowMs, secret) && call == NoteReturned)
               && (claim.claimed || claim.adopted <==> note.NoteClaimed? && note.secret == secret)
               && (claim.attempted <==> claim.claimed || claim.adopted || (note.NoteLocked? && e.nowMs < note.refundAfterMs))
               && !(claim.claimed && claim.adopted)
  {
    hide After, Step, DoSettles, ClaimSteps, SettleRun, Encodable, Known;
    var s := After(config, run);
    var (i, e) := (s.live[id], s.env);
    RestIsSound(config, run, id);
    var claim := ClaimComesTo(e.note, e.nowMs, secret, call);
    CalmClaim(i, e, secret, call);
    SettleCallIsARun(config, run, id, ClaimSteps(secret, NoFault, call, NoFault));
    ProjectsOver(Claiming(i.latches, claim), Claiming(i.latches, claim), Body(i));
  }

  // --- refundLegA ------------------------------------------------------------------------------------------------------------------

  lemma RefundableAtRest(config: Config, run: seq<Event>, id: nat, a: RefundAnswers)
    requires AtRest(After(config, run), id) && MayRefund(After(config, run).live[id], After(config, run).env.nowMs)
    requires Undisturbed(After(config, run).live[id], After(config, run).env, a)
    ensures var (i, e) := (After(config, run).live[id], After(config, run).env);
            && Refundable(i.latches) && |i.latches.refundNotes| < 64
            && (e.rail.kind == Escrow && a.absence == NeverLocked ==> !i.latches.refund.claimSeen)
  {
    hide Step, EnvInv, InstInv;
    RestIsSound(config, run, id);
    EveryRunIsGood(config, run);
    var (i, e) := (After(config, run).live[id], After(config, run).env);
    if e.rail.kind == Escrow && a.absence == NeverLocked && i.latches.refund.claimSeen {
      NothingLanded(config.policy, i, e);
    }
  }

  /** The run of one `refundLegA`. */
  function RefundCallRun(run: seq<Event>, id: nat, a: RefundAnswers): seq<Event> {
    run + SettleRun(id, RefundSteps(a))
  }

  /** Over every run, a `refundLegA` nothing disturbs ends with all it came to in the store, and with the refund calls it made. */
  lemma RefundIsRecorded(config: Config, run: seq<Event>, id: nat, a: RefundAnswers)
    requires AtRest(After(config, run), id) && MayRefund(After(config, run).live[id], After(config, run).env.nowMs)
    requires Undisturbed(After(config, run).live[id], After(config, run).env, a)
    ensures var (i, e, s') := (After(config, run).live[id], After(config, run).env, After(config, RefundCallRun(run, id, a)));
            var (l, calls) := RefundComesTo(i, e, a);
            && AtRest(s', id) && s'.live[id].settlePc.SettleIdle? && s'.live[id].latches == l
            && s'.env.store.held.Some? && s'.env.store.held.value.body == Project(l, Body(i))
            && s'.env == e.(store := s'.env.store, refundCalls := calls)
  {
    hide After, Step, DoSettles, RefundSteps, SettleRun, RefundComesTo, Undisturbed, Refundable;
    var s := After(config, run);
    var (i, e) := (s.live[id], s.env);
    RefundableAtRest(config, run, id, a);
    CalmRefund(i, e, a);
    SettleCallIsARun(config, run, id, RefundSteps(a));
    var l := RefundComesTo(i, e, a).0;
    ProjectsOver(l, l, Body(i));
  }

  /**
   * The way of a first refund: with no attempt of leg B's claim open, no claim of leg A seen, and the lock known to have
   * landed, the rail's refund is called once over the saved intent, and its evidence is in the store.
   */
  lemma FirstRefundLands(config: Config, run: seq<Event>, id: nat, a: RefundAnswers)
    requires AtRest(After(config, run), id) && MayRefund(After(config, run).live[id], After(config, run).env.nowMs)
    requires Undisturbed(After(config, run).live[id], After(config, run).env, a)
    requires var (l, e) := (After(config, run).live[id].latches, After(config, run).env);
             && AttemptDecided(l, e.note, e.nowMs) && !a.claimSeen && !l.refund.attempted
             && LockKnown(l, e.rail.kind, a.absence)
             && (a.finished == RefundReturned || a.finished == RefundSeen)
    ensures var (i, e, e') := (After(config, run).live[id], After(config, run).env, After(config, RefundCallRun(run, id, a)).env);
            && e'.store.held.Some? && e'.store.held.value.body.refund.attempted
            && e'.store.held.value.body.refund.evidence == i.latches.lock.railRef
            && |e'.refundCalls| == |e.refundCalls| + 1 && e'.refundCalls[|e.refundCalls|].stored.refund.attempted
  {
    hide After, Step, RefundSteps, SettleRun, Undisturbed, RefundCallRun, RefundComesTo, AttemptDecided, LockKnown;
    RestIsSound(config, run, id);
    FirstRefundComesTo(After(config, run).live[id], After(config, run).env, a);
    RefundIsRecorded(config, run, id, a);
  }

  /** The way of a verdict: asked on the escrow for a lock without evidence, "never locked" is in the store and nothing is called. */
  lemma VerdictIsRecorded(config: Config, run: seq<Event>, id: nat, a: RefundAnswers)
    requires AtRest(After(config, run), id) && MayRefund(After(config, run).live[id], After(config, run).env.nowMs)
    requires Undisturbed(After(config, run).live[id], After(config, run).env, a)
    requires var (l, e) := (After(config, run).live[id].latches, After(config, run).env);
             && AttemptDecided(l, e.note, e.nowMs) && e.rail.kind == Escrow && l.lock.evidence.None? && l.refund.evidence.None? && a.absence == NeverLocked
    ensures var (e, e') := (After(config, run).env, After(config, RefundCallRun(run, id, a)).env);
            e'.store.held.Some? && e'.store.held.value.body.lock.neverLanded && e'.refundCalls == e.refundCalls
  {
    hide After, Step, RefundSteps, SettleRun, Undisturbed, RefundCallRun, RefundComesTo, AttemptDecided, LockKnown;
    VerdictComesTo(After(config, run).live[id], After(config, run).env, a);
    RefundIsRecorded(config, run, id, a);
  }

  /** A refund already attempted is looked for: found, its evidence is in the store, and it is not made a second time. */
  lemma RefundIsFoundAgain(config: Config, run: seq<Event>, id: nat, a: RefundAnswers)
    requires AtRest(After(config, run), id) && MayRefund(After(config, run).live[id], After(config, run).env.nowMs)
    requires Undisturbed(After(config, run).live[id], After(config, run).env, a)
    requires var (l, e) := (After(config, run).live[id].latches, After(config, run).env);
             && AttemptDecided(l, e.note, e.nowMs) && !a.claimSeen && l.refund.attempted && l.refund.evidence.None?
             && LockKnown(l, e.rail.kind, a.absence) && a.recovered == ReadsRefunded
    ensures var (i, e, e') := (After(config, run).live[id], After(config, run).env, After(config, RefundCallRun(run, id, a)).env);
            && e'.store.held.Some? && e'.store.held.value.body.refund.evidence == i.latches.lock.railRef
            && e'.refundCalls == e.refundCalls
  {
    hide After, Step, RefundSteps, SettleRun, Undisturbed, RefundCallRun, RefundComesTo, AttemptDecided, LockKnown;
    FoundRefundComesTo(After(config, run).live[id], After(config, run).env, a);
    RefundIsRecorded(config, run, id, a);
  }

  /** An attempt of leg B's claim that is still open holds the refund back: the call changes nothing at all. */
  lemma OpenAttemptHoldsTheRefund(config: Config, run: seq<Event>, id: nat, a: RefundAnswers)
    requires AtRest(After(config, run), id) && MayRefund(After(config, run).live[id], After(config, run).env.nowMs)
    requires Undisturbed(After(config, run).live[id], After(config, run).env, a)
    requires !AttemptDecided(After(config, run).live[id].latches, After(config, run).env.note, After(config, run).env.nowMs)
    ensures var (i, e, s') := (After(config, run).live[id], After(config, run).env, After(config, RefundCallRun(run, id, a)));
            && AtRest(s', id) && s'.live[id].latches == i.latches && Body(s'.live[id]) == Body(i) && s'.env.refundCalls == e.refundCalls
  {
    hide After, Step, RefundSteps, SettleRun, Undisturbed, RefundCallRun, AttemptDecided, AfterNote;
    NoteDecides(After(config, run).live[id].latches, After(config, run).env.note, After(config, run).env.nowMs);
    RefundIsRecorded(config, run, id, a);
  }

  // --- lockLegA --------------------------------------------------------------------------------------------------------------------

  /** The checks `lockLegA` makes before anything else. */
  predicate MayStartLock(i: Instance) {
    && i.lockPc.LockIdle? && i.latches.legBVerified && i.latches.offerA.Some? && i.latches.pairing.Some? && !i.latches.lock.neverLanded
    && (i.latches.lock.evidence.None? || i.latches.lock.hashLock.None?)
  }

  function LockCallRun(run: seq<Event>, id: nat, a: LockAnswers): seq<Event> {
    run + LockRun(id, LockSteps(a))
  }

  lemma LockableAtRest(config: Config, run: seq<Event>, id: nat)
    requires AtRest(After(config, run), id) && MayStartLock(After(config, run).live[id])
    ensures MayLock(After(config, run).live[id]) && Writable(After(config, run).live[id].latches)
  {
    hide Step, EnvInv, InstInv;
    RestIsSound(config, run, id);
  }

  /** Over every run, a `lockLegA` nothing disturbs ends with all it came to in the store and on leg A's rail. */
  lemma LockIsRecorded(config: Config, run: seq<Event>, id: nat, a: LockAnswers)
    requires AtRest(After(config, run), id) && MayStartLock(After(config, run).live[id]) && a.firstSave == NoFault && a.lastSave == NoFault
    requires var (l, e) := (After(config, run).live[id].latches, After(config, run).env);
             l.lock.attempted && l.lock.prepared.Some? ==> TruthfulLock(config.policy, l, e, a)
    ensures var (i, e, s') := (After(config, run).live[id], After(config, run).env, After(config, LockCallRun(run, id, a)));
            && MayLock(i)
            && var (l, rail) := DecisionComesTo(LockDecides(config.policy, i.latches, e, a), i.latches, e.nowMs, a.sent);
               && AtRest(s', id) && s'.live[id].lockPc.LockIdle? && s'.live[id].latches == l
               && s'.env.store.held.Some? && s'.env.store.held.value.body == Project(l, Body(i))
               && s'.env == e.(store := s'.env.store, rail := rail)
  {
    hide After, Step, DoLocks, LockSteps, LockRun, DecisionComesTo, LockDecides, TruthfulLock, Writable;
    var s := After(config, run);
    var (i, e) := (s.live[id], s.env);
    LockableAtRest(config, run, id);
    CalmLock(config.policy, i, e, a);
    LockCallIsARun(config, run, id, LockSteps(a));
    var l := DecisionComesTo(LockDecides(config.policy, i.latches, e, a), i.latches, e.nowMs, a.sent).0;
    ProjectsOver(l, l, Body(i));
  }

  /**
   * The way of a first lock: with its guards behind it, one transaction is built and, where the rail takes it, sent, and its
   * evidence is in the store; with a guard that does not hold, nothing is built, sent or saved.
   */
  lemma FirstLockLands(config: Config, run: seq<Event>, id: nat, a: LockAnswers)
    requires AtRest(After(config, run), id) && MayStartLock(After(config, run).live[id]) && a.firstSave == NoFault && a.lastSave == NoFault
    requires !After(config, run).live[id].latches.lock.attempted && a.sent == Returned
    ensures var (i, e, s') := (After(config, run).live[id], After(config, run).env, After(config, LockCallRun(run, id, a)));
            && s'.env.store.held.Some?
            && var (lock, ref) := (s'.env.store.held.value.body.lock, NextPrepared(e.rail, i.latches.pairing.value.statement).ref);
               if !GuardsHold(config.policy, i.latches, e) then s'.env.rail == e.rail && lock == Body(i).lock
               else
                 && lock.attempted && lock.prepared == Some(NextPrepared(e.rail, i.latches.pairing.value.statement))
                 && |s'.env.rail.sent - e.rail.sent| <= 1 && HasRef(s'.env.rail.sent, ref)
                 && (e.rail.kind != Escrow ==> lock.evidence == Some(ref))
                 && (e.rail.kind == Escrow && i.latches.lock.evidence.None? ==> (lock.evidence == Some(ref) <==> s'.env.rail.landed != e.rail.landed))
  {
    hide After, Step, LockSteps, LockRun, LockCallRun, Known, Writable;
    RestIsSound(config, run, id);
    LockIsRecorded(config, run, id, a);
  }

  /** The way of a recovery: a lock the chain shows is recorded, and nothing is built or sent. */
  lemma LandedLockIsRecorded(config: Config, run: seq<Event>, id: nat, a: LockAnswers)
    requires AtRest(After(config, run), id) && MayStartLock(After(config, run).live[id]) && a.firstSave == NoFault && a.lastSave == NoFault
    requires var (l, e) := (After(config, run).live[id].latches, After(config, run).env);
             && l.lock.attempted && (l.lock.prepared.Some? ==> TruthfulLock(config.policy, l, e, a))
             && (a.recovered == Landed || (a.recovered == NeverLanded && a.found))
    ensures var (i, e, s') := (After(config, run).live[id], After(config, run).env, After(config, LockCallRun(run, id, a)));
            && s'.env.store.held.Some? && i.latches.lock.prepared.Some?
            && s'.env.store.held.value.body.lock.evidence == Some(i.latches.lock.prepared.value.ref) && s'.env.rail == e.rail
  {
    hide After, Step, LockSteps, LockRun, LockCallRun, Known, Writable, TruthfulLock;
    RestIsSound(config, run, id);
    LockIsRecorded(config, run, id, a);
  }
}
