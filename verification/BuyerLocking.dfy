/**
 * What a `lockLegA` that nothing disturbs comes to: every save goes through, nothing else moves in between, and the rail and
 * leg B's note answer as they stand. A first lock, a recovered one, a resend and a rebuilt one each end in the store.
 */
module BuyerLocking {
  import opened Options
  import opened Journal
  import opened BuyerState
  import opened BuyerSteps
  import opened BuyerOutcomes
  import opened BuyerFlows
  import opened BuyerProgress

  // --- at rest between two segments ------------------------------------------------------------------------------------------

  /** The call has come to this point, with these latches in the store; only the store and leg A's rail moved. */
  predicate Standing(r: Result, l: Latches, pc: LockPc, i: Instance, e: Env, rail: Rail) {
    && Calm(r.inst, r.env) && r.inst.latches == l && r.inst.lockPc == pc && r.inst.settlePc == i.settlePc
    && Body(r.inst) == Project(l, Body(i))
    && r.env == e.(store := r.env.store, rail := rail)
  }

  /** The same with latches set whose save is still to come. */
  predicate SaveDue(r: Result, l: Latches, pc: LockPc, i: Instance, e: Env, rail: Rail) {
    && Calm(r.inst, r.env) && r.inst.latches == l && r.inst.lockPc == pc && r.inst.settlePc == i.settlePc
    && Project(l, Body(r.inst)) == Project(l, Body(i))
    && r.env == e.(store := r.env.store, rail := rail)
  }

  /** Where a lock call stands once its save went through. */
  function Onward(pc: LockPc): LockPc {
    if pc.SavingPrepared? then Sending(pc.prepared, pc.guard) else LockIdle
  }

  lemma LockSaveGoesThrough(policy: Policy, r: Result, l: Latches, pc: LockPc, i: Instance, e: Env, rail: Rail)
    requires SaveDue(r, l, pc, i, e, rail) && Writable(l) && (pc.SavingPrepared? || pc.SavingOutcome?)
    ensures Standing(DoLock(policy, r.inst, r.env, SaveLock(NoFault)), l, Onward(pc), i, e, rail)
  {
    hide Project, Encodable, Writable, Save, DoSaveLock;
    WritableIsEncodable(l, Body(r.inst));
    CalmSave(r.inst, r.env, Body(r.inst));
    SaveLockShape(r.inst, r.env, NoFault);
  }

  lemma NothingToSaveThere(policy: Policy, r: Result)
    requires !r.inst.lockPc.SavingPrepared? && !r.inst.lockPc.SavingOutcome?
    ensures DoLock(policy, r.inst, r.env, SaveLock(NoFault)) == r
  {
  }

  /** One more segment, and then the rest. */
  lemma LocksOn(policy: Policy, i: Instance, e: Env, action: LockAction, rest: seq<LockAction>)
    ensures var r := DoLock(policy, i, e, action);
            DoLocks(policy, i, e, [action] + rest) == DoLocks(policy, r.inst, r.env, rest)
  {
    hide DoLock;
    assert ([action] + rest)[1..] == rest;
  }

  lemma TwoLocks(policy: Policy, i: Instance, e: Env, first: seq<LockAction>, rest: seq<LockAction>)
    ensures var r := DoLocks(policy, i, e, first);
            DoLocks(policy, i, e, first + rest) == DoLocks(policy, r.inst, r.env, rest)
    decreases |first|
  {
    hide DoLock;
    if first == [] {
      assert first + rest == rest;
    } else {
      var r := DoLock(policy, i, e, first[0]);
      TwoLocks(policy, r.inst, r.env, first[1..], rest);
      assert (first + rest)[1..] == first[1..] + rest;
    }
  }

  /** A failed read or build ends the call with nothing latched, wherever a call waits for one. */
  lemma FailedLockReadEnds(policy: Policy, i: Instance, e: Env)
    ensures var pc := i.lockPc;
            var waits := pc.Guarding? || pc.Preparing? || pc.Recovering? || pc.Rereading? || pc.Resending? || pc.Rebuilding?;
            DoLock(policy, i, e, LockReadFails) == Result(i.(lockPc := if waits then LockIdle else pc), e)
  {
  }

  /** A lock call begins exactly where its own checks pass: a first lock at its deadline check, an attempted one at the chain. */
  lemma LockStartsExactly(policy: Policy, i: Instance, e: Env)
    ensures var l := i.latches;
            var may := !i.journal.failed && i.lockPc.LockIdle? && !l.lock.neverLanded && l.legBVerified && l.offerA.Some? && l.pairing.Some?
                       && (l.lock.evidence.None? || l.lock.hashLock.None?);
            && DoLock(policy, i, e, StartLock)
               == Result(if may && !l.lock.attempted && policy(l.offerA.value, l.pairing.value.offerB, e.nowMs)
                         then i.(lockPc := Guarding(GuardPass(e.nowMs, e.nowMs, l.offerA.value, l.pairing.value, NoNote), FirstLock)) else i, e)
            && DoLock(policy, i, e, StartRecover)
               == Result(if may && l.lock.attempted && l.lock.prepared.Some? && l.lock.hashLock.Some? && l.lock.accounts.Some?
                         then i.(lockPc := Recovering(l.lock.prepared.value)) else i, e)
  {
  }

  // --- what the call decides -----------------------------------------------------------------------------------------------------

  /** The call ends here, records a lock it saw, or is about to save and send this transaction. */
  datatype Decision = Halts(rail: Rail) | Records(rail: Rail, ref: Ref) | Prepares(rail: Rail, lock: LockLatches, prepared: Prepared, guard: GuardPass)

  /** The guards of a new lock action, all read at this moment. */
  predicate GuardsHold(policy: Policy, l: Latches, e: Env)
    requires l.offerA.Some? && l.pairing.Some?
  {
    && policy(l.offerA.value, l.pairing.value.offerB, e.nowMs)
    && e.note == NoteLocked(l.pairing.value.statement, l.pairing.value.offerB.refundAfterMs)
  }

  function PassNow(l: Latches, e: Env): GuardPass
    requires l.offerA.Some? && l.pairing.Some?
  {
    GuardPass(e.nowMs, e.nowMs, l.offerA.value, l.pairing.value, e.note)
  }

  /** The next transaction the rail builds for this statement. */
  function NextPrepared(rail: Rail, statement: Statement): Prepared {
    Prepared(if rail.kind == SignedByOutpoint then OfTransaction(rail.issued) else OfHashLock(statement), rail.issued, None)
  }

  function Issued(rail: Rail): Rail {
    rail.(issued := rail.issued + 1)
  }

  function HandedOver(rail: Rail, prepared: Prepared, guard: GuardPass, nowMs: nat): Rail {
    rail.(sent := rail.sent + {Sent(prepared.tx, prepared.ref, guard.offerA.refundAfterMs, guard, nowMs)})
  }

  /** A first lock: with its guards behind it, everything is latched before anything is sent. */
  function FirstDecides(policy: Policy, l: Latches, e: Env, accounts: nat, marker: nat): Decision
    requires l.offerA.Some? && l.pairing.Some?
  {
    var (statement, prepared) := (l.pairing.value.statement, NextPrepared(e.rail, l.pairing.value.statement));
    if !GuardsHold(policy, l, e) then Halts(e.rail)
    else Prepares(Issued(e.rail),
                  l.lock.(attempted := true, prepared := Some(prepared), railRef := Some(prepared.ref), fromBlock := Some(marker),
                          accounts := Some(accounts), hashLock := Some(statement)),
                  prepared, PassNow(l, e))
  }

  /** A rebuilt lock goes out under the saved ref or not at all. */
  function RebuildDecides(l: Latches, e: Env, rail: Rail, saved: Prepared): Decision
    requires l.offerA.Some? && l.pairing.Some?
  {
    var rebuilt := NextPrepared(rail, l.pairing.value.statement);
    if rebuilt.ref != saved.ref then Halts(Issued(rail))
    else Prepares(Issued(rail), l.lock.(prepared := Some(rebuilt)), rebuilt, PassNow(l, e))
  }

  /** The recovery of an attempted lock: the chain first, then a resend or a rebuild behind the guards. */
  function RecoveryDecides(policy: Policy, l: Latches, e: Env, a: LockAnswers): Decision
    requires l.offerA.Some? && l.pairing.Some? && l.lock.prepared.Some?
  {
    var saved := l.lock.prepared.value;
    if a.recovered == Landed then Records(e.rail, saved.ref)
    else if a.recovered == Pending then Halts(e.rail)
    else if a.recovered == NeverLanded then
      if a.found then Records(e.rail, saved.ref)
      else if !GuardsHold(policy, l, e) then Halts(e.rail)
      else RebuildDecides(l, e, e.rail, saved)
    else if !GuardsHold(policy, l, e) then Halts(e.rail)
    else ResendDecides(l, e, HandedOver(e.rail, saved, PassNow(l, e), e.nowMs), saved, a)
  }

  function ResendDecides(l: Latches, e: Env, rail: Rail, saved: Prepared, a: LockAnswers): Decision
    requires l.offerA.Some? && l.pairing.Some?
  {
    if a.resent == Landed || (a.resent == NeverLanded && a.foundAgain) then Records(rail, saved.ref)
    else if a.resent == NeverLanded then RebuildDecides(l, e, rail, saved)
    else Halts(rail)
  }

  /** The answers are ones the rail may give of itself as it stands. */
  predicate TruthfulLock(policy: Policy, l: Latches, e: Env, a: LockAnswers)
    requires l.offerA.Some? && l.pairing.Some? && l.lock.prepared.Some?
  {
    var saved := l.lock.prepared.value;
    && RailMayAnswer(e.rail, saved, a.recovered)
    && RailMayAnswer(HandedOver(e.rail, saved, PassNow(l, e), e.nowMs), saved, a.resent)
    && (a.found || a.foundAgain ==> HasRef(e.rail.landed, saved.ref))
  }

  predicate MayLock(i: Instance) {
    && i.lockPc.LockIdle? && i.latches.legBVerified && i.latches.offerA.Some? && i.latches.pairing.Some?
    && !i.latches.lock.neverLanded && (i.latches.lock.evidence.None? || i.latches.lock.hashLock.None?)
    && (i.latches.lock.attempted ==> i.latches.lock.prepared.Some? && i.latches.lock.hashLock.Some? && i.latches.lock.accounts.Some?)
  }

  /** The first segments: what a fresh lock does before its save. */
  function FirstActs(a: LockAnswers): seq<LockAction> {
    [StartLock, ReadGuardNote, PrepareFirst(a.accounts, a.marker)]
  }

  /** What the decision left to be done. */
  predicate Decides(r: Result, d: Decision, i: Instance, e: Env) {
    match d
    case Halts(rail) => Standing(r, i.latches, LockIdle, i, e, rail)
    case Records(rail, ref) => SaveDue(r, WithEvidence(i.latches, ref), SavingOutcome, i, e, rail)
    case Prepares(rail, lock, prepared, guard) => SaveDue(r, i.latches.(lock := lock), SavingPrepared(prepared, guard), i, e, rail)
  }

  function WithEvidence(l: Latches, ref: Ref): Latches {
    l.(lock := l.lock.(evidence := Some(ref)))
  }

  lemma FirstIsDecided(policy: Policy, i: Instance, e: Env, a: LockAnswers)
    requires Calm(i, e) && AllSaved(i) && MayLock(i) && !i.latches.lock.attempted
    ensures Decides(DoLocks(policy, i, e, FirstActs(a)), FirstDecides(policy, i.latches, e, a.accounts, a.marker), i, e)
  {
    hide Project;
    var r1 := DoLock(policy, i, e, StartLock);
    var r2 := DoLock(policy, r1.inst, r1.env, ReadGuardNote);
    var r3 := DoLock(policy, r2.inst, r2.env, PrepareFirst(a.accounts, a.marker));
    LocksOn(policy, i, e, StartLock, [ReadGuardNote, PrepareFirst(a.accounts, a.marker)]);
    LocksOn(policy, r1.inst, r1.env, ReadGuardNote, [PrepareFirst(a.accounts, a.marker)]);
    LocksOn(policy, r2.inst, r2.env, PrepareFirst(a.accounts, a.marker), []);
    assert [StartLock] + [ReadGuardNote, PrepareFirst(a.accounts, a.marker)] == FirstActs(a);
  }

  /** Past the first read of the chain, a recovery has ended, seen its lock, or waits for leg B's note behind the deadlines. */
  datatype Halfway = Over(d: Decision) | BeforeRebuild(guard: GuardPass) | BeforeResend(guard: GuardPass)

  function HalfwayTo(policy: Policy, l: Latches, e: Env, a: LockAnswers): Halfway
    requires l.offerA.Some? && l.pairing.Some? && l.lock.prepared.Some?
  {
    var (saved, safe) := (l.lock.prepared.value, policy(l.offerA.value, l.pairing.value.offerB, e.nowMs));
    var checked := GuardPass(e.nowMs, e.nowMs, l.offerA.value, l.pairing.value, NoNote);
    if a.recovered == Landed || (a.recovered == NeverLanded && a.found) then Over(Records(e.rail, saved.ref))
    else if a.recovered == Pending || !safe then Over(Halts(e.rail))
    else if a.recovered == NeverLanded then BeforeRebuild(checked) else BeforeResend(checked)
  }

  predicate AtHalfway(r: Result, h: Halfway, i: Instance, e: Env)
    requires i.latches.lock.prepared.Some?
  {
    match h
    case Over(d) => Decides(r, d, i, e)
    case BeforeRebuild(guard) => Standing(r, i.latches, Guarding(guard, FreshLock(i.latches.lock.prepared.value)), i, e, e.rail)
    case BeforeResend(guard) => Standing(r, i.latches, Guarding(guard, ResendSaved(i.latches.lock.prepared.value)), i, e, e.rail)
  }

  function ReadActs(a: LockAnswers): seq<LockAction> {
    [StartRecover, Recover(a.recovered), Reread(a.found)]
  }

  function AgainActs(a: LockAnswers): seq<LockAction> {
    [ReadGuardNote, Resend(a.resent), Reread(a.foundAgain), PrepareFresh]
  }

  lemma ChainIsRead(policy: Policy, i: Instance, e: Env, a: LockAnswers)
    requires Calm(i, e) && AllSaved(i) && MayLock(i) && i.latches.lock.attempted && TruthfulLock(policy, i.latches, e, a)
    ensures AtHalfway(DoLocks(policy, i, e, ReadActs(a)), HalfwayTo(policy, i.latches, e, a), i, e)
  {
    hide Project, HasRef;
    var r1 := DoLock(policy, i, e, StartRecover);
    var r2 := DoLock(policy, r1.inst, r1.env, Recover(a.recovered));
    var r3 := DoLock(policy, r2.inst, r2.env, Reread(a.found));
    LocksOn(policy, i, e, StartRecover, [Recover(a.recovered), Reread(a.found)]);
    LocksOn(policy, r1.inst, r1.env, Recover(a.recovered), [Reread(a.found)]);
    LocksOn(policy, r2.inst, r2.env, Reread(a.found), []);
    assert [StartRecover] + [Recover(a.recovered), Reread(a.found)] == ReadActs(a);
  }

  /** A decided call reaches none of the segments in between. */
  lemma DecidedStays(policy: Policy, r: Result, a: LockAnswers)
    requires r.inst.lockPc.LockIdle? || r.inst.lockPc.SavingOutcome? || r.inst.lockPc.SavingPrepared?
    ensures DoLocks(policy, r.inst, r.env, AgainActs(a)) == r
  {
    AgainIs(policy, r, a);
  }

  lemma AgainIs(policy: Policy, r: Result, a: LockAnswers)
    ensures var r1 := DoLock(policy, r.inst, r.env, ReadGuardNote);
            var r2 := DoLock(policy, r1.inst, r1.env, Resend(a.resent));
            var r3 := DoLock(policy, r2.inst, r2.env, Reread(a.foundAgain));
            DoLocks(policy, r.inst, r.env, AgainActs(a)) == DoLock(policy, r3.inst, r3.env, PrepareFresh)
  {
    hide DoLock;
    var r1 := DoLock(policy, r.inst, r.env, ReadGuardNote);
    var r2 := DoLock(policy, r1.inst, r1.env, Resend(a.resent));
    var r3 := DoLock(policy, r2.inst, r2.env, Reread(a.foundAgain));
    LocksOn(policy, r.inst, r.env, ReadGuardNote, [Resend(a.resent), Reread(a.foundAgain), PrepareFresh]);
    LocksOn(policy, r1.inst, r1.env, Resend(a.resent), [Reread(a.foundAgain), PrepareFresh]);
    LocksOn(policy, r2.inst, r2.env, Reread(a.foundAgain), [PrepareFresh]);
    LocksOn(policy, r3.inst, r3.env, PrepareFresh, []);
    assert [ReadGuardNote] + [Resend(a.resent), Reread(a.foundAgain), PrepareFresh] == AgainActs(a);
    assert [Resend(a.resent)] + [Reread(a.foundAgain), PrepareFresh] == [Resend(a.resent), Reread(a.foundAgain), PrepareFresh];
  }

  lemma RebuildIsDecided(policy: Policy, r: Result, i: Instance, e: Env, rail: Rail, saved: Prepared)
    requires i.latches.offerA.Some? && i.latches.pairing.Some? && rail.kind == e.rail.kind
    requires Standing(r, i.latches, BuyerSteps.Rebuilding(saved, PassNow(i.latches, e)), i, e, rail)
    ensures Decides(DoLock(policy, r.inst, r.env, PrepareFresh), RebuildDecides(i.latches, e, rail, saved), i, e)
  {
    hide Project;
    var d := RebuildDecides(i.latches, e, rail, saved);
    if d.Prepares? {
      ProjectsOver(i.latches.(lock := d.lock), i.latches, Body(i));
    }
  }

  lemma RebuildFollows(policy: Policy, r: Result, i: Instance, e: Env, guard: GuardPass, a: LockAnswers)
    requires MayLock(i) && i.latches.lock.prepared.Some? && guard == PassNow(i.latches, e).(note := NoNote)
    requires policy(guard.offerA, guard.pairing.offerB, e.nowMs)
    requires Standing(r, i.latches, Guarding(guard, FreshLock(i.latches.lock.prepared.value)), i, e, e.rail)
    ensures Decides(DoLocks(policy, r.inst, r.env, AgainActs(a)),
                    if GuardsHold(policy, i.latches, e) then RebuildDecides(i.latches, e, e.rail, i.latches.lock.prepared.value) else Halts(e.rail),
                    i, e)
  {
    hide Project, RebuildDecides, DoPrepareFresh;
    AgainIs(policy, r, a);
    var r1 := DoLock(policy, r.inst, r.env, ReadGuardNote);
    if GuardsHold(policy, i.latches, e) {
      RebuildIsDecided(policy, r1, i, e, e.rail, i.latches.lock.prepared.value);
    } else {
      DecidedStays(policy, r1, a);
      AgainIs(policy, r1, a);
    }
  }

  lemma ResendFollows(policy: Policy, r: Result, i: Instance, e: Env, guard: GuardPass, a: LockAnswers)
    requires MayLock(i) && i.latches.lock.attempted && TruthfulLock(policy, i.latches, e, a) && guard == PassNow(i.latches, e).(note := NoNote)
    requires policy(guard.offerA, guard.pairing.offerB, e.nowMs)
    requires Standing(r, i.latches, Guarding(guard, ResendSaved(i.latches.lock.prepared.value)), i, e, e.rail)
    ensures var rail := HandedOver(e.rail, i.latches.lock.prepared.value, PassNow(i.latches, e), e.nowMs);
            Decides(DoLocks(policy, r.inst, r.env, AgainActs(a)),
                    if GuardsHold(policy, i.latches, e) then ResendDecides(i.latches, e, rail, i.latches.lock.prepared.value, a) else Halts(e.rail),
                    i, e)
  {
    hide Project, RebuildDecides, DoPrepareFresh, HasRef;
    AgainIs(policy, r, a);
    var saved := i.latches.lock.prepared.value;
    var rail := HandedOver(e.rail, saved, PassNow(i.latches, e), e.nowMs);
    var r1 := DoLock(policy, r.inst, r.env, ReadGuardNote);
    if GuardsHold(policy, i.latches, e) {
      var r2 := DoLock(policy, r1.inst, r1.env, Resend(a.resent));
      var r3 := DoLock(policy, r2.inst, r2.env, Reread(a.foundAgain));
      ProjectsOver(WithEvidence(i.latches, saved.ref), i.latches, Body(i));
      if a.resent == NeverLanded && !a.foundAgain {
        RebuildIsDecided(policy, r3, i, e, rail, saved);
      } else {
        FreshStays(policy, r3);
      }
    } else {
      DecidedStays(policy, r1, a);
      AgainIs(policy, r1, a);
    }
  }

  lemma FreshStays(policy: Policy, r: Result)
    requires !r.inst.lockPc.Rebuilding?
    ensures DoLock(policy, r.inst, r.env, PrepareFresh) == r
  {
  }

  lemma NewLockIsDecided(policy: Policy, r: Result, i: Instance, e: Env, a: LockAnswers)
    requires MayLock(i) && i.latches.lock.attempted && TruthfulLock(policy, i.latches, e, a)
    requires AtHalfway(r, HalfwayTo(policy, i.latches, e, a), i, e)
    ensures Decides(DoLocks(policy, r.inst, r.env, AgainActs(a)), RecoveryDecides(policy, i.latches, e, a), i, e)
  {
    hide Standing, SaveDue, TruthfulLock, DoLocks, ResendDecides, RebuildDecides;
    match HalfwayTo(policy, i.latches, e, a)
    case Over(d) =>
      DecidedIs(r, d, i, e);
      DecidedStays(policy, r, a);
    case BeforeRebuild(guard) => RebuildFollows(policy, r, i, e, guard, a);
    case BeforeResend(guard) => ResendFollows(policy, r, i, e, guard, a);
  }

  lemma DecidedIs(r: Result, d: Decision, i: Instance, e: Env)
    requires Decides(r, d, i, e)
    ensures r.inst.lockPc.LockIdle? || r.inst.lockPc.SavingOutcome? || r.inst.lockPc.SavingPrepared?
  {
  }

  // --- what is sent, and what is saved of it -----------------------------------------------------------------------------------

  /** The chain takes this lock now. */
  predicate LandsNow(rail: Rail, lock: Sent, nowMs: nat) {
    && lock.tx !in rail.dead && nowMs < lock.refundAfterMs
    && forall s :: s in rail.landed ==> s.tx != lock.tx && s.ref != lock.ref
  }

  /** Where a prepared lock ends: not sent, sent and unheard of, timed out with its hash, or with its evidence. */
  function SendComesTo(l: Latches, rail: Rail, prepared: Prepared, guard: GuardPass, nowMs: nat, outcome: SendOutcome): (Latches, Rail) {
    var sent := Sent(prepared.tx, prepared.ref, guard.offerA.refundAfterMs, guard, nowMs);
    var handed := rail.(sent := rail.sent + {sent});
    if outcome == NothingSent then (l, rail)
    else if outcome.TimedOut? then (l.(lock := l.lock.(prepared := Some(prepared.(timedOutHash := Some(outcome.hash))))), handed)
    else if outcome == ReplyLost then (l, handed)
    else if rail.kind != Escrow then (WithEvidence(l, prepared.ref), handed)
    else if LandsNow(rail, sent, nowMs) then (WithEvidence(l, prepared.ref), handed.(landed := rail.landed + {sent}))
    else (l, handed)
  }

  /** Where a decided call ends. */
  function DecisionComesTo(d: Decision, l: Latches, nowMs: nat, outcome: SendOutcome): (Latches, Rail) {
    match d
    case Halts(rail) => (l, rail)
    case Records(rail, ref) => (WithEvidence(l, ref), rail)
    case Prepares(rail, lock, prepared, guard) => SendComesTo(l.(lock := lock), rail, prepared, guard, nowMs, outcome)
  }

  function FinalActs(a: LockAnswers): seq<LockAction> {
    [SaveLock(NoFault), Send(a.sent), SaveLock(NoFault)]
  }

  lemma FinalIs(policy: Policy, r: Result, a: LockAnswers)
    ensures var r1 := DoLock(policy, r.inst, r.env, SaveLock(NoFault));
            var r2 := DoLock(policy, r1.inst, r1.env, Send(a.sent));
            DoLocks(policy, r.inst, r.env, FinalActs(a)) == DoLock(policy, r2.inst, r2.env, SaveLock(NoFault))
  {
    hide DoLock;
    var r1 := DoLock(policy, r.inst, r.env, SaveLock(NoFault));
    var r2 := DoLock(policy, r1.inst, r1.env, Send(a.sent));
    LocksOn(policy, r.inst, r.env, SaveLock(NoFault), [Send(a.sent), SaveLock(NoFault)]);
    LocksOn(policy, r1.inst, r1.env, Send(a.sent), [SaveLock(NoFault)]);
    LocksOn(policy, r2.inst, r2.env, SaveLock(NoFault), []);
    assert [SaveLock(NoFault)] + [Send(a.sent), SaveLock(NoFault)] == FinalActs(a);
  }

  /** The guards behind a prepared lock were read at this very moment. */
  predicate Fresh(policy: Policy, l: Latches, guard: GuardPass, prepared: Prepared, e: Env) {
    policy(guard.offerA, guard.pairing.offerB, e.nowMs) && l.lock.attempted && l.lock.prepared == Some(prepared)
  }

  lemma LockIsSent(policy: Policy, r: Result, l: Latches, i: Instance, e: Env, rail: Rail, prepared: Prepared, guard: GuardPass, outcome: SendOutcome)
    requires Standing(r, l, BuyerSteps.Sending(prepared, guard), i, e, rail) && rail.kind == e.rail.kind
    requires Fresh(policy, l, guard, prepared, e) && Writable(SendComesTo(l, rail, prepared, guard, e.nowMs, outcome).0)
    ensures var r1 := DoLock(policy, r.inst, r.env, Send(outcome));
            var (l', rail') := SendComesTo(l, rail, prepared, guard, e.nowMs, outcome);
            Standing(DoLock(policy, r1.inst, r1.env, SaveLock(NoFault)), l', LockIdle, i, e, rail')
  {
    hide Project, Save, DoSaveLock, Writable, LandsNow, MayLand;
    var (l', rail') := SendComesTo(l, rail, prepared, guard, e.nowMs, outcome);
    var r1 := DoLock(policy, r.inst, r.env, Send(outcome));
    ProjectsOver(l', l, Body(i));
    LandsIsMayLand(r.env, prepared, guard);
    if r1.inst.lockPc.SavingOutcome? {
      LockSaveGoesThrough(policy, r1, l', SavingOutcome, i, e, rail');
    } else {
      NothingToSaveThere(policy, r1);
    }
  }

  lemma LandsIsMayLand(e: Env, prepared: Prepared, guard: GuardPass)
    ensures var lock := Sent(prepared.tx, prepared.ref, guard.offerA.refundAfterMs, guard, e.nowMs);
            e.rail.kind == Escrow ==> (MayLand(Handed(e, prepared, guard), lock) <==> LandsNow(e.rail, lock, e.nowMs))
  {
  }

  predicate Ready(policy: Policy, d: Decision, l: Latches, e: Env) {
    match d
    case Halts(rail) => true
    case Records(rail, _) => true
    case Prepares(rail, lock, prepared, guard) => rail.kind == e.rail.kind && Fresh(policy, l.(lock := lock), guard, prepared, e)
  }

  lemma SendKeepsWritable(l: Latches, rail: Rail, prepared: Prepared, guard: GuardPass, nowMs: nat, outcome: SendOutcome)
    requires Writable(l) && l.lock.attempted && !l.lock.neverLanded
    ensures Writable(SendComesTo(l, rail, prepared, guard, nowMs, outcome).0)
  {
    hide LandsNow;
  }

  lemma DecisionIsCarriedOut(policy: Policy, r: Result, d: Decision, i: Instance, e: Env, a: LockAnswers)
    requires Decides(r, d, i, e) && Ready(policy, d, i.latches, e)
    requires Writable(i.latches) && !i.latches.lock.neverLanded
    requires d.Records? ==> i.latches.lock.attempted
    requires d.Prepares? ==> Writable(i.latches.(lock := d.lock)) && !d.lock.neverLanded
    ensures var (l', rail') := DecisionComesTo(d, i.latches, e.nowMs, a.sent);
            Standing(DoLocks(policy, r.inst, r.env, FinalActs(a)), l', LockIdle, i, e, rail')
  {
    hide Project, Save, DoSaveLock, Writable, SendComesTo, Fresh;
    FinalIs(policy, r, a);
    var r1 := DoLock(policy, r.inst, r.env, SaveLock(NoFault));
    match d
    case Halts(rail) =>
      NothingToSaveThere(policy, r);
      NothingToSend(policy, r, a);
    case Records(rail, ref) =>
      EvidenceIsWritable(i.latches, ref);
      LockSaveGoesThrough(policy, r, WithEvidence(i.latches, ref), SavingOutcome, i, e, rail);
      NothingToSend(policy, r1, a);
      NothingToSaveThere(policy, r1);
    case Prepares(rail, lock, prepared, guard) =>
      var l := i.latches.(lock := lock);
      LockSaveGoesThrough(policy, r, l, SavingPrepared(prepared, guard), i, e, rail);
      FreshIsAttempted(policy, l, guard, prepared, e);
      SendKeepsWritable(l, rail, prepared, guard, e.nowMs, a.sent);
      LockIsSent(policy, r1, l, i, e, rail, prepared, guard, a.sent);
  }

  lemma FreshIsAttempted(policy: Policy, l: Latches, guard: GuardPass, prepared: Prepared, e: Env)
    requires Fresh(policy, l, guard, prepared, e)
    ensures l.lock.attempted
  {
  }

  lemma EvidenceIsWritable(l: Latches, ref: Ref)
    requires Writable(l) && l.lock.attempted && !l.lock.neverLanded
    ensures Writable(WithEvidence(l, ref))
  {
  }

  lemma NothingToSend(policy: Policy, r: Result, a: LockAnswers)
    requires !r.inst.lockPc.Sending?
    ensures DoLock(policy, r.inst, r.env, Send(a.sent)) == r
  {
  }

  // --- the whole call ----------------------------------------------------------------------------------------------------------------

  /** What a `lockLegA` nothing disturbs decides. */
  function LockDecides(policy: Policy, l: Latches, e: Env, a: LockAnswers): Decision
    requires l.offerA.Some? && l.pairing.Some? && (l.lock.attempted ==> l.lock.prepared.Some?)
  {
    if l.lock.attempted then RecoveryDecides(policy, l, e, a) else FirstDecides(policy, l, e, a.accounts, a.marker)
  }

  lemma DecisionIsReady(policy: Policy, i: Instance, e: Env, a: LockAnswers)
    requires MayLock(i) && Writable(i.latches)
    ensures var d := LockDecides(policy, i.latches, e, a);
            && Ready(policy, d, i.latches, e) && (d.Records? ==> i.latches.lock.attempted)
            && (d.Prepares? ==> Writable(i.latches.(lock := d.lock)) && !d.lock.neverLanded)
  {
  }

  lemma LockStepsAreThese(a: LockAnswers)
    requires a.firstSave == NoFault && a.lastSave == NoFault
    ensures LockSteps(a) == FirstActs(a) + (ReadActs(a) + (AgainActs(a) + FinalActs(a)))
  {
  }

  lemma FirstStays(policy: Policy, i: Instance, e: Env, a: LockAnswers)
    requires i.lockPc.LockIdle? && i.latches.lock.attempted
    ensures DoLocks(policy, i, e, FirstActs(a)) == Result(i, e)
  {
    LocksOn(policy, i, e, StartLock, [ReadGuardNote, PrepareFirst(a.accounts, a.marker)]);
    LocksOn(policy, i, e, ReadGuardNote, [PrepareFirst(a.accounts, a.marker)]);
    LocksOn(policy, i, e, PrepareFirst(a.accounts, a.marker), []);
    assert [StartLock] + [ReadGuardNote, PrepareFirst(a.accounts, a.marker)] == FirstActs(a);
  }

  lemma ReadsStay(policy: Policy, r: Result, a: LockAnswers)
    requires (r.inst.lockPc.LockIdle? && !r.inst.latches.lock.attempted) || r.inst.lockPc.SavingPrepared?
    ensures DoLocks(policy, r.inst, r.env, ReadActs(a)) == r
  {
    LocksOn(policy, r.inst, r.env, StartRecover, [Recover(a.recovered), Reread(a.found)]);
    LocksOn(policy, r.inst, r.env, Recover(a.recovered), [Reread(a.found)]);
    LocksOn(policy, r.inst, r.env, Reread(a.found), []);
    assert [StartRecover] + [Recover(a.recovered), Reread(a.found)] == ReadActs(a);
  }

  lemma LockIsDecided(policy: Policy, i: Instance, e: Env, a: LockAnswers)
    requires Calm(i, e) && AllSaved(i) && MayLock(i)
    requires i.latches.lock.attempted ==> TruthfulLock(policy, i.latches, e, a)
    ensures var r1 := DoLocks(policy, i, e, FirstActs(a));
            var r2 := DoLocks(policy, r1.inst, r1.env, ReadActs(a));
            Decides(DoLocks(policy, r2.inst, r2.env, AgainActs(a)), LockDecides(policy, i.latches, e, a), i, e)
  {
    hide DoLocks, TruthfulLock, Calm, AllSaved, FirstDecides, RecoveryDecides, Standing, SaveDue, HalfwayTo;
    var r1 := DoLocks(policy, i, e, FirstActs(a));
    if i.latches.lock.attempted {
      FirstStays(policy, i, e, a);
      ChainIsRead(policy, i, e, a);
      NewLockIsDecided(policy, DoLocks(policy, i, e, ReadActs(a)), i, e, a);
    } else {
      FirstIsDecided(policy, i, e, a);
      FirstEnds(policy, r1, i, e, a);
      ReadsStay(policy, r1, a);
      DecidedStays(policy, r1, a);
    }
  }

  lemma FirstEnds(policy: Policy, r: Result, i: Instance, e: Env, a: LockAnswers)
    requires MayLock(i) && !i.latches.lock.attempted && Decides(r, FirstDecides(policy, i.latches, e, a.accounts, a.marker), i, e)
    ensures (r.inst.lockPc.LockIdle? && !r.inst.latches.lock.attempted) || r.inst.lockPc.SavingPrepared?
  {
  }

  /**
   * A `lockLegA` nothing disturbs ends with its outcome in the store and on the chain: a first lock, a recovered one, the
   * identical bytes sent again, or one rebuilt under the saved ref; and it does nothing where its guards do not hold.
   */
  lemma CalmLock(policy: Policy, i: Instance, e: Env, a: LockAnswers)
    requires Calm(i, e) && AllSaved(i) && MayLock(i) && Writable(i.latches) && a.firstSave == NoFault && a.lastSave == NoFault
    requires i.latches.lock.attempted ==> TruthfulLock(policy, i.latches, e, a)
    ensures var (l, rail) := DecisionComesTo(LockDecides(policy, i.latches, e, a), i.latches, e.nowMs, a.sent);
            Standing(DoLocks(policy, i, e, LockSteps(a)), l, LockIdle, i, e, rail)
  {
    hide DoLocks, TruthfulLock, Calm, AllSaved, LockDecides, Decides, Standing, SaveDue, Writable, DecisionComesTo, Ready, LockSteps;
    LockStepsAreThese(a);
    var r1 := DoLocks(policy, i, e, FirstActs(a));
    var r2 := DoLocks(policy, r1.inst, r1.env, ReadActs(a));
    var r3 := DoLocks(policy, r2.inst, r2.env, AgainActs(a));
    LockIsDecided(policy, i, e, a);
    DecisionIsReady(policy, i, e, a);
    DecisionIsCarriedOut(policy, r3, LockDecides(policy, i.latches, e, a), i, e, a);
    TwoLocks(policy, i, e, FirstActs(a), ReadActs(a) + (AgainActs(a) + FinalActs(a)));
    TwoLocks(policy, r1.inst, r1.env, ReadActs(a), AgainActs(a) + FinalActs(a));
    TwoLocks(policy, r2.inst, r2.env, AgainActs(a), FinalActs(a));
  }
}
