/**
 * Concrete runs of one swap on the escrow: what the theorems of `BuyerResults` and `BuyerRefunds` leave open does happen, and
 * the conditions they name are needed.
 */
module BuyerExamples {
  import opened Options
  import opened Journal
  import opened BuyerState
  import opened BuyerSteps
  import opened BuyerLocks
  import opened BuyerOutcomes
  import opened BuyerResults
  import BuyerRefunds

  // --- the swap ------------------------------------------------------------------------------------------------------------

  const OFFER_A := Offer(10, 20, 5)

  const OFFER_B := Offer(40, 50, 30)

  const SECRET := Secret(7)

  const PAIRING := Pairing(OFFER_B, HashOf(SECRET))

  const NOTE := NoteLocked(HashOf(SECRET), 50)

  /** The escrow under a policy that accepts every lock before leg A's refund time. */
  function Desk(many: bool): Config {
    Config(Escrow, (offerA: Offer, offerB: Offer, atMs: nat) => atMs < offerA.refundAfterMs, many)
  }

  lemma DeskIsInTime(many: bool)
    ensures InTime(Desk(many).policy)
  {
  }

  // --- what one instance shows ---------------------------------------------------------------------------------------------

  /** One live flow that holds the stored version, and the world around it. */
  datatype Snap = Snap(l: Latches, r: Record, lockPc: LockPc, settlePc: SettlePc, nowMs: nat, note: PaperNote, rail: Rail)

  predicate Healthy(i: Instance, e: Env) {
    !i.journal.failed && i.journal.digest == Some(i.journal.current) && e.store.held == Some(i.journal.current)
  }

  predicate Looks(i: Instance, e: Env, x: Snap) {
    && Healthy(i, e) && i.latches == x.l && Body(i) == x.r && i.lockPc == x.lockPc && i.settlePc == x.settlePc
    && e.nowMs == x.nowMs && e.note == x.note && e.rail == x.rail && e.refundCalls == []
  }

  predicate Shows(s: System, id: nat, x: Snap) {
    id in s.live && Looks(s.live[id], s.env, x)
  }

  /** Every other instance is as it was. */
  predicate Elsewhere(s: System, s': System, id: nat) {
    s'.live.Keys == s.live.Keys && forall other :: other in s.live && other != id ==> s'.live[other] == s.live[other]
  }

  /** One event of a run. */
  lemma Went(config: Config, run: seq<Event>, k: nat)
    requires k < |run|
    ensures After(config, run[..k + 1]) == Step(config, After(config, run[..k]), run[k])
  {
    assert run[..k + 1][..k] == run[..k];
  }

  /** One action of one instance. */
  lemma Acted(config: Config, run: seq<Event>, k: nat, id: nat, action: Action, x: Snap, x': Snap)
    requires k < |run| && run[k] == Act(id, action) && Shows(After(config, run[..k]), id, x)
    requires var s := After(config, run[..k]);
             var r := DoAct(config.policy, s.live[id], s.env, action);
             Looks(r.inst, r.env, x')
    ensures Shows(After(config, run[..k + 1]), id, x')
    ensures Elsewhere(After(config, run[..k]), After(config, run[..k + 1]), id)
  {
    hide DoAct, Looks;
    Went(config, run, k);
  }

  /** A save with no fault by a healthy flow whose record encodes. */
  lemma Saved(i: Instance, e: Env, body: Record)
    requires Healthy(i, e) && Encodable(Project(i.latches, body))
    ensures var w := Save(i, e, body, NoFault);
            w.answer.Resolved? && Healthy(i.(journal := w.journal), e.(store := w.store)) && w.journal.current.body == Project(i.latches, body)
  {
  }

  /** After a save the flow goes on to its next control point. */
  lemma SavedLock(config: Config, run: seq<Event>, k: nat, id: nat, x: Snap)
    requires k < |run| && run[k] == Act(id, OnLock(SaveLock(NoFault))) && Shows(After(config, run[..k]), id, x)
    requires (x.lockPc.SavingPrepared? || x.lockPc.SavingOutcome?) && Encodable(Project(x.l, x.r))
    ensures Shows(After(config, run[..k + 1]), id,
                  x.(r := Project(x.l, x.r),
                     lockPc := if x.lockPc.SavingPrepared? then Sending(x.lockPc.prepared, x.lockPc.guard) else LockIdle))
    ensures Elsewhere(After(config, run[..k]), After(config, run[..k + 1]), id)
  {
    hide After, Save, Encodable, Project;
    var s := After(config, run[..k]);
    Saved(s.live[id], s.env, x.r);
    SaveLockShape(s.live[id], s.env, NoFault);
    Acted(config, run, k, id, OnLock(SaveLock(NoFault)), x,
          x.(r := Project(x.l, x.r), lockPc := if x.lockPc.SavingPrepared? then Sending(x.lockPc.prepared, x.lockPc.guard) else LockIdle));
  }

  lemma SavedSettle(config: Config, run: seq<Event>, k: nat, id: nat, x: Snap)
    requires k < |run| && run[k] == Act(id, OnSettle(SaveSettle(NoFault))) && Shows(After(config, run[..k]), id, x)
    requires x.settlePc.Saving? && Encodable(Project(x.l, x.r))
    ensures Shows(After(config, run[..k + 1]), id, x.(r := Project(x.l, x.r), settlePc := x.settlePc.then_))
    ensures Elsewhere(After(config, run[..k]), After(config, run[..k + 1]), id)
  {
    hide After, Save, Encodable, Project;
    var s := After(config, run[..k]);
    Saved(s.live[id], s.env, x.r);
    SaveSettleShape(s.live[id], s.env, NoFault);
    Acted(config, run, k, id, OnSettle(SaveSettle(NoFault)), x, x.(r := Project(x.l, x.r), settlePc := x.settlePc.then_));
  }

  /** A line whose own checks pass lands. */
  lemma SavedLine(config: Config, run: seq<Event>, k: nat, action: LineAction, x: Snap, body: Record)
    requires k < |run| && run[k] == Act(0, OnLine(action)) && action.fault == NoFault && Shows(After(config, run[..k]), 0, x)
    requires var s := After(config, run[..k]);
             LineReady(config.policy, s.live[0], s.env, action) && LineBody(s.live[0], action) == body
    requires Encodable(Project(LatchedBefore(x.l, action), body))
    ensures Shows(After(config, run[..k + 1]), 0,
                  x.(l := LatchedAfter(LatchedBefore(x.l, action), x.r, action), r := Project(LatchedBefore(x.l, action), body)))
    ensures Elsewhere(After(config, run[..k]), After(config, run[..k + 1]), 0)
  {
    hide After, Save, Encodable, Project, LineReady, LineBody;
    var s := After(config, run[..k]);
    Saved(LineFlow(s.live[0], action), s.env, body);
    LineShape(config.policy, s.live[0], s.env, action);
    Acted(config, run, k, 0, OnLine(action), x,
          x.(l := LatchedAfter(LatchedBefore(x.l, action), x.r, action), r := Project(LatchedBefore(x.l, action), body)));
  }

  /** The clock moves on. */
  lemma Ticked(config: Config, run: seq<Event>, k: nat, id: nat, x: Snap)
    requires k < |run| && run[k].Outside? && run[k].event.Tick? && x.nowMs <= run[k].event.toMs && Shows(After(config, run[..k]), id, x)
    ensures Shows(After(config, run[..k + 1]), id, x.(nowMs := run[k].event.toMs))
    ensures After(config, run[..k + 1]).live == After(config, run[..k]).live
  {
    Went(config, run, k);
  }

  // --- a paired flow ---------------------------------------------------------------------------------------------------

  const RAIL := Rail(Escrow, 0, {}, {}, {}, false, false)

  /** A new flow, its offer posted and a pairing saved. */
  function Fresh(): Snap {
    Snap(FreshLatches, NewRecord(OFFER_A), LockIdle, SettleIdle, 0, NoNote, RAIL)
  }

  function OfferPosted(): Snap {
    Fresh().(l := Fresh().l.(offerA := Some(OFFER_A)), r := Fresh().r.(landed := {OfferA}))
  }

  function PairedUp(): Snap {
    OfferPosted().(r := OfferPosted().r.(pairing := Some(PAIRING)))
  }

  /** A new flow up to accept B, landed with the venue's stamp. */
  function AcceptRun(stampMs: nat): seq<Event> {
    [Begin(0, OFFER_A, NoFault), Act(0, OnLine(OfferLands(NoFault))), Act(0, OnLine(SavePairing(PAIRING, 0, NoFault))),
     Act(0, OnLine(AcceptLands(stampMs, NoFault)))]
  }

  function Accepted(stampMs: nat): Snap {
    PairedUp().(l := if stampMs < 30 then PairedUp().l.(pairing := Some(PAIRING), acceptBStampMs := Some(stampMs)) else PairedUp().l,
            r := PairedUp().r.(landed := {OfferA, AcceptB}, acceptBStampMs := Some(stampMs)))
  }

  lemma NewShown(many: bool, run: seq<Event>)
    requires |run| > 0 && run[0] == Begin(0, OFFER_A, NoFault)
    ensures Shows(After(Desk(many), run[..1]), 0, Fresh()) && After(Desk(many), run[..1]).live.Keys == {0}
  {
    Went(Desk(many), run, 0);
    assert Project(FreshLatches, Fresh().r) == Fresh().r;
  }

  lemma OfferedShown(many: bool, run: seq<Event>)
    requires |run| > 1 && run[1] == Act(0, OnLine(OfferLands(NoFault))) && Shows(After(Desk(many), run[..1]), 0, Fresh())
    ensures Shows(After(Desk(many), run[..2]), 0, OfferPosted())
    ensures Elsewhere(After(Desk(many), run[..1]), After(Desk(many), run[..2]), 0)
  {
    assert Project(Fresh().l, OfferPosted().r) == OfferPosted().r && {} + {OfferA} == {OfferA};
    SavedLine(Desk(many), run, 1, OfferLands(NoFault), Fresh(), OfferPosted().r);
  }

  lemma PairedShown(many: bool, run: seq<Event>)
    requires |run| > 2 && run[2] == Act(0, OnLine(SavePairing(PAIRING, 0, NoFault))) && Shows(After(Desk(many), run[..2]), 0, OfferPosted())
    ensures Shows(After(Desk(many), run[..3]), 0, PairedUp())
    ensures Elsewhere(After(Desk(many), run[..2]), After(Desk(many), run[..3]), 0)
  {
    assert Project(OfferPosted().l, PairedUp().r) == PairedUp().r;
    SavedLine(Desk(many), run, 2, SavePairing(PAIRING, 0, NoFault), OfferPosted(), PairedUp().r);
  }

  lemma AcceptedShown(many: bool, run: seq<Event>, stampMs: nat)
    requires |run| > 3 && run[3] == Act(0, OnLine(AcceptLands(stampMs, NoFault))) && Shows(After(Desk(many), run[..3]), 0, PairedUp())
    ensures Shows(After(Desk(many), run[..4]), 0, Accepted(stampMs))
    ensures Elsewhere(After(Desk(many), run[..3]), After(Desk(many), run[..4]), 0)
  {
    var r := Accepted(stampMs).r;
    assert {OfferA} + {AcceptB} == {OfferA, AcceptB} && Project(PairedUp().l, r) == r;
    SavedLine(Desk(many), run, 3, AcceptLands(stampMs, NoFault), PairedUp(), r);
  }

  lemma AcceptRunShown(many: bool, run: seq<Event>, stampMs: nat)
    requires AcceptRun(stampMs) <= run
    ensures Shows(After(Desk(many), run[..4]), 0, Accepted(stampMs)) && After(Desk(many), run[..4]).live.Keys == {0}
  {
    NewShown(many, run);
    OfferedShown(many, run);
    PairedShown(many, run);
    AcceptedShown(many, run, stampMs);
  }

  /**
   * The one exception of `ResumedFlowNamesTheSameStep` is reached: accept B stamped when leg B's offer had expired. The live
   * flow goes on to verify leg B; its resumed self calls the swap abandoned.
   */
  lemma LateAcceptNamesAnotherStep(many: bool, nowMs: nat)
    ensures 0 in After(Desk(many), AcceptRun(30)).live
    ensures var s := After(Desk(many), AcceptRun(30));
            var i := s.live[0];
            && s.env.store.held == Some(i.journal.current) && Project(i.latches, Body(i)) == Body(i)
            && AcceptB in Body(i).landed && i.latches.pairing.None?
            && Next(i.latches, Body(i), nowMs) == VerifyLegBLocked
            && Rebuild(Body(i)).Flow? && Next(Rebuild(Body(i)).latches, Body(i), nowMs) == Abandoned
    ensures var s := After(Desk(many), AcceptRun(30) + [Crash(0), Resume(0)]);
            0 in s.live && Next(s.live[0].latches, Body(s.live[0]), nowMs) != VerifyLegBLocked
  {
    AcceptRunShown(many, AcceptRun(30), 30);
    assert AcceptRun(30)[..4] == AcceptRun(30);
    ResumedFlowNamesTheSameStep(Desk(many), AcceptRun(30), 0, nowMs);
  }

  // --- a claim before leg B was verified -----------------------------------------------------------------------------------

  function ClaimNoted(): Snap {
    Accepted(1).(note := NOTE)
  }

  function EarlyBegun(): Snap {
    ClaimNoted().(l := ClaimNoted().l.(claim := ClaimState(true, false, false)), settlePc := Saving(ClaimingNote(SECRET)))
  }

  function EarlyAtNote(): Snap {
    EarlyBegun().(r := EarlyBegun().r.(claim := ClaimState(true, false, false)), settlePc := ClaimingNote(SECRET))
  }

  function EarlyMade(): Snap {
    EarlyAtNote().(l := EarlyAtNote().l.(claim := ClaimState(true, true, false)), settlePc := Saving(SettleIdle),
                   note := NoteClaimed(HashOf(SECRET), SECRET))
  }

  function EarlyClaimed(): Snap {
    EarlyMade().(r := EarlyMade().r.(claim := ClaimState(true, true, false)), settlePc := SettleIdle)
  }

  function EarlyRevealed(): Snap {
    EarlyClaimed().(r := EarlyClaimed().r.(landed := {OfferA, AcceptB, RevealB}))
  }

  function EarlyReceived(): Snap {
    EarlyClaimed().(r := EarlyClaimed().r.(landed := {OfferA, AcceptB, RevealB, ReceiptB}))
  }

  /** Leg B's note stands locked and the flow claims it, with the lines, never having verified leg B. */
  function EarlyClaimRun(): seq<Event> {
    AcceptRun(1)
    + [Outside(NoteBecomes(NOTE)), Act(0, OnSettle(StartClaim(SECRET))), Act(0, OnSettle(SaveSettle(NoFault))),
       Act(0, OnSettle(CallNote(NoteReturned))), Act(0, OnSettle(SaveSettle(NoFault))), Act(0, OnLine(LineLands(RevealB, NoFault))),
       Act(0, OnLine(LineLands(ReceiptB, NoFault)))]
  }

  lemma EarlyBegunShown(many: bool, run: seq<Event>)
    requires |run| > 5 && run[5] == ClaimActs(0)[0] && Shows(After(Desk(many), run[..5]), 0, ClaimNoted())
    ensures Shows(After(Desk(many), run[..6]), 0, EarlyBegun())
  {
    Acted(Desk(many), run, 5, 0, OnSettle(StartClaim(SECRET)), ClaimNoted(), EarlyBegun());
  }

  lemma EarlyMadeShown(many: bool, run: seq<Event>)
    requires |run| > 7 && run[7] == ClaimActs(0)[2] && Shows(After(Desk(many), run[..7]), 0, EarlyAtNote())
    ensures Shows(After(Desk(many), run[..8]), 0, EarlyMade())
  {
    Acted(Desk(many), run, 7, 0, OnSettle(CallNote(NoteReturned)), EarlyAtNote(), EarlyMade());
  }

  lemma EarlySaves()
    ensures Project(EarlyBegun().l, EarlyBegun().r) == EarlyAtNote().r && Encodable(EarlyAtNote().r)
    ensures Project(EarlyMade().l, EarlyMade().r) == EarlyClaimed().r && Encodable(EarlyClaimed().r)
    ensures Project(EarlyClaimed().l, EarlyRevealed().r) == EarlyRevealed().r && Encodable(EarlyRevealed().r)
    ensures Project(EarlyRevealed().l, EarlyReceived().r) == EarlyReceived().r && Encodable(EarlyReceived().r)
  {
  }

  lemma EarlyClaimShown(many: bool, run: seq<Event>)
    requires run == EarlyClaimRun() && Shows(After(Desk(many), run[..5]), 0, ClaimNoted())
    ensures Shows(After(Desk(many), run[..9]), 0, EarlyClaimed())
  {
    hide After, Shows, Encodable, Project;
    EarlySaves();
    EarlyBegunShown(many, run);
    SavedSettle(Desk(many), run, 6, 0, EarlyBegun());
    EarlyMadeShown(many, run);
    SavedSettle(Desk(many), run, 8, 0, EarlyMade());
  }

  lemma EarlyLinesShown(many: bool, run: seq<Event>)
    requires run == EarlyClaimRun() && Shows(After(Desk(many), run[..9]), 0, EarlyClaimed())
    ensures Shows(After(Desk(many), run[..11]), 0, EarlyReceived())
  {
    hide After, Encodable, Project;
    assert {OfferA, AcceptB} + {RevealB} == {OfferA, AcceptB, RevealB};
    assert {OfferA, AcceptB, RevealB} + {ReceiptB} == {OfferA, AcceptB, RevealB, ReceiptB};
    EarlySaves();
    SavedLine(Desk(many), run, 9, LineLands(RevealB, NoFault), EarlyClaimed(), EarlyRevealed().r);
    SavedLine(Desk(many), run, 10, LineLands(ReceiptB, NoFault), EarlyRevealed(), EarlyReceived().r);
  }

  lemma ReceivedIsUnverified(nowMs: nat)
    ensures var r := EarlyReceived().r;
            && ClaimFinished(r) && r.claim.claimed && Rebuild(r).Flow? && Next(Rebuild(r).latches, r, nowMs) == VerifyLegBLocked
  {
  }

  lemma EarlyClaimRunShown(many: bool)
    ensures Shows(After(Desk(many), EarlyClaimRun()), 0, EarlyReceived())
  {
    hide After, Shows;
    var run := EarlyClaimRun();
    assert run[..4] == AcceptRun(1) && run[..11] == run;
    AcceptRunShown(many, run, 1);
    NoteShown(many, run);
    EarlyClaimShown(many, run);
    EarlyLinesShown(many, run);
  }

  /**
   * The condition `NextIsExactly` puts on a finished claim is needed: a flow that claimed leg B and posted its receipt without
   * ever having verified leg B is told to verify it, at any time.
   */
  lemma AFinishedClaimIsNotAlwaysDone(many: bool, nowMs: nat)
    ensures var e := After(Desk(many), EarlyClaimRun()).env;
            && e.store.held.Some? && ClaimFinished(e.store.held.value.body) && e.store.held.value.body.claim.claimed
            && Rebuild(e.store.held.value.body).Flow?
            && Next(Rebuild(e.store.held.value.body).latches, e.store.held.value.body, nowMs) == VerifyLegBLocked
  {
    hide After, EarlyClaimRun, EarlyReceived, Next, Rebuild;
    EarlyClaimRunShown(many);
    ReceivedIsUnverified(nowMs);
  }

  // --- a lock about to be sent -----------------------------------------------------------------------------------------

  function VerifiedLegB(): Snap {
    Accepted(1).(l := Accepted(1).l.(legBVerified := true), r := Accepted(1).r.(legBVerified := true), note := NOTE)
  }

  const LOCK := Prepared(OfHashLock(HashOf(SECRET)), 0, None)

  const CHECKED := GuardPass(0, 0, OFFER_A, PAIRING, NoNote)

  const GUARD := GuardPass(0, 0, OFFER_A, PAIRING, NOTE)

  const ATTEMPTED := LockLatches(true, Some(LOCK), Some(LOCK.ref), Some(0), Some(0), Some(HashOf(SECRET)), None, false, false)

  function AtItsGuards(): Snap {
    VerifiedLegB().(lockPc := Guarding(CHECKED, FirstLock))
  }

  function Guarded(): Snap {
    VerifiedLegB().(lockPc := Preparing(GUARD))
  }

  function LockStarted(): Snap {
    VerifiedLegB().(l := VerifiedLegB().l.(lock := ATTEMPTED), lockPc := SavingPrepared(LOCK, GUARD), rail := RAIL.(issued := 1))
  }

  function ReadyToSend(): Snap {
    LockStarted().(r := Project(LockStarted().l, LockStarted().r), lockPc := Sending(LOCK, GUARD))
  }

  /** A new flow up to a verified leg B. */
  function VerifyRun(): seq<Event> {
    AcceptRun(1) + [Outside(NoteBecomes(NOTE)), Act(0, OnLine(VerifyLegB(NoFault)))]
  }

  /** A first lock, up to its save. */
  function LockActs(): seq<Event> {
    [Act(0, OnLock(StartLock)), Act(0, OnLock(ReadGuardNote)), Act(0, OnLock(PrepareFirst(0, 0))), Act(0, OnLock(SaveLock(NoFault)))]
  }

  /** The events of a run from its k-th on. */
  predicate Goes(run: seq<Event>, k: nat, events: seq<Event>) {
    k + |events| <= |run| && forall j :: 0 <= j < |events| ==> run[k + j] == events[j]
  }

  lemma NoteShown(many: bool, run: seq<Event>)
    requires |run| > 4 && run[4] == Outside(NoteBecomes(NOTE)) && Shows(After(Desk(many), run[..4]), 0, Accepted(1))
    ensures Shows(After(Desk(many), run[..5]), 0, Accepted(1).(note := NOTE))
    ensures After(Desk(many), run[..5]).live.Keys == After(Desk(many), run[..4]).live.Keys
  {
    Went(Desk(many), run, 4);
  }

  lemma VerifiedShown(many: bool, run: seq<Event>)
    requires |run| > 5 && run[5] == Act(0, OnLine(VerifyLegB(NoFault))) && Shows(After(Desk(many), run[..5]), 0, Accepted(1).(note := NOTE))
    ensures Shows(After(Desk(many), run[..6]), 0, VerifiedLegB())
    ensures Elsewhere(After(Desk(many), run[..5]), After(Desk(many), run[..6]), 0)
  {
    assert Project(VerifiedLegB().l, Accepted(1).r) == VerifiedLegB().r;
    SavedLine(Desk(many), run, 5, VerifyLegB(NoFault), Accepted(1).(note := NOTE), Accepted(1).r);
  }

  lemma VerifyRunShown(many: bool, run: seq<Event>)
    requires VerifyRun() <= run
    ensures Shows(After(Desk(many), run[..6]), 0, VerifiedLegB()) && After(Desk(many), run[..6]).live.Keys == {0}
  {
    assert VerifyRun()[..4] == AcceptRun(1) && run[4] == VerifyRun()[4] && run[5] == VerifyRun()[5];
    AcceptRunShown(many, run, 1);
    NoteShown(many, run);
    VerifiedShown(many, run);
  }

  lemma CheckedShown(many: bool, run: seq<Event>, k: nat, id: nat)
    requires k < |run| && run[k] == Act(id, OnLock(StartLock)) && Shows(After(Desk(many), run[..k]), id, VerifiedLegB())
    ensures Shows(After(Desk(many), run[..k + 1]), id, AtItsGuards())
    ensures Elsewhere(After(Desk(many), run[..k]), After(Desk(many), run[..k + 1]), id)
  {
    hide After, Step;
    Acted(Desk(many), run, k, id, OnLock(StartLock), VerifiedLegB(), AtItsGuards());
  }

  lemma GuardedShown(many: bool, run: seq<Event>, k: nat)
    requires k < |run| && run[k] == Act(0, OnLock(ReadGuardNote)) && Shows(After(Desk(many), run[..k]), 0, AtItsGuards())
    ensures Shows(After(Desk(many), run[..k + 1]), 0, Guarded())
    ensures Elsewhere(After(Desk(many), run[..k]), After(Desk(many), run[..k + 1]), 0)
  {
    hide After, Step;
    Acted(Desk(many), run, k, 0, OnLock(ReadGuardNote), AtItsGuards(), Guarded());
  }

  lemma StartedShown(many: bool, run: seq<Event>, k: nat)
    requires k < |run| && run[k] == Act(0, OnLock(PrepareFirst(0, 0))) && Shows(After(Desk(many), run[..k]), 0, Guarded())
    ensures Shows(After(Desk(many), run[..k + 1]), 0, LockStarted())
    ensures Elsewhere(After(Desk(many), run[..k]), After(Desk(many), run[..k + 1]), 0)
  {
    hide After, Step;
    Acted(Desk(many), run, k, 0, OnLock(PrepareFirst(0, 0)), Guarded(), LockStarted());
  }

  lemma LockActsShown(many: bool, run: seq<Event>, k: nat)
    requires Goes(run, k, LockActs()) && Shows(After(Desk(many), run[..k]), 0, VerifiedLegB())
    ensures Shows(After(Desk(many), run[..k + 4]), 0, ReadyToSend())
    ensures Elsewhere(After(Desk(many), run[..k]), After(Desk(many), run[..k + 4]), 0)
  {
    hide After, Shows;
    assert run[k] == LockActs()[0] && run[k + 1] == LockActs()[1] && run[k + 2] == LockActs()[2] && run[k + 3] == LockActs()[3];
    CheckedShown(many, run, k, 0);
    GuardedShown(many, run, k + 1);
    StartedShown(many, run, k + 2);
    SavedLock(Desk(many), run, k + 3, 0, LockStarted());
  }

  lemma LockRunShown(many: bool, run: seq<Event>)
    requires VerifyRun() <= run && Goes(run, 6, LockActs())
    ensures Shows(After(Desk(many), run[..10]), 0, ReadyToSend()) && After(Desk(many), run[..10]).live.Keys == {0}
  {
    hide After, Shows;
    VerifyRunShown(many, run);
    LockActsShown(many, run, 6);
  }

  // --- the verdict -----------------------------------------------------------------------------------------------------

  /** A saved lock that nobody saw land, wherever its call stands and whatever was handed over. */
  function Unseen(pc: LockPc, sent: set<Sent>): Snap {
    ReadyToSend().(lockPc := pc, rail := RAIL.(issued := 1, sent := sent))
  }

  function RefundAsked(pc: LockPc, sent: set<Sent>, settlePc: SettlePc): Snap {
    Unseen(pc, sent).(nowMs := 20, settlePc := settlePc)
  }

  function Judging(pc: LockPc, sent: set<Sent>): Snap {
    RefundAsked(pc, sent, Saving(SettleIdle)).(l := Unseen(pc, sent).l.(lock := ATTEMPTED.(neverLanded := true)))
  }

  function Judged(pc: LockPc, sent: set<Sent>): Snap {
    Judging(pc, sent).(r := Project(Judging(pc, sent).l, Judging(pc, sent).r), settlePc := SettleIdle)
  }

  /** The refund time comes, and `refundLegA` reads the verdict and saves it. */
  function VerdictActs(): seq<Event> {
    [Outside(Tick(20)), Act(0, OnSettle(StartRefund)), Act(0, OnSettle(CheckPending(false))), Act(0, OnSettle(AskAbsence)),
     Act(0, OnSettle(CheckAbsence(NeverLocked))), Act(0, OnSettle(SaveSettle(NoFault)))]
  }

  lemma AskedShown(many: bool, run: seq<Event>, k: nat, pc: LockPc, sent: set<Sent>)
    requires k < |run| && run[k] == Act(0, OnSettle(StartRefund)) && Shows(After(Desk(many), run[..k]), 0, RefundAsked(pc, sent, SettleIdle))
    ensures Shows(After(Desk(many), run[..k + 1]), 0, RefundAsked(pc, sent, CheckingPending))
    ensures Elsewhere(After(Desk(many), run[..k]), After(Desk(many), run[..k + 1]), 0)
  {
    Acted(Desk(many), run, k, 0, OnSettle(StartRefund), RefundAsked(pc, sent, SettleIdle), RefundAsked(pc, sent, CheckingPending));
  }

  lemma PendingShown(many: bool, run: seq<Event>, k: nat, pc: LockPc, sent: set<Sent>)
    requires k < |run| && run[k] == Act(0, OnSettle(CheckPending(false)))
    requires Shows(After(Desk(many), run[..k]), 0, RefundAsked(pc, sent, CheckingPending))
    ensures Shows(After(Desk(many), run[..k + 1]), 0, RefundAsked(pc, sent, CheckingAbsence))
    ensures Elsewhere(After(Desk(many), run[..k]), After(Desk(many), run[..k + 1]), 0)
  {
    Acted(Desk(many), run, k, 0, OnSettle(CheckPending(false)), RefundAsked(pc, sent, CheckingPending), RefundAsked(pc, sent, CheckingAbsence));
  }

  lemma AwaitingShown(many: bool, run: seq<Event>, k: nat, pc: LockPc, sent: set<Sent>)
    requires k < |run| && run[k] == Act(0, OnSettle(AskAbsence))
    requires Shows(After(Desk(many), run[..k]), 0, RefundAsked(pc, sent, CheckingAbsence))
    ensures Shows(After(Desk(many), run[..k + 1]), 0, RefundAsked(pc, sent, AwaitingAbsence))
    ensures Elsewhere(After(Desk(many), run[..k]), After(Desk(many), run[..k + 1]), 0)
  {
    Acted(Desk(many), run, k, 0, OnSettle(AskAbsence), RefundAsked(pc, sent, CheckingAbsence), RefundAsked(pc, sent, AwaitingAbsence));
  }

  lemma JudgingShown(many: bool, run: seq<Event>, k: nat, pc: LockPc, sent: set<Sent>)
    requires k < |run| && run[k] == Act(0, OnSettle(CheckAbsence(NeverLocked)))
    requires Shows(After(Desk(many), run[..k]), 0, RefundAsked(pc, sent, AwaitingAbsence))
    ensures Shows(After(Desk(many), run[..k + 1]), 0, Judging(pc, sent))
    ensures Elsewhere(After(Desk(many), run[..k]), After(Desk(many), run[..k + 1]), 0)
  {
    Acted(Desk(many), run, k, 0, OnSettle(CheckAbsence(NeverLocked)), RefundAsked(pc, sent, AwaitingAbsence), Judging(pc, sent));
  }

  lemma VerdictActsShown(many: bool, run: seq<Event>, k: nat, pc: LockPc, sent: set<Sent>)
    requires Goes(run, k, VerdictActs()) && Shows(After(Desk(many), run[..k]), 0, Unseen(pc, sent))
    ensures Shows(After(Desk(many), run[..k + 6]), 0, Judged(pc, sent))
    ensures Elsewhere(After(Desk(many), run[..k]), After(Desk(many), run[..k + 6]), 0)
  {
    hide After, Shows;
    assert run[k] == VerdictActs()[0] && run[k + 1] == VerdictActs()[1] && run[k + 2] == VerdictActs()[2];
    assert run[k + 3] == VerdictActs()[3] && run[k + 4] == VerdictActs()[4] && run[k + 5] == VerdictActs()[5];
    Ticked(Desk(many), run, k, 0, Unseen(pc, sent));
    AskedShown(many, run, k + 1, pc, sent);
    PendingShown(many, run, k + 2, pc, sent);
    AwaitingShown(many, run, k + 3, pc, sent);
    JudgingShown(many, run, k + 4, pc, sent);
    SavedSettle(Desk(many), run, k + 5, 0, Judging(pc, sent));
  }

  const RETRYING := Guarding(CHECKED, FreshLock(LOCK))

  /** The lock was not sent; a retry reads that none is visible, passes the deadline check of its guards and waits for leg B's note. */
  function RetryActs(): seq<Event> {
    [Act(0, OnLock(Send(NothingSent))), Act(0, OnLock(StartRecover)), Act(0, OnLock(Recover(NeverLanded))), Act(0, OnLock(Reread(false)))]
  }

  /** While the retry of one instance waits there, `refundLegA` in the same process saves the verdict. */
  function VerdictRun(): seq<Event> {
    VerifyRun() + LockActs() + RetryActs() + VerdictActs()
  }

  lemma UnsentShown(many: bool, run: seq<Event>)
    requires |run| > 10 && run[10] == RetryActs()[0] && Shows(After(Desk(many), run[..10]), 0, ReadyToSend())
    ensures Shows(After(Desk(many), run[..11]), 0, Unseen(LockIdle, {}))
    ensures Elsewhere(After(Desk(many), run[..10]), After(Desk(many), run[..11]), 0)
  {
    Acted(Desk(many), run, 10, 0, OnLock(Send(NothingSent)), ReadyToSend(), Unseen(LockIdle, {}));
  }

  lemma RecoveringShown(many: bool, run: seq<Event>, k: nat, sent: set<Sent>)
    requires k < |run| && run[k] == Act(0, OnLock(StartRecover)) && Shows(After(Desk(many), run[..k]), 0, Unseen(LockIdle, sent))
    ensures Shows(After(Desk(many), run[..k + 1]), 0, Unseen(Recovering(LOCK), sent))
    ensures Elsewhere(After(Desk(many), run[..k]), After(Desk(many), run[..k + 1]), 0)
  {
    Acted(Desk(many), run, k, 0, OnLock(StartRecover), Unseen(LockIdle, sent), Unseen(Recovering(LOCK), sent));
  }

  lemma RereadingShown(many: bool, run: seq<Event>)
    requires |run| > 12 && run[12] == RetryActs()[2] && Shows(After(Desk(many), run[..12]), 0, Unseen(Recovering(LOCK), {}))
    ensures Shows(After(Desk(many), run[..13]), 0, Unseen(Rereading(LOCK, None), {}))
    ensures Elsewhere(After(Desk(many), run[..12]), After(Desk(many), run[..13]), 0)
  {
    hide After, Step;
    Acted(Desk(many), run, 12, 0, OnLock(Recover(NeverLanded)), Unseen(Recovering(LOCK), {}), Unseen(Rereading(LOCK, None), {}));
  }

  lemma RetryingShown(many: bool, run: seq<Event>)
    requires |run| > 13 && run[13] == RetryActs()[3] && Shows(After(Desk(many), run[..13]), 0, Unseen(Rereading(LOCK, None), {}))
    ensures Shows(After(Desk(many), run[..14]), 0, Unseen(RETRYING, {}))
    ensures Elsewhere(After(Desk(many), run[..13]), After(Desk(many), run[..14]), 0)
  {
    hide After, Step;
    Acted(Desk(many), run, 13, 0, OnLock(Reread(false)), Unseen(Rereading(LOCK, None), {}), Unseen(RETRYING, {}));
  }

  lemma RetryActsShown(many: bool, run: seq<Event>)
    requires Goes(run, 10, RetryActs()) && Shows(After(Desk(many), run[..10]), 0, ReadyToSend())
    ensures Shows(After(Desk(many), run[..14]), 0, Unseen(RETRYING, {}))
    ensures Elsewhere(After(Desk(many), run[..10]), After(Desk(many), run[..14]), 0)
  {
    hide After, Shows;
    assert run[10] == RetryActs()[0] && run[11] == RetryActs()[1] && run[12] == RetryActs()[2] && run[13] == RetryActs()[3];
    UnsentShown(many, run);
    RecoveringShown(many, run, 11, {});
    RereadingShown(many, run);
    RetryingShown(many, run);
  }

  lemma VerdictEvents(run: seq<Event>)
    requires VerdictRun() <= run
    ensures VerifyRun() <= run && Goes(run, 6, LockActs()) && Goes(run, 10, RetryActs()) && Goes(run, 14, VerdictActs())
  {
    assert VerdictRun()[..6] == VerifyRun() && VerdictRun()[6..10] == LockActs();
    assert VerdictRun()[10..14] == RetryActs() && VerdictRun()[14..20] == VerdictActs();
  }

  lemma VerdictRunShown(many: bool, run: seq<Event>)
    requires VerdictRun() <= run
    ensures Shows(After(Desk(many), run[..20]), 0, Judged(RETRYING, {})) && After(Desk(many), run[..20]).live.Keys == {0}
  {
    hide After, Shows, Goes, VerdictRun;
    VerdictEvents(run);
    LockRunShown(many, run);
    RetryActsShown(many, run);
    VerdictActsShown(many, run, 14, RETRYING, {});
  }

  lemma JudgedIsSaved(s: System, pc: LockPc)
    requires Shows(s, 0, Judged(pc, {}))
    ensures VerdictSavedIn(s.env.store) && s.env.rail.issued == 1 && s.env.rail.sent == {} && s.live[0].lockPc == pc
  {
  }

  /** After the verdict a call past its deadline check goes on to prepare a second lock; and no lock is ever handed over. */
  lemma PreparesButNeverSends(many: bool, run: seq<Event>, id: nat)
    requires var s := After(Desk(many), run);
             VerdictSavedIn(s.env.store) && s.env.rail.issued == 1 && s.env.rail.sent == {} && id in s.live && PastDeadlineCheck(s.live[id].lockPc)
    ensures !NonePastDeadlineCheck(After(Desk(many), run))
    ensures After(Desk(many), run + PreparingEvents(id, After(Desk(many), run).live[id].lockPc)).env.rail.issued == 2
    ensures forall more: seq<Event> :: After(Desk(many), run + more).env.rail.sent == {}
  {
    hide Step, PreparingEvents;
    PastDeadlineCheckPrepares(Desk(many), run, id);
    DeskIsInTime(many);
    forall more: seq<Event> ensures After(Desk(many), run + more).env.rail.sent == {} {
      VerdictStopsLocks(Desk(many), run, more);
    }
  }

  /** Leg B's note still reads locked, and the waiting call of an instance builds its lock. */
  function PreparesNow(id: nat, action: LockAction): seq<Event> {
    [Outside(NoteBecomes(NOTE)), Act(id, OnLock(ReadGuardNote)), Act(id, OnLock(action))]
  }

  /**
   * The verdict is saved, and the call already past its deadline check prepares a second lock all the same; neither is ever
   * sent.
   */
  lemma ALockIsPreparedAfterTheVerdict(many: bool)
    ensures var run := VerdictRun();
            && VerdictSavedIn(After(Desk(many), run).env.store) && After(Desk(many), run).env.rail.issued == 1
            && !NonePastDeadlineCheck(After(Desk(many), run))
            && After(Desk(many), run + PreparesNow(0, PrepareFresh)).env.rail.issued == 2
            && forall more: seq<Event> :: After(Desk(many), run + more).env.rail.sent == {}
  {
    hide Step, After, Shows, Judged, VerdictRun;
    var run := VerdictRun();
    VerdictRunShown(many, run);
    assert run[..20] == run by { VerdictLength(); }
    JudgedIsSaved(After(Desk(many), run), RETRYING);
    assert 0 in After(Desk(many), run).live by { StillLive(After(Desk(many), run), Judged(RETRYING, {})); }
    PreparesButNeverSends(many, run, 0);
  }

  lemma VerdictLength()
    ensures |VerdictRun()| == 20
  {
  }

  lemma StillLive(s: System, x: Snap)
    requires Shows(s, 0, x)
    ensures 0 in s.live
  {
  }

  // --- the same, by another instance's first lock ----------------------------------------------------------------------------

  const WAITING := Guarding(CHECKED, FirstLock)

  /** Instance 1 resumes and passes its deadline check before instance 0 attempts its lock; instance 0 then saves the verdict. */
  function OtherVerdictRun(): seq<Event> {
    VerifyRun() + [Resume(1), Act(1, OnLock(StartLock))] + LockActs() + VerdictActs()
  }

  lemma OtherVerdictEvents(run: seq<Event>)
    requires OtherVerdictRun() <= run
    ensures VerifyRun() <= run && |run| >= 18 && run[6] == Resume(1) && run[7] == Act(1, OnLock(StartLock))
    ensures Goes(run, 8, LockActs()) && Goes(run, 12, VerdictActs())
  {
    assert OtherVerdictRun()[..6] == VerifyRun() && OtherVerdictRun()[8..12] == LockActs() && OtherVerdictRun()[12..18] == VerdictActs();
  }

  lemma TwinStep(s: System)
    requires Shows(s, 0, VerifiedLegB()) && s.live.Keys == {0}
    ensures var s' := Step(Desk(true), s, Resume(1));
            Shows(s', 1, VerifiedLegB()) && Shows(s', 0, VerifiedLegB()) && s'.live.Keys == {0, 1}
  {
    assert Rebuild(VerifiedLegB().r).Flow? && Rebuild(VerifiedLegB().r).latches == VerifiedLegB().l;
  }

  /** The other instance's step left the world alone, so this one still shows what it did. */
  lemma ShowsOn(s: System, s': System, id: nat, other: nat, x: Snap)
    requires Shows(s, id, x) && id != other && Elsewhere(s, s', other) && s'.env == s.env
    ensures Shows(s', id, x)
  {
  }

  lemma GuardsLeaveTheWorld(many: bool, run: seq<Event>, k: nat)
    requires k < |run| && run[k] == Act(1, OnLock(StartLock))
    ensures After(Desk(many), run[..k + 1]).env == After(Desk(many), run[..k]).env
  {
    Went(Desk(many), run, k);
  }

  lemma OtherVerdictRunShown(run: seq<Event>)
    requires OtherVerdictRun() <= run
    ensures var s := After(Desk(true), run[..18]);
            Shows(s, 0, Judged(Sending(LOCK, GUARD), {})) && s.live.Keys == {0, 1} && s.live[1].lockPc == WAITING
  {
    hide After, Shows, Goes, OtherVerdictRun, Step;
    OtherVerdictEvents(run);
    VerifyRunShown(true, run);
    Went(Desk(true), run, 6);
    TwinStep(After(Desk(true), run[..6]));
    CheckedShown(true, run, 7, 1);
    GuardsLeaveTheWorld(true, run, 7);
    ShowsOn(After(Desk(true), run[..7]), After(Desk(true), run[..8]), 0, 1, VerifiedLegB());
    LockActsShown(true, run, 8);
    VerdictActsShown(true, run, 12, Sending(LOCK, GUARD), {});
    OtherWaits(After(Desk(true), run[..8]));
  }

  lemma OtherWaits(s: System)
    requires Shows(s, 1, AtItsGuards())
    ensures 1 in s.live && s.live[1].lockPc == WAITING
  {
  }

  /** A fresh `lockLegA` call of another instance, past its deadline check before the first attempt, prepares a lock after the verdict. */
  lemma AFirstLockIsPreparedAfterTheVerdict()
    ensures var run := OtherVerdictRun();
            && VerdictSavedIn(After(Desk(true), run).env.store) && After(Desk(true), run).env.rail.issued == 1
            && (forall id :: id in After(Desk(true), run).live ==> !After(Desk(true), run).live[id].lockPc.Rebuilding?)
            && After(Desk(true), run + PreparesNow(1, PrepareFirst(0, 0))).env.rail.issued == 2
            && forall more: seq<Event> :: After(Desk(true), run + more).env.rail.sent == {}
  {
    hide Step, After, Shows, Judged;
    var run := OtherVerdictRun();
    OtherVerdictRunShown(run);
    assert run[..18] == run;
    JudgedIsSaved(After(Desk(true), run), Sending(LOCK, GUARD));
    PreparesButNeverSends(true, run, 1);
  }

  // --- what the verdict's record cannot hold ---------------------------------------------------------------------------------

  lemma Unsaved(i: Instance, e: Env, body: Record)
    requires Healthy(i, e) && !Encodable(Project(i.latches, body))
    ensures var w := Save(i, e, body, NoFault);
            w.journal.failed && w.store == e.store
  {
  }

  /** A save of what cannot be encoded fails the journal and leaves the store alone. */
  lemma UnsavedStep(config: Config, s: System, action: Action, x: Snap)
    requires Shows(s, 0, x) && !Encodable(Project(x.l, x.r))
    requires (action == OnSettle(SaveSettle(NoFault)) && x.settlePc.Saving?) || (action == OnLock(SaveLock(NoFault)) && x.lockPc.SavingOutcome?)
    ensures var s' := Step(config, s, Act(0, action));
            0 in s'.live && s'.live[0].journal.failed && s'.env.store == s.env.store
    ensures 0 in s.live && s.live[0].latches == x.l && !s.live[0].journal.failed
  {
    hide Save, Encodable, Project;
    Unsaved(s.live[0], s.env, x.r);
  }

  function ClaimBegun(): Snap {
    Judged(RETRYING, {}).(l := Judged(RETRYING, {}).l.(claim := ClaimState(true, false, false)),
                                         settlePc := Saving(ClaimingNote(SECRET)))
  }

  function AtTheNote(): Snap {
    ClaimBegun().(r := Project(ClaimBegun().l, ClaimBegun().r), settlePc := ClaimingNote(SECRET))
  }

  function ClaimMade(): Snap {
    AtTheNote().(l := AtTheNote().l.(claim := ClaimState(true, true, false)), settlePc := Saving(SettleIdle),
                 note := NoteClaimed(HashOf(SECRET), SECRET))
  }

  /** Leg B's note still takes a claim, and the given instance makes it. */
  function ClaimActs(id: nat): seq<Event> {
    [Act(id, OnSettle(StartClaim(SECRET))), Act(id, OnSettle(SaveSettle(NoFault))), Act(id, OnSettle(CallNote(NoteReturned)))]
  }

  /** On from the verdict, the flow claims leg B. */
  function ClaimRun(): seq<Event> {
    VerdictRun() + ClaimActs(0)
  }

  lemma ClaimingShown(many: bool, run: seq<Event>)
    requires |run| > 20 && run[20] == ClaimActs(0)[0] && Shows(After(Desk(many), run[..20]), 0, Judged(RETRYING, {}))
    ensures Shows(After(Desk(many), run[..21]), 0, ClaimBegun())
  {
    Acted(Desk(many), run, 20, 0, OnSettle(StartClaim(SECRET)), Judged(RETRYING, {}), ClaimBegun());
  }

  lemma ClaimedShown(many: bool, run: seq<Event>)
    requires |run| > 22 && run[22] == ClaimActs(0)[2] && Shows(After(Desk(many), run[..22]), 0, AtTheNote())
    ensures Shows(After(Desk(many), run[..23]), 0, ClaimMade())
  {
    Acted(Desk(many), run, 22, 0, OnSettle(CallNote(NoteReturned)), AtTheNote(), ClaimMade());
  }

  lemma ClaimEvents(run: seq<Event>)
    requires ClaimRun() <= run
    ensures VerdictRun() <= run && |run| >= 23 && run[20] == ClaimActs(0)[0] && run[21] == ClaimActs(0)[1] && run[22] == ClaimActs(0)[2]
  {
    assert ClaimRun()[..20] == VerdictRun();
  }

  lemma ClaimRunShown(many: bool, run: seq<Event>)
    requires ClaimRun() <= run
    ensures Shows(After(Desk(many), run[..23]), 0, ClaimMade())
  {
    hide After, Shows, VerdictRun, ClaimRun;
    ClaimEvents(run);
    VerdictRunShown(many, run);
    ClaimingShown(many, run);
    SavedSettle(Desk(many), run, 21, 0, ClaimBegun());
    ClaimedShown(many, run);
  }

  lemma ClaimDoesNotEncode()
    ensures !Encodable(Project(ClaimMade().l, ClaimMade().r))
    ensures ClaimMade().l.claim.claimed && ClaimMade().l.lock.neverLanded && ClaimMade().settlePc.Saving?
  {
  }

  /** An exception of `SaveGoesThroughExactly` is reached: that claim cannot be saved, and the journal fails over an untouched store. */
  lemma AClaimAfterTheVerdictIsNotSaved(many: bool)
    ensures var s := After(Desk(many), ClaimRun());
            && 0 in s.live && s.live[0].latches.claim.claimed && s.live[0].latches.lock.neverLanded && !s.live[0].journal.failed
            && var s' := After(Desk(many), ClaimRun() + [Act(0, OnSettle(SaveSettle(NoFault)))]);
               0 in s'.live && s'.live[0].journal.failed && s'.env.store == s.env.store
  {
    hide After, Step, Shows, ClaimMade, Encodable, Project;
    var run := ClaimRun();
    ClaimRunShown(many, run);
    assert run[..23] == run;
    AfterOne(Desk(many), run, Act(0, OnSettle(SaveSettle(NoFault))));
    ClaimDoesNotEncode();
    UnsavedStep(Desk(many), After(Desk(many), run), OnSettle(SaveSettle(NoFault)), ClaimMade());
  }

  const SENT := Sent(0, LOCK.ref, 20, GUARD, 0)

  /** The lock was handed over and its reply lost; a retry asks the chain and waits for the answer. */
  function LostActs(): seq<Event> {
    [Act(0, OnLock(Send(ReplyLost))), Act(0, OnLock(StartRecover))]
  }

  /** While it waits the verdict is saved; then the answer of a block that was not final says that the lock landed. */
  function LateAnswerRun(): seq<Event> {
    VerifyRun() + LockActs() + LostActs() + VerdictActs() + [Act(0, OnLock(Recover(Landed)))]
  }

  function LateSeen(): Snap {
    Judged(Recovering(LOCK), {SENT}).(l := Judged(Recovering(LOCK), {SENT}).l.(lock := ATTEMPTED.(neverLanded := true, evidence := Some(LOCK.ref))),
                                      lockPc := SavingOutcome)
  }

  lemma LostShown(many: bool, run: seq<Event>)
    requires |run| > 10 && run[10] == LostActs()[0] && Shows(After(Desk(many), run[..10]), 0, ReadyToSend())
    ensures Shows(After(Desk(many), run[..11]), 0, Unseen(LockIdle, {SENT}))
  {
    hide After, Step;
    Acted(Desk(many), run, 10, 0, OnLock(Send(ReplyLost)), ReadyToSend(), Unseen(LockIdle, {SENT}));
  }

  lemma LateSeenShown(many: bool, run: seq<Event>)
    requires |run| > 18 && run[18] == Act(0, OnLock(Recover(Landed))) && Shows(After(Desk(many), run[..18]), 0, Judged(Recovering(LOCK), {SENT}))
    ensures Shows(After(Desk(many), run[..19]), 0, LateSeen())
  {
    hide After, Step;
    assert HasRef({SENT}, LOCK.ref) by { assert SENT in {SENT}; }
    Acted(Desk(many), run, 18, 0, OnLock(Recover(Landed)), Judged(Recovering(LOCK), {SENT}), LateSeen());
  }

  lemma LateAnswerEvents(run: seq<Event>)
    requires LateAnswerRun() <= run
    ensures VerifyRun() <= run && Goes(run, 6, LockActs()) && Goes(run, 10, LostActs()) && Goes(run, 12, VerdictActs())
    ensures |run| >= 19 && run[18] == Act(0, OnLock(Recover(Landed)))
  {
    assert LateAnswerRun()[..6] == VerifyRun() && LateAnswerRun()[6..10] == LockActs() && LateAnswerRun()[10..12] == LostActs();
    assert LateAnswerRun()[12..18] == VerdictActs();
  }

  lemma LateAnswerRunShown(many: bool, run: seq<Event>)
    requires LateAnswerRun() <= run
    ensures Shows(After(Desk(many), run[..19]), 0, LateSeen())
  {
    hide After, Shows, LateAnswerRun;
    LateAnswerEvents(run);
    assert run[10] == LostActs()[0] && run[11] == LostActs()[1];
    LockRunShown(many, run);
    LostShown(many, run);
    RecoveringShown(many, run, 11, {SENT});
    VerdictActsShown(many, run, 12, Recovering(LOCK), {SENT});
    LateSeenShown(many, run);
  }

  lemma LateSeenDoesNotEncode()
    ensures !Encodable(Project(LateSeen().l, LateSeen().r))
    ensures LateSeen().l.lock.neverLanded && LateSeen().l.lock.evidence.Some? && LateSeen().lockPc.SavingOutcome?
  {
  }

  /** The other exception is reached too: a lock call that overlaps the verdict records the lock as seen, and cannot save that. */
  lemma ALockSeenAfterTheVerdictIsNotSaved(many: bool)
    ensures var s := After(Desk(many), LateAnswerRun());
            && 0 in s.live && s.live[0].latches.lock.evidence.Some? && s.live[0].latches.lock.neverLanded && !s.live[0].journal.failed
            && var s' := After(Desk(many), LateAnswerRun() + [Act(0, OnLock(SaveLock(NoFault)))]);
               0 in s'.live && s'.live[0].journal.failed && s'.env.store == s.env.store
  {
    hide After, Step, Shows, LateSeen, Encodable, Project;
    var run := LateAnswerRun();
    LateAnswerRunShown(many, run);
    assert run[..19] == run;
    AfterOne(Desk(many), run, Act(0, OnLock(SaveLock(NoFault))));
    LateSeenDoesNotEncode();
    UnsavedStep(Desk(many), After(Desk(many), run), OnLock(SaveLock(NoFault)), LateSeen());
  }

  // --- two instances, a refund and a claim -----------------------------------------------------------------------------

  function LockSeen(): Snap {
    ReadyToSend().(l := ReadyToSend().l.(lock := ATTEMPTED.(evidence := Some(LOCK.ref))), lockPc := SavingOutcome,
                   rail := Rail(Escrow, 1, {SENT}, {}, {SENT}, false, false))
  }

  function LockLanded(): Snap {
    LockSeen().(r := Project(LockSeen().l, LockSeen().r), lockPc := LockIdle)
  }

  function AtRefundTime(pc: SettlePc): Snap {
    LockLanded().(nowMs := 20, settlePc := pc)
  }

  function IntentUnderWay(): Snap {
    AtRefundTime(Saving(Refunding)).(l := LockLanded().l.(refund := LockLanded().l.refund.(attempted := true)))
  }

  function AtTheRefund(): Snap {
    IntentUnderWay().(r := Project(IntentUnderWay().l, IntentUnderWay().r), settlePc := Refunding)
  }

  /** The lock lands; at its refund time instance 0 saves its intent and stands before the rail's refund. */
  function RefundActs(): seq<Event> {
    [Act(0, OnLock(Send(Returned))), Act(0, OnLock(SaveLock(NoFault))), Outside(Tick(20)), Act(0, OnSettle(StartRefund)),
     Act(0, OnSettle(CheckPending(false))), Act(0, OnSettle(AskAbsence)), Act(0, OnSettle(RecoverRefund(Undecided))),
     Act(0, OnSettle(Intend)), Act(0, OnSettle(SaveSettle(NoFault)))]
  }

  lemma ReceiptShown(many: bool, run: seq<Event>)
    requires |run| > 10 && run[10] == RefundActs()[0] && Shows(After(Desk(many), run[..10]), 0, ReadyToSend())
    ensures Shows(After(Desk(many), run[..11]), 0, LockSeen())
    ensures Elsewhere(After(Desk(many), run[..10]), After(Desk(many), run[..11]), 0)
  {
    hide After, Step;
    Acted(Desk(many), run, 10, 0, OnLock(Send(Returned)), ReadyToSend(), LockSeen());
  }

  lemma LockedShown(many: bool, run: seq<Event>)
    requires |run| > 12 && run[11] == RefundActs()[1] && run[12] == RefundActs()[2] && Shows(After(Desk(many), run[..11]), 0, LockSeen())
    ensures Shows(After(Desk(many), run[..13]), 0, AtRefundTime(SettleIdle))
    ensures Elsewhere(After(Desk(many), run[..11]), After(Desk(many), run[..13]), 0)
  {
    hide After, Shows;
    SavedLock(Desk(many), run, 11, 0, LockSeen());
    Ticked(Desk(many), run, 12, 0, LockLanded());
  }

  /** One control point of `refundLegA` after the other. */
  lemma RefundStepShown(many: bool, run: seq<Event>, k: nat, action: SettleAction, pc: SettlePc, pc': SettlePc)
    requires k < |run| && run[k] == Act(0, OnSettle(action)) && Shows(After(Desk(many), run[..k]), 0, AtRefundTime(pc))
    requires || (action == StartRefund && pc == SettleIdle && pc' == CheckingPending)
             || (action == CheckPending(false) && pc == CheckingPending && pc' == CheckingAbsence)
             || (action == AskAbsence && pc == CheckingAbsence && pc' == RecoveringRefund)
             || (action == RecoverRefund(Undecided) && pc == RecoveringRefund && pc' == Intending)
    ensures Shows(After(Desk(many), run[..k + 1]), 0, AtRefundTime(pc'))
    ensures Elsewhere(After(Desk(many), run[..k]), After(Desk(many), run[..k + 1]), 0)
  {
    Acted(Desk(many), run, k, 0, OnSettle(action), AtRefundTime(pc), AtRefundTime(pc'));
  }

  lemma IntendedShown(many: bool, run: seq<Event>)
    requires |run| > 17 && run[17] == Act(0, OnSettle(Intend)) && Shows(After(Desk(many), run[..17]), 0, AtRefundTime(Intending))
    ensures Shows(After(Desk(many), run[..18]), 0, IntentUnderWay())
    ensures Elsewhere(After(Desk(many), run[..17]), After(Desk(many), run[..18]), 0)
  {
    Acted(Desk(many), run, 17, 0, OnSettle(Intend), AtRefundTime(Intending), IntentUnderWay());
  }

  lemma RefundEvents(run: seq<Event>)
    requires Goes(run, 10, RefundActs())
    ensures |run| >= 19 && run[10] == RefundActs()[0] && run[11] == RefundActs()[1] && run[12] == RefundActs()[2]
    ensures run[13] == Act(0, OnSettle(StartRefund)) && run[14] == Act(0, OnSettle(CheckPending(false)))
    ensures run[15] == Act(0, OnSettle(AskAbsence)) && run[16] == Act(0, OnSettle(RecoverRefund(Undecided)))
    ensures run[17] == Act(0, OnSettle(Intend)) && run[18] == Act(0, OnSettle(SaveSettle(NoFault)))
  {
    assert run[10 + 3] == RefundActs()[3] && run[10 + 4] == RefundActs()[4] && run[10 + 5] == RefundActs()[5];
    assert run[10 + 6] == RefundActs()[6] && run[10 + 7] == RefundActs()[7] && run[10 + 8] == RefundActs()[8];
  }

  lemma IntendingReached(many: bool, run: seq<Event>)
    requires |run| > 16 && Shows(After(Desk(many), run[..13]), 0, AtRefundTime(SettleIdle))
    requires run[13] == Act(0, OnSettle(StartRefund)) && run[14] == Act(0, OnSettle(CheckPending(false)))
    requires run[15] == Act(0, OnSettle(AskAbsence)) && run[16] == Act(0, OnSettle(RecoverRefund(Undecided)))
    ensures Shows(After(Desk(many), run[..17]), 0, AtRefundTime(Intending))
    ensures Elsewhere(After(Desk(many), run[..13]), After(Desk(many), run[..17]), 0)
  {
    hide After, Shows, AtRefundTime;
    RefundStepShown(many, run, 13, StartRefund, SettleIdle, CheckingPending);
    RefundStepShown(many, run, 14, CheckPending(false), CheckingPending, CheckingAbsence);
    RefundStepShown(many, run, 15, AskAbsence, CheckingAbsence, RecoveringRefund);
    RefundStepShown(many, run, 16, RecoverRefund(Undecided), RecoveringRefund, Intending);
  }

  lemma RefundingShown(many: bool, run: seq<Event>)
    requires |run| > 18 && run[18] == Act(0, OnSettle(SaveSettle(NoFault))) && Shows(After(Desk(many), run[..18]), 0, IntentUnderWay())
    ensures Shows(After(Desk(many), run[..19]), 0, AtTheRefund())
    ensures Elsewhere(After(Desk(many), run[..18]), After(Desk(many), run[..19]), 0)
  {
    hide After, Shows;
    SavedSettle(Desk(many), run, 18, 0, IntentUnderWay());
  }

  lemma RefundActsShown(many: bool, run: seq<Event>)
    requires Goes(run, 10, RefundActs()) && Shows(After(Desk(many), run[..10]), 0, ReadyToSend())
    ensures Shows(After(Desk(many), run[..19]), 0, AtTheRefund())
    ensures Elsewhere(After(Desk(many), run[..10]), After(Desk(many), run[..19]), 0)
  {
    hide After, Shows, Goes, RefundActs, ReadyToSend, LockSeen, AtRefundTime, IntentUnderWay, AtTheRefund;
    RefundEvents(run);
    ReceiptShown(many, run);
    LockedShown(many, run);
    IntendingReached(many, run);
    IntendedShown(many, run);
    RefundingShown(many, run);
  }

  function OtherJoined(): Snap {
    AtTheRefund().(l := Rebuild(AtTheRefund().r).latches, settlePc := SettleIdle)
  }

  function OtherClaims(): Snap {
    OtherJoined().(l := OtherJoined().l.(claim := ClaimState(true, false, false)), settlePc := Saving(ClaimingNote(SECRET)))
  }

  function OtherAtTheNote(): Snap {
    OtherClaims().(r := Project(OtherClaims().l, OtherClaims().r), settlePc := ClaimingNote(SECRET))
  }

  function OtherClaimed(): Snap {
    OtherAtTheNote().(l := OtherAtTheNote().l.(claim := ClaimState(true, true, false)), settlePc := Saving(SettleIdle),
                      note := NoteClaimed(HashOf(SECRET), SECRET))
  }

  function OtherSaved(): Snap {
    OtherClaimed().(r := Project(OtherClaimed().l, OtherClaimed().r), settlePc := SettleIdle)
  }

  /** Instance 1 resumes from the record that holds the intent, claims leg B and saves that. */
  function TwoRun(): seq<Event> {
    VerifyRun() + LockActs() + RefundActs() + [Resume(1)] + ClaimActs(1) + [Act(1, OnSettle(SaveSettle(NoFault)))]
  }

  lemma TwoEvents(run: seq<Event>)
    requires TwoRun() <= run
    ensures VerifyRun() <= run && Goes(run, 6, LockActs()) && Goes(run, 10, RefundActs()) && |run| >= 24 && run[19] == Resume(1)
    ensures run[20] == ClaimActs(1)[0] && run[21] == ClaimActs(1)[1] && run[22] == ClaimActs(1)[2] && run[23] == Act(1, OnSettle(SaveSettle(NoFault)))
  {
    assert TwoRun()[..6] == VerifyRun() && TwoRun()[6..10] == LockActs() && TwoRun()[10..19] == RefundActs() && TwoRun()[20..23] == ClaimActs(1);
  }

  lemma JoinStep(s: System)
    requires Shows(s, 0, AtTheRefund()) && s.live.Keys == {0}
    ensures var s' := Step(Desk(true), s, Resume(1));
            Shows(s', 1, OtherJoined()) && s'.live.Keys == {0, 1} && s'.live[0].settlePc.Refunding?
  {
    assert Rebuild(AtTheRefund().r).Flow?;
  }

  lemma OtherClaimsShown(run: seq<Event>)
    requires |run| > 20 && run[20] == ClaimActs(1)[0] && Shows(After(Desk(true), run[..20]), 1, OtherJoined())
    ensures Shows(After(Desk(true), run[..21]), 1, OtherClaims())
    ensures Elsewhere(After(Desk(true), run[..20]), After(Desk(true), run[..21]), 1)
  {
    Acted(Desk(true), run, 20, 1, OnSettle(StartClaim(SECRET)), OtherJoined(), OtherClaims());
  }

  lemma OtherClaimedShown(run: seq<Event>)
    requires |run| > 22 && run[22] == ClaimActs(1)[2] && Shows(After(Desk(true), run[..22]), 1, OtherAtTheNote())
    ensures Shows(After(Desk(true), run[..23]), 1, OtherClaimed())
    ensures Elsewhere(After(Desk(true), run[..22]), After(Desk(true), run[..23]), 1)
  {
    Acted(Desk(true), run, 22, 1, OnSettle(CallNote(NoteReturned)), OtherAtTheNote(), OtherClaimed());
  }

  lemma OtherClaimActsShown(run: seq<Event>)
    requires |run| > 23 && run[20] == ClaimActs(1)[0] && run[21] == ClaimActs(1)[1] && run[22] == ClaimActs(1)[2]
    requires run[23] == Act(1, OnSettle(SaveSettle(NoFault))) && Shows(After(Desk(true), run[..20]), 1, OtherJoined())
    ensures Shows(After(Desk(true), run[..24]), 1, OtherSaved())
    ensures Elsewhere(After(Desk(true), run[..20]), After(Desk(true), run[..24]), 1)
  {
    hide After, Shows;
    OtherClaimsShown(run);
    SavedSettle(Desk(true), run, 21, 1, OtherClaims());
    OtherClaimedShown(run);
    SavedSettle(Desk(true), run, 23, 1, OtherClaimed());
  }

  lemma TwoRunShown(run: seq<Event>)
    requires TwoRun() <= run
    ensures var s := After(Desk(true), run[..24]);
            Shows(s, 1, OtherSaved()) && 0 in s.live && s.live[0].settlePc.Refunding?
  {
    hide After, Shows, Step, Goes, TwoRun, OtherJoined, OtherSaved, AtTheRefund, ReadyToSend;
    TwoEvents(run);
    LockRunShown(true, run);
    RefundActsShown(true, run);
    Went(Desk(true), run, 19);
    JoinStep(After(Desk(true), run[..19]));
    OtherClaimActsShown(run);
  }

  lemma CalledOverAClaim(config: Config, s: System)
    requires Shows(s, 1, OtherSaved()) && 0 in s.live && s.live[0].settlePc.Refunding?
    ensures RefundBarred(s.env.store)
    ensures var s' := Step(config, s, Act(0, OnSettle(CallRefund(0))));
            s'.env.refundCalls == [RefundCall(s.env.store.held.value.body)] && s.env.store.held.value.body.claim.claimed
  {
  }

  /**
   * With two live instances the rail's refund is called on a record that bars it: the lone instance asked for in
   * `BuyerRefunds.RefundsAreCalledOnRefundableRecords` is needed.
   */
  lemma TwoInstancesMayRefundAfterAClaim()
    ensures var s := After(Desk(true), TwoRun() + [Act(0, OnSettle(CallRefund(0)))]);
            && RefundBarred(After(Desk(true), TwoRun()).env.store)
            && |s.env.refundCalls| == 1 && s.env.refundCalls[0].stored.claim.claimed
            && BuyerRefunds.Barred(s.env.refundCalls[0].stored)
  {
    hide Step, Shows, OtherSaved, AtTheRefund;
    var run := TwoRun();
    TwoRunShown(run);
    assert run[..24] == run;
    AfterOne(Desk(true), run, Act(0, OnSettle(CallRefund(0))));
    CalledOverAClaim(Desk(true), After(Desk(true), run));
  }
}
