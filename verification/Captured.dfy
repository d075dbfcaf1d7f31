/**
 * The shared fold of a live sweep and an offline replay (`foldCaptured` of `src/replay.ts`), as far as paper legs go: the
 * candidates, each one's accepted lock, the note captured for it, and the board over that evidence.
 */
module Captured {
  import opened Options
  import opened Swap
  import opened Board
  import opened BoardFacts
  import opened BoardBuild
  import opened Replay
  import opened Paper
  import SwapFacts

  /**
   * What was captured, and the functions it is read with: tclk's `verifySecret`, the nine terms of an offer and an accept,
   * and the note read under each contract (`None` where its value does not decode).
   */
  datatype Capture = Capture(opens: Opener, terms: (Offer, Accept) -> Terms, notes: map<Id, Option<Note>>)

  predicate HasLockStep(steps: seq<Step>) {
    exists k :: 0 <= k < |steps| && steps[k].ok && steps[k].isLock
  }

  /** `foldAcceptedLock`: the rail and ref the machine itself accepted, whatever stands first in the room. */
  function AcceptedLock(t: Rules, found: Candidate, deal: seq<Record>): Option<(Rail, Id)> {
    var fold := t.foldTranscript([found.offer.record, found.accept.record] + deal);
    var state := StateOf(fold);
    if state.None? || state.value.rail.None? || state.value.railRef.None? then None
    else if !HasLockStep(StepsOf(fold)) then None
    else Some((state.value.rail.value, state.value.railRef.value))
  }

  function DealOf(rooms: map<Id, seq<Record>>, contract: Id): seq<Record> {
    if contract in rooms then rooms[contract] else []
  }

  /** A candidate's evidence: a paper lock the machine accepted, under the contract itself, with a captured note. */
  function EvidenceOfOne(t: Rules, capture: Capture, rooms: map<Id, seq<Record>>, contract: Id, found: Candidate): Option<LegEvidence> {
    if AcceptedLock(t, found, DealOf(rooms, contract)) == Some((PAPER, contract)) && contract in capture.notes then
      var result := PaperEvidence(capture.opens, capture.terms(found.offer.offer, found.accept.accept), capture.notes[contract]);
      Some(LegEvidence(result.lock, result.rail))
    else None
  }

  /** The evidence map: one entry per candidate that has any, under its own contract. */
  function EvidenceOf(t: Rules, capture: Capture, rooms: map<Id, seq<Record>>, byContract: map<Id, Candidate>): map<Id, LegEvidence> {
    map contract | contract in byContract && EvidenceOfOne(t, capture, rooms, contract, byContract[contract]).Some?
      :: EvidenceOfOne(t, capture, rooms, contract, byContract[contract]).value
  }

  function CapturedInput(t: Rules, capture: Capture, records: seq<Record>, rooms: map<Id, seq<Record>>, nowMs: int): BoardInput {
    BoardInput(records, rooms, EvidenceOf(t, capture, rooms, ScanOf(t, records).byContract), nowMs)
  }

  /** `foldCaptured` over paper legs. */
  method FoldCaptured(t: Rules, capture: Capture, records: seq<Record>, rooms: map<Id, seq<Record>>, nowMs: int)
    returns (swaps: seq<View>, unpaired: seq<Loser>)
    requires FoldsSwaps(t)
    ensures var c := Collect(t, records);
            && Sound(t, c) && |swaps| == |c.order|
            && (forall k :: 0 <= k < |swaps| ==> swaps[k] == SwapOf(t, CapturedInput(t, capture, records, rooms, nowMs), c, c.order[k]))
            && unpaired == Losers(c, ByPlace(c.legBs))
  {
    var legOffers, byContract := FindSwapLegCandidates(t, records);
    var evidence := CollectEvidence(t, capture, rooms, byContract);
    swaps, unpaired := BuildBoard(t, BoardInput(records, rooms, evidence, nowMs));
  }

  /** The evidence map, filled candidate by candidate. */
  method CollectEvidence(t: Rules, capture: Capture, rooms: map<Id, seq<Record>>, byContract: map<Id, Candidate>)
    returns (evidence: map<Id, LegEvidence>)
    ensures evidence == EvidenceOf(t, capture, rooms, byContract)
  {
    evidence := map[];
    var left := byContract.Keys;
    while left != {}
      invariant left <= byContract.Keys
      invariant forall contract :: contract in evidence <==>
                  contract in byContract && contract !in left
                  && EvidenceOfOne(t, capture, rooms, contract, byContract[contract]).Some?
      invariant forall contract :: contract in evidence ==>
                  evidence[contract] == EvidenceOfOne(t, capture, rooms, contract, byContract[contract]).value
      decreases left
    {
      var contract :| contract in left;
      left := left - {contract};
      var found := byContract[contract];
      var accepted := AcceptedLock(t, found, DealOf(rooms, contract));
      if accepted.None? {
        continue;
      }
      if accepted.value != (PAPER, contract) || contract !in capture.notes {
        continue;
      }
      var result := PaperEvidence(capture.opens, capture.terms(found.offer.offer, found.accept.accept), capture.notes[contract]);
      evidence := evidence[contract := LegEvidence(result.lock, result.rail)];
    }
  }

  /** The note captured for a contract shows a claim whose secret opens the leg's own statement. */
  ghost predicate NoteShowsSecret(capture: Capture, contract: Option<Id>, state: State) {
    && contract.Some? && contract.value in capture.notes && capture.notes[contract.value].Some?
    && var note := capture.notes[contract.value].value;
       && note.status == RailClaimed && note.secret.Some? && state.terms.Some?
       && note.statement == state.terms.value.statement
       && capture.opens(state.terms.value.lock, state.terms.value.statement, note.secret.value)
  }

  /** What an evidence entry came from. */
  lemma EntryIsPaper(t: Rules, capture: Capture, rooms: map<Id, seq<Record>>, byContract: map<Id, Candidate>, contract: Id)
    requires contract in EvidenceOf(t, capture, rooms, byContract)
    ensures contract in byContract && contract in capture.notes
    ensures var found := byContract[contract];
            EvidenceOf(t, capture, rooms, byContract)[contract].rail
              == PaperEvidence(capture.opens, capture.terms(found.offer.offer, found.accept.accept), capture.notes[contract]).rail
  {
  }

  lemma {:induction false} LockStepsAreFirstLocks(steps: seq<Step>)
    ensures HasLockStep(steps) <==> LockedAt(steps).Some?
  {
    if steps != [] {
      var front, last := steps[..|steps| - 1], steps[|steps| - 1];
      LockStepsAreFirstLocks(front);
      if HasLockStep(front) {
        var k :| 0 <= k < |front| && front[k].ok && front[k].isLock;
        assert steps[k].ok && steps[k].isLock;
      }
      if last.ok && last.isLock {
        assert steps[|steps| - 1].ok && steps[|steps| - 1].isLock;
      }
    }
  }

  /**
   * A contract has evidence exactly when it is a candidate's, its note was captured, and the machine over that candidate's
   * offer, accept and deal room took a lock, on the paper rail under the contract itself; and then it is what the paper rail
   * makes of that note under the terms of that offer and accept.
   */
  lemma EvidenceExactly(t: Rules, capture: Capture, rooms: map<Id, seq<Record>>, byContract: map<Id, Candidate>, contract: Id)
    requires contract in byContract
    ensures var found := byContract[contract];
            var deal := if contract in rooms then rooms[contract] else [];
            var fold := t.foldTranscript([found.offer.record, found.accept.record] + deal);
            var evidence := EvidenceOf(t, capture, rooms, byContract);
            && (contract in evidence <==>
                  && contract in capture.notes && LockedAt(StepsOf(fold)).Some?
                  && StateOf(fold).Some? && StateOf(fold).value.rail == Some(PAPER) && StateOf(fold).value.railRef == Some(contract))
            && (contract in evidence ==>
                  var paper := PaperEvidence(capture.opens, capture.terms(found.offer.offer, found.accept.accept), capture.notes[contract]);
                  evidence[contract].lock == paper.lock && evidence[contract].rail == paper.rail)
  {
    LockStepsAreFirstLocks(StepsOf(t.foldTranscript([byContract[contract].offer.record, byContract[contract].accept.record] + DealOf(rooms, contract))));
  }

  /** The machine over these rows took a lock, on the paper rail under the contract itself. */
  predicate TookPaperLock(fold: LegFold, contract: Id) {
    && LockedAt(StepsOf(fold)).Some? && StateOf(fold).Some?
    && StateOf(fold).value.rail == Some(PAPER) && StateOf(fold).value.railRef == Some(contract)
  }

  /**
   * What the board of a captured fold is given: the export, the deal rooms and the clock as they are, and evidence under a
   * contract exactly where two rows of the export make a candidate of it and the rest of its evidence is there.
   */
  lemma TheBoardIsGiven(t: Rules, capture: Capture, records: seq<Record>, rooms: map<Id, seq<Record>>, nowMs: int, contract: Id,
                        j: nat, k: nat)
    requires Found(t, records, contract) ==> FirstFind(t, records, j, k, contract)
    ensures var input := CapturedInput(t, capture, records, rooms, nowMs);
            && input.offers == records && input.dealRooms == rooms && input.nowMs == nowMs
            && (!Found(t, records, contract) ==> contract !in input.evidence)
            && (Found(t, records, contract) ==>
                  var fold := t.foldTranscript([records[j], records[k]] + if contract in rooms then rooms[contract] else []);
                  && (contract in input.evidence <==> contract in capture.notes && TookPaperLock(fold, contract))
                  && (contract in input.evidence ==>
                        var terms := capture.terms(records[j].frame.value.offer, records[k].frame.value.accept);
                        var paper := PaperEvidence(capture.opens, terms, capture.notes[contract]);
                        input.evidence[contract].lock == paper.lock && input.evidence[contract].rail == paper.rail))
  {
    hide PaperEvidence, FindsAt, ScanOf, EvidenceOf;
    var byContract := ScanOf(t, records).byContract;
    CandidatesAreRows(t, records, contract);
    if contract in byContract {
      EvidenceExactly(t, capture, rooms, byContract, contract);
    } else {
      NoCandidateNoEvidence(t, capture, rooms, byContract, contract);
    }
  }

  lemma NoCandidateNoEvidence(t: Rules, capture: Capture, rooms: map<Id, seq<Record>>, byContract: map<Id, Candidate>, contract: Id)
    requires contract !in byContract
    ensures contract !in EvidenceOf(t, capture, rooms, byContract)
  {
  }

  /** The evidence one view was folded with, and the two folds. */
  function FoldedInput(t: Rules, input: BoardInput, c: Collected, id: Id): Input
    requires id in c.legAs
  {
    var legs := LegsOf(t, input, c, c.legAs[id], PairingOf(c, ByPlace(c.legBs), id));
    Input(legs.foldA, legs.foldB, EvidenceFor(input, legs), input.nowMs)
  }

  lemma SettledInput(t: Rules, input: BoardInput, c: Collected, id: Id)
    requires FoldsSwaps(t) && id in c.legAs && SwapOf(t, input, c, id).body.status == Settled
    ensures Fold(FoldedInput(t, input, c, id)).body.status == Settled
  {
    assert t.foldSwap(FoldedInput(t, input, c, id)) == Fold(FoldedInput(t, input, c, id));
  }

  /** A leg's supplied observation stands under the contract its machine accepted. */
  lemma RailIsUnderItsContract(evidence: map<Id, LegEvidence>, contractA: Option<Id>, contractB: Option<Id>)
    ensures var found := PairEvidence(evidence, contractA, contractB);
            && (found.Some? && found.value.aRail.Some? ==>
                  contractA.Some? && contractA.value in evidence && evidence[contractA.value].rail == found.value.aRail)
            && (found.Some? && found.value.bRail.Some? ==>
                  contractB.Some? && contractB.value in evidence && evidence[contractB.value].rail == found.value.bRail)
  {
  }

  /**
   * A swap that the captured fold calls settled has, for each leg, a note captured under the contract that leg's machine
   * accepted, claimed with a secret that opens the statement both legs share.
   */
  lemma SettledSwapsShowTheirSecrets(t: Rules, capture: Capture, records: seq<Record>, rooms: map<Id, seq<Record>>, nowMs: int, id: Id)
    requires FoldsSwaps(t) && id in Collect(t, records).legAs
    requires SwapOf(t, CapturedInput(t, capture, records, rooms, nowMs), Collect(t, records), id).body.status == Settled
    ensures var folded := FoldedInput(t, CapturedInput(t, capture, records, rooms, nowMs), Collect(t, records), id);
            && StateOf(folded.legA).Some? && StateOf(folded.legB).Some?
            && StateOf(folded.legA).value.statement == StateOf(folded.legB).value.statement
            && NoteShowsSecret(capture, ContractOf(folded.legA), StateOf(folded.legA).value)
            && NoteShowsSecret(capture, ContractOf(folded.legB), StateOf(folded.legB).value)
  {
    var input := CapturedInput(t, capture, records, rooms, nowMs);
    var folded := FoldedInput(t, input, Collect(t, records), id);
    SettledInput(t, input, Collect(t, records), id);
    SwapFacts.SettledIsEarned(folded);
    RailIsUnderItsContract(input.evidence, ContractOf(folded.legA), ContractOf(folded.legB));
    LegShowsSecret(t, capture, rooms, ScanOf(t, records).byContract, folded, A);
    LegShowsSecret(t, capture, rooms, ScanOf(t, records).byContract, folded, B);
  }

  lemma LegShowsSecret(t: Rules, capture: Capture, rooms: map<Id, seq<Record>>, byContract: map<Id, Candidate>, folded: Input, leg: Leg)
    requires Fold(folded).body.status == Settled && LegState(folded, leg).Some?
    requires var contract := LegState(folded, leg).value.contract;
             && contract.Some? && contract.value in EvidenceOf(t, capture, rooms, byContract)
             && EvidenceOf(t, capture, rooms, byContract)[contract.value].rail == LegRail(folded, leg)
    ensures NoteShowsSecret(capture, LegState(folded, leg).value.contract, LegState(folded, leg).value)
  {
    var contract := LegState(folded, leg).value.contract.value;
    EntryIsPaper(t, capture, rooms, byContract, contract);
    var found := byContract[contract];
    SettledPaperLegShowsTheSecret(capture.opens, folded, leg, capture.terms(found.offer.offer, found.accept.accept), capture.notes[contract]);
  }
}
