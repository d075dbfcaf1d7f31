/**
 * The paper rail's evidence (`src/paper-evidence.ts`): one world-writable note against the terms of the contract it stands
 * for, and what a settled swap with such a leg has shown.
 */
module Paper {
  import opened Options
  import opened Text
  import opened Swap
  import SwapFacts

  // --- the note ----------------------------------------------------------------------------------------------------------

  /** What a note's value decodes to, if anything. */
  datatype Note = Note(status: RailStatus, lock: nat, statement: nat, refundAfterMs: int, secret: Option<nat>)

  /** tclk's `verifySecret`: whether a secret opens a statement under a lock kind. */
  type Opener = (nat, nat, nat) -> bool

  datatype PaperResult = PaperResult(lock: LockEvidence, rail: Option<Observation>)

  /** The fields a note carries at all, against the contract's own. */
  predicate TermsMatch(terms: Terms, note: Note) {
    note.lock == terms.lock && note.statement == terms.statement && note.refundAfterMs == terms.refundAfterMs
  }

  /** A claimed note must hold a secret that opens the statement; a missing one opens nothing. */
  predicate ClaimOpens(opens: Opener, note: Note) {
    note.status == RailClaimed ==> note.secret.Some? && opens(note.lock, note.statement, note.secret.value)
  }

  /** `paperEvidence`: `note` is `None` for an absent or unreadable note. */
  function PaperEvidence(opens: Opener, terms: Terms, note: Option<Note>): (result: PaperResult)
    ensures result.lock.rail == PAPER && result.lock.ref == terms.contract && result.lock.terms == terms
    ensures result.rail.Some? <==>
              && note.Some? && terms.lock == note.value.lock && terms.statement == note.value.statement
              && terms.refundAfterMs == note.value.refundAfterMs
              && (note.value.status == RailClaimed ==>
                    note.value.secret.Some? && opens(terms.lock, terms.statement, note.value.secret.value))
    ensures result.lock.railVerified.VerifiedTrue? <==> result.rail.Some? && note.value.status == RailLocked
    ensures result.lock.railVerified.NothingToCheck? <==> note.None?
    ensures result.rail.Some? ==>
              result.rail.value == Observation(note.value.status, true, Some(Binding(PAPER, terms.contract, terms.contract, terms)), None)
  {
    var lock := LockEvidence(PAPER, terms.contract, terms, NothingToCheck);
    if note.None? then PaperResult(lock, None)
    else if !TermsMatch(terms, note.value) then PaperResult(lock.(railVerified := VerifiedFalse), None)
    else if !ClaimOpens(opens, note.value) then PaperResult(lock.(railVerified := VerifiedFalse), None)
    else
      PaperResult(lock.(railVerified := if note.value.status == RailLocked then VerifiedTrue else VerifiedFalse),
                  Some(Observation(note.value.status, true, Some(Binding(PAPER, terms.contract, terms.contract, terms)), None)))
  }

  /** The leg's state and its supplied observation. */
  function LegState(input: Input, leg: Leg): Option<State> {
    if leg == A then StateOf(input.legA) else StateOf(input.legB)
  }

  function LegRail(input: Input, leg: Leg): Option<Observation> {
    if leg == A then input.evidence.aRail else input.evidence.bRail
  }

  /**
   * A settled swap whose leg's evidence came from a paper note: whatever terms the reader was given, they are that leg's own,
   * and the note holds a secret that opens the statement both legs share.
   */
  lemma SettledPaperLegShowsTheSecret(opens: Opener, input: Input, leg: Leg, terms: Terms, note: Option<Note>)
    requires Fold(input).body.status == Settled
    requires LegRail(input, leg) == PaperEvidence(opens, terms, note).rail
    ensures LegState(input, leg).Some? && LegState(input, leg).value.terms == Some(terms) && LegState(input, leg).value.rail == Some(PAPER)
    ensures StateOf(input.legA).value.statement == StateOf(input.legB).value.statement
    ensures note.Some? && note.value.status == RailClaimed && note.value.secret.Some?
    ensures note.value.statement == terms.statement && opens(terms.lock, terms.statement, note.value.secret.value)
  {
    SwapFacts.SettledIsEarned(input);
  }

  /** A paper leg that a status calls refunded was refunded by frame or by note; a note alone never contradicts its terms. */
  lemma RefundedPaperLegMatches(opens: Opener, input: Input, leg: Leg, terms: Terms, note: Option<Note>)
    requires Fold(input).body.status == RefundedS
    requires LegRail(input, leg) == PaperEvidence(opens, terms, note).rail && LegRail(input, leg).Some?
    requires Bound(LegState(input, leg), LegRail(input, leg).value)
    ensures note.Some? && note.value.status == RailRefunded && TermsMatch(terms, note.value)
  {
    SwapFacts.RefundsAreEarned(input);
  }

  // --- the banner --------------------------------------------------------------------------------------------------------

  /**
   * `stripNoteBanner`: the last line of a note body that is not empty, whatever banner stands above it and however many line
   * ends follow; nothing only for a body of line ends.
   */
  method StripNoteBanner(body: string) returns (value: Option<string>)
    ensures var lines := Split(body, '\n');
            && (value.None? <==> forall i :: 0 <= i < |lines| ==> lines[i] == "")
            && (value.Some? ==> exists i :: IsLastLine(lines, i) && lines[i] == value.value)
  {
    var lines := Split(body, '\n');
    var i := |lines| - 1;
    while i >= 0
      invariant -1 <= i < |lines|
      invariant forall j :: i < j < |lines| ==> lines[j] == ""
    {
      if |lines[i]| > 0 {
        assert IsLastLine(lines, i);
        return Some(lines[i]);
      }
      i := i - 1;
    }
    return None;
  }

  predicate IsLastLine(lines: seq<string>, i: int) {
    0 <= i < |lines| && lines[i] != "" && forall j :: i < j < |lines| ==> lines[j] == ""
  }

  /** A value under any banner, with any number of line ends behind it, is found. */
  lemma {:induction false} BannerIsStripped(banner: seq<string>, value: string, k: nat)
    requires AllWithout(banner, '\n') && value != "" && Without(value, '\n')
    ensures var lines := banner + [value] + seq(k, _ => "");
            && Split(Join(lines, '\n'), '\n') == lines && IsLastLine(lines, |banner|) && lines[|banner|] == value
  {
    SplitJoin(banner + [value] + seq(k, _ => ""), '\n');
  }
}
