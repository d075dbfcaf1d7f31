/**
 * What the board folds for each of its swaps, exactly: the rows that reach the contract machine for either leg, the evidence
 * and the clock the two folds are joined under, and what the board adds to the view.
 */
module BoardViews {
  import opened Options
  import opened Swap
  import opened Board
  import opened BoardFacts
  import opened BoardPairs

  predicate IsFirstBy(accepts: seq<PostedAccept>, did: Did, k: nat) {
    k < |accepts| && accepts[k].accept.core.from == did && forall j :: 0 <= j < k ==> accepts[j].accept.core.from != did
  }

  /** The accept a leg is folded with: its counterparty's first, else the first there is. */
  ghost predicate IsFoldedWith(accepts: seq<PostedAccept>, counterparty: Option<Did>, accept: Option<PostedAccept>) {
    if accepts == [] then accept.None?
    else if counterparty.Some? && AcceptedBy(accepts, counterparty.value) then
      exists k: nat :: IsFirstBy(accepts, counterparty.value, k) && accept == Some(accepts[k])
    else accept == Some(accepts[0])
  }

  /** What reaches the contract machine for one leg: its offer's row, its accept's row and the accept's deal room, in order. */
  predicate FoldsRows(t: Rules, input: BoardInput, offer: Record, accept: Option<PostedAccept>, fold: LegFold) {
    if accept.None? then fold == t.foldTranscript([offer])
    else if accept.value.accept.contract !in input.dealRooms then fold == t.foldTranscript([offer, accept.value.record])
    else fold == t.foldTranscript([offer, accept.value.record] + input.dealRooms[accept.value.accept.contract])
  }

  /** The evidence one leg is folded with stands under the contract its own machine accepted. */
  predicate OwnEvidence(input: BoardInput, fold: LegFold, lock: Option<LockEvidence>, rail: Option<Observation>) {
    var contract := ContractOf(fold);
    if contract.Some? && contract.value in input.evidence
    then lock == Some(input.evidence[contract.value].lock) && rail == input.evidence[contract.value].rail
    else lock.None? && rail.None?
  }

  /** The leg A offers of one buyer under one swap id. */
  function Sharing(c: Collected, from: Did, swapId: Id): set<Id> {
    set id | id in c.legAs && c.legAs[id].offer.from == from && c.legAs[id].offer.leg.LegOfA? && c.legAs[id].offer.leg.swapId == swapId
  }

  /** More than one accept to choose from, and none by the counterparty: the row order decided. */
  predicate ByRows(accepts: seq<PostedAccept>, counterparty: Option<Did>) {
    |accepts| > 1 && !(counterparty.Some? && AcceptedBy(accepts, counterparty.value))
  }

  function Among(order: seq<Id>, sharing: set<Id>): set<Id> {
    set id | id in order && id in sharing
  }

  lemma {:induction false} SharedIsCounted(c: Collected, order: seq<Id>, from: Did, swapId: Id)
    requires NoDuplicates(order)
    ensures SharedCount(c, order, from, swapId) == |Among(order, Sharing(c, from, swapId))|
  {
    if order == [] {
      assert Among(order, Sharing(c, from, swapId)) == {};
    } else {
      SharedIsCounted(c, order[..|order| - 1], from, swapId);
      OneMoreAmong(order[..|order| - 1], order[|order| - 1], Sharing(c, from, swapId));
      assert order == order[..|order| - 1] + [order[|order| - 1]];
    }
  }

  lemma OneMoreAmong(front: seq<Id>, id: Id, sharing: set<Id>)
    requires id !in front
    ensures |Among(front + [id], sharing)| == |Among(front, sharing)| + if id in sharing then 1 else 0
  {
    assert Among(front + [id], sharing) == Among(front, sharing) + if id in sharing then {id} else {};
  }

  lemma ChoiceIsThat(accepts: seq<PostedAccept>, counterparty: Option<Did>)
    ensures IsFoldedWith(accepts, counterparty, ChooseAccept(accepts, counterparty).accept)
    ensures ChooseAccept(accepts, counterparty).byRowOrder <==> ByRows(accepts, counterparty)
  {
    if accepts != [] {
      ChosenAcceptIsTheEarliest(accepts, counterparty);
      if counterparty.Some? && AcceptedBy(accepts, counterparty.value) {
        FirstByIsFirst(accepts, counterparty.value);
        var did := counterparty.value;
        var k: nat :| k < |accepts| && accepts[k] == FirstBy(accepts, did).value && accepts[k].accept.core.from == did && !AcceptedBy(accepts[..k], did);
        forall j | 0 <= j < k ensures accepts[j].accept.core.from != did {
          assert accepts[..k][j] == accepts[j];
        }
        assert IsFirstBy(accepts, did, k);
      }
    }
  }

  /** What the board adds behind the join's own grounds: how the pair was chosen, and how each accept was. */
  predicate Marks(marks: seq<Coordination>, p: Pairing, byRowsA: bool, byRowsB: bool) {
    && (PairedByRowOrder in marks <==> p.ByRowOrder?) && (PairedNoCrossing in marks <==> p.NoCrossing?)
    && (AcceptByRowOrder(A) in marks <==> byRowsA) && (AcceptByRowOrder(B) in marks <==> byRowsB)
    && OrderOfUnsignedTimes !in marks
  }

  /** The view is the join's, with the board's marks behind its own and one more reason where the swap id is shared. */
  predicate Views(view: View, joined: View, marks: seq<Coordination>, swapId: Id, shared: nat) {
    && view.body == joined.body.(coordination := joined.body.coordination + marks)
    && view.reasons == joined.reasons + if shared > 1 then [SharedSwapId(swapId, shared)] else []
  }

  lemma GroundsAreMarks(p: Pairing, legs: Legs)
    ensures Marks(Grounds(p, legs), p, legs.acceptA.byRowOrder && legs.acceptA.accept.Some?, legs.acceptB.byRowOrder && legs.acceptB.accept.Some?)
  {
  }

  /** Leg A's counterparty is whoever signed the leg B it is paired with. */
  function CounterpartyOf(p: Pairing): Option<Did> {
    if p.NoPair? then None else Some(p.b.offer.from)
  }

  /** The two folds, the evidence and the clock that are joined into one swap. */
  ghost predicate Joins(t: Rules, input: BoardInput, c: Collected, legA: PostedOffer, p: Pairing, folded: Input) {
    && (exists accept ::
          IsFoldedWith(AcceptsOf(c, legA.offer.id), CounterpartyOf(p), accept) && FoldsRows(t, input, legA.record, accept, folded.legA))
    && (if p.NoPair? then folded.legB == NoFold
        else exists accept ::
          IsFoldedWith(AcceptsOf(c, p.b.offer.id), Some(legA.offer.from), accept) && FoldsRows(t, input, p.b.record, accept, folded.legB))
    && OwnEvidence(input, folded.legA, folded.evidence.a, folded.evidence.aRail)
    && OwnEvidence(input, folded.legB, folded.evidence.b, folded.evidence.bRail)
    && folded.nowMs == input.nowMs
  }

  lemma RowsAreFolded(t: Rules, input: BoardInput, offer: Record, accept: Option<PostedAccept>)
    ensures FoldsRows(t, input, offer, accept, t.foldTranscript(LegRecords(input, offer, accept)))
  {
    if accept.Some? && accept.value.accept.contract !in input.dealRooms {
      assert LegRecords(input, offer, accept) == [offer, accept.value.record];
    }
  }

  lemma LegsJoin(t: Rules, input: BoardInput, c: Collected, legA: PostedOffer, p: Pairing)
    ensures var legs := LegsOf(t, input, c, legA, p);
            Joins(t, input, c, legA, p, Input(legs.foldA, legs.foldB, EvidenceFor(input, legs), input.nowMs))
  {
    hide ChooseAccept, AcceptsOf, IsFoldedWith, ContractOf, PairEvidence, EvidenceFor;
    var legs := LegsOf(t, input, c, legA, p);
    ChoiceIsThat(AcceptsOf(c, legA.offer.id), CounterpartyOf(p));
    RowsAreFolded(t, input, legA.record, legs.acceptA.accept);
    if !p.NoPair? {
      ChoiceIsThat(AcceptsOf(c, p.b.offer.id), Some(legA.offer.from));
      RowsAreFolded(t, input, p.b.record, legs.acceptB.accept);
    }
    EachLegHasItsOwnEvidence(input, legs);
  }

  /** Two joins of one swap are the same: nothing else reaches the fold. */
  lemma JoinsOnce(t: Rules, input: BoardInput, c: Collected, legA: PostedOffer, p: Pairing, folded: Input, folded': Input)
    requires Joins(t, input, c, legA, p, folded) && Joins(t, input, c, legA, p, folded')
    ensures folded == folded'
  {
    hide AcceptsOf, ContractOf;
    FoldedOnce(t, input, AcceptsOf(c, legA.offer.id), CounterpartyOf(p), legA.record, folded.legA, folded'.legA);
    if !p.NoPair? {
      FoldedOnce(t, input, AcceptsOf(c, p.b.offer.id), Some(legA.offer.from), p.b.record, folded.legB, folded'.legB);
    }
  }

  lemma FoldedOnce(t: Rules, input: BoardInput, accepts: seq<PostedAccept>, counterparty: Option<Did>, offer: Record, fold: LegFold, fold': LegFold)
    requires exists accept :: IsFoldedWith(accepts, counterparty, accept) && FoldsRows(t, input, offer, accept, fold)
    requires exists accept :: IsFoldedWith(accepts, counterparty, accept) && FoldsRows(t, input, offer, accept, fold')
    ensures fold == fold'
  {
    hide FoldsRows;
    var a :| IsFoldedWith(accepts, counterparty, a) && FoldsRows(t, input, offer, a, fold);
    var b :| IsFoldedWith(accepts, counterparty, b) && FoldsRows(t, input, offer, b, fold');
    ChosenOnce(accepts, counterparty, a, b);
    FoldsOnce(t, input, offer, a, fold, fold');
  }

  lemma FoldsOnce(t: Rules, input: BoardInput, offer: Record, accept: Option<PostedAccept>, fold: LegFold, fold': LegFold)
    requires FoldsRows(t, input, offer, accept, fold) && FoldsRows(t, input, offer, accept, fold')
    ensures fold == fold'
  {
  }

  lemma ChosenOnce(accepts: seq<PostedAccept>, counterparty: Option<Did>, a: Option<PostedAccept>, b: Option<PostedAccept>)
    requires IsFoldedWith(accepts, counterparty, a) && IsFoldedWith(accepts, counterparty, b)
    ensures a == b
  {
    if accepts != [] && counterparty.Some? && AcceptedBy(accepts, counterparty.value) {
      var k: nat :| IsFirstBy(accepts, counterparty.value, k) && a == Some(accepts[k]);
      var n: nat :| IsFirstBy(accepts, counterparty.value, n) && b == Some(accepts[n]);
      assert k == n;
    }
  }

  /**
   * Every swap of the board, exactly: leg A is folded from its offer's row, its accept's row and that accept's deal room, in
   * order, or from its offer's row alone where it has no accept; leg B the same, and not at all where there is none; the two
   * folds are joined under each leg's own evidence at the board's clock; and the view is that join's, with the grounds of the
   * board's choices behind its own and one more reason where the buyer's swap id is shared.
   */
  lemma EverySwapFoldsItsRows(t: Rules, input: BoardInput, id: Id, folded: Input) returns (marks: seq<Coordination>)
    requires id in Collect(t, input.offers).legAs
    requires var c := Collect(t, input.offers);
             Joins(t, input, c, c.legAs[id], PairingOf(c, ByPlace(c.legBs), id), folded)
    ensures var c := Collect(t, input.offers);
            var (legA, p) := (c.legAs[id], PairingOf(c, ByPlace(c.legBs), id));
            && legA.offer.leg.LegOfA?
            && Views(SwapOf(t, input, c, id), t.foldSwap(folded), marks, legA.offer.leg.swapId,
                     |Sharing(c, legA.offer.from, legA.offer.leg.swapId)|)
            && Marks(marks, p, ByRows(AcceptsOf(c, id), CounterpartyOf(p)),
                     !p.NoPair? && ByRows(AcceptsOf(c, p.b.offer.id), Some(legA.offer.from)))
  {
    hide PairingOf, ByPlace, Collect, ChooseAccept, AcceptsOf, SharedCount, Joins, ByRows, PairEvidence, EvidenceFor, Authentic, Marks, Grounds;
    var c := Collect(t, input.offers);
    CollectedIsSound(t, input.offers);
    var (legA, p) := (c.legAs[id], PairingOf(c, ByPlace(c.legBs), id));
    var legs := LegsOf(t, input, c, legA, p);
    marks := Grounds(p, legs);
    LegsJoin(t, input, c, legA, p);
    JoinsOnce(t, input, c, legA, p, folded, Input(legs.foldA, legs.foldB, EvidenceFor(input, legs), input.nowMs));
    GroundsAreMarks(p, legs);
    MarkedByRows(AcceptsOf(c, id), CounterpartyOf(p));
    if !p.NoPair? {
      MarkedByRows(AcceptsOf(c, p.b.offer.id), Some(legA.offer.from));
    }
    SharedIsCounted(c, c.order, legA.offer.from, legA.offer.leg.swapId);
    assert Among(c.order, Sharing(c, legA.offer.from, legA.offer.leg.swapId)) == Sharing(c, legA.offer.from, legA.offer.leg.swapId);
  }

  lemma MarkedByRows(accepts: seq<PostedAccept>, counterparty: Option<Did>)
    ensures var choice := ChooseAccept(accepts, counterparty);
            choice.byRowOrder && choice.accept.Some? <==> ByRows(accepts, counterparty)
  {
    ChoiceIsThat(accepts, counterparty);
  }

  /** And there is such a join for every swap. */
  lemma EverySwapIsJoined(t: Rules, input: BoardInput, id: Id) returns (folded: Input)
    requires id in Collect(t, input.offers).legAs
    ensures var c := Collect(t, input.offers);
            Joins(t, input, c, c.legAs[id], PairingOf(c, ByPlace(c.legBs), id), folded)
  {
    hide PairingOf, ByPlace, Collect, LegsOf, Joins, EvidenceFor;
    var c := Collect(t, input.offers);
    var legs := LegsOf(t, input, c, c.legAs[id], PairingOf(c, ByPlace(c.legBs), id));
    folded := Input(legs.foldA, legs.foldB, EvidenceFor(input, legs), input.nowMs);
    LegsJoin(t, input, c, c.legAs[id], PairingOf(c, ByPlace(c.legBs), id));
  }
}
