/**
 * The board (`src/board.ts`): what every authenticated offer and accept of the offers room comes to, which leg B each leg A is
 * paired with, and the view each pair folds to.
 *
 * tclk's own functions (the contract id of an offer and an accept, and the contract machine) are parameters, and so is the
 * fold of two legs.
 */
module Board {
  import opened Options
  import opened Swap

  // --- records -----------------------------------------------------------------------------------------------------------

  /** What an accept signs besides its contract id. */
  datatype Core = Core(from: Did, ref: Id, statement: nat, nonce: nat)

  datatype Accept = Accept(core: Core, contract: Id)

  datatype Frame = OfferFrame(offer: Offer) | AcceptFrame(accept: Accept) | OtherFrame(from: Did)

  function SignedBy(frame: Frame): Did {
    match frame
    case OfferFrame(offer) => offer.from
    case AcceptFrame(accept) => accept.core.from
    case OtherFrame(from) => from
  }

  /** One row of an export: no two rows have the same `uid`, which stands for a row's identity; `frame` is what its line decodes to, if anything. */
  datatype Record = Record(uid: nat, place: nat, sender: Did, inOffersRoom: bool, verified: bool, frame: Option<Frame>)

  /** A row counts only when its sender verifiably posted it in the offers room and is the one the frame names. */
  predicate Authentic(record: Record) {
    record.inOffersRoom && record.verified && record.frame.Some? && SignedBy(record.frame.value) == record.sender
  }

  datatype PostedOffer = PostedOffer(record: Record, offer: Offer)

  datatype PostedAccept = PostedAccept(record: Record, accept: Accept)

  /**
   * The functions a board is built on: tclk's contract id of an offer and an accept's core, if it can derive one, tclk's
   * contract machine, and the fold of two legs.
   */
  datatype Rules = Rules(contractId: (Offer, Core) -> Option<Id>, foldTranscript: seq<Record> -> LegFold, foldSwap: Input -> View)

  /** Two legs are folded as `Swap` says. */
  ghost predicate FoldsSwaps(t: Rules) {
    forall input :: t.foldSwap(input) == Fold(input)
  }

  /** `isGenuineAccept`: the id is the one tclk derives, and the offerer did not accept its own offer. */
  predicate Genuine(t: Rules, offer: Offer, accept: Accept) {
    accept.core.ref == offer.id && accept.core.from != offer.from && t.contractId(offer, accept.core) == Some(accept.contract)
  }

  // --- collecting --------------------------------------------------------------------------------------------------------

  /**
   * What one pass over the offers room fills: every offer by its id, first seen; the leg A offers and their order; every
   * leg B offer; and the genuine accepts by the offer they name.
   */
  datatype Collected = Collected(
    offers: map<Id, Offer>,
    legAs: map<Id, PostedOffer>,
    order: seq<Id>,
    legBs: seq<PostedOffer>,
    accepts: map<Id, seq<PostedAccept>>)

  const NOTHING := Collected(map[], map[], [], [], map[])

  function AcceptsOf(c: Collected, id: Id): seq<PostedAccept> {
    if id in c.accepts then c.accepts[id] else []
  }

  function TakeOffer(c: Collected, record: Record, offer: Offer): Collected {
    var known := if offer.id in c.offers then c else c.(offers := c.offers[offer.id := offer]);
    match offer.leg
    case NotALeg => known
    case LegOfA(_, _) =>
      if offer.id in known.legAs then known
      else known.(legAs := known.legAs[offer.id := PostedOffer(record, offer)], order := known.order + [offer.id])
    case LegOfB(_, _) => known.(legBs := known.legBs + [PostedOffer(record, offer)])
  }

  function TakeAccept(t: Rules, c: Collected, record: Record, accept: Accept): Collected {
    if accept.core.ref in c.offers && Genuine(t, c.offers[accept.core.ref], accept)
    then c.(accepts := c.accepts[accept.core.ref := AcceptsOf(c, accept.core.ref) + [PostedAccept(record, accept)]])
    else c
  }

  function Take(t: Rules, c: Collected, record: Record): Collected {
    if !Authentic(record) then c
    else match record.frame.value
      case OfferFrame(offer) => TakeOffer(c, record, offer)
      case AcceptFrame(accept) => TakeAccept(t, c, record, accept)
      case OtherFrame(_) => c
  }

  function Collect(t: Rules, records: seq<Record>): Collected {
    if records == [] then NOTHING else Take(t, Collect(t, records[..|records| - 1]), records[|records| - 1])
  }

  // --- pairing -----------------------------------------------------------------------------------------------------------

  /** A leg B offer's own leg A. */
  function LegAOf(b: PostedOffer): Option<Id> {
    if b.offer.leg.LegOfB? then Some(b.offer.leg.legAOfferId) else None
  }

  /** Into a list in venue order, behind everything with the same place. */
  function Insert(sorted: seq<PostedOffer>, b: PostedOffer): seq<PostedOffer> {
    if sorted == [] || sorted[|sorted| - 1].record.place <= b.record.place then sorted + [b]
    else Insert(sorted[..|sorted| - 1], b) + [sorted[|sorted| - 1]]
  }

  /** Sorted by place in the room, rows with the same place in the order given. */
  function ByPlace(bs: seq<PostedOffer>): seq<PostedOffer> {
    if bs == [] then [] else Insert(ByPlace(bs[..|bs| - 1]), bs[|bs| - 1])
  }

  /** The leg B offers that name a leg A, in venue order. */
  function CandidatesOf(sorted: seq<PostedOffer>, legA: Id): seq<PostedOffer> {
    if sorted == [] then []
    else
      var last := sorted[|sorted| - 1];
      CandidatesOf(sorted[..|sorted| - 1], legA) + if LegAOf(last) == Some(legA) then [last] else []
  }

  /** The least place of an accept by this DID, if there is one. */
  function AcceptPlace(accepts: seq<PostedAccept>, did: Did): Option<nat> {
    if accepts == [] then None
    else
      var (rest, last) := (AcceptPlace(accepts[..|accepts| - 1], did), accepts[|accepts| - 1]);
      if last.accept.core.from != did then rest
      else if rest.None? || last.record.place < rest.value then Some(last.record.place)
      else rest
  }

  predicate AcceptedBy(accepts: seq<PostedAccept>, did: Did) {
    exists k :: 0 <= k < |accepts| && accepts[k].accept.core.from == did
  }

  /** Signed by an accepter of leg A, and accepted by leg A's own offerer. */
  predicate IsCrossing(c: Collected, legA: PostedOffer, b: PostedOffer) {
    AcceptedBy(AcceptsOf(c, legA.offer.id), b.offer.from) && AcceptedBy(AcceptsOf(c, b.offer.id), legA.offer.from)
  }

  /** The running choice over the candidates so far: the best crossing one with its accept's place, and the first accepter's. */
  datatype Best = Best(crossing: Option<PostedOffer>, crossingPlace: nat, fallback: Option<PostedOffer>)

  function Better(c: Collected, legA: PostedOffer, best: Best, b: PostedOffer): Best {
    var place := AcceptPlace(AcceptsOf(c, legA.offer.id), b.offer.from);
    if place.None? then best
    else
      var first := if best.fallback.None? then best.(fallback := Some(b)) else best;
      if AcceptedBy(AcceptsOf(c, b.offer.id), legA.offer.from) && (best.crossing.None? || place.value < best.crossingPlace)
      then first.(crossing := Some(b), crossingPlace := place.value)
      else first
  }

  function BestOf(c: Collected, legA: PostedOffer, candidates: seq<PostedOffer>): Best {
    if candidates == [] then Best(None, 0, None)
    else Better(c, legA, BestOf(c, legA, candidates[..|candidates| - 1]), candidates[|candidates| - 1])
  }

  /** The leg B a leg A is paired with, and on what ground. */
  datatype Pairing = NoPair | ByRowOrder(b: PostedOffer) | NoCrossing(b: PostedOffer) | Crossing(b: PostedOffer)

  function PairingOf(c: Collected, sorted: seq<PostedOffer>, legA: Id): Pairing {
    var candidates := CandidatesOf(sorted, legA);
    if legA !in c.legAs || candidates == [] then NoPair
    else if AcceptsOf(c, legA) == [] then ByRowOrder(candidates[0])
    else
      var best := BestOf(c, c.legAs[legA], candidates);
      if best.crossing.Some? then Crossing(best.crossing.value)
      else if best.fallback.Some? then NoCrossing(best.fallback.value)
      else NoPair
  }

  function Winner(p: Pairing): Option<PostedOffer> {
    if p.NoPair? then None else Some(p.b)
  }

  datatype Why = UnknownLegA | AlreadyPaired | NotByAccepter

  datatype Loser = Loser(b: PostedOffer, why: Why)

  /** Whether a candidate goes unpaired, and why: `None` for a winner. */
  function LosesWhy(c: Collected, sorted: seq<PostedOffer>, b: PostedOffer): Option<Why> {
    if LegAOf(b).None? then None
    else
      var legA := LegAOf(b).value;
      if legA !in c.legAs then Some(UnknownLegA)
      else
        var winner := Winner(PairingOf(c, sorted, legA));
        if winner == Some(b) then None
        else if winner.Some? && winner.value.record.place < b.record.place then Some(AlreadyPaired)
        else if AcceptsOf(c, legA) != [] && !AcceptedBy(AcceptsOf(c, legA), b.offer.from) then Some(NotByAccepter)
        else Some(AlreadyPaired)
  }

  predicate AllLegBs(bs: seq<PostedOffer>) {
    forall k :: 0 <= k < |bs| ==> bs[k].offer.leg.LegOfB?
  }

  function LosersBy(loses: PostedOffer -> Option<Why>, some: seq<PostedOffer>): seq<Loser> {
    if some == [] then []
    else
      var (last, rest) := (some[|some| - 1], LosersBy(loses, some[..|some| - 1]));
      rest + if loses(last).Some? then [Loser(last, loses(last).value)] else []
  }

  /** Every candidate that won nothing, in venue order. */
  function Losers(c: Collected, sorted: seq<PostedOffer>): seq<Loser> {
    LosersBy(b => LosesWhy(c, sorted, b), sorted)
  }

  // --- views -------------------------------------------------------------------------------------------------------------

  /** A chosen accept, and whether the choice rested on row order. */
  datatype Choice = Choice(accept: Option<PostedAccept>, byRowOrder: bool)

  function FirstBy(accepts: seq<PostedAccept>, did: Did): Option<PostedAccept> {
    if accepts == [] then None
    else
      var rest := FirstBy(accepts[..|accepts| - 1], did);
      if rest.Some? then rest
      else if accepts[|accepts| - 1].accept.core.from == did then Some(accepts[|accepts| - 1])
      else None
  }

  /** `chooseAccept`: the counterparty's first accept if it has one, else the earliest. */
  function ChooseAccept(accepts: seq<PostedAccept>, counterparty: Option<Did>): Choice {
    if accepts == [] then Choice(None, false)
    else if counterparty.Some? && FirstBy(accepts, counterparty.value).Some? then
      Choice(FirstBy(accepts, counterparty.value), false)
    else Choice(Some(accepts[0]), |accepts| > 1)
  }

  datatype LegEvidence = LegEvidence(lock: LockEvidence, rail: Option<Observation>)

  datatype BoardInput = BoardInput(
    offers: seq<Record>,
    dealRooms: map<Id, seq<Record>>,
    evidence: map<Id, LegEvidence>,
    nowMs: int)

  function LegRecords(input: BoardInput, offer: Record, accept: Option<PostedAccept>): seq<Record> {
    if accept.None? then [offer]
    else
      var contract := accept.value.accept.contract;
      [offer, accept.value.record] + if contract in input.dealRooms then input.dealRooms[contract] else []
  }

  function At(evidence: map<Id, LegEvidence>, contract: Option<Id>): Option<LegEvidence> {
    if contract.Some? && contract.value in evidence then Some(evidence[contract.value]) else None
  }

  /** `pairEvidence`: each leg's evidence under its own accepted contract. */
  function PairEvidence(evidence: map<Id, LegEvidence>, contractA: Option<Id>, contractB: Option<Id>): Option<Evidence> {
    var (a, b) := (At(evidence, contractA), At(evidence, contractB));
    if a.None? && b.None? then None
    else Some(Evidence(if a.Some? then Some(a.value.lock) else None, if b.Some? then Some(b.value.lock) else None,
                       if a.Some? then a.value.rail else None, if b.Some? then b.value.rail else None))
  }

  /** The two legs' choices and folds of one leg A. */
  datatype Legs = Legs(acceptA: Choice, acceptB: Choice, foldA: LegFold, foldB: LegFold)

  function LegsOf(t: Rules, input: BoardInput, c: Collected, legA: PostedOffer, p: Pairing): Legs {
    var b := Winner(p);
    var acceptA := ChooseAccept(AcceptsOf(c, legA.offer.id), if b.Some? then Some(b.value.offer.from) else None);
    var acceptB := if b.Some? then ChooseAccept(AcceptsOf(c, b.value.offer.id), Some(legA.offer.from)) else Choice(None, false);
    Legs(acceptA, acceptB, t.foldTranscript(LegRecords(input, legA.record, acceptA.accept)),
         if b.Some? then t.foldTranscript(LegRecords(input, b.value.record, acceptB.accept)) else NoFold)
  }

  function ContractOf(fold: LegFold): Option<Id> {
    if StateOf(fold).Some? then StateOf(fold).value.contract else None
  }

  /** The pair's evidence, under the contracts the machine itself accepted. */
  function EvidenceFor(input: BoardInput, legs: Legs): Evidence {
    var found := PairEvidence(input.evidence, ContractOf(legs.foldA), ContractOf(legs.foldB));
    if found.Some? then found.value else NO_EVIDENCE
  }

  /** How many leg A offers of one buyer share a swap id. */
  function SharedCount(c: Collected, order: seq<Id>, from: Did, swapId: Id): nat {
    if order == [] then 0
    else
      var id := order[|order| - 1];
      SharedCount(c, order[..|order| - 1], from, swapId)
      + if id in c.legAs && c.legAs[id].offer.from == from && c.legAs[id].offer.leg.LegOfA? && c.legAs[id].offer.leg.swapId == swapId
        then 1 else 0
  }

  /** What the board adds to a folded view: how the pair and its accepts were chosen. */
  function Grounds(p: Pairing, legs: Legs): seq<Coordination> {
    (if p.ByRowOrder? then [PairedByRowOrder] else [])
    + (if p.NoCrossing? then [PairedNoCrossing] else [])
    + (if legs.acceptA.byRowOrder && legs.acceptA.accept.Some? then [AcceptByRowOrder(A)] else [])
    + (if legs.acceptB.byRowOrder && legs.acceptB.accept.Some? then [AcceptByRowOrder(B)] else [])
  }

  /** The view of one leg A. */
  function ViewOf(t: Rules, input: BoardInput, c: Collected, legA: PostedOffer, p: Pairing, shared: nat): View {
    var legs := LegsOf(t, input, c, legA, p);
    var view := t.foldSwap(Input(legs.foldA, legs.foldB, EvidenceFor(input, legs), input.nowMs));
    View(view.body.(coordination := view.body.coordination + Grounds(p, legs)),
         view.reasons + if shared > 1 && legA.offer.leg.LegOfA? then [SharedSwapId(legA.offer.leg.swapId, shared)] else [])
  }

  /** The view of the swap a leg A offer opens. */
  function SwapOf(t: Rules, input: BoardInput, c: Collected, id: Id): View
    requires id in c.legAs
  {
    var legA := c.legAs[id];
    ViewOf(t, input, c, legA, PairingOf(c, ByPlace(c.legBs), id),
           if legA.offer.leg.LegOfA? then SharedCount(c, c.order, legA.offer.from, legA.offer.leg.swapId) else 0)
  }

}
