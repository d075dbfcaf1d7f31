/**
 * `buildBoard` as the source writes it: maps and sets filled in loops over the export, a running best per leg A, one pass for
 * the unpaired, one for the views. Each loop is proved against its part of `Board`.
 */
module BoardBuild {
  import opened Options
  import opened Swap
  import opened SwapFold
  import opened Board
  import opened BoardFacts

  // --- collecting ----------------------------------------------------------------------------------------------------------

  function AuthenticOnly(records: seq<Record>): seq<Record> {
    if records == [] then []
    else AuthenticOnly(records[..|records| - 1]) + if Authentic(records[|records| - 1]) then [records[|records| - 1]] else []
  }

  /** `authenticateOffers`. */
  method AuthenticateOffers(records: seq<Record>) returns (out: seq<Record>)
    ensures out == AuthenticOnly(records)
  {
    out := [];
    var i := 0;
    while i < |records|
      invariant 0 <= i <= |records| && out == AuthenticOnly(records[..i])
    {
      assert records[..i + 1][..i] == records[..i];
      var record := records[i];
      i := i + 1;
      if !record.inOffersRoom {
        continue;
      }
      if !record.verified {
        continue;
      }
      if record.frame.None? {
        continue;
      }
      if SignedBy(record.frame.value) != record.sender {
        continue;
      }
      out := out + [record];
    }
    assert records[..i] == records;
  }

  /** What is not authentic never reaches the board. */
  lemma {:induction false} OnlyAuthenticCounts(t: Rules, records: seq<Record>)
    ensures Collect(t, AuthenticOnly(records)) == Collect(t, records)
  {
    if records != [] {
      var front, last := records[..|records| - 1], records[|records| - 1];
      OnlyAuthenticCounts(t, front);
      if Authentic(last) {
        assert AuthenticOnly(records)[..|AuthenticOnly(front)|] == AuthenticOnly(front);
      } else {
        assert AuthenticOnly(records) == AuthenticOnly(front);
      }
    }
  }

  /** The pass over the authenticated frames. */
  method CollectFrames(t: Rules, records: seq<Record>) returns (c: Collected)
    ensures c == Collect(t, records)
  {
    var authed := AuthenticateOffers(records);
    OnlyAuthenticCounts(t, records);
    AllAuthentic(records);
    var offersById: map<Id, Offer> := map[];
    var legAByOfferId: map<Id, PostedOffer> := map[];
    var order: seq<Id> := [];
    var legBCandidates: seq<PostedOffer> := [];
    var acceptsByRef: map<Id, seq<PostedAccept>> := map[];
    var i := 0;
    while i < |authed|
      invariant 0 <= i <= |authed|
      invariant Collected(offersById, legAByOfferId, order, legBCandidates, acceptsByRef) == Collect(t, authed[..i])
    {
      assert authed[..i + 1][..i] == authed[..i];
      var record := authed[i];
      i := i + 1;
      match record.frame.value {
        case OfferFrame(offer) =>
          if offer.id !in offersById {
            offersById := offersById[offer.id := offer];
          }
          if offer.leg.NotALeg? {
            continue;
          }
          if offer.leg.LegOfA? {
            if offer.id !in legAByOfferId {
              legAByOfferId := legAByOfferId[offer.id := PostedOffer(record, offer)];
              order := order + [offer.id];
            }
          } else {
            legBCandidates := legBCandidates + [PostedOffer(record, offer)];
          }
        case AcceptFrame(accept) =>
          var ref := accept.core.ref;
          if ref !in offersById || !Genuine(t, offersById[ref], accept) {
            continue;
          }
          if ref !in acceptsByRef {
            assert [] + [PostedAccept(record, accept)] == [PostedAccept(record, accept)];
            acceptsByRef := acceptsByRef[ref := [PostedAccept(record, accept)]];
          } else {
            acceptsByRef := acceptsByRef[ref := acceptsByRef[ref] + [PostedAccept(record, accept)]];
          }
        case OtherFrame(_) =>
      }
    }
    assert authed[..i] == authed;
    c := Collected(offersById, legAByOfferId, order, legBCandidates, acceptsByRef);
  }

  lemma {:induction false} AllAuthentic(records: seq<Record>)
    ensures forall i :: 0 <= i < |AuthenticOnly(records)| ==> Authentic(AuthenticOnly(records)[i])
  {
    if records != [] {
      AllAuthentic(records[..|records| - 1]);
    }
  }

  // --- pairing -------------------------------------------------------------------------------------------------------------

  /** Sorting by place: an insertion per row, stable. */
  method SortByPlace(bs: seq<PostedOffer>) returns (sorted: seq<PostedOffer>)
    ensures sorted == ByPlace(bs) && InPlaceOrder(sorted) && multiset(sorted) == multiset(bs)
  {
    sorted := [];
    var i := 0;
    while i < |bs|
      invariant 0 <= i <= |bs| && sorted == ByPlace(bs[..i])
    {
      assert bs[..i + 1][..i] == bs[..i];
      sorted := Insert(sorted, bs[i]);
      i := i + 1;
    }
    assert bs[..i] == bs;
    ByPlaceKeeps(bs);
  }

  /** The groups of a list, and the order they appeared in. */
  ghost predicate Grouped(bs: seq<PostedOffer>, groups: map<Id, seq<PostedOffer>>, names: seq<Id>) {
    && (forall id: Id :: id in groups <==> CandidatesOf(bs, id) != [])
    && (forall id :: id in groups ==> groups[id] == CandidatesOf(bs, id))
    && NoDuplicates(names) && (forall id :: id in names <==> id in groups)
  }

  /** The candidates grouped by the leg A they name, in venue order. */
  method GroupByLegA(sorted: seq<PostedOffer>) returns (groups: map<Id, seq<PostedOffer>>, names: seq<Id>)
    requires AllLegBs(sorted)
    ensures Grouped(sorted, groups, names)
  {
    groups, names := map[], [];
    var i := 0;
    while i < |sorted|
      invariant 0 <= i <= |sorted|
      invariant Grouped(sorted[..i], groups, names)
    {
      var b := sorted[i];
      var id := b.offer.leg.legAOfferId;
      assert sorted[..i + 1] == sorted[..i] + [b];
      GroupGrows(sorted[..i], groups, names, b);
      if id !in groups {
        groups := groups[id := [b]];
        names := names + [id];
      } else {
        groups := groups[id := groups[id] + [b]];
      }
      i := i + 1;
    }
    assert sorted[..i] == sorted;
  }

  lemma GroupGrows(bs: seq<PostedOffer>, groups: map<Id, seq<PostedOffer>>, names: seq<Id>, b: PostedOffer)
    requires Grouped(bs, groups, names) && b.offer.leg.LegOfB?
    ensures var id := b.offer.leg.legAOfferId;
            if id in groups then Grouped(bs + [b], groups[id := groups[id] + [b]], names)
            else Grouped(bs + [b], groups[id := [b]], names + [id])
  {
    var legA := b.offer.leg.legAOfferId;
    forall id: Id ensures CandidatesOf(bs + [b], id) == CandidatesOf(bs, id) + if id == legA then [b] else [] {
      assert (bs + [b])[..|bs|] == bs;
    }
  }

  /** The running best over one leg A's candidates. */
  method ChooseLegB(c: Collected, legA: PostedOffer, candidates: seq<PostedOffer>)
    returns (crossing: Option<PostedOffer>, fallback: Option<PostedOffer>)
    ensures crossing == BestOf(c, legA, candidates).crossing && fallback == BestOf(c, legA, candidates).fallback
  {
    var accepts := AcceptsOf(c, legA.offer.id);
    crossing, fallback := None, None;
    var crossingSeq := 0;
    var i := 0;
    while i < |candidates|
      invariant 0 <= i <= |candidates|
      invariant Best(crossing, crossingSeq, fallback) == BestOf(c, legA, candidates[..i])
    {
      assert candidates[..i + 1][..i] == candidates[..i];
      var candidate := candidates[i];
      i := i + 1;
      var aSeq := AcceptPlace(accepts, candidate.offer.from);
      if aSeq.None? {
        continue;
      }
      if fallback.None? {
        fallback := Some(candidate);
      }
      var buyerAccepted := AcceptedBy(AcceptsOf(c, candidate.offer.id), legA.offer.from);
      if buyerAccepted && (crossing.None? || aSeq.value < crossingSeq) {
        crossing := Some(candidate);
        crossingSeq := aSeq.value;
      }
    }
    assert candidates[..i] == candidates;
  }

  /** One leg A's pairing. */
  method PairOne(c: Collected, sorted: seq<PostedOffer>, id: Id, candidates: seq<PostedOffer>) returns (pairing: Pairing)
    requires candidates == CandidatesOf(sorted, id) != []
    ensures pairing == PairingOf(c, sorted, id)
  {
    if id !in c.legAs {
      return NoPair;
    }
    var accepts := AcceptsOf(c, id);
    if |accepts| == 0 {
      return ByRowOrder(candidates[0]);
    }
    var crossing, fallback := ChooseLegB(c, c.legAs[id], candidates);
    if crossing.Some? {
      return Crossing(crossing.value);
    }
    if fallback.Some? {
      return NoCrossing(fallback.value);
    }
    return NoPair;
  }

  /** The map holds this leg A's pairing, or nothing where it has none. */
  ghost predicate Filed(pairingOf: Id -> Pairing, pairings: map<Id, Pairing>, id: Id) {
    if id in pairings then pairings[id] == pairingOf(id) && !pairings[id].NoPair? else pairingOf(id).NoPair?
  }

  /** The pairing of every leg A, where there is one. */
  method PairLegs(c: Collected, sorted: seq<PostedOffer>, ghost pairingOf: Id -> Pairing) returns (pairings: map<Id, Pairing>)
    requires AllLegBs(sorted) && forall id :: pairingOf(id) == PairingOf(c, sorted, id)
    ensures forall id :: Filed(pairingOf, pairings, id)
  {
    pairings := map[];
    var groups, names := GroupByLegA(sorted);
    var i := 0;
    while i < |names|
      invariant 0 <= i <= |names|
      invariant forall id :: id in names[..i] ==> Filed(pairingOf, pairings, id)
      invariant forall id :: id in pairings ==> id in names[..i]
    {
      var id := names[i];
      assert names[..i + 1] == names[..i] + [id];
      i := i + 1;
      var pairing := PairOne(c, sorted, id, groups[id]);
      if pairing.NoPair? {
        continue;
      }
      pairings := pairings[id := pairing];
    }
    forall id: Id ensures Filed(pairingOf, pairings, id) {
      if id !in names {
        assert CandidatesOf(sorted, id) == [];
      }
    }
  }

  /** The pass that lists every candidate that won nothing. */
  method ListUnpaired(c: Collected, sorted: seq<PostedOffer>, pairings: map<Id, Pairing>, ghost pairingOf: Id -> Pairing)
    returns (unpaired: seq<Loser>)
    requires AllLegBs(sorted) && forall id :: pairingOf(id) == PairingOf(c, sorted, id)
    requires forall id :: Filed(pairingOf, pairings, id)
    ensures unpaired == Losers(c, sorted)
  {
    ghost var loses := (b: PostedOffer) => LosesWhy(c, sorted, b);
    unpaired := [];
    var i := 0;
    while i < |sorted|
      invariant 0 <= i <= |sorted|
      invariant unpaired == LosersBy(loses, sorted[..i])
    {
      assert sorted[..i + 1][..i] == sorted[..i];
      var why := WhyUnpaired(c, sorted, pairings, pairingOf, sorted[i]);
      if why.Some? {
        unpaired := unpaired + [Loser(sorted[i], why.value)];
      }
      i := i + 1;
    }
    assert sorted[..i] == sorted;
  }

  method WhyUnpaired(c: Collected, sorted: seq<PostedOffer>, pairings: map<Id, Pairing>, ghost pairingOf: Id -> Pairing,
                     candidate: PostedOffer) returns (why: Option<Why>)
    requires candidate.offer.leg.LegOfB? && forall id :: pairingOf(id) == PairingOf(c, sorted, id)
    requires Filed(pairingOf, pairings, candidate.offer.leg.legAOfferId)
    ensures why == LosesWhy(c, sorted, candidate)
  {
    var legA := candidate.offer.leg.legAOfferId;
    if legA !in c.legAs {
      return Some(UnknownLegA);
    }
    var winner := if legA in pairings then Winner(pairings[legA]) else None;
    if winner == Some(candidate) {
      return None;
    }
    if winner.Some? && winner.value.record.place < candidate.record.place {
      return Some(AlreadyPaired);
    }
    var accepts := AcceptsOf(c, legA);
    if |accepts| > 0 && !AcceptedBy(accepts, candidate.offer.from) {
      return Some(NotByAccepter);
    }
    return Some(AlreadyPaired);
  }

  // --- views ---------------------------------------------------------------------------------------------------------------

  /** One leg A's view: folded bare to learn its contracts, and folded again only when evidence stands under them. */
  method ViewSwap(t: Rules, input: BoardInput, c: Collected, legA: PostedOffer, pairing: Pairing, shared: nat) returns (view: View)
    requires FoldsSwaps(t)
    ensures view == ViewOf(t, input, c, legA, pairing, shared)
  {
    var legB := Winner(pairing);
    var acceptA := ChooseAccept(AcceptsOf(c, legA.offer.id), if legB.Some? then Some(legB.value.offer.from) else None);
    var legARecords := LegRecords(input, legA.record, acceptA.accept);
    var acceptB := if legB.Some? then ChooseAccept(AcceptsOf(c, legB.value.offer.id), Some(legA.offer.from)) else Choice(None, false);
    var foldA := t.foldTranscript(legARecords);
    var foldB := if legB.Some? then t.foldTranscript(LegRecords(input, legB.value.record, acceptB.accept)) else NoFold;
    var bare := FoldSwap(Input(foldA, foldB, NO_EVIDENCE, input.nowMs));
    var evidence := PairEvidence(input.evidence, ContractOf(foldA), ContractOf(foldB));
    view := bare;
    if evidence.Some? {
      view := FoldSwap(Input(foldA, foldB, evidence.value, input.nowMs));
    }
    var coordination := AddGrounds(pairing, Legs(acceptA, acceptB, foldA, foldB), view.body.coordination);
    view := View(view.body.(coordination := coordination),
                 view.reasons + if shared > 1 && legA.offer.leg.LegOfA? then [SharedSwapId(legA.offer.leg.swapId, shared)] else []);
  }

  /** How the pair and its accepts were chosen, behind what the fold itself said. */
  method AddGrounds(pairing: Pairing, legs: Legs, said: seq<Coordination>) returns (coordination: seq<Coordination>)
    ensures coordination == said + Grounds(pairing, legs)
  {
    coordination := said;
    if pairing.ByRowOrder? {
      coordination := coordination + [PairedByRowOrder];
    }
    if pairing.NoCrossing? {
      coordination := coordination + [PairedNoCrossing];
    }
    if legs.acceptA.byRowOrder && legs.acceptA.accept.Some? {
      coordination := coordination + [AcceptByRowOrder(A)];
    }
    if legs.acceptB.byRowOrder && legs.acceptB.accept.Some? {
      coordination := coordination + [AcceptByRowOrder(B)];
    }
  }

  /** Everything one leg A's view needs: its pairing, filed, and the name its view goes by while the views are gathered. */
  ghost predicate Ready(t: Rules, input: BoardInput, c: Collected, pairings: map<Id, Pairing>, viewOf: Id -> View, id: Id) {
    && id in c.legAs && c.legAs[id].offer.leg.LegOfA?
    && PairingOf(c, ByPlace(c.legBs), id) == (if id in pairings then pairings[id] else NoPair)
    && viewOf(id) == SwapOf(t, input, c, id)
  }

  /** The views of the leg A offers, in the order they were first seen. */
  method ViewAll(t: Rules, input: BoardInput, c: Collected, pairings: map<Id, Pairing>, ghost viewOf: Id -> View) returns (swaps: seq<View>)
    requires FoldsSwaps(t)
    requires forall k {:trigger Ready(t, input, c, pairings, viewOf, c.order[k])} ::
               0 <= k < |c.order| ==> Ready(t, input, c, pairings, viewOf, c.order[k])
    ensures |swaps| == |c.order| && forall k :: 0 <= k < |swaps| ==> swaps[k] == viewOf(c.order[k])
  {
    swaps := [];
    var i := 0;
    while i < |c.order|
      invariant 0 <= i <= |c.order| && |swaps| == i
      invariant forall k :: 0 <= k < i ==> swaps[k] == viewOf(c.order[k])
    {
      var view := ViewOne(t, input, c, pairings, viewOf, c.order[i]);
      swaps := swaps + [view];
      i := i + 1;
    }
  }

  method ViewOne(t: Rules, input: BoardInput, c: Collected, pairings: map<Id, Pairing>, ghost viewOf: Id -> View, id: Id)
    returns (view: View)
    requires FoldsSwaps(t) && Ready(t, input, c, pairings, viewOf, id)
    ensures view == viewOf(id)
  {
    var legA := c.legAs[id];
    var shared := SharedCount(c, c.order, legA.offer.from, legA.offer.leg.swapId);
    var pairing := if id in pairings then pairings[id] else NoPair;
    view := ViewSwap(t, input, c, legA, pairing, shared);
  }

  /**
   * `buildBoard`: one view per leg A offer, in the order they were first seen, and one entry per leg B offer that won nothing.
   */
  method BuildBoard(t: Rules, input: BoardInput) returns (swaps: seq<View>, unpaired: seq<Loser>)
    requires FoldsSwaps(t)
    ensures var c := Collect(t, input.offers);
            && Sound(t, c)
            && |swaps| == |c.order| && (forall k :: 0 <= k < |swaps| ==> swaps[k] == SwapOf(t, input, c, c.order[k]))
            && unpaired == Losers(c, ByPlace(c.legBs))
  {
    var c := CollectFrames(t, input.offers);
    CollectedIsSound(t, input.offers);
    var sorted := SortByPlace(c.legBs);
    SortedAreLegBs(c.legBs);
    ghost var pairingOf := (id: Id) => PairingOf(c, sorted, id);
    var pairings := PairLegs(c, sorted, pairingOf);
    unpaired := ListUnpaired(c, sorted, pairings, pairingOf);
    ghost var viewOf := (id: Id) => if id in c.legAs then SwapOf(t, input, c, id) else View(StartBody(NO_EVIDENCE), []);
    forall k | 0 <= k < |c.order| ensures Ready(t, input, c, pairings, viewOf, c.order[k]) {
      assert Filed(pairingOf, pairings, c.order[k]);
    }
    swaps := ViewAll(t, input, c, pairings, viewOf);
  }

  lemma SortedAreLegBs(bs: seq<PostedOffer>)
    requires AllLegBs(bs)
    ensures AllLegBs(ByPlace(bs))
  {
    ByPlaceKeeps(bs);
    forall k | 0 <= k < |ByPlace(bs)| ensures ByPlace(bs)[k].offer.leg.LegOfB? {
      assert ByPlace(bs)[k] in multiset(ByPlace(bs));
    }
  }
}
