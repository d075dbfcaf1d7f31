/** What the board keeps of its input: every leg A is one swap, no leg B is lost or used twice, and a crossing pair wins. */
module BoardFacts {
  import opened Options
  import opened Swap
  import opened Board

  // --- what one pass collects --------------------------------------------------------------------------------------------

  predicate NoDuplicates<T(==)>(s: seq<T>) {
    forall i, j :: 0 <= i < j < |s| ==> s[i] != s[j]
  }

  predicate OfferedBy(record: Record, posted: PostedOffer) {
    posted.record == record && Authentic(record) && record.frame == Some(OfferFrame(posted.offer))
  }

  predicate AllGenuine(t: Rules, offer: Offer, accepts: seq<PostedAccept>) {
    forall k :: 0 <= k < |accepts| ==> Genuine(t, offer, accepts[k].accept)
  }

  ghost predicate SoundAccepts(t: Rules, c: Collected) {
    forall id :: id in c.accepts ==> id in c.offers && AllGenuine(t, c.offers[id], c.accepts[id])
  }

  ghost predicate SoundOffers(c: Collected) {
    && (forall id :: id in c.offers ==> c.offers[id].id == id)
    && (forall id :: id in c.legAs ==> c.legAs[id].offer.id == id && c.legAs[id].offer.leg.LegOfA? && id in c.offers)
    && AllLegBs(c.legBs)
  }

  ghost predicate SoundOrder(c: Collected) {
    NoDuplicates(c.order) && forall id :: id in c.order <==> id in c.legAs
  }

  ghost predicate Sound(t: Rules, c: Collected) {
    SoundOffers(c) && SoundOrder(c) && SoundAccepts(t, c)
  }

  lemma OfferKeepsAccepts(c: Collected, record: Record, offer: Offer)
    ensures TakeOffer(c, record, offer).accepts == c.accepts
  {
  }

  lemma OfferAddsItself(c: Collected, record: Record, offer: Offer)
    ensures forall id :: id in TakeOffer(c, record, offer).offers <==> id in c.offers || id == offer.id
    ensures forall id :: id in TakeOffer(c, record, offer).offers ==>
              TakeOffer(c, record, offer).offers[id] == if id in c.offers then c.offers[id] else offer
  {
  }

  lemma OfferAddsItsLegA(c: Collected, record: Record, offer: Offer)
    ensures var legAs := TakeOffer(c, record, offer).legAs;
            && (forall id :: id in legAs <==> id in c.legAs || (offer.leg.LegOfA? && id == offer.id))
            && (forall id :: id in legAs ==> legAs[id] == if id in c.legAs then c.legAs[id] else PostedOffer(record, offer))
  {
  }

  lemma OfferAddsItsLegB(c: Collected, record: Record, offer: Offer)
    ensures TakeOffer(c, record, offer).legBs == c.legBs + if offer.leg.LegOfB? then [PostedOffer(record, offer)] else []
  {
  }

  lemma OfferAddsToOrder(c: Collected, record: Record, offer: Offer)
    ensures TakeOffer(c, record, offer).order
            == c.order + if offer.leg.LegOfA? && offer.id !in c.legAs then [offer.id] else []
  {
  }

  lemma OfferKeepsAcceptsSound(t: Rules, c: Collected, record: Record, offer: Offer)
    requires SoundAccepts(t, c)
    ensures SoundAccepts(t, TakeOffer(c, record, offer))
  {
    OfferAddsItself(c, record, offer);
    OfferKeepsAccepts(c, record, offer);
  }

  lemma OfferKeepsOffersSound(c: Collected, record: Record, offer: Offer)
    requires SoundOffers(c)
    ensures SoundOffers(TakeOffer(c, record, offer))
  {
    OfferAddsItself(c, record, offer);
    OfferAddsItsLegA(c, record, offer);
    OfferAddsItsLegB(c, record, offer);
  }

  lemma OfferKeepsOrderSound(c: Collected, record: Record, offer: Offer)
    requires SoundOrder(c)
    ensures SoundOrder(TakeOffer(c, record, offer))
  {
    OfferAddsItsLegA(c, record, offer);
    OfferAddsToOrder(c, record, offer);
  }

  lemma TakeOfferKeepsSound(t: Rules, c: Collected, record: Record, offer: Offer)
    requires Sound(t, c)
    ensures Sound(t, TakeOffer(c, record, offer))
  {
    hide SoundAccepts, SoundOffers, SoundOrder, TakeOffer;
    OfferKeepsAcceptsSound(t, c, record, offer);
    OfferKeepsOffersSound(c, record, offer);
    OfferKeepsOrderSound(c, record, offer);
  }

  lemma OneMoreGenuine(t: Rules, offer: Offer, accepts: seq<PostedAccept>, last: PostedAccept)
    requires AllGenuine(t, offer, accepts) && Genuine(t, offer, last.accept)
    ensures AllGenuine(t, offer, accepts + [last])
  {
  }

  lemma TakeAcceptKeepsSound(t: Rules, c: Collected, record: Record, accept: Accept)
    requires Sound(t, c)
    ensures Sound(t, TakeAccept(t, c, record, accept))
  {
    var ref := accept.core.ref;
    if ref in c.offers && Genuine(t, c.offers[ref], accept) {
      OneMoreGenuine(t, c.offers[ref], AcceptsOf(c, ref), PostedAccept(record, accept));
    }
  }

  lemma TakeKeepsSound(t: Rules, c: Collected, record: Record)
    requires Sound(t, c)
    ensures Sound(t, Take(t, c, record))
  {
    if Authentic(record) {
      match record.frame.value
      case OfferFrame(offer) => TakeOfferKeepsSound(t, c, record, offer);
      case AcceptFrame(accept) => TakeAcceptKeepsSound(t, c, record, accept);
      case OtherFrame(_) =>
    }
  }

  lemma {:induction false} CollectedIsSound(t: Rules, records: seq<Record>)
    ensures Sound(t, Collect(t, records))
  {
    if records != [] {
      CollectedIsSound(t, records[..|records| - 1]);
      TakeKeepsSound(t, Collect(t, records[..|records| - 1]), records[|records| - 1]);
    }
  }

  /** A record of the export opens this leg A. */
  ghost predicate Opens(records: seq<Record>, id: Id) {
    exists k :: 0 <= k < |records| && OpensAt(records[k], id)
  }

  predicate OpensAt(record: Record, id: Id) {
    Authentic(record) && record.frame.value.OfferFrame? && record.frame.value.offer.leg.LegOfA? && record.frame.value.offer.id == id
  }

  lemma {:induction false} LegAsAreOpened(t: Rules, records: seq<Record>, id: Id)
    ensures id in Collect(t, records).legAs <==> Opens(records, id)
  {
    if records != [] {
      var front, last := records[..|records| - 1], records[|records| - 1];
      LegAsAreOpened(t, front, id);
      if Opens(records, id) && !Opens(front, id) {
        assert OpensAt(last, id);
      }
      if OpensAt(last, id) {
        assert OpensAt(records[|records| - 1], id);
      }
      assert forall k :: 0 <= k < |front| ==> front[k] == records[k];
    }
  }

  /** The swaps of a board are the distinct leg A offer ids of its export, each once. */
  lemma EveryLegAIsOneSwap(t: Rules, records: seq<Record>)
    ensures var order := Collect(t, records).order;
            NoDuplicates(order) && forall id :: id in order <==> Opens(records, id)
  {
    CollectedIsSound(t, records);
    forall id ensures id in Collect(t, records).order <==> Opens(records, id) {
      LegAsAreOpened(t, records, id);
    }
  }

  // --- sorting -----------------------------------------------------------------------------------------------------------

  predicate InPlaceOrder(bs: seq<PostedOffer>) {
    forall i, j :: 0 <= i < j < |bs| ==> bs[i].record.place <= bs[j].record.place
  }

  lemma {:induction false} InsertKeepsAll(sorted: seq<PostedOffer>, b: PostedOffer)
    ensures multiset(Insert(sorted, b)) == multiset(sorted) + multiset{b}
    decreases |sorted|
  {
    if sorted != [] && sorted[|sorted| - 1].record.place > b.record.place {
      InsertKeepsAll(sorted[..|sorted| - 1], b);
      assert sorted == sorted[..|sorted| - 1] + [sorted[|sorted| - 1]];
    }
  }

  lemma {:induction false} InsertKeepsOrder(sorted: seq<PostedOffer>, b: PostedOffer)
    requires InPlaceOrder(sorted)
    ensures InPlaceOrder(Insert(sorted, b))
    ensures forall k :: 0 <= k < |Insert(sorted, b)| ==> Insert(sorted, b)[k] == b || Insert(sorted, b)[k] in sorted
    decreases |sorted|
  {
    if sorted != [] && sorted[|sorted| - 1].record.place > b.record.place {
      InsertKeepsOrder(sorted[..|sorted| - 1], b);
    }
  }

  /** Sorting loses and adds nothing. */
  lemma {:induction false} ByPlaceKeeps(bs: seq<PostedOffer>)
    ensures InPlaceOrder(ByPlace(bs)) && multiset(ByPlace(bs)) == multiset(bs)
  {
    if bs != [] {
      ByPlaceKeeps(bs[..|bs| - 1]);
      InsertKeepsAll(ByPlace(bs[..|bs| - 1]), bs[|bs| - 1]);
      InsertKeepsOrder(ByPlace(bs[..|bs| - 1]), bs[|bs| - 1]);
      assert bs == bs[..|bs| - 1] + [bs[|bs| - 1]];
    }
  }

  lemma {:induction false} CandidatesAre(sorted: seq<PostedOffer>, legA: Id, b: PostedOffer)
    ensures b in CandidatesOf(sorted, legA) <==> b in sorted && LegAOf(b) == Some(legA)
  {
    if sorted != [] {
      CandidatesAre(sorted[..|sorted| - 1], legA, b);
      assert sorted == sorted[..|sorted| - 1] + [sorted[|sorted| - 1]];
    }
  }

  // --- the best candidate ------------------------------------------------------------------------------------------------

  lemma {:induction false} AcceptPlaceIsLeast(accepts: seq<PostedAccept>, did: Did)
    ensures AcceptPlace(accepts, did).Some? <==> AcceptedBy(accepts, did)
    ensures AcceptPlace(accepts, did).Some? ==>
              && (forall k :: 0 <= k < |accepts| && accepts[k].accept.core.from == did ==> AcceptPlace(accepts, did).value <= accepts[k].record.place)
              && (exists k :: 0 <= k < |accepts| && accepts[k].accept.core.from == did && accepts[k].record.place == AcceptPlace(accepts, did).value)
  {
    if accepts != [] {
      var front, last := accepts[..|accepts| - 1], accepts[|accepts| - 1];
      AcceptPlaceIsLeast(front, did);
      assert forall k :: 0 <= k < |front| ==> front[k] == accepts[k];
      if last.accept.core.from == did {
        assert accepts[|accepts| - 1] == last;
      }
      if AcceptPlace(front, did).Some? {
        var k :| 0 <= k < |front| && front[k].accept.core.from == did && front[k].record.place == AcceptPlace(front, did).value;
        assert accepts[k].record.place == AcceptPlace(front, did).value;
      }
    }
  }

  /** The place of the accept that makes a candidate one. */
  function PlaceFor(c: Collected, legA: PostedOffer, b: PostedOffer): Option<nat> {
    AcceptPlace(AcceptsOf(c, legA.offer.id), b.offer.from)
  }

  /** Of the candidates that cross, this one's accept of leg A is the earliest, and it is the first of those. */
  ghost predicate BestCrossing(c: Collected, legA: PostedOffer, candidates: seq<PostedOffer>, m: nat) {
    && m < |candidates| && IsCrossing(c, legA, candidates[m]) && PlaceFor(c, legA, candidates[m]).Some?
    && forall k :: 0 <= k < |candidates| && IsCrossing(c, legA, candidates[k]) && PlaceFor(c, legA, candidates[k]).Some? ==>
         if k < m then PlaceFor(c, legA, candidates[m]).value < PlaceFor(c, legA, candidates[k]).value
         else PlaceFor(c, legA, candidates[m]).value <= PlaceFor(c, legA, candidates[k]).value
  }

  ghost predicate SomeCrossing(c: Collected, legA: PostedOffer, candidates: seq<PostedOffer>) {
    exists k :: 0 <= k < |candidates| && IsCrossing(c, legA, candidates[k])
  }

  lemma {:induction false} FallbackIsAnAccepter(c: Collected, legA: PostedOffer, candidates: seq<PostedOffer>)
    ensures var best := BestOf(c, legA, candidates);
            best.fallback.Some? ==>
              best.fallback.value in candidates && AcceptedBy(AcceptsOf(c, legA.offer.id), best.fallback.value.offer.from)
  {
    if candidates != [] {
      var front, last := candidates[..|candidates| - 1], candidates[|candidates| - 1];
      FallbackIsAnAccepter(c, legA, front);
      AcceptPlaceIsLeast(AcceptsOf(c, legA.offer.id), last.offer.from);
      assert candidates == front + [last];
    }
  }

  /** The running choice holds the best crossing candidate with its accept's place, and one as soon as there is one. */
  ghost predicate HoldsBest(c: Collected, legA: PostedOffer, candidates: seq<PostedOffer>, best: Best) {
    && (best.crossing.Some? <==> SomeCrossing(c, legA, candidates))
    && (best.crossing.Some? ==> exists m: nat ::
          BestCrossing(c, legA, candidates, m) && best.crossing == Some(candidates[m])
          && PlaceFor(c, legA, candidates[m]) == Some(best.crossingPlace))
  }

  lemma {:induction false} BestIsBest(c: Collected, legA: PostedOffer, candidates: seq<PostedOffer>)
    ensures HoldsBest(c, legA, candidates, BestOf(c, legA, candidates))
  {
    if candidates != [] {
      var front := candidates[..|candidates| - 1];
      BestIsBest(c, legA, front);
      BetterIsBest(c, legA, front, BestOf(c, legA, front), candidates[|candidates| - 1]);
      assert candidates == front + [candidates[|candidates| - 1]];
    }
  }

  lemma BetterIsBest(c: Collected, legA: PostedOffer, front: seq<PostedOffer>, before: Best, last: PostedOffer)
    requires HoldsBest(c, legA, front, before)
    ensures HoldsBest(c, legA, front + [last], Better(c, legA, before, last))
  {
    var candidates, best := front + [last], Better(c, legA, before, last);
    AcceptPlaceIsLeast(AcceptsOf(c, legA.offer.id), last.offer.from);
    assert candidates[..|candidates| - 1] == front && candidates[|candidates| - 1] == last;
    assert forall k :: 0 <= k < |front| ==> candidates[k] == front[k];
    if IsCrossing(c, legA, last) && (before.crossing.None? || PlaceFor(c, legA, last).value < before.crossingPlace) {
      NewBest(c, legA, candidates, before.crossing.None?);
    } else if before.crossing.Some? {
      var m: nat :| BestCrossing(c, legA, front, m) && before.crossing == Some(front[m])
               && PlaceFor(c, legA, front[m]) == Some(before.crossingPlace);
      OldBest(c, legA, front, m, last);
    }
  }

  lemma OldBest(c: Collected, legA: PostedOffer, front: seq<PostedOffer>, m: nat, last: PostedOffer)
    requires BestCrossing(c, legA, front, m)
    requires IsCrossing(c, legA, last) && PlaceFor(c, legA, last).Some? ==>
               PlaceFor(c, legA, front[m]).value <= PlaceFor(c, legA, last).value
    ensures BestCrossing(c, legA, front + [last], m)
  {
    assert forall k :: 0 <= k < |front| ==> (front + [last])[k] == front[k];
  }

  lemma NewBest(c: Collected, legA: PostedOffer, candidates: seq<PostedOffer>, first: bool)
    requires candidates != [] && IsCrossing(c, legA, candidates[|candidates| - 1])
    requires PlaceFor(c, legA, candidates[|candidates| - 1]).Some?
    requires var front := candidates[..|candidates| - 1];
             if first then !SomeCrossing(c, legA, front)
             else exists m: nat :: BestCrossing(c, legA, front, m)
                    && PlaceFor(c, legA, candidates[|candidates| - 1]).value < PlaceFor(c, legA, front[m]).value
    ensures BestCrossing(c, legA, candidates, |candidates| - 1)
  {
    var front := candidates[..|candidates| - 1];
    assert forall k :: 0 <= k < |front| ==> front[k] == candidates[k];
    if !first {
      var m: nat :| BestCrossing(c, legA, front, m)
               && PlaceFor(c, legA, candidates[|candidates| - 1]).value < PlaceFor(c, legA, front[m]).value;
    }
  }

  /** A crossing pairing is the best candidate's; there is one exactly when some candidate crosses. */
  lemma PairingIsBest(c: Collected, sorted: seq<PostedOffer>, id: Id) returns (m: nat)
    requires id in c.legAs && c.legAs[id].offer.id == id && SomeCrossing(c, c.legAs[id], CandidatesOf(sorted, id))
    ensures BestCrossing(c, c.legAs[id], CandidatesOf(sorted, id), m)
    ensures PairingOf(c, sorted, id) == Crossing(CandidatesOf(sorted, id)[m])
  {
    var legA, candidates := c.legAs[id], CandidatesOf(sorted, id);
    BestIsBest(c, legA, candidates);
    m :| BestCrossing(c, legA, candidates, m) && BestOf(c, legA, candidates).crossing == Some(candidates[m]);
  }

  /**
   * When a leg A has a crossing candidate, its leg B is one whose accept of leg A is the earliest among the crossing ones.
   */
  lemma CrossingWins(c: Collected, sorted: seq<PostedOffer>, id: Id, b: PostedOffer)
    requires id in c.legAs && c.legAs[id].offer.id == id
    requires b in sorted && LegAOf(b) == Some(id) && IsCrossing(c, c.legAs[id], b)
    ensures var p := PairingOf(c, sorted, id);
            && p.Crossing? && p.b in sorted && LegAOf(p.b) == Some(id) && IsCrossing(c, c.legAs[id], p.b)
            && PlaceFor(c, c.legAs[id], p.b).Some? && PlaceFor(c, c.legAs[id], b).Some?
            && PlaceFor(c, c.legAs[id], p.b).value <= PlaceFor(c, c.legAs[id], b).value
  {
    var candidates := CandidatesOf(sorted, id);
    CandidatesAre(sorted, id, b);
    var k :| 0 <= k < |candidates| && candidates[k] == b;
    var m := PairingIsBest(c, sorted, id);
    CandidatesAre(sorted, id, candidates[m]);
    AcceptPlaceIsLeast(AcceptsOf(c, id), b.offer.from);
  }

  // --- conservation --------------------------------------------------------------------------------------------------------

  lemma CrossingIsACandidate(c: Collected, legA: PostedOffer, candidates: seq<PostedOffer>)
    ensures BestOf(c, legA, candidates).crossing.Some? ==> BestOf(c, legA, candidates).crossing.value in candidates
  {
    BestIsBest(c, legA, candidates);
  }

  lemma WinnerIsACandidate(c: Collected, sorted: seq<PostedOffer>, id: Id)
    requires Winner(PairingOf(c, sorted, id)).Some?
    ensures var w := Winner(PairingOf(c, sorted, id)).value;
            w in sorted && LegAOf(w) == Some(id) && id in c.legAs
  {
    var candidates := CandidatesOf(sorted, id);
    if AcceptsOf(c, id) != [] {
      CrossingIsACandidate(c, c.legAs[id], candidates);
      FallbackIsAnAccepter(c, c.legAs[id], candidates);
    }
    CandidatesAre(sorted, id, Winner(PairingOf(c, sorted, id)).value);
  }

  /** How often a candidate is listed unpaired. */
  function Listed(losers: seq<Loser>, b: PostedOffer): nat {
    if losers == [] then 0 else Listed(losers[..|losers| - 1], b) + if losers[|losers| - 1].b == b then 1 else 0
  }

  lemma ListedOfSum(losers: seq<Loser>, loser: Loser, b: PostedOffer)
    ensures Listed(losers + [loser], b) == Listed(losers, b) + if loser.b == b then 1 else 0
  {
    assert (losers + [loser])[..|losers|] == losers;
  }

  lemma OneMoreListed(front: seq<PostedOffer>, last: PostedOffer, b: PostedOffer)
    ensures multiset(front + [last])[b] == multiset(front)[b] + if last == b then 1 else 0
  {
  }

  lemma {:induction false} LosersAreListed(loses: PostedOffer -> Option<Why>, some: seq<PostedOffer>, b: PostedOffer)
    ensures Listed(LosersBy(loses, some), b) == if loses(b).Some? then multiset(some)[b] else 0
  {
    if some != [] {
      var front, last := some[..|some| - 1], some[|some| - 1];
      var before := LosersBy(loses, front);
      LosersAreListed(loses, front, b);
      OneMoreListed(front, last, b);
      assert some == front + [last];
      var why := loses(last);
      if why.Some? {
        ListedOfSum(before, Loser(last, why.value), b);
        assert LosersBy(loses, some) == before + [Loser(last, why.value)];
      } else {
        assert LosersBy(loses, some) == before;
      }
    }
  }

  /** Whether some leg A is paired with this very candidate. */
  ghost predicate Paired(c: Collected, sorted: seq<PostedOffer>, b: PostedOffer) {
    exists id: Id :: Winner(PairingOf(c, sorted, id)) == Some(b)
  }

  /**
   * Conservation: every leg B candidate is the winner of its own leg A and of no other, and then is not listed; or it wins
   * nothing and is listed unpaired as often as it occurs. Rows have uids of their own, so in an export it occurs once.
   */
  lemma EveryLegBIsUsedOnce(c: Collected, b: PostedOffer)
    requires AllLegBs(c.legBs) && b in c.legBs
    ensures var sorted := ByPlace(c.legBs);
            && AllLegBs(sorted)
            && (forall id: Id :: Winner(PairingOf(c, sorted, id)) == Some(b) ==> LegAOf(b) == Some(id))
            && Listed(Losers(c, sorted), b) == if Paired(c, sorted, b) then 0 else multiset(c.legBs)[b]
  {
    hide ByPlace, BestOf, CandidatesOf, AcceptedBy;
    var sorted := ByPlace(c.legBs);
    ByPlaceKeeps(c.legBs);
    forall k | 0 <= k < |sorted| ensures sorted[k].offer.leg.LegOfB? {
      assert sorted[k] in multiset(sorted);
    }
    forall id: Id | Winner(PairingOf(c, sorted, id)) == Some(b) ensures LegAOf(b) == Some(id) {
      WinnerIsACandidate(c, sorted, id);
    }
    LosersAreListed(x => LosesWhy(c, sorted, x), sorted, b);
    var legA := b.offer.leg.legAOfferId;
    assert LosesWhy(c, sorted, b).None? <==> Winner(PairingOf(c, sorted, legA)) == Some(b);
  }

  /** No leg B is paired with two leg A offers. */
  lemma NoLegBWinsTwice(c: Collected, id: Id, id': Id)
    requires Winner(PairingOf(c, ByPlace(c.legBs), id)).Some?
    requires Winner(PairingOf(c, ByPlace(c.legBs), id)) == Winner(PairingOf(c, ByPlace(c.legBs), id'))
    ensures id == id'
  {
    WinnerIsACandidate(c, ByPlace(c.legBs), id);
    WinnerIsACandidate(c, ByPlace(c.legBs), id');
  }

  // --- the accept of a leg ---------------------------------------------------------------------------------------------------

  lemma {:induction false} FirstByIsFirst(accepts: seq<PostedAccept>, did: Did)
    ensures FirstBy(accepts, did).None? <==> !AcceptedBy(accepts, did)
    ensures FirstBy(accepts, did).Some? ==>
              exists k :: 0 <= k < |accepts| && accepts[k] == FirstBy(accepts, did).value && accepts[k].accept.core.from == did
                          && !AcceptedBy(accepts[..k], did)
  {
    if accepts != [] {
      var front := accepts[..|accepts| - 1];
      FirstByIsFirst(front, did);
      if FirstBy(front, did).Some? {
        var k :| 0 <= k < |front| && front[k] == FirstBy(front, did).value && front[k].accept.core.from == did && !AcceptedBy(front[..k], did);
        assert front[..k] == accepts[..k] && accepts[k] == front[k];
      }
    }
  }

  /**
   * The chosen accept is the counterparty's earliest if it has any; else the earliest there is, said to rest on row order
   * exactly when there was another to choose.
   */
  lemma ChosenAcceptIsTheEarliest(accepts: seq<PostedAccept>, counterparty: Option<Did>)
    requires accepts != []
    ensures var choice := ChooseAccept(accepts, counterparty);
            if counterparty.Some? && AcceptedBy(accepts, counterparty.value) then
              && !choice.byRowOrder
              && (exists k :: 0 <= k < |accepts| && choice.accept == Some(accepts[k])
                              && accepts[k].accept.core.from == counterparty.value && !AcceptedBy(accepts[..k], counterparty.value))
            else choice.accept == Some(accepts[0]) && (!choice.byRowOrder <==> accepts == [accepts[0]])
  {
    if counterparty.Some? {
      FirstByIsFirst(accepts, counterparty.value);
    }
  }

  // --- evidence ------------------------------------------------------------------------------------------------------------

  /** Each leg is folded with its own contract's evidence, whether or not the other leg has any. */
  lemma EachLegHasItsOwnEvidence(input: BoardInput, legs: Legs)
    ensures var (found, a, b) := (EvidenceFor(input, legs), ContractOf(legs.foldA), ContractOf(legs.foldB));
            && (if a.Some? && a.value in input.evidence
                then found.a == Some(input.evidence[a.value].lock) && found.aRail == input.evidence[a.value].rail
                else found.a.None? && found.aRail.None?)
            && (if b.Some? && b.value in input.evidence
                then found.b == Some(input.evidence[b.value].lock) && found.bRail == input.evidence[b.value].rail
                else found.b.None? && found.bRail.None?)
  {
  }

  lemma SameLegs(t: Rules, input: BoardInput, other: map<Id, LegEvidence>, c: Collected, legA: PostedOffer, p: Pairing)
    ensures LegsOf(t, input.(evidence := other), c, legA, p) == LegsOf(t, input, c, legA, p)
  {
    hide ChooseAccept, AcceptsOf;
  }

  lemma SameEvidence(input: BoardInput, other: map<Id, LegEvidence>, legs: Legs)
    requires At(other, ContractOf(legs.foldA)) == At(input.evidence, ContractOf(legs.foldA))
    requires At(other, ContractOf(legs.foldB)) == At(input.evidence, ContractOf(legs.foldB))
    ensures EvidenceFor(input.(evidence := other), legs) == EvidenceFor(input, legs)
  {
    hide At, ContractOf;
  }

  /**
   * A swap's whole view depends on evidence only under the contracts its own two legs' machines accepted; whatever stands
   * under any other key changes nothing.
   */
  lemma EvidenceIsIsolated(t: Rules, input: BoardInput, other: map<Id, LegEvidence>, c: Collected, id: Id)
    requires id in c.legAs
    requires var legs := LegsOf(t, input, c, c.legAs[id], PairingOf(c, ByPlace(c.legBs), id));
             && At(other, ContractOf(legs.foldA)) == At(input.evidence, ContractOf(legs.foldA))
             && At(other, ContractOf(legs.foldB)) == At(input.evidence, ContractOf(legs.foldB))
    ensures SwapOf(t, input.(evidence := other), c, id) == SwapOf(t, input, c, id)
  {
    hide PairingOf, ByPlace, ChooseAccept, SharedCount, Grounds, LegsOf, ContractOf, At;
    SameLegs(t, input, other, c, c.legAs[id], PairingOf(c, ByPlace(c.legBs), id));
    SameEvidence(input, other, LegsOf(t, input, c, c.legAs[id], PairingOf(c, ByPlace(c.legBs), id)));
  }
}
