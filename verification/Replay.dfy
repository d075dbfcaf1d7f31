/**
 * The separate pass that looks for evidence (`findSwapLegCandidates` of `src/replay.ts`), and its agreement with the board:
 * every accept the board can choose for a swap leg is found under its contract id, with the same offer and the same terms.
 */
module Replay {
  import opened Options
  import opened Swap
  import opened Board
  import opened BoardFacts
  import opened BoardStrangers

  datatype Candidate = Candidate(offer: PostedOffer, accept: PostedAccept)

  /** What the pass fills: the latest record of each swap leg offer, and the first genuine accept under each contract. */
  datatype Scan = Scan(legOffers: map<Id, PostedOffer>, byContract: map<Id, Candidate>)

  function Look(t: Rules, s: Scan, record: Record): Scan {
    if !Authentic(record) then s
    else match record.frame.value
      case OfferFrame(offer) =>
        if offer.leg.NotALeg? then s else s.(legOffers := s.legOffers[offer.id := PostedOffer(record, offer)])
      case AcceptFrame(accept) =>
        var id := accept.core.ref;
        if id !in s.legOffers || !Genuine(t, s.legOffers[id].offer, accept) || accept.contract in s.byContract then s
        else s.(byContract := s.byContract[accept.contract := Candidate(s.legOffers[id], PostedAccept(record, accept))])
      case OtherFrame(_) => s
  }

  function ScanOf(t: Rules, records: seq<Record>): Scan {
    if records == [] then Scan(map[], map[]) else Look(t, ScanOf(t, records[..|records| - 1]), records[|records| - 1])
  }

  /** The nine terms of an offer and accept, as far as the two frames carry them. */
  datatype PairTerms = PairTerms(contract: Id, statement: nat, offer: Offer, acceptor: Did)

  /** `offerAcceptLockTerms`: a function of the offer and the accept alone. */
  function TermsOf(offer: Offer, accept: Accept): PairTerms {
    PairTerms(accept.contract, accept.core.statement, offer, accept.core.from)
  }

  /** tclk's contract ids are injective. */
  ghost predicate IdsTellApart(t: Rules) {
    forall o, o', core, core' ::
      t.contractId(o, core).Some? && t.contractId(o, core) == t.contractId(o', core') ==> o == o' && core == core'
  }

  /** One accept the board holds for an offer, row and all. */
  predicate Holds(c: Collected, id: Id, accept: PostedAccept) {
    accept in AcceptsOf(c, id)
  }

  /** The pass knows exactly the swap legs among the board's offers. */
  ghost predicate SameLegOffers(k: Case, c: Collected, s: Scan) {
    && (forall id :: id in c.offers ==> c.offers[id] == k.offerOf(id))
    && (forall id :: id in s.legOffers <==> id in c.offers && !c.offers[id].leg.NotALeg?)
    && (forall id :: id in s.legOffers ==> s.legOffers[id].offer == k.offerOf(id) && k.offerOf(id).id == id)
  }

  /** One candidate is a genuine accept the board holds for that very offer. */
  ghost predicate OnBoard(k: Case, c: Collected, contract: Id, found: Candidate) {
    && found.accept.accept.contract == contract && Genuine(k.t, found.offer.offer, found.accept.accept)
    && found.offer.offer == k.offerOf(found.offer.offer.id) && !found.offer.offer.leg.NotALeg?
    && Holds(c, found.offer.offer.id, found.accept)
  }

  ghost predicate AllOnBoard(k: Case, c: Collected, s: Scan) {
    forall contract :: contract in s.byContract ==> OnBoard(k, c, contract, s.byContract[contract])
  }

  /** Every accept of one offer has a candidate under its contract. */
  ghost predicate AllFound(s: Scan, accepts: seq<PostedAccept>) {
    forall n :: 0 <= n < |accepts| ==> accepts[n].accept.contract in s.byContract
  }

  ghost predicate AllLegsFound(c: Collected, s: Scan) {
    forall id :: id in s.legOffers ==> AllFound(s, AcceptsOf(c, id))
  }

  ghost predicate Agree(k: Case, c: Collected, s: Scan) {
    SameLegOffers(k, c, s) && AllOnBoard(k, c, s) && AllLegsFound(c, s)
  }

  lemma AcceptsOnlyGrow(t: Rules, c: Collected, record: Record, id: Id)
    ensures AcceptsOf(c, id) <= AcceptsOf(Take(t, c, record), id)
  {
  }

  lemma HoldsStays(t: Rules, c: Collected, record: Record, id: Id, accept: PostedAccept)
    requires Holds(c, id, accept)
    ensures Holds(Take(t, c, record), id, accept)
  {
    AcceptsOnlyGrow(t, c, record, id);
    var k :| 0 <= k < |AcceptsOf(c, id)| && AcceptsOf(c, id)[k] == accept;
    assert AcceptsOf(Take(t, c, record), id)[k] == AcceptsOf(c, id)[k];
  }

  lemma OnBoardStays(k: Case, c: Collected, record: Record, contract: Id, found: Candidate)
    requires OnBoard(k, c, contract, found)
    ensures OnBoard(k, Take(k.t, c, record), contract, found)
  {
    HoldsStays(k.t, c, record, found.offer.offer.id, found.accept);
  }

  /** An offer no accept was counted for yet. */
  lemma UnseenHasNoAccepts(t: Rules, c: Collected, id: Id)
    requires Sound(t, c) && id !in c.offers
    ensures AcceptsOf(c, id) == []
  {
  }

  lemma OfferKeepsLegOffers(k: Case, c: Collected, s: Scan, record: Record, offer: Offer)
    requires SameLegOffers(k, c, s) && offer == k.offerOf(offer.id) && Authentic(record) && record.frame == Some(OfferFrame(offer))
    ensures SameLegOffers(k, Take(k.t, c, record), Look(k.t, s, record))
  {
    OfferAddsItself(c, record, offer);
  }

  lemma OfferKeepsOnBoard(k: Case, c: Collected, s: Scan, record: Record, offer: Offer)
    requires AllOnBoard(k, c, s) && Authentic(record) && record.frame == Some(OfferFrame(offer))
    ensures AllOnBoard(k, Take(k.t, c, record), Look(k.t, s, record))
  {
    var c', s' := Take(k.t, c, record), Look(k.t, s, record);
    forall contract | contract in s'.byContract ensures OnBoard(k, c', contract, s'.byContract[contract]) {
      OnBoardStays(k, c, record, contract, s.byContract[contract]);
    }
  }

  lemma OfferKeepsFound(k: Case, c: Collected, s: Scan, record: Record, offer: Offer)
    requires AllLegsFound(c, s) && Sound(k.t, c) && SameLegOffers(k, c, s) && offer == k.offerOf(offer.id) && Authentic(record) && record.frame == Some(OfferFrame(offer))
    ensures AllLegsFound(Take(k.t, c, record), Look(k.t, s, record))
  {
    var c', s' := Take(k.t, c, record), Look(k.t, s, record);
    OfferKeepsLegOffers(k, c, s, record, offer);
    OfferKeepsAccepts(c, record, offer);
    forall id | id in s'.legOffers ensures AllFound(s', AcceptsOf(c', id)) {
      assert AcceptsOf(c', id) == AcceptsOf(c, id);
      if id !in c.offers {
        UnseenHasNoAccepts(k.t, c, id);
      } else {
        assert AllFound(s, AcceptsOf(c, id));
      }
    }
  }

  lemma LookAtOffer(k: Case, c: Collected, s: Scan, record: Record, offer: Offer)
    requires Agree(k, c, s) && Sound(k.t, c) && offer == k.offerOf(offer.id) && Authentic(record) && record.frame == Some(OfferFrame(offer))
    ensures Agree(k, Take(k.t, c, record), Look(k.t, s, record))
  {
    hide SameLegOffers, AllOnBoard, AllLegsFound, Sound, Take, Look;
    OfferKeepsLegOffers(k, c, s, record, offer);
    OfferKeepsOnBoard(k, c, s, record, offer);
    OfferKeepsFound(k, c, s, record, offer);
  }

  lemma LookAtAccept(k: Case, c: Collected, s: Scan, record: Record, accept: Accept)
    requires Agree(k, c, s) && Authentic(record) && record.frame == Some(AcceptFrame(accept))
    ensures Agree(k, Take(k.t, c, record), Look(k.t, s, record))
  {
    var c', s' := Take(k.t, c, record), Look(k.t, s, record);
    var id := accept.core.ref;
    assert SameLegOffers(k, c', s');
    forall contract | contract in s'.byContract ensures OnBoard(k, c', contract, s'.byContract[contract]) {
      if contract in s.byContract {
        OnBoardStays(k, c, record, contract, s.byContract[contract]);
      } else {
        assert AcceptsOf(c', id)[|AcceptsOf(c, id)|] == PostedAccept(record, accept);
      }
    }
    forall other | other in s'.legOffers ensures AllFound(s', AcceptsOf(c', other)) {
      assert AllFound(s, AcceptsOf(c, other));
      AllFoundStays(k.t, c, s, record, other, accept);
    }
  }

  lemma AllFoundStays(t: Rules, c: Collected, s: Scan, record: Record, id: Id, accept: Accept)
    requires AllFound(s, AcceptsOf(c, id)) && id in s.legOffers && id in c.offers && s.legOffers[id].offer == c.offers[id]
    requires Authentic(record) && record.frame == Some(AcceptFrame(accept))
    ensures AllFound(Look(t, s, record), AcceptsOf(Take(t, c, record), id))
  {
    var s', accepts := Look(t, s, record), AcceptsOf(Take(t, c, record), id);
    forall n | 0 <= n < |accepts| ensures accepts[n].accept.contract in s'.byContract {
      if n < |AcceptsOf(c, id)| {
        AcceptsOnlyGrow(t, c, record, id);
        assert accepts[n] == AcceptsOf(c, id)[n];
      }
    }
  }

  lemma {:induction false} PassesAgree(k: Case, records: seq<Record>)
    requires AllNamed(k, records)
    ensures Agree(k, Collect(k.t, records), ScanOf(k.t, records))
  {
    if records != [] {
      var front, last := records[..|records| - 1], records[|records| - 1];
      PassesAgree(k, front);
      CollectedIsSound(k.t, front);
      if Authentic(last) {
        match last.frame.value
        case OfferFrame(offer) => LookAtOffer(k, Collect(k.t, front), ScanOf(k.t, front), last, offer);
        case AcceptFrame(accept) => LookAtAccept(k, Collect(k.t, front), ScanOf(k.t, front), last, accept);
        case OtherFrame(_) =>
      }
    }
  }

  /**
   * Discovery agrees with pairing: every genuine accept the board holds for a swap leg has its one candidate, under its
   * contract id, with the very offer, the very accept in a row the board holds for it, and so the same lock terms.
   */
  lemma EveryBoardAcceptIsFound(k: Case, records: seq<Record>, id: Id, n: nat)
    requires AllNamed(k, records) && IdsTellApart(k.t)
    requires id in Collect(k.t, records).offers && !Collect(k.t, records).offers[id].leg.NotALeg?
    requires n < |AcceptsOf(Collect(k.t, records), id)|
    ensures var (c, s) := (Collect(k.t, records), ScanOf(k.t, records));
            var accept := AcceptsOf(c, id)[n].accept;
            && accept.contract in s.byContract
            && var found := s.byContract[accept.contract];
               && found.offer.offer == c.offers[id] && found.accept.accept == accept && found.accept in AcceptsOf(c, id)
               && TermsOf(found.offer.offer, found.accept.accept) == TermsOf(c.offers[id], accept)
  {
    PassesAgree(k, records);
    CollectedIsSound(k.t, records);
    var c, s := Collect(k.t, records), ScanOf(k.t, records);
    var accept := AcceptsOf(c, id)[n].accept;
    assert AllFound(s, AcceptsOf(c, id));
    var found := s.byContract[accept.contract];
    assert OnBoard(k, c, accept.contract, found);
    assert AllGenuine(k.t, c.offers[id], c.accepts[id]) && Genuine(k.t, c.offers[id], accept);
    assert k.t.contractId(found.offer.offer, found.accept.accept.core) == k.t.contractId(c.offers[id], accept.core);
  }

  /** And nothing else is found: every candidate is a genuine accept the board holds for that very offer. */
  lemma EveryCandidateIsOnTheBoard(k: Case, records: seq<Record>, contract: Id)
    requires AllNamed(k, records) && contract in ScanOf(k.t, records).byContract
    ensures var (c, found) := (Collect(k.t, records), ScanOf(k.t, records).byContract[contract]);
            && found.offer.offer.id in c.offers && c.offers[found.offer.offer.id] == found.offer.offer
            && !found.offer.offer.leg.NotALeg? && found.accept.accept.contract == contract
            && Holds(c, found.offer.offer.id, found.accept)
  {
    PassesAgree(k, records);
    CollectedIsSound(k.t, records);
    assert OnBoard(k, Collect(k.t, records), contract, ScanOf(k.t, records).byContract[contract]);
  }

  // --- the rows of a candidate ---------------------------------------------------------------------------------------------

  predicate OffersLeg(record: Record, id: Id) {
    && Authentic(record) && record.frame.value.OfferFrame? && !record.frame.value.offer.leg.NotALeg?
    && record.frame.value.offer.id == id
  }

  /** Before row `k`, row `j` is the latest that offers this swap leg. */
  predicate LatestOffer(records: seq<Record>, j: nat, k: nat, id: Id) {
    j < k <= |records| && OffersLeg(records[j], id) && forall n :: j < n < k ==> !OffersLeg(records[n], id)
  }

  predicate AcceptsUnder(record: Record, contract: Id) {
    Authentic(record) && record.frame.value.AcceptFrame? && record.frame.value.accept.contract == contract
  }

  /** Row `k` accepts under this contract what row `j` offers, genuinely, and no later offer of it stands in between. */
  predicate FindsAt(t: Rules, records: seq<Record>, j: nat, k: nat, contract: Id) {
    && k < |records| && AcceptsUnder(records[k], contract)
    && LatestOffer(records, j, k, records[k].frame.value.accept.core.ref)
    && Genuine(t, records[j].frame.value.offer, records[k].frame.value.accept)
  }

  /** And row `k` is the first that does. */
  ghost predicate FirstFind(t: Rules, records: seq<Record>, j: nat, k: nat, contract: Id) {
    FindsAt(t, records, j, k, contract) && forall i: nat, n: nat :: n < k ==> !FindsAt(t, records, i, n, contract)
  }

  /** A swap leg's offer is kept exactly with the latest row that offers it. */
  lemma {:induction false} LegOffersAreLatest(t: Rules, records: seq<Record>, id: Id, j: nat)
    ensures var legOffers := ScanOf(t, records).legOffers;
            LatestOffer(records, j, |records|, id) ==>
              id in legOffers && legOffers[id] == PostedOffer(records[j], records[j].frame.value.offer)
    ensures id in ScanOf(t, records).legOffers ==> exists i: nat :: LatestOffer(records, i, |records|, id)
  {
    if records != [] {
      var front, last := records[..|records| - 1], records[|records| - 1];
      LegOffersAreLatest(t, front, id, j);
      assert forall n: nat :: n < |front| ==> front[n] == records[n];
      if OffersLeg(last, id) {
        assert LatestOffer(records, |front|, |records|, id);
      } else if id in ScanOf(t, front).legOffers {
        var i: nat :| LatestOffer(front, i, |front|, id);
        assert LatestOffer(records, i, |records|, id);
      }
    }
  }

  lemma EarlierFinds(t: Rules, front: seq<Record>, last: Record, j: nat, k: nat, contract: Id)
    ensures k < |front| ==> (FindsAt(t, front, j, k, contract) <==> FindsAt(t, front + [last], j, k, contract))
  {
    var records := front + [last];
    assert forall n: nat :: n < |front| ==> front[n] == records[n];
    if k < |front| {
      assert forall id: Id :: LatestOffer(front, j, k, id) <==> LatestOffer(records, j, k, id);
    }
  }

  /** The last row finds a candidate exactly when the pass takes it for one. */
  lemma LastFinds(t: Rules, front: seq<Record>, last: Record, j: nat, contract: Id)
    ensures var legOffers := ScanOf(t, front).legOffers;
            FindsAt(t, front + [last], j, |front|, contract) ==>
              && AcceptsUnder(last, contract)
              && var ref := last.frame.value.accept.core.ref;
                 && ref in legOffers && legOffers[ref] == PostedOffer(front[j], front[j].frame.value.offer)
                 && Genuine(t, legOffers[ref].offer, last.frame.value.accept)
  {
    hide Genuine, ScanOf;
    var records := front + [last];
    if FindsAt(t, records, j, |front|, contract) {
      var ref := last.frame.value.accept.core.ref;
      assert forall n: nat :: n < |front| ==> front[n] == records[n];
      assert LatestOffer(front, j, |front|, ref);
      LegOffersAreLatest(t, front, ref, j);
    }
  }

  lemma LastIsFound(t: Rules, front: seq<Record>, last: Record, contract: Id) returns (j: nat)
    requires AcceptsUnder(last, contract)
    requires var (legOffers, ref) := (ScanOf(t, front).legOffers, last.frame.value.accept.core.ref);
             ref in legOffers && Genuine(t, legOffers[ref].offer, last.frame.value.accept)
    ensures FindsAt(t, front + [last], j, |front|, contract)
  {
    hide Genuine, ScanOf;
    var ref := last.frame.value.accept.core.ref;
    LegOffersAreLatest(t, front, ref, 0);
    j :| LatestOffer(front, j, |front|, ref);
    LegOffersAreLatest(t, front, ref, j);
    assert forall n: nat :: n < |front| ==> front[n] == (front + [last])[n];
  }

  /** A candidate's own two rows: the offer's, and the accept's. */
  predicate OfRows(found: Candidate, offer: Record, accept: Record) {
    && found.offer.record == offer && offer.frame == Some(OfferFrame(found.offer.offer))
    && found.accept.record == accept && accept.frame == Some(AcceptFrame(found.accept.accept))
  }

  ghost predicate Found(t: Rules, records: seq<Record>, contract: Id) {
    exists j: nat, k: nat :: FindsAt(t, records, j, k, contract)
  }

  /** A contract has its candidate exactly when it is found, with the rows that found it first. */
  ghost predicate FoundAsRows(t: Rules, records: seq<Record>, byContract: map<Id, Candidate>, contract: Id) {
    && (contract in byContract <==> Found(t, records, contract))
    && (forall j: nat, k: nat :: FirstFind(t, records, j, k, contract) ==>
          contract in byContract && OfRows(byContract[contract], records[j], records[k]))
  }

  /**
   * The candidates, row by row: a contract has one exactly when some row finds it, and it carries the first such row as its
   * accept's and the latest offer before that as its offer's.
   */
  lemma {:induction false} CandidatesAreRows(t: Rules, records: seq<Record>, contract: Id)
    ensures FoundAsRows(t, records, ScanOf(t, records).byContract, contract)
  {
    if records != [] {
      var front, last := records[..|records| - 1], records[|records| - 1];
      CandidatesAreRows(t, front, contract);
      assert records == front + [last];
      if contract in ScanOf(t, front).byContract {
        FoundEarlier(t, front, last, contract);
      } else {
        FoundLast(t, front, last, contract);
      }
    }
  }

  lemma FoundEarlier(t: Rules, front: seq<Record>, last: Record, contract: Id)
    requires FoundAsRows(t, front, ScanOf(t, front).byContract, contract) && contract in ScanOf(t, front).byContract
    ensures FoundAsRows(t, front + [last], ScanOf(t, front + [last]).byContract, contract)
  {
    hide FindsAt, OfRows;
    var records := front + [last];
    assert records[..|front|] == front;
    forall j: nat, k: nat ensures k < |front| ==> (FindsAt(t, front, j, k, contract) <==> FindsAt(t, records, j, k, contract)) {
      EarlierFinds(t, front, last, j, k, contract);
    }
    forall j: nat, k: nat ensures FindsAt(t, front, j, k, contract) ==> k < |front| && j < k {
      FindsWithin(t, front, j, k, contract);
    }
    forall j: nat, k: nat ensures FindsAt(t, records, j, k, contract) ==> k <= |front| && j < k {
      FindsWithin(t, records, j, k, contract);
    }
    var j: nat, k: nat :| FindsAt(t, front, j, k, contract);
    assert FindsAt(t, records, j, k, contract);
    assert ScanOf(t, records).byContract[contract] == ScanOf(t, front).byContract[contract];
    forall i: nat, n: nat | FirstFind(t, records, i, n, contract)
      ensures OfRows(ScanOf(t, records).byContract[contract], records[i], records[n])
    {
      assert FirstFind(t, front, i, n, contract);
    }
  }

  lemma FindsWithin(t: Rules, records: seq<Record>, j: nat, k: nat, contract: Id)
    ensures FindsAt(t, records, j, k, contract) ==> k < |records| && j < k
  {
  }

  lemma FoundLast(t: Rules, front: seq<Record>, last: Record, contract: Id)
    requires FoundAsRows(t, front, ScanOf(t, front).byContract, contract) && contract !in ScanOf(t, front).byContract
    ensures FoundAsRows(t, front + [last], ScanOf(t, front + [last]).byContract, contract)
  {
    hide FindsAt, OfRows, Genuine;
    var records, before := front + [last], ScanOf(t, front);
    assert records[..|front|] == front;
    forall j: nat, k: nat ensures FindsAt(t, records, j, k, contract) ==> j < k == |front| {
      FindsWithin(t, records, j, k, contract);
      EarlierFinds(t, front, last, j, k, contract);
    }
    var taken := AcceptsUnder(last, contract) && last.frame.value.accept.core.ref in before.legOffers
                 && Genuine(t, before.legOffers[last.frame.value.accept.core.ref].offer, last.frame.value.accept);
    assert contract in ScanOf(t, records).byContract <==> taken;
    if taken {
      var j := LastIsFound(t, front, last, contract);
    }
    forall j: nat, k: nat | FindsAt(t, records, j, k, contract)
      ensures contract in ScanOf(t, records).byContract && OfRows(ScanOf(t, records).byContract[contract], records[j], records[k])
    {
      LastFinds(t, front, last, j, contract);
      FoundOfRows(t, front, last, j, contract);
    }
  }

  lemma FoundOfRows(t: Rules, front: seq<Record>, last: Record, j: nat, contract: Id)
    requires FindsAt(t, front + [last], j, |front|, contract)
    ensures OfRows(Candidate(PostedOffer(front[j], front[j].frame.value.offer), PostedAccept(last, last.frame.value.accept)),
                   (front + [last])[j], last)
  {
    assert (front + [last])[j] == front[j];
  }

  // --- the pass itself -----------------------------------------------------------------------------------------------------

  /** `findSwapLegCandidates`: the two maps, filled in one loop. */
  method FindSwapLegCandidates(t: Rules, records: seq<Record>) returns (legOffers: map<Id, PostedOffer>, byContract: map<Id, Candidate>)
    ensures Scan(legOffers, byContract) == ScanOf(t, records)
  {
    legOffers, byContract := map[], map[];
    var i := 0;
    while i < |records|
      invariant 0 <= i <= |records|
      invariant Scan(legOffers, byContract) == ScanOf(t, records[..i])
    {
      assert records[..i + 1][..i] == records[..i];
      var record := records[i];
      i := i + 1;
      if !Authentic(record) {
        continue;
      }
      match record.frame.value {
        case OfferFrame(offer) =>
          if offer.leg.NotALeg? {
            continue;
          }
          legOffers := legOffers[offer.id := PostedOffer(record, offer)];
        case AcceptFrame(accept) =>
          if accept.core.ref !in legOffers {
            continue;
          }
          var legOffer := legOffers[accept.core.ref];
          if !Genuine(t, legOffer.offer, accept) {
            continue;
          }
          if accept.contract !in byContract {
            byContract := byContract[accept.contract := Candidate(legOffer, PostedAccept(record, accept))];
          }
        case OtherFrame(_) =>
      }
    }
    assert records[..i] == records;
  }
}
