/**
 * Strangers on the board: rows by neither party of a swap, in any number and anywhere in the export, and what they can do
 * to the swap's view. They can do nothing to a crossing pair, unless they make another crossing candidate with an earlier
 * accept; and that takes the Buyer's own accept of a stranger's leg B.
 */
module BoardStrangers {
  import opened Options
  import opened Swap
  import opened Board
  import opened BoardFacts

  /** The two parties, and what an offer id names: ids are injective. */
  datatype Case = Case(t: Rules, buyer: Did, seller: Did, offerOf: Id -> Offer)

  predicate IsParty(k: Case, did: Did) {
    did == k.buyer || did == k.seller
  }

  predicate PartyId(k: Case, id: Id) {
    IsParty(k, k.offerOf(id).from)
  }

  /** Every offer row carries the offer its id names. */
  predicate Named(k: Case, record: Record) {
    Authentic(record) && record.frame.value.OfferFrame? ==> record.frame.value.offer == k.offerOf(record.frame.value.offer.id)
  }

  ghost predicate AllNamed(k: Case, records: seq<Record>) {
    forall i :: 0 <= i < |records| ==> Named(k, records[i])
  }

  /** A room numbers its rows apart. */
  ghost predicate PlacesDiffer(records: seq<Record>) {
    forall i, j :: 0 <= i < j < |records| && Authentic(records[i]) && Authentic(records[j]) ==> records[i].place != records[j].place
  }

  /** The export without some of its rows. */
  function Without(records: seq<Record>, extra: set<nat>): seq<Record> {
    if records == [] then []
    else Without(records[..|records| - 1], extra) + if records[|records| - 1].uid in extra then [] else [records[|records| - 1]]
  }

  /** The rows taken out are by strangers. */
  ghost predicate ByStrangers(k: Case, records: seq<Record>, extra: set<nat>) {
    forall i :: 0 <= i < |records| && records[i].uid in extra && Authentic(records[i]) ==> !IsParty(k, SignedBy(records[i].frame.value))
  }

  // --- what the parties' part of the board is -----------------------------------------------------------------------------

  function By(accepts: seq<PostedAccept>, did: Did): seq<PostedAccept> {
    if accepts == [] then []
    else By(accepts[..|accepts| - 1], did) + if accepts[|accepts| - 1].accept.core.from == did then [accepts[|accepts| - 1]] else []
  }

  lemma ByOfSum(accepts: seq<PostedAccept>, last: PostedAccept, did: Did)
    ensures By(accepts + [last], did) == By(accepts, did) + if last.accept.core.from == did then [last] else []
  {
    assert (accepts + [last])[..|accepts|] == accepts;
  }

  ghost predicate SameOffers(k: Case, c: Collected, c': Collected) {
    && (forall id :: id in c.offers ==> id in c'.offers && c.offers[id] == k.offerOf(id))
    && (forall id :: id in c'.offers ==> c'.offers[id] == k.offerOf(id) && (PartyId(k, id) ==> id in c.offers))
  }

  ghost predicate SameLegAs(k: Case, c: Collected, c': Collected) {
    forall id: Id :: PartyId(k, id) ==> (id in c.legAs <==> id in c'.legAs) && (id in c.legAs ==> c.legAs[id] == c'.legAs[id])
  }

  ghost predicate SameAccepts(k: Case, c: Collected, c': Collected) {
    forall id: Id, did :: PartyId(k, id) && IsParty(k, did) ==> By(AcceptsOf(c, id), did) == By(AcceptsOf(c', id), did)
  }

  ghost predicate SameLegBs(k: Case, c: Collected, c': Collected) {
    forall b: PostedOffer :: IsParty(k, b.offer.from) ==> (b in c.legBs <==> b in c'.legBs)
  }

  /** The two boards hold the same offers, accepts and legs of the parties. */
  ghost predicate SameForParties(k: Case, c: Collected, c': Collected) {
    SameOffers(k, c, c') && SameLegAs(k, c, c') && SameAccepts(k, c, c') && SameLegBs(k, c, c')
  }

  lemma OffersStaySame(k: Case, c: Collected, c': Collected, record: Record, offer: Offer)
    requires SameForParties(k, c, c') && offer == k.offerOf(offer.id)
    ensures SameOffers(k, TakeOffer(c, record, offer), TakeOffer(c', record, offer))
  {
    OfferAddsItself(c, record, offer);
    OfferAddsItself(c', record, offer);
  }

  lemma LegAsStaySame(k: Case, c: Collected, c': Collected, record: Record, offer: Offer)
    requires SameForParties(k, c, c') && offer == k.offerOf(offer.id)
    ensures SameLegAs(k, TakeOffer(c, record, offer), TakeOffer(c', record, offer))
  {
    OfferAddsItsLegA(c, record, offer);
    OfferAddsItsLegA(c', record, offer);
  }

  lemma AcceptsStaySame(k: Case, c: Collected, c': Collected, record: Record, offer: Offer)
    requires SameForParties(k, c, c') && offer == k.offerOf(offer.id)
    ensures SameAccepts(k, TakeOffer(c, record, offer), TakeOffer(c', record, offer))
  {
    OfferKeepsAccepts(c, record, offer);
    OfferKeepsAccepts(c', record, offer);
  }

  lemma LegBsStaySame(k: Case, c: Collected, c': Collected, record: Record, offer: Offer)
    requires SameForParties(k, c, c') && offer == k.offerOf(offer.id)
    ensures SameLegBs(k, TakeOffer(c, record, offer), TakeOffer(c', record, offer))
  {
    OfferAddsItsLegB(c, record, offer);
    OfferAddsItsLegB(c', record, offer);
  }

  lemma SameOfferForBoth(k: Case, c: Collected, c': Collected, record: Record, offer: Offer)
    requires SameForParties(k, c, c') && offer == k.offerOf(offer.id)
    ensures SameForParties(k, TakeOffer(c, record, offer), TakeOffer(c', record, offer))
  {
    hide SameOffers, SameLegAs, SameAccepts, SameLegBs, TakeOffer;
    OffersStaySame(k, c, c', record, offer);
    LegAsStaySame(k, c, c', record, offer);
    AcceptsStaySame(k, c, c', record, offer);
    LegBsStaySame(k, c, c', record, offer);
  }

  lemma StrangersOffer(k: Case, c: Collected, c': Collected, record: Record, offer: Offer)
    requires SameForParties(k, c, c') && offer == k.offerOf(offer.id) && !IsParty(k, offer.from)
    ensures SameForParties(k, c, TakeOffer(c', record, offer))
  {
    OfferAddsItself(c', record, offer);
    OfferAddsItsLegA(c', record, offer);
    OfferKeepsAccepts(c', record, offer);
    OfferAddsItsLegB(c', record, offer);
  }

  lemma SameAcceptForBoth(k: Case, c: Collected, c': Collected, record: Record, accept: Accept)
    requires SameForParties(k, c, c')
    ensures SameForParties(k, TakeAccept(k.t, c, record, accept), TakeAccept(k.t, c', record, accept))
  {
    hide By, Genuine;
    var id, posted := accept.core.ref, PostedAccept(record, accept);
    var d, d' := TakeAccept(k.t, c, record, accept), TakeAccept(k.t, c', record, accept);
    forall other: Id, did | PartyId(k, other) && IsParty(k, did) ensures By(AcceptsOf(d, other), did) == By(AcceptsOf(d', other), did) {
      if other == id {
        ByOfSum(AcceptsOf(c, id), posted, did);
        ByOfSum(AcceptsOf(c', id), posted, did);
      }
    }
  }

  lemma StrangersAccept(k: Case, c: Collected, c': Collected, record: Record, accept: Accept)
    requires SameForParties(k, c, c') && !IsParty(k, accept.core.from)
    ensures SameForParties(k, c, TakeAccept(k.t, c', record, accept))
  {
    var id, posted := accept.core.ref, PostedAccept(record, accept);
    var d' := TakeAccept(k.t, c', record, accept);
    forall other: Id, did | PartyId(k, other) && IsParty(k, did) ensures By(AcceptsOf(c, other), did) == By(AcceptsOf(d', other), did) {
      if other == id {
        ByOfSum(AcceptsOf(c', id), posted, did);
      }
    }
  }

  lemma TakeForBoth(k: Case, c: Collected, c': Collected, record: Record)
    requires SameForParties(k, c, c') && Named(k, record)
    ensures SameForParties(k, Take(k.t, c, record), Take(k.t, c', record))
  {
    if Authentic(record) {
      match record.frame.value
      case OfferFrame(offer) => SameOfferForBoth(k, c, c', record, offer);
      case AcceptFrame(accept) => SameAcceptForBoth(k, c, c', record, accept);
      case OtherFrame(_) =>
    }
  }

  lemma TakeStrangers(k: Case, c: Collected, c': Collected, record: Record)
    requires SameForParties(k, c, c') && Named(k, record)
    requires Authentic(record) ==> !IsParty(k, SignedBy(record.frame.value))
    ensures SameForParties(k, c, Take(k.t, c', record))
  {
    if Authentic(record) {
      match record.frame.value
      case OfferFrame(offer) => StrangersOffer(k, c, c', record, offer);
      case AcceptFrame(accept) => StrangersAccept(k, c, c', record, accept);
      case OtherFrame(_) =>
    }
  }

  /** Strangers' rows leave everything the parties posted, and what they accepted of one another, as it was. */
  lemma {:induction false} StrangersLeaveTheParties(k: Case, records: seq<Record>, extra: set<nat>)
    requires AllNamed(k, records) && ByStrangers(k, records, extra)
    ensures SameForParties(k, Collect(k.t, Without(records, extra)), Collect(k.t, records))
  {
    if records != [] {
      var front, last := records[..|records| - 1], records[|records| - 1];
      StrangersLeaveTheParties(k, front, extra);
      var c, c' := Collect(k.t, Without(front, extra)), Collect(k.t, front);
      if last.uid in extra {
        TakeStrangers(k, c, c', last);
        assert Without(records, extra) == Without(front, extra);
      } else {
        TakeForBoth(k, c, c', last);
        assert Without(records, extra)[..|Without(front, extra)|] == Without(front, extra);
      }
    }
  }

  // --- a party's accepts -----------------------------------------------------------------------------------------------------

  lemma {:induction false} ByDecides(accepts: seq<PostedAccept>, did: Did)
    ensures AcceptPlace(accepts, did) == AcceptPlace(By(accepts, did), did)
    ensures FirstBy(accepts, did) == if By(accepts, did) == [] then None else Some(By(accepts, did)[0])
    ensures AcceptedBy(accepts, did) <==> By(accepts, did) != []
  {
    AcceptPlaceIsLeast(accepts, did);
    AcceptPlaceIsLeast(By(accepts, did), did);
    if accepts != [] {
      var front, last := accepts[..|accepts| - 1], accepts[|accepts| - 1];
      ByDecides(front, did);
      if last.accept.core.from == did {
        assert By(accepts, did)[..|By(front, did)|] == By(front, did);
        assert accepts[|accepts| - 1].accept.core.from == did;
      } else {
        assert By(accepts, did) == By(front, did);
      }
    }
  }

  /** What a party accepted, and where, is the same on both boards. */
  lemma SameAcceptsDecideTheSame(k: Case, c: Collected, c': Collected, id: Id, did: Did)
    requires SameForParties(k, c, c') && PartyId(k, id) && IsParty(k, did)
    ensures AcceptedBy(AcceptsOf(c, id), did) <==> AcceptedBy(AcceptsOf(c', id), did)
    ensures AcceptPlace(AcceptsOf(c, id), did) == AcceptPlace(AcceptsOf(c', id), did)
    ensures FirstBy(AcceptsOf(c, id), did) == FirstBy(AcceptsOf(c', id), did)
    ensures AcceptedBy(AcceptsOf(c, id), did) <==> FirstBy(AcceptsOf(c, id), did).Some?
  {
    ByDecides(AcceptsOf(c, id), did);
    ByDecides(AcceptsOf(c', id), did);
  }

  // --- rows ------------------------------------------------------------------------------------------------------------------

  ghost predicate PostedIn(records: seq<Record>, b: PostedOffer) {
    exists i :: 0 <= i < |records| && OfferedBy(records[i], b)
  }

  lemma {:induction false} LegBsAreRows(t: Rules, records: seq<Record>, b: PostedOffer)
    requires b in Collect(t, records).legBs
    ensures PostedIn(records, b)
  {
    var front, last := records[..|records| - 1], records[|records| - 1];
    if b in Collect(t, front).legBs {
      LegBsAreRows(t, front, b);
      var i :| 0 <= i < |front| && OfferedBy(front[i], b);
      assert OfferedBy(records[i], b);
    } else {
      assert OfferedBy(records[|records| - 1], b);
    }
  }

  lemma OneRowOnePlace(t: Rules, records: seq<Record>, b: PostedOffer, b': PostedOffer)
    requires PlacesDiffer(records) && b in Collect(t, records).legBs && b' in Collect(t, records).legBs
    requires b.record.place == b'.record.place
    ensures b == b'
  {
    LegBsAreRows(t, records, b);
    LegBsAreRows(t, records, b');
  }

  // --- the pairing ---------------------------------------------------------------------------------------------------------

  /** A swap of the two parties whose pair crosses, on the board without the strangers' rows. */
  ghost predicate CrossingSwap(k: Case, c: Collected, id: Id, w: PostedOffer) {
    && id in c.legAs && c.legAs[id].offer.id == id && c.legAs[id].offer == k.offerOf(id) && c.legAs[id].offer.from == k.buyer
    && k.buyer != k.seller && w.offer.from == k.seller && w.offer == k.offerOf(w.offer.id)
    && PairingOf(c, ByPlace(c.legBs), id) == Crossing(w)
  }

  /** On the whole board a stranger's leg B crosses too, and its accept of leg A is earlier. */
  ghost predicate StrangerCrossesEarlier(k: Case, c: Collected, id: Id, w: PostedOffer)
    requires id in c.legAs
  {
    exists b :: b in c.legBs && EarlierCrossing(k, c, id, w, b)
  }

  predicate EarlierCrossing(k: Case, c: Collected, id: Id, w: PostedOffer, b: PostedOffer)
    requires id in c.legAs
  {
    && LegAOf(b) == Some(id) && !IsParty(k, b.offer.from) && IsCrossing(c, c.legAs[id], b)
    && PlaceFor(c, c.legAs[id], b).Some? && PlaceFor(c, c.legAs[id], w).Some?
    && PlaceFor(c, c.legAs[id], b).value < PlaceFor(c, c.legAs[id], w).value
  }

  /** The best of some candidates in venue order, against any other that crosses. */
  lemma BestComesFirst(c: Collected, legA: PostedOffer, candidates: seq<PostedOffer>, m: nat, n: nat)
    requires BestCrossing(c, legA, candidates, m) && InPlaceOrder(candidates)
    requires n < |candidates| && IsCrossing(c, legA, candidates[n])
    ensures var (pm, pn) := (PlaceFor(c, legA, candidates[m]), PlaceFor(c, legA, candidates[n]));
            pm.Some? && pn.Some? && pm.value <= pn.value && (pm == pn ==> candidates[m].record.place <= candidates[n].record.place)
  {
    AcceptPlaceIsLeast(AcceptsOf(c, legA.offer.id), candidates[n].offer.from);
  }

  /** The winner of a crossing pairing, and what it wins by: an earlier accept, or the same accept and an earlier row. */
  lemma WinnerComesFirst(c: Collected, id: Id, w: PostedOffer, b: PostedOffer)
    requires id in c.legAs && c.legAs[id].offer.id == id && PairingOf(c, ByPlace(c.legBs), id) == Crossing(w)
    requires b in c.legBs && LegAOf(b) == Some(id) && IsCrossing(c, c.legAs[id], b)
    ensures w in c.legBs && LegAOf(w) == Some(id) && IsCrossing(c, c.legAs[id], w)
    ensures var (pw, pb) := (PlaceFor(c, c.legAs[id], w), PlaceFor(c, c.legAs[id], b));
            pw.Some? && pb.Some? && pw.value <= pb.value && (pw == pb ==> w.record.place <= b.record.place)
  {
    var sorted := ByPlace(c.legBs);
    var candidates := CandidatesOf(sorted, id);
    CrossingIsAWinner(c, id, w);
    ByPlaceKeeps(c.legBs);
    assert b in multiset(sorted);
    CandidatesAre(sorted, id, b);
    var n :| 0 <= n < |candidates| && candidates[n] == b;
    var m := PairingIsBest(c, sorted, id);
    CandidatesKeepOrder(sorted, id);
    BestComesFirst(c, c.legAs[id], candidates, m, n);
  }

  lemma {:induction false} CandidatesKeepOrder(sorted: seq<PostedOffer>, legA: Id)
    requires InPlaceOrder(sorted)
    ensures InPlaceOrder(CandidatesOf(sorted, legA))
  {
    if sorted != [] {
      var front, last := sorted[..|sorted| - 1], sorted[|sorted| - 1];
      var before := CandidatesOf(front, legA);
      CandidatesKeepOrder(front, legA);
      forall k | 0 <= k < |before| ensures before[k].record.place <= last.record.place {
        CandidatesAre(front, legA, before[k]);
      }
    }
  }

  /** The parties' crossing candidates cross on both boards, by the same accept. */
  lemma PartiesCrossOnBoth(k: Case, c: Collected, c': Collected, id: Id, b: PostedOffer)
    requires SameForParties(k, c, c') && id in c.legAs && c.legAs[id].offer.id == id && c.legAs[id].offer == k.offerOf(id)
    requires c.legAs[id].offer.from == k.buyer && IsParty(k, b.offer.from) && b.offer == k.offerOf(b.offer.id)
    ensures id in c'.legAs && c'.legAs[id] == c.legAs[id]
    ensures IsCrossing(c, c.legAs[id], b) <==> IsCrossing(c', c'.legAs[id], b)
    ensures PlaceFor(c, c.legAs[id], b) == PlaceFor(c', c'.legAs[id], b)
    ensures b in c.legBs <==> b in c'.legBs
  {
    assert PartyId(k, id) && PartyId(k, b.offer.id);
    SameAcceptsDecideTheSame(k, c, c', id, b.offer.from);
    SameAcceptsDecideTheSame(k, c, c', b.offer.id, k.buyer);
  }

  /** Nobody crosses with itself: leg A's own offerer is no genuine accepter of it. */
  lemma BuyerNeverAcceptsItself(t: Rules, c: Collected, id: Id)
    requires Sound(t, c) && id in c.legAs && id in c.offers && c.offers[id] == c.legAs[id].offer
    ensures !AcceptedBy(AcceptsOf(c, id), c.legAs[id].offer.from)
  {
  }

  /** A candidate of a board carries the offer its id names. */
  lemma LegBsAreNamed(k: Case, records: seq<Record>, b: PostedOffer)
    requires AllNamed(k, records) && b in Collect(k.t, records).legBs
    ensures b.offer == k.offerOf(b.offer.id)
  {
    LegBsAreRows(k.t, records, b);
  }

  // --- two winners ---------------------------------------------------------------------------------------------------------

  /** A party's winner on both boards is the same candidate. */
  lemma BothWin(k: Case, records: seq<Record>, c: Collected, c': Collected, id: Id, w: PostedOffer, w': PostedOffer)
    requires AllNamed(k, records) && PlacesDiffer(records) && c' == Collect(k.t, records) && SameForParties(k, c, c')
    requires CrossingSwap(k, c, id, w) && w in c'.legBs && LegAOf(w) == Some(id) && id in c'.legAs && c'.legAs[id] == c.legAs[id]
    requires IsCrossing(c', c'.legAs[id], w)
    requires PairingOf(c', ByPlace(c'.legBs), id) == Crossing(w') && IsParty(k, w'.offer.from)
    ensures w' == w
  {
    CrossingIsAWinner(c', id, w');
    CollectedIsSound(k.t, records);
    BuyerNeverAcceptsItself(k.t, c', id);
    LegBsAreNamed(k, records, w');
    PartiesCrossOnBoth(k, c, c', id, w');
    PartiesCrossOnBoth(k, c, c', id, w);
    WinnerComesFirst(c, id, w, w');
    WinnerComesFirst(c', id, w', w);
    OneRowOnePlace(k.t, records, w, w');
  }

  ghost predicate AcceptedIn(records: seq<Record>, posted: PostedAccept) {
    exists i :: 0 <= i < |records| && AcceptRow(records[i], posted)
  }

  predicate AcceptRow(record: Record, posted: PostedAccept) {
    record == posted.record && Authentic(record) && record.frame == Some(AcceptFrame(posted.accept))
  }

  lemma {:induction false} AcceptsAreRows(t: Rules, records: seq<Record>, id: Id, n: nat)
    requires n < |AcceptsOf(Collect(t, records), id)|
    ensures AcceptedIn(records, AcceptsOf(Collect(t, records), id)[n])
  {
    if records != [] {
      var front := records[..|records| - 1];
      var before := AcceptsOf(Collect(t, front), id);
      if n < |before| {
        AcceptsAreRows(t, front, id, n);
        assert AcceptsOf(Collect(t, records), id)[n] == before[n];
        var i :| 0 <= i < |front| && AcceptRow(front[i], before[n]);
        assert AcceptRow(records[i], before[n]);
      } else {
        assert AcceptRow(records[|records| - 1], AcceptsOf(Collect(t, records), id)[n]);
      }
    }
  }

  /** Two accepters of one leg A never tie: their accepts are different rows. */
  lemma AccepterTies(t: Rules, records: seq<Record>, id: Id, did: Did, did': Did)
    requires PlacesDiffer(records)
    requires var accepts := AcceptsOf(Collect(t, records), id);
             AcceptPlace(accepts, did).Some? && AcceptPlace(accepts, did) == AcceptPlace(accepts, did')
    ensures did == did'
  {
    var accepts := AcceptsOf(Collect(t, records), id);
    AcceptPlaceIsLeast(accepts, did);
    AcceptPlaceIsLeast(accepts, did');
    var n :| 0 <= n < |accepts| && accepts[n].accept.core.from == did && accepts[n].record.place == AcceptPlace(accepts, did).value;
    var n' :| 0 <= n' < |accepts| && accepts[n'].accept.core.from == did' && accepts[n'].record.place == AcceptPlace(accepts, did').value;
    AcceptsAreRows(t, records, id, n);
    AcceptsAreRows(t, records, id, n');
  }

  /** On the whole board the parties' pair still crosses, so some pair does, and it is at least as good. */
  lemma WholeBoardCrosses(k: Case, records: seq<Record>, extra: set<nat>, id: Id, w: PostedOffer)
    requires AllNamed(k, records) && ByStrangers(k, records, extra)
    requires CrossingSwap(k, Collect(k.t, Without(records, extra)), id, w)
    ensures var (c, c') := (Collect(k.t, Without(records, extra)), Collect(k.t, records));
            && SameForParties(k, c, c') && id in c'.legAs && c'.legAs[id] == c.legAs[id]
            && w in c'.legBs && LegAOf(w) == Some(id) && IsCrossing(c', c'.legAs[id], w)
            && PairingOf(c', ByPlace(c'.legBs), id).Crossing?
  {
    var c, c' := Collect(k.t, Without(records, extra)), Collect(k.t, records);
    StrangersLeaveTheParties(k, records, extra);
    CrossingIsAWinner(c, id, w);
    PartiesCrossOnBoth(k, c, c', id, w);
    ByPlaceKeeps(c'.legBs);
    assert w in multiset(ByPlace(c'.legBs));
    CrossingWins(c', ByPlace(c'.legBs), id, w);
  }

  /** A stranger's accept that is no later than a party's is earlier: they are different rows. */
  lemma NoLaterIsEarlier(k: Case, records: seq<Record>, id: Id, w: PostedOffer, b: PostedOffer)
    requires PlacesDiffer(records) && id in Collect(k.t, records).legAs && Collect(k.t, records).legAs[id].offer.id == id
    requires var c := Collect(k.t, records);
             && IsParty(k, w.offer.from) && !IsParty(k, b.offer.from) && LegAOf(b) == Some(id) && IsCrossing(c, c.legAs[id], b)
             && PlaceFor(c, c.legAs[id], b).Some? && PlaceFor(c, c.legAs[id], w).Some?
             && PlaceFor(c, c.legAs[id], b).value <= PlaceFor(c, c.legAs[id], w).value
    ensures EarlierCrossing(k, Collect(k.t, records), id, w, b)
  {
    var c := Collect(k.t, records);
    if PlaceFor(c, c.legAs[id], b) == PlaceFor(c, c.legAs[id], w) {
      AccepterTies(k.t, records, id, w.offer.from, b.offer.from);
    }
  }

  /** The whole board's winner, if it is a stranger's, comes earlier. */
  lemma StrangerWinnerIsEarlier(k: Case, records: seq<Record>, id: Id, w: PostedOffer, b: PostedOffer)
    requires PlacesDiffer(records) && id in Collect(k.t, records).legAs && Collect(k.t, records).legAs[id].offer.id == id
    requires var c := Collect(k.t, records);
             && IsParty(k, w.offer.from) && w in c.legBs && LegAOf(w) == Some(id) && IsCrossing(c, c.legAs[id], w)
             && PairingOf(c, ByPlace(c.legBs), id) == Crossing(b) && !IsParty(k, b.offer.from)
    ensures StrangerCrossesEarlier(k, Collect(k.t, records), id, w)
  {
    var c := Collect(k.t, records);
    WinnerComesFirst(c, id, b, w);
    NoLaterIsEarlier(k, records, id, w, b);
    assert b in c.legBs && EarlierCrossing(k, c, id, w, b);
  }

  /** With no earlier stranger the parties' pair wins the whole board too. */
  lemma NoEarlierStrangerNoChange(k: Case, records: seq<Record>, extra: set<nat>, id: Id, w: PostedOffer)
    requires AllNamed(k, records) && ByStrangers(k, records, extra) && PlacesDiffer(records)
    requires CrossingSwap(k, Collect(k.t, Without(records, extra)), id, w)
    requires id in Collect(k.t, records).legAs && !StrangerCrossesEarlier(k, Collect(k.t, records), id, w)
    ensures var c' := Collect(k.t, records);
            PairingOf(c', ByPlace(c'.legBs), id) == Crossing(w)
  {
    var c, c' := Collect(k.t, Without(records, extra)), Collect(k.t, records);
    WholeBoardCrosses(k, records, extra, id, w);
    var p := PairingOf(c', ByPlace(c'.legBs), id);
    if IsParty(k, p.b.offer.from) {
      BothWin(k, records, c, c', id, w, p.b);
    } else {
      StrangerWinnerIsEarlier(k, records, id, w, p.b);
    }
  }

  /** An earlier stranger wins over the parties' pair. */
  lemma EarlierStrangerWins(k: Case, c: Collected, id: Id, w: PostedOffer)
    requires id in c.legAs && c.legAs[id].offer.id == id && StrangerCrossesEarlier(k, c, id, w)
    ensures PairingOf(c, ByPlace(c.legBs), id) != Crossing(w)
  {
    var b :| b in c.legBs && EarlierCrossing(k, c, id, w, b);
    if PairingOf(c, ByPlace(c.legBs), id) == Crossing(w) {
      WinnerComesFirst(c, id, w, b);
    }
  }

  /**
   * What strangers can do to a crossing pair, exactly: adding any rows by neither party, anywhere in the export, leaves the
   * chosen leg B as it was if and only if no stranger's leg B then crosses with an earlier accept of leg A.
   */
  lemma StrangersDisplaceExactly(k: Case, records: seq<Record>, extra: set<nat>, id: Id, w: PostedOffer)
    requires AllNamed(k, records) && ByStrangers(k, records, extra) && PlacesDiffer(records)
    requires CrossingSwap(k, Collect(k.t, Without(records, extra)), id, w)
    ensures var c' := Collect(k.t, records);
            && id in c'.legAs
            && (PairingOf(c', ByPlace(c'.legBs), id) == Crossing(w) <==> !StrangerCrossesEarlier(k, c', id, w))
  {
    WholeBoardCrosses(k, records, extra, id, w);
    if StrangerCrossesEarlier(k, Collect(k.t, records), id, w) {
      EarlierStrangerWins(k, Collect(k.t, records), id, w);
    } else {
      NoEarlierStrangerNoChange(k, records, extra, id, w);
    }
  }

  lemma CrossingIsAWinner(c: Collected, id: Id, w: PostedOffer)
    requires id in c.legAs && c.legAs[id].offer.id == id && PairingOf(c, ByPlace(c.legBs), id) == Crossing(w)
    ensures w in c.legBs && LegAOf(w) == Some(id) && IsCrossing(c, c.legAs[id], w)
  {
    var sorted := ByPlace(c.legBs);
    ByPlaceKeeps(c.legBs);
    WinnerIsACandidate(c, sorted, id);
    assert w in multiset(sorted);
    BestIsBest(c, c.legAs[id], CandidatesOf(sorted, id));
  }

  // --- the view ------------------------------------------------------------------------------------------------------------

  lemma {:induction false} SharedCountAgrees(c: Collected, d: Collected, order: seq<Id>, from: Did, swapId: Id)
    requires forall i :: 0 <= i < |order| ==> order[i] in c.legAs && order[i] in d.legAs && c.legAs[order[i]] == d.legAs[order[i]]
    ensures SharedCount(c, order, from, swapId) == SharedCount(d, order, from, swapId)
  {
    if order != [] {
      SharedCountAgrees(c, d, order[..|order| - 1], from, swapId);
    }
  }

  predicate AddsToCount(c: Collected, offer: Offer, from: Did, swapId: Id) {
    offer.leg.LegOfA? && offer.id !in c.legAs && offer.from == from && offer.leg.swapId == swapId
  }

  lemma OneMoreInCount(d: Collected, order: seq<Id>, id: Id, from: Did, swapId: Id)
    requires id in d.legAs && d.legAs[id].offer.leg.LegOfA?
    ensures SharedCount(d, order + [id], from, swapId)
            == SharedCount(d, order, from, swapId)
               + if d.legAs[id].offer.from == from && d.legAs[id].offer.leg.swapId == swapId then 1 else 0
  {
    assert (order + [id])[..|order|] == order;
  }

  lemma OfferCounts(t: Rules, c: Collected, record: Record, offer: Offer, from: Did, swapId: Id)
    requires Sound(t, c)
    ensures var d := TakeOffer(c, record, offer);
            SharedCount(d, d.order, from, swapId)
              == SharedCount(c, c.order, from, swapId) + if AddsToCount(c, offer, from, swapId) then 1 else 0
  {
    var d := TakeOffer(c, record, offer);
    OfferAddsItsLegA(c, record, offer);
    OfferAddsToOrder(c, record, offer);
    SharedCountAgrees(c, d, c.order, from, swapId);
    if offer.leg.LegOfA? && offer.id !in c.legAs {
      OneMoreInCount(d, c.order, offer.id, from, swapId);
    } else {
      assert c.order + [] == c.order;
    }
  }

  /** Strangers do not change how many leg A offers of a party share a swap id. */
  lemma {:induction false} StrangersLeaveTheCount(k: Case, records: seq<Record>, extra: set<nat>, from: Did, swapId: Id)
    requires AllNamed(k, records) && ByStrangers(k, records, extra) && IsParty(k, from)
    ensures var (c, c') := (Collect(k.t, Without(records, extra)), Collect(k.t, records));
            SharedCount(c, c.order, from, swapId) == SharedCount(c', c'.order, from, swapId)
  {
    if records != [] {
      var front, last := records[..|records| - 1], records[|records| - 1];
      var c, c' := Collect(k.t, Without(front, extra)), Collect(k.t, front);
      StrangersLeaveTheCount(k, front, extra, from, swapId);
      StrangersLeaveTheParties(k, front, extra);
      CollectedIsSound(k.t, front);
      CollectedIsSound(k.t, Without(front, extra));
      TakeCounts(k.t, c', last, from, swapId);
      if last.uid in extra {
        assert Without(records, extra) == Without(front, extra);
      } else {
        assert Without(records, extra)[..|Without(front, extra)|] == Without(front, extra);
        TakeCounts(k.t, c, last, from, swapId);
      }
    }
  }

  /** What one row adds to a count. */
  predicate RowAdds(c: Collected, record: Record, from: Did, swapId: Id) {
    Authentic(record) && record.frame.value.OfferFrame? && AddsToCount(c, record.frame.value.offer, from, swapId)
  }

  lemma TakeCounts(t: Rules, c: Collected, record: Record, from: Did, swapId: Id)
    requires Sound(t, c)
    ensures var d := Take(t, c, record);
            SharedCount(d, d.order, from, swapId) == SharedCount(c, c.order, from, swapId) + if RowAdds(c, record, from, swapId) then 1 else 0
  {
    if Authentic(record) {
      match record.frame.value
      case OfferFrame(offer) => OfferCounts(t, c, record, offer, from, swapId);
      case AcceptFrame(accept) => SharedCountAgrees(c, Take(t, c, record), c.order, from, swapId);
      case OtherFrame(_) =>
    }
  }

  /** A party's accept of a party's offer is chosen the same way on both boards. */
  lemma SameChoice(k: Case, c: Collected, c': Collected, id: Id, did: Did)
    requires SameForParties(k, c, c') && PartyId(k, id) && IsParty(k, did) && AcceptedBy(AcceptsOf(c, id), did)
    ensures ChooseAccept(AcceptsOf(c', id), Some(did)) == ChooseAccept(AcceptsOf(c, id), Some(did))
  {
    SameAcceptsDecideTheSame(k, c, c', id, did);
  }

  /** The same pair, the same accepts: the same legs, whatever else stands on the board. */
  lemma SameLegs(k: Case, input: BoardInput, c: Collected, c': Collected, id: Id, w: PostedOffer)
    requires SameForParties(k, c, c') && CrossingSwap(k, c, id, w) && id in c'.legAs && c'.legAs[id] == c.legAs[id]
    ensures LegsOf(k.t, input, c', c.legAs[id], Crossing(w)) == LegsOf(k.t, input, c, c.legAs[id], Crossing(w))
  {
    CrossingIsAWinner(c, id, w);
    SameChoice(k, c, c', id, k.seller);
    SameChoice(k, c, c', w.offer.id, k.buyer);
    LegsFromChoices(k.t, input, c, c', c.legAs[id], w);
  }

  lemma LegsFromChoices(t: Rules, input: BoardInput, c: Collected, c': Collected, legA: PostedOffer, w: PostedOffer)
    requires ChooseAccept(AcceptsOf(c', legA.offer.id), Some(w.offer.from)) == ChooseAccept(AcceptsOf(c, legA.offer.id), Some(w.offer.from))
    requires ChooseAccept(AcceptsOf(c', w.offer.id), Some(legA.offer.from)) == ChooseAccept(AcceptsOf(c, w.offer.id), Some(legA.offer.from))
    ensures LegsOf(t, input, c', legA, Crossing(w)) == LegsOf(t, input, c, legA, Crossing(w))
  {
  }

  /**
   * Strangers do not interfere: any rows by neither party, in any number and anywhere, leave a crossing swap's whole view as
   * it was, unless a stranger's leg B then crosses with an earlier accept of leg A.
   */
  lemma StrangersDoNotInterfere(k: Case, input: BoardInput, records: seq<Record>, extra: set<nat>, id: Id, w: PostedOffer)
    requires AllNamed(k, records) && ByStrangers(k, records, extra) && PlacesDiffer(records)
    requires CrossingSwap(k, Collect(k.t, Without(records, extra)), id, w)
    requires id in Collect(k.t, records).legAs ==> !StrangerCrossesEarlier(k, Collect(k.t, records), id, w)
    ensures id in Collect(k.t, records).legAs
    ensures SwapOf(k.t, input, Collect(k.t, records), id) == SwapOf(k.t, input, Collect(k.t, Without(records, extra)), id)
  {
    var c, c' := Collect(k.t, Without(records, extra)), Collect(k.t, records);
    StrangersDisplaceExactly(k, records, extra, id, w);
    StrangersLeaveTheParties(k, records, extra);
    assert PartyId(k, id);
    SameLegs(k, input, c, c', id, w);
    if c.legAs[id].offer.leg.LegOfA? {
      StrangersLeaveTheCount(k, records, extra, k.buyer, c.legAs[id].offer.leg.swapId);
    }
    SameView(k.t, input, c, c', id, w);
  }

  lemma SameView(t: Rules, input: BoardInput, c: Collected, c': Collected, id: Id, w: PostedOffer)
    requires id in c.legAs && id in c'.legAs && c'.legAs[id] == c.legAs[id]
    requires PairingOf(c, ByPlace(c.legBs), id) == Crossing(w) && PairingOf(c', ByPlace(c'.legBs), id) == Crossing(w)
    requires LegsOf(t, input, c', c.legAs[id], Crossing(w)) == LegsOf(t, input, c, c.legAs[id], Crossing(w))
    requires var offer := c.legAs[id].offer;
             offer.leg.LegOfA? ==> SharedCount(c, c.order, offer.from, offer.leg.swapId) == SharedCount(c', c'.order, offer.from, offer.leg.swapId)
    ensures SwapOf(t, input, c', id) == SwapOf(t, input, c, id)
  {
  }

  // --- when a stranger can cross -----------------------------------------------------------------------------------------------

  /** The Buyer signed no accept of a stranger's leg B for this leg A. */
  ghost predicate BuyerAcceptsNoStranger(k: Case, records: seq<Record>, id: Id) {
    forall i :: 0 <= i < |records| ==> !AcceptsStranger(k, records[i], id)
  }

  predicate AcceptsStranger(k: Case, record: Record, id: Id) {
    && Authentic(record) && record.frame.value.AcceptFrame? && record.frame.value.accept.core.from == k.buyer
    && var offer := k.offerOf(record.frame.value.accept.core.ref);
       offer.leg.LegOfB? && offer.leg.legAOfferId == id && !IsParty(k, offer.from)
  }

  /** A stranger that crosses earlier shows an accept of its leg B, signed by the Buyer, among the rows. */
  lemma OnlyTheBuyersAcceptLetsAStrangerCross(k: Case, records: seq<Record>, id: Id, w: PostedOffer)
    requires AllNamed(k, records) && id in Collect(k.t, records).legAs && Collect(k.t, records).legAs[id].offer.from == k.buyer
    requires StrangerCrossesEarlier(k, Collect(k.t, records), id, w)
    ensures !BuyerAcceptsNoStranger(k, records, id)
  {
    var c := Collect(k.t, records);
    var b :| b in c.legBs && EarlierCrossing(k, c, id, w, b);
    LegBsAreNamed(k, records, b);
    CollectedIsSound(k.t, records);
    var accepts := AcceptsOf(c, b.offer.id);
    var n :| 0 <= n < |accepts| && accepts[n].accept.core.from == k.buyer;
    AcceptsAreRows(k.t, records, b.offer.id, n);
    var i :| 0 <= i < |records| && AcceptRow(records[i], accepts[n]);
    assert AcceptsStranger(k, records[i], id);
  }

  // --- and the case where one does -------------------------------------------------------------------------------------------

  /** tclk's functions for the example: contract ids that tell an offer's accepters apart, and a machine that folds nothing. */
  function ExampleRules(): Rules {
    Rules((offer: Offer, core: Core) => Some(100 * core.ref + core.from), (records: seq<Record>) => NoFold, (input: Input) => Fold(input))
  }

  /** The Buyer is 1, the Seller 2, the stranger 3; offers 11 (leg A), 12 (the Seller's leg B) and 13 (the stranger's). */
  function ExampleOffer(id: Id): Offer {
    if id == 11 then Offer(11, 1, LegOfA(7, 0), true, 0, 0)
    else if id == 12 then Offer(12, 2, LegOfB(7, 11), true, 0, 0)
    else if id == 13 then Offer(13, 3, LegOfB(7, 11), true, 0, 0)
    else Offer(id, 0, NotALeg, true, 0, 0)
  }

  function ExampleOfferRow(place: nat, id: Id): Record {
    Record(place, place, ExampleOffer(id).from, true, true, Some(OfferFrame(ExampleOffer(id))))
  }

  function ExampleAcceptRow(place: nat, from: Did, ref: Id): Record {
    Record(place, place, from, true, true, Some(AcceptFrame(Accept(Core(from, ref, 5, 0), 100 * ref + from))))
  }

  /**
   * The stranger accepts leg A first and the Seller second; the Seller's leg B is accepted by the Buyer; and so is the
   * stranger's, whose own row stands fourth.
   */
  function ExampleRows(): seq<Record> {
    [ExampleOfferRow(1, 11), ExampleAcceptRow(2, 3, 11), ExampleAcceptRow(3, 2, 11), ExampleOfferRow(4, 13), ExampleOfferRow(5, 12),
     ExampleAcceptRow(6, 1, 12), ExampleAcceptRow(7, 1, 13)]
  }

  function ExampleCase(): Case {
    Case(ExampleRules(), 1, 2, ExampleOffer)
  }

  function ExamplePosted(place: nat, id: Id): PostedOffer {
    PostedOffer(ExampleOfferRow(place, id), ExampleOffer(id))
  }

  function ExampleAccepted(place: nat, from: Did, ref: Id): PostedAccept {
    PostedAccept(ExampleAcceptRow(place, from, ref), Accept(Core(from, ref, 5, 0), 100 * ref + from))
  }

  lemma CollectStep(t: Rules, records: seq<Record>, record: Record)
    ensures Collect(t, records + [record]) == Take(t, Collect(t, records), record)
  {
    assert (records + [record])[..|records|] == records;
  }

  /** After the first three rows: leg A, accepted by the stranger and then by the Seller. */
  function ExampleStart(): Collected {
    Collected(map[11 := ExampleOffer(11)], map[11 := ExamplePosted(1, 11)], [11], [],
              map[11 := [ExampleAccepted(2, 3, 11), ExampleAccepted(3, 2, 11)]])
  }

  /** After leg A's row, and after its first accept. */
  function ExampleOpened(accepts: map<Id, seq<PostedAccept>>): Collected {
    Collected(map[11 := ExampleOffer(11)], map[11 := ExamplePosted(1, 11)], [11], [], accepts)
  }

  lemma ExampleOpens()
    ensures Collect(ExampleRules(), ExampleRows()[..1]) == ExampleOpened(map[])
  {
    assert ExampleRows()[..1] == [] + [ExampleRows()[0]];
    CollectStep(ExampleRules(), [], ExampleRows()[0]);
  }

  lemma ExampleIsAccepted()
    ensures Collect(ExampleRules(), ExampleRows()[..2]) == ExampleOpened(map[11 := [ExampleAccepted(2, 3, 11)]])
  {
    var t, rows := ExampleRules(), ExampleRows();
    assert rows[..2] == rows[..1] + [rows[1]];
    ExampleOpens();
    CollectStep(t, rows[..1], rows[1]);
    assert [] + [ExampleAccepted(2, 3, 11)] == [ExampleAccepted(2, 3, 11)];
  }

  lemma ExampleStarts()
    ensures Collect(ExampleRules(), ExampleRows()[..3]) == ExampleStart()
  {
    var t, rows := ExampleRules(), ExampleRows();
    assert rows[..3] == rows[..2] + [rows[2]];
    ExampleIsAccepted();
    CollectStep(t, rows[..2], rows[2]);
    assert [ExampleAccepted(2, 3, 11)] + [ExampleAccepted(3, 2, 11)] == [ExampleAccepted(2, 3, 11), ExampleAccepted(3, 2, 11)];
  }

  /** The rest of the export, with the stranger's own row or without it. */
  function ExampleEnd(c: Collected): Collected {
    Take(ExampleRules(), Take(ExampleRules(), Take(ExampleRules(), c, ExampleOfferRow(5, 12)), ExampleAcceptRow(6, 1, 12)), ExampleAcceptRow(7, 1, 13))
  }

  lemma ExampleCollects()
    ensures Without(ExampleRows(), {4}) == ExampleRows()[..3] + ExampleRows()[4..]
    ensures Collect(ExampleRules(), Without(ExampleRows(), {4})) == ExampleEnd(ExampleStart())
    ensures Collect(ExampleRules(), ExampleRows()) == ExampleEnd(Take(ExampleRules(), ExampleStart(), ExampleOfferRow(4, 13)))
  {
    var t, rows := ExampleRules(), ExampleRows();
    ExampleStarts();
    var short := rows[..3] + rows[4..];
    assert short == rows[..3] + [rows[4]] + [rows[5]] + [rows[6]];
    CollectStep(t, rows[..3], rows[4]);
    CollectStep(t, rows[..3] + [rows[4]], rows[5]);
    CollectStep(t, rows[..3] + [rows[4]] + [rows[5]], rows[6]);
    assert rows == rows[..3] + [rows[3]] + [rows[4]] + [rows[5]] + [rows[6]];
    CollectStep(t, rows[..3], rows[3]);
    CollectStep(t, rows[..3] + [rows[3]], rows[4]);
    CollectStep(t, rows[..3] + [rows[3]] + [rows[4]], rows[5]);
    CollectStep(t, rows[..3] + [rows[3]] + [rows[4]] + [rows[5]], rows[6]);
    ExampleWithoutIs();
  }

  lemma WithoutStep(records: seq<Record>, record: Record, extra: set<nat>)
    ensures Without(records + [record], extra) == Without(records, extra) + if record.uid in extra then [] else [record]
  {
    assert (records + [record])[..|records|] == records;
  }

  lemma ExampleWithoutIs()
    ensures Without(ExampleRows(), {4}) == ExampleRows()[..3] + ExampleRows()[4..]
  {
    var rows := ExampleRows();
    var s1 := [] + [rows[0]];
    var s2 := s1 + [rows[1]];
    var s3 := s2 + [rows[2]];
    var s4 := s3 + [rows[3]];
    var s5 := s4 + [rows[4]];
    var s6 := s5 + [rows[5]];
    WithoutStep([], rows[0], {4});
    WithoutStep(s1, rows[1], {4});
    WithoutStep(s2, rows[2], {4});
    WithoutStep(s3, rows[3], {4});
    WithoutStep(s4, rows[4], {4});
    WithoutStep(s5, rows[5], {4});
    WithoutStep(s6, rows[6], {4});
    assert s6 + [rows[6]] == rows;
    assert Without(s4, {4}) == [] + [rows[0]] + [rows[1]] + [rows[2]] + [];
    assert rows[..3] + rows[4..] == [] + [rows[0]] + [rows[1]] + [rows[2]] + [] + [rows[4]] + [rows[5]] + [rows[6]];
  }

  lemma ExampleIsWellFormed()
    ensures AllNamed(ExampleCase(), ExampleRows()) && PlacesDiffer(ExampleRows())
    ensures ByStrangers(ExampleCase(), ExampleRows(), {4})
  {
    var rows := ExampleRows();
    assert forall i :: 0 <= i < 7 ==> rows[i].place == i + 1 && rows[i].uid == i + 1;
  }

  /** The two leg A accepts of the example, by place. */
  lemma ExamplePlaces()
    ensures var accepts := [ExampleAccepted(2, 3, 11), ExampleAccepted(3, 2, 11)];
            && AcceptPlace(accepts, 3) == Some(2) && AcceptPlace(accepts, 2) == Some(3)
            && AcceptedBy(accepts, 3) && AcceptedBy(accepts, 2)
  {
    var accepts := [ExampleAccepted(2, 3, 11), ExampleAccepted(3, 2, 11)];
    assert accepts[..1] == [ExampleAccepted(2, 3, 11)] && accepts[..1][..0] == [];
    assert accepts[0].accept.core.from == 3 && accepts[1].accept.core.from == 2;
  }

  lemma OneCandidate(c: Collected, id: Id, b: PostedOffer)
    requires id in c.legAs && c.legAs[id].offer.id == id && c.legBs == [b] && LegAOf(b) == Some(id) && IsCrossing(c, c.legAs[id], b)
    ensures PairingOf(c, ByPlace(c.legBs), id) == Crossing(b)
  {
    ByPlaceKeeps(c.legBs);
    assert b in multiset(ByPlace(c.legBs));
    CrossingWins(c, ByPlace(c.legBs), id, b);
    var w := PairingOf(c, ByPlace(c.legBs), id).b;
    assert w in multiset(ByPlace(c.legBs)) && multiset(ByPlace(c.legBs)) == multiset{b};
  }

  /** The board without the stranger's row, and with it. */
  function ExampleShort(): Collected {
    Collected(map[11 := ExampleOffer(11), 12 := ExampleOffer(12)], map[11 := ExamplePosted(1, 11)], [11], [ExamplePosted(5, 12)],
              map[11 := [ExampleAccepted(2, 3, 11), ExampleAccepted(3, 2, 11)], 12 := [ExampleAccepted(6, 1, 12)]])
  }

  function ExampleWhole(): Collected {
    Collected(map[11 := ExampleOffer(11), 13 := ExampleOffer(13), 12 := ExampleOffer(12)], map[11 := ExamplePosted(1, 11)], [11],
              [ExamplePosted(4, 13), ExamplePosted(5, 12)],
              map[11 := [ExampleAccepted(2, 3, 11), ExampleAccepted(3, 2, 11)], 12 := [ExampleAccepted(6, 1, 12)],
                  13 := [ExampleAccepted(7, 1, 13)]])
  }

  lemma ExampleShortIs()
    ensures ExampleEnd(ExampleStart()) == ExampleShort()
  {
    var t := ExampleRules();
    var c1 := Take(t, ExampleStart(), ExampleOfferRow(5, 12));
    assert [] + [ExamplePosted(5, 12)] == [ExamplePosted(5, 12)];
    assert c1 == ExampleStart().(offers := ExampleShort().offers, legBs := [ExamplePosted(5, 12)]);
    var c2 := Take(t, c1, ExampleAcceptRow(6, 1, 12));
    assert [] + [ExampleAccepted(6, 1, 12)] == [ExampleAccepted(6, 1, 12)];
    assert c2 == ExampleShort();
  }

  lemma ExampleWholeIs()
    ensures ExampleEnd(Take(ExampleRules(), ExampleStart(), ExampleOfferRow(4, 13))) == ExampleWhole()
  {
    var t := ExampleRules();
    var c0 := Take(t, ExampleStart(), ExampleOfferRow(4, 13));
    assert [] + [ExamplePosted(4, 13)] == [ExamplePosted(4, 13)];
    var c1 := Take(t, c0, ExampleOfferRow(5, 12));
    assert [ExamplePosted(4, 13)] + [ExamplePosted(5, 12)] == [ExamplePosted(4, 13), ExamplePosted(5, 12)];
    assert c1 == ExampleStart().(offers := ExampleWhole().offers, legBs := ExampleWhole().legBs);
    var c2 := Take(t, c1, ExampleAcceptRow(6, 1, 12));
    assert [] + [ExampleAccepted(6, 1, 12)] == [ExampleAccepted(6, 1, 12)];
    var c3 := Take(t, c2, ExampleAcceptRow(7, 1, 13));
    assert [] + [ExampleAccepted(7, 1, 13)] == [ExampleAccepted(7, 1, 13)];
    assert c3 == ExampleWhole();
  }

  lemma ExampleIsACrossingSwap()
    ensures CrossingSwap(ExampleCase(), ExampleShort(), 11, ExamplePosted(5, 12))
  {
    ExamplePlaces();
    var c := ExampleShort();
    assert AcceptsOf(c, 12)[0].accept.core.from == 1;
    OneCandidate(c, 11, ExamplePosted(5, 12));
  }

  lemma ExampleStrangerCrosses()
    ensures StrangerCrossesEarlier(ExampleCase(), ExampleWhole(), 11, ExamplePosted(5, 12))
  {
    ExamplePlaces();
    var c := ExampleWhole();
    assert AcceptsOf(c, 13)[0].accept.core.from == 1;
    assert c.legBs[0] in c.legBs && EarlierCrossing(ExampleCase(), c, 11, ExamplePosted(5, 12), ExamplePosted(4, 13));
  }

  /**
   * So "strangers never interfere" is false without its condition: here one row by a stranger, and nothing else, makes the
   * Buyer's own accept of it genuine, and takes the swap from the Seller.
   */
  lemma OneStrangerRowMayDisplace()
    ensures var (k, rows) := (ExampleCase(), ExampleRows());
            var c, c' := Collect(k.t, Without(rows, {4})), Collect(k.t, rows);
            && AllNamed(k, rows) && ByStrangers(k, rows, {4}) && PlacesDiffer(rows)
            && CrossingSwap(k, c, 11, ExamplePosted(5, 12))
            && 11 in c'.legAs && PairingOf(c', ByPlace(c'.legBs), 11) != Crossing(ExamplePosted(5, 12))
  {
    ExampleCollects();
    ExampleShortIs();
    ExampleWholeIs();
    ExampleIsWellFormed();
    ExampleIsACrossingSwap();
    ExampleStrangerCrosses();
    StrangersDisplaceExactly(ExampleCase(), ExampleRows(), {4}, 11, ExamplePosted(5, 12));
  }
}
