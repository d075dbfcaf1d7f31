/** Which leg B each leg A is paired with, and which candidates are listed unpaired and why, exactly. */
module BoardPairs {
  import opened Options
  import opened Swap
  import opened Board
  import opened BoardFacts

  // --- the order of the candidates -----------------------------------------------------------------------------------------

  /** The rows of a list that have this place, in the order given. */
  function AtPlace(bs: seq<PostedOffer>, place: nat): seq<PostedOffer> {
    if bs == [] then []
    else AtPlace(bs[..|bs| - 1], place) + if bs[|bs| - 1].record.place == place then [bs[|bs| - 1]] else []
  }

  lemma {:induction false} InsertIsStable(sorted: seq<PostedOffer>, b: PostedOffer, place: nat)
    requires InPlaceOrder(sorted)
    ensures AtPlace(Insert(sorted, b), place) == AtPlace(sorted, place) + if b.record.place == place then [b] else []
    decreases |sorted|
  {
    if sorted == [] || sorted[|sorted| - 1].record.place <= b.record.place {
      assert (sorted + [b])[..|sorted|] == sorted;
    } else {
      var front, last := sorted[..|sorted| - 1], sorted[|sorted| - 1];
      InsertIsStable(front, b, place);
      assert (Insert(front, b) + [last])[..|Insert(front, b)|] == Insert(front, b);
      if last.record.place == place {
      }
    }
  }

  /** Rows with the same place keep the order of the export. */
  lemma {:induction false} SortingIsStable(bs: seq<PostedOffer>, place: nat)
    ensures AtPlace(ByPlace(bs), place) == AtPlace(bs, place)
  {
    if bs != [] {
      SortingIsStable(bs[..|bs| - 1], place);
      ByPlaceKeeps(bs[..|bs| - 1]);
      InsertIsStable(ByPlace(bs[..|bs| - 1]), bs[|bs| - 1], place);
    }
  }

  // --- the winner ----------------------------------------------------------------------------------------------------------

  predicate Names(b: PostedOffer, legA: Id) {
    LegAOf(b) == Some(legA)
  }

  /** A candidate of this leg A signed by one of its accepters. */
  predicate ByAccepter(c: Collected, legA: Id, b: PostedOffer) {
    Names(b, legA) && AcceptedBy(AcceptsOf(c, legA), b.offer.from)
  }

  /** One of those that leg A's own offerer accepted in turn. */
  predicate Crossed(c: Collected, legA: Id, b: PostedOffer)
    requires legA in c.legAs
  {
    ByAccepter(c, legA, b) && AcceptedBy(AcceptsOf(c, b.offer.id), c.legAs[legA].offer.from)
  }

  /** This accept of the offer is by this DID, and no other by it has a lesser place. */
  predicate EarliestBy(accepts: seq<PostedAccept>, did: Did, n: nat) {
    && n < |accepts| && accepts[n].accept.core.from == did
    && forall m :: 0 <= m < |accepts| && accepts[m].accept.core.from == did ==> accepts[n].record.place <= accepts[m].record.place
  }

  /** The signer of the one accepted leg A before the signer of the other did, or, at the same place, stands before it. */
  ghost predicate AcceptedBefore(accepts: seq<PostedAccept>, first: Did, second: Did, orEqual: bool) {
    exists m: nat, n: nat :: EarliestBy(accepts, first, m) && EarliestBy(accepts, second, n)
      && (accepts[m].record.place < accepts[n].record.place || (orEqual && accepts[m].record.place == accepts[n].record.place))
  }

  /** This candidate crosses, and of those that do its signer accepted leg A first. */
  ghost predicate WinsAt(c: Collected, sorted: seq<PostedOffer>, legA: Id, k: nat) {
    && legA in c.legAs && k < |sorted| && Crossed(c, legA, sorted[k])
    && forall j :: 0 <= j < |sorted| && Crossed(c, legA, sorted[j]) ==>
         AcceptedBefore(AcceptsOf(c, legA), sorted[k].offer.from, sorted[j].offer.from, j >= k)
  }

  /** What each pairing takes: `sorted` is every candidate of the board in venue order. */
  ghost predicate PairsAs(p: Pairing, c: Collected, sorted: seq<PostedOffer>, legA: Id) {
    var accepts := AcceptsOf(c, legA);
    match p
    case NoPair =>
      || legA !in c.legAs
      || forall k :: 0 <= k < |sorted| ==> if accepts == [] then !Names(sorted[k], legA) else !ByAccepter(c, legA, sorted[k])
    case ByRowOrder(b) =>
      && legA in c.legAs && accepts == []
      && exists k :: 0 <= k < |sorted| && sorted[k] == b && Names(b, legA) && forall j :: 0 <= j < k ==> !Names(sorted[j], legA)
    case NoCrossing(b) =>
      && legA in c.legAs && accepts != [] && (forall k :: 0 <= k < |sorted| ==> !Crossed(c, legA, sorted[k]))
      && exists k :: 0 <= k < |sorted| && sorted[k] == b && ByAccepter(c, legA, b) && forall j :: 0 <= j < k ==> !ByAccepter(c, legA, sorted[j])
    case Crossing(b) =>
      && legA in c.legAs && accepts != []
      && exists k: nat :: WinsAt(c, sorted, legA, k) && sorted[k] == b
  }

  // --- the proof -----------------------------------------------------------------------------------------------------------

  /** Where each candidate of a leg A stands among all of them. */
  predicate Stand(sorted: seq<PostedOffer>, legA: Id, rows: seq<nat>) {
    && |CandidatesOf(sorted, legA)| == |rows|
    && (forall n :: 0 <= n < |rows| ==> rows[n] < |sorted| && sorted[rows[n]] == CandidatesOf(sorted, legA)[n])
    && (forall m, n :: 0 <= m < n < |rows| ==> rows[m] < rows[n])
  }

  lemma {:induction false} CandidatesStand(sorted: seq<PostedOffer>, legA: Id) returns (rows: seq<nat>)
    ensures Stand(sorted, legA, rows)
    ensures forall k: nat :: k in rows <==> k < |sorted| && Names(sorted[k], legA)
  {
    rows := [];
    if sorted != [] {
      var front, last := sorted[..|sorted| - 1], sorted[|sorted| - 1];
      var before := CandidatesStand(front, legA);
      assert forall k: nat :: k < |front| ==> front[k] == sorted[k];
      rows := before + if Names(last, legA) then [|front|] else [];
    }
  }

  lemma {:induction false} EarliestThere(accepts: seq<PostedAccept>, did: Did) returns (n: nat)
    requires AcceptedBy(accepts, did)
    ensures EarliestBy(accepts, did, n) && AcceptPlace(accepts, did) == Some(accepts[n].record.place)
  {
    AcceptPlaceIsLeast(accepts, did);
    n :| 0 <= n < |accepts| && accepts[n].accept.core.from == did && accepts[n].record.place == AcceptPlace(accepts, did).value;
  }

  lemma PlacesOrder(accepts: seq<PostedAccept>, first: Did, second: Did, orEqual: bool)
    requires AcceptedBy(accepts, first) && AcceptedBy(accepts, second)
    requires var (a, b) := (AcceptPlace(accepts, first), AcceptPlace(accepts, second));
             a.Some? && b.Some? && (a.value < b.value || (orEqual && a.value == b.value))
    ensures AcceptedBefore(accepts, first, second, orEqual)
  {
    var m := EarliestThere(accepts, first);
    var n := EarliestThere(accepts, second);
  }

  predicate FirstPlaced(c: Collected, legA: PostedOffer, candidates: seq<PostedOffer>, k: nat) {
    && k < |candidates| && PlaceFor(c, legA, candidates[k]).Some?
    && forall j :: 0 <= j < k ==> PlaceFor(c, legA, candidates[j]).None?
  }

  /** The first accepter's candidate stands in where no candidate crosses. */
  lemma {:induction false} FallbackIsFirst(c: Collected, legA: PostedOffer, candidates: seq<PostedOffer>)
    ensures var best := BestOf(c, legA, candidates);
            && (best.fallback.None? ==> forall k :: 0 <= k < |candidates| ==> PlaceFor(c, legA, candidates[k]).None?)
            && (best.fallback.Some? ==> exists k: nat :: FirstPlaced(c, legA, candidates, k) && candidates[k] == best.fallback.value)
  {
    if candidates != [] {
      var front, last := candidates[..|candidates| - 1], candidates[|candidates| - 1];
      FallbackIsFirst(c, legA, front);
      assert forall k :: 0 <= k < |front| ==> front[k] == candidates[k];
      assert candidates[|front|] == last;
      var before := BestOf(c, legA, front);
      if before.fallback.Some? {
        var k: nat :| FirstPlaced(c, legA, front, k) && front[k] == before.fallback.value;
        assert FirstPlaced(c, legA, candidates, k);
      } else if PlaceFor(c, legA, last).Some? {
        assert FirstPlaced(c, legA, candidates, |front|);
      }
    }
  }

  /** A candidate is one by an accepter exactly when its accept of leg A has a place. */
  lemma AcceptersHavePlaces(c: Collected, sorted: seq<PostedOffer>, id: Id)
    requires id in c.legAs && c.legAs[id].offer.id == id
    ensures forall b: PostedOffer :: PlaceFor(c, c.legAs[id], b).Some? <==> AcceptedBy(AcceptsOf(c, id), b.offer.from)
  {
    forall b: PostedOffer ensures PlaceFor(c, c.legAs[id], b).Some? <==> AcceptedBy(AcceptsOf(c, id), b.offer.from) {
      AcceptPlaceIsLeast(AcceptsOf(c, id), b.offer.from);
    }
  }

  lemma CrossingPairs(c: Collected, sorted: seq<PostedOffer>, id: Id)
    requires id in c.legAs && c.legAs[id].offer.id == id && SomeCrossing(c, c.legAs[id], CandidatesOf(sorted, id))
    requires AcceptsOf(c, id) != []
    ensures PairsAs(PairingOf(c, sorted, id), c, sorted, id)
  {
    hide AcceptPlace, BestOf, CandidatesOf, PairingOf, AcceptedBefore;
    var candidates, accepts := CandidatesOf(sorted, id), AcceptsOf(c, id);
    var rows := CandidatesStand(sorted, id);
    var m := PairingIsBest(c, sorted, id);
    var b := candidates[m];
    AcceptersHavePlaces(c, sorted, id);
    assert sorted[rows[m]] == b;
    forall j | 0 <= j < |sorted| && Crossed(c, id, sorted[j])
      ensures AcceptedBefore(accepts, b.offer.from, sorted[j].offer.from, j >= rows[m])
    {
      assert j in rows;
      var n :| 0 <= n < |rows| && rows[n] == j;
      assert candidates[n] == sorted[j];
      PlacesOrder(accepts, b.offer.from, sorted[j].offer.from, j >= rows[m]);
    }
    assert WinsAt(c, sorted, id, rows[m]);
  }

  lemma OthersPair(c: Collected, sorted: seq<PostedOffer>, id: Id)
    requires id in c.legAs && c.legAs[id].offer.id == id && !SomeCrossing(c, c.legAs[id], CandidatesOf(sorted, id))
    requires AcceptsOf(c, id) != []
    ensures PairsAs(PairingOf(c, sorted, id), c, sorted, id)
  {
    hide AcceptPlace, BestOf, CandidatesOf;
    var candidates := CandidatesOf(sorted, id);
    var rows := CandidatesStand(sorted, id);
    BestIsBest(c, c.legAs[id], candidates);
    FallbackIsFirst(c, c.legAs[id], candidates);
    AcceptersHavePlaces(c, sorted, id);
    var best := BestOf(c, c.legAs[id], candidates);
    forall k | 0 <= k < |sorted| && Names(sorted[k], id) ensures exists n :: 0 <= n < |rows| && rows[n] == k && candidates[n] == sorted[k] {
      assert k in rows;
    }
    if best.fallback.Some? {
      var n: nat :| FirstPlaced(c, c.legAs[id], candidates, n) && candidates[n] == best.fallback.value;
      assert sorted[rows[n]] == candidates[n];
    }
  }

  lemma PairingTakes(c: Collected, sorted: seq<PostedOffer>, id: Id)
    requires id in c.legAs ==> c.legAs[id].offer.id == id
    ensures PairsAs(PairingOf(c, sorted, id), c, sorted, id)
  {
    hide BestOf, CandidatesOf;
    if id in c.legAs {
      var candidates := CandidatesOf(sorted, id);
      if AcceptsOf(c, id) == [] {
        var rows := CandidatesStand(sorted, id);
        if candidates != [] {
          assert sorted[rows[0]] == candidates[0];
        }
      } else if SomeCrossing(c, c.legAs[id], candidates) {
        CrossingPairs(c, sorted, id);
      } else {
        OthersPair(c, sorted, id);
      }
    }
  }

  lemma OneIsFirst(accepts: seq<PostedAccept>, first: Did, second: Did, orEqual: bool, orEqual': bool)
    requires AcceptedBefore(accepts, first, second, orEqual) && AcceptedBefore(accepts, second, first, orEqual')
    ensures orEqual && orEqual'
  {
  }

  lemma CrossingIsOne(c: Collected, sorted: seq<PostedOffer>, id: Id, k: nat, k': nat)
    requires WinsAt(c, sorted, id, k) && WinsAt(c, sorted, id, k')
    ensures k == k'
  {
    hide AcceptedBefore, Crossed;
    OneIsFirst(AcceptsOf(c, id), sorted[k].offer.from, sorted[k'].offer.from, k' >= k, k >= k');
  }

  lemma PairsOnce(c: Collected, sorted: seq<PostedOffer>, id: Id, p: Pairing, p': Pairing)
    requires PairsAs(p, c, sorted, id) && PairsAs(p', c, sorted, id)
    ensures p == p'
  {
    hide AcceptedBefore, Names, AcceptedBy;
    if p.Crossing? && p'.Crossing? {
      var k: nat :| WinsAt(c, sorted, id, k) && sorted[k] == p.b;
      var k': nat :| WinsAt(c, sorted, id, k') && sorted[k'] == p'.b;
      CrossingIsOne(c, sorted, id, k, k');
    }
  }

  /** The leg B of any leg A, exactly: a pairing is the board's if and only if what that pairing takes is there. */
  lemma PairingIsExactly(c: Collected, sorted: seq<PostedOffer>, id: Id, p: Pairing)
    requires id in c.legAs ==> c.legAs[id].offer.id == id
    ensures PairingOf(c, sorted, id) == p <==> PairsAs(p, c, sorted, id)
  {
    PairingTakes(c, sorted, id);
    if PairsAs(p, c, sorted, id) {
      PairsOnce(c, sorted, id, p, PairingOf(c, sorted, id));
    }
  }

  // --- the candidates that go unpaired ---------------------------------------------------------------------------------------

  /** The candidate is the leg B of its own leg A. */
  ghost predicate Wins(c: Collected, sorted: seq<PostedOffer>, b: PostedOffer) {
    LegAOf(b).Some? && exists p: Pairing :: !p.NoPair? && p.b == b && PairsAs(p, c, sorted, LegAOf(b).value)
  }

  /** An earlier row than the candidate's is its leg A's leg B. */
  ghost predicate ComesAfterTheWinner(c: Collected, sorted: seq<PostedOffer>, b: PostedOffer) {
    && LegAOf(b).Some?
    && exists p: Pairing :: !p.NoPair? && p.b.record.place < b.record.place && PairsAs(p, c, sorted, LegAOf(b).value)
  }

  /** Why a leg B is listed unpaired, exactly. */
  lemma WhyIsExactly(c: Collected, sorted: seq<PostedOffer>, b: PostedOffer)
    requires b.offer.leg.LegOfB? && (LegAOf(b).value in c.legAs ==> c.legAs[LegAOf(b).value].offer.id == LegAOf(b).value)
    ensures var (why, id) := (LosesWhy(c, sorted, b), LegAOf(b).value);
            var stranger := id in c.legAs && !Wins(c, sorted, b) && !ComesAfterTheWinner(c, sorted, b)
                            && AcceptsOf(c, id) != [] && !AcceptedBy(AcceptsOf(c, id), b.offer.from);
            && (why.None? <==> Wins(c, sorted, b))
            && (why == Some(UnknownLegA) <==> id !in c.legAs)
            && (why == Some(NotByAccepter) <==> stranger)
            && (why == Some(AlreadyPaired) <==> id in c.legAs && !Wins(c, sorted, b) && !stranger)
  {
    hide PairsAs, PairingOf;
    var id := LegAOf(b).value;
    forall p: Pairing ensures PairsAs(p, c, sorted, id) <==> p == PairingOf(c, sorted, id) {
      PairingIsExactly(c, sorted, id, p);
    }
    if id !in c.legAs {
      NoLegANoPair(c, sorted, id);
    }
  }

  lemma NoLegANoPair(c: Collected, sorted: seq<PostedOffer>, id: Id)
    requires id !in c.legAs
    ensures PairingOf(c, sorted, id).NoPair?
  {
  }
}
