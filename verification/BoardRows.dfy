/**
 * What one pass over the offers room keeps, row by row: which row each offer, each leg A, each leg B and each accept comes
 * from, and in which order they are kept.
 */
module BoardRows {
  import opened Options
  import opened Swap
  import opened Board
  import opened BoardFacts

  // --- the offers ------------------------------------------------------------------------------------------------------

  predicate OffersAt(record: Record, id: Id) {
    Authentic(record) && record.frame.value.OfferFrame? && record.frame.value.offer.id == id
  }

  /** The first row of the export that offers under this id. */
  predicate FirstOffer(records: seq<Record>, k: nat, id: Id) {
    k < |records| && OffersAt(records[k], id) && forall j :: 0 <= j < k ==> !OffersAt(records[j], id)
  }

  /** The first row of the export that opens this leg A. */
  predicate FirstOpening(records: seq<Record>, k: nat, id: Id) {
    k < |records| && OpensAt(records[k], id) && forall j :: 0 <= j < k ==> !OpensAt(records[j], id)
  }

  ghost predicate Offered(records: seq<Record>, id: Id) {
    exists k: nat :: k < |records| && OffersAt(records[k], id)
  }

  /** An offer is known exactly when a row offers it, and its first row's frame is the one that stands. */
  lemma {:induction false} OffersAreFirstRows(t: Rules, records: seq<Record>, id: Id)
    ensures var offers := Collect(t, records).offers;
            && (id in offers <==> Offered(records, id))
            && (forall k: nat :: FirstOffer(records, k, id) ==> id in offers && offers[id] == records[k].frame.value.offer)
  {
    if records != [] {
      var front, last := records[..|records| - 1], records[|records| - 1];
      OffersAreFirstRows(t, front, id);
      assert forall k: nat :: k < |front| ==> front[k] == records[k];
      if OffersAt(last, id) {
        assert OffersAt(records[|front|], id);
      }
      forall k: nat | FirstOffer(records, k, id)
        ensures id in Collect(t, records).offers && Collect(t, records).offers[id] == records[k].frame.value.offer
      {
        if k < |front| {
          assert FirstOffer(front, k, id);
        }
      }
    }
  }

  /** The same for the leg A offers, each with its first row. */
  lemma {:induction false} LegAsAreFirstRows(t: Rules, records: seq<Record>, id: Id, k: nat)
    requires FirstOpening(records, k, id)
    ensures var legAs := Collect(t, records).legAs;
            id in legAs && legAs[id] == PostedOffer(records[k], records[k].frame.value.offer)
  {
    var front, last := records[..|records| - 1], records[|records| - 1];
    assert forall j: nat :: j < |front| ==> front[j] == records[j];
    if k < |front| {
      LegAsAreFirstRows(t, front, id, k);
    } else {
      LegAsAreOpened(t, front, id);
    }
  }

  lemma OrderGrows(t: Rules, front: seq<Record>, last: Record)
    ensures var before := Collect(t, front).order;
            var opens := Authentic(last) && last.frame.value.OfferFrame? && last.frame.value.offer.leg.LegOfA?
                         && !Opens(front, last.frame.value.offer.id);
            Collect(t, front + [last]).order == before + if opens then [last.frame.value.offer.id] else []
  {
    assert (front + [last])[..|front|] == front;
    if Authentic(last) && last.frame.value.OfferFrame? {
      LegAsAreOpened(t, front, last.frame.value.offer.id);
    }
  }

  /** The swaps of a board stand in the order their leg A offers were first seen. */
  lemma {:induction false} OrderIsFirstSeen(t: Rules, records: seq<Record>, i: nat, j: nat, ki: nat, kj: nat)
    requires i < j < |Collect(t, records).order|
    requires FirstOpening(records, ki, Collect(t, records).order[i]) && FirstOpening(records, kj, Collect(t, records).order[j])
    ensures ki < kj
  {
    hide Collect, Opens, NoDuplicates;
    var front, last, order := records[..|records| - 1], records[|records| - 1], Collect(t, records).order;
    assert records == front + [last];
    OrderGrows(t, front, last);
    EveryLegAIsOneSwap(t, front);
    assert order[i] in Collect(t, front).order;
    OpenedEarlier(front, last, order[i], ki);
    if j < |Collect(t, front).order| {
      assert order[j] in Collect(t, front).order;
      OpenedEarlier(front, last, order[j], kj);
      OrderIsFirstSeen(t, front, i, j, ki, kj);
    } else {
      OpenedLast(front, last, order[j], kj);
    }
  }

  lemma OpenedEarlier(front: seq<Record>, last: Record, id: Id, k: nat)
    requires FirstOpening(front + [last], k, id) && Opens(front, id)
    ensures FirstOpening(front, k, id)
  {
    assert forall n: nat :: n < |front| ==> (front + [last])[n] == front[n];
  }

  lemma OpenedLast(front: seq<Record>, last: Record, id: Id, k: nat)
    requires FirstOpening(front + [last], k, id) && !Opens(front, id)
    ensures k == |front|
  {
    assert forall n: nat :: n < |front| ==> (front + [last])[n] == front[n];
  }

  // --- the accepts -----------------------------------------------------------------------------------------------------

  /** This row is a genuine accept of the first offer under the id, and that offer stands in an earlier row. */
  ghost predicate CountsAt(t: Rules, records: seq<Record>, k: nat, id: Id) {
    && k < |records| && AcceptsAt(records[k], id)
    && exists j :: 0 <= j < k && FirstOffer(records, j, id) && Genuine(t, records[j].frame.value.offer, records[k].frame.value.accept)
  }

  predicate AcceptsAt(record: Record, id: Id) {
    Authentic(record) && record.frame.value.AcceptFrame? && record.frame.value.accept.core.ref == id
  }

  predicate Increasing(rows: seq<nat>, limit: nat) {
    && (forall n :: 0 <= n < |rows| ==> rows[n] < limit)
    && (forall m, n :: 0 <= m < n < |rows| ==> rows[m] < rows[n])
  }

  /** These rows, in this order, are the accepts kept. */
  predicate AreAcceptRows(records: seq<Record>, rows: seq<nat>, accepts: seq<PostedAccept>) {
    && Increasing(rows, |records|) && |accepts| == |rows|
    && forall n :: 0 <= n < |rows| ==>
         records[rows[n]].frame == Some(AcceptFrame(accepts[n].accept)) && accepts[n].record == records[rows[n]]
  }

  lemma CountedAcceptIsKnown(t: Rules, front: seq<Record>, last: Record, id: Id)
    requires AcceptsAt(last, id)
    ensures CountsAt(t, front + [last], |front|, id) <==>
              id in Collect(t, front).offers && Genuine(t, Collect(t, front).offers[id], last.frame.value.accept)
  {
    var records := front + [last];
    OffersAreFirstRows(t, front, id);
    assert forall n: nat :: n < |front| ==> front[n] == records[n];
    if CountsAt(t, records, |front|, id) {
      var j: nat :| j < |front| && FirstOffer(records, j, id) && Genuine(t, records[j].frame.value.offer, last.frame.value.accept);
      assert FirstOffer(front, j, id);
    }
    if Offered(front, id) {
      var j := FirstOfferOf(front, id);
      assert FirstOffer(records, j, id);
    }
  }

  lemma {:induction false} FirstOfferOf(records: seq<Record>, id: Id) returns (k: nat)
    requires Offered(records, id)
    ensures FirstOffer(records, k, id)
  {
    var front := records[..|records| - 1];
    assert forall n: nat :: n < |front| ==> front[n] == records[n];
    if Offered(front, id) {
      k := FirstOfferOf(front, id);
    } else {
      k := |front|;
    }
  }

  lemma AcceptsGrowByOne(t: Rules, front: seq<Record>, last: Record, id: Id)
    ensures AcceptsOf(Collect(t, front + [last]), id)
            == AcceptsOf(Collect(t, front), id)
               + if CountsAt(t, front + [last], |front|, id) then [PostedAccept(last, last.frame.value.accept)] else []
  {
    hide Genuine;
    var records := front + [last];
    assert records[..|records| - 1] == front;
    if AcceptsAt(last, id) {
      CountedAcceptIsKnown(t, front, last, id);
    }
  }

  lemma OneMoreAcceptRow(front: seq<Record>, last: Record, rows: seq<nat>, accepts: seq<PostedAccept>)
    requires AreAcceptRows(front, rows, accepts) && last.frame.Some? && last.frame.value.AcceptFrame?
    ensures AreAcceptRows(front + [last], rows + [|front|], accepts + [PostedAccept(last, last.frame.value.accept)])
  {
  }

  lemma SameAcceptRows(front: seq<Record>, last: Record, rows: seq<nat>, accepts: seq<PostedAccept>)
    requires AreAcceptRows(front, rows, accepts)
    ensures AreAcceptRows(front + [last], rows, accepts)
  {
  }

  /** The accepts kept for an offer are exactly the rows that count for it, each with its row, in the order of the export. */
  lemma {:induction false} AcceptsAreRows(t: Rules, records: seq<Record>, id: Id) returns (rows: seq<nat>)
    ensures AreAcceptRows(records, rows, AcceptsOf(Collect(t, records), id))
    ensures forall k: nat :: k in rows <==> CountsAt(t, records, k, id)
  {
    hide AreAcceptRows, Collect;
    if records == [] {
      rows := [];
      NoAcceptRows(t, id);
    } else {
      var front, last := records[..|records| - 1], records[|records| - 1];
      var before := AcceptsAreRows(t, front, id);
      assert records == front + [last];
      AcceptsGrowByOne(t, front, last, id);
      CountsGrow(t, front, last, id);
      if CountsAt(t, records, |front|, id) {
        rows := before + [|front|];
        OneMoreAcceptRow(front, last, before, AcceptsOf(Collect(t, front), id));
      } else {
        rows := before;
        SameAcceptRows(front, last, before, AcceptsOf(Collect(t, front), id));
        assert AcceptsOf(Collect(t, records), id) == AcceptsOf(Collect(t, front), id);
      }
    }
  }

  lemma NoAcceptRows(t: Rules, id: Id)
    ensures AreAcceptRows([], [], AcceptsOf(Collect(t, []), id))
  {
  }

  lemma CountsGrow(t: Rules, front: seq<Record>, last: Record, id: Id)
    ensures forall k: nat :: CountsAt(t, front + [last], k, id) <==>
              CountsAt(t, front, k, id) || (k == |front| && CountsAt(t, front + [last], |front|, id))
  {
    forall k: nat | k < |front| ensures CountsAt(t, front, k, id) <==> CountsAt(t, front + [last], k, id) {
      EarlierRowsCount(t, front, last, k, id);
    }
  }

  lemma EarlierRowsCount(t: Rules, front: seq<Record>, last: Record, k: nat, id: Id)
    requires k < |front|
    ensures CountsAt(t, front, k, id) <==> CountsAt(t, front + [last], k, id)
  {
    var records := front + [last];
    assert forall j: nat :: j < |front| ==> front[j] == records[j];
    assert forall j: nat :: j < k ==> (FirstOffer(front, j, id) <==> FirstOffer(records, j, id));
  }

  // --- the leg B offers ------------------------------------------------------------------------------------------------

  predicate OffersLegB(record: Record) {
    Authentic(record) && record.frame.value.OfferFrame? && record.frame.value.offer.leg.LegOfB?
  }

  predicate AreOfferRows(records: seq<Record>, rows: seq<nat>, offers: seq<PostedOffer>) {
    && Increasing(rows, |records|) && |offers| == |rows|
    && forall n :: 0 <= n < |rows| ==>
         records[rows[n]].frame == Some(OfferFrame(offers[n].offer)) && offers[n].record == records[rows[n]]
  }

  lemma LegBsGrow(t: Rules, front: seq<Record>, last: Record)
    ensures Collect(t, front + [last]).legBs
            == Collect(t, front).legBs + if OffersLegB(last) then [PostedOffer(last, last.frame.value.offer)] else []
  {
    assert (front + [last])[..|front|] == front;
  }

  lemma OneMoreOfferRow(front: seq<Record>, last: Record, rows: seq<nat>, offers: seq<PostedOffer>)
    requires AreOfferRows(front, rows, offers)
    ensures AreOfferRows(front + [last], rows, offers)
    ensures last.frame.Some? && last.frame.value.OfferFrame? ==>
              AreOfferRows(front + [last], rows + [|front|], offers + [PostedOffer(last, last.frame.value.offer)])
  {
  }

  /** The leg B candidates are exactly the rows that offer a leg B, in the order of the export. */
  lemma {:induction false} LegBsAreRows(t: Rules, records: seq<Record>) returns (rows: seq<nat>)
    ensures AreOfferRows(records, rows, Collect(t, records).legBs)
    ensures forall k: nat :: k in rows <==> k < |records| && OffersLegB(records[k])
  {
    hide AreOfferRows;
    rows := [];
    if records == [] {
      NoOfferRows(t);
    } else {
      var front, last := records[..|records| - 1], records[|records| - 1];
      var before := LegBsAreRows(t, front);
      assert records == front + [last];
      LegBsGrow(t, front, last);
      OneMoreOfferRow(front, last, before, Collect(t, front).legBs);
      if OffersLegB(last) {
        rows := before + [|front|];
      } else {
        rows := before;
        assert Collect(t, records).legBs == Collect(t, front).legBs;
      }
    }
  }

  lemma NoOfferRows(t: Rules)
    ensures AreOfferRows([], [], Collect(t, []).legBs)
  {
  }
}
