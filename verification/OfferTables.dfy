/** The offer repository as it runs: mutable tables, the statements on them, and Accept as one
    transaction over those statements, undone as a whole when one of them fails. */
module OfferTables {
  import opened Tables
  import O = Offers

  class Database {
    var offers: seq<O.Offer>
    var bookings: seq<O.Booking>
    var requests: map<O.RequestId, O.RequestStatus>

    /** The tables as a value. */
    function Store(): O.Store
      reads this
    {
      O.Store(offers, bookings, requests)
    }

    constructor (requests: map<O.RequestId, O.RequestStatus>)
      ensures Store() == O.Opening(requests).store
    {
      this.requests := requests;
      offers, bookings := [], [];
    }

    method CreateOffer(request: O.RequestId, garage: Option<O.GarageId>, mechanic: Option<O.MechanicId>)
      returns (created: Option<O.OfferId>)
      modifies this`offers
      ensures Store() == O.CreateOffer(old(Store()), request, garage, mechanic)
      ensures created == if offers == old(offers) then None else Some(|old(offers)|)
    {
      if request !in requests || garage.None? {
        return None;
      }
      var o := O.Offer(request, garage.value, mechanic, O.Pending);
      if O.OfferCollides(offers, o) {
        return None;
      }
      offers := offers + [o];
      return Some(|offers| - 1);
    }

    method SetOfferStatus(id: O.OfferId, status: O.OfferStatus)
      requires id < |offers|
      modifies this`offers
      ensures offers == old(offers)[id := old(offers)[id].(status := status)]
    {
      offers := offers[id := offers[id].(status := status)];
    }

    /** `... where service_request_id = $1 and id != $2 and status = 'pending'`. */
    method RejectOtherOffers(request: O.RequestId, winner: O.OfferId)
      modifies this`offers
      ensures |offers| == |old(offers)|
      ensures forall i :: 0 <= i < |offers| ==>
                offers[i] == if i in O.Rivals(old(offers), request, winner) then old(offers)[i].(status := O.Rejected)
                             else old(offers)[i]
    {
      var before := offers;
      offers := seq(|before|, i requires 0 <= i < |before| =>
        if before[i].request == request && i != winner && before[i].status == O.Pending
        then before[i].(status := O.Rejected) else before[i]);
    }

    method CreateBooking(b: O.Booking) returns (created: bool)
      modifies this`bookings
      ensures created <==> !O.BookingCollides(old(bookings), b)
      ensures bookings == if created then old(bookings) + [b] else old(bookings)
    {
      created := !O.BookingCollides(bookings, b);
      if created {
        bookings := bookings + [b];
      }
    }

    method UpdateServiceRequestStatus(request: O.RequestId, status: O.RequestStatus)
      modifies this`requests
      ensures requests == if request in old(requests) then old(requests)[request := status] else old(requests)
    {
      if request in requests {
        requests := requests[request := status];
      }
    }

    /** The Accept transaction: it commits all of its writes, or rolls them all back. */
    method Accept(id: O.OfferId) returns (error: Option<O.AcceptError>)
      modifies this
      ensures match O.Accept(old(Store()), id)
              case Ok(after) => Store() == after && error == None
              case Err(e) => Store() == old(Store()) && error == Some(e)
    {
      var saved := Store();
      if id >= |offers| {
        return Some(O.OfferNotFound);
      }
      var offer := offers[id];
      if offer.status != O.Pending {
        return Some(O.NotPending);
      }
      SetOfferStatus(id, O.Accepted);
      RejectOtherOffers(offer.request, id);
      var created := CreateBooking(O.BookingOf(id, offer));
      if !created {
        offers, bookings, requests := saved.offers, saved.bookings, saved.requests;
        return Some(O.BookingExists);
      }
      UpdateServiceRequestStatus(offer.request, O.Taken);
      assert offers == O.Decided(saved.offers, id, O.Rivals(saved.offers, offer.request, id));
      return None;
    }
  }
}
