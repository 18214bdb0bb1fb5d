/** Offers, bookings and the Accept transaction, alone and under interleaving. Each transaction keeps
    its writes to itself until it commits; what other transactions have committed it sees afresh in
    every statement, but the offer it read in its first statement may be stale by its last. */
module Offers {
  import opened Tables

  type RequestId = nat
  type GarageId = nat
  type MechanicId = nat
  type OfferId = nat
  type TxId = nat

  datatype OfferStatus = Pending | Accepted | Rejected
  datatype RequestStatus = Open | Taken

  datatype Offer = Offer(request: RequestId, garage: GarageId, mechanic: Option<MechanicId>, status: OfferStatus)
  datatype Booking = Booking(request: RequestId, offer: OfferId, garage: GarageId, mechanic: Option<MechanicId>)

  /** The committed tables. */
  datatype Store = Store(offers: seq<Offer>, bookings: seq<Booking>, requests: map<RequestId, RequestStatus>)

  datatype AcceptError = OfferNotFound | NotPending | BookingExists

  // ----- statements --------------------------------------------------------------------------

  /** `unique (service_request_id, garage_id, mechanic_id)`: rows without a mechanic never collide. */
  predicate OfferCollides(offers: seq<Offer>, o: Offer) {
    && o.mechanic.Some?
    && exists i :: 0 <= i < |offers| && offers[i].request == o.request && offers[i].garage == o.garage
                   && offers[i].mechanic == o.mechanic
  }

  /** CreateOffer; None is a garage id of zeroes, which the not-null column rejects. */
  function CreateOffer(s: Store, request: RequestId, garage: Option<GarageId>, mechanic: Option<MechanicId>): Store {
    if request !in s.requests || garage.None? then s
    else
      var o := Offer(request, garage.value, mechanic, Pending);
      if OfferCollides(s.offers, o) then s else s.(offers := s.offers + [o])
  }

  /** The rows RejectOtherOffers changes. */
  function Rivals(offers: seq<Offer>, request: RequestId, winner: OfferId): set<OfferId> {
    set i | 0 <= i < |offers| && offers[i].request == request && i != winner && offers[i].status.Pending?
  }

  /** `service_request_id ... unique` and `offer_id ... unique` on bookings. */
  predicate BookingCollides(bookings: seq<Booking>, b: Booking) {
    exists i :: 0 <= i < |bookings| && (bookings[i].request == b.request || bookings[i].offer == b.offer)
  }

  function BookingOf(id: OfferId, o: Offer): Booking {
    Booking(o.request, id, o.garage, o.mechanic)
  }

  function Decided(offers: seq<Offer>, winner: OfferId, losers: set<OfferId>): (decided: seq<Offer>)
    ensures |decided| == |offers|
  {
    seq(|offers|, i requires 0 <= i < |offers| =>
      if i == winner then offers[i].(status := Accepted)
      else if i in losers then offers[i].(status := Rejected)
      else offers[i])
  }

  /** Accept with no other transaction around: all of it, or nothing. */
  function Accept(s: Store, id: OfferId): Result<Store, AcceptError> {
    if id >= |s.offers| then Err(OfferNotFound)
    else if !s.offers[id].status.Pending? then Err(NotPending)
    else
      var o := s.offers[id];
      var b := BookingOf(id, o);
      if BookingCollides(s.bookings, b) then Err(BookingExists)
      else
        Ok(Store(Decided(s.offers, id, Rivals(s.offers, o.request, id)), s.bookings + [b],
                 if o.request in s.requests then s.requests[o.request := Taken] else s.requests))
  }

  // ----- transactions under way --------------------------------------------------------------

  datatype Stage = Loaded | OfferSet | RivalsSet | Booked | RequestSet

  /** `seen` is the offer as loaded; `losers` the rivals rejected so far. From Booked on the
      transaction has an uncommitted row in bookings. */
  datatype Tx = Tx(offer: OfferId, seen: Offer, losers: set<OfferId>, stage: Stage)

  datatype Desk = Desk(store: Store, txs: map<TxId, Tx>)

  datatype Step =
    | NewOffer(request: RequestId, garage: Option<GarageId>, mechanic: Option<MechanicId>)
    | Begin(tx: TxId, offer: OfferId)
    | SetOffer(tx: TxId)
    | RejectRivals(tx: TxId)
    | CreateBooking(tx: TxId)
    | SetRequest(tx: TxId)
    | Commit(tx: TxId)
    | Rollback(tx: TxId)

  predicate HasBooking(t: Tx) {
    t.stage.Booked? || t.stage.RequestSet?
  }

  /** A unique index makes an insert wait for an uncommitted row with the same key. */
  predicate Blocked(txs: map<TxId, Tx>, tx: TxId, t: Tx) {
    exists other :: other in txs && other != tx && HasBooking(txs[other])
                    && (txs[other].seen.request == t.seen.request || txs[other].offer == t.offer)
  }

  function At(s: Desk, tx: TxId, t: Tx): Desk {
    s.(txs := s.txs[tx := t])
  }

  function Over(s: Desk, tx: TxId): Desk {
    s.(txs := s.txs - {tx})
  }

  function Published(s: Store, t: Tx): Store {
    Store(Decided(s.offers, t.offer, t.losers), s.bookings + [BookingOf(t.offer, t.seen)],
          if t.seen.request in s.requests then s.requests[t.seen.request := Taken] else s.requests)
  }

  function Advance(s: Desk, tx: TxId, step: Step): Desk
    requires tx in s.txs
  {
    var t := s.txs[tx];
    match (step, t.stage)
    case (SetOffer(_), Loaded) => At(s, tx, t.(stage := OfferSet))
    case (RejectRivals(_), OfferSet) =>
      At(s, tx, t.(stage := RivalsSet, losers := Rivals(s.store.offers, t.seen.request, t.offer)))
    case (CreateBooking(_), RivalsSet) =>
      if Blocked(s.txs, tx, t) then s
      else if BookingCollides(s.store.bookings, BookingOf(t.offer, t.seen)) then Over(s, tx)
      else At(s, tx, t.(stage := Booked))
    case (SetRequest(_), Booked) => At(s, tx, t.(stage := RequestSet))
    case (Commit(_), RequestSet) => Over(s, tx).(store := Published(s.store, t))
    case (Rollback(_), _) => Over(s, tx)
    case _ => s
  }

  function Apply(s: Desk, step: Step): Desk {
    match step
    case NewOffer(request, garage, mechanic) => s.(store := CreateOffer(s.store, request, garage, mechanic))
    case Begin(tx, id) =>
      if tx in s.txs || id >= |s.store.offers| || !s.store.offers[id].status.Pending? then s
      else At(s, tx, Tx(id, s.store.offers[id], {}, Loaded))
    case _ => if step.tx in s.txs then Advance(s, step.tx, step) else s
  }

  function Run(s: Desk, steps: seq<Step>): Desk
    decreases |steps|
  {
    if steps == [] then s else Run(Apply(s, steps[0]), steps[1..])
  }

  // ----- the invariant -----------------------------------------------------------------------

  /** Bookings and accepted offers match one to one, with the same request, garage and mechanic, and
      no request has two. */
  ghost predicate Matched(s: Store) {
    && (forall i, j :: 0 <= i < j < |s.bookings| ==>
          s.bookings[i].request != s.bookings[j].request && s.bookings[i].offer != s.bookings[j].offer)
    && (forall i :: 0 <= i < |s.bookings| ==>
          var b := s.bookings[i];
          && b.offer < |s.offers| && s.offers[b.offer].status == Accepted
          && b.request == s.offers[b.offer].request && b.garage == s.offers[b.offer].garage && b.mechanic == s.offers[b.offer].mechanic)
    && (forall id :: 0 <= id < |s.offers| && s.offers[id].status.Accepted? ==>
          exists i :: 0 <= i < |s.bookings| && s.bookings[i].offer == id)
  }

  /** A loaded offer still has its request, garage and mechanic; an uncommitted booking collides with
      no committed one and no other uncommitted one. */
  ghost predicate TxsSound(s: Desk) {
    && (forall tx :: tx in s.txs ==>
          var t := s.txs[tx];
          && t.offer < |s.store.offers|
          && BookingOf(t.offer, t.seen) == BookingOf(t.offer, s.store.offers[t.offer])
          && (forall id :: id in t.losers ==>
                id < |s.store.offers| && s.store.offers[id].request == t.seen.request && id != t.offer)
          && (HasBooking(t) ==> !BookingCollides(s.store.bookings, BookingOf(t.offer, t.seen))))
    && (forall tx, tx' :: tx in s.txs && tx' in s.txs && tx != tx' && HasBooking(s.txs[tx]) && HasBooking(s.txs[tx']) ==>
          s.txs[tx].seen.request != s.txs[tx'].seen.request && s.txs[tx].offer != s.txs[tx'].offer)
  }

  ghost predicate Sound(s: Desk) {
    Matched(s.store) && TxsSound(s)
  }

  lemma AcceptedElsewhere(s: Store, b: Booking)
    requires Matched(s) && !BookingCollides(s.bookings, b)
    ensures forall id :: 0 <= id < |s.offers| && s.offers[id].status.Accepted? ==> s.offers[id].request != b.request && id != b.offer
  {}

  /** Publishing a booking that collides with none: its request has no accepted offer yet, so neither
      the winner nor any loser was accepted. */
  lemma PublishedMatched(s: Desk, tx: TxId)
    requires Sound(s) && tx in s.txs && HasBooking(s.txs[tx])
    ensures Matched(Published(s.store, s.txs[tx]))
  {
    var t := s.txs[tx];
    AcceptedElsewhere(s.store, BookingOf(t.offer, t.seen));
    PublishedAccepted(s, tx);
  }

  lemma PublishedAccepted(s: Desk, tx: TxId)
    requires Sound(s) && tx in s.txs
    ensures var after := Published(s.store, s.txs[tx]);
            forall id :: 0 <= id < |after.offers| && after.offers[id].status.Accepted? ==>
              exists i :: 0 <= i < |after.bookings| && after.bookings[i].offer == id
  {
    var t := s.txs[tx];
    var after := Published(s.store, t);
    assert after.bookings[|s.store.bookings|] == BookingOf(t.offer, t.seen);
    forall id | 0 <= id < |after.offers| && after.offers[id].status.Accepted?
      ensures exists i :: 0 <= i < |after.bookings| && after.bookings[i].offer == id
    {
      if id != t.offer {
        var i :| 0 <= i < |s.store.bookings| && s.store.bookings[i].offer == id;
        assert after.bookings[i].offer == id;
      }
    }
  }

  lemma CommitSound(s: Desk, tx: TxId)
    requires Sound(s) && tx in s.txs && s.txs[tx].stage.RequestSet?
    ensures Sound(Over(s, tx).(store := Published(s.store, s.txs[tx])))
  {
    PublishedMatched(s, tx);
    var t := s.txs[tx];
    var after := Over(s, tx).(store := Published(s.store, t));
    forall other | other in after.txs && HasBooking(after.txs[other])
      ensures !BookingCollides(after.store.bookings, BookingOf(after.txs[other].offer, after.txs[other].seen))
    {
      assert !BookingCollides(s.store.bookings, BookingOf(s.txs[other].offer, s.txs[other].seen));
    }
  }

  lemma BookSound(s: Desk, tx: TxId)
    requires Sound(s) && tx in s.txs && !Blocked(s.txs, tx, s.txs[tx])
    requires !BookingCollides(s.store.bookings, BookingOf(s.txs[tx].offer, s.txs[tx].seen))
    ensures Sound(At(s, tx, s.txs[tx].(stage := Booked)))
  {}

  lemma NewOfferSound(s: Desk, request: RequestId, garage: Option<GarageId>, mechanic: Option<MechanicId>)
    requires Sound(s)
    ensures Sound(s.(store := CreateOffer(s.store, request, garage, mechanic)))
  {}

  /** A transaction that has not booked may move on, and any transaction may go away. */
  lemma UnbookedSound(s: Desk, tx: TxId, t: Tx)
    requires Sound(s) && !HasBooking(t)
    requires t.offer < |s.store.offers| && BookingOf(t.offer, t.seen) == BookingOf(t.offer, s.store.offers[t.offer])
    requires t.losers <= Rivals(s.store.offers, t.seen.request, t.offer)
    ensures Sound(At(s, tx, t))
  {
    forall other | other in At(s, tx, t).txs && other != tx ensures At(s, tx, t).txs[other] == s.txs[other] {}
  }

  lemma OverSound(s: Desk, tx: TxId)
    requires Sound(s)
    ensures Sound(Over(s, tx))
  {}

  lemma RequestSetSound(s: Desk, tx: TxId)
    requires Sound(s) && tx in s.txs && s.txs[tx].stage.Booked?
    ensures Sound(At(s, tx, s.txs[tx].(stage := RequestSet)))
  {}

  lemma AdvanceSound(s: Desk, tx: TxId, step: Step)
    requires Sound(s) && tx in s.txs
    ensures Sound(Advance(s, tx, step))
  {
    var t := s.txs[tx];
    match (step, t.stage)
    case (SetOffer(_), Loaded) => AdvancedSound(s, tx, t.(stage := OfferSet));
    case (RejectRivals(_), OfferSet) =>
      UnbookedSound(s, tx, t.(stage := RivalsSet, losers := Rivals(s.store.offers, t.seen.request, t.offer)));
    case (CreateBooking(_), RivalsSet) =>
      if !Blocked(s.txs, tx, t) {
        if BookingCollides(s.store.bookings, BookingOf(t.offer, t.seen)) {
          OverSound(s, tx);
        } else {
          BookSound(s, tx);
        }
      }
    case (SetRequest(_), Booked) => RequestSetSound(s, tx);
    case (Commit(_), RequestSet) => CommitSound(s, tx);
    case (Rollback(_), _) => OverSound(s, tx);
    case _ =>
  }

  lemma AdvancedSound(s: Desk, tx: TxId, t: Tx)
    requires Sound(s) && tx in s.txs && !HasBooking(t) && t == s.txs[tx].(stage := t.stage)
    ensures Sound(At(s, tx, t))
  {}

  lemma ApplySound(s: Desk, step: Step)
    requires Sound(s)
    ensures Sound(Apply(s, step))
  {
    match step
    case NewOffer(request, garage, mechanic) => NewOfferSound(s, request, garage, mechanic);
    case Begin(tx, id) =>
      if tx !in s.txs && id < |s.store.offers| { UnbookedSound(s, tx, Tx(id, s.store.offers[id], {}, Loaded)); }
    case _ => if step.tx in s.txs { AdvanceSound(s, step.tx, step); }
  }

  lemma {:induction false} RunSound(s: Desk, steps: seq<Step>)
    requires Sound(s)
    ensures Sound(Run(s, steps))
    decreases |steps|
  {
    if steps != [] {
      ApplySound(s, steps[0]);
      RunSound(Apply(s, steps[0]), steps[1..]);
    }
  }

  function Opening(requests: map<RequestId, RequestStatus>): Desk {
    Desk(Store([], [], requests), map[])
  }

  /** Under any interleaving of Accept transactions and new offers, the committed tables match accepted
      offers and bookings one to one, at most one per request. */
  lemma CommittedIsMatched(requests: map<RequestId, RequestStatus>, steps: seq<Step>)
    ensures Matched(Run(Opening(requests), steps).store)
  {
    RunSound(Opening(requests), steps);
  }

  /** Two accepted offers never share a request. */
  lemma OneWinnerPerRequest(s: Store, id: OfferId, id': OfferId)
    requires Matched(s) && id < |s.offers| && id' < |s.offers|
    requires s.offers[id].status.Accepted? && s.offers[id'].status.Accepted? && s.offers[id].request == s.offers[id'].request
    ensures id == id'
  {
    var i :| 0 <= i < |s.bookings| && s.bookings[i].offer == id;
    var j :| 0 <= j < |s.bookings| && s.bookings[j].offer == id';
    assert i == j;
  }

  // ----- offers ------------------------------------------------------------------------------

  /** A request, a garage and a named mechanic have one offer at most; garages without a mechanic may repeat. */
  predicate OffersDistinct(offers: seq<Offer>) {
    forall i, j :: 0 <= i < j < |offers| && offers[i].mechanic != None ==>
      !(offers[j].request == offers[i].request && offers[j].garage == offers[i].garage && offers[j].mechanic == offers[i].mechanic)
  }

  /** CreateOffer adds one pending offer with what it is given, for a request that exists and a garage that is
      named, unless that garage's mechanic has one for it already. */
  lemma CreateOfferEffect(s: Store, request: RequestId, garage: Option<GarageId>, mechanic: Option<MechanicId>)
    ensures var after := CreateOffer(s, request, garage, mechanic);
            if request in s.requests && garage != None
               && (mechanic == None || forall i :: 0 <= i < |s.offers| ==>
                     !(s.offers[i].request == request && s.offers[i].garage == garage.value && s.offers[i].mechanic == mechanic))
            then after == Store(s.offers + [Offer(request, garage.value, mechanic, Pending)], s.bookings, s.requests)
            else after == s
  {}

  lemma CreateOfferDistinct(s: Store, request: RequestId, garage: Option<GarageId>, mechanic: Option<MechanicId>)
    requires OffersDistinct(s.offers)
    ensures OffersDistinct(CreateOffer(s, request, garage, mechanic).offers)
  {
    CreateOfferEffect(s, request, garage, mechanic);
  }

  lemma ApplyDistinct(s: Desk, step: Step)
    requires OffersDistinct(s.store.offers)
    ensures OffersDistinct(Apply(s, step).store.offers)
  {
    if step.NewOffer? {
      CreateOfferDistinct(s.store, step.request, step.garage, step.mechanic);
    } else if step.Commit? && step.tx in s.txs && s.txs[step.tx].stage.RequestSet? {
      var t := s.txs[step.tx];
      assert forall i :: 0 <= i < |s.store.offers| ==>
        Decided(s.store.offers, t.offer, t.losers)[i] == s.store.offers[i].(status := Decided(s.store.offers, t.offer, t.losers)[i].status);
    } else {
      StoreKept(s, step);
    }
  }

  /** Over every interleaving, offers stay distinct in request, garage and mechanic. */
  lemma {:induction false} RunDistinct(s: Desk, steps: seq<Step>)
    requires OffersDistinct(s.store.offers)
    ensures OffersDistinct(Run(s, steps).store.offers)
    decreases |steps|
  {
    if steps != [] {
      ApplyDistinct(s, steps[0]);
      RunDistinct(Apply(s, steps[0]), steps[1..]);
    }
  }

  /** Accept, table by table: the offer is accepted and its pending rivals rejected, a booking with the
      offer's request, garage and mechanic is added, and the request is taken; it is refused for an offer
      that is missing or not pending, and for a request or an offer that is booked. */
  lemma AcceptEffect(s: Store, id: OfferId)
    ensures var outcome := Accept(s, id);
            && (outcome == Err(OfferNotFound) <==> id >= |s.offers|)
            && (outcome == Err(NotPending) <==> id < |s.offers| && s.offers[id].status != Pending)
            && (outcome == Err(BookingExists) <==>
                  id < |s.offers| && s.offers[id].status == Pending
                  && exists i :: 0 <= i < |s.bookings| && (s.bookings[i].request == s.offers[id].request || s.bookings[i].offer == id))
            && (outcome.Ok? ==>
                  var o, after := s.offers[id], outcome.value;
                  && after.bookings == s.bookings + [Booking(o.request, id, o.garage, o.mechanic)]
                  && after.requests == (if o.request in s.requests then s.requests[o.request := Taken] else s.requests)
                  && |after.offers| == |s.offers|
                  && forall i :: 0 <= i < |s.offers| ==>
                       after.offers[i] == if i == id then s.offers[i].(status := Accepted)
                                          else if s.offers[i].request == o.request && s.offers[i].status == Pending
                                          then s.offers[i].(status := Rejected)
                                          else s.offers[i])
  {}

  // ----- a booked request is closed ----------------------------------------------------------

  predicate IsBooked(s: Store, r: RequestId) {
    exists i :: 0 <= i < |s.bookings| && s.bookings[i].request == r
  }

  /** The offers and bookings of a request are the same, but for offers added since. */
  predicate SameFor(before: Store, after: Store, r: RequestId) {
    && |before.offers| <= |after.offers|
    && (forall id :: 0 <= id < |before.offers| ==> after.offers[id].request == before.offers[id].request)
    && (forall id :: 0 <= id < |before.offers| && before.offers[id].request == r ==> after.offers[id] == before.offers[id])
    && (forall id :: |before.offers| <= id < |after.offers| && after.offers[id].request == r ==> after.offers[id].status.Pending?)
    && before.bookings <= after.bookings
    && (forall i :: |before.bookings| <= i < |after.bookings| ==> after.bookings[i].request != r)
  }

  lemma CommitLeavesBooked(s: Desk, tx: TxId, r: RequestId)
    requires Sound(s) && IsBooked(s.store, r) && tx in s.txs && HasBooking(s.txs[tx])
    ensures IsBooked(Published(s.store, s.txs[tx]), r) && SameFor(s.store, Published(s.store, s.txs[tx]), r)
  {
    var i :| 0 <= i < |s.store.bookings| && s.store.bookings[i].request == r;
    var after := Published(s.store, s.txs[tx]);
    assert s.txs[tx].seen.request != r;
    assert after.bookings[i].request == r;
  }

  lemma NewOfferLeavesBooked(s: Store, request: RequestId, garage: Option<GarageId>, mechanic: Option<MechanicId>, r: RequestId)
    ensures SameFor(s, CreateOffer(s, request, garage, mechanic), r)
  {}

  /** Until it commits, a transaction keeps its writes to itself. */
  lemma StoreKept(s: Desk, step: Step)
    requires !step.NewOffer? && !(step.Commit? && step.tx in s.txs && s.txs[step.tx].stage.RequestSet?)
    ensures Apply(s, step).store == s.store
  {}

  lemma ApplyLeavesBooked(s: Desk, step: Step, r: RequestId)
    requires Sound(s) && IsBooked(s.store, r)
    ensures IsBooked(Apply(s, step).store, r) && SameFor(s.store, Apply(s, step).store, r)
  {
    if step.NewOffer? {
      NewOfferLeavesBooked(s.store, step.request, step.garage, step.mechanic, r);
    } else if step.Commit? && step.tx in s.txs && s.txs[step.tx].stage.RequestSet? {
      CommitLeavesBooked(s, step.tx, r);
    } else {
      StoreKept(s, step);
    }
  }

  lemma SameForTransitive(a: Store, b: Store, c: Store, r: RequestId)
    requires SameFor(a, b, r) && SameFor(b, c, r)
    ensures SameFor(a, c, r)
  {}

  /** Once a request has a booking, no later Accept on it succeeds: over any further run, stale reads
      and transactions already under way included, its bookings and the offers it had are unchanged and
      offers added later stay pending. */
  lemma {:induction false} BookedIsClosed(s: Desk, steps: seq<Step>, r: RequestId)
    requires Sound(s) && IsBooked(s.store, r)
    ensures SameFor(s.store, Run(s, steps).store, r)
    decreases |steps|
  {
    if steps != [] {
      var next := Apply(s, steps[0]);
      ApplySound(s, steps[0]);
      ApplyLeavesBooked(s, steps[0], r);
      BookedIsClosed(next, steps[1..], r);
      SameForTransitive(s.store, next.store, Run(s, steps).store, r);
    }
  }

  // ----- the transaction on its own ----------------------------------------------------------

  function StepsOf(tx: TxId, id: OfferId): seq<Step> {
    [Begin(tx, id), SetOffer(tx), RejectRivals(tx), CreateBooking(tx), SetRequest(tx), Commit(tx)]
  }

  lemma RunTwo(s: Desk, a: Step, b: Step, rest: seq<Step>)
    ensures Run(s, [a, b] + rest) == Run(Apply(Apply(s, a), b), rest)
  {}

  lemma RunSix(s: Desk, a: Step, b: Step, c: Step, d: Step, e: Step, f: Step)
    ensures Run(s, [a, b, c, d, e, f]) == Apply(Apply(Apply(Apply(Apply(Apply(s, a), b), c), d), e), f)
  {
    assert [a, b, c, d, e, f] == [a, b] + [c, d, e, f];
    assert [c, d, e, f] == [c, d] + [e, f];
    assert [e, f] == [e, f] + [];
    RunTwo(s, a, b, [c, d, e, f]);
    RunTwo(Apply(Apply(s, a), b), c, d, [e, f]);
    RunTwo(Apply(Apply(Apply(Apply(s, a), b), c), d), e, f, []);
  }

  /** A transaction up to its insert into bookings, with no other open. */
  lemma FirstThree(s: Store, tx: TxId, id: OfferId)
    requires id < |s.offers| && s.offers[id].status.Pending?
    ensures Apply(Apply(Apply(Desk(s, map[]), Begin(tx, id)), SetOffer(tx)), RejectRivals(tx)) ==
            Desk(s, map[tx := Tx(id, s.offers[id], Rivals(s.offers, s.offers[id].request, id), RivalsSet)])
  {}

  /** A transaction whose six statements run with no other transaction open is Accept. */
  lemma AcceptIsItsStatements(s: Store, tx: TxId, id: OfferId)
    ensures var end := Run(Desk(s, map[]), StepsOf(tx, id));
            && end.txs == map[]
            && end.store == (match Accept(s, id) case Ok(after) => after case Err(_) => s)
  {
    var start := Desk(s, map[]);
    RunSix(start, Begin(tx, id), SetOffer(tx), RejectRivals(tx), CreateBooking(tx), SetRequest(tx), Commit(tx));
    if id < |s.offers| && s.offers[id].status.Pending? {
      FirstThree(s, tx, id);
      var o := s.offers[id];
      var t := Tx(id, o, Rivals(s.offers, o.request, id), RivalsSet);
      var rivalsSet := Desk(s, map[tx := t]);
      if BookingCollides(s.bookings, BookingOf(id, o)) {
        assert Apply(rivalsSet, CreateBooking(tx)) == start;
      } else {
        var booked := Desk(s, map[tx := t.(stage := Booked)]);
        var requestSet := Desk(s, map[tx := t.(stage := RequestSet)]);
        assert Apply(rivalsSet, CreateBooking(tx)) == booked;
        assert Apply(booked, SetRequest(tx)) == requestSet;
        assert Apply(requestSet, Commit(tx)) == Desk(Published(s, requestSet.txs[tx]), map[]);
      }
    }
  }

  lemma AcceptMatched(s: Store, id: OfferId)
    requires Matched(s) && Accept(s, id).Ok?
    ensures Matched(Accept(s, id).value)
  {
    AcceptIsItsStatements(s, 0, id);
    RunSound(Desk(s, map[]), StepsOf(0, id));
  }

  /** A successful Accept decides its request: the chosen offer is the only accepted one, none is left
      pending, and offers for other requests are untouched. */
  lemma AcceptDecidesItsRequest(s: Store, id: OfferId, other: OfferId)
    requires Matched(s) && other < |s.offers| && Accept(s, id).Ok?
    ensures var before, after := s.offers[other], Accept(s, id).value.offers[other];
            if before.request == s.offers[id].request
            then !after.status.Pending? && (after.status.Accepted? <==> other == id)
            else after == before
  {
    var after := Accept(s, id).value;
    AcceptMatched(s, id);
    if other != id && after.offers[other].status.Accepted? && s.offers[other].request == s.offers[id].request {
      OneWinnerPerRequest(after, other, id);
    }
  }

  /** In matched tables an Accept on a pending offer succeeds exactly if its request is not booked. */
  lemma AcceptSucceedsIffUnbooked(s: Store, id: OfferId)
    requires Matched(s) && id < |s.offers| && s.offers[id].status.Pending?
    ensures Accept(s, id).Ok? <==> !IsBooked(s, s.offers[id].request)
  {
    if BookingCollides(s.bookings, BookingOf(id, s.offers[id])) {
      var i :| 0 <= i < |s.bookings|
               && (s.bookings[i].request == s.offers[id].request || s.bookings[i].offer == id);
      assert s.bookings[i] == BookingOf(s.bookings[i].offer, s.offers[s.bookings[i].offer]);
    }
  }
}
