/** The announcement of a new request: several sources, read in turn, name the providers to tell. */
module Broadcast {
  import opened Tables
  import RequestTags

  type ProviderId = string

  /** One call of the notify closure: a provider, and its distance where the source knows one. */
  datatype Call = Call(id: ProviderId, km: real)

  datatype Garage = Garage(owner: ProviderId, km: Option<real>)
  datatype MechanicRow = MechanicRow(profile: ProviderId, metres: real)

  /** What each source returns; None is an error, or for `preferred` no row. */
  datatype Sources = Sources(
    hubPresent: bool,
    poolPresent: bool,
    garagesPresent: bool,
    preferred: Option<ProviderId>,
    nearbyGarages: Option<seq<Garage>>,
    nearbyMechanics: Option<seq<MechanicRow>>,
    profiles: Option<seq<ProviderId>>,
    mechanicTable: Option<seq<ProviderId>>,
    garageOwners: Option<seq<ProviderId>>)

  // ----- specification -----------------------------------------------------------------------

  function Far(ids: seq<ProviderId>): seq<Call> {
    seq(|ids|, i requires 0 <= i < |ids| => Call(ids[i], 0.0))
  }

  function GarageCalls(rows: seq<Garage>): seq<Call> {
    seq(|rows|, i requires 0 <= i < |rows| => Call(rows[i].owner, if rows[i].km.Some? then rows[i].km.value else 0.0))
  }

  function MechanicCalls(rows: seq<MechanicRow>): seq<Call> {
    seq(|rows|, i requires 0 <= i < |rows| => Call(rows[i].profile, rows[i].metres / 1000.0))
  }

  function Rows<T>(source: Option<seq<T>>): seq<T> {
    if source.Some? then source.value else []
  }

  predicate Targeted(s: Sources) {
    s.poolPresent && s.preferred.Some? && s.preferred.value != ""
  }

  /** The geographic matches: a chosen garage alone, or the nearby ones. */
  function NearCalls(kind: string, s: Sources): seq<Call> {
    if kind == RequestTags.GARAGE then
      if Targeted(s) then [Call(s.preferred.value, 0.0)]
      else if s.garagesPresent then GarageCalls(Rows(s.nearbyGarages))
      else []
    else if kind == RequestTags.MECHANIC then MechanicCalls(Rows(s.nearbyMechanics))
    else []
  }

  function RoleCalls(kind: string, s: Sources): seq<Call> {
    if !s.poolPresent then []
    else Far(Rows(s.profiles)) + (if kind == RequestTags.MECHANIC then Far(Rows(s.mechanicTable)) else [])
  }

  predicate NamesAnyone(calls: seq<Call>) {
    exists i :: 0 <= i < |calls| && calls[i].id != ""
  }

  /** Every source consulted, in order; all garage owners only if nobody has been named before. */
  function Calls(kind: string, s: Sources): seq<Call> {
    var calls := NearCalls(kind, s) + RoleCalls(kind, s);
    if s.poolPresent && kind == RequestTags.GARAGE && !NamesAnyone(calls)
    then calls + Far(Rows(s.garageOwners))
    else calls
  }

  /** The distance of the first call that names a provider. */
  function First(calls: seq<Call>, id: ProviderId): Option<real>
    decreases |calls|
  {
    if calls == [] then None
    else if calls[0].id == id then Some(calls[0].km)
    else First(calls[1..], id)
  }

  /** The events that answer a series of calls: one for every provider named, none for anybody else,
      each with the distance of the first source that named it. */
  ghost predicate Answers(sent: seq<Call>, calls: seq<Call>) {
    && (forall i, j :: 0 <= i < j < |sent| ==> sent[i].id != sent[j].id)
    && (forall i :: 0 <= i < |sent| ==> sent[i].id != "" && First(calls, sent[i].id) == Some(sent[i].km))
    && (forall i :: 0 <= i < |calls| && calls[i].id != "" ==> exists j :: 0 <= j < |sent| && sent[j].id == calls[i].id)
  }

  // ----- the loops ---------------------------------------------------------------------------

  lemma {:induction false} FirstAppend(calls: seq<Call>, c: Call, id: ProviderId)
    ensures First(calls + [c], id) ==
            if First(calls, id).Some? then First(calls, id) else if c.id == id then Some(c.km) else None
    decreases |calls|
  {
    if calls == [] {
      assert (calls + [c])[1..] == [];
    } else {
      assert (calls + [c])[1..] == calls[1..] + [c];
      FirstAppend(calls[1..], c, id);
    }
  }

  lemma {:induction false} FirstIsNamed(calls: seq<Call>, id: ProviderId)
    ensures First(calls, id).Some? <==> exists i :: 0 <= i < |calls| && calls[i].id == id
    decreases |calls|
  {
    if calls != [] {
      FirstIsNamed(calls[1..], id);
      if First(calls[1..], id).Some? {
        var i :| 0 <= i < |calls[1..]| && calls[1..][i].id == id;
        assert calls[i + 1].id == id;
      }
      if i :| 0 < i < |calls| && calls[i].id == id {
        assert calls[1..][i - 1].id == id;
      }
    }
  }

  /** The closure and its map of notified providers; `calls` is the series of calls so far. */
  class Announcer {
    var notified: set<ProviderId>
    var sent: seq<Call>
    ghost var calls: seq<Call>

    ghost predicate Valid()
      reads this
    {
      && Answers(sent, calls)
      && (forall id :: id in notified <==> exists i :: 0 <= i < |sent| && sent[i].id == id)
    }

    constructor ()
      ensures Valid() && calls == []
    {
      notified, sent, calls := {}, [], [];
    }

    method Notify(id: ProviderId, km: real)
      requires Valid()
      modifies this
      ensures Valid() && calls == old(calls) + [Call(id, km)]
    {
      ghost var c := Call(id, km);
      forall other ensures First(calls + [c], other) ==
        if First(calls, other).Some? then First(calls, other) else if id == other then Some(km) else None
      {
        FirstAppend(calls, c, other);
      }
      FirstIsNamed(calls, id);
      calls := calls + [c];
      if id == "" {
        return;
      }
      if id in notified {
        return;
      }
      notified := notified + {id};
      sent := sent + [Call(id, km)];
      assert sent[|sent| - 1].id == id;
      assert forall i :: 0 <= i < |old(sent)| ==> sent[i] == old(sent)[i];
    }

    method NotifyAll(ids: seq<ProviderId>)
      requires Valid()
      modifies this
      ensures Valid() && calls == old(calls) + Far(ids)
    {
      for i := 0 to |ids|
        invariant Valid() && calls == old(calls) + Far(ids)[..i]
      {
        Notify(ids[i], 0.0);
        assert Far(ids)[..i + 1] == Far(ids)[..i] + [Call(ids[i], 0.0)];
      }
      assert Far(ids)[..|ids|] == Far(ids);
    }

    /** The role-wide fallback. */
    method NotifyByRole(kind: string, s: Sources)
      requires Valid() && calls == NearCalls(kind, s)
      modifies this
      ensures Valid() && calls == Calls(kind, s)
    {
      if s.poolPresent {
        if s.profiles.Some? {
          NotifyAll(s.profiles.value);
        }
        if kind == RequestTags.MECHANIC && s.mechanicTable.Some? {
          NotifyAll(s.mechanicTable.value);
        }
        assert calls == NearCalls(kind, s) + RoleCalls(kind, s);
        NobodyNamedIffNobodyNotified(this);
        if kind == RequestTags.GARAGE && |notified| == 0 && s.garageOwners.Some? {
          NotifyAll(s.garageOwners.value);
        }
      }
    }

    method NotifyNearby(kind: string, s: Sources)
      requires Valid()
      modifies this
      ensures Valid() && calls == old(calls) + NearCalls(kind, s)
    {
      if kind == RequestTags.GARAGE {
        var targeted := false;
        if s.poolPresent && s.preferred.Some? && s.preferred.value != "" {
          Notify(s.preferred.value, 0.0);
          targeted := true;
        }
        if !targeted && s.garagesPresent && s.nearbyGarages.Some? {
          var rows := s.nearbyGarages.value;
          ghost var near := GarageCalls(rows);
          for i := 0 to |rows|
            invariant Valid() && calls == old(calls) + near[..i]
          {
            var km := 0.0;
            if rows[i].km.Some? {
              km := rows[i].km.value;
            }
            Notify(rows[i].owner, km);
            assert near[..i + 1] == near[..i] + [near[i]];
          }
        }
      }
      if kind == RequestTags.MECHANIC && s.nearbyMechanics.Some? {
        var rows := s.nearbyMechanics.value;
        ghost var near := MechanicCalls(rows);
        for i := 0 to |rows|
          invariant Valid() && calls == old(calls) + near[..i]
        {
          Notify(rows[i].profile, rows[i].metres / 1000.0);
          assert near[..i + 1] == near[..i] + [near[i]];
        }
      }
    }
  }

  lemma NobodyNamedIffNobodyNotified(a: Announcer)
    requires a.Valid()
    ensures NamesAnyone(a.calls) <==> a.notified != {}
  {
    if a.notified != {} {
      var id :| id in a.notified;
      var i :| 0 <= i < |a.sent| && a.sent[i].id == id;
      FirstIsNamed(a.calls, id);
    }
    if NamesAnyone(a.calls) {
      var i :| 0 <= i < |a.calls| && a.calls[i].id != "";
      var j :| 0 <= j < |a.sent| && a.sent[j].id == a.calls[i].id;
      assert a.sent[j].id in a.notified;
    }
  }

  /** Every provider that a consulted source names gets exactly one event, with the distance of the
      first source that named it; nobody else gets any. Without a hub nothing is sent. */
  method BroadcastNewRequest(kind: string, s: Sources) returns (sent: seq<Call>)
    ensures Answers(sent, if s.hubPresent then Calls(kind, s) else [])
  {
    if !s.hubPresent {
      return [];
    }
    var a := new Announcer();
    a.NotifyNearby(kind, s);
    a.NotifyByRole(kind, s);
    sent := a.sent;
  }

  /** A chosen garage is told alone among garages, unless the role-wide list adds its own members. */
  lemma ChosenGarageFirst(s: Sources)
    requires Targeted(s)
    ensures First(Calls(RequestTags.GARAGE, s), s.preferred.value) == Some(0.0)
    ensures Calls(RequestTags.GARAGE, s) == [Call(s.preferred.value, 0.0)] + Far(Rows(s.profiles))
  {
    var calls := NearCalls(RequestTags.GARAGE, s) + RoleCalls(RequestTags.GARAGE, s);
    assert calls[0] == Call(s.preferred.value, 0.0);
    assert NamesAnyone(calls);
  }

  // ----- who is told, and how far ------------------------------------------------------------

  predicate NamesIn(ids: Option<seq<ProviderId>>, id: ProviderId) {
    ids != None && id in ids.value
  }

  predicate NearGarage(s: Sources, id: ProviderId) {
    s.garagesPresent && s.nearbyGarages != None && exists i :: 0 <= i < |s.nearbyGarages.value| && s.nearbyGarages.value[i].owner == id
  }

  predicate NearMechanic(s: Sources, id: ProviderId) {
    s.nearbyMechanics != None && exists i :: 0 <= i < |s.nearbyMechanics.value| && s.nearbyMechanics.value[i].profile == id
  }

  predicate Chosen(s: Sources, id: ProviderId) {
    s.poolPresent && s.preferred == Some(id) && id != ""
  }

  predicate AnyChosen(s: Sources) {
    s.poolPresent && s.preferred != None && s.preferred.value != ""
  }

  /** Named for a garage booking before the last fallback: the chosen garage, or a nearby one where none is
      chosen, and everyone with the role. */
  predicate GarageNamed(s: Sources, id: ProviderId) {
    Chosen(s, id) || (!AnyChosen(s) && NearGarage(s, id)) || (s.poolPresent && NamesIn(s.profiles, id))
  }

  ghost predicate Told(sent: seq<Call>, id: ProviderId) {
    exists i :: 0 <= i < |sent| && sent[i].id == id
  }

  lemma {:induction false} FirstJoin(a: seq<Call>, b: seq<Call>, id: ProviderId)
    ensures First(a + b, id) == if First(a, id).Some? then First(a, id) else First(b, id)
    decreases |a|
  {
    if a == [] {
      assert a + b == b;
    } else {
      assert (a + b)[1..] == a[1..] + b;
      FirstJoin(a[1..], b, id);
    }
  }

  lemma ToldIffFirst(sent: seq<Call>, calls: seq<Call>, id: ProviderId)
    requires Answers(sent, calls)
    ensures Told(sent, id) <==> id != "" && First(calls, id).Some?
    ensures forall i :: 0 <= i < |sent| && sent[i].id == id ==> First(calls, id) == Some(sent[i].km)
  {
    FirstIsNamed(calls, id);
    if id != "" && First(calls, id).Some? {
      var i :| 0 <= i < |calls| && calls[i].id == id;
      assert calls[i].id != "";
    }
  }

  lemma FarNames(ids: seq<ProviderId>, id: ProviderId)
    ensures First(Far(ids), id) == if id in ids then Some(0.0) else None
  {
    FirstIsNamed(Far(ids), id);
    if id in ids {
      var i :| 0 <= i < |ids| && ids[i] == id;
      assert Far(ids)[i].id == id;
      FarIsFar(Far(ids), id);
    }
  }

  lemma {:induction false} FarIsFar(calls: seq<Call>, id: ProviderId)
    requires forall i :: 0 <= i < |calls| ==> calls[i].km == 0.0
    ensures First(calls, id).Some? ==> First(calls, id) == Some(0.0)
    decreases |calls|
  {
    if calls != [] { FarIsFar(calls[1..], id); }
  }

  lemma {:induction false} FirstAt(calls: seq<Call>, i: nat)
    requires i < |calls| && forall j :: 0 <= j < i ==> calls[j].id != calls[i].id
    ensures First(calls, calls[i].id) == Some(calls[i].km)
    decreases i
  {
    if i > 0 { FirstAt(calls[1..], i - 1); }
  }

  /** The first of the nearby rows that names a provider. */
  predicate FirstMechanic(s: Sources, i: nat, id: ProviderId) {
    && s.nearbyMechanics != None && i < |s.nearbyMechanics.value| && s.nearbyMechanics.value[i].profile == id
    && forall j :: 0 <= j < i ==> s.nearbyMechanics.value[j].profile != id
  }

  predicate FirstGarage(s: Sources, i: nat, id: ProviderId) {
    && s.garagesPresent && s.nearbyGarages != None && i < |s.nearbyGarages.value| && s.nearbyGarages.value[i].owner == id
    && forall j :: 0 <= j < i ==> s.nearbyGarages.value[j].owner != id
  }

  function GarageKm(s: Sources, i: nat): real
    requires s.nearbyGarages != None && i < |s.nearbyGarages.value|
  {
    if s.nearbyGarages.value[i].km != None then s.nearbyGarages.value[i].km.value else 0.0
  }

  lemma NearGarageNames(s: Sources, id: ProviderId)
    requires id != ""
    ensures First(NearCalls("garage_booking", s), id).Some? <==> Chosen(s, id) || (!AnyChosen(s) && NearGarage(s, id))
    ensures AnyChosen(s) && First(NearCalls("garage_booking", s), id).Some? ==> First(NearCalls("garage_booking", s), id) == Some(0.0)
    ensures !AnyChosen(s) ==> forall i: nat :: FirstGarage(s, i, id) ==> First(NearCalls("garage_booking", s), id) == Some(GarageKm(s, i))
  {
    var near := NearCalls("garage_booking", s);
    FirstIsNamed(near, id);
    if !AnyChosen(s) && NearGarage(s, id) {
      var i :| 0 <= i < |s.nearbyGarages.value| && s.nearbyGarages.value[i].owner == id;
      assert near[i].id == id;
    }
    forall i: nat | !AnyChosen(s) && FirstGarage(s, i, id) ensures First(near, id) == Some(GarageKm(s, i)) {
      FirstAt(near, i);
    }
  }

  lemma NearMechanicNames(s: Sources, id: ProviderId)
    ensures First(NearCalls("mechanic_request", s), id).Some? <==> NearMechanic(s, id)
    ensures forall i: nat :: FirstMechanic(s, i, id) ==>
              First(NearCalls("mechanic_request", s), id) == Some(s.nearbyMechanics.value[i].metres / 1000.0)
  {
    var near := NearCalls("mechanic_request", s);
    FirstIsNamed(near, id);
    if NearMechanic(s, id) {
      var i :| 0 <= i < |s.nearbyMechanics.value| && s.nearbyMechanics.value[i].profile == id;
      assert near[i].id == id;
    }
    forall i: nat | FirstMechanic(s, i, id) ensures First(near, id) == Some(s.nearbyMechanics.value[i].metres / 1000.0) {
      FirstAt(near, i);
    }
  }

  lemma RoleNames(kind: string, s: Sources, id: ProviderId)
    ensures First(RoleCalls(kind, s), id) ==
            if s.poolPresent && (NamesIn(s.profiles, id) || (kind == "mechanic_request" && NamesIn(s.mechanicTable, id)))
            then Some(0.0) else None
  {
    if s.poolPresent {
      FarNames(Rows(s.profiles), id);
      FarNames(Rows(s.mechanicTable), id);
      FirstJoin(Far(Rows(s.profiles)), if kind == RequestTags.MECHANIC then Far(Rows(s.mechanicTable)) else [], id);
    }
  }

  lemma NamesAnyoneIff(calls: seq<Call>)
    ensures NamesAnyone(calls) <==> exists id :: id != "" && First(calls, id).Some?
  {
    if NamesAnyone(calls) {
      var i :| 0 <= i < |calls| && calls[i].id != "";
      FirstIsNamed(calls, calls[i].id);
    }
    if id :| id != "" && First(calls, id).Some? {
      FirstIsNamed(calls, id);
    }
  }

  /** A mechanic request is told to exactly the nearby mechanics and everyone with the role or in the table of
      mechanics: each at the distance of its first nearby row, in kilometres, or at none. */
  lemma MechanicRequestTellsIff(s: Sources, sent: seq<Call>, id: ProviderId)
    requires Answers(sent, Calls("mechanic_request", s))
    ensures Told(sent, id) <==>
            id != "" && (NearMechanic(s, id) || (s.poolPresent && (NamesIn(s.profiles, id) || NamesIn(s.mechanicTable, id))))
    ensures forall k, i: nat :: 0 <= k < |sent| && sent[k].id == id && FirstMechanic(s, i, id) ==>
              sent[k].km == s.nearbyMechanics.value[i].metres / 1000.0
    ensures forall k :: 0 <= k < |sent| && sent[k].id == id && !NearMechanic(s, id) ==> sent[k].km == 0.0
  {
    var kind := "mechanic_request";
    ToldIffFirst(sent, Calls(kind, s), id);
    FirstJoin(NearCalls(kind, s), RoleCalls(kind, s), id);
    NearMechanicNames(s, id);
    RoleNames(kind, s, id);
  }

  /** The calls before the last fallback name exactly the chosen garage, or the nearby ones where none is
      chosen, and everyone with the role. */
  lemma GarageCallsName(s: Sources, id: ProviderId)
    requires id != ""
    ensures var calls := NearCalls("garage_booking", s) + RoleCalls("garage_booking", s);
            && (First(calls, id).Some? <==> GarageNamed(s, id))
            && (First(calls, id).Some? && (AnyChosen(s) || !NearGarage(s, id)) ==> First(calls, id) == Some(0.0))
            && (!AnyChosen(s) ==> forall i: nat :: FirstGarage(s, i, id) ==> First(calls, id) == Some(GarageKm(s, i)))
  {
    FirstJoin(NearCalls("garage_booking", s), RoleCalls("garage_booking", s), id);
    NearGarageNames(s, id);
    RoleNames("garage_booking", s, id);
  }

  lemma GarageCallsNameAnyone(s: Sources)
    ensures NamesAnyone(NearCalls("garage_booking", s) + RoleCalls("garage_booking", s)) <==> exists id :: id != "" && GarageNamed(s, id)
  {
    var calls := NearCalls("garage_booking", s) + RoleCalls("garage_booking", s);
    NamesAnyoneIff(calls);
    if id :| id != "" && First(calls, id).Some? {
      GarageCallsName(s, id);
    }
    if id :| id != "" && GarageNamed(s, id) {
      GarageCallsName(s, id);
    }
  }

  /** A garage booking is told to exactly those, and to all garage owners only if that is nobody. Nearby
      garages come with their distance, everybody else with none. */
  lemma GarageBookingTellsIff(s: Sources, sent: seq<Call>, id: ProviderId)
    requires Answers(sent, Calls("garage_booking", s)) && id != ""
    ensures Told(sent, id) <==>
            GarageNamed(s, id) || (s.poolPresent && NamesIn(s.garageOwners, id) && forall other :: other != "" ==> !GarageNamed(s, other))
    ensures !AnyChosen(s) ==>
            forall k, i: nat :: 0 <= k < |sent| && sent[k].id == id && FirstGarage(s, i, id) ==> sent[k].km == GarageKm(s, i)
    ensures forall k :: 0 <= k < |sent| && sent[k].id == id && (AnyChosen(s) || !NearGarage(s, id)) ==> sent[k].km == 0.0
  {
    var calls := NearCalls("garage_booking", s) + RoleCalls("garage_booking", s);
    ToldIffFirst(sent, Calls("garage_booking", s), id);
    GarageCallsName(s, id);
    GarageCallsNameAnyone(s);
    FirstJoin(calls, Far(Rows(s.garageOwners)), id);
    FarNames(Rows(s.garageOwners), id);
    assert Calls("garage_booking", s) == calls || Calls("garage_booking", s) == calls + Far(Rows(s.garageOwners));
  }
}
