/** The open-request inbox: two lists merged with the preferred one first, then filtered by role. */
module Inbox {
  import opened Tables
  import opened Text
  import RequestTags

  datatype Role = Mechanic | GarageOwner | CarOwner | Unknown

  datatype Item = Item(id: string, kind: string, description: Option<string>)

  /** What a query came back with; None stands for an error. */
  type Rows = Option<seq<Item>>

  function RoleOf(raw: string): Role {
    var role := Lower(Underscored(Trim(raw)));
    if role in ["garage_owner", "garage-owner", "garageowner", "garage"] then GarageOwner
    else if role in ["mechanic", "mechanics"] then Mechanic
    else if role in ["car_owner", "customer", "owner"] then CarOwner
    else Unknown
  }

  /** The kind an item is filtered by: its own, or what its description says. */
  function KindOf(it: Item): string {
    var kind := Lower(Trim(it.kind));
    if kind != "" then kind
    else if it.description.Some? && RequestTags.Contains(it.description.value, RequestTags.KindTag(RequestTags.GARAGE))
    then RequestTags.GARAGE
    else RequestTags.MECHANIC
  }

  /** The item as returned: a missing kind is filled in. */
  function Labelled(it: Item): Item {
    if Lower(Trim(it.kind)) == "" then it.(kind := KindOf(it)) else it
  }

  predicate Matches(role: Role, it: Item) {
    match role
    case Mechanic => KindOf(it) == RequestTags.MECHANIC
    case GarageOwner => KindOf(it) == RequestTags.GARAGE
    case _ => true
  }

  // ----- specification -----------------------------------------------------------------------

  /** The items of `items` that satisfy `p`, in order. */
  function Filter(items: seq<Item>, p: Item -> bool): seq<Item> {
    if items == [] then []
    else
      var front, last := Filter(items[..|items| - 1], p), items[|items| - 1];
      if p(last) then front + [last] else front
  }

  function Ids(items: seq<Item>): set<string> {
    set i | 0 <= i < |items| :: items[i].id
  }

  predicate Distinct(items: seq<Item>) {
    forall i, j :: 0 <= i < j < |items| ==> items[i].id != items[j].id
  }

  function NotIn(ids: set<string>): Item -> bool {
    (it: Item) => it.id !in ids
  }

  function ForRole(role: Role): Item -> bool {
    (it: Item) => Matches(role, it)
  }

  function LabelAll(items: seq<Item>): seq<Item> {
    seq(|items|, i requires 0 <= i < |items| => Labelled(items[i]))
  }

  function Merged(preferred: seq<Item>, requests: seq<Item>): seq<Item> {
    preferred + Filter(requests, NotIn(Ids(preferred)))
  }

  // ----- the loops ---------------------------------------------------------------------------

  method Merge(preferred: seq<Item>, requests: seq<Item>) returns (merged: seq<Item>)
    ensures merged == Merged(preferred, requests)
  {
    var seen: set<string> := {};
    merged := [];
    for i := 0 to |preferred|
      invariant merged == preferred[..i] && seen == Ids(preferred[..i])
    {
      assert preferred[..i + 1] == preferred[..i] + [preferred[i]];
      IdsAppend(preferred[..i], preferred[i]);
      seen := seen + {preferred[i].id};
      merged := merged + [preferred[i]];
    }
    assert preferred[..|preferred|] == preferred;
    for i := 0 to |requests|
      invariant merged == preferred + Filter(requests[..i], NotIn(seen))
    {
      assert requests[..i + 1][..i] == requests[..i];
      if requests[i].id !in seen {
        merged := merged + [requests[i]];
      }
    }
    assert requests[..|requests|] == requests;
  }

  lemma IdsAppend(items: seq<Item>, it: Item)
    ensures Ids(items + [it]) == Ids(items) + {it.id}
  {
    var all := items + [it];
    forall id ensures id in Ids(all) <==> id in Ids(items) + {it.id} {
      if id in Ids(items) {
        var i :| 0 <= i < |items| && items[i].id == id;
        assert all[i].id == id;
      } else if id == it.id {
        assert all[|items|].id == id;
      }
    }
  }

  lemma LabelAppend(items: seq<Item>, it: Item)
    ensures LabelAll(items + [it]) == LabelAll(items) + [Labelled(it)]
  {}

  /** The first half of the filter loop: the kind an item counts as, and the item with it filled in. */
  method Normalise(it: Item) returns (kind: string, labelled: Item)
    ensures kind == KindOf(it) && labelled == Labelled(it)
  {
    kind, labelled := Lower(Trim(it.kind)), it;
    if kind == "" {
      var tagged := false;
      if it.description.Some? {
        assert RequestTags.KindTag(RequestTags.GARAGE) == "[kind:garage_booking]";
        tagged := RequestTags.HasSubstring(it.description.value, "[kind:garage_booking]");
      }
      kind := if tagged then "garage_booking" else "mechanic_request";
      labelled := it.(kind := kind);
    }
  }

  method FilterForRole(role: Role, requests: seq<Item>) returns (filtered: seq<Item>)
    ensures filtered == LabelAll(Filter(requests, ForRole(role)))
  {
    filtered := [];
    for i := 0 to |requests|
      invariant filtered == LabelAll(Filter(requests[..i], ForRole(role)))
    {
      assert requests[..i + 1][..i] == requests[..i];
      LabelAppend(Filter(requests[..i], ForRole(role)), requests[i]);
      var kind, it := Normalise(requests[i]);
      match role {
        case Mechanic =>
          if kind == "mechanic_request" { filtered := filtered + [it]; }
        case GarageOwner =>
          if kind == "garage_booking" { filtered := filtered + [it]; }
        case _ => filtered := filtered + [it];
      }
    }
    assert requests[..|requests|] == requests;
  }

  /** The list shown to a provider: nearby requests, or all pending ones when there are none, with a
      garage owner's preferred requests in front. */
  method ListOpen(user: Option<(string, string)>, nearby: Rows, pending: Rows, preferred: Rows) returns (shown: seq<Item>)
    ensures var role := if user.Some? then RoleOf(user.value.1) else Unknown;
            var found := if nearby.Some? then nearby.value else [];
            var requests := if found == [] && pending.Some? then pending.value else found;
            shown == if role.CarOwner? then []
                     else if role.GarageOwner? && user.value.0 != "" && preferred.Some?
                     then LabelAll(Filter(Merged(preferred.value, requests), ForRole(role)))
                     else LabelAll(Filter(requests, ForRole(role)))
  {
    var role, userId := Unknown, "";
    if user.Some? {
      role, userId := RoleOf(user.value.1), user.value.0;
      if role.CarOwner? {
        return [];
      }
    }
    var requests := if nearby.Some? then nearby.value else [];
    if |requests| == 0 && pending.Some? {
      requests := pending.value;
    }
    if role.GarageOwner? && userId != "" && preferred.Some? {
      requests := Merge(preferred.value, requests);
    }
    shown := FilterForRole(role, requests);
  }

  // ----- what the list is --------------------------------------------------------------------

  /** The kept positions of a list, in increasing order. */
  function Kept(items: seq<Item>, p: Item -> bool): (ks: seq<nat>)
    ensures forall a :: 0 <= a < |ks| ==> ks[a] < |items| && p(items[ks[a]])
    ensures forall a, b :: 0 <= a < b < |ks| ==> ks[a] < ks[b]
    ensures forall i :: 0 <= i < |items| && p(items[i]) ==> i in ks
  {
    if items == [] then []
    else
      var last := |items| - 1;
      var front := Kept(items[..last], p);
      assert forall i :: 0 <= i < last ==> items[..last][i] == items[i];
      if p(items[last]) then front + [last] else front
  }

  /** Filtering keeps exactly the matching positions, each once and in order. */
  lemma {:induction false} FilterIsKept(items: seq<Item>, p: Item -> bool)
    ensures |Filter(items, p)| == |Kept(items, p)|
    ensures forall a :: 0 <= a < |Kept(items, p)| ==> Filter(items, p)[a] == items[Kept(items, p)[a]]
  {
    if items != [] {
      FilterIsKept(items[..|items| - 1], p);
    }
  }

  lemma {:induction false} FilterJoin(first: seq<Item>, second: seq<Item>, p: Item -> bool)
    ensures Filter(first + second, p) == Filter(first, p) + Filter(second, p)
  {
    if second == [] {
      assert first + second == first;
    } else {
      var front := second[..|second| - 1];
      assert (first + second)[..|first + second| - 1] == first + front;
      FilterJoin(first, front, p);
    }
  }

  lemma FilterMembers(items: seq<Item>, p: Item -> bool, it: Item)
    ensures it in Filter(items, p) <==> it in items && p(it)
  {}

  lemma FilterDistinct(items: seq<Item>, p: Item -> bool)
    requires Distinct(items)
    ensures Distinct(Filter(items, p))
  {
    FilterIsKept(items, p);
  }

  /** A garage owner's list: no id twice when neither source repeats one; exactly the matching members
      of the two sources, a repeated request once, as the preferred source has it; the preferred ones
      in front, and each source in its own order. */
  lemma InboxIsExact(role: Role, preferred: seq<Item>, requests: seq<Item>, it: Item)
    ensures var shown := Filter(Merged(preferred, requests), ForRole(role));
            && (Distinct(preferred) && Distinct(requests) ==> Distinct(shown))
            && (it in shown <==>
                  Matches(role, it) && (it in preferred || (it in requests && it.id !in Ids(preferred))))
            && shown == Filter(preferred, ForRole(role)) + Filter(Filter(requests, NotIn(Ids(preferred))), ForRole(role))
  {
    var unseen := Filter(requests, NotIn(Ids(preferred)));
    FilterJoin(preferred, unseen, ForRole(role));
    FilterMembers(Merged(preferred, requests), ForRole(role), it);
    FilterMembers(requests, NotIn(Ids(preferred)), it);
    if Distinct(preferred) && Distinct(requests) {
      FilterDistinct(requests, NotIn(Ids(preferred)));
      forall k | 0 <= k < |unseen| ensures unseen[k].id !in Ids(preferred) {
        FilterMembers(requests, NotIn(Ids(preferred)), unseen[k]);
      }
      FilterDistinct(Merged(preferred, requests), ForRole(role));
    }
  }

  /** From creation to inbox, for every spelling of the kind and every text: a request listed with the
      kind read off its own row, or with none at all, is shown to exactly one of the two provider roles;
      and it is the role that the spelling asks for exactly if the stored kind is listed and known, or
      the description says what is wanted. */
  lemma RequestReachesItsRoleIff(raw: string, text: string, stored: string, it: Item)
    requires stored == "" || stored == RequestTags.CreatedKind(raw)
    requires it.description == Some(RequestTags.Described(text, RequestTags.CreatedKind(raw)))
    requires it.kind == "" || it.kind == RequestTags.Inferred(stored, it.description)
    ensures Matches(GarageOwner, it) <==> !Matches(Role.Mechanic, it)
    ensures (Matches(GarageOwner, it) <==> RequestTags.IsGarageAlias(raw))
            <==> || (it.kind != "" && stored != "" && RequestTags.IsKnown(raw))
                 || RequestTags.SaysWhatItWants(raw, text)
  {
    RequestTags.CreatedKindRoutesIff(raw, text);
    RequestTags.KindsAreNormal();
  }

  /** The fallback listing passes a stored kind on as it is: there a request reaches some provider role
      exactly if its kind was given as a known alias, or left blank. */
  lemma FallbackReachesSomeoneIff(raw: string, it: Item)
    requires it.kind == RequestTags.CreatedKind(raw)
    ensures Matches(Role.Mechanic, it) || Matches(GarageOwner, it)
            <==> Trim(raw) == "" || RequestTags.IsGarageAlias(raw) || Lower(Trim(raw)) in RequestTags.MECHANIC_ALIASES
  {
    RequestTags.KindsAreNormal();
    assert RequestTags.GARAGE in RequestTags.GARAGE_ALIASES && RequestTags.MECHANIC in RequestTags.MECHANIC_ALIASES;
    assert |Lower(Trim(it.kind))| == |Trim(it.kind)|;
  }

  /** A request for "towing", stored with that kind, is shown from the fallback list to neither role. */
  lemma TowingReachesNobody(text: string)
    ensures var it := Item("1", RequestTags.CreatedKind("towing"), Some(RequestTags.Described(text, "towing")));
            it.kind == "towing" && !Matches(Role.Mechanic, it) && !Matches(GarageOwner, it)
  {
    assert Trim("towing") == "towing" && Lower("towing") == "towing";
    assert !RequestTags.IsGarageAlias("towing") && "towing" !in RequestTags.MECHANIC_ALIASES;
  }

  lemma RoleFrom(raw: string, trimmed: string, low: string)
    requires Trim(raw) == trimmed && |low| == |trimmed|
    requires forall i :: 0 <= i < |low| ==> low[i] == LowerChar(if trimmed[i] == ' ' then '_' else trimmed[i])
    ensures Lower(Underscored(Trim(raw))) == low
  {}

  /** Roles as profiles spell them: in any case, with spaces for underscores. */
  lemma RoleSpelling(raw: string, low: string)
    requires Lower(Underscored(Trim(raw))) == low
    ensures low == "garage_owner" || low == "garage-owner" || low == "garageowner" || low == "garage" <==> RoleOf(raw) == GarageOwner
    ensures low == "mechanic" || low == "mechanics" <==> RoleOf(raw) == Role.Mechanic
    ensures low == "car_owner" || low == "customer" || low == "owner" <==> RoleOf(raw) == CarOwner
  {}

  lemma RolesAre()
    ensures RoleOf("Garage Owner") == GarageOwner && RoleOf(" mechanics ") == Role.Mechanic
    ensures RoleOf("Car Owner") == CarOwner && RoleOf("admin") == Unknown
  {
    RoleFrom("Garage Owner", "Garage Owner", "garage_owner");
    RoleFrom(" mechanics ", "mechanics", "mechanics");
    RoleFrom("Car Owner", "Car Owner", "car_owner");
    RoleFrom("admin", "admin", "admin");
    RoleSpelling("Garage Owner", "garage_owner");
    RoleSpelling(" mechanics ", "mechanics");
    RoleSpelling("Car Owner", "car_owner");
    RoleSpelling("admin", "admin");
  }

  /** Who is shown what: a mechanic the mechanic requests, a garage owner the garage bookings, an unknown role
      everything; an item without a kind counts as what its description says, and is shown with that kind. */
  lemma ShownIff(it: Item)
    ensures var own := Lower(Trim(it.kind));
            var garage := it.description != None && RequestTags.Contains(it.description.value, "[kind:garage_booking]");
            && (Matches(GarageOwner, it) <==> own == "garage_booking" || (own == "" && garage))
            && (Matches(Role.Mechanic, it) <==> own == "mechanic_request" || (own == "" && !garage))
            && Matches(Unknown, it)
            && Labelled(it).id == it.id && Labelled(it).description == it.description
            && Labelled(it).kind == if own != "" then it.kind else if garage then "garage_booking" else "mechanic_request"
  {
    assert RequestTags.KindTag(RequestTags.GARAGE) == "[kind:garage_booking]";
  }
}
