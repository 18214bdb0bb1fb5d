/** The `[kind:...]` and `[bill:...]` tags that travel in a request's description and route it. */
module RequestTags {
  import opened Tables
  import opened Text

  const KIND_MARK := "[kind:"
  const BILL_MARK := "[bill:"
  const GARAGE := "garage_booking"
  const MECHANIC := "mechanic_request"

  predicate Occurs(s: string, sub: string, i: nat) {
    i + |sub| <= |s| && s[i..i + |sub|] == sub
  }

  predicate Contains(s: string, sub: string) {
    exists i :: 0 <= i <= |s| && Occurs(s, sub, i)
  }

  lemma OccursStarts(s: string, sub: string, i: nat, k: nat)
    requires Occurs(s, sub, i) && k < |sub|
    ensures s[i + k] == sub[k]
  {}

  /** The first position at which `sub` starts in `s`, or -1. */
  method IndexOf(s: string, sub: string) returns (at: int)
    ensures at == -1 ==> !Contains(s, sub)
    ensures at != -1 ==> 0 <= at && Occurs(s, sub, at) && forall i :: 0 <= i < at ==> !Occurs(s, sub, i)
  {
    var i := 0;
    while i + |sub| <= |s|
      invariant 0 <= i
      invariant forall j :: 0 <= j < i ==> !Occurs(s, sub, j)
    {
      if s[i..i + |sub|] == sub {
        return i;
      }
      i := i + 1;
    }
    return -1;
  }

  method HasSubstring(s: string, sub: string) returns (found: bool)
    ensures found <==> Contains(s, sub)
  {
    var at := IndexOf(s, sub);
    assert sub == "" ==> Occurs(s, sub, 0);
    assert s == sub ==> Occurs(s, sub, 0);
    assert at >= 0 ==> at <= |s| && |sub| <= |s|;
    found := |s| >= |sub| && (s == sub || |sub| == 0 || (|s| > 0 && at >= 0));
  }

  // ----- kinds -------------------------------------------------------------------------------

  function KindTag(kind: string): string {
    KIND_MARK + kind + "]"
  }

  predicate NoBrackets(s: string) {
    forall i :: 0 <= i < |s| ==> s[i] != '[' && s[i] != ']'
  }

  const GARAGE_ALIASES := ["booking", "garage", "garage_booking", "garage-booking"]
  const MECHANIC_ALIASES := ["mechanic", "roadside", "mechanic_request", "mechanic-request", "on_road"]

  predicate IsGarageAlias(raw: string) {
    Lower(Trim(raw)) in GARAGE_ALIASES
  }

  /** The kind a request is created with: an alias is replaced, an unknown kind is kept as it came. */
  function CreatedKind(raw: string): string {
    if raw == "" then MECHANIC
    else if IsGarageAlias(raw) then GARAGE
    else if Lower(Trim(raw)) in MECHANIC_ALIASES then MECHANIC
    else raw
  }

  /** The description a request is stored with. */
  function Described(text: string, kind: string): string {
    if text == "" then KindTag(kind)
    else if !Contains(text, KIND_MARK) then KindTag(kind) + "\n" + text
    else text
  }

  /** inferRequestKind: a known stored kind, or what the description says, or the roadside default. */
  function Inferred(stored: string, description: Option<string>): string {
    if stored == GARAGE || stored == MECHANIC then stored
    else if description.Some? && Contains(description.value, KindTag(GARAGE)) then GARAGE
    else if description.Some? && Contains(description.value, KindTag(MECHANIC)) then MECHANIC
    else MECHANIC
  }

  lemma KindsArePlain()
    ensures NoBrackets(GARAGE) && NoBrackets(MECHANIC)
  {}

  /** The two kinds are already in lower case and trimmed. */
  lemma KindsAreNormal()
    ensures Lower(Trim(GARAGE)) == GARAGE && Lower(Trim(MECHANIC)) == MECHANIC
  {}

  lemma TagBrackets(kind: string, k: nat)
    requires NoBrackets(kind) && k < |KindTag(kind)|
    ensures KindTag(kind)[k] == '[' <==> k == 0
    ensures KindTag(kind)[k] == ']' <==> k == |KindTag(kind)| - 1
  {}

  /** Two tags that start together are the same: each ends at its first closing bracket. */
  lemma SameStartSameTag(kind: string, rest: string, other: string)
    requires NoBrackets(kind) && NoBrackets(other) && Occurs(KindTag(kind) + rest, KindTag(other), 0)
    ensures kind == other
  {
    var s := KindTag(kind) + rest;
    var m, n := |KindTag(kind)| - 1, |KindTag(other)| - 1;
    assert forall k :: 0 <= k <= n ==> s[k] == s[..n + 1][k] == KindTag(other)[k];
    TagBrackets(kind, m);
    TagBrackets(other, n);
    if m < n {
      TagBrackets(other, m);
      assert false;
    }
    if n < m {
      TagBrackets(kind, n);
      assert false;
    }
    assert kind == s[|KIND_MARK|..m] == other;
  }

  /** A tag followed by anything contains another tag only in what follows. */
  lemma TagOccurrence(kind: string, rest: string, other: string, i: nat)
    requires NoBrackets(kind) && NoBrackets(other)
    requires Occurs(KindTag(kind) + rest, KindTag(other), i)
    ensures (i == 0 && kind == other)
            || (i >= |KindTag(kind)| && Occurs(rest, KindTag(other), i - |KindTag(kind)|))
  {
    var s, n := KindTag(kind) + rest, |KindTag(kind)|;
    if i == 0 {
      SameStartSameTag(kind, rest, other);
    } else if i >= n {
      assert rest[i - n..i - n + |KindTag(other)|] == s[i..i + |KindTag(other)|];
    } else {
      OccursStarts(s, KindTag(other), i, 0);
      TagBrackets(kind, i);
    }
  }

  lemma TagLeads(kind: string, rest: string)
    ensures Contains(KindTag(kind) + rest, KindTag(kind))
  {
    assert Occurs(KindTag(kind) + rest, KindTag(kind), 0);
  }

  lemma TagHasMark(s: string, kind: string)
    requires Contains(s, KindTag(kind))
    ensures Contains(s, KIND_MARK)
  {
    var i :| 0 <= i <= |s| && Occurs(s, KindTag(kind), i);
    assert s[i..i + |KIND_MARK|] == s[i..i + |KindTag(kind)|][..|KIND_MARK|];
    assert Occurs(s, KIND_MARK, i);
  }

  predicate NoNewline(s: string) {
    forall i :: 0 <= i < |s| ==> s[i] != '\n'
  }

  /** A piece without a newline that occurs in two parts joined by a newline occurs in one of them. */
  lemma OccursInAPart(left: string, right: string, piece: string, i: nat)
    requires NoNewline(piece) && piece != "" && Occurs(left + "\n" + right, piece, i)
    ensures Occurs(left, piece, i) || (i > |left| && Occurs(right, piece, i - |left| - 1))
  {
    var s := left + "\n" + right;
    if i <= |left| < i + |piece| {
      OccursStarts(s, piece, i, |left| - i);
    } else if i > |left| {
      assert right[i - |left| - 1..i - |left| - 1 + |piece|] == s[i..i + |piece|];
    } else {
      assert left[i..i + |piece|] == s[i..i + |piece|];
    }
  }

  lemma OccursInTheWhole(left: string, right: string, piece: string, i: nat)
    ensures Occurs(left, piece, i) ==> Occurs(left + right, piece, i)
    ensures Occurs(right, piece, i) ==> Occurs(left + right, piece, |left| + i)
  {
    if Occurs(left, piece, i) { assert (left + right)[i..i + |piece|] == left[i..i + |piece|]; }
    if Occurs(right, piece, i) { assert (left + right)[|left| + i..|left| + i + |piece|] == right[i..i + |piece|]; }
  }

  /** What is contained in two parts joined by a newline. */
  lemma ContainsInAPart(left: string, right: string, piece: string)
    requires NoNewline(piece) && piece != ""
    ensures Contains(left + "\n" + right, piece) <==> Contains(left, piece) || Contains(right, piece)
  {
    var s := left + "\n" + right;
    if i: nat :| i <= |s| && Occurs(s, piece, i) {
      OccursInAPart(left, right, piece, i);
    }
    if i: nat :| i <= |left| && Occurs(left, piece, i) {
      OccursInTheWhole(left + "\n", right, piece, i);
      OccursInTheWhole(left, "\n", piece, i);
      assert Occurs(s, piece, i);
    }
    if i: nat :| i <= |right| && Occurs(right, piece, i) {
      OccursInTheWhole(left + "\n", right, piece, i);
      assert Occurs(s, piece, |left| + 1 + i);
    }
  }

  lemma KindTagsHaveNoNewline()
    ensures NoNewline(KindTag(GARAGE)) && NoNewline(KindTag(MECHANIC))
  {
    assert forall i :: 0 <= i < |GARAGE| ==> GARAGE[i] != '\n';
    assert forall i :: 0 <= i < |MECHANIC| ==> MECHANIC[i] != '\n';
  }

  /** For every text and every kind, however spelt: the tags that a stored description carries are those
      of a text that brings a kind mark of its own, and otherwise those of the kind's own tag. */
  lemma DescribedNamesItsKind(text: string, kind: string, other: string)
    requires other == GARAGE || other == MECHANIC
    ensures Contains(Described(text, kind), KindTag(other)) <==>
            Contains(if Contains(text, KIND_MARK) then text else KindTag(kind), KindTag(other))
  {
    KindTagsHaveNoNewline();
    if !Contains(text, KIND_MARK) && text != "" {
      ContainsInAPart(KindTag(kind), text, KindTag(other));
      if Contains(text, KindTag(other)) { TagHasMark(text, other); }
    }
  }

  /** The tag of a kind without brackets contains no other tag. */
  lemma PlainTagNamesItself(kind: string, other: string)
    requires NoBrackets(kind) && NoBrackets(other)
    ensures Contains(KindTag(kind), KindTag(other)) <==> kind == other
  {
    TagLeads(kind, "");
    assert KindTag(kind) + "" == KindTag(kind);
    if i: nat :| i <= |KindTag(kind)| && Occurs(KindTag(kind), KindTag(other), i) {
      TagOccurrence(kind, "", other, i);
    }
  }

  /** With nothing stored, the kind read off the description is the kind the request was created with,
      for every text without a kind mark; for a text that brings its own mark, exactly if that text
      names the garage kind just when the request is a garage booking. */
  lemma KindSurvivesIff(text: string, kind: string)
    requires kind == GARAGE || kind == MECHANIC
    ensures Inferred("", Some(Described(text, kind))) == kind
            <==> !Contains(text, KIND_MARK) || (kind == GARAGE <==> Contains(text, KindTag(GARAGE)))
  {
    KindsArePlain();
    DescribedNamesItsKind(text, kind, GARAGE);
    PlainTagNamesItself(kind, GARAGE);
  }

  /** What a request should read back as: a garage booking for the aliases of one, a mechanic request for
      every other spelling. */
  function Wanted(raw: string): string {
    if IsGarageAlias(raw) then GARAGE else MECHANIC
  }

  predicate IsKnown(raw: string) {
    raw == "" || IsGarageAlias(raw) || Lower(Trim(raw)) in MECHANIC_ALIASES
  }

  /** The check on what the client sends: a text with a kind mark of its own says the same as the kind,
      and an unknown kind does not smuggle in the garage tag. */
  predicate SaysWhatItWants(raw: string, text: string) {
    if Contains(text, KIND_MARK) then IsGarageAlias(raw) <==> Contains(text, KindTag(GARAGE))
    else IsKnown(raw) || !Contains(KindTag(raw), KindTag(GARAGE))
  }

  /** For every spelling of the kind and every text: a kind that is stored reads back as wanted if it is
      known; read off the description it does exactly if the check holds. */
  lemma CreatedKindRoutesIff(raw: string, text: string)
    ensures var kind := CreatedKind(raw);
            && (Inferred("", Some(Described(text, kind))) == Wanted(raw) <==> SaysWhatItWants(raw, text))
            && Inferred(kind, Some(Described(text, kind))) ==
               (if IsKnown(raw) then Wanted(raw) else Inferred("", Some(Described(text, kind))))
  {
    var kind := CreatedKind(raw);
    KindsArePlain();
    KindsAreNormal();
    assert GARAGE in GARAGE_ALIASES && MECHANIC !in GARAGE_ALIASES && MECHANIC in MECHANIC_ALIASES;
    DescribedNamesItsKind(text, kind, GARAGE);
    if IsKnown(raw) { PlainTagNamesItself(kind, GARAGE); }
  }

  lemma Spelled(raw: string, trimmed: string, low: string)
    requires Trim(raw) == trimmed && |trimmed| == |low| && forall i :: 0 <= i < |low| ==> LowerChar(trimmed[i]) == low[i]
    ensures Lower(Trim(raw)) == low
  {}

  /** A known spelling, in any case and with spaces around it, becomes its kind. */
  lemma GarageSpelling(raw: string, low: string)
    requires raw != "" && Lower(Trim(raw)) == low
    requires low == "booking" || low == "garage" || low == "garage_booking" || low == "garage-booking"
    ensures CreatedKind(raw) == "garage_booking"
  {}

  lemma MechanicSpelling(raw: string, low: string)
    requires raw != "" && Lower(Trim(raw)) == low
    requires low == "mechanic" || low == "roadside" || low == "mechanic_request" || low == "mechanic-request" || low == "on_road"
    ensures CreatedKind(raw) == "mechanic_request"
  {}

  lemma SpellingsAre()
    ensures CreatedKind(" Garage ") == "garage_booking" && CreatedKind("garage-booking") == "garage_booking"
    ensures CreatedKind("Roadside") == "mechanic_request" && CreatedKind("") == "mechanic_request"
  {
    Spelled(" Garage ", "Garage", "garage");
    Spelled("garage-booking", "garage-booking", "garage-booking");
    Spelled("Roadside", "Roadside", "roadside");
    GarageSpelling(" Garage ", "garage");
    GarageSpelling("garage-booking", "garage-booking");
    MechanicSpelling("Roadside", "roadside");
  }

  /** What is stored for a text, and what is read from a row without a description or a known kind. */
  lemma DescriptionsAre(text: string)
    ensures Described("", "garage_booking") == "[kind:garage_booking]"
    ensures text != "" && !Contains(text, "[kind:") ==> Described(text, "mechanic_request") == "[kind:mechanic_request]\n" + text
    ensures Contains(text, "[kind:") ==> Described(text, "garage_booking") == text
    ensures Inferred("", None) == "mechanic_request" && Inferred("towing", None) == "mechanic_request"
    ensures Inferred("garage_booking", None) == "garage_booking" && Inferred("mechanic_request", Some("[kind:garage_booking]")) == "mechanic_request"
  {
    assert Contains("", "[kind:") ==> false;
  }

  // ----- bills -------------------------------------------------------------------------------

  /** The bill tag; `amount` is the formatted amount. */
  function BillTag(amount: string, currency: string): string {
    BILL_MARK + amount + " " + currency + "]"
  }

  /** The position of the first `]` from `from` on. */
  function Closing(s: string, from: nat): (at: Option<nat>)
    requires from <= |s|
    ensures at.Some? ==> from <= at.value < |s| && s[at.value] == ']' && forall k :: from <= k < at.value ==> s[k] != ']'
    ensures at.None? ==> forall k :: from <= k < |s| ==> s[k] != ']'
    decreases |s| - from
  {
    if from == |s| then None else if s[from] == ']' then Some(from) else Closing(s, from + 1)
  }

  /** A match of `\[bill:[^\]]+\]` that starts at `i`: the position just past its end. */
  function MatchAt(s: string, i: nat): (end: Option<nat>)
    ensures end.Some? ==> i < end.value <= |s|
  {
    if !Occurs(s, BILL_MARK, i) then None
    else
      match Closing(s, i + |BILL_MARK|)
      case None => None
      case Some(at) => if at == i + |BILL_MARK| then None else Some(at + 1)
  }

  /** regexp_replace without the global flag: the leftmost match, if any, becomes the tag. */
  function ReplaceFrom(s: string, i: nat, tag: string): string
    requires i <= |s|
    decreases |s| - i
  {
    match MatchAt(s, i)
    case Some(end) => s[..i] + tag + s[end..]
    case None => if i == |s| then s else ReplaceFrom(s, i + 1, tag)
  }

  /** What SetBill does to the description. */
  function Billed(description: string, amount: string, currency: string): string {
    var tag := BillTag(amount, currency);
    if description == "" then tag
    else if Contains(description, BILL_MARK) then ReplaceFrom(description, 0, tag)
    else description + "\n" + tag
  }

  datatype Bill = Bill(amount: string, currency: string)

  function AllBilled(description: string, bills: seq<Bill>): string
    decreases |bills|
  {
    if bills == [] then description
    else AllBilled(Billed(description, bills[0].amount, bills[0].currency), bills[1..])
  }

  // ----- exactly what is left of a series of bills -------------------------------------------

  predicate Lacks(s: string, c: char) {
    forall i :: 0 <= i < |s| ==> s[i] != c
  }

  /** A formatted amount has no brackets. */
  predicate Formatted(b: Bill) {
    NoBrackets(b.amount)
  }

  function TagOf(b: Bill): string {
    BillTag(b.amount, b.currency)
  }

  lemma TagCloses(b: Bill)
    requires Formatted(b)
    ensures var at := Closing(TagOf(b), |BILL_MARK|); at.Some? && at.value > |BILL_MARK|
    ensures Closing(TagOf(b), |BILL_MARK|).value == |TagOf(b)| - 1 <==> Lacks(b.currency, ']')
  {
    var tag, m, n := TagOf(b), |BILL_MARK|, |b.amount|;
    assert tag[|tag| - 1] == ']' && tag[m + n] == ' ';
    assert forall k :: m <= k < m + n ==> tag[k] == b.amount[k - m];
    assert forall k :: 0 <= k < |b.currency| ==> tag[m + n + 1 + k] == b.currency[k];
  }

  /** What the pattern leaves standing of a tag: everything after its first closing bracket. */
  function Residue(b: Bill): string
    requires Formatted(b)
  {
    TagCloses(b);
    TagOf(b)[Closing(TagOf(b), |BILL_MARK|).value + 1..]
  }

  lemma ResidueIsEmptyIff(b: Bill)
    requires Formatted(b)
    ensures Residue(b) == "" <==> Lacks(b.currency, ']')
  {
    TagCloses(b);
  }

  /** A description with a bill at its end, and leftovers of earlier ones behind it. */
  function WithBill(base: string, b: Bill, rest: string): string {
    base + "\n" + TagOf(b) + rest
  }

  lemma MarkHasNoNewline()
    ensures NoNewline(BILL_MARK)
  {}

  lemma InTheMiddle(left: string, middle: string, right: string, k: nat)
    requires k < |middle|
    ensures (left + middle + right)[|left| + k] == middle[k]
  {}

  /** The first closing bracket of a middle part stays the first from there on. */
  lemma ClosingInside(left: string, middle: string, right: string, from: nat)
    requires from <= |middle| && Closing(middle, from).Some?
    ensures Closing(left + middle + right, |left| + from) == Some(|left| + Closing(middle, from).value)
  {
    var s, at := left + middle + right, Closing(middle, from).value;
    forall k | from <= k <= at ensures s[|left| + k] == middle[k] { InTheMiddle(left, middle, right, k); }
    assert s[|left| + at] == ']';
    assert forall k :: |left| + from <= k < |left| + at ==> s[k] == middle[k - |left|];
  }

  lemma MarkInside(left: string, b: Bill, right: string)
    ensures Occurs(left + TagOf(b) + right, BILL_MARK, |left|)
  {
    var s, mark := left + TagOf(b) + right, BILL_MARK;
    assert TagOf(b)[..|mark|] == mark;
    forall k | 0 <= k < |mark| ensures s[|left| + k] == mark[k] { InTheMiddle(left, TagOf(b), right, k); }
  }

  lemma MatchAtTheBill(base: string, b: Bill, rest: string)
    requires Formatted(b)
    ensures MatchAt(WithBill(base, b, rest), |base| + 1) == Some(|base| + 1 + |TagOf(b)| - |Residue(b)|)
  {
    TagCloses(b);
    MarkInside(base + "\n", b, rest);
    ClosingInside(base + "\n", TagOf(b), rest, |BILL_MARK|);
  }

  lemma ReplacedAtTheBill(base: string, b: Bill, rest: string, tag: string, i: nat)
    requires !Contains(base, BILL_MARK) && Formatted(b) && i <= |base| + 1
    ensures ReplaceFrom(WithBill(base, b, rest), i, tag) == base + "\n" + tag + Residue(b) + rest
    decreases |base| + 1 - i
  {
    var s, start := WithBill(base, b, rest), |base| + 1;
    if i == start {
      MatchAtTheBill(base, b, rest);
      TagCloses(b);
      assert s[..start] == base + "\n";
      assert s[start + |TagOf(b)| - |Residue(b)|..] == Residue(b) + rest;
    } else {
      if Occurs(s, BILL_MARK, i) {
        MarkHasNoNewline();
        assert s == base + "\n" + (TagOf(b) + rest);
        OccursInAPart(base, TagOf(b) + rest, BILL_MARK, i);
      }
      ReplacedAtTheBill(base, b, rest, tag, i + 1);
    }
  }

  /** The leftovers of all bills but the last, the latest first. */
  function Leftover(now: Bill, bills: seq<Bill>): string
    requires Formatted(now) && forall k :: 0 <= k < |bills| ==> Formatted(bills[k])
    decreases |bills|
  {
    if bills == [] then "" else Leftover(bills[0], bills[1..]) + Residue(now)
  }

  function LastOf(now: Bill, bills: seq<Bill>): Bill {
    if bills == [] then now else bills[|bills| - 1]
  }

  lemma BilledOnce(base: string, now: Bill, rest: string, next: Bill)
    requires !Contains(base, BILL_MARK) && Formatted(now)
    ensures Billed(WithBill(base, now, rest), next.amount, next.currency) == WithBill(base, next, Residue(now) + rest)
  {
    MatchAtTheBill(base, now, rest);
    assert Occurs(WithBill(base, now, rest), BILL_MARK, |base| + 1);
    ReplacedAtTheBill(base, now, rest, TagOf(next), 0);
    Regroup(base + "\n" + TagOf(next), Residue(now), rest);
  }

  lemma Regroup(a: string, b: string, c: string)
    ensures a + b + c == a + (b + c)
  {}

  lemma {:induction false} Rebilled(base: string, now: Bill, rest: string, bills: seq<Bill>)
    requires !Contains(base, BILL_MARK) && Formatted(now) && forall k :: 0 <= k < |bills| ==> Formatted(bills[k])
    ensures AllBilled(WithBill(base, now, rest), bills) == WithBill(base, LastOf(now, bills), Leftover(now, bills) + rest)
    decreases |bills|
  {
    if bills == [] {
      assert "" + rest == rest;
    } else {
      var next := bills[0];
      BilledOnce(base, now, rest, next);
      Rebilled(base, next, Residue(now) + rest, bills[1..]);
      Regroup(Leftover(next, bills[1..]), Residue(now), rest);
    }
  }

  /** For every description without a bill mark and any series of bills: what is stored in the end is the
      description, the last bill's tag, and what the pattern left standing of the earlier tags. */
  lemma BilledExactly(base: string, bills: seq<Bill>)
    requires base != "" && !Contains(base, BILL_MARK) && bills != []
    requires forall k :: 0 <= k < |bills| ==> Formatted(bills[k])
    ensures AllBilled(base, bills) == WithBill(base, bills[|bills| - 1], Leftover(bills[0], bills[1..]))
  {
    assert Billed(base, bills[0].amount, bills[0].currency) == WithBill(base, bills[0], "");
    Rebilled(base, bills[0], "", bills[1..]);
    assert Leftover(bills[0], bills[1..]) + "" == Leftover(bills[0], bills[1..]);
  }

  lemma {:induction false} LeftoverIsEmptyIff(now: Bill, bills: seq<Bill>)
    requires Formatted(now) && forall k :: 0 <= k < |bills| ==> Formatted(bills[k])
    ensures Leftover(now, bills) == "" <==> forall k :: 0 <= k < |bills| ==> Lacks(([now] + bills)[k].currency, ']')
    decreases |bills|
  {
    if bills != [] {
      LeftoverIsEmptyIff(bills[0], bills[1..]);
      ResidueIsEmptyIff(now);
      assert [bills[0]] + bills[1..] == bills;
      assert ([now] + bills)[0] == now && forall k :: 0 < k < |bills| ==> ([now] + bills)[k] == bills[k - 1];
      assert forall k :: 0 <= k < |bills| - 1 ==> bills[k] == ([now] + bills)[k + 1];
    }
  }

  /** Nothing but the last bill's tag is left exactly if no earlier currency has a closing bracket. */
  lemma LastBillOnlyIff(base: string, bills: seq<Bill>)
    requires base != "" && !Contains(base, BILL_MARK) && bills != []
    requires forall k :: 0 <= k < |bills| ==> Formatted(bills[k])
    ensures AllBilled(base, bills) == base + "\n" + TagOf(bills[|bills| - 1])
            <==> forall k :: 0 <= k < |bills| - 1 ==> Lacks(bills[k].currency, ']')
  {
    BilledExactly(base, bills);
    LeftoverIsEmptyIff(bills[0], bills[1..]);
    assert [bills[0]] + bills[1..] == bills;
    assert |WithBill(base, bills[|bills| - 1], Leftover(bills[0], bills[1..]))|
        == |base| + 1 + |TagOf(bills[|bills| - 1])| + |Leftover(bills[0], bills[1..])|;
    assert WithBill(base, bills[|bills| - 1], "") == base + "\n" + TagOf(bills[|bills| - 1]);
  }

  lemma ReplacementIsShort(s: string, i: nat, tag: string)
    requires i <= |s|
    ensures |ReplaceFrom(s, i, tag)| <= |s| + |tag|
    decreases |s| - i
  {
    if MatchAt(s, i).None? && i < |s| { ReplacementIsShort(s, i + 1, tag); }
  }

  /** A bill is added behind the description exactly if the description brings no bill mark: a mark of the
      text's own takes the bill, or, left open, swallows it. */
  lemma BillIsAddedIff(base: string, b: Bill)
    requires base != ""
    ensures Billed(base, b.amount, b.currency) == base + "\n" + TagOf(b) <==> !Contains(base, BILL_MARK)
  {
    ReplacementIsShort(base, 0, TagOf(b));
  }

  lemma TailOfClosingCurrency()
    ensures Formatted(Bill("5", "T]")) && Formatted(Bill("6", "TZS")) && Residue(Bill("5", "T]")) == "]"
  {
    var tag := TagOf(Bill("5", "T]"));
    assert tag == "[bill:5 T]]";
    TagCloses(Bill("5", "T]"));
    assert forall k :: 6 <= k < 9 ==> tag[k] != ']';
    assert tag[9] == ']' && |tag| == 11;
  }

  /** A bill in a currency "T]" and then one in "TZS": the tail of the first stays behind the second. */
  lemma ClosingCurrencyLeavesATail()
    ensures AllBilled("x", [Bill("5", "T]"), Bill("6", "TZS")]) == "x\n" + TagOf(Bill("6", "TZS")) + "]"
  {
    var first, second := Bill("5", "T]"), Bill("6", "TZS");
    TailOfClosingCurrency();
    assert [first, second][1..] == [second] && [second][1..] == [];
    assert !Contains("x", BILL_MARK);
    BilledExactly("x", [first, second]);
    assert Leftover(first, [second]) == "" + "]";
  }

  /** A text that brings "[bill:" without a closing bracket swallows every bill. */
  lemma OpenMarkSwallowsBills(b: Bill)
    ensures Billed("[bill:", b.amount, b.currency) == "[bill:"
  {
    assert Occurs("[bill:", BILL_MARK, 0);
    assert forall i: nat :: 0 < i ==> !Occurs("[bill:", BILL_MARK, i);
    NoMatchNoChange("[bill:", 0, TagOf(b));
  }

  lemma NoMatchNoChange(s: string, i: nat, tag: string)
    requires i <= |s| && forall k: nat :: i <= k <= |s| ==> MatchAt(s, k).None?
    ensures ReplaceFrom(s, i, tag) == s
    decreases |s| - i
  {
    if i < |s| { NoMatchNoChange(s, i + 1, tag); }
  }

  /** The tag as it is written, and a bill on an empty description. */
  lemma BillsAre(amount: string, currency: string)
    ensures Billed("", amount, currency) == "[bill:" + amount + " " + currency + "]"
    ensures Billed("x", amount, currency) == "x\n[bill:" + amount + " " + currency + "]"
  {
    assert !Contains("x", BILL_MARK);
    assert "x" + "\n" == "x\n";
    assert "x" + "\n" + BillTag(amount, currency) == "x\n[bill:" + amount + " " + currency + "]";
  }

  // ----- the kind under bills ----------------------------------------------------------------

  /** Neither an amount nor a currency opens a bracket. */
  predicate OpensNothing(b: Bill) {
    Formatted(b) && Lacks(b.currency, '[')
  }

  lemma TagOpensOnce(b: Bill)
    requires OpensNothing(b)
    ensures forall k :: 0 <= k < |TagOf(b)| ==> (TagOf(b)[k] == '[' <==> k == 0)
    ensures Lacks(Residue(b), '[')
  {
    var tag, m, n := TagOf(b), |BILL_MARK|, |b.amount|;
    forall k | 0 <= k < |tag| ensures tag[k] == '[' <==> k == 0 {
      if m <= k < m + n { assert tag[k] == b.amount[k - m]; }
      if m + n < k < |tag| - 1 { assert tag[k] == b.currency[k - m - n - 1]; }
    }
    TagCloses(b);
  }

  lemma {:induction false} LeftoverOpensNothing(now: Bill, bills: seq<Bill>)
    requires OpensNothing(now) && forall k :: 0 <= k < |bills| ==> Formatted(bills[k]) && OpensNothing(bills[k])
    ensures Lacks(Leftover(now, bills), '[')
    decreases |bills|
  {
    if bills != [] {
      LeftoverOpensNothing(bills[0], bills[1..]);
      TagOpensOnce(now);
    }
  }

  /** Behind the description only the bill's own tag opens a bracket: there is one bill mark, and no tag
      of a kind is added. */
  lemma OneBillMark(base: string, b: Bill, rest: string)
    requires !Contains(base, BILL_MARK) && OpensNothing(b) && Lacks(rest, '[')
    ensures forall i: nat :: Occurs(WithBill(base, b, rest), BILL_MARK, i) <==> i == |base| + 1
    ensures forall kind :: kind == GARAGE || kind == MECHANIC ==>
              (Contains(WithBill(base, b, rest), KindTag(kind)) <==> Contains(base, KindTag(kind)))
  {
    var s, tail := WithBill(base, b, rest), TagOf(b) + rest;
    TagOpensOnce(b);
    assert s == base + "\n" + tail;
    assert forall k :: 0 <= k < |tail| ==> (tail[k] == '[' <==> k == 0);
    assert tail[1] == 'b';
    MatchAtTheBill(base, b, rest);
    assert Occurs(s, BILL_MARK, |base| + 1);
    forall i: nat | Occurs(s, BILL_MARK, i) ensures i == |base| + 1 {
      MarkHasNoNewline();
      OccursInAPart(base, tail, BILL_MARK, i);
      if i > |base| { OccursStarts(tail, BILL_MARK, i - |base| - 1, 0); }
    }
    forall kind | kind == GARAGE || kind == MECHANIC
      ensures Contains(s, KindTag(kind)) <==> Contains(base, KindTag(kind))
    {
      KindTagsHaveNoNewline();
      ContainsInAPart(base, tail, KindTag(kind));
      if i: nat :| i <= |tail| && Occurs(tail, KindTag(kind), i) {
        OccursStarts(tail, KindTag(kind), i, 0);
        OccursStarts(tail, KindTag(kind), i, 1);
      }
    }
  }

  lemma DescribedHasNoBillMark(text: string, kind: string)
    requires (kind == GARAGE || kind == MECHANIC) && !Contains(text, BILL_MARK)
    ensures Described(text, kind) != "" && !Contains(Described(text, kind), BILL_MARK)
  {
    MarkHasNoNewline();
    KindsArePlain();
    if i: nat :| i <= |KindTag(kind)| && Occurs(KindTag(kind), BILL_MARK, i) {
      OccursStarts(KindTag(kind), BILL_MARK, i, 0);
      OccursStarts(KindTag(kind), BILL_MARK, i, 1);
      TagBrackets(kind, i);
    }
    if text != "" && !Contains(text, KIND_MARK) {
      ContainsInAPart(KindTag(kind), text, BILL_MARK);
    }
  }

  /** After the bills: the kind read off the description is the kind read before, there is exactly one
      bill mark, it opens the last bill's tag, and nothing else is left exactly if no earlier currency
      closes a bracket. */
  ghost predicate LastBillStands(base: string, bills: seq<Bill>)
    requires bills != []
  {
    var billed, tagged := AllBilled(base, bills), base + "\n" + TagOf(bills[|bills| - 1]);
    && Inferred("", Some(billed)) == Inferred("", Some(base))
    && tagged <= billed
    && (forall i: nat :: Occurs(billed, BILL_MARK, i) <==> i == |base| + 1)
    && (billed == tagged <==> forall k :: 0 <= k < |bills| - 1 ==> Lacks(bills[k].currency, ']'))
  }

  lemma LastBillStandsBehind(base: string, bills: seq<Bill>)
    requires base != "" && !Contains(base, BILL_MARK) && bills != []
    requires forall k :: 0 <= k < |bills| ==> Formatted(bills[k]) && OpensNothing(bills[k])
    ensures LastBillStands(base, bills)
  {
    var last, rest := bills[|bills| - 1], Leftover(bills[0], bills[1..]);
    BilledExactly(base, bills);
    LeftoverOpensNothing(bills[0], bills[1..]);
    OneBillMark(base, last, rest);
    LastBillOnlyIff(base, bills);
    assert WithBill(base, last, rest) == (base + "\n" + TagOf(last)) + rest;
  }

  /** For every text without a bill mark, brackets and kind marks of its own included, and any number of
      SetBill calls whose currencies open no bracket. */
  lemma BillsKeepKindAndLastAmount(text: string, kind: string, bills: seq<Bill>)
    requires (kind == GARAGE || kind == MECHANIC) && !Contains(text, BILL_MARK) && bills != []
    requires forall k :: 0 <= k < |bills| ==> Formatted(bills[k]) && OpensNothing(bills[k])
    ensures LastBillStands(Described(text, kind), bills)
  {
    DescribedHasNoBillMark(text, kind);
    LastBillStandsBehind(Described(text, kind), bills);
  }
}
