/** The WebSocket connection registry: a map from users to non-empty sets of live connections, changed
    by registrations and disconnects while a broadcast walks over a copy of one of its sets. */
module Registry {

  type UserId = string

  /** The identity of a connection object; a new one for every registration. */
  type ConnId = nat

  /** What the registry stands for: which connections are live for whom, and the next new identity. */
  datatype Plain = Plain(live: set<(UserId, ConnId)>, next: ConnId)

  datatype Op = RegisterOp(user: UserId) | UnregisterOp(user: UserId, conn: ConnId)

  function Step(p: Plain, op: Op): Plain {
    match op
    case RegisterOp(u) => Plain(p.live + {(u, p.next)}, p.next + 1)
    case UnregisterOp(u, c) => p.(live := p.live - {(u, c)})
  }

  function Steps(p: Plain, ops: seq<Op>): Plain
    decreases |ops|
  {
    if ops == [] then p else Steps(Step(p, ops[0]), ops[1..])
  }

  /** The operations of other callers in the first `rounds` rounds of a broadcast. */
  function Between(others: nat -> seq<Op>, rounds: nat): seq<Op> {
    if rounds == 0 then [] else Between(others, rounds - 1) + others(rounds - 1)
  }

  /** Nobody else is at work. */
  const NOBODY: nat -> seq<Op> := (round: nat) => []

  function Drop(p: Plain, gone: set<(UserId, ConnId)>): Plain {
    p.(live := p.live - gone)
  }

  function PairsOf(u: UserId, conns: set<ConnId>): set<(UserId, ConnId)> {
    set c | c in conns :: (u, c)
  }

  function Without(p: Plain, u: UserId, gone: set<ConnId>): Plain {
    Drop(p, PairsOf(u, gone))
  }

  lemma {:induction false} StepsJoin(p: Plain, first: seq<Op>, second: seq<Op>)
    ensures Steps(p, first + second) == Steps(Steps(p, first), second)
    decreases |first|
  {
    if first == [] {
      assert first + second == second;
    } else {
      assert (first + second)[1..] == first[1..] + second;
      StepsJoin(Step(p, first[0]), first[1..], second);
    }
  }

  /** Dropping known connections commutes with whatever others do, as no identity is given out twice. */
  lemma {:induction false} DropsCommute(p: Plain, gone: set<(UserId, ConnId)>, ops: seq<Op>)
    requires forall pair :: pair in gone ==> pair.1 < p.next
    ensures Steps(Drop(p, gone), ops) == Drop(Steps(p, ops), gone)
    ensures Steps(p, ops).next >= p.next
    decreases |ops|
  {
    if ops != [] {
      assert Step(Drop(p, gone), ops[0]) == Drop(Step(p, ops[0]), gone);
      DropsCommute(Step(p, ops[0]), gone, ops[1..]);
    }
  }

  /** The live pairs of a registry's map. */
  function Live(conns: map<UserId, set<ConnId>>): set<(UserId, ConnId)> {
    set u, c | u in conns && c in conns[u] :: (u, c)
  }

  function Elements(s: seq<ConnId>): set<ConnId> {
    set c | c in s
  }

  function Dropped(conns: map<UserId, set<ConnId>>, u: UserId, c: ConnId): map<UserId, set<ConnId>>
    requires u in conns
  {
    if conns[u] - {c} == {} then conns - {u} else conns[u := conns[u] - {c}]
  }

  lemma LiveWithout(conns: map<UserId, set<ConnId>>, u: UserId, c: ConnId)
    requires u in conns
    ensures Live(Dropped(conns, u, c)) == Live(conns) - {(u, c)}
  {
    var after := Dropped(conns, u, c);
    forall v, d ensures (v, d) in Live(after) <==> (v, d) in Live(conns) - {(u, c)} {
      if v == u && d in conns[u] && d != c {
        assert d in conns[u] - {c};
      }
    }
  }

  lemma ElementsAppend(s: seq<ConnId>, c: ConnId, dead: set<ConnId>)
    ensures Elements(s + [c]) == Elements(s) + {c}
    ensures Elements(s + [c]) * dead == if c in dead then Elements(s) * dead + {c} else Elements(s) * dead
  {}

  /** One more round of the others. */
  lemma NextRound(p: Plain, u: UserId, gone: set<ConnId>, others: nat -> seq<Op>, round: nat)
    requires forall c :: c in gone ==> c < p.next
    ensures forall c :: c in gone ==> c < Steps(p, Between(others, round)).next
    ensures Steps(p, Between(others, round + 1)) == Steps(Steps(p, Between(others, round)), others(round))
  {
    DropsCommute(p, PairsOf(u, gone), Between(others, round));
    StepsJoin(p, Between(others, round), others(round));
  }

  /** A connection lives under one user only. */
  ghost predicate OneHome(live: set<(UserId, ConnId)>) {
    forall u, v, c :: (u, c) in live && (v, c) in live ==> u == v
  }

  class Manager {
    var conns: map<UserId, set<ConnId>>
    var next: ConnId

    /** No user maps to an empty set, and a connection lives only under the user it registered for. */
    ghost predicate Valid()
      reads this
    {
      && (forall u :: u in conns ==> conns[u] != {})
      && (forall u, c :: u in conns && c in conns[u] ==> c < next)
      && OneHome(Live(conns))
    }

    ghost function Abs(): Plain
      reads this
    {
      Plain(Live(conns), next)
    }

    constructor ()
      ensures Valid() && Abs() == Plain({}, 0)
    {
      conns, next := map[], 0;
    }

    method Register(u: UserId) returns (c: ConnId)
      requires Valid()
      modifies this
      ensures Valid() && Abs() == Step(old(Abs()), RegisterOp(u))
      ensures c == old(next) && forall v :: (v, c) !in old(Abs()).live
      ensures u in conns && c in conns[u]
      ensures forall v, d :: (v in conns && d in conns[v]) <==> (v in old(conns) && d in old(conns)[v]) || (v == u && d == c)
    {
      c := next;
      next := next + 1;
      if u !in conns {
        conns := conns[u := {}];
      }
      conns := conns[u := conns[u] + {c}];
      assert Live(conns) == Live(old(conns)) + {(u, c)};
    }

    method Unregister(u: UserId, c: ConnId)
      requires Valid()
      modifies this
      ensures Valid() && Abs() == Step(old(Abs()), UnregisterOp(u, c))
      ensures (u, c) !in old(Abs()).live ==> conns == old(conns)
      ensures forall v, d :: (v in conns && d in conns[v]) <==> (v in old(conns) && d in old(conns)[v]) && !(v == u && d == c)
    {
      if u in conns {
        var left := conns[u] - {c};
        assert forall d :: d in left <==> d in old(conns)[u] && d != c;
        if left == {} {
          conns := conns - {u};
        } else {
          conns := conns[u := left];
        }
        LiveWithout(old(conns), u, c);
        if c !in old(conns)[u] {
          assert left == old(conns)[u];
          assert conns == old(conns);
        }
      }
    }

    /** Other goroutines' calls, in the order in which they get the lock. */
    method Perform(ops: seq<Op>)
      requires Valid()
      modifies this
      ensures Valid() && Abs() == Steps(old(Abs()), ops)
    {
      var i := 0;
      assert ops[i..] == ops;
      while i < |ops|
        invariant 0 <= i <= |ops|
        invariant Valid() && Steps(Abs(), ops[i..]) == Steps(old(Abs()), ops)
      {
        match ops[i] {
          case RegisterOp(u) => var _ := Register(u);
          case UnregisterOp(u, c) => Unregister(u, c);
        }
        i := i + 1;
      }
    }

    /** One write: the others get the lock first; a failed write unregisters its connection. */
    method Deliver(u: UserId, c: ConnId, fails: bool, others: seq<Op>, ghost base: Plain, ghost gone: set<ConnId>)
      requires Valid() && Abs() == Without(base, u, gone) && forall d :: d in gone ==> d < base.next
      modifies this
      ensures Valid()
      ensures Abs() == Without(Steps(base, others), u, if fails then gone + {c} else gone)
    {
      Perform(others);
      DropsCommute(base, PairsOf(u, gone), others);
      if fails {
        Unregister(u, c);
        assert Abs().live == Without(Steps(base, others), u, gone + {c}).live;
      }
    }

    /** The loop over the copied connections, in the order the map iteration yields them. */
    method WriteAll(u: UserId, copy: set<ConnId>, dead: set<ConnId>, others: nat -> seq<Op>) returns (sent: seq<ConnId>)
      requires Valid() && forall c :: c in copy ==> c < next
      modifies this
      ensures Valid() && Elements(sent) == copy && |sent| == |copy|
      ensures Abs() == Without(Steps(old(Abs()), Between(others, |copy|)), u, copy * dead)
    {
      sent := [];
      ghost var start := Abs();
      var targets := copy;
      assert start == Without(Steps(start, []), u, {});
      while targets != {}
        invariant Valid() && targets <= copy
        invariant Elements(sent) == copy - targets && |sent| + |targets| == |copy|
        invariant Abs() == Without(Steps(start, Between(others, |sent|)), u, Elements(sent) * dead)
        decreases targets
      {
        var c :| c in targets;
        ghost var gone := Elements(sent) * dead;
        NextRound(start, u, gone, others, |sent|);
        Deliver(u, c, c in dead, others(|sent|), Steps(start, Between(others, |sent|)), gone);
        ElementsAppend(sent, c, dead);
        sent := sent + [c];
        targets := targets - {c};
      }
      assert copy - targets == copy;
    }

    /** Delivers an event to the connections that `u` has when the call takes its copy. `dead` are the
        connections on which a write fails; `others(k)` is what happens between the copy (k == 0) or
        the previous write and the k-th write. Whatever happens in between, the event is written once
        to each connection of the copy, and in the end the registry is as the others leave it, without
        the failed connections of the copy. */
    method SendToUser(u: UserId, dead: set<ConnId>, others: nat -> seq<Op>) returns (sent: seq<ConnId>)
      requires Valid()
      modifies this
      ensures Valid()
      ensures var copy := if u in old(conns) then old(conns)[u] else {};
              && Elements(sent) == copy && |sent| == |copy|
              && Abs() == Without(Steps(old(Abs()), Between(others, |copy|)), u, copy * dead)
    {
      sent := [];
      if u !in conns {
        assert Abs() == Without(Steps(Abs(), []), u, {});
        return;
      }
      sent := WriteAll(u, conns[u], dead, others);
    }
  }

  // ----- broadcasts to several users ---------------------------------------------------------

  function ConnsOf(p: Plain, u: UserId): set<ConnId> {
    set pair | pair in p.live && pair.0 == u :: pair.1
  }

  /** What the others do while the first `k` users are written to; `others(i)` is their part during the
      i-th send. */
  function During(p: Plain, users: seq<UserId>, dead: set<ConnId>, others: nat -> nat -> seq<Op>, k: nat): seq<Op>
    requires k <= |users|
  {
    if k == 0 then []
    else
      var copy := ConnsOf(Reached(p, users, dead, others, k - 1), users[k - 1]);
      During(p, users, dead, others, k - 1) + Between(others(k - 1), |copy|)
  }

  /** The registry after the first `k` sends. */
  function Reached(p: Plain, users: seq<UserId>, dead: set<ConnId>, others: nat -> nat -> seq<Op>, k: nat): Plain
    requires k <= |users|
  {
    if k == 0 then p
    else
      var before := Reached(p, users, dead, others, k - 1);
      var copy := ConnsOf(before, users[k - 1]);
      Without(Steps(before, Between(others(k - 1), |copy|)), users[k - 1], copy * dead)
  }

  /** The failed connections of the snapshots taken by the first `k` sends. */
  function Failed(p: Plain, users: seq<UserId>, dead: set<ConnId>, others: nat -> nat -> seq<Op>, k: nat): set<(UserId, ConnId)>
    requires k <= |users|
  {
    if k == 0 then {}
    else
      var copy := ConnsOf(Reached(p, users, dead, others, k - 1), users[k - 1]);
      Failed(p, users, dead, others, k - 1) + PairsOf(users[k - 1], copy * dead)
  }

  ghost predicate KnownConns(p: Plain) {
    forall pair :: pair in p.live ==> pair.1 < p.next
  }

  lemma {:induction false} StepsKnow(p: Plain, ops: seq<Op>)
    requires KnownConns(p)
    ensures KnownConns(Steps(p, ops)) && Steps(p, ops).next >= p.next
    decreases |ops|
  {
    if ops != [] { StepsKnow(Step(p, ops[0]), ops[1..]); }
  }

  /** However the others' registrations and disconnects fall between the writes of a broadcast, the
      registry ends as they alone leave it, without the failed connections of the snapshots. */
  lemma {:induction false} BroadcastDropsFailed(p: Plain, users: seq<UserId>, dead: set<ConnId>, others: nat -> nat -> seq<Op>, k: nat)
    requires KnownConns(p) && k <= |users|
    ensures var after, gone := Reached(p, users, dead, others, k), Failed(p, users, dead, others, k);
            && after == Drop(Steps(p, During(p, users, dead, others, k)), gone)
            && KnownConns(after)
            && forall pair :: pair in gone ==> pair.0 in users && pair.1 in dead && pair.1 < after.next
  {
    if k > 0 {
      BroadcastDropsFailed(p, users, dead, others, k - 1);
      var before, gone := Reached(p, users, dead, others, k - 1), Failed(p, users, dead, others, k - 1);
      var u, copy := users[k - 1], ConnsOf(before, users[k - 1]);
      var ops, mine := During(p, users, dead, others, k - 1), Between(others(k - 1), |copy|);
      StepsKnow(before, mine);
      DropsCommute(Steps(p, ops), gone, mine);
      StepsJoin(p, ops, mine);
      assert Steps(before, mine) == Drop(Steps(p, ops + mine), gone);
    }
  }

  /** One write to each connection, and none twice. */
  predicate Delivered(sent: seq<ConnId>, copy: set<ConnId>) {
    Elements(sent) == copy && |sent| == |copy|
  }

  method SendToOne(m: Manager, u: UserId, dead: set<ConnId>, others: nat -> seq<Op>) returns (sent: seq<ConnId>)
    requires m.Valid()
    modifies m
    ensures m.Valid()
    ensures var copy := ConnsOf(old(m.Abs()), u);
            Delivered(sent, copy) && m.Abs() == Without(Steps(old(m.Abs()), Between(others, |copy|)), u, copy * dead)
  {
    ConnsOfLive(m, u);
    sent := m.SendToUser(u, dead, others);
  }

  /** The k-th user's connections at its turn get one write each. */
  ghost predicate AllDelivered(p: Plain, users: seq<UserId>, dead: set<ConnId>, others: nat -> nat -> seq<Op>, sent: seq<seq<ConnId>>)
    requires |sent| <= |users|
  {
    forall k :: 0 <= k < |sent| ==> Delivered(sent[k], ConnsOf(Reached(p, users, dead, others, k), users[k]))
  }

  /** Sends one event to several users in turn, with others at work throughout. */
  method SendToUsers(m: Manager, users: seq<UserId>, dead: set<ConnId>, others: nat -> nat -> seq<Op>) returns (sent: seq<seq<ConnId>>)
    requires m.Valid()
    modifies m
    ensures m.Valid() && m.Abs() == Reached(old(m.Abs()), users, dead, others, |users|)
    ensures |sent| == |users| && AllDelivered(old(m.Abs()), users, dead, others, sent)
  {
    ghost var was := m.Abs();
    sent := [];
    for i := 0 to |users|
      invariant m.Valid() && |sent| == i
      invariant m.Abs() == Reached(was, users, dead, others, i)
      invariant AllDelivered(was, users, dead, others, sent)
    {
      ghost var before := m.Abs();
      var written := SendToOne(m, users[i], dead, others(i));
      NextSend(was, users, dead, others, before, m.Abs(), sent, written);
      sent := sent + [written];
    }
  }

  lemma NextSend(p: Plain, users: seq<UserId>, dead: set<ConnId>, others: nat -> nat -> seq<Op>, before: Plain, after: Plain,
                 sent: seq<seq<ConnId>>, written: seq<ConnId>)
    requires |sent| < |users| && before == Reached(p, users, dead, others, |sent|)
    requires AllDelivered(p, users, dead, others, sent)
    requires var copy := ConnsOf(before, users[|sent|]);
             Delivered(written, copy)
             && after == Without(Steps(before, Between(others(|sent|), |copy|)), users[|sent|], copy * dead)
    ensures after == Reached(p, users, dead, others, |sent| + 1)
    ensures AllDelivered(p, users, dead, others, sent + [written])
  {}

  lemma ConnsOfLive(m: Manager, u: UserId)
    ensures ConnsOf(m.Abs(), u) == if u in m.conns then m.conns[u] else {}
  {
    var copy := if u in m.conns then m.conns[u] else {};
    forall c ensures c in ConnsOf(m.Abs(), u) <==> c in copy {
      if c in copy { assert (u, c) in m.Abs().live; }
    }
  }

  /** Without interference, a broadcast to distinct users or not removes exactly their failed connections. */
  lemma {:induction false} QuietBroadcast(p: Plain, users: seq<UserId>, dead: set<ConnId>, k: nat)
    requires k <= |users|
    ensures Reached(p, users, dead, i => NOBODY, k).live ==
            set pair | pair in p.live && !(pair.0 in users[..k] && pair.1 in dead)
  {
    if k > 0 {
      QuietBroadcast(p, users, dead, k - 1);
      var before := Reached(p, users, dead, i => NOBODY, k - 1);
      NothingBetween(|ConnsOf(before, users[k - 1])|);
      assert users[..k] == users[..k - 1] + [users[k - 1]];
      assert forall v :: v in users[..k] <==> v in users[..k - 1] || v == users[k - 1];
    }
  }

  lemma {:induction false} NothingBetween(rounds: nat)
    ensures Between(NOBODY, rounds) == []
  {
    if rounds > 0 { NothingBetween(rounds - 1); }
  }
}
