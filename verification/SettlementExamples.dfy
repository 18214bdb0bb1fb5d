/** A run in which a settlement's credit is lost. */
module SettlementExamples {
  import opened Tables
  import opened Money
  import opened Ledger
  import opened Settlements
  import opened SettlementRuns
  import E = EnsuredSettlements

  /** A charge, the month-end job, and a verification that dies between its guard and its credit. */
  function LostSteps(p: PersonId, amount: Cents): seq<Step> {
    [Charge(E.Debit(p, amount, 0)), GenerateForMonth(0, [p]), BeginVerify(0, 0), Mark(0), Die(0)]
  }

  lemma ChargedAndBilled(p: PersonId, amount: Cents)
    requires amount > 0
    ensures Apply(Apply(OPENING, Charge(E.Debit(p, amount, 0))), GenerateForMonth(0, [p])) ==
            Desk([E.Debit(p, amount, 0)], [Settlement(p, 0, amount, Due)], map[], 0)
  {
    var e := E.Debit(p, amount, 0);
    assert [] + [e] == [e];
    TotalAppend([], e, ChargedInMonthColumn(p, 0));
    E.GenerateForOne([], [e], 0, p);
    assert RowFor([], p, 0) == None;
  }

  lemma MarkedAndDead(p: PersonId, amount: Cents)
    ensures var due, verified := Settlement(p, 0, amount, Due), Settlement(p, 0, amount, Verified);
            var s := Desk([E.Debit(p, amount, 0)], [due], map[], 0);
            Apply(Apply(Apply(s, BeginVerify(0, 0)), Mark(0)), Die(0)) ==
            s.(rows := [verified], calls := map[0 := VerifyLost(0, due)])
  {
    var due, verified := Settlement(p, 0, amount, Due), Settlement(p, 0, amount, Verified);
    var s := Desk([E.Debit(p, amount, 0)], [due], map[], 0);
    assert Apply(s, BeginVerify(0, 0)) == s.(calls := map[0 := VerifyRead(0, due)]);
    assert Apply(s.(calls := map[0 := VerifyRead(0, due)]), Mark(0)) == s.(rows := [verified], calls := map[0 := VerifyMarked(0, due)]);
  }

  lemma RunFive(s: Desk, a: Step, b: Step, c: Step, d: Step, e: Step, rest: seq<Step>)
    ensures Run(s, [a, b, c, d, e] + rest) == Run(Apply(Apply(Apply(Apply(Apply(s, a), b), c), d), e), rest)
  {
    var s1 := Apply(s, a);
    var s2 := Apply(s1, b);
    var s3 := Apply(s2, c);
    var s4 := Apply(s3, d);
    assert ([a, b, c, d, e] + rest)[1..] == [b, c, d, e] + rest && ([b, c, d, e] + rest)[1..] == [c, d, e] + rest;
    assert ([c, d, e] + rest)[1..] == [d, e] + rest && ([d, e] + rest)[1..] == [e] + rest && ([e] + rest)[1..] == rest;
    assert Run(s4, [e] + rest) == Run(Apply(s4, e), rest);
    assert Run(s3, [d, e] + rest) == Run(s4, [e] + rest);
    assert Run(s2, [c, d, e] + rest) == Run(s3, [d, e] + rest);
    assert Run(s1, [b, c, d, e] + rest) == Run(s2, [c, d, e] + rest);
  }

  /** From the opening state, and however the run goes on: the settlement is verified, its credit is never
      written, and no later verification gets past the status check. */
  lemma CreditIsLost(p: PersonId, amount: Cents, later: seq<Step>)
    requires amount > 0
    ensures var s := Run(OPENING, LostSteps(p, amount) + later);
            && 0 < |s.rows| && s.rows[0].provider == p && s.rows[0].status.Verified? && CreditCount(s.ledger, 0) == 0
            && VerifySettlement(s.rows, s.ledger, 0).2 == Err(Closed)
  {
    var due, verified := Settlement(p, 0, amount, Due), Settlement(p, 0, amount, Verified);
    var lost := Desk([E.Debit(p, amount, 0)], [verified], map[0 := VerifyLost(0, due)], 0);
    var steps := LostSteps(p, amount);
    ChargedAndBilled(p, amount);
    MarkedAndDead(p, amount);
    RunFive(OPENING, steps[0], steps[1], steps[2], steps[3], steps[4], []);
    RunFive(OPENING, steps[0], steps[1], steps[2], steps[3], steps[4], later);
    assert steps + [] == steps && Run(OPENING, steps) == lost;
    SettlementRuns.RunSound(OPENING, steps);
    LostIsNeverCredited(lost, 0, later);
    RunGrows(lost, later);
  }
}
