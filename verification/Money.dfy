/** Commission arithmetic. Amounts are whole cents and rates are ten-thousandths, so a product is
    exact until it is rounded to a cent, half away from zero. */
module Money {

  type Cents = int

  const RATE_SCALE := 10_000

  /** The rate of the database trigger, and the rate of the Go services: the source keeps two. */
  const TRIGGER_RATE: nat := 500
  const SERVICE_RATE: nat := 1_000

  /** `scaled / RATE_SCALE` rounded to an integer, halves away from zero. */
  function Rounded(scaled: int): Cents {
    if scaled >= 0 then (2 * scaled + RATE_SCALE) / (2 * RATE_SCALE)
    else -((-2 * scaled + RATE_SCALE) / (2 * RATE_SCALE))
  }

  /** The platform's cut of a gross amount. */
  function Commission(amount: Cents, rate: nat): Cents {
    Rounded(amount * rate)
  }

  function Abs(x: int): nat {
    if x < 0 then -x else x
  }

  /** What rounding is for: `c` is a nearest integer, and a tie goes away from zero. */
  predicate IsNearest(scaled: int, c: Cents) {
    var error := Abs(scaled - c * RATE_SCALE);
    && 2 * error <= RATE_SCALE
    && (2 * error == RATE_SCALE ==> Abs(c * RATE_SCALE) > Abs(scaled))
  }

  /** Rounding returns the one integer that qualifies, and no other. */
  lemma RoundedIsNearest(scaled: int, c: Cents)
    ensures c == Rounded(scaled) <==> IsNearest(scaled, c)
  {
    var r := Rounded(scaled);
    if scaled >= 0 {
      var n := 2 * scaled + RATE_SCALE;
      assert n == 2 * RATE_SCALE * r + n % (2 * RATE_SCALE);
    } else {
      var n := -2 * scaled + RATE_SCALE;
      assert n == 2 * RATE_SCALE * (-r) + n % (2 * RATE_SCALE);
    }
  }

  /** The commission is the one cent amount nearest to `amount` times `rate` ten-thousandths. */
  lemma CommissionIsNearest(amount: Cents, rate: nat, c: Cents)
    ensures c == Commission(amount, rate) <==> IsNearest(amount * rate, c)
  {
    RoundedIsNearest(amount * rate, c);
  }

  lemma CommissionMonotone(smaller: Cents, larger: Cents, rate: nat)
    requires smaller <= larger
    ensures Commission(smaller, rate) <= Commission(larger, rate)
  {
    assert smaller * rate <= larger * rate;
  }

  /** Nothing, or less, is charged on nothing. */
  lemma NothingOnNothing(amount: Cents, rate: nat)
    ensures amount <= 0 ==> Commission(amount, rate) <= 0
  {
    if amount <= 0 {
      CommissionMonotone(amount, 0, rate);
    }
  }

  /** The commission is within half a cent of the exact share. */
  lemma CommissionWithinHalfCent(amount: Cents, rate: nat)
    ensures 2 * Abs(amount * rate - Commission(amount, rate) * RATE_SCALE) <= RATE_SCALE
  {}
}
