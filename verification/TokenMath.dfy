/** Converting token amounts to dollars and back. Prices and intermediate results are exact decimals,
    modelled as reals; only division rounds, half up at the twentieth decimal place. */
module TokenMath {
  import opened Domain

  const DECIMAL_PLACES_UNIT := 100000000000000000000.0

  function PowerOfTen(n: nat): (p: real)
    ensures p >= 1.0
  {
    if n == 0 then 1.0 else 10.0 * PowerOfTen(n - 1)
  }

  lemma PowersOfTen(n: nat)
    ensures PowerOfTen(0) == 1.0 && PowerOfTen(n + 1) == 10.0 * PowerOfTen(n)
    ensures PowerOfTen(6) == 1_000_000.0 && PowerOfTen(18) == 1_000_000_000_000_000_000.0
  {
    var six := PowerOfTen(6);
    assert six == 1_000_000.0 by {
      assert PowerOfTen(3) == 1000.0;
    }
    assert PowerOfTen(9) == 1_000_000_000.0;
    assert PowerOfTen(12) == 1_000_000_000_000.0;
    assert PowerOfTen(15) == 1_000_000_000_000_000.0;
  }

  /** Rounds half up to twenty decimal places. */
  function Round20(x: real): real {
    (x * DECIMAL_PLACES_UNIT + 0.5).Floor as real / DECIMAL_PLACES_UNIT
  }

  const HALF_ULP := 0.5 / DECIMAL_PLACES_UNIT

  function AmountInUsd(amount: nat, price: real, decimals: nat): real {
    Round20(amount as real * price / PowerOfTen(decimals))
  }

  /** The token amount before it is floored. */
  function Unfloored(usd: real, price: real, decimals: nat): real
    requires price > 0.0
  {
    Round20(usd * PowerOfTen(decimals) / price)
  }

  /** None where the code throws: dividing by a zero price. */
  function AmountInToken(usd: real, price: Usd, decimals: nat): Option<int> {
    if price == 0.0 then None else Some(Unfloored(usd, price, decimals).Floor)
  }

  lemma RoundingError(x: real)
    ensures -HALF_ULP <= Round20(x) - x <= HALF_ULP
    ensures HALF_ULP * 200_000_000_000_000_000_000.0 == 1.0
  {
    var u := DECIMAL_PLACES_UNIT;
    var n := (x * u + 0.5).Floor as real;
    assert x * u - 0.5 <= n <= x * u + 0.5;
    assert Round20(x) * u == n;
  }

  /** The largest error of a round trip before its final floor. */
  function Slack(price: real, decimals: nat): real
    requires price > 0.0
  {
    HALF_ULP * (PowerOfTen(decimals) / price + 1.0)
  }

  lemma SlackIs(price: real, decimals: nat)
    requires price > 0.0
    ensures Slack(price, decimals) * 200_000_000_000_000_000_000.0 == PowerOfTen(decimals) / price + 1.0
  {
    var k := PowerOfTen(decimals) / price + 1.0;
    assert Slack(price, decimals) == HALF_ULP * k;
  }

  // Facts about products and quotients, on plain numbers.

  lemma QuotientPositive(s: real, p: real)
    requires s > 0.0 && p > 0.0
    ensures s / p > 0.0
  {
  }

  lemma ScaledError(e: real, h: real, k: real)
    requires -h <= e <= h && k > 0.0
    ensures -(h * k) <= e * k <= h * k
  {
  }

  lemma TimesQuotient(x: real, s: real, p: real)
    requires p > 0.0
    ensures x * s / p == x * (s / p)
  {
  }

  lemma ThereAndBack(a: real, p: real, s: real)
    requires p > 0.0 && s > 0.0
    ensures (a * p / s) * (s / p) == a
  {
    var q := a * p / s;
    assert q * s == a * p;
    TimesQuotient(q, s, p);
    assert q * s / p == a * p / p == a;
  }

  lemma SumTimes(x: real, e: real, k: real, h: real)
    ensures (x + e) * k == x * k + e * k && h * (k + 1.0) == h * k + h
  {
  }

  /** Before the floor, a round trip is within the slack of the amount. */
  lemma RoundTripError(a: real, p: real, s: real, exact: real, usd: real, again: real, back: real, h: real)
    requires p > 0.0 && s > 0.0
    requires exact == a * p / s && -h <= usd - exact <= h
    requires again == usd * s / p && -h <= back - again <= h
    ensures -(h * (s / p + 1.0)) <= back - a <= h * (s / p + 1.0)
  {
    var k := s / p;
    var e := usd - exact;
    QuotientPositive(s, p);
    TimesQuotient(usd, s, p);
    ThereAndBack(a, p, s);
    SumTimes(exact, e, k, h);
    ScaledError(e, h, k);
  }

  /** One token of eighteen decimals at a price of one dollar is one dollar. */
  lemma OneTokenOneDollar()
    ensures AmountInUsd(1_000_000_000_000_000_000, 1.0, 18) == 1.0
  {
    PowersOfTen(0);
    assert 1_000_000_000_000_000_000 as real * 1.0 / PowerOfTen(18) == 1.0;
  }

  lemma UsdError(amount: nat, price: real, decimals: nat) returns (exact: real)
    ensures exact == amount as real * price / PowerOfTen(decimals)
    ensures -HALF_ULP <= AmountInUsd(amount, price, decimals) - exact <= HALF_ULP
  {
    exact := amount as real * price / PowerOfTen(decimals);
    RoundingError(exact);
  }

  lemma BackError(usd: real, price: real, decimals: nat) returns (again: real)
    requires price > 0.0
    ensures again == usd * PowerOfTen(decimals) / price
    ensures -HALF_ULP <= Unfloored(usd, price, decimals) - again <= HALF_ULP
  {
    again := usd * PowerOfTen(decimals) / price;
    RoundingError(again);
  }

  lemma TokenError(a: real, price: real, decimals: nat, exact: real, usd: real,
                   again: real, back: real, h: real, slack: real)
    requires price > 0.0 && slack == h * (PowerOfTen(decimals) / price + 1.0)
    requires exact == a * price / PowerOfTen(decimals) && -h <= usd - exact <= h
    requires again == usd * PowerOfTen(decimals) / price && -h <= back - again <= h
    ensures -slack <= back - a <= slack
  {
    RoundTripError(a, price, PowerOfTen(decimals), exact, usd, again, back, h);
  }

  lemma WithinSlack(a: real, price: real, decimals: nat, exact: real, usd: real, again: real, back: real)
    requires price > 0.0
    requires exact == a * price / PowerOfTen(decimals) && -HALF_ULP <= usd - exact <= HALF_ULP
    requires again == usd * PowerOfTen(decimals) / price && -HALF_ULP <= back - again <= HALF_ULP
    ensures -Slack(price, decimals) <= back - a <= Slack(price, decimals)
  {
    TokenError(a, price, decimals, exact, usd, again, back, HALF_ULP, Slack(price, decimals));
  }

  lemma BackFrom(a: real, price: real, decimals: nat, exact: real, usd: real)
    requires price > 0.0
    requires exact == a * price / PowerOfTen(decimals) && -HALF_ULP <= usd - exact <= HALF_ULP
    ensures -Slack(price, decimals) <= Unfloored(usd, price, decimals) - a <= Slack(price, decimals)
  {
    var again := BackError(usd, price, decimals);
    WithinSlack(a, price, decimals, exact, usd, again, Unfloored(usd, price, decimals));
  }

  lemma BackIsNear(amount: nat, price: real, decimals: nat, usd: real)
    requires price > 0.0 && usd == AmountInUsd(amount, price, decimals)
    ensures -Slack(price, decimals) <= Unfloored(usd, price, decimals) - amount as real <= Slack(price, decimals)
  {
    var exact := UsdError(amount, price, decimals);
    BackFrom(amount as real, price, decimals, exact, usd);
  }

  /** Converting to dollars and back at the same price gains at most the slack and loses less than one
      more, and when the slack is below one it yields the amount or the amount minus one. */
  lemma RoundTrip(amount: nat, price: real, decimals: nat)
    requires price > 0.0
    ensures AmountInToken(AmountInUsd(amount, price, decimals), price, decimals).Some?
    ensures var back := AmountInToken(AmountInUsd(amount, price, decimals), price, decimals).value;
            && -(1.0 + Slack(price, decimals)) < back as real - amount as real <= Slack(price, decimals)
            && (Slack(price, decimals) < 1.0 ==> back == amount || back == amount - 1)
  {
    var usd := AmountInUsd(amount, price, decimals);
    BackIsNear(amount, price, decimals, usd);
    var back := Unfloored(usd, price, decimals);
    FloorNear(amount, back, Slack(price, decimals));
  }

  lemma FloorNear(amount: nat, back: real, slack: real)
    requires -slack <= back - amount as real <= slack
    ensures -(1.0 + slack) < back.Floor as real - amount as real <= slack
    ensures slack < 1.0 ==> back.Floor == amount || back.Floor == amount - 1
  {
  }

  /** The lower of the two does occur, with a slack of about a half. */
  lemma OneUnitCanBeLost()
    ensures var price := 101.0 / DECIMAL_PLACES_UNIT;
            && Slack(price, 2) < 1.0
            && AmountInToken(AmountInUsd(1, price, 2), price, 2) == Some(0)
  {
    var price := 101.0 / DECIMAL_PLACES_UNIT;
    assert PowerOfTen(2) == 100.0 by {
      assert PowerOfTen(1) == 10.0 * PowerOfTen(0);
    }
    assert AmountInUsd(1, price, 2) == 1.0 / DECIMAL_PLACES_UNIT by {
      assert 1.0 * price / 100.0 * DECIMAL_PLACES_UNIT + 0.5 == 1.51;
    }
    assert 1.0 / DECIMAL_PLACES_UNIT * 100.0 / price == 100.0 / 101.0;
    RoundingError(100.0 / 101.0);
  }
}
