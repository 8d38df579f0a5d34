/** Prices and estimated costs, in exact fixed point.

    The runtimes keep cost as a number rounded to twelve decimal places.  Here a cost
    is a natural number of units of 1e-12, and a price is a whole number of such units
    for a million tokens, so the sum of rounded costs needs no further rounding. */
module Money {

  const MILLION: nat := 1_000_000

  datatype Price = Price(inputPerMillion: nat, outputPerMillion: nat)

  /** n / 1_000_000, rounded to the nearest unit, ties to the even neighbour. */
  function RoundedMillionth(n: nat): (q: nat)
  {
    var q, r := n / MILLION, n % MILLION;
    if 2 * r < MILLION || (2 * r == MILLION && q % 2 == 0) then q else q + 1
  }

  /** The estimated cost of a call, from its token counts. */
  function Cost(price: Price, input: nat, output: nat): nat {
    RoundedMillionth(input * price.inputPerMillion + output * price.outputPerMillion)
  }

  /** The rounding is to a nearest unit: no other unit is closer. */
  lemma RoundedMillionthIsNearest(n: nat, other: int)
    ensures var d := n - RoundedMillionth(n) * MILLION; var e := n - other * MILLION;
            (if d < 0 then -d else d) <= (if e < 0 then -e else e)
  {
    var q, r := n / MILLION, n % MILLION;
    assert n == q * MILLION + r;
    if other <= q {
      assert (q - other) * MILLION >= 0;
      assert n - other * MILLION == (q - other) * MILLION + r;
    } else {
      assert (other - q - 1) * MILLION >= 0;
      assert n - other * MILLION == r - MILLION - (other - q - 1) * MILLION;
    }
  }

  /** At a tie the even neighbour is taken. */
  lemma TiesToEven(n: nat, q: nat)
    requires 2 * n == (2 * q + 1) * MILLION
    ensures RoundedMillionth(n) == if q % 2 == 0 then q else q + 1
  {
    assert n == q * MILLION + MILLION / 2;
    assert n / MILLION == q && n % MILLION == MILLION / 2;
  }

  /** Prices are for a million tokens, of either kind its own; together they cost what they cost
      apart, up to the rounding. */
  lemma PricedPerMillion(price: Price, input: nat, output: nat, k: nat)
    ensures Cost(price, k * MILLION, 0) == k * price.inputPerMillion
    ensures Cost(price, 0, k * MILLION) == k * price.outputPerMillion
    ensures var together, apart := Cost(price, input, output), Cost(price, input, 0) + Cost(price, 0, output);
            -1 <= together - apart <= 1
  {
    var p, q := price.inputPerMillion, price.outputPerMillion;
    WholeMillions(k, p);
    WholeMillions(k, q);
    assert 0 * q == 0 && 0 * p == 0;
    RoundedSum(input * p, output * q);
  }

  lemma WholeMillions(k: nat, p: nat)
    ensures k * MILLION * p == k * p * MILLION && RoundedMillionth(k * p * MILLION) == k * p
  {
  }

  lemma RoundedSum(m: nat, n: nat)
    ensures -1 <= RoundedMillionth(m + n) - (RoundedMillionth(m) + RoundedMillionth(n)) <= 1
  {
    RoundedNear(m);
    RoundedNear(n);
    RoundedNear(m + n);
  }

  lemma RoundedNear(n: nat)
    ensures 2 * n - MILLION <= 2 * RoundedMillionth(n) * MILLION <= 2 * n + MILLION
  {
    assert n == n / MILLION * MILLION + n % MILLION;
  }

  lemma RoundedMillionthMonotone(m: nat, n: nat)
    requires m <= n
    ensures RoundedMillionth(m) <= RoundedMillionth(n)
  {
    assert m / MILLION <= n / MILLION;
    if m / MILLION == n / MILLION {
      assert m % MILLION <= n % MILLION;
    }
  }

  lemma ProductMonotone(a: nat, b: nat, p: nat)
    requires a <= b
    ensures a * p <= b * p
  {
  }

  /** Using fewer tokens never costs more, whatever the price. */
  lemma CostMonotone(price: Price, i: nat, o: nat, i': nat, o': nat)
    requires i <= i' && o <= o'
    ensures Cost(price, i, o) <= Cost(price, i', o')
  {
    ProductMonotone(i, i', price.inputPerMillion);
    ProductMonotone(o, o', price.outputPerMillion);
    RoundedMillionthMonotone(i * price.inputPerMillion + o * price.outputPerMillion,
                             i' * price.inputPerMillion + o' * price.outputPerMillion);
  }
}
