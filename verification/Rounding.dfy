/** Decimal rounding to a column's precision.

    Every amount is an exact integer number of billionths, the precision of a quantity (three
    decimals) times a price or cost (six decimals). */
module Rounding {

  /** Two decimals: invoice amounts. */
  const CENT: int := 10_000_000

  /** Six decimals: journal amounts. */
  const MICRO: int := 1_000

  /** Nearest multiple of `quantum`, ties away from zero: Python's ROUND_HALF_UP, SQL's round(). */
  function Round(x: int, quantum: int): int
    requires quantum > 0
  {
    if x >= 0 then (x + quantum / 2) / quantum * quantum else -((-x + quantum / 2) / quantum * quantum)
  }

  predicate Tie(x: int, quantum: int)
    requires quantum > 0
  {
    x % quantum == quantum / 2
  }

  lemma {:induction false} MoneyRounding(x: int)
    ensures Round(x, CENT) % CENT == 0
    ensures -CENT / 2 <= x - Round(x, CENT) <= CENT / 2
    ensures -CENT / 2 < x - Round(x, CENT) < CENT / 2 <==> !Tie(x, CENT)
    ensures x >= 0 ==> Round(x, CENT) >= 0
    ensures Tie(x, CENT) ==> Round(x, CENT) == if x >= 0 then x + CENT / 2 else x - CENT / 2
  {
  }

  lemma {:induction false} LedgerRounding(x: int)
    ensures Round(x, MICRO) % MICRO == 0
    ensures -MICRO / 2 <= x - Round(x, MICRO) <= MICRO / 2
    ensures x >= 0 ==> Round(x, MICRO) >= 0
    ensures Tie(x, MICRO) ==> Round(x, MICRO) == if x >= 0 then x + MICRO / 2 else x - MICRO / 2
  {
  }

  /** Rounding commutes with adding whole cents, except for a tie whose sign changes. */
  lemma {:induction false} MoneyShift(x: int, cents: int)
    requires x >= 0
    ensures Round(x + cents * CENT, CENT) == Round(x, CENT) + cents * CENT
            <==> !(Tie(x, CENT) && x + cents * CENT < 0)
  {
  }

  /** The values that round to a given multiple of the ledger quantum. */
  lemma {:induction false} LedgerPreimage(x: int, micros: int)
    ensures Round(x, MICRO) == micros * MICRO <==>
            var gap := x - micros * MICRO;
            -MICRO / 2 < gap < MICRO / 2 || (gap == MICRO / 2 && x < 0) || (gap == -MICRO / 2 && x > 0)
  {
  }

  lemma {:induction false} RoundMultiple(k: int)
    ensures Round(k * MICRO, MICRO) == k * MICRO
  {
    if k >= 0 {
      assert (k * 1000 + 500) / 1000 == k;
    } else {
      assert (-(k * 1000) + 500) / 1000 == -k;
    }
  }

  /** A cost with at most three decimals prices every quantity exactly. */
  lemma {:induction false} WholeProduct(quantity: int, cost: nat)
    requires cost % MICRO == 0
    ensures (quantity * cost) % MICRO == 0
    ensures Round(quantity * cost, MICRO) == quantity * cost
  {
    var k := cost / MICRO;
    assert quantity * cost == (quantity * k) * MICRO by { assert cost == k * MICRO; }
    RoundMultiple(quantity * k);
  }

  /** How far the magnitude of a value lies past its whole cents. */
  function PastCents(x: int): int {
    (if x < 0 then -x else x) % CENT
  }

  /** Rounding to the cent and to the ledger agree on values within half a ledger unit of whole cents: up to
      but not including half above, where the ledger rounds on, and from half below. */
  lemma {:induction false} CentAndLedgerAgree(x: int)
    ensures Round(x, CENT) == Round(x, MICRO) <==> PastCents(x) < MICRO / 2 || PastCents(x) >= CENT - MICRO / 2
  {
    var a := if x < 0 then -x else x;
    var cents, past := a / CENT, a % CENT;
    assert (a + 5_000_000) / 10_000_000 == if past < 5_000_000 then cents else cents + 1;
    assert (a + 500) / 1_000 == cents * 10_000 + (past + 500) / 1_000;
  }
}
