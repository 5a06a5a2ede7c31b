/** The Inventory account of a store beside its stock at moving average cost, and the reconciliation that
    expects the two to match.

    Quantities are thousandths and costs millionths, so values are billionths; the average is rounded to
    the cost's precision at every receipt, every posted amount to the ledger's. */
module InventoryValuation {
  import opened Sums
  import opened Rounding

  datatype Product = Product(quantity: int, cost: nat, negativeAllowed: bool)

  datatype Stock = Stock(products: seq<Product>, balance: int)

  datatype Error = NOT_FOUND | INVALID_QUANTITY | INSUFFICIENT_STOCK | NEGATIVE_COST

  datatype Outcome = Done | Rejected(error: Error)

  // ---- The moving average ------------------------------------------------------------------------

  function Abs(x: int): (r: int)
    ensures r >= 0 && (r == 0 <==> x == 0)
  {
    if x < 0 then -x else x
  }

  /** The nearest integer to a quotient, ties away from zero. */
  function RoundDiv(a: int, n: int): int
    requires n != 0
  {
    var b, m := if n < 0 then -a else a, Abs(n);
    if b >= 0 then (2 * b + m) / (2 * m) else -((2 * -b + m) / (2 * m))
  }

  /** What there was and what comes in, at cost. */
  function Pooled(p: Product, quantity: int, cost: nat): int {
    p.quantity * p.cost + quantity * cost
  }

  /** Nothing left to average over falls back to the incoming cost. */
  function NewAverage(p: Product, quantity: int, cost: nat): int {
    if p.quantity + quantity == 0 then cost else RoundDiv(Pooled(p, quantity, cost), p.quantity + quantity)
  }

  lemma {:induction false} FloorOf(a: int, m: int)
    requires a >= 0 && m > 0
    ensures var d := (2 * a + m) / (2 * m); 0 <= d && -m <= 2 * (m * d - a) <= m
  {
    var d := (2 * a + m) / (2 * m);
    var r := (2 * a + m) % (2 * m);
    assert 2 * a + m == 2 * m * d + r && 0 <= r < 2 * m;
    assert 2 * m * d == 2 * (m * d);
  }

  /** The rounded quotient, taken times again, is off by at most half the divisor. */
  lemma {:induction false} RoundDivNear(a: int, n: int)
    requires n != 0
    ensures -Abs(n) <= 2 * (n * RoundDiv(a, n) - a) <= Abs(n)
  {
    var b, m := if n < 0 then -a else a, Abs(n);
    var d := (2 * Abs(b) + m) / (2 * m);
    FloorOf(Abs(b), m);
    var e := RoundDiv(a, n);
    assert e == if b >= 0 then d else -d;
    SignedProducts(m, d);
    assert n * e == if a >= 0 then m * d else -(m * d);
  }

  lemma {:induction false} SignedProducts(m: int, d: int)
    ensures m * -d == -(m * d) && -m * d == -(m * d) && -m * -d == m * d
  {
  }

  /** A quotient that falls `e / n` beside an integer `k` is rounded to it. */
  predicate Nearest(k: int, e: int, n: int) {
    2 * Abs(e) < Abs(n) || (2 * e == -n && k > 0) || (2 * e == n && k < 0)
  }

  lemma {:induction false} QuotientIs(x: int, y: int, k: int)
    requires y > 0
    ensures x / y == k <==> y * k <= x < y * k + y
  {
    var d := x / y;
    assert y * d <= x < y * d + y;
    if d < k { assert y * (d + 1) <= y * k; }
    if k < d { assert y * (k + 1) <= y * d; }
  }

  /** `whole` is the divisor times `k`. */
  lemma {:induction false} RoundUpward(whole: int, k: int, e: int, m: int)
    requires m > 0 && whole == m * k && whole + e >= 0
    ensures RoundDiv(whole + e, m) == k <==> Nearest(k, e, m)
  {
    QuotientIs(2 * (whole + e) + m, 2 * m, k);
    assert 2 * m * k == 2 * whole;
    assert RoundDiv(whole + e, m) == k <==> 2 * whole <= 2 * (whole + e) + m < 2 * whole + 2 * m;
    SignOfProduct(whole, k, m);
  }

  lemma {:induction false} RoundDownward(whole: int, k: int, e: int, m: int)
    requires m > 0 && whole == m * k && whole + e < 0
    ensures RoundDiv(whole + e, m) == k <==> Nearest(k, e, m)
  {
    QuotientIs(2 * -(whole + e) + m, 2 * m, -k);
    assert 2 * m * -k == -2 * whole;
    assert RoundDiv(whole + e, m) == k <==> -2 * whole <= 2 * -(whole + e) + m < -2 * whole + 2 * m;
    SignOfProduct(whole, k, m);
  }

  lemma {:induction false} SignOfProduct(whole: int, k: int, m: int)
    requires m > 0 && whole == m * k
    ensures (k > 0 ==> whole >= m) && (k == 0 ==> whole == 0) && (k < 0 ==> whole <= -m)
  {
  }

  lemma {:induction false} RoundDivPositive(k: int, e: int, m: int)
    requires m > 0
    ensures RoundDiv(m * k + e, m) == k <==> Nearest(k, e, m)
  {
    if m * k + e >= 0 { RoundUpward(m * k, k, e, m); } else { RoundDownward(m * k, k, e, m); }
  }

  /** The quotients that round to a given integer. */
  lemma {:induction false} RoundDivIs(k: int, e: int, n: int)
    requires n != 0
    ensures RoundDiv(n * k + e, n) == k <==> Nearest(k, e, n)
  {
    if n > 0 {
      RoundDivPositive(k, e, n);
    } else {
      RoundDivPositive(k, -e, -n);
      assert -n * k + -e == -(n * k + e);
    }
  }

  /** A division that comes out even is not rounded. */
  lemma {:induction false} RoundDivEven(k: int, n: int)
    requires n != 0
    ensures RoundDiv(n * k, n) == k
  {
    RoundDivIs(k, 0, n);
  }

  lemma {:induction false} EvenQuotient(a: int, n: int)
    requires n != 0 && a % n == 0
    ensures n * RoundDiv(a, n) == a
  {
    var k := a / n;
    assert a == n * k;
    RoundDivEven(k, n);
  }

  // ---- Steps -------------------------------------------------------------------------------------

  datatype Op =
    | Issue(p: nat, quantity: int)              // sale, purchase return, shipment, stock found missing
    | Found(p: nat, quantity: int)              // stock found
    | TakeIn(p: nat, quantity: int, cost: nat)  // goods receipt, transfer receipt, restocked return
    | Credit(amount: int)                       // supplier credit note for returned goods, negative when reversed

  function Amount(quantity: int, cost: nat): int {
    Round(quantity * cost, MICRO)
  }

  function Check(s: Stock, p: nat, quantity: int, delta: int): Outcome {
    if quantity <= 0 then Rejected(INVALID_QUANTITY)
    else if p >= |s.products| then Rejected(NOT_FOUND)
    else if s.products[p].quantity + delta < 0 && !s.products[p].negativeAllowed then Rejected(INSUFFICIENT_STOCK)
    else Done
  }

  function Move(s: Stock, p: nat, delta: int, cost: nat, amount: int): Stock
    requires p < |s.products|
  {
    s.(products := s.products[p := s.products[p].(quantity := s.products[p].quantity + delta, cost := cost)],
       balance := s.balance + amount)
  }

  function Step(s: Stock, op: Op): (Stock, Outcome) {
    match op
    case Issue(p, quantity) =>
      if Check(s, p, quantity, -quantity) != Done then (s, Check(s, p, quantity, -quantity))
      else (Move(s, p, -quantity, s.products[p].cost, -Amount(quantity, s.products[p].cost)), Done)
    case Found(p, quantity) =>
      if Check(s, p, quantity, quantity) != Done then (s, Check(s, p, quantity, quantity))
      else (Move(s, p, quantity, s.products[p].cost, Amount(quantity, s.products[p].cost)), Done)
    case TakeIn(p, quantity, cost) =>
      if Check(s, p, quantity, quantity) != Done then (s, Check(s, p, quantity, quantity))
      else if NewAverage(s.products[p], quantity, cost) < 0 then (s, Rejected(NEGATIVE_COST))
      else (Move(s, p, quantity, NewAverage(s.products[p], quantity, cost), Amount(quantity, cost)), Done)
    case Credit(amount) => (s.(balance := s.balance - amount), Done)
  }

  function Run(s: Stock, ops: seq<Op>): Stock
    decreases |ops|
  {
    if ops == [] then s else Run(Step(s, ops[0]).0, ops[1..])
  }

  function Value(p: Product): int {
    p.quantity * p.cost
  }

  function Valuation(s: Stock): int {
    Sum(s.products, Value)
  }

  // ---- What each step admits and does --------------------------------------------------------------

  /** Goods of a positive quantity go out of a known product's stock if they are there, to the last unit, or
      if the product may go negative; at the cost they stand at. */
  lemma {:induction false} IssueDoneIff(s: Stock, p: nat, quantity: int)
    ensures var (after, o) := Step(s, Issue(p, quantity));
            && (o == Done <==>
                  quantity > 0 && p < |s.products|
                    && (quantity <= s.products[p].quantity || s.products[p].negativeAllowed))
            && (o != Done ==> after == s)
            && (o == Done ==>
                  && after.products == s.products[p := s.products[p].(quantity := s.products[p].quantity - quantity)]
                  && after.balance == s.balance - Round(quantity * s.products[p].cost, MICRO))
  {
  }

  lemma {:induction false} FoundDoneIff(s: Stock, p: nat, quantity: int)
    ensures var (after, o) := Step(s, Found(p, quantity));
            && (o == Done <==>
                  quantity > 0 && p < |s.products|
                  && (0 <= s.products[p].quantity + quantity || s.products[p].negativeAllowed))
            && (o != Done ==> after == s)
            && (o == Done ==>
                  && after.products == s.products[p := s.products[p].(quantity := s.products[p].quantity + quantity)]
                  && after.balance == s.balance + Round(quantity * s.products[p].cost, MICRO))
  {
  }

  /** Goods taken in leave the rounded average of what there was and what came, or the incoming cost when
      nothing is left; an average below nothing is refused. */
  lemma {:induction false} TakeInDoneIff(s: Stock, p: nat, quantity: int, cost: nat)
    ensures var (after, o) := Step(s, TakeIn(p, quantity, cost));
            && (o != Done ==>
                  && after == s
                  && o == Rejected(if quantity <= 0 then INVALID_QUANTITY
                                   else if p >= |s.products| then NOT_FOUND
                                   else if s.products[p].quantity + quantity < 0 && !s.products[p].negativeAllowed
                                   then INSUFFICIENT_STOCK
                                   else NEGATIVE_COST))
            && (o == Done ==>
                  var x, n := s.products[p], s.products[p].quantity + quantity;
                  && |after.products| == |s.products|
                  && after.products[p].quantity == n && after.products[p].negativeAllowed == x.negativeAllowed
                  && after.products[p].cost
                      == (if n == 0 then cost else RoundDiv(x.quantity * x.cost + quantity * cost, n))
                  && (forall i :: 0 <= i < |s.products| && i != p ==> after.products[i] == s.products[i])
                  && after.balance == s.balance + Round(quantity * cost, MICRO))
            && (o == Done <==>
                  && quantity > 0 && p < |s.products|
                  && (0 <= s.products[p].quantity + quantity || s.products[p].negativeAllowed)
                  && (s.products[p].quantity + quantity == 0
                      || RoundDiv(s.products[p].quantity * s.products[p].cost + quantity * cost,
                                  s.products[p].quantity + quantity) >= 0))
  {
  }

  // ---- How far the account and the stock part ---------------------------------------------------------

  /** What one step adds to the difference of valuation and account, read off its inputs: the part of the
      amount that rounding dropped, the part of the average times the new quantity that rounding added, all
      the pooled value when nothing is left to carry it, and a credit note in full. */
  function Drift(s: Stock, op: Op): int {
    if Step(s, op).1 != Done then 0
    else
      match op
      case Issue(p, quantity) => Amount(quantity, s.products[p].cost) - quantity * s.products[p].cost
      case Found(p, quantity) => quantity * s.products[p].cost - Amount(quantity, s.products[p].cost)
      case TakeIn(p, quantity, cost) =>
        var pooled, left := Pooled(s.products[p], quantity, cost), s.products[p].quantity + quantity;
        (left * NewAverage(s.products[p], quantity, cost) - pooled) + (quantity * cost - Amount(quantity, cost))
      case Credit(amount) => amount
  }

  function TotalDrift(s: Stock, ops: seq<Op>): int
    decreases |ops|
  {
    if ops == [] then 0 else Drift(s, ops[0]) + TotalDrift(Step(s, ops[0]).0, ops[1..])
  }

  lemma {:induction false} MoveValue(s: Stock, p: nat, delta: int, cost: nat, amount: int)
    requires p < |s.products|
    ensures Valuation(Move(s, p, delta, cost, amount))
            == Valuation(s) - Value(s.products[p]) + (s.products[p].quantity + delta) * cost
  {
    SumUpdate(s.products, p, s.products[p].(quantity := s.products[p].quantity + delta, cost := cost), Value);
  }

  /** Goods in or out at the cost they stand at. */
  lemma {:induction false} SameCostDrifts(s: Stock, p: nat, delta: int, amount: int)
    requires p < |s.products|
    ensures var after := Move(s, p, delta, s.products[p].cost, amount);
            Valuation(after) - after.balance == Valuation(s) - s.balance + delta * s.products[p].cost - amount
  {
    var x := s.products[p];
    MoveValue(s, p, delta, x.cost, amount);
    assert (x.quantity + delta) * x.cost == x.quantity * x.cost + delta * x.cost;
  }

  lemma {:induction false} TakeInDrifts(s: Stock, p: nat, quantity: int, cost: nat)
    requires Step(s, TakeIn(p, quantity, cost)).1 == Done
    ensures var after := Step(s, TakeIn(p, quantity, cost)).0;
            Valuation(after) - after.balance == Valuation(s) - s.balance + Drift(s, TakeIn(p, quantity, cost))
  {
    MoveValue(s, p, quantity, NewAverage(s.products[p], quantity, cost), Amount(quantity, cost));
  }

  lemma {:induction false} StepDrifts(s: Stock, op: Op)
    ensures var after := Step(s, op).0;
            Valuation(after) - after.balance == Valuation(s) - s.balance + Drift(s, op)
  {
    if Step(s, op).1 == Done {
      match op
      case Issue(p, quantity) =>
        SameCostDrifts(s, p, -quantity, -Amount(quantity, s.products[p].cost));
        assert -quantity * s.products[p].cost == -(quantity * s.products[p].cost);
      case Found(p, quantity) => SameCostDrifts(s, p, quantity, Amount(quantity, s.products[p].cost));
      case TakeIn(p, quantity, cost) => TakeInDrifts(s, p, quantity, cost);
      case Credit(_) =>
    }
  }

  /** Over every run the difference of valuation and account is the sum of its steps' drifts. */
  lemma {:induction false} RunDrifts(s: Stock, ops: seq<Op>)
    ensures var after := Run(s, ops);
            Valuation(after) - after.balance == Valuation(s) - s.balance + TotalDrift(s, ops)
    decreases |ops|
  {
    if ops != [] {
      StepDrifts(s, ops[0]);
      RunDrifts(Step(s, ops[0]).0, ops[1..]);
    }
  }

  // ---- What the report sees of it -----------------------------------------------------------------------

  /** What the report calls the discrepancy: the account less the valuation, rounded once. */
  function Discrepancy(s: Stock): int {
    s.balance - Round(Valuation(s), MICRO)
  }

  function Opened(products: seq<Product>): Stock {
    Stock(products, 0)
  }

  /** Amounts reach the account at the ledger's precision. */
  predicate LedgerAmounts(ops: seq<Op>) {
    forall j :: 0 <= j < |ops| && ops[j].Credit? ==> ops[j].amount % MICRO == 0
  }

  lemma {:induction false} WholeWith(balance: int, amount: int)
    requires balance % MICRO == 0 && amount % MICRO == 0
    ensures (balance + amount) % MICRO == 0 && (balance - amount) % MICRO == 0
  {
    var i, j := balance / MICRO, amount / MICRO;
    assert balance + amount == MICRO * (i + j) && balance - amount == MICRO * (i - j);
  }

  lemma {:induction false} AmountIsWhole(quantity: int, cost: nat)
    ensures Amount(quantity, cost) % MICRO == 0
  {
    LedgerRounding(quantity * cost);
  }

  lemma {:induction false} StepStaysWhole(s: Stock, op: Op)
    requires s.balance % MICRO == 0 && (op.Credit? ==> op.amount % MICRO == 0)
    ensures Step(s, op).0.balance % MICRO == 0
  {
    if Step(s, op).1 == Done {
      var amount := match op
        case Issue(p, quantity) => Amount(quantity, s.products[p].cost)
        case Found(p, quantity) => Amount(quantity, s.products[p].cost)
        case TakeIn(_, quantity, cost) => Amount(quantity, cost)
        case Credit(amount) => amount;
      match op {
        case Issue(p, quantity) => AmountIsWhole(quantity, s.products[p].cost);
        case Found(p, quantity) => AmountIsWhole(quantity, s.products[p].cost);
        case TakeIn(_, quantity, cost) => AmountIsWhole(quantity, cost);
        case Credit(_) =>
      }
      WholeWith(s.balance, amount);
    }
  }

  lemma {:induction false} BalanceStaysWhole(s: Stock, ops: seq<Op>)
    requires s.balance % MICRO == 0 && LedgerAmounts(ops)
    ensures Run(s, ops).balance % MICRO == 0
    decreases |ops|
  {
    if ops != [] {
      StepStaysWhole(s, ops[0]);
      assert forall j :: 0 <= j < |ops[1..]| ==> ops[1..][j] == ops[j + 1];
      BalanceStaysWhole(Step(s, ops[0]).0, ops[1..]);
    }
  }

  /** The report rounds away what the drifts of a run add up to while that is less than half a ledger unit. */
  lemma {:induction false} ReportedDrift(products: seq<Product>, ops: seq<Op>)
    requires (forall p :: 0 <= p < |products| ==> products[p].quantity == 0) && LedgerAmounts(ops)
    ensures var s, drift := Run(Opened(products), ops), TotalDrift(Opened(products), ops);
            Discrepancy(s) == 0 <==>
              || -MICRO / 2 < drift < MICRO / 2
              || (drift == MICRO / 2 && Valuation(s) < 0)
              || (drift == -MICRO / 2 && Valuation(s) > 0)
  {
    var s := Run(Opened(products), ops);
    SumZero(products, Value);
    RunDrifts(Opened(products), ops);
    BalanceStaysWhole(Opened(products), ops);
    LedgerPreimage(Valuation(s), s.balance / MICRO);
  }

  // ---- When the reconciliation matches ----------------------------------------------------------------

  /** Goods that go out, or are found, at the cost they stand at. */
  predicate Movements(ops: seq<Op>) {
    forall j :: 0 <= j < |ops| ==> ops[j].Issue? || ops[j].Found?
  }

  /** Whatever goes out or is found from here on, the reconciliation matches. */
  ghost predicate EveryMovementMatches(s: Stock) {
    forall ops: seq<Op> :: Movements(ops) ==> Discrepancy(Run(s, ops)) == 0
  }

  /** Costs of at most three decimals, and a valuation that is the account's balance to the last digit. */
  predicate Matched(s: Stock) {
    (forall p :: 0 <= p < |s.products| ==> s.products[p].cost % MICRO == 0) && Valuation(s) == s.balance
  }

  /** Negative stock only where it is allowed. */
  predicate StockAllowed(s: Stock) {
    forall p :: 0 <= p < |s.products| ==> s.products[p].quantity >= 0 || s.products[p].negativeAllowed
  }

  lemma {:induction false} WholeValues(products: seq<Product>)
    requires forall p :: 0 <= p < |products| ==> products[p].cost % MICRO == 0
    ensures Sum(products, Value) % MICRO == 0
  {
    if products != [] {
      assert forall p :: 0 <= p < |products[1..]| ==> products[1..][p] == products[p + 1];
      WholeValues(products[1..]);
      WholeProduct(products[0].quantity, products[0].cost);
      WholeWith(Value(products[0]), Sum(products[1..], Value));
    }
  }

  lemma {:induction false} WholeIsRound(x: int)
    requires x % MICRO == 0
    ensures Round(x, MICRO) == x
  {
    RoundMultiple(x / MICRO);
  }

  lemma {:induction false} MatchedReportsNothing(s: Stock)
    requires Matched(s)
    ensures Discrepancy(s) == 0
  {
    WholeValues(s.products);
    WholeIsRound(Valuation(s));
  }

  lemma {:induction false} MovementKeepsMatch(s: Stock, op: Op)
    requires Matched(s) && (op.Issue? || op.Found?)
    ensures Matched(Step(s, op).0)
  {
    StepDrifts(s, op);
    if Step(s, op).1 == Done { WholeProduct(op.quantity, s.products[op.p].cost); }
  }

  lemma {:induction false} MovementsMatch(s: Stock, ops: seq<Op>)
    requires Matched(s) && Movements(ops)
    ensures Matched(Run(s, ops))
    decreases |ops|
  {
    if ops != [] {
      MovementKeepsMatch(s, ops[0]);
      assert forall j :: 0 <= j < |ops[1..]| ==> ops[1..][j] == ops[j + 1];
      MovementsMatch(Step(s, ops[0]).0, ops[1..]);
    }
  }

  /** One thousandth of a unit found, `n` times over. */
  function Finds(p: nat, n: nat): (ops: seq<Op>)
    ensures |ops| == n && Movements(ops)
  {
    seq(n, i => Found(p, 1))
  }

  /** Rounding does compound: what one movement of a thousandth drops, `n` of them drop `n` times. */
  lemma {:induction false} FindsCompound(s: Stock, p: nat, n: nat)
    requires p < |s.products| && (s.products[p].quantity >= 0 || s.products[p].negativeAllowed)
    ensures var after, cost := Run(s, Finds(p, n)), s.products[p].cost;
            Valuation(after) - after.balance == Valuation(s) - s.balance + n * (cost - Amount(1, cost))
    decreases n
  {
    if n > 0 {
      var op, cost := Found(p, 1), s.products[p].cost;
      var next := Step(s, op).0;
      StepDrifts(s, op);
      assert Finds(p, n)[1..] == Finds(p, n - 1);
      FindsCompound(next, p, n - 1);
      assert n * (cost - Amount(1, cost)) == (cost - Amount(1, cost)) + (n - 1) * (cost - Amount(1, cost));
    }
  }

  /** A cost with more than three decimals shows after enough movements. */
  lemma {:induction false} FineCostShows(s: Stock, p: nat)
    requires p < |s.products| && (s.products[p].quantity >= 0 || s.products[p].negativeAllowed)
    requires s.products[p].cost % MICRO != 0
    ensures !EveryMovementMatches(s)
  {
    var cost, n := s.products[p].cost, 3 * MICRO;
    var now, later := Run(s, []), Run(s, Finds(p, n));
    var dropped := cost - Amount(1, cost);
    FindsCompound(s, p, n);
    AmountIsWhole(1, cost);
    assert dropped != 0;
    LedgerRounding(Valuation(now));
    LedgerRounding(Valuation(later));
    assert Movements([]);
    assert Discrepancy(now) != 0 || Discrepancy(later) != 0;
  }

  /** From here on every movement matches if and only if costs have at most three decimals and the valuation
      is the account's balance to the last digit. */
  lemma {:induction false} EveryMovementMatchesIff(s: Stock)
    requires s.balance % MICRO == 0 && StockAllowed(s)
    ensures EveryMovementMatches(s) <==> Matched(s)
  {
    if Matched(s) {
      forall ops: seq<Op> | Movements(ops) ensures Discrepancy(Run(s, ops)) == 0 {
        MovementsMatch(s, ops);
        MatchedReportsNothing(Run(s, ops));
      }
    } else if p: nat :| p < |s.products| && s.products[p].cost % MICRO != 0 {
      FineCostShows(s, p);
    } else {
      WholeValues(s.products);
      WholeIsRound(Valuation(s));
      assert Movements([]) && Run(s, []) == s;
    }
  }

  // ---- Receipts that keep the match -------------------------------------------------------------------

  /** The receipt and the stock it meets average out: what is booked for them divides evenly into a cost of
      at most three decimals, and what rounding dropped of the receipt is too little to move the average.  With
      nothing left in stock, nothing may be left on the account either. */
  predicate Fits(x: Product, quantity: int, cost: nat) {
    var n, booked := x.quantity + quantity, x.quantity * x.cost + Amount(quantity, cost);
    if n == 0 then cost % MICRO == 0 && booked == 0
    else booked % (n * MICRO) == 0 && Nearest(booked / n, quantity * cost - Amount(quantity, cost), n)
  }

  lemma {:induction false} MultipleIsLarge(n: int, j: int)
    requires n != 0 && j != 0
    ensures n * j >= Abs(n) || n * j <= -Abs(n)
  {
    if j > 0 {
      if n > 0 { assert n * j >= n; } else { assert n * j <= n; }
    } else {
      if n > 0 { assert n * j <= -n; } else { assert n * j >= -n; }
    }
  }

  lemma {:induction false} MultipleDivides(d: int, k: int)
    requires d != 0
    ensures (d * k) % d == 0 && d * k / d == k
  {
    var q, r := d * k / d, (d * k) % d;
    assert d * k == d * q + r && 0 <= r < Abs(d);
    assert d * (k - q) == r;
    if k != q { MultipleIsLarge(d, k - q); }
  }

  /** An average is a whole cost that carries what was booked if and only if the receipt fits. */
  lemma {:induction false} FitsIff(x: Product, quantity: int, cost: nat)
    ensures var n, average := x.quantity + quantity, NewAverage(x, quantity, cost);
            average % MICRO == 0 && n * average == x.quantity * x.cost + Amount(quantity, cost)
            <==> Fits(x, quantity, cost)
  {
    var n, booked := x.quantity + quantity, x.quantity * x.cost + Amount(quantity, cost);
    var dropped := quantity * cost - Amount(quantity, cost);
    if n != 0 {
      assert Pooled(x, quantity, cost) == booked + dropped;
      FitsAverage(n, booked, dropped);
    }
  }

  lemma {:induction false} FitsAverage(n: int, booked: int, dropped: int)
    requires n != 0
    ensures var average := RoundDiv(booked + dropped, n);
            average % MICRO == 0 && n * average == booked
            <==> booked % (n * MICRO) == 0 && Nearest(booked / n, dropped, n)
  {
    var average := RoundDiv(booked + dropped, n);
    if average % MICRO == 0 && n * average == booked {
      EvenlyBooked(n, average / MICRO);
      RoundDivIs(average, dropped, n);
    }
    if booked % (n * MICRO) == 0 && Nearest(booked / n, dropped, n) {
      var k := booked / (n * MICRO);
      EuclidWhole(booked, n * MICRO);
      EvenlyBooked(n, k);
      RoundDivIs(MICRO * k, dropped, n);
      WholeTimes(k);
    }
  }

  lemma {:induction false} EuclidWhole(a: int, d: int)
    requires d != 0 && a % d == 0
    ensures a == d * (a / d)
  {
  }

  lemma {:induction false} WholeTimes(k: int)
    ensures MICRO * k % MICRO == 0
  {
  }

  /** A whole number of ledger units per piece, over `n` pieces. */
  lemma {:induction false} EvenlyBooked(n: int, k: int)
    requires n != 0
    ensures n * MICRO * k == n * (MICRO * k)
    ensures n * (MICRO * k) % (n * MICRO) == 0 && n * (MICRO * k) / n == MICRO * k
  {
    assert n * MICRO * k == n * (MICRO * k);
    MultipleDivides(n * MICRO, k);
    MultipleDivides(n, MICRO * k);
  }

  /** For a receipt whose own cost has at most three decimals: the pooled value divides evenly. */
  lemma {:induction false} WholeReceiptFitsIff(x: Product, quantity: int, cost: nat)
    requires quantity > 0 && cost % MICRO == 0
    ensures Fits(x, quantity, cost) <==>
            if x.quantity + quantity == 0 then cost == x.cost
            else Pooled(x, quantity, cost) % ((x.quantity + quantity) * MICRO) == 0
  {
    WholeProduct(quantity, cost);
    if x.quantity + quantity == 0 {
      assert x.quantity * x.cost + quantity * cost == quantity * (cost - x.cost);
      if cost != x.cost { assert quantity * (cost - x.cost) != 0; }
    }
  }

  /** What one step needs for the match to hold after it. */
  predicate StepFits(s: Stock, op: Op) {
    match op
    case TakeIn(p, quantity, cost) => Step(s, op).1 == Done ==> Fits(s.products[p], quantity, cost)
    case Credit(amount) => amount == 0
    case _ => true
  }

  lemma {:induction false} TakeInKeepsMatchIff(s: Stock, p: nat, quantity: int, cost: nat)
    requires Matched(s) && Step(s, TakeIn(p, quantity, cost)).1 == Done
    ensures Matched(Step(s, TakeIn(p, quantity, cost)).0) <==> Fits(s.products[p], quantity, cost)
  {
    var after, x := Step(s, TakeIn(p, quantity, cost)).0, s.products[p];
    StepDrifts(s, TakeIn(p, quantity, cost));
    FitsIff(x, quantity, cost);
    assert after.products[p].cost == NewAverage(x, quantity, cost);
    assert forall i :: 0 <= i < |s.products| && i != p ==> after.products[i] == s.products[i];
  }

  /** From a state that matches, a step leads to another if and only if it fits: a receipt by the stock it
      meets, a credit note by being for nothing. */
  lemma {:induction false} StepKeepsMatchIff(s: Stock, op: Op)
    requires Matched(s)
    ensures Matched(Step(s, op).0) <==> StepFits(s, op)
  {
    match op
    case TakeIn(p, quantity, cost) => if Step(s, op).1 == Done { TakeInKeepsMatchIff(s, p, quantity, cost); }
    case Credit(_) =>
    case _ => MovementKeepsMatch(s, op);
  }

  predicate AllFit(s: Stock, ops: seq<Op>)
    decreases |ops|
  {
    ops == [] || (StepFits(s, ops[0]) && AllFit(Step(s, ops[0]).0, ops[1..]))
  }

  /** At every point of the run, whatever would then go out or be found, the reconciliation matches. */
  ghost predicate MatchesThroughout(s: Stock, ops: seq<Op>)
    decreases |ops|
  {
    EveryMovementMatches(s) && (ops == [] || MatchesThroughout(Step(s, ops[0]).0, ops[1..]))
  }

  lemma {:induction false} StepStaysAllowed(s: Stock, op: Op)
    requires StockAllowed(s)
    ensures StockAllowed(Step(s, op).0)
  {
  }

  lemma {:induction false} MatchesThroughoutIff(s: Stock, ops: seq<Op>)
    requires Matched(s) && s.balance % MICRO == 0 && StockAllowed(s) && LedgerAmounts(ops)
    ensures MatchesThroughout(s, ops) <==> AllFit(s, ops)
    decreases |ops|
  {
    EveryMovementMatchesIff(s);
    if ops != [] {
      var next := Step(s, ops[0]).0;
      StepKeepsMatchIff(s, ops[0]);
      StepStaysWhole(s, ops[0]);
      StepStaysAllowed(s, ops[0]);
      EveryMovementMatchesIff(next);
      assert forall j :: 0 <= j < |ops[1..]| ==> ops[1..][j] == ops[j + 1];
      if Matched(next) { MatchesThroughoutIff(next, ops[1..]); }
    }
  }

  /** Over every run from products without stock, whatever their receipts cost: the reconciliation matches at
      every point of it, and would after any movements from there, if and only if each accepted receipt fits
      the stock it meets and no credit note is for returned goods. */
  lemma {:induction false} AlwaysMatchesIff(products: seq<Product>, ops: seq<Op>)
    requires forall p :: 0 <= p < |products| ==> products[p].quantity == 0 && products[p].cost % MICRO == 0
    requires LedgerAmounts(ops)
    ensures MatchesThroughout(Opened(products), ops) <==> AllFit(Opened(products), ops)
  {
    SumZero(products, Value);
    MatchesThroughoutIff(Opened(products), ops);
  }

  // ---- How far rounding alone can take it -------------------------------------------------------------------

  /** Leaves nothing to carry what was pooled, or takes value without goods. */
  predicate Strands(s: Stock, op: Op) {
    op.Credit? || (op.TakeIn? && op.p < |s.products| && s.products[op.p].quantity + op.quantity == 0)
  }

  predicate NeverStrands(s: Stock, ops: seq<Op>)
    decreases |ops|
  {
    ops == [] || (!Strands(s, ops[0]) && NeverStrands(Step(s, ops[0]).0, ops[1..]))
  }

  /** Twice what one step may drift: a ledger unit for its amount, and a millionth for each unit that a new
      average is spread over. */
  function Slack(s: Stock, op: Op): int {
    if op.Credit? then 0
    else MICRO + if op.TakeIn? && op.p < |s.products| then Abs(s.products[op.p].quantity + op.quantity) else 0
  }

  function TotalSlack(s: Stock, ops: seq<Op>): int
    decreases |ops|
  {
    if ops == [] then 0 else Slack(s, ops[0]) + TotalSlack(Step(s, ops[0]).0, ops[1..])
  }

  lemma {:induction false} DriftNear(s: Stock, op: Op)
    requires !Strands(s, op)
    ensures -Slack(s, op) <= 2 * Drift(s, op) <= Slack(s, op)
  {
    if Step(s, op).1 == Done {
      match op
      case Issue(p, quantity) => LedgerRounding(quantity * s.products[p].cost);
      case Found(p, quantity) => LedgerRounding(quantity * s.products[p].cost);
      case TakeIn(p, quantity, cost) =>
        LedgerRounding(quantity * cost);
        RoundDivNear(Pooled(s.products[p], quantity, cost), s.products[p].quantity + quantity);
      case Credit(_) =>
    }
  }

  /** Over every run without credit notes in which no receipt meets stock of just minus its quantity, the two
      part by half a ledger unit at most for each amount, and half a millionth for each unit in stock at each
      receipt: the drift grows with the stock, not with the number of receipts alone. */
  lemma {:induction false} DriftBounded(s: Stock, ops: seq<Op>)
    requires NeverStrands(s, ops)
    ensures -TotalSlack(s, ops) <= 2 * TotalDrift(s, ops) <= TotalSlack(s, ops)
    decreases |ops|
  {
    if ops != [] {
      DriftNear(s, ops[0]);
      DriftBounded(Step(s, ops[0]).0, ops[1..]);
    }
  }

  /** The step rounds nothing: whole amounts, and an average that comes out even. */
  predicate Even(s: Stock, op: Op) {
    match op
    case Issue(p, quantity) => p < |s.products| ==> s.products[p].cost % MICRO == 0
    case Found(p, quantity) => p < |s.products| ==> s.products[p].cost % MICRO == 0
    case TakeIn(p, quantity, cost) =>
      cost % MICRO == 0
      && (p < |s.products| && s.products[p].quantity + quantity != 0 ==>
            Pooled(s.products[p], quantity, cost) % (s.products[p].quantity + quantity) == 0)
    case Credit(_) => true
  }

  predicate AllEven(s: Stock, ops: seq<Op>)
    decreases |ops|
  {
    ops == [] || (Even(s, ops[0]) && AllEven(Step(s, ops[0]).0, ops[1..]))
  }

  lemma {:induction false} EvenAverage(x: Product, quantity: int, cost: nat)
    requires x.quantity + quantity != 0 && Pooled(x, quantity, cost) % (x.quantity + quantity) == 0
    ensures (x.quantity + quantity) * NewAverage(x, quantity, cost) == Pooled(x, quantity, cost)
  {
    EvenQuotient(Pooled(x, quantity, cost), x.quantity + quantity);
  }

  /** The account is the valuation to the last digit while costs have at most three decimals, averages come
      out even and nothing is stranded. */
  lemma {:induction false} EvenRunsMatch(s: Stock, ops: seq<Op>)
    requires NeverStrands(s, ops) && AllEven(s, ops)
    ensures TotalDrift(s, ops) == 0
    decreases |ops|
  {
    if ops != [] {
      var op := ops[0];
      match op {
        case Issue(p, quantity) => if p < |s.products| { WholeProduct(quantity, s.products[p].cost); }
        case Found(p, quantity) => if p < |s.products| { WholeProduct(quantity, s.products[p].cost); }
        case TakeIn(p, quantity, cost) =>
          WholeProduct(quantity, cost);
          if p < |s.products| { EvenAverage(s.products[p], quantity, cost); }
        case Credit(_) =>
      }
      assert Drift(s, op) == 0;
      EvenRunsMatch(Step(s, op).0, ops[1..]);
    }
  }

  // ---- The failing runs -------------------------------------------------------------------------------------

  lemma {:induction false} TwoTakeIns(x: Product, a: Op, b: Op)
    ensures Run(Opened([x]), [a, b]) == Step(Step(Opened([x]), a).0, b).0
  {
    assert [a, b][1..] == [b] && [b][1..] == [];
    assert Run(Step(Opened([x]), a).0, [b]) == Run(Step(Step(Opened([x]), a).0, b).0, []);
  }

  lemma {:induction false} OneProduct(x: Product, balance: int)
    ensures Valuation(Stock([x], balance)) == x.quantity * x.cost
  {
    SumOne(x, Value);
  }

  /** Seven units at 10 and five at 20 average to 14.166667, and twelve of those are four millionths more than
      was paid. */
  lemma {:induction false} AverageDrifts()
    ensures var s := Run(Opened([Product(0, 0, false)]), [TakeIn(0, 7_000, 10_000_000), TakeIn(0, 5_000, 20_000_000)]);
            s == Stock([Product(12_000, 14_166_667, false)], 170_000_000_000) && Discrepancy(s) == -4 * MICRO
  {
    var a, b := TakeIn(0, 7_000, 10_000_000), TakeIn(0, 5_000, 20_000_000);
    var s1 := Stock([Product(7_000, 10_000_000, false)], 70_000_000_000);
    TwoTakeIns(Product(0, 0, false), a, b);
    assert NewAverage(Product(0, 0, false), 7_000, 10_000_000) == 10_000_000;
    assert Step(Opened([Product(0, 0, false)]), a).0 == s1;
    assert NewAverage(s1.products[0], 5_000, 20_000_000) == 14_166_667;
    OneProduct(Product(12_000, 14_166_667, false), 170_000_000_000);
  }

  /** One unit at 10 received, six sold, five received at 12: nothing is in stock and ten is left on the
      account, far beyond any rounding. */
  lemma {:induction false} ZeroStockStrandsValue()
    ensures var s := Run(Opened([Product(0, 0, true)]),
                         [TakeIn(0, 1_000, 10_000_000), Issue(0, 6_000), TakeIn(0, 5_000, 12_000_000)]);
            s.products == [Product(0, 12_000_000, true)] && Valuation(s) == 0 && Discrepancy(s) == 10_000_000_000
  {
    var ops := [TakeIn(0, 1_000, 10_000_000), Issue(0, 6_000), TakeIn(0, 5_000, 12_000_000)];
    var s1 := Stock([Product(1_000, 10_000_000, true)], 10_000_000_000);
    var s2 := Stock([Product(-5_000, 10_000_000, true)], -50_000_000_000);
    var s3 := Stock([Product(0, 12_000_000, true)], 10_000_000_000);
    assert NewAverage(Product(0, 0, true), 1_000, 10_000_000) == 10_000_000;
    assert Step(Opened([Product(0, 0, true)]), ops[0]).0 == s1;
    assert Step(s1, ops[1]).0 == s2;
    assert Step(s2, ops[2]).0 == s3;
    assert ops[1..][0] == ops[1] && ops[1..][1..] == [ops[2]] && [ops[2]][1..] == [];
    assert Run(s1, ops[1..]) == Run(s2, [ops[2]]) == Run(s3, []);
    OneProduct(Product(0, 12_000_000, true), 10_000_000_000);
  }

  /** A credit note for returned goods takes its amount off the account a second time: the return itself has
      taken the goods and their cost. */
  lemma {:induction false} CreditNoteCountsTwice(s: Stock, amount: int)
    requires amount % MICRO == 0
    ensures Discrepancy(Step(s, Credit(amount)).0) == Discrepancy(s) - amount
  {
  }

  // ---- The service --------------------------------------------------------------------------------------------

  class StoreStock {
    var products: seq<Product>
    var balance: int

    ghost function Now(): Stock
      reads this
    {
      Stock(products, balance)
    }

    constructor (products: seq<Product>)
      ensures Now() == Opened(products)
    {
      this.products, balance := products, 0;
    }

    /** Appends one movement: the quantity always moves, the cost only when a new one is given. */
    method RecordMovement(p: nat, quantity: int, delta: int, newCost: int, amount: int) returns (o: Outcome)
      requires p < |products| ==> newCost >= 0
      requires delta == quantity || delta == -quantity
      modifies this
      ensures o == Check(old(Now()), p, quantity, delta)
      ensures Now() == if o == Done then Move(old(Now()), p, delta, newCost, amount) else old(Now())
    {
      if quantity <= 0 { return Rejected(INVALID_QUANTITY); }
      if p >= |products| { return Rejected(NOT_FOUND); }
      var x := products[p];
      if x.quantity + delta < 0 && !x.negativeAllowed { return Rejected(INSUFFICIENT_STOCK); }
      products := products[p := x.(quantity := x.quantity + delta, cost := newCost)];
      balance := balance + amount;
      o := Done;
    }

    method TakeInGoods(p: nat, quantity: int, cost: nat) returns (o: Outcome)
      modifies this
      ensures (Now(), o) == Step(old(Now()), TakeIn(p, quantity, cost))
    {
      if quantity <= 0 { return Rejected(INVALID_QUANTITY); }
      if p >= |products| { return Rejected(NOT_FOUND); }
      var x := products[p];
      if x.quantity + quantity < 0 && !x.negativeAllowed { return Rejected(INSUFFICIENT_STOCK); }
      var total := x.quantity + quantity;
      var average := if total == 0 then cost else RoundDiv(x.quantity * x.cost + quantity * cost, total);
      if average < 0 { return Rejected(NEGATIVE_COST); }
      o := RecordMovement(p, quantity, quantity, average, Round(quantity * cost, MICRO));
    }

    method IssueGoods(p: nat, quantity: int) returns (o: Outcome)
      modifies this
      ensures (Now(), o) == Step(old(Now()), Issue(p, quantity))
    {
      var cost := if p < |products| then products[p].cost else 0;
      o := RecordMovement(p, quantity, -quantity, cost, -Round(quantity * cost, MICRO));
    }

    /** The report: the products' quantities at their costs, rounded once. */
    method Reconcile() returns (discrepancy: int)
      ensures discrepancy == Discrepancy(Now())
    {
      var total := 0;
      for p := 0 to |products|
        invariant total == Sum(products[..p], Value)
      {
        assert products[..p + 1] == products[..p] + [products[p]];
        SumAppend(products[..p], products[p], Value);
        total := total + products[p].quantity * products[p].cost;
      }
      assert products[..|products|] == products;
      discrepancy := balance - Round(total, MICRO);
    }
  }
}
