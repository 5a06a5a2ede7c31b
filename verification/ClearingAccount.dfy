/** The Purchase Clearing account over whole runs: credited by receipts, debited by invoice postings and
    purchase returns, credited back by voids, each amount rounded to the ledger's precision; and the
    reconciliation of its balance with the FIFO price of the units not yet invoiced.

    Quantities are thousandths and costs millionths, so values are billionths. */
module ClearingAccount {
  import opened Sums
  import opened Rounding
  import opened FifoMatching
  import Matching = ReceiptMatching

  /** One line of a posted purchase return; `key` stands for a purchase order and a product of it. */
  datatype Return = Return(key: nat, quantity: nat, unitCost: nat)

  /** `keys` says of each purchase order item which order and product it is of; `roundings` counts the
      amounts that were rounded into the balance. */
  datatype State = State(book: Matching.Book, keys: seq<nat>, sentBack: seq<Return>, balance: int, roundings: nat)

  datatype Error = EMPTY_RETURN | INVALID_QUANTITY | RETURN_EXCEEDS_RECEIVED_QUANTITY | INSUFFICIENT_STOCK

  datatype Outcome = Done | Rejected(error: Error)

  // ---- Measures ----------------------------------------------------------------------------------

  function LiveCost(invoices: seq<Matching.Invoice>): Matching.Match -> int {
    (m: Matching.Match) => if Matching.Live(invoices, m) then m.quantity * m.unitCost else 0
  }

  function CostFor(invoice: nat): Matching.Match -> int {
    (m: Matching.Match) => if m.invoice == invoice then m.quantity * m.unitCost else 0
  }

  /** What live invoices hold of an item, at the cost their match rows carry. */
  function LiveWorth(invoices: seq<Matching.Invoice>): Matching.Item -> int {
    (x: Matching.Item) => Sum(x.matches, LiveCost(invoices))
  }

  function HeldWorth(invoice: nat): Matching.Item -> int {
    (x: Matching.Item) => Sum(x.matches, CostFor(invoice))
  }

  /** The cost of one invoice's match rows: what it takes out of clearing, before rounding. */
  function InvoiceCost(items: seq<Matching.Item>, invoice: nat): int {
    Sum(items, HeldWorth(invoice))
  }

  function ReceivedValue(x: Matching.Item): int {
    Sum(x.lots, LotWorth)
  }

  function ReturnWorth(r: Return): int {
    r.quantity * r.unitCost
  }

  function ReturnValue(r: Return): int {
    Round(r.quantity * r.unitCost, MICRO)
  }

  function ReturnedOf(key: nat): Return -> int {
    (r: Return) => if r.key == key then r.quantity else 0
  }

  /** Units received of one product of one order, over all items that are of it. */
  function ReceivedOf(items: seq<Matching.Item>, keys: seq<nat>, key: nat): nat
    requires |items| == |keys|
  {
    if items == [] then 0
    else ReceivedOf(items[1..], keys[1..], key) + if keys[0] == key then Received(items[0].lots) else 0
  }

  // ---- Steps -------------------------------------------------------------------------------------

  /** One step of the matching book, and what it posts to Purchase Clearing. */
  function BookStep(s: State, op: Matching.Op): State {
    var after := Matching.Apply(s.book, op);
    match op
    case OpReceive(item, quantity, unitCost) =>
      if Matching.Receive(s.book, item, quantity, unitCost).1 != Matching.Done then s
      else s.(book := after, balance := s.balance + Round(quantity * unitCost, MICRO), roundings := s.roundings + 1)
    case OpCreate(_) => s.(book := after)
    case OpPost(v) =>
      if Matching.Post(s.book, v).1 != Matching.Done then s
      else s.(book := after, balance := s.balance - Round(InvoiceCost(after.items, v), MICRO),
        roundings := s.roundings + 1)
    case OpVoid(v, settled) =>
      if Matching.Void(s.book, v, settled).1 != Matching.Done || s.book.invoices[v].status != Matching.POSTED
      then s.(book := after)
      else s.(book := after, balance := s.balance + Round(InvoiceCost(s.book.items, v), MICRO),
        roundings := s.roundings + 1)
  }

  predicate Returnable(s: State, lines: seq<Return>)
    requires |s.keys| == |s.book.items|
  {
    forall j :: 0 <= j < |lines| ==>
      Sum(s.sentBack, ReturnedOf(lines[j].key)) + Sum(lines, ReturnedOf(lines[j].key))
      <= ReceivedOf(s.book.items, s.keys, lines[j].key)
  }

  predicate InStock(lines: seq<Return>, onHand: nat -> int) {
    forall j :: 0 <= j < |lines| ==> Sum(lines, ReturnedOf(lines[j].key)) <= onHand(lines[j].key)
  }

  function ReturnCheck(s: State, lines: seq<Return>, onHand: nat -> int): Outcome
    requires |s.keys| == |s.book.items|
  {
    if lines == [] then Rejected(EMPTY_RETURN)
    else if exists j :: 0 <= j < |lines| && lines[j].quantity == 0 then Rejected(INVALID_QUANTITY)
    else if !Returnable(s, lines) then Rejected(RETURN_EXCEEDS_RECEIVED_QUANTITY)
    else if !InStock(lines, onHand) then Rejected(INSUFFICIENT_STOCK)
    else Done
  }

  /** Goods sent back: each line carries its product's cost of the moment, and `onHand` is what each
      product has in stock. */
  function ReturnGoods(s: State, lines: seq<Return>, onHand: nat -> int): (State, Outcome)
    requires |s.keys| == |s.book.items|
  {
    if ReturnCheck(s, lines, onHand) != Done then (s, ReturnCheck(s, lines, onHand))
    else (s.(sentBack := s.sentBack + lines, balance := s.balance - Sum(lines, ReturnValue),
             roundings := s.roundings + |lines|), Done)
  }

  datatype Op = OnBook(step: Matching.Op) | OpReturn(lines: seq<Return>, onHand: nat -> int)

  lemma {:induction false} ApplyKeepsItems(b: Matching.Book, op: Matching.Op)
    ensures |Matching.Apply(b, op).items| == |b.items|
  {
  }

  function Apply(s: State, op: Op): (after: State)
    requires |s.keys| == |s.book.items|
    ensures |after.keys| == |after.book.items| && after.keys == s.keys
  {
    match op
    case OnBook(step) => ApplyKeepsItems(s.book, step); BookStep(s, step)
    case OpReturn(lines, onHand) => ReturnGoods(s, lines, onHand).0
  }

  function Run(s: State, ops: seq<Op>): (after: State)
    requires |s.keys| == |s.book.items|
    ensures |after.keys| == |after.book.items| && after.keys == s.keys
    decreases |ops|
  {
    if ops == [] then s else Run(Apply(s, ops[0]), ops[1..])
  }

  function Opened(keys: seq<nat>): (s: State)
    ensures |s.keys| == |s.book.items|
  {
    State(Matching.Opened(|keys|), keys, [], 0, 0)
  }

  // ---- What each operation admits and does --------------------------------------------------------

  /** What was received of a product of an order counts every item of it, and no other. */
  lemma {:induction false} ReceivedOfOneMore(items: seq<Matching.Item>, keys: seq<nat>, x: Matching.Item, k: nat,
      key: nat)
    requires |items| == |keys|
    ensures ReceivedOf([], [], key) == 0
    ensures ReceivedOf(items + [x], keys + [k], key)
            == ReceivedOf(items, keys, key) + if k == key then Sum(x.lots, (l: Lot) => l.quantity) else 0
  {
    if items == [] {
      assert [] + [x] == [x] && keys + [k] == [k];
      UnitsInLots(x.lots, |x.lots|);
      assert x.lots[..|x.lots|] == x.lots;
    } else {
      assert (items + [x])[1..] == items[1..] + [x] && (keys + [k])[1..] == keys[1..] + [k];
      ReceivedOfOneMore(items[1..], keys[1..], x, k, key);
    }
  }

  function UnitsOf(key: nat): Return -> int {
    (r: Return) => if r.key == key then r.quantity else 0
  }

  /** Goods go back if and only if there are lines, each of a positive quantity, no product goes back beyond
      what its order received of it and has not had back yet, and every product has them in stock.  The
      account then gives up each line's value, rounded on its own. */
  lemma {:induction false} ReturnDoneIff(s: State, lines: seq<Return>, onHand: nat -> int)
    requires |s.keys| == |s.book.items|
    ensures var (after, o) := ReturnGoods(s, lines, onHand);
            && (o == Done <==>
                  && lines != [] && (forall j :: 0 <= j < |lines| ==> lines[j].quantity > 0)
                  && (forall j :: 0 <= j < |lines| ==>
                        && Sum(s.sentBack, UnitsOf(lines[j].key)) + Sum(lines, UnitsOf(lines[j].key))
                           <= ReceivedOf(s.book.items, s.keys, lines[j].key)
                        && Sum(lines, UnitsOf(lines[j].key)) <= onHand(lines[j].key)))
            && (o != Done ==>
                  o == Rejected(if lines == [] then EMPTY_RETURN
                                else if exists j :: 0 <= j < |lines| && lines[j].quantity == 0 then INVALID_QUANTITY
                                else if exists j :: 0 <= j < |lines|
                                                    && Sum(s.sentBack, UnitsOf(lines[j].key))
                                                       + Sum(lines, UnitsOf(lines[j].key))
                                                       > ReceivedOf(s.book.items, s.keys, lines[j].key)
                                then RETURN_EXCEEDS_RECEIVED_QUANTITY
                                else INSUFFICIENT_STOCK))
            && (o != Done ==> after == s)
            && (o == Done ==>
                  && after.sentBack == s.sentBack + lines && after.book == s.book && after.keys == s.keys
                  && after.balance == s.balance - Sum(lines, (r: Return) => Round(r.quantity * r.unitCost, MICRO)))
  {
    forall k: nat
      ensures Sum(s.sentBack, ReturnedOf(k)) == Sum(s.sentBack, UnitsOf(k))
      ensures Sum(lines, ReturnedOf(k)) == Sum(lines, UnitsOf(k))
    {
      SumSame(s.sentBack, s.sentBack, ReturnedOf(k), UnitsOf(k));
      SumSame(lines, lines, ReturnedOf(k), UnitsOf(k));
    }
    SumSame(lines, lines, ReturnValue, (r: Return) => Round(r.quantity * r.unitCost, MICRO));
  }

  /** What each step of the matching book puts on the account: a receipt its own value, a posting what the rows
      of its invoice cost, a void the same again, all rounded once; a draft nothing. */
  lemma {:induction false} BookStepEffect(s: State, op: Matching.Op)
    ensures var after, b := BookStep(s, op), Matching.Apply(s.book, op);
            && after.book == b && after.keys == s.keys && after.sentBack == s.sentBack
            && after.balance - s.balance ==
               match op
               case OpReceive(item, quantity, unitCost) =>
                 if item < |s.book.items| && quantity > 0 then Round(quantity * unitCost, MICRO) else 0
               case OpCreate(_) => 0
               case OpPost(v) =>
                 if Matching.Post(s.book, v).1 == Matching.Done then -Round(RowsCost(b.items, v), MICRO) else 0
               case OpVoid(v, settled) =>
                 if v < |s.book.invoices| && s.book.invoices[v].status == Matching.POSTED && !settled
                 then Round(RowsCost(s.book.items, v), MICRO) else 0
  {
    if op.OpPost? { RowsCostIs(Matching.Apply(s.book, op).items, op.invoice); }
    if op.OpVoid? { RowsCostIs(s.book.items, op.invoice); }
  }

  /** The match rows of one invoice at the costs they carry, item by item. */
  function RowsCost(items: seq<Matching.Item>, v: nat): int {
    if items == [] then 0
    else Sum(items[0].matches, (m: Matching.Match) => if m.invoice == v then m.quantity * m.unitCost else 0)
         + RowsCost(items[1..], v)
  }

  lemma {:induction false} RowsCostIs(items: seq<Matching.Item>, v: nat)
    ensures InvoiceCost(items, v) == RowsCost(items, v)
  {
    if items != [] {
      RowsCostIs(items[1..], v);
      SumSame(items[0].matches, items[0].matches, CostFor(v),
        (m: Matching.Match) => if m.invoice == v then m.quantity * m.unitCost else 0);
    }
  }

  // ---- The balance over every run ------------------------------------------------------------------

  /** What the account should hold: receipts, less what live invoices hold, less what was sent back. */
  function ExactValue(s: State): int {
    Sum(s.book.items, ReceivedValue) - Sum(s.book.items, LiveWorth(s.book.invoices)) - Sum(s.sentBack, ReturnWorth)
  }

  ghost predicate AccountNear(s: State) {
    -(MICRO * s.roundings) <= 2 * (s.balance - ExactValue(s)) <= MICRO * s.roundings
  }

  /** One step moves the balance away from the exact value by half a ledger unit at most for each amount
      it rounds. */
  ghost predicate Drifts(s: State, after: State) {
    var off, roundings :=
        (after.balance - ExactValue(after)) - (s.balance - ExactValue(s)), after.roundings - s.roundings;
    0 <= roundings && -(MICRO * roundings) <= 2 * off <= MICRO * roundings
  }

  lemma {:induction false} ReceiveMoves(b: Matching.Book, item: nat, quantity: nat, unitCost: nat)
    requires Matching.Receive(b, item, quantity, unitCost).1 == Matching.Done
    ensures var after := Matching.Receive(b, item, quantity, unitCost).0;
            && Sum(after.items, ReceivedValue) == Sum(b.items, ReceivedValue) + quantity * unitCost
            && Sum(after.items, LiveWorth(after.invoices)) == Sum(b.items, LiveWorth(b.invoices))
  {
    var x, lot := b.items[item], Lot(quantity, unitCost);
    SumAppend(x.lots, lot, LotWorth);
    SumUpdate(b.items, item, x.(lots := x.lots + [lot]), ReceivedValue);
    SumUpdate(b.items, item, x.(lots := x.lots + [lot]), LiveWorth(b.invoices));
  }

  lemma {:induction false} CreateMoves(b: Matching.Book, lines: seq<Matching.Line>)
    ensures var after := Matching.Create(b, lines).0;
            Sum(after.items, LiveWorth(after.invoices)) == Sum(b.items, LiveWorth(b.invoices))
  {
    var after := Matching.Create(b, lines).0;
    forall i | 0 <= i < |b.items| ensures LiveWorth(after.invoices)(b.items[i]) == LiveWorth(b.invoices)(b.items[i]) {
      SumSame(b.items[i].matches, b.items[i].matches, LiveCost(after.invoices), LiveCost(b.invoices));
    }
    SumSame(after.items, b.items, LiveWorth(after.invoices), LiveWorth(b.invoices));
  }

  /** Posting an invoice makes its own rows live, and no others. */
  lemma {:induction false} PostMovesItem(b: Matching.Book, v: nat, i: nat)
    requires Matching.Post(b, v).1 == Matching.Done && i < |b.items|
    ensures var after := Matching.Post(b, v).0;
            && |after.items| == |b.items| && after.items[i].lots == b.items[i].lots
            && LiveWorth(after.invoices)(after.items[i])
               == LiveWorth(b.invoices)(b.items[i]) + HeldWorth(v)(after.items[i])
  {
    var after, lines := Matching.Post(b, v).0, b.invoices[v].lines;
    Matching.PostLinesShape(b.items, v, lines, |lines|, i);
    var before, rows := b.items[i].matches, after.items[i].matches;
    assert rows == before + rows[|before|..];
    SumConcat(before, rows[|before|..], LiveCost(b.invoices));
    SumZero(rows[|before|..], LiveCost(b.invoices));
    SumAdd(rows, LiveCost(after.invoices), LiveCost(b.invoices), CostFor(v));
  }

  lemma {:induction false} PostMoves(b: Matching.Book, v: nat)
    requires Matching.Post(b, v).1 == Matching.Done
    ensures var after := Matching.Post(b, v).0;
            && Sum(after.items, ReceivedValue) == Sum(b.items, ReceivedValue)
            && Sum(after.items, LiveWorth(after.invoices))
                 == Sum(b.items, LiveWorth(b.invoices)) + InvoiceCost(after.items, v)
  {
    var after := Matching.Post(b, v).0;
    forall i: nat | i < |b.items|
      ensures after.items[i].lots == b.items[i].lots
      ensures Values(after.items, LiveWorth(after.invoices))[i]
              == Values(b.items, LiveWorth(b.invoices))[i] + Values(after.items, HeldWorth(v))[i]
    {
      PostMovesItem(b, v, i);
    }
    SumSame(after.items, b.items, ReceivedValue, ReceivedValue);
    SumPairwise(Values(b.items, LiveWorth(b.invoices)), Values(after.items, HeldWorth(v)),
      Values(after.items, LiveWorth(after.invoices)));
    ValuesSum(b.items, LiveWorth(b.invoices));
    ValuesSum(after.items, HeldWorth(v));
    ValuesSum(after.items, LiveWorth(after.invoices));
  }

  lemma {:induction false} VoidMovesItem(b: Matching.Book, v: nat, settled: bool, i: nat)
    requires Matching.Void(b, v, settled).1 == Matching.Done && i < |b.items|
    ensures var after, posted := Matching.Void(b, v, settled).0, b.invoices[v].status == Matching.POSTED;
            && |after.items| == |b.items| && after.items[i].lots == b.items[i].lots
            && LiveWorth(b.invoices)(b.items[i])
               == LiveWorth(after.invoices)(after.items[i]) + if posted then HeldWorth(v)(b.items[i]) else 0
  {
    var after := Matching.Void(b, v, settled).0;
    var rows := b.items[i].matches;
    if b.invoices[v].status == Matching.POSTED {
      SumAdd(rows, LiveCost(b.invoices), LiveCost(after.invoices), CostFor(v));
    } else {
      SumSame(rows, rows, LiveCost(b.invoices), LiveCost(after.invoices));
    }
  }

  lemma {:induction false} VoidMoves(b: Matching.Book, v: nat, settled: bool)
    requires Matching.Void(b, v, settled).1 == Matching.Done
    ensures var after, posted := Matching.Void(b, v, settled).0, b.invoices[v].status == Matching.POSTED;
            && Sum(after.items, ReceivedValue) == Sum(b.items, ReceivedValue)
            && Sum(b.items, LiveWorth(b.invoices))
               == Sum(after.items, LiveWorth(after.invoices)) + if posted then InvoiceCost(b.items, v) else 0
  {
    var after, posted := Matching.Void(b, v, settled).0, b.invoices[v].status == Matching.POSTED;
    var held := (x: Matching.Item) => if posted then HeldWorth(v)(x) else 0;
    forall i: nat | i < |b.items|
      ensures after.items[i].lots == b.items[i].lots
      ensures Values(b.items, LiveWorth(b.invoices))[i]
              == Values(after.items, LiveWorth(after.invoices))[i] + Values(b.items, held)[i]
    {
      VoidMovesItem(b, v, settled, i);
    }
    SumSame(after.items, b.items, ReceivedValue, ReceivedValue);
    SumPairwise(Values(after.items, LiveWorth(after.invoices)), Values(b.items, held),
      Values(b.items, LiveWorth(b.invoices)));
    ValuesSum(b.items, held);
    ValuesSum(b.items, LiveWorth(b.invoices));
    ValuesSum(after.items, LiveWorth(after.invoices));
    if posted { SumSame(b.items, b.items, held, HeldWorth(v)); } else { SumZero(b.items, held); }
  }

  lemma {:induction false} ReturnsRounded(lines: seq<Return>)
    ensures var off := Sum(lines, ReturnValue) - Sum(lines, ReturnWorth);
            -(MICRO * |lines|) <= 2 * off <= MICRO * |lines|
  {
    if lines != [] {
      ReturnsRounded(lines[1..]);
      LedgerRounding(lines[0].quantity * lines[0].unitCost);
    }
  }

  lemma {:induction false} StepDrifts(s: State, op: Op)
    requires |s.keys| == |s.book.items|
    ensures Drifts(s, Apply(s, op))
  {
    match op
    case OnBook(step) => BookStepDrifts(s, step);
    case OpReturn(lines, onHand) =>
      ReturnsRounded(lines);
      SumConcat(s.sentBack, lines, ReturnWorth);
  }

  lemma {:induction false} BookStepDrifts(s: State, op: Matching.Op)
    requires |s.keys| == |s.book.items|
    ensures Drifts(s, BookStep(s, op))
  {
    var b := s.book;
    match op
    case OpReceive(item, quantity, unitCost) =>
      LedgerRounding(quantity * unitCost);
      if Matching.Receive(b, item, quantity, unitCost).1 == Matching.Done { ReceiveMoves(b, item, quantity, unitCost); }
    case OpCreate(lines) => CreateMoves(b, lines);
    case OpPost(v) =>
      if Matching.Post(b, v).1 == Matching.Done {
        PostMoves(b, v);
        LedgerRounding(InvoiceCost(Matching.Post(b, v).0.items, v));
      }
    case OpVoid(v, settled) =>
      if Matching.Void(b, v, settled).1 == Matching.Done {
        VoidMoves(b, v, settled);
        LedgerRounding(InvoiceCost(b.items, v));
      }
  }

  /** Over every interleaving of receipts, drafts, postings, voids and purchase returns, the account holds
      receipts less live matches less returned goods, to within half a ledger unit for each amount that
      was rounded into it. */
  lemma {:induction false} RunAccountNear(s: State, ops: seq<Op>)
    requires |s.keys| == |s.book.items| && AccountNear(s)
    ensures AccountNear(Run(s, ops))
    decreases |ops|
  {
    if ops != [] {
      StepDrifts(s, ops[0]);
      RunAccountNear(Apply(s, ops[0]), ops[1..]);
    }
  }

  lemma {:induction false} OpenedNear(keys: seq<nat>)
    ensures AccountNear(Opened(keys)) && Invariant(Opened(keys))
    ensures Opened(keys).balance == 0 && Opened(keys).roundings == 0
  {
    var items := Opened(keys).book.items;
    SumZero(items, ReceivedValue);
    SumZero(items, LiveWorth([]));
    Matching.OpenedConsistent(|keys|);
    forall k: nat ensures Sum(Opened(keys).sentBack, ReturnedOf(k)) <= ReceivedOf(items, keys, k) { }
  }

  // ---- Quantities and costs over every run -----------------------------------------------------------

  /** Every match row carries the cost of the lot it draws from. */
  ghost predicate CostedByLot(x: Matching.Item) {
    forall j :: 0 <= j < |x.matches| ==>
      x.matches[j].lot < |x.lots| && x.matches[j].unitCost == x.lots[x.matches[j].lot].unitCost
  }

  ghost predicate AllCostedByLot(items: seq<Matching.Item>) {
    forall i :: 0 <= i < |items| ==> CostedByLot(items[i])
  }

  /** No product of an order is sent back beyond what that order received of it. */
  ghost predicate ReturnsCovered(s: State)
    requires |s.keys| == |s.book.items|
  {
    forall key: nat :: Sum(s.sentBack, ReturnedOf(key)) <= ReceivedOf(s.book.items, s.keys, key)
  }

  ghost predicate Invariant(s: State) {
    && |s.keys| == |s.book.items|
    && Matching.Consistent(s.book) && AllCostedByLot(s.book.items) && ReturnsCovered(s)
    && (forall j :: 0 <= j < |s.sentBack| ==> s.sentBack[j].quantity > 0)
  }

  lemma {:induction false} PostLinesCosted(items: seq<Matching.Item>, invoice: nat, lines: seq<Matching.Line>, n: nat,
      i: nat)
    requires n <= |lines| && Matching.LinesOn(lines, |items|) && i < |items| && CostedByLot(items[i])
    ensures CostedByLot(Matching.PostLines(items, invoice, lines, n)[i])
  {
    if n > 0 {
      PostLinesCosted(items, invoice, lines, n - 1, i);
      var x := Matching.PostLines(items, invoice, lines, n - 1)[i];
      SlicesInReceiptOrder(x.lots, x.invoiced, x.invoiced + lines[n - 1].quantity, |x.lots|);
    }
  }

  lemma {:induction false} ApplyCosted(b: Matching.Book, op: Matching.Op)
    requires AllCostedByLot(b.items)
    ensures AllCostedByLot(Matching.Apply(b, op).items)
  {
    if op.OpPost? && Matching.Post(b, op.invoice).1 == Matching.Done {
      var lines := b.invoices[op.invoice].lines;
      forall i: nat | i < |b.items| ensures CostedByLot(Matching.Apply(b, op).items[i]) {
        PostLinesCosted(b.items, op.invoice, lines, |lines|, i);
      }
    }
  }

  lemma {:induction false} ReceivedOnlyGrows(before: seq<Matching.Item>, items: seq<Matching.Item>, keys: seq<nat>,
      key: nat)
    requires |before| == |items| == |keys|
    requires forall i :: 0 <= i < |items| ==> Received(before[i].lots) <= Received(items[i].lots)
    ensures ReceivedOf(before, keys, key) <= ReceivedOf(items, keys, key)
  {
    if items != [] {
      assert forall i :: 0 <= i < |items[1..]| ==> items[1..][i] == items[i + 1] && before[1..][i] == before[i + 1];
      ReceivedOnlyGrows(before[1..], items[1..], keys[1..], key);
    }
  }

  lemma {:induction false} LotsOnlyGrow(b: Matching.Book, op: Matching.Op, i: nat)
    requires i < |b.items|
    ensures var after := Matching.Apply(b, op);
            |after.items| == |b.items| && Received(b.items[i].lots) <= Received(after.items[i].lots)
  {
    match op
    case OpReceive(item, quantity, unitCost) =>
      StartPrefix(b.items[i].lots, [Lot(quantity, unitCost)], |b.items[i].lots|);
    case OpPost(v) =>
      if Matching.Post(b, v).1 == Matching.Done {
        Matching.PostLinesShape(b.items, v, b.invoices[v].lines, |b.invoices[v].lines|, i);
      }
    case _ =>
  }

  lemma {:induction false} ReturnCovered(s: State, lines: seq<Return>, onHand: nat -> int, key: nat)
    requires Invariant(s) && ReturnGoods(s, lines, onHand).1 == Done
    ensures Sum(s.sentBack + lines, ReturnedOf(key)) <= ReceivedOf(s.book.items, s.keys, key)
  {
    SumConcat(s.sentBack, lines, ReturnedOf(key));
    if j :| 0 <= j < |lines| && lines[j].key == key {
    } else {
      SumZero(lines, ReturnedOf(key));
    }
  }

  lemma {:induction false} ApplyInvariant(s: State, op: Op)
    requires Invariant(s)
    ensures Invariant(Apply(s, op))
  {
    match op
    case OnBook(step) =>
      Matching.ApplyConsistent(s.book, step);
      ApplyCosted(s.book, step);
      var after := Matching.Apply(s.book, step);
      forall i: nat | i < |s.book.items| ensures Received(s.book.items[i].lots) <= Received(after.items[i].lots) {
        LotsOnlyGrow(s.book, step, i);
      }
      forall key: nat ensures Sum(s.sentBack, ReturnedOf(key)) <= ReceivedOf(after.items, s.keys, key) {
        ReceivedOnlyGrows(s.book.items, after.items, s.keys, key);
      }
      assert BookStep(s, step).book == after;
    case OpReturn(lines, onHand) =>
      if ReturnGoods(s, lines, onHand).1 == Done {
        forall key: nat ensures Sum(s.sentBack + lines, ReturnedOf(key)) <= ReceivedOf(s.book.items, s.keys, key) {
          ReturnCovered(s, lines, onHand, key);
        }
      }
  }

  /** Over every run the book stays consistent, match rows carry their lots' costs, and no product is
      sent back beyond what its order received. */
  lemma {:induction false} RunInvariant(s: State, ops: seq<Op>)
    requires Invariant(s)
    ensures Invariant(Run(s, ops))
    decreases |ops|
  {
    if ops != [] {
      ApplyInvariant(s, ops[0]);
      RunInvariant(Apply(s, ops[0]), ops[1..]);
    }
  }

  lemma {:induction false} ReturnKeeps(s: State, lines: seq<Return>, onHand: nat -> int)
    requires Invariant(s) && AccountNear(s)
    ensures Invariant(ReturnGoods(s, lines, onHand).0) && AccountNear(ReturnGoods(s, lines, onHand).0)
  {
    ApplyInvariant(s, OpReturn(lines, onHand));
    StepDrifts(s, OpReturn(lines, onHand));
  }

  // ---- The reconciliation ----------------------------------------------------------------------------

  /** The FIFO price of the units of an item that were received and not invoiced. */
  function Outstanding(x: Matching.Item): int {
    Round(Sum(Slices(x.lots, x.invoiced, Received(x.lots), |x.lots|), SliceCost), MICRO)
  }

  function Youngest(x: Matching.Item): int {
    Worth(SpanVector(x.lots, x.invoiced, Received(x.lots)), LotCosts(x.lots))
  }

  /** The worth of as many of the oldest units as are invoiced. */
  function Oldest(x: Matching.Item): int {
    Worth(SpanVector(x.lots, 0, x.invoiced), LotCosts(x.lots))
  }

  function Reported(s: State): int {
    Sum(s.book.items, Outstanding)
  }

  function Discrepancy(s: State): int {
    s.balance - Reported(s)
  }

  /** How the live matches differ in worth from the oldest units invoiced, less what was sent back. */
  function Unreconciled(s: State): int {
    Sum(s.book.items, Oldest) - Sum(s.book.items, LiveWorth(s.book.invoices)) - Sum(s.sentBack, ReturnWorth)
  }

  lemma {:induction false} ItemWorth(x: Matching.Item)
    requires 0 <= x.invoiced <= Received(x.lots)
    ensures ReceivedValue(x) == Oldest(x) + Youngest(x)
  {
    var zeros := seq(|x.lots|, i => 0);
    ReceivedWorth(x.lots);
    WorthFree(zeros, LotCosts(x.lots));
    ClearingGap(x.lots, zeros, x.invoiced, LotCosts(x.lots));
  }

  lemma {:induction false} WorthNonNegative(units: seq<int>, costs: seq<nat>)
    requires |units| == |costs| && forall k :: 0 <= k < |units| ==> units[k] >= 0
    ensures Worth(units, costs) >= 0
  {
    if units != [] { WorthNonNegative(units[1..], costs[1..]); }
  }

  /** The report prices an item at the worth of its youngest units, rounded half up to the ledger's six decimals. */
  lemma {:induction false} OutstandingIs(x: Matching.Item)
    ensures Outstanding(x) % MICRO == 0
    ensures -MICRO < 2 * (Outstanding(x) - Youngest(x)) <= MICRO
  {
    WorthNonNegative(SpanVector(x.lots, x.invoiced, Received(x.lots)), LotCosts(x.lots));
    AllSlicesWorth(x.lots, x.invoiced, Received(x.lots));
    LedgerRounding(Youngest(x));
  }

  lemma {:induction false} OutstandingNear(items: seq<Matching.Item>)
    ensures -(MICRO * |items|) <= 2 * (Sum(items, Outstanding) - Sum(items, Youngest)) <= MICRO * |items|
  {
    if items != [] {
      var x := items[0];
      OutstandingNear(items[1..]);
      AllSlicesWorth(x.lots, x.invoiced, Received(x.lots));
      LedgerRounding(Youngest(x));
    }
  }

  lemma {:induction false} ExactGap(s: State)
    requires Invariant(s)
    ensures ExactValue(s) - Sum(s.book.items, Youngest) == Unreconciled(s)
  {
    forall i: nat | i < |s.book.items|
      ensures ReceivedValue(s.book.items[i]) == Oldest(s.book.items[i]) + Youngest(s.book.items[i]) {
      assert Matching.ItemConsistent(s.book, i);
      ItemWorth(s.book.items[i]);
    }
    SumAdd(s.book.items, ReceivedValue, Oldest, Youngest);
  }

  /** The discrepancy the reconciliation reports, in every reachable state: the worth of the oldest units
      invoiced less that of the live matches, less the goods sent back, within half a ledger unit for each
      amount that was rounded into the account or into the report. */
  lemma {:induction false} DiscrepancyNear(s: State)
    requires Invariant(s) && AccountNear(s)
    ensures var slack := MICRO * (s.roundings + |s.book.items|);
            -slack <= 2 * (Discrepancy(s) - Unreconciled(s)) <= slack
  {
    ExactGap(s);
    OutstandingNear(s.book.items);
  }

  /** Rounding alone can unsettle it: two receipts of a thousandth at half a millionth each credit a whole
      ledger unit, and their two thousandths together are priced at one. */
  lemma {:induction false} RoundingAlone()
    ensures var s := Run(Opened([0]), [OnBook(Matching.OpReceive(0, 1, 500)), OnBook(Matching.OpReceive(0, 1, 500))]);
            && Matching.AllOldestFirst(s.book) && s.sentBack == []
            && s.balance == 2 * MICRO && Reported(s) == MICRO
  {
    var ops := [OnBook(Matching.OpReceive(0, 1, 500)), OnBook(Matching.OpReceive(0, 1, 500))];
    var lot := Lot(1, 500);
    var none := Opened([0]);
    assert none.book.items == [Matching.Item([], 0, [])];
    var one := Apply(none, ops[0]);
    assert [] + [lot] == [lot] && [lot] + [lot] == [lot, lot];
    assert one == BookStep(none, Matching.OpReceive(0, 1, 500));
    assert one.book.items == none.book.items[0 := Matching.Item([lot], 0, [])];
    var two := Apply(one, ops[1]);
    assert one.book.items == [Matching.Item([lot], 0, [])];
    assert two.book.items == [Matching.Item([lot, lot], 0, [])];
    assert ops[1..][1..] == [];
    assert Run(one, ops[1..]) == Run(two, []);
    Matching.OpenedConsistent(1);
    Matching.OpenedOldestFirst(1);
    Matching.ReceiveKeepsOldestFirst(Opened([0]).book, 0, 1, 500);
    Matching.ReceiveConsistent(Opened([0]).book, 0, 1, 500);
    Matching.ReceiveKeepsOldestFirst(one.book, 0, 1, 500);
    TwoHalves(two.book.items[0]);
    assert two.book.items[1..] == [];
  }

  lemma {:induction false} TwoHalves(x: Matching.Item)
    requires x.lots == [Lot(1, 500), Lot(1, 500)] && x.invoiced == 0
    ensures Outstanding(x) == MICRO
  {
    var slices := Slices(x.lots, 0, 2, 2);
    assert Start(x.lots, 1) == 1 && Start(x.lots, 2) == 2;
    assert Slices(x.lots, 0, 2, 0) == [];
    assert Slices(x.lots, 0, 2, 1) == [Slice(0, 1, 500)];
    assert slices == [Slice(0, 1, 500)] + [Slice(1, 1, 500)];
    SumAppend([Slice(0, 1, 500)], Slice(1, 1, 500), SliceCost);
    SumAppend([], Slice(0, 1, 500), SliceCost);
    assert [] + [Slice(0, 1, 500)] == [Slice(0, 1, 500)];
  }

  // ---- The service -------------------------------------------------------------------------------------

  /** Received and not invoiced, priced item by item; the walk covers every remaining quantity. */
  method Reconcile(s: State) returns (discrepancy: int)
    requires Invariant(s) && AccountNear(s)
    ensures discrepancy == Discrepancy(s)
    ensures var slack := MICRO * (s.roundings + |s.book.items|);
            -slack <= 2 * (discrepancy - Unreconciled(s)) <= slack
  {
    var items, outstanding := s.book.items, 0;
    for i := 0 to |items|
      invariant outstanding == Sum(items[..i], Outstanding)
    {
      var x := items[i];
      assert items[..i + 1] == items[..i] + [x];
      SumAppend(items[..i], x, Outstanding);
      assert Matching.ItemConsistent(s.book, i);
      var remaining := Received(x.lots) - x.invoiced;
      if remaining > 0 {
        var priced := PriceUninvoiced(x);
        outstanding := outstanding + priced;
      } else {
        NothingOutstanding(x);
      }
    }
    assert items[..|items|] == items;
    DiscrepancyNear(s);
    discrepancy := s.balance - outstanding;
  }

  lemma {:induction false} NothingOutstanding(x: Matching.Item)
    requires x.invoiced == Received(x.lots)
    ensures Outstanding(x) == 0
  {
    NoSlices(x.lots, x.invoiced, |x.lots|);
  }

  lemma {:induction false} NoSlices(lots: seq<Lot>, at: int, n: nat)
    requires n <= |lots|
    ensures Slices(lots, at, at, n) == []
  {
    if n > 0 { NoSlices(lots, at, n - 1); }
  }

  method TotalCost(slices: seq<Slice>) returns (total: int)
    ensures total == Sum(slices, SliceCost)
  {
    total := 0;
    for j := 0 to |slices|
      invariant total == Sum(slices[..j], SliceCost)
    {
      assert slices[..j + 1] == slices[..j] + [slices[j]];
      SumAppend(slices[..j], slices[j], SliceCost);
      total := total + slices[j].quantity * slices[j].unitCost;
    }
    assert slices[..|slices|] == slices;
  }

  method PriceUninvoiced(x: Matching.Item) returns (priced: int)
    requires 0 <= x.invoiced < Received(x.lots)
    ensures priced == Outstanding(x)
  {
    var r := FifoMatchSlices(x.lots, x.invoiced, Received(x.lots) - x.invoiced);
    assert r.Matched?;  // the receipts always cover what is left of them
    var total := TotalCost(r.slices);
    priced := Round(total, MICRO);
  }

  class ReturnDesk {
    var book: Matching.Book
    var keys: seq<nat>
    var sentBack: seq<Return>
    var balance: int
    ghost var roundings: nat

    ghost function Now(): State
      reads this
    {
      State(book, keys, sentBack, balance, roundings)
    }

    constructor (keys: seq<nat>)
      ensures Now() == Opened(keys) && Invariant(Now()) && AccountNear(Now())
    {
      book, this.keys, sentBack, balance, roundings := Matching.Opened(|keys|), keys, [], 0, 0;
      new;
      OpenedNear(keys);
    }

    /** Units asked for per product, as the check adds them up. */
    method RequestedByKey(lines: seq<Return>) returns (requested: map<nat, nat>)
      ensures forall k: nat :: k in requested <==> exists j :: 0 <= j < |lines| && lines[j].key == k
      ensures forall k: nat :: k in requested ==> requested[k] == Sum(lines, ReturnedOf(k))
    {
      requested := map[];
      for n := 0 to |lines|
        invariant forall k: nat :: k in requested <==> exists j :: 0 <= j < n && lines[j].key == k
        invariant forall k: nat :: (if k in requested then requested[k] else 0) == Sum(lines[..n], ReturnedOf(k))
      {
        var l := lines[n];
        assert lines[..n + 1] == lines[..n] + [l];
        forall k: nat ensures Sum(lines[..n + 1], ReturnedOf(k)) == Sum(lines[..n], ReturnedOf(k)) + ReturnedOf(k)(l) {
          SumAppend(lines[..n], l, ReturnedOf(k));
        }
        requested := requested[l.key := (if l.key in requested then requested[l.key] else 0) + l.quantity];
      }
      assert lines[..|lines|] == lines;
    }

    /** Every product asked for stays within what is left to return. */
    method StillReturnable(requested: map<nat, nat>, lines: seq<Return>) returns (ok: bool)
      requires |keys| == |book.items|
      requires forall k: nat :: k in requested <==> exists j :: 0 <= j < |lines| && lines[j].key == k
      requires forall k: nat :: k in requested ==> requested[k] == Sum(lines, ReturnedOf(k))
      ensures ok <==> Returnable(Now(), lines)
    {
      var left := requested.Keys;
      while left != {}
        invariant left <= requested.Keys
        invariant forall k: nat :: k in requested.Keys - left ==>
                    Sum(sentBack, ReturnedOf(k)) + requested[k] <= ReceivedOf(book.items, keys, k)
      {
        var k :| k in left;
        if Sum(sentBack, ReturnedOf(k)) + requested[k] > ReceivedOf(book.items, keys, k) { return false; }
        left := left - {k};
      }
      ok := true;
    }

    method Stocked(requested: map<nat, nat>, lines: seq<Return>, onHand: nat -> int) returns (ok: bool)
      requires forall k: nat :: k in requested <==> exists j :: 0 <= j < |lines| && lines[j].key == k
      requires forall k: nat :: k in requested ==> requested[k] == Sum(lines, ReturnedOf(k))
      ensures ok <==> InStock(lines, onHand)
    {
      var left := requested.Keys;
      while left != {}
        invariant left <= requested.Keys
        invariant forall k: nat :: k in requested.Keys - left ==> requested[k] <= onHand(k)
      {
        var k :| k in left;
        if requested[k] > onHand(k) { return false; }
        left := left - {k};
      }
      ok := true;
    }

    method CheckReturn(lines: seq<Return>, onHand: nat -> int) returns (o: Outcome)
      requires |keys| == |book.items|
      ensures o == ReturnCheck(Now(), lines, onHand)
    {
      if lines == [] { return Rejected(EMPTY_RETURN); }
      if exists j :: 0 <= j < |lines| && lines[j].quantity == 0 { return Rejected(INVALID_QUANTITY); }
      var requested := RequestedByKey(lines);
      var ok := StillReturnable(requested, lines);
      if !ok { return Rejected(RETURN_EXCEEDS_RECEIVED_QUANTITY); }
      ok := Stocked(requested, lines, onHand);
      o := if ok then Done else Rejected(INSUFFICIENT_STOCK);
    }

    method ValueReturned(lines: seq<Return>) returns (total: int)
      ensures total == Sum(lines, ReturnValue)
    {
      total := 0;
      for j := 0 to |lines|
        invariant total == Sum(lines[..j], ReturnValue)
      {
        assert lines[..j + 1] == lines[..j] + [lines[j]];
        SumAppend(lines[..j], lines[j], ReturnValue);
        total := total + Round(lines[j].quantity * lines[j].unitCost, MICRO);
      }
      assert lines[..|lines|] == lines;
    }

    method CreateReturn(lines: seq<Return>, onHand: nat -> int) returns (o: Outcome)
      requires Invariant(Now()) && AccountNear(Now())
      modifies this
      ensures (Now(), o) == ReturnGoods(old(Now()), lines, onHand)
      ensures Invariant(Now()) && AccountNear(Now())
    {
      ReturnKeeps(Now(), lines, onHand);
      o := CheckReturn(lines, onHand);
      if o == Done {
        var total := ValueReturned(lines);
        sentBack, balance, roundings := sentBack + lines, balance - total, roundings + |lines|;
      }
    }
  }
}
