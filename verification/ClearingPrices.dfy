/** What the Purchase Clearing reconciliation says over every price the goods could have had: receipts,
    postings, voids and returns of the same quantities, at other costs.

    Costs decide no step's outcome, so a run can be repriced without changing its shape. */
module ClearingPrices {
  import opened Sums
  import opened Rounding
  import opened FifoMatching
  import opened ClearingAccount
  import Matching = ReceiptMatching

  // ---- Exact prices ------------------------------------------------------------------------------

  /** Costs without digits beyond the third decimal. */
  predicate ExactlyPriced(op: Op) {
    match op
    case OnBook(step) => step.OpReceive? ==> step.unitCost % MICRO == 0
    case OpReturn(lines, _) => forall j :: 0 <= j < |lines| ==> lines[j].unitCost % MICRO == 0
  }

  predicate WholeLots(x: Matching.Item) {
    forall k :: 0 <= k < |x.lots| ==> x.lots[k].unitCost % MICRO == 0
  }

  /** Whole costs, and a balance that no rounding has moved. */
  ghost predicate Exact(s: State) {
    (forall i :: 0 <= i < |s.book.items| ==> WholeLots(s.book.items[i])) && s.balance == ExactValue(s)
  }

  lemma {:induction false} RoundWhole(x: int)
    requires x % MICRO == 0
    ensures Round(x, MICRO) == x
  {
    RoundMultiple(x / MICRO);
  }

  lemma {:induction false} WholeSum<T>(rows: seq<T>, measure: T -> int)
    requires forall i :: 0 <= i < |rows| ==> measure(rows[i]) % MICRO == 0
    ensures Sum(rows, measure) % MICRO == 0
  {
    if rows != [] {
      assert forall i :: 0 <= i < |rows[1..]| ==> rows[1..][i] == rows[i + 1];
      WholeSum(rows[1..], measure);
    }
  }

  lemma {:induction false} HeldWhole(x: Matching.Item, v: nat)
    requires CostedByLot(x) && WholeLots(x)
    ensures HeldWorth(v)(x) % MICRO == 0
  {
    forall j | 0 <= j < |x.matches| ensures CostFor(v)(x.matches[j]) % MICRO == 0 {
      WholeProduct(x.matches[j].quantity, x.matches[j].unitCost);
    }
    WholeSum(x.matches, CostFor(v));
  }

  lemma {:induction false} InvoiceCostWhole(items: seq<Matching.Item>, v: nat)
    requires AllCostedByLot(items) && forall i :: 0 <= i < |items| ==> WholeLots(items[i])
    ensures Round(InvoiceCost(items, v), MICRO) == InvoiceCost(items, v)
  {
    forall i | 0 <= i < |items| ensures HeldWorth(v)(items[i]) % MICRO == 0 { HeldWhole(items[i], v); }
    WholeSum(items, HeldWorth(v));
    RoundWhole(InvoiceCost(items, v));
  }

  lemma {:induction false} LotsStayWhole(b: Matching.Book, op: Matching.Op, i: nat)
    requires i < |b.items| && WholeLots(b.items[i]) && (op.OpReceive? ==> op.unitCost % MICRO == 0)
    ensures |Matching.Apply(b, op).items| == |b.items| && WholeLots(Matching.Apply(b, op).items[i])
  {
    if op.OpPost? && Matching.Post(b, op.invoice).1 == Matching.Done {
      Matching.PostLinesShape(b.items, op.invoice, b.invoices[op.invoice].lines, |b.invoices[op.invoice].lines|, i);
    }
  }

  lemma {:induction false} BookStepExact(s: State, op: Matching.Op)
    requires Invariant(s) && Exact(s) && ExactlyPriced(OnBook(op))
    ensures Exact(BookStep(s, op))
  {
    var b, after := s.book, Matching.Apply(s.book, op);
    assert BookStep(s, op).book == after;
    forall i: nat | i < |after.items| ensures WholeLots(after.items[i]) {
      ApplyKeepsItems(b, op);
      LotsStayWhole(b, op, i);
    }
    ApplyCosted(b, op);
    match op
    case OpReceive(item, quantity, unitCost) =>
      if Matching.Receive(b, item, quantity, unitCost).1 == Matching.Done {
        ReceiveMoves(b, item, quantity, unitCost);
        WholeProduct(quantity, unitCost);
      }
    case OpCreate(lines) => CreateMoves(b, lines);
    case OpPost(v) =>
      if Matching.Post(b, v).1 == Matching.Done {
        PostMoves(b, v);
        InvoiceCostWhole(after.items, v);
      }
    case OpVoid(v, settled) =>
      if Matching.Void(b, v, settled).1 == Matching.Done {
        VoidMoves(b, v, settled);
        InvoiceCostWhole(b.items, v);
      }
  }

  lemma {:induction false} ReturnExact(s: State, lines: seq<Return>, onHand: nat -> int)
    requires Invariant(s) && Exact(s) && ExactlyPriced(OpReturn(lines, onHand))
    ensures Exact(ReturnGoods(s, lines, onHand).0)
  {
    forall j | 0 <= j < |lines| ensures ReturnValue(lines[j]) == ReturnWorth(lines[j]) {
      WholeProduct(lines[j].quantity, lines[j].unitCost);
    }
    SumSame(lines, lines, ReturnValue, ReturnWorth);
    SumConcat(s.sentBack, lines, ReturnWorth);
  }

  lemma {:induction false} RunExact(s: State, ops: seq<Op>)
    requires Invariant(s) && Exact(s) && forall j :: 0 <= j < |ops| ==> ExactlyPriced(ops[j])
    ensures Invariant(Run(s, ops)) && Exact(Run(s, ops))
    decreases |ops|
  {
    if ops != [] {
      match ops[0] {
        case OnBook(step) => BookStepExact(s, step);
        case OpReturn(lines, onHand) => ReturnExact(s, lines, onHand);
      }
      ApplyInvariant(s, ops[0]);
      assert forall j :: 0 <= j < |ops[1..]| ==> ops[1..][j] == ops[j + 1];
      RunExact(Apply(s, ops[0]), ops[1..]);
    }
  }

  lemma {:induction false} OutstandingExact(x: Matching.Item)
    requires WholeLots(x)
    ensures Outstanding(x) == Youngest(x)
  {
    var slices := Slices(x.lots, x.invoiced, Received(x.lots), |x.lots|);
    SlicesInReceiptOrder(x.lots, x.invoiced, Received(x.lots), |x.lots|);
    forall j | 0 <= j < |slices| ensures SliceCost(slices[j]) % MICRO == 0 {
      WholeProduct(slices[j].quantity, slices[j].unitCost);
    }
    WholeSum(slices, SliceCost);
    RoundWhole(Sum(slices, SliceCost));
    AllSlicesWorth(x.lots, x.invoiced, Received(x.lots));
  }

  /** At costs of at most three decimals nothing is rounded: over every run the discrepancy is exactly what
      the matches and the returns leave unreconciled. */
  lemma {:induction false} DiscrepancyExact(keys: seq<nat>, ops: seq<Op>)
    requires forall j :: 0 <= j < |ops| ==> ExactlyPriced(ops[j])
    ensures var s := Run(Opened(keys), ops);
            Invariant(s) && s.balance == ExactValue(s) && Discrepancy(s) == Unreconciled(s)
  {
    OpenedNear(keys);
    assert Opened(keys).balance == ExactValue(Opened(keys)) by {
      SumZero(Opened(keys).book.items, ReceivedValue);
      SumZero(Opened(keys).book.items, LiveWorth([]));
    }
    RunExact(Opened(keys), ops);
    var s := Run(Opened(keys), ops);
    forall i: nat | i < |s.book.items| ensures Outstanding(s.book.items[i]) == Youngest(s.book.items[i]) {
      OutstandingExact(s.book.items[i]);
    }
    SumSame(s.book.items, s.book.items, Outstanding, Youngest);
    ExactGap(s);
  }

  // ---- Repricing ---------------------------------------------------------------------------------

  function FreeLots(lots: seq<Lot>): (r: seq<Lot>)
    ensures |r| == |lots| && forall k :: 0 <= k < |r| ==> r[k] == lots[k].(unitCost := 0)
  {
    seq(|lots|, k requires 0 <= k < |lots| => lots[k].(unitCost := 0))
  }

  function FreeSlices(slices: seq<Slice>): (r: seq<Slice>)
    ensures |r| == |slices| && forall k :: 0 <= k < |r| ==> r[k] == slices[k].(unitCost := 0)
  {
    seq(|slices|, k requires 0 <= k < |slices| => slices[k].(unitCost := 0))
  }

  function FreeMatches(matches: seq<Matching.Match>): (r: seq<Matching.Match>)
    ensures |r| == |matches| && forall k :: 0 <= k < |r| ==> r[k] == matches[k].(unitCost := 0)
  {
    seq(|matches|, k requires 0 <= k < |matches| => matches[k].(unitCost := 0))
  }

  function FreeItem(x: Matching.Item): Matching.Item {
    Matching.Item(FreeLots(x.lots), x.invoiced, FreeMatches(x.matches))
  }

  function FreeItems(items: seq<Matching.Item>): (r: seq<Matching.Item>)
    ensures |r| == |items| && forall i :: 0 <= i < |r| ==> r[i] == FreeItem(items[i])
  {
    seq(|items|, i requires 0 <= i < |items| => FreeItem(items[i]))
  }

  function FreeBook(b: Matching.Book): Matching.Book {
    Matching.Book(FreeItems(b.items), b.invoices)
  }

  function FreeReturns(rows: seq<Return>): (r: seq<Return>)
    ensures |r| == |rows| && forall j :: 0 <= j < |r| ==> r[j] == rows[j].(unitCost := 0)
  {
    seq(|rows|, j requires 0 <= j < |rows| => rows[j].(unitCost := 0))
  }

  /** A state without its prices. */
  function Shape(s: State): State {
    State(FreeBook(s.book), s.keys, FreeReturns(s.sentBack), 0, 0)
  }

  function ShapeOfStep(op: Matching.Op): Matching.Op {
    if op.OpReceive? then op.(unitCost := 0) else op
  }

  function ShapeOf(op: Op): Op {
    match op
    case OnBook(step) => OnBook(ShapeOfStep(step))
    case OpReturn(lines, onHand) => OpReturn(FreeReturns(lines), onHand)
  }

  /** The same operations on the same quantities, at any prices. */
  ghost predicate Repriced(ops: seq<Op>, others: seq<Op>) {
    |ops| == |others| && forall j :: 0 <= j < |ops| ==> ShapeOf(ops[j]) == ShapeOf(others[j])
  }

  lemma {:induction false} FreeStart(lots: seq<Lot>, k: nat)
    requires k <= |lots|
    ensures Start(FreeLots(lots), k) == Start(lots, k)
  {
    if k > 0 { FreeStart(lots, k - 1); }
  }

  lemma {:induction false} FreeSpan(lots: seq<Lot>, lo: int, hi: int, k: nat)
    requires k < |lots|
    ensures Span(FreeLots(lots), lo, hi, k) == Span(lots, lo, hi, k)
  {
    FreeStart(lots, k);
    FreeStart(lots, k + 1);
  }

  lemma {:induction false} SlicesOfFree(lots: seq<Lot>, lo: int, hi: int, k: nat)
    requires k <= |lots|
    ensures Slices(FreeLots(lots), lo, hi, k) == FreeSlices(Slices(lots, lo, hi, k))
  {
    if k > 0 {
      SlicesOfFree(lots, lo, hi, k - 1);
      FreeSpan(lots, lo, hi, k - 1);
    }
  }

  lemma {:induction false} FreePostLine(x: Matching.Item, invoice: nat, line: nat, quantity: nat)
    ensures Matching.PostLine(FreeItem(x), invoice, line, quantity)
            == FreeItem(Matching.PostLine(x, invoice, line, quantity))
  {
    var slices := Slices(x.lots, x.invoiced, x.invoiced + quantity, |x.lots|);
    SlicesOfFree(x.lots, x.invoiced, x.invoiced + quantity, |x.lots|);
    assert Matching.Tag(invoice, line, FreeSlices(slices)) == FreeMatches(Matching.Tag(invoice, line, slices));
    assert FreeMatches(x.matches + Matching.Tag(invoice, line, slices))
        == FreeMatches(x.matches) + FreeMatches(Matching.Tag(invoice, line, slices));
  }

  lemma {:induction false} FreeUpdate(items: seq<Matching.Item>, i: nat, x: Matching.Item)
    requires i < |items|
    ensures FreeItems(items[i := x]) == FreeItems(items)[i := FreeItem(x)]
  {
  }

  lemma {:induction false} FreePostLines(items: seq<Matching.Item>, invoice: nat, lines: seq<Matching.Line>, n: nat)
    requires n <= |lines| && Matching.LinesOn(lines, |items|)
    ensures Matching.PostLines(FreeItems(items), invoice, lines, n)
            == FreeItems(Matching.PostLines(items, invoice, lines, n))
  {
    if n > 0 {
      FreePostLines(items, invoice, lines, n - 1);
      var before, l := Matching.PostLines(items, invoice, lines, n - 1), lines[n - 1];
      FreePostLine(before[l.item], invoice, n - 1, l.quantity);
      FreeUpdate(before, l.item, Matching.PostLine(before[l.item], invoice, n - 1, l.quantity));
    }
  }

  lemma {:induction false} FreeInvoiceable(items: seq<Matching.Item>, lines: seq<Matching.Line>)
    ensures Matching.Invoiceable(FreeItems(items), lines) <==> Matching.Invoiceable(items, lines)
  {
    forall j | 0 <= j < |lines| && lines[j].item < |items|
      ensures Received(FreeItems(items)[lines[j].item].lots) == Received(items[lines[j].item].lots)
    {
      FreeStart(items[lines[j].item].lots, |items[lines[j].item].lots|);
    }
  }

  /** No step of the book looks at a cost. */
  lemma {:induction false} FreeBookStep(b: Matching.Book, op: Matching.Op)
    ensures Matching.Apply(FreeBook(b), ShapeOfStep(op)) == FreeBook(Matching.Apply(b, op))
    ensures op.OpPost? ==> Matching.Post(FreeBook(b), op.invoice).1 == Matching.Post(b, op.invoice).1
  {
    var before, after := FreeBook(b), Matching.Apply(b, op);
    match op
    case OpReceive(item, quantity, unitCost) =>
      if item < |b.items| && quantity > 0 {
        var x := b.items[item];
        assert FreeLots(x.lots + [Lot(quantity, unitCost)]) == FreeLots(x.lots) + [Lot(quantity, 0)];
        assert FreeItems(after.items) == before.items[item := FreeItem(after.items[item])];
      }
    case OpCreate(_) =>
    case OpPost(v) =>
      if v < |b.invoices| {
        FreeInvoiceable(b.items, b.invoices[v].lines);
        if Matching.LinesOn(b.invoices[v].lines, |b.items|) {
          FreePostLines(b.items, v, b.invoices[v].lines, |b.invoices[v].lines|);
        }
      }
    case OpVoid(v, settled) =>
      if v < |b.invoices| {
        assert FreeItems(Matching.Release(b.items, b.invoices[v].lines))
            == Matching.Release(before.items, b.invoices[v].lines);
      }
  }

  lemma {:induction false} FreeReceivedOf(items: seq<Matching.Item>, keys: seq<nat>, key: nat)
    requires |items| == |keys|
    ensures ReceivedOf(FreeItems(items), keys, key) == ReceivedOf(items, keys, key)
  {
    if items != [] {
      assert FreeItems(items)[1..] == FreeItems(items[1..]);
      FreeReceivedOf(items[1..], keys[1..], key);
      FreeStart(items[0].lots, |items[0].lots|);
    }
  }

  lemma {:induction false} FreeReturnCheck(s: State, lines: seq<Return>, onHand: nat -> int)
    requires |s.keys| == |s.book.items|
    ensures ReturnCheck(Shape(s), FreeReturns(lines), onHand) == ReturnCheck(s, lines, onHand)
  {
    forall k: nat
      ensures Sum(FreeReturns(lines), ReturnedOf(k)) == Sum(lines, ReturnedOf(k))
      ensures Sum(FreeReturns(s.sentBack), ReturnedOf(k)) == Sum(s.sentBack, ReturnedOf(k))
      ensures ReceivedOf(FreeItems(s.book.items), s.keys, k) == ReceivedOf(s.book.items, s.keys, k)
    {
      SumSame(FreeReturns(lines), lines, ReturnedOf(k), ReturnedOf(k));
      SumSame(FreeReturns(s.sentBack), s.sentBack, ReturnedOf(k), ReturnedOf(k));
      FreeReceivedOf(s.book.items, s.keys, k);
    }
    SameReturnable(s, lines);
    SameInStock(lines, onHand);
  }

  lemma {:induction false} SameReturnable(s: State, lines: seq<Return>)
    requires |s.keys| == |s.book.items|
    requires forall k: nat ::
      && Sum(FreeReturns(lines), ReturnedOf(k)) == Sum(lines, ReturnedOf(k))
      && Sum(FreeReturns(s.sentBack), ReturnedOf(k)) == Sum(s.sentBack, ReturnedOf(k))
      && ReceivedOf(FreeItems(s.book.items), s.keys, k) == ReceivedOf(s.book.items, s.keys, k)
    ensures Returnable(Shape(s), FreeReturns(lines)) <==> Returnable(s, lines)
  {
  }

  lemma {:induction false} SameInStock(lines: seq<Return>, onHand: nat -> int)
    requires forall k: nat :: Sum(FreeReturns(lines), ReturnedOf(k)) == Sum(lines, ReturnedOf(k))
    ensures InStock(FreeReturns(lines), onHand) <==> InStock(lines, onHand)
  {
  }

  lemma {:induction false} ShapeOfBookStep(s: State, step: Matching.Op)
    ensures Shape(BookStep(s, step)) == Shape(BookStep(Shape(s), ShapeOfStep(step)))
  {
    FreeBookStep(s.book, step);
    assert BookStep(s, step).book == Matching.Apply(s.book, step);
    assert BookStep(Shape(s), ShapeOfStep(step)).book == Matching.Apply(FreeBook(s.book), ShapeOfStep(step));
    FreeTwice(Matching.Apply(s.book, step));
    FreeReturnsTwice(s.sentBack);
  }

  lemma {:induction false} ShapeOfReturn(s: State, lines: seq<Return>, onHand: nat -> int)
    requires |s.keys| == |s.book.items|
    ensures Shape(ReturnGoods(s, lines, onHand).0) == Shape(ReturnGoods(Shape(s), FreeReturns(lines), onHand).0)
  {
    FreeReturnCheck(s, lines, onHand);
    FreeTwice(s.book);
    FreeReturnsTwice(s.sentBack);
    FreeReturnsTwice(s.sentBack + lines);
    assert FreeReturns(s.sentBack + lines) == FreeReturns(s.sentBack) + FreeReturns(lines);
  }

  lemma {:induction false} ShapeOfApply(s: State, op: Op)
    requires |s.keys| == |s.book.items|
    ensures Shape(Apply(s, op)) == Shape(Apply(Shape(s), ShapeOf(op)))
  {
    match op
    case OnBook(step) => ShapeOfBookStep(s, step);
    case OpReturn(lines, onHand) => ShapeOfReturn(s, lines, onHand);
  }

  lemma {:induction false} FreeTwice(b: Matching.Book)
    ensures FreeBook(FreeBook(b)) == FreeBook(b)
  {
    forall i | 0 <= i < |b.items| ensures FreeItem(FreeItem(b.items[i])) == FreeItem(b.items[i]) {
      assert FreeLots(FreeLots(b.items[i].lots)) == FreeLots(b.items[i].lots);
      assert FreeMatches(FreeMatches(b.items[i].matches)) == FreeMatches(b.items[i].matches);
    }
    assert FreeItems(FreeItems(b.items)) == FreeItems(b.items);
  }

  lemma {:induction false} FreeReturnsTwice(rows: seq<Return>)
    ensures FreeReturns(FreeReturns(rows)) == FreeReturns(rows)
  {
  }

  /** Repriced runs lead to states of the same shape. */
  lemma {:induction false} RepricedRuns(s: State, t: State, ops: seq<Op>, others: seq<Op>)
    requires |s.keys| == |s.book.items| && |t.keys| == |t.book.items|
    requires Shape(s) == Shape(t) && Repriced(ops, others)
    ensures Shape(Run(s, ops)) == Shape(Run(t, others))
    decreases |ops|
  {
    if ops != [] {
      ShapeOfApply(s, ops[0]);
      ShapeOfApply(t, others[0]);
      assert forall j :: 0 <= j < |ops[1..]| ==> ops[1..][j] == ops[j + 1] && others[1..][j] == others[j + 1];
      RepricedRuns(Apply(s, ops[0]), Apply(t, others[0]), ops[1..], others[1..]);
    }
  }

  lemma {:induction false} FreeUsed(b: Matching.Book, i: nat)
    requires i < |b.items|
    ensures Matching.Used(FreeBook(b), i) == Matching.Used(b, i)
  {
    var x := b.items[i];
    forall k | 0 <= k < |x.lots| ensures Matching.Used(FreeBook(b), i)[k] == Matching.Used(b, i)[k] {
      SumSame(FreeMatches(x.matches), x.matches, Matching.LiveOnLot(b.invoices, k), Matching.LiveOnLot(b.invoices, k));
    }
  }

  lemma {:induction false} FreeOldestFirst(b: Matching.Book)
    ensures Matching.AllOldestFirst(FreeBook(b)) <==> Matching.AllOldestFirst(b)
  {
    forall i: nat | i < |b.items|
      ensures OldestFirst(FreeBook(b).items[i].lots, Matching.Used(FreeBook(b), i), b.items[i].invoiced)
              <==> OldestFirst(b.items[i].lots, Matching.Used(b, i), b.items[i].invoiced)
    {
      FreeUsed(b, i);
      forall k | 0 <= k < |b.items[i].lots|
        ensures Span(FreeLots(b.items[i].lots), 0, b.items[i].invoiced, k)
                == Span(b.items[i].lots, 0, b.items[i].invoiced, k)
      {
        FreeSpan(b.items[i].lots, 0, b.items[i].invoiced, k);
      }
    }
  }

  lemma {:induction false} SameShapeOldestFirst(s: State, t: State)
    requires Shape(s) == Shape(t)
    ensures Matching.AllOldestFirst(s.book) <==> Matching.AllOldestFirst(t.book)
    ensures |s.sentBack| == |t.sentBack| && |s.book.items| == |t.book.items|
  {
    FreeOldestFirst(s.book);
    FreeOldestFirst(t.book);
    assert |FreeReturns(s.sentBack)| == |FreeReturns(t.sentBack)|;
    assert |FreeItems(s.book.items)| == |FreeItems(t.book.items)|;
  }

  // ---- Live matches by lot -----------------------------------------------------------------------

  /** Units of each lot that live rows hold. */
  function LiveUnits(matches: seq<Matching.Match>, invoices: seq<Matching.Invoice>, lots: nat): (v: seq<int>)
    ensures |v| == lots && forall k :: 0 <= k < lots ==> v[k] == Sum(matches, Matching.LiveOnLot(invoices, k))
  {
    seq(lots, k requires 0 <= k => Sum(matches, Matching.LiveOnLot(invoices, k)))
  }

  lemma {:induction false} LiveIsWorth(matches: seq<Matching.Match>, invoices: seq<Matching.Invoice>, lots: seq<Lot>)
    requires forall j :: 0 <= j < |matches| ==>
             matches[j].lot < |lots| && matches[j].unitCost == lots[matches[j].lot].unitCost
    ensures Sum(matches, LiveCost(invoices)) == Worth(LiveUnits(matches, invoices, |lots|), LotCosts(lots))
  {
    var v := LiveUnits(matches, invoices, |lots|);
    if matches == [] {
      WorthFree(v, LotCosts(lots));
    } else {
      var m, rest := matches[0], matches[1..];
      assert forall j :: 0 <= j < |rest| ==> rest[j] == matches[j + 1];
      LiveIsWorth(rest, invoices, lots);
      var w := LiveUnits(rest, invoices, |lots|);
      var more := Matching.LiveOnLot(invoices, m.lot)(m);
      WorthUpdate(w, m.lot, more, LotCosts(lots));
      assert v == w[m.lot := w[m.lot] + more];
      assert LiveCost(invoices)(m) == more * m.unitCost;
    }
  }

  lemma {:induction false} LiveIsUsed(s: State, i: nat)
    requires Invariant(s) && i < |s.book.items|
    ensures LiveWorth(s.book.invoices)(s.book.items[i])
            == Worth(Matching.Used(s.book, i), LotCosts(s.book.items[i].lots))
  {
    var x := s.book.items[i];
    LiveIsWorth(x.matches, s.book.invoices, x.lots);
    assert LiveUnits(x.matches, s.book.invoices, |x.lots|) == Matching.Used(s.book, i);
  }

  lemma {:induction false} OldestFirstReconciles(s: State)
    requires Invariant(s) && Matching.AllOldestFirst(s.book)
    ensures Unreconciled(s) == -Sum(s.sentBack, ReturnWorth)
  {
    forall i: nat | i < |s.book.items| ensures Oldest(s.book.items[i]) == LiveWorth(s.book.invoices)(s.book.items[i]) {
      LiveIsUsed(s, i);
      assert OldestFirst(s.book.items[i].lots, Matching.Used(s.book, i), s.book.items[i].invoiced);
      assert Matching.Used(s.book, i) == SpanVector(s.book.items[i].lots, 0, s.book.items[i].invoiced);
    }
    SumSame(s.book.items, s.book.items, Oldest, LiveWorth(s.book.invoices));
  }

  // ---- One price for all lots, and more for one ----------------------------------------------------

  /** Prices for a run: every lot at `base`, one lot of one item at `extra` more, and what is sent back. */
  datatype Prices = Prices(base: nat, item: nat, lot: nat, extra: nat, returnCost: nat)

  predicate WholePrices(p: Prices) {
    p.base % MICRO == 0 && p.extra % MICRO == 0 && p.returnCost % MICRO == 0
  }

  function LotPrice(p: Prices, item: nat, lot: nat): nat {
    if item == p.item && lot == p.lot then p.base + p.extra else p.base
  }

  function PriceReturns(lines: seq<Return>, cost: nat): (r: seq<Return>)
    ensures |r| == |lines| && forall j :: 0 <= j < |r| ==> r[j] == lines[j].(unitCost := cost)
  {
    seq(|lines|, j requires 0 <= j < |lines| => lines[j].(unitCost := cost))
  }

  function PriceOp(s: State, op: Op, p: Prices): (r: Op)
    ensures ShapeOf(r) == ShapeOf(op)
    ensures WholePrices(p) ==> ExactlyPriced(r)
  {
    match op
    case OnBook(step) =>
      if step.OpReceive? && step.item < |s.book.items|
      then OnBook(step.(unitCost := LotPrice(p, step.item, |s.book.items[step.item].lots|)))
      else if step.OpReceive? then OnBook(step.(unitCost := 0)) else op
    case OpReturn(lines, onHand) =>
      assert FreeReturns(PriceReturns(lines, p.returnCost)) == FreeReturns(lines);
      OpReturn(PriceReturns(lines, p.returnCost), onHand)
  }

  function PriceRun(s: State, ops: seq<Op>, p: Prices): (r: seq<Op>)
    requires |s.keys| == |s.book.items|
    ensures |r| == |ops|
    decreases |ops|
  {
    if ops == [] then []
    else [PriceOp(s, ops[0], p)] + PriceRun(Apply(s, PriceOp(s, ops[0], p)), ops[1..], p)
  }

  lemma {:induction false} PriceRunReprices(s: State, ops: seq<Op>, p: Prices)
    requires |s.keys| == |s.book.items|
    ensures Repriced(ops, PriceRun(s, ops, p))
    ensures WholePrices(p) ==>
              forall j :: 0 <= j < |ops| ==> ExactlyPriced(PriceRun(s, ops, p)[j])
    decreases |ops|
  {
    if ops != [] {
      var op := PriceOp(s, ops[0], p);
      var rest := PriceRun(Apply(s, op), ops[1..], p);
      PriceRunReprices(Apply(s, op), ops[1..], p);
      var all := PriceRun(s, ops, p);
      forall j | 0 <= j < |ops|
        ensures ShapeOf(ops[j]) == ShapeOf(all[j])
        ensures WholePrices(p) ==> ExactlyPriced(all[j])
      {
        if j > 0 { assert all[j] == rest[j - 1] && ops[j] == ops[1..][j - 1]; }
      }
    }
  }

  ghost predicate PricedItem(x: Matching.Item, i: nat, p: Prices) {
    forall k :: 0 <= k < |x.lots| ==> x.lots[k].unitCost == LotPrice(p, i, k)
  }

  ghost predicate PricedAs(s: State, p: Prices) {
    && (forall i :: 0 <= i < |s.book.items| ==> PricedItem(s.book.items[i], i, p))
    && (forall j :: 0 <= j < |s.sentBack| ==> s.sentBack[j].unitCost == p.returnCost)
  }

  lemma {:induction false} LotsFromReceipts(b: Matching.Book, op: Matching.Op, i: nat)
    requires i < |b.items|
    ensures var after := Matching.Apply(b, op);
            && |after.items| == |b.items|
            && (after.items[i].lots == b.items[i].lots
                || (op.OpReceive? && op.item == i
                  && after.items[i].lots == b.items[i].lots + [Lot(op.quantity, op.unitCost)]))
  {
    if op.OpPost? && Matching.Post(b, op.invoice).1 == Matching.Done {
      Matching.PostLinesShape(b.items, op.invoice, b.invoices[op.invoice].lines, |b.invoices[op.invoice].lines|, i);
    }
  }

  lemma {:induction false} PriceOpPrices(s: State, op: Op, p: Prices)
    requires |s.keys| == |s.book.items| && PricedAs(s, p)
    ensures PricedAs(Apply(s, PriceOp(s, op, p)), p)
  {
    var after := Apply(s, PriceOp(s, op, p));
    if op.OnBook? {
      var step := PriceOp(s, op, p).step;
      assert after.book == Matching.Apply(s.book, step);
      forall i: nat | i < |after.book.items| ensures PricedItem(after.book.items[i], i, p) {
        ApplyKeepsItems(s.book, step);
        LotsFromReceipts(s.book, step, i);
      }
    }
  }

  lemma {:induction false} PriceRunPrices(s: State, ops: seq<Op>, p: Prices)
    requires |s.keys| == |s.book.items| && PricedAs(s, p)
    ensures PricedAs(Run(s, PriceRun(s, ops, p)), p)
    decreases |ops|
  {
    if ops != [] {
      var op := PriceOp(s, ops[0], p);
      PriceOpPrices(s, ops[0], p);
      PriceRunPrices(Apply(s, op), ops[1..], p);
      assert PriceRun(s, ops, p)[1..] == PriceRun(Apply(s, op), ops[1..], p);
    }
  }

  /** The run at these prices: reachable, exact, and of the same shape. */
  lemma {:induction false} PricedRun(keys: seq<nat>, ops: seq<Op>, p: Prices) returns (others: seq<Op>)
    requires WholePrices(p)
    ensures Repriced(ops, others) && forall j :: 0 <= j < |others| ==> ExactlyPriced(others[j])
    ensures Shape(Run(Opened(keys), ops)) == Shape(Run(Opened(keys), others))
    ensures var t := Run(Opened(keys), others); Invariant(t) && PricedAs(t, p) && Discrepancy(t) == Unreconciled(t)
  {
    others := PriceRun(Opened(keys), ops, p);
    PriceRunReprices(Opened(keys), ops, p);
    PriceRunPrices(Opened(keys), ops, p);
    DiscrepancyExact(keys, others);
    RepricedRuns(Opened(keys), Opened(keys), ops, others);
  }

  lemma {:induction false} WorthOfPriced(units: seq<int>, costs: seq<nat>, k: nat, base: nat, extra: nat)
    requires |units| == |costs|
    requires forall i :: 0 <= i < |costs| ==> costs[i] == if i == k then base + extra else base
    ensures Worth(units, costs) == base * Sum(units, Identity) + if k < |units| then units[k] * extra else 0
  {
    if units != [] {
      var rest := Sum(units[1..], Identity);
      assert forall i :: 0 <= i < |units[1..]| ==> units[1..][i] == units[i + 1] && costs[1..][i] == costs[i + 1];
      assert base * (units[0] + rest) == base * units[0] + base * rest;
      if k == 0 {
        WorthOfPriced(units[1..], costs[1..], |units|, base, extra);
        assert units[0] * (base + extra) == base * units[0] + units[0] * extra;
      } else {
        WorthOfPriced(units[1..], costs[1..], k - 1, base, extra);
      }
    }
  }

  /** What a distribution of units over an item's lots is worth at these prices. */
  lemma {:induction false} WorthAtPrices(x: Matching.Item, i: nat, p: Prices, units: seq<int>)
    requires PricedItem(x, i, p) && |units| == |x.lots|
    ensures Worth(units, LotCosts(x.lots))
            == p.base * Sum(units, Identity) + if i == p.item && p.lot < |x.lots| then units[p.lot] * p.extra else 0
  {
    WorthOfPriced(units, LotCosts(x.lots), if i == p.item then p.lot else |x.lots|, p.base, p.extra);
  }

  /** As many units are matched as are invoiced, so at these prices an item is off by what the dearer lot
      is matched for out of turn. */
  lemma {:induction false} PricedGap(s: State, p: Prices, i: nat)
    requires Invariant(s) && PricedAs(s, p) && i < |s.book.items|
    ensures var x := s.book.items[i];
            Oldest(x) - LiveWorth(s.book.invoices)(x)
            == if i == p.item && p.lot < |x.lots|
               then (Span(x.lots, 0, x.invoiced, p.lot) - Matching.Used(s.book, i)[p.lot]) * p.extra
               else 0
  {
    var x, used := s.book.items[i], Matching.Used(s.book, i);
    var prefix := SpanVector(x.lots, 0, x.invoiced);
    var off := Less(prefix, used);
    LiveIsUsed(s, i);
    UnitsInvoiced(s, i);
    SumPairwise(off, used, prefix);
    WorthLinear(prefix, used, off, LotCosts(x.lots));
    WorthAtPrices(x, i, p, off);
  }

  lemma {:induction false} UnitsInvoiced(s: State, i: nat)
    requires Invariant(s) && i < |s.book.items|
    ensures var x := s.book.items[i];
            && Sum(Matching.Used(s.book, i), Identity) == x.invoiced
            && Sum(SpanVector(x.lots, 0, x.invoiced), Identity) == x.invoiced
  {
    assert Matching.ItemConsistent(s.book, i);
    SpanTotal(s.book.items[i].lots, 0, s.book.items[i].invoiced);
    Matching.ItemUsedTotal(s.book, i);
  }

  lemma {:induction false} OnlyItem(rows: seq<Matching.Item>, f: Matching.Item -> int, i: nat)
    requires i < |rows| && forall j :: 0 <= j < |rows| && j != i ==> f(rows[j]) == 0
    ensures Sum(rows, f) == f(rows[i])
  {
    assert rows == rows[..i] + ([rows[i]] + rows[i + 1..]);
    SumConcat(rows[..i], [rows[i]] + rows[i + 1..], f);
    SumZero(rows[..i], f);
    SumZero(rows[i + 1..], f);
    assert ([rows[i]] + rows[i + 1..])[1..] == rows[i + 1..];
  }

  function Gap(invoices: seq<Matching.Invoice>): Matching.Item -> int {
    (x: Matching.Item) => Oldest(x) - LiveWorth(invoices)(x)
  }

  lemma {:induction false} GapTotal(s: State)
    ensures Sum(s.book.items, Gap(s.book.invoices))
            == Sum(s.book.items, Oldest) - Sum(s.book.items, LiveWorth(s.book.invoices))
  {
    SumAdd(s.book.items, Oldest, Gap(s.book.invoices), LiveWorth(s.book.invoices));
  }

  lemma {:induction false} PricedUnreconciled(s: State, p: Prices)
    requires Invariant(s) && PricedAs(s, p) && p.item < |s.book.items| && p.lot < |s.book.items[p.item].lots|
    ensures var x := s.book.items[p.item];
            Unreconciled(s) == (Span(x.lots, 0, x.invoiced, p.lot) - Matching.Used(s.book, p.item)[p.lot]) * p.extra
                               - Sum(s.sentBack, ReturnWorth)
  {
    var gap := Gap(s.book.invoices);
    forall i: nat | i < |s.book.items| && i != p.item ensures gap(s.book.items[i]) == 0 { PricedGap(s, p, i); }
    PricedGap(s, p, p.item);
    OnlyItem(s.book.items, gap, p.item);
    GapTotal(s);
  }

  // ---- When the reconciliation agrees --------------------------------------------------------------

  /** At every exact price the goods of a run could have had, the discrepancy is the value sent back. */
  ghost predicate OffByReturns(keys: seq<nat>, ops: seq<Op>) {
    forall others: seq<Op> :: Repriced(ops, others) && (forall j :: 0 <= j < |others| ==> ExactlyPriced(others[j])) ==>
      Discrepancy(Run(Opened(keys), others)) == -Sum(Run(Opened(keys), others).sentBack, ReturnWorth)
  }

  ghost predicate Reconciles(keys: seq<nat>, ops: seq<Op>) {
    forall others: seq<Op> :: Repriced(ops, others) && (forall j :: 0 <= j < |others| ==> ExactlyPriced(others[j])) ==>
      Discrepancy(Run(Opened(keys), others)) == 0
  }

  lemma {:induction false} OldestFirstOffByReturns(keys: seq<nat>, ops: seq<Op>)
    requires Matching.AllOldestFirst(Run(Opened(keys), ops).book)
    ensures OffByReturns(keys, ops)
  {
    forall others: seq<Op> | Repriced(ops, others) && (forall j :: 0 <= j < |others| ==> ExactlyPriced(others[j]))
      ensures Discrepancy(Run(Opened(keys), others)) == -Sum(Run(Opened(keys), others).sentBack, ReturnWorth)
    {
      DiscrepancyExact(keys, others);
      RepricedRuns(Opened(keys), Opened(keys), ops, others);
      SameShapeOldestFirst(Run(Opened(keys), ops), Run(Opened(keys), others));
      OldestFirstReconciles(Run(Opened(keys), others));
    }
  }

  lemma {:induction false} DearLotShows(t: State, p: Prices)
    requires Invariant(t) && PricedAs(t, p) && p.extra > 0
    requires p.item < |t.book.items| && p.lot < |t.book.items[p.item].lots|
    requires var x := t.book.items[p.item]; Matching.Used(t.book, p.item)[p.lot] != Span(x.lots, 0, x.invoiced, p.lot)
    ensures Unreconciled(t) != -Sum(t.sentBack, ReturnWorth)
  {
    PricedUnreconciled(t, p);
    var x := t.book.items[p.item];
    var off := Span(x.lots, 0, x.invoiced, p.lot) - Matching.Used(t.book, p.item)[p.lot];
    assert off * p.extra != 0;
  }

  /** A lot that is matched out of turn shows at the prices where it alone costs more than the others. */
  lemma {:induction false} OutOfTurnPriced(keys: seq<nat>, ops: seq<Op>, i: nat, k: nat) returns (others: seq<Op>)
    requires var b := Run(Opened(keys), ops).book;
             && i < |b.items| && k < |b.items[i].lots|
             && Matching.Used(b, i)[k] != Span(b.items[i].lots, 0, b.items[i].invoiced, k)
    ensures Repriced(ops, others) && forall j :: 0 <= j < |others| ==> ExactlyPriced(others[j])
    ensures var t := Run(Opened(keys), others);
            Discrepancy(t) != -Sum(t.sentBack, ReturnWorth) && |t.sentBack| == |Run(Opened(keys), ops).sentBack|
  {
    var p := Prices(MICRO, i, k, MICRO, MICRO);
    others := PricedRun(keys, ops, p);
    var s, t := Run(Opened(keys), ops), Run(Opened(keys), others);
    SameShapeAt(s, t, i, k);
    SameShapeOldestFirst(s, t);
    DearLotShows(t, p);
  }

  lemma {:induction false} OutOfTurnShows(keys: seq<nat>, ops: seq<Op>, i: nat, k: nat)
    requires var b := Run(Opened(keys), ops).book;
             && i < |b.items| && k < |b.items[i].lots|
             && Matching.Used(b, i)[k] != Span(b.items[i].lots, 0, b.items[i].invoiced, k)
    ensures !OffByReturns(keys, ops)
    ensures Run(Opened(keys), ops).sentBack == [] ==> !Reconciles(keys, ops)
  {
    var others := OutOfTurnPriced(keys, ops, i, k);
  }

  lemma {:induction false} SameShapeAt(s: State, t: State, i: nat, k: nat)
    requires Shape(s) == Shape(t) && i < |s.book.items| && k < |s.book.items[i].lots|
    ensures i < |t.book.items| && |t.book.items[i].lots| == |s.book.items[i].lots|
    ensures t.book.items[i].invoiced == s.book.items[i].invoiced
    ensures Span(t.book.items[i].lots, 0, t.book.items[i].invoiced, k)
            == Span(s.book.items[i].lots, 0, s.book.items[i].invoiced, k)
    ensures Matching.Used(t.book, i) == Matching.Used(s.book, i)
  {
    assert |FreeItems(s.book.items)| == |FreeItems(t.book.items)|;
    var x, y := s.book.items[i], t.book.items[i];
    assert FreeItem(x) == FreeItems(s.book.items)[i] == FreeItems(t.book.items)[i] == FreeItem(y);
    assert |FreeLots(x.lots)| == |FreeLots(y.lots)|;
    FreeSpan(x.lots, 0, x.invoiced, k);
    FreeSpan(y.lots, 0, y.invoiced, k);
    FreeUsed(s.book, i);
    FreeUsed(t.book, i);
  }

  lemma {:induction false} OnePriceLeavesReturns(s: State, p: Prices)
    requires Invariant(s) && PricedAs(s, p) && p.extra == 0
    ensures Unreconciled(s) == -Sum(s.sentBack, ReturnWorth)
  {
    forall i: nat | i < |s.book.items| ensures Gap(s.book.invoices)(s.book.items[i]) == 0 { PricedGap(s, p, i); }
    SumZero(s.book.items, Gap(s.book.invoices));
    GapTotal(s);
  }

  lemma {:induction false} ReturnsCost(rows: seq<Return>, cost: nat)
    requires rows != [] && cost > 0 && forall j :: 0 <= j < |rows| ==> rows[j].quantity > 0 && rows[j].unitCost == cost
    ensures Sum(rows, ReturnWorth) > 0
  {
    forall j | 0 <= j < |rows| ensures ReturnWorth(rows[j]) > 0 { }
    SumNonNegative(rows, ReturnWorth);
    assert ReturnWorth(rows[0]) > 0;
  }

  /** Goods sent back show when everything costs the same, returns included. */
  lemma {:induction false} ReturnsShow(keys: seq<nat>, ops: seq<Op>)
    requires Run(Opened(keys), ops).sentBack != []
    ensures !Reconciles(keys, ops)
  {
    var p := Prices(MICRO, 0, 0, 0, MICRO);
    var others := PricedRun(keys, ops, p);
    var t := Run(Opened(keys), others);
    SameShapeOldestFirst(Run(Opened(keys), ops), t);
    OnePriceLeavesReturns(t, p);
    ReturnsCost(t.sentBack, MICRO);
  }

  /** Over every run: at every exact price its goods could have had, the reconciliation is off by the
      value of the goods sent back and nothing else, if and only if live matches are the oldest units of
      every item. */
  lemma {:induction false} OffByReturnsIff(keys: seq<nat>, ops: seq<Op>)
    ensures OffByReturns(keys, ops) <==> Matching.AllOldestFirst(Run(Opened(keys), ops).book)
  {
    var b := Run(Opened(keys), ops).book;
    if Matching.AllOldestFirst(b) {
      OldestFirstOffByReturns(keys, ops);
    } else {
      var i: nat :| i < |b.items| && !OldestFirst(b.items[i].lots, Matching.Used(b, i), b.items[i].invoiced);
      var k: nat :| k < |b.items[i].lots| && Matching.Used(b, i)[k] != Span(b.items[i].lots, 0, b.items[i].invoiced, k);
      OutOfTurnShows(keys, ops, i, k);
    }
  }

  /** And it reports no discrepancy at any of those prices if and only if, besides, nothing was ever sent
      back: a purchase return takes its value out of the account, and the report does not look at it. */
  lemma {:induction false} ReconcilesIff(keys: seq<nat>, ops: seq<Op>)
    ensures Reconciles(keys, ops) <==>
            Matching.AllOldestFirst(Run(Opened(keys), ops).book) && Run(Opened(keys), ops).sentBack == []
  {
    var s := Run(Opened(keys), ops);
    if s.sentBack != [] {
      ReturnsShow(keys, ops);
    } else if Matching.AllOldestFirst(s.book) {
      OldestFirstOffByReturns(keys, ops);
      forall others: seq<Op> | Repriced(ops, others) && (forall j :: 0 <= j < |others| ==> ExactlyPriced(others[j]))
        ensures Discrepancy(Run(Opened(keys), others)) == 0
      {
        RepricedRuns(Opened(keys), Opened(keys), ops, others);
        SameShapeOldestFirst(s, Run(Opened(keys), others));
      }
    } else {
      var i: nat :| i < |s.book.items|
          && !OldestFirst(s.book.items[i].lots, Matching.Used(s.book, i), s.book.items[i].invoiced);
      var k: nat :| k < |s.book.items[i].lots|
                    && Matching.Used(s.book, i)[k] != Span(s.book.items[i].lots, 0, s.book.items[i].invoiced, k);
      OutOfTurnShows(keys, ops, i, k);
    }
  }
}
