/** Inter-store transfers: shipment, receipt of good, damaged and short quantities, discrepancies, and
    approval-gated write-offs, with the in-transit account they post to.

    Quantities are thousandths of a unit and costs millionths, so values are billionths.  Rows are
    identified by their position in insertion order. */
module Transfers {
  import opened Sums
  import opened Rounding

  datatype TransferStatus = DRAFT | SHIPPED | CANCELLED

  /** `cost` is frozen at shipment. */
  datatype Line = Line(transfer: nat, requested: int, shipped: int, received: int, damaged: int, short: int,
                       writtenOff: int, cost: nat)

  datatype ShipInput = ShipInput(line: nat, quantity: int)

  /** One raw input line of a receipt, kept as a receipt item. */
  datatype Item = Item(line: nat, good: int, damaged: int, short: int)

  datatype Finding = RECORDED | INVESTIGATING | RESOLVED

  datatype Discrepancy = Discrepancy(line: nat, quantity: int, cost: nat, status: Finding, vendorCaused: bool)

  datatype WriteOffStatus = PENDING_APPROVAL | DENIED | POSTED | REVERSED

  datatype WriteOff = WriteOff(line: nat, discrepancy: nat, quantity: int, amount: int, initiatedBy: nat,
      status: WriteOffStatus)

  /** `inTransit` is the account's balance; `roundings` counts the amounts that were rounded into it, and
      `unrecorded` is the value that was shipped without staying on record. */
  datatype Book = Book(
    transfers: seq<TransferStatus>, lines: seq<Line>, items: seq<Item>, discrepancies: seq<Discrepancy>,
    writeOffs: seq<WriteOff>, inTransit: int, roundings: nat, unrecorded: int)

  datatype Error =
    | NOT_FOUND | EMPTY_SHIPMENT | EMPTY_RECEIPT | INVALID_QUANTITY | INVALID_TRANSFER_STATE | OVER_SHIPMENT
    | OVER_RECEIPT
    | INVALID_DISCREPANCY_STATE | DISCREPANCY_NOT_RESOLVED | VENDOR_CAUSED_NOT_ELIGIBLE | DUPLICATE_PENDING_WRITE_OFF
    | QUANTITY_EXCEEDS_REMAINING_DISCREPANCY | SELF_APPROVAL_PROHIBITED | JOURNAL_LINE_CHECK | INVALID_WRITE_OFF_STATE

  datatype Outcome = Done | Existing | Rejected(error: Error)

  const EMPTY: Book := Book([], [], [], [], [], 0, 0, 0)

  // ---- Measures ------------------------------------------------------------------------------

  const ITEM_LINE: Item -> nat := (x: Item) => x.line

  function ShipQuantity(x: ShipInput): int {
    x.quantity
  }

  const GOOD: Item -> int := (x: Item) => x.good

  const DAMAGED: Item -> int := (x: Item) => x.damaged

  const SHORT: Item -> int := (x: Item) => x.short

  function Shipped(l: Line): int {
    l.shipped
  }

  function On(i: nat, measure: Item -> int): Item -> int {
    Group(ITEM_LINE, i, measure)
  }

  function FaultOn(i: nat): Discrepancy -> int {
    (d: Discrepancy) => if d.line == i then d.quantity else 0
  }

  function PostedOn(i: nat): WriteOff -> int {
    (w: WriteOff) => if w.line == i && w.status == POSTED then w.quantity else 0
  }

  function PostedFor(d: nat): WriteOff -> int {
    (w: WriteOff) => if w.discrepancy == d && w.status == POSTED then w.quantity else 0
  }

  // ---- Steps -----------------------------------------------------------------------------------

  function Create(b: Book, requested: seq<int>): (Book, Outcome) {
    if exists i :: 0 <= i < |requested| && requested[i] <= 0 then (b, Rejected(INVALID_QUANTITY))
    else (b.(transfers := b.transfers + [DRAFT], lines := b.lines + NewLines(|b.transfers|, requested)), Done)
  }

  function NewLines(t: nat, requested: seq<int>): (r: seq<Line>)
    ensures |r| == |requested|
    ensures forall i :: 0 <= i < |r| ==> r[i] == Line(t, requested[i], 0, 0, 0, 0, 0, 0)
  {
    seq(|requested|, i requires 0 <= i < |requested| => Line(t, requested[i], 0, 0, 0, 0, 0, 0))
  }

  function Cancel(b: Book, t: nat): (Book, Outcome) {
    if t >= |b.transfers| then (b, Rejected(NOT_FOUND))
    else if b.transfers[t] == CANCELLED then (b, Existing)
    else if b.transfers[t] != DRAFT then (b, Rejected(INVALID_TRANSFER_STATE))
    else (b.(transfers := b.transfers[t := CANCELLED]), Done)
  }

  /** The first input, from the `n`th on, that the transfer's lines cannot take. */
  function ShipProblem(lines: seq<Line>, t: nat, inputs: seq<ShipInput>, n: nat): (o: Outcome)
    requires n <= |inputs|
    ensures o != Existing
    ensures o == Done <==> forall j :: n <= j < |inputs| ==>
              inputs[j].line < |lines| && lines[inputs[j].line].transfer == t
                && inputs[j].quantity <= lines[inputs[j].line].requested
    decreases |inputs| - n
  {
    if n == |inputs| then Done
    else if inputs[n].line >= |lines| || lines[inputs[n].line].transfer != t then Rejected(NOT_FOUND)
    else if inputs[n].quantity > lines[inputs[n].line].requested then Rejected(OVER_SHIPMENT)
    else ShipProblem(lines, t, inputs, n + 1)
  }

  /** The first `n` inputs shipped: each sets its line's quantity, whatever an earlier one set. */
  function ShipLines(lines: seq<Line>, inputs: seq<ShipInput>, cost: nat -> nat, n: nat): (r: seq<Line>)
    requires n <= |inputs| && forall j :: 0 <= j < |inputs| ==> inputs[j].line < |lines|
    ensures |r| == |lines|
  {
    if n == 0 then lines
    else
      var x := inputs[n - 1];
      var before := ShipLines(lines, inputs, cost, n - 1);
      before[x.line := before[x.line].(shipped := x.quantity, cost := cost(x.line))]
  }

  function ShipValue(cost: nat -> nat): ShipInput -> int {
    (x: ShipInput) => Round(x.quantity * cost(x.line), MICRO)
  }

  predicate Names(inputs: seq<ShipInput>, i: nat) {
    exists j :: 0 <= j < |inputs| && inputs[j].line == i
  }

  /** The exact value of the inputs that a later input for the same line overwrites. */
  function OverwrittenValue(inputs: seq<ShipInput>, cost: nat -> nat): int {
    if inputs == [] then 0
    else OverwrittenValue(inputs[1..], cost)
         + if Names(inputs[1..], inputs[0].line) then inputs[0].quantity * cost(inputs[0].line) else 0
  }

  function ShipCheck(b: Book, t: nat, inputs: seq<ShipInput>): Outcome {
    if inputs == [] then Rejected(EMPTY_SHIPMENT)
    else if exists j :: 0 <= j < |inputs| && inputs[j].quantity <= 0 then Rejected(INVALID_QUANTITY)
    else if t >= |b.transfers| then Rejected(NOT_FOUND)
    else if b.transfers[t] != DRAFT then Rejected(INVALID_TRANSFER_STATE)
    else ShipProblem(b.lines, t, inputs, 0)
  }

  /** `cost` is each line's source product cost at this moment. */
  function Ship(b: Book, t: nat, inputs: seq<ShipInput>, cost: nat -> nat): (Book, Outcome) {
    if ShipCheck(b, t, inputs) != Done then (b, ShipCheck(b, t, inputs))
    else (b.(lines := ShipLines(b.lines, inputs, cost, |inputs|), transfers := b.transfers[t := SHIPPED],
             inTransit := b.inTransit + Sum(inputs, ShipValue(cost)), roundings := b.roundings + |inputs|,
             unrecorded := b.unrecorded + OverwrittenValue(inputs, cost)), Done)
  }

  function Remaining(l: Line): int {
    l.shipped - l.received - l.damaged - l.short
  }

  function ReceiptTotal(inputs: seq<Item>, i: nat): int {
    Sum(inputs, On(i, GOOD)) + Sum(inputs, On(i, DAMAGED)) + Sum(inputs, On(i, SHORT))
  }

  function ReceiptProblem(lines: seq<Line>, t: nat, inputs: seq<Item>, n: nat): (o: Outcome)
    requires n <= |inputs|
    ensures o != Existing
    ensures o == Done <==> forall j :: n <= j < |inputs| ==>
              && inputs[j].line < |lines| && lines[inputs[j].line].transfer == t
              && ReceiptTotal(inputs, inputs[j].line) <= Remaining(lines[inputs[j].line])
    decreases |inputs| - n
  {
    if n == |inputs| then Done
    else if inputs[n].line >= |lines| || lines[inputs[n].line].transfer != t then Rejected(NOT_FOUND)
    else if ReceiptTotal(inputs, inputs[n].line) > Remaining(lines[inputs[n].line]) then Rejected(OVER_RECEIPT)
    else ReceiptProblem(lines, t, inputs, n + 1)
  }

  function AddReceipt(l: Line, i: nat, inputs: seq<Item>): Line {
    l.(received := l.received + Sum(inputs, On(i, GOOD)),
       damaged := l.damaged + Sum(inputs, On(i, DAMAGED)),
       short := l.short + Sum(inputs, On(i, SHORT)))
  }

  function AddReceipts(lines: seq<Line>, inputs: seq<Item>): (r: seq<Line>)
    ensures |r| == |lines| && forall i: nat :: i < |r| ==> r[i] == AddReceipt(lines[i], i, inputs)
  {
    seq(|lines|, i requires 0 <= i < |lines| => AddReceipt(lines[i], i, inputs))
  }

  /** One unresolved discrepancy per input with a damaged or short quantity. */
  function NewDiscrepancies(lines: seq<Line>, inputs: seq<Item>): seq<Discrepancy>
    requires forall j :: 0 <= j < |inputs| ==> inputs[j].line < |lines|
  {
    if inputs == [] then []
    else
      var x := inputs[|inputs| - 1];
      NewDiscrepancies(lines, inputs[..|inputs| - 1])
      + if x.damaged <= 0 && x.short <= 0 then []
        else [Discrepancy(x.line, x.damaged + x.short, lines[x.line].cost, RECORDED, false)]
  }

  function GoodValue(lines: seq<Line>): Item -> int {
    (x: Item) => if x.line < |lines| then x.good * lines[x.line].cost else 0
  }

  function ReceiptValue(lines: seq<Line>): Item -> int {
    (x: Item) => if x.line < |lines| then Round(x.good * lines[x.line].cost, MICRO) else 0
  }

  predicate MalformedItem(x: Item) {
    x.good < 0 || x.damaged < 0 || x.short < 0 || x.good + x.damaged + x.short <= 0
  }

  function ReceiptCheck(b: Book, t: nat, inputs: seq<Item>): Outcome {
    if inputs == [] then Rejected(EMPTY_RECEIPT)
    else if exists j :: 0 <= j < |inputs| && MalformedItem(inputs[j]) then Rejected(INVALID_QUANTITY)
    else if t >= |b.transfers| then Rejected(NOT_FOUND)
    else if b.transfers[t] != SHIPPED then Rejected(INVALID_TRANSFER_STATE)
    else ReceiptProblem(b.lines, t, inputs, 0)
  }

  function Receive(b: Book, t: nat, inputs: seq<Item>): (Book, Outcome) {
    if ReceiptCheck(b, t, inputs) != Done then (b, ReceiptCheck(b, t, inputs))
    else (b.(lines := AddReceipts(b.lines, inputs), items := b.items + inputs,
             discrepancies := b.discrepancies + NewDiscrepancies(b.lines, inputs),
             inTransit := b.inTransit - Sum(inputs, ReceiptValue(b.lines)), roundings := b.roundings + |inputs|), Done)
  }

  function SetFinding(b: Book, d: nat, from: Finding, to: Finding, vendorCaused: bool): (Book, Outcome) {
    if d >= |b.discrepancies| then (b, Rejected(NOT_FOUND))
    else if b.discrepancies[d].status != from then (b, Rejected(INVALID_DISCREPANCY_STATE))
    else (b.(discrepancies := b.discrepancies[d := b.discrepancies[d].(status := to, vendorCaused := vendorCaused)]),
      Done)
  }

  predicate Pending(w: WriteOff, d: nat) {
    w.discrepancy == d && w.status == PENDING_APPROVAL
  }

  predicate HasPending(writeOffs: seq<WriteOff>, d: nat) {
    exists w :: 0 <= w < |writeOffs| && Pending(writeOffs[w], d)
  }

  function Unresolved(b: Book, d: nat): int
    requires d < |b.discrepancies|
  {
    b.discrepancies[d].quantity - Sum(b.writeOffs, PostedFor(d))
  }

  function Request(b: Book, d: nat, quantity: int, actor: nat): (Book, Outcome) {
    if quantity <= 0 then (b, Rejected(INVALID_QUANTITY))
    else if d >= |b.discrepancies| then (b, Rejected(NOT_FOUND))
    else
      var row := b.discrepancies[d];
      if row.status != RESOLVED then (b, Rejected(DISCREPANCY_NOT_RESOLVED))
      else if row.vendorCaused then (b, Rejected(VENDOR_CAUSED_NOT_ELIGIBLE))
      else if HasPending(b.writeOffs, d) then (b, Rejected(DUPLICATE_PENDING_WRITE_OFF))
      else if quantity > Unresolved(b, d) then (b, Rejected(QUANTITY_EXCEEDS_REMAINING_DISCREPANCY))
      else (b.(writeOffs := b.writeOffs
                 + [WriteOff(row.line, d, quantity, Round(quantity * row.cost, MICRO), actor, PENDING_APPROVAL)]), Done)
  }

  function SetStatus(b: Book, w: nat, status: WriteOffStatus): Book
    requires w < |b.writeOffs|
  {
    b.(writeOffs := b.writeOffs[w := b.writeOffs[w].(status := status)])
  }

  function MoveWrittenOff(b: Book, w: nat, sign: int): Book
    requires w < |b.writeOffs|
  {
    var row := b.writeOffs[w];
    if row.line >= |b.lines| then b
    else
      var l := b.lines[row.line];
      b.(lines := b.lines[row.line := l.(writtenOff := l.writtenOff + sign * row.quantity)],
         inTransit := b.inTransit - sign * row.amount, roundings := b.roundings + 1)
  }

  function Approve(b: Book, w: nat, actor: nat): (Book, Outcome) {
    if w >= |b.writeOffs| then (b, Rejected(NOT_FOUND))
    else
      var row := b.writeOffs[w];
      if row.status != PENDING_APPROVAL then (b, Existing)
      else if actor == row.initiatedBy then (b, Rejected(SELF_APPROVAL_PROHIBITED))
      else if row.discrepancy >= |b.discrepancies| || row.line >= |b.lines| then (b, Rejected(NOT_FOUND))
      else if row.quantity > Unresolved(b, row.discrepancy) then (b, Rejected(QUANTITY_EXCEEDS_REMAINING_DISCREPANCY))
      else if row.amount <= 0 then (b, Rejected(JOURNAL_LINE_CHECK))
      else (MoveWrittenOff(SetStatus(b, w, POSTED), w, 1), Done)
  }

  function Deny(b: Book, w: nat, actor: nat): (Book, Outcome) {
    if w >= |b.writeOffs| then (b, Rejected(NOT_FOUND))
    else
      var row := b.writeOffs[w];
      if row.status != PENDING_APPROVAL then (b, Existing)
      else if actor == row.initiatedBy then (b, Rejected(SELF_APPROVAL_PROHIBITED))
      else if row.discrepancy >= |b.discrepancies| then (b, Rejected(NOT_FOUND))
      else if b.discrepancies[row.discrepancy].status != RESOLVED then (b, Rejected(INVALID_DISCREPANCY_STATE))
      else (SetFinding(SetStatus(b, w, DENIED), row.discrepancy, RESOLVED, INVESTIGATING, false).0, Done)
  }

  function Reverse(b: Book, w: nat): (Book, Outcome) {
    if w >= |b.writeOffs| then (b, Rejected(NOT_FOUND))
    else
      var row := b.writeOffs[w];
      if row.status == REVERSED then (b, Existing)
      else if row.status != POSTED then (b, Rejected(INVALID_WRITE_OFF_STATE))
      else if row.line >= |b.lines| then (b, Rejected(NOT_FOUND))
      else (MoveWrittenOff(SetStatus(b, w, REVERSED), w, -1), Done)
  }

  datatype Op =
    | OpCreate(requested: seq<int>)
    | OpCancel(t: nat)
    | OpShip(t: nat, shipInputs: seq<ShipInput>, cost: nat -> nat)
    | OpReceive(t: nat, inputs: seq<Item>)
    | OpInvestigate(d: nat)
    | OpResolve(d: nat, vendorCaused: bool)
    | OpRequest(d: nat, quantity: int, actor: nat)
    | OpApprove(w: nat, actor: nat)
    | OpDeny(w: nat, actor: nat)
    | OpReverse(w: nat)

  function Apply(b: Book, op: Op): Book {
    match op
    case OpCreate(requested) => Create(b, requested).0
    case OpCancel(t) => Cancel(b, t).0
    case OpShip(t, inputs, cost) => Ship(b, t, inputs, cost).0
    case OpReceive(t, inputs) => Receive(b, t, inputs).0
    case OpInvestigate(d) => SetFinding(b, d, RECORDED, INVESTIGATING, false).0
    case OpResolve(d, vendorCaused) => SetFinding(b, d, INVESTIGATING, RESOLVED, vendorCaused).0
    case OpRequest(d, quantity, actor) => Request(b, d, quantity, actor).0
    case OpApprove(w, actor) => Approve(b, w, actor).0
    case OpDeny(w, actor) => Deny(b, w, actor).0
    case OpReverse(w) => Reverse(b, w).0
  }

  function Run(b: Book, ops: seq<Op>): Book
    decreases |ops|
  {
    if ops == [] then b else Run(Apply(b, ops[0]), ops[1..])
  }

  // ---- What every run keeps ---------------------------------------------------------------------

  ghost predicate LineSound(b: Book, i: nat)
    requires i < |b.lines|
  {
    var l := b.lines[i];
    && l.transfer < |b.transfers| && l.requested > 0
    && l.received == Sum(b.items, On(i, GOOD)) >= 0
    && l.damaged == Sum(b.items, On(i, DAMAGED)) >= 0
    && l.short == Sum(b.items, On(i, SHORT)) >= 0
    && l.received + l.damaged + l.short <= l.shipped <= l.requested
    && (b.transfers[l.transfer] != SHIPPED ==> l.shipped == 0)
    && l.damaged + l.short == Sum(b.discrepancies, FaultOn(i))
    && l.writtenOff == Sum(b.writeOffs, PostedOn(i))
  }

  /** At most one write-off is pending, it still fits, and what is posted never exceeds the find. */
  ghost predicate DiscrepancySound(b: Book, d: nat)
    requires d < |b.discrepancies|
  {
    var row := b.discrepancies[d];
    && row.line < |b.lines|
    && 0 <= Sum(b.writeOffs, PostedFor(d)) <= row.quantity
    && b.lines[row.line].transfer < |b.transfers| && b.transfers[b.lines[row.line].transfer] == SHIPPED
    && row.cost == b.lines[row.line].cost
    && (forall w :: 0 <= w < |b.writeOffs| && Pending(b.writeOffs[w], d) ==>
          && row.status == RESOLVED
          && b.writeOffs[w].quantity <= Unresolved(b, d)
          && (forall v :: 0 <= v < |b.writeOffs| && Pending(b.writeOffs[v], d) ==> v == w))
  }

  ghost predicate WriteOffSound(b: Book, w: nat)
    requires w < |b.writeOffs|
  {
    var row := b.writeOffs[w];
    && row.quantity > 0 && row.discrepancy < |b.discrepancies|
    && row.line == b.discrepancies[row.discrepancy].line
    && row.amount == Round(row.quantity * b.discrepancies[row.discrepancy].cost, MICRO)
  }

  ghost predicate Sound(b: Book) {
    && (forall i: nat :: i < |b.lines| ==> LineSound(b, i))
    && (forall d: nat :: d < |b.discrepancies| ==> b.discrepancies[d].line < |b.lines|)
    && (forall d: nat :: d < |b.discrepancies| ==> DiscrepancySound(b, d))
    && (forall w: nat :: w < |b.writeOffs| ==> WriteOffSound(b, w))
    && (forall k :: 0 <= k < |b.items| ==> b.items[k].line < |b.lines|)
  }

  /** Nothing written off exceeds what was found damaged or short on the line. */
  lemma {:induction false} WrittenOffWithinFaults(b: Book, i: nat)
    requires Sound(b) && i < |b.lines|
    ensures 0 <= b.lines[i].writtenOff <= b.lines[i].damaged + b.lines[i].short
  {
    assert LineSound(b, i);
    var key := (w: WriteOff) => w.discrepancy;
    var posted := seq(|b.discrepancies|, d requires 0 <= d => Sum(b.writeOffs, Group(key, d, PostedOn(i))));
    var faults := Values(b.discrepancies, FaultOn(i));
    forall w: nat | w < |b.writeOffs| ensures key(b.writeOffs[w]) < |posted| { assert WriteOffSound(b, w); }
    GroupTotals(b.writeOffs, key, PostedOn(i), posted);
    forall d: nat | d < |b.discrepancies| ensures 0 <= posted[d] <= faults[d] {
      PostedOfOne(b, i, d);
    }
    SumMono(posted, faults, Identity, Identity);
    SumNonNegative(posted, Identity);
    ValuesSum(b.discrepancies, FaultOn(i));
  }

  lemma {:induction false} PostedOfOne(b: Book, i: nat, d: nat)
    requires Sound(b) && i < |b.lines| && d < |b.discrepancies|
    ensures 0 <= Sum(b.writeOffs, Group((w: WriteOff) => w.discrepancy, d, PostedOn(i)))
            <= FaultOn(i)(b.discrepancies[d])
  {
    assert DiscrepancySound(b, d);
    var f := Group((w: WriteOff) => w.discrepancy, d, PostedOn(i));
    if b.discrepancies[d].line == i {
      forall w: nat | w < |b.writeOffs| ensures f(b.writeOffs[w]) == PostedFor(d)(b.writeOffs[w]) {
        assert WriteOffSound(b, w);
      }
      SumSame(b.writeOffs, b.writeOffs, f, PostedFor(d));
    } else {
      forall w: nat | w < |b.writeOffs| ensures f(b.writeOffs[w]) == 0 { assert WriteOffSound(b, w); }
      SumZero(b.writeOffs, f);
    }
  }

  lemma {:induction false} CreateSound(b: Book, requested: seq<int>)
    requires Sound(b)
    ensures Sound(Create(b, requested).0)
  {
    var after := Create(b, requested).0;
    if Create(b, requested).1 == Done {
      forall i: nat | i < |after.lines| ensures LineSound(after, i) {
        if i < |b.lines| {
          assert LineSound(b, i);
        } else {
          NothingBeyond(b, i);
        }
      }
      forall d: nat | d < |after.discrepancies| ensures DiscrepancySound(after, d) { assert DiscrepancySound(b, d); }
      forall w: nat | w < |after.writeOffs| ensures WriteOffSound(after, w) { assert WriteOffSound(b, w); }
    }
  }

  lemma {:induction false} NothingBeyond(b: Book, i: nat)
    requires Sound(b) && i >= |b.lines|
    ensures Sum(b.items, On(i, GOOD)) == Sum(b.items, On(i, DAMAGED)) == Sum(b.items, On(i, SHORT)) == 0
    ensures Sum(b.discrepancies, FaultOn(i)) == 0 && Sum(b.writeOffs, PostedOn(i)) == 0
  {
    SumZero(b.items, On(i, GOOD));
    SumZero(b.items, On(i, DAMAGED));
    SumZero(b.items, On(i, SHORT));
    SumZero(b.discrepancies, FaultOn(i));
    forall w: nat | w < |b.writeOffs| ensures PostedOn(i)(b.writeOffs[w]) == 0 { assert WriteOffSound(b, w); }
    SumZero(b.writeOffs, PostedOn(i));
  }

  lemma {:induction false} ShipLineEffect(lines: seq<Line>, inputs: seq<ShipInput>, cost: nat -> nat, n: nat, i: nat)
    requires n <= |inputs| && (forall j :: 0 <= j < |inputs| ==> inputs[j].line < |lines|) && i < |lines|
    ensures var after := ShipLines(lines, inputs, cost, n)[i];
            if forall j :: 0 <= j < n ==> inputs[j].line != i then after == lines[i]
            else exists j :: 0 <= j < n && inputs[j].line == i
                             && after == lines[i].(shipped := inputs[j].quantity, cost := cost(i))
  {
    if n > 0 { ShipLineEffect(lines, inputs, cost, n - 1, i); }
  }

  lemma {:induction false} ShipSound(b: Book, t: nat, inputs: seq<ShipInput>, cost: nat -> nat)
    requires Sound(b) && Ship(b, t, inputs, cost).1 == Done
    ensures Sound(Ship(b, t, inputs, cost).0)
  {
    var after := Ship(b, t, inputs, cost).0;
    forall i: nat | i < |b.lines|
      ensures LineSound(after, i) && after.lines[i].transfer == b.lines[i].transfer
      ensures b.lines[i].transfer != t ==> after.lines[i] == b.lines[i]
    {
      assert LineSound(b, i);
      ShipLineEffect(b.lines, inputs, cost, |inputs|, i);
    }
    forall d: nat | d < |b.discrepancies| ensures DiscrepancySound(after, d) { assert DiscrepancySound(b, d); }
    forall w: nat | w < |b.writeOffs| ensures WriteOffSound(after, w) { assert WriteOffSound(b, w); }
  }

  lemma {:induction false} NewFaults(lines: seq<Line>, inputs: seq<Item>, i: nat)
    requires forall j :: 0 <= j < |inputs| ==> inputs[j].line < |lines| && !MalformedItem(inputs[j])
    ensures Sum(NewDiscrepancies(lines, inputs), FaultOn(i)) == Sum(inputs, On(i, DAMAGED)) + Sum(inputs, On(i, SHORT))
  {
    if inputs != [] {
      var rest, x := inputs[..|inputs| - 1], inputs[|inputs| - 1];
      NewFaults(lines, rest, i);
      assert inputs == rest + [x];
      SumAppend(rest, x, On(i, DAMAGED));
      SumAppend(rest, x, On(i, SHORT));
      if x.damaged > 0 || x.short > 0 {
        SumAppend(NewDiscrepancies(lines, rest),
                  Discrepancy(x.line, x.damaged + x.short, lines[x.line].cost, RECORDED, false), FaultOn(i));
      } else {
        assert NewDiscrepancies(lines, inputs) == NewDiscrepancies(lines, rest);
      }
    }
  }

  lemma {:induction false} NewDiscrepancyRows(lines: seq<Line>, inputs: seq<Item>)
    requires forall j :: 0 <= j < |inputs| ==> inputs[j].line < |lines| && !MalformedItem(inputs[j])
    ensures forall d :: 0 <= d < |NewDiscrepancies(lines, inputs)| ==>
              var row := NewDiscrepancies(lines, inputs)[d];
              && row.quantity > 0 && row.status == RECORDED && row.line < |lines| && row.cost == lines[row.line].cost
              && exists j :: 0 <= j < |inputs| && inputs[j].line == row.line
  {
    if inputs != [] {
      var n := |inputs| - 1;
      NewDiscrepancyRows(lines, inputs[..n]);
      forall d | 0 <= d < |NewDiscrepancies(lines, inputs[..n])|
        ensures exists j :: 0 <= j < |inputs| && inputs[j].line == NewDiscrepancies(lines, inputs[..n])[d].line
      {
        var j :| 0 <= j < n && inputs[..n][j].line == NewDiscrepancies(lines, inputs[..n])[d].line;
        assert inputs[j].line == inputs[..n][j].line;
      }
    }
  }

  /** What one receipt may add to a line fits what the line has left. */
  lemma {:induction false} ReceiptFits(lines: seq<Line>, inputs: seq<Item>, i: nat)
    requires i < |lines| && Remaining(lines[i]) >= 0
    requires forall j :: 0 <= j < |inputs| ==>
               inputs[j].line < |lines| && !MalformedItem(inputs[j])
                 && ReceiptTotal(inputs, inputs[j].line) <= Remaining(lines[inputs[j].line])
    ensures Sum(inputs, On(i, GOOD)) >= 0 && Sum(inputs, On(i, DAMAGED)) >= 0 && Sum(inputs, On(i, SHORT)) >= 0
    ensures ReceiptTotal(inputs, i) <= Remaining(lines[i])
    ensures (forall j :: 0 <= j < |inputs| ==> inputs[j].line != i) ==> AddReceipt(lines[i], i, inputs) == lines[i]
  {
    SumNonNegative(inputs, On(i, GOOD));
    SumNonNegative(inputs, On(i, DAMAGED));
    SumNonNegative(inputs, On(i, SHORT));
    if forall j :: 0 <= j < |inputs| ==> inputs[j].line != i {
      SumZero(inputs, On(i, GOOD));
      SumZero(inputs, On(i, DAMAGED));
      SumZero(inputs, On(i, SHORT));
    }
  }

  lemma {:induction false} ReceiveLineSound(b: Book, t: nat, inputs: seq<Item>, i: nat)
    requires Sound(b) && Receive(b, t, inputs).1 == Done && i < |b.lines|
    ensures LineSound(Receive(b, t, inputs).0, i)
  {
    assert LineSound(b, i);
    ReceiptFits(b.lines, inputs, i);
    NewFaults(b.lines, inputs, i);
    SumConcat(b.items, inputs, On(i, GOOD));
    SumConcat(b.items, inputs, On(i, DAMAGED));
    SumConcat(b.items, inputs, On(i, SHORT));
    SumConcat(b.discrepancies, NewDiscrepancies(b.lines, inputs), FaultOn(i));
  }

  lemma {:induction false} ReceivedDiscrepancySound(b: Book, t: nat, inputs: seq<Item>, d: nat)
    requires Sound(b) && Receive(b, t, inputs).1 == Done && d < |Receive(b, t, inputs).0.discrepancies|
    ensures DiscrepancySound(Receive(b, t, inputs).0, d)
  {
    var after := Receive(b, t, inputs).0;
    NewDiscrepancyRows(b.lines, inputs);
    if d < |b.discrepancies| {
      assert DiscrepancySound(b, d);
    } else {
      assert after.discrepancies[d] == NewDiscrepancies(b.lines, inputs)[d - |b.discrepancies|];
      forall w: nat | w < |b.writeOffs| ensures b.writeOffs[w].discrepancy != d { assert WriteOffSound(b, w); }
      SumZero(b.writeOffs, PostedFor(d));
    }
  }

  lemma {:induction false} ReceiveSound(b: Book, t: nat, inputs: seq<Item>)
    requires Sound(b) && Receive(b, t, inputs).1 == Done
    ensures Sound(Receive(b, t, inputs).0)
  {
    var after := Receive(b, t, inputs).0;
    forall i: nat | i < |b.lines| ensures LineSound(after, i) { ReceiveLineSound(b, t, inputs, i); }
    NewDiscrepancyRows(b.lines, inputs);
    forall d: nat | d < |after.discrepancies| ensures DiscrepancySound(after, d) {
      ReceivedDiscrepancySound(b, t, inputs, d);
    }
    forall w: nat | w < |b.writeOffs| ensures WriteOffSound(after, w) { assert WriteOffSound(b, w); }
  }

  lemma {:induction false} FindingSound(b: Book, d: nat, from: Finding, to: Finding, vendorCaused: bool)
    requires Sound(b)
    requires from != RESOLVED || (to == INVESTIGATING && !HasPending(b.writeOffs, d))
    ensures Sound(SetFinding(b, d, from, to, vendorCaused).0)
  {
    var after := SetFinding(b, d, from, to, vendorCaused).0;
    if d < |b.discrepancies| && b.discrepancies[d].status == from {
      forall i: nat | i < |b.lines| ensures LineSound(after, i) {
        assert LineSound(b, i);
        SumUpdate(b.discrepancies, d, after.discrepancies[d], FaultOn(i));
      }
      forall c: nat | c < |b.discrepancies| ensures DiscrepancySound(after, c) { assert DiscrepancySound(b, c); }
      forall w: nat | w < |b.writeOffs| ensures WriteOffSound(after, w) { assert WriteOffSound(b, w); }
    }
  }

  lemma {:induction false} RequestSound(b: Book, d: nat, quantity: int, actor: nat)
    requires Sound(b) && Request(b, d, quantity, actor).1 == Done
    ensures Sound(Request(b, d, quantity, actor).0)
  {
    var after := Request(b, d, quantity, actor).0;
    var row := after.writeOffs[|b.writeOffs|];
    forall i: nat | i < |b.lines| ensures LineSound(after, i) {
      assert LineSound(b, i);
      SumAppend(b.writeOffs, row, PostedOn(i));
    }
    forall c: nat | c < |b.discrepancies| ensures DiscrepancySound(after, c) {
      assert DiscrepancySound(b, c);
      SumAppend(b.writeOffs, row, PostedFor(c));
    }
    forall w: nat | w < |after.writeOffs| ensures WriteOffSound(after, w) {
      assert w < |b.writeOffs| ==> WriteOffSound(b, w);
    }
  }

  /** Deciding or reversing one write-off: what it moves on its line and its discrepancy. */
  lemma {:induction false} StatusMoves(b: Book, w: nat, status: WriteOffStatus, i: nat, d: nat)
    requires w < |b.writeOffs|
    ensures var row, after := b.writeOffs[w], SetStatus(b, w, status);
            var delta :=
                (if status == POSTED then row.quantity else 0) - (if row.status == POSTED then row.quantity else 0);
            && Sum(after.writeOffs, PostedOn(i)) == Sum(b.writeOffs, PostedOn(i)) + (if row.line == i then delta else 0)
            && Sum(after.writeOffs, PostedFor(d))
                 == Sum(b.writeOffs, PostedFor(d)) + (if row.discrepancy == d then delta else 0)
  {
    SumUpdate(b.writeOffs, w, b.writeOffs[w].(status := status), PostedOn(i));
    SumUpdate(b.writeOffs, w, b.writeOffs[w].(status := status), PostedFor(d));
  }

  lemma {:induction false} PostedNonNegative(b: Book, d: nat)
    requires Sound(b)
    ensures Sum(b.writeOffs, PostedFor(d)) >= 0
    ensures forall w :: 0 <= w < |b.writeOffs| && b.writeOffs[w].status == POSTED && b.writeOffs[w].discrepancy == d ==>
              b.writeOffs[w].quantity <= Sum(b.writeOffs, PostedFor(d))
  {
    forall w: nat | w < |b.writeOffs| ensures PostedFor(d)(b.writeOffs[w]) >= 0 { assert WriteOffSound(b, w); }
    SumNonNegative(b.writeOffs, PostedFor(d));
    forall w: nat | w < |b.writeOffs| && b.writeOffs[w].status == POSTED && b.writeOffs[w].discrepancy == d
      ensures b.writeOffs[w].quantity <= Sum(b.writeOffs, PostedFor(d))
    {
      assert PostedFor(d)(b.writeOffs[w]) == b.writeOffs[w].quantity;
    }
  }

  /** The guard at approval is never what stops a write-off: with one request pending at a time, it
      still fits the discrepancy when it is decided; nor can a denial find its discrepancy reopened. */
  lemma {:induction false} DecisionGuardsHold(b: Book, w: nat)
    requires Sound(b) && w < |b.writeOffs| && b.writeOffs[w].status == PENDING_APPROVAL
    ensures b.writeOffs[w].discrepancy < |b.discrepancies|
    ensures b.writeOffs[w].quantity <= Unresolved(b, b.writeOffs[w].discrepancy)
    ensures b.discrepancies[b.writeOffs[w].discrepancy].status == RESOLVED
    ensures b.writeOffs[w].line < |b.lines|
  {
    assert WriteOffSound(b, w) && DiscrepancySound(b, b.writeOffs[w].discrepancy);
  }

  lemma {:induction false} MoveSound(b: Book, w: nat, status: WriteOffStatus, sign: int)
    requires Sound(b) && w < |b.writeOffs|
    requires (sign == 1 && status == POSTED && b.writeOffs[w].status == PENDING_APPROVAL)
             || (sign == -1 && status == REVERSED && b.writeOffs[w].status == POSTED)
    ensures Sound(MoveWrittenOff(SetStatus(b, w, status), w, sign))
  {
    var after, row := MoveWrittenOff(SetStatus(b, w, status), w, sign), b.writeOffs[w];
    assert WriteOffSound(b, w);
    assert row.line < |b.lines|;
    if sign == 1 { DecisionGuardsHold(b, w); }
    forall i: nat | i < |b.lines| ensures LineSound(after, i) {
      assert LineSound(b, i);
      StatusMoves(b, w, status, i, row.discrepancy);
    }
    forall d: nat | d < |b.discrepancies| ensures DiscrepancySound(after, d) {
      assert DiscrepancySound(b, d);
      StatusMoves(b, w, status, row.line, d);
      PostedNonNegative(b, d);
    }
    forall v: nat | v < |b.writeOffs| ensures WriteOffSound(after, v) { assert WriteOffSound(b, v); }
  }

  lemma {:induction false} DenySound(b: Book, w: nat, actor: nat)
    requires Sound(b) && Deny(b, w, actor).1 == Done
    ensures Sound(Deny(b, w, actor).0)
  {
    var mid, d := SetStatus(b, w, DENIED), b.writeOffs[w].discrepancy;
    forall i: nat | i < |b.lines| ensures LineSound(mid, i) {
      assert LineSound(b, i);
      StatusMoves(b, w, DENIED, i, d);
    }
    forall c: nat | c < |b.discrepancies| ensures DiscrepancySound(mid, c) {
      assert DiscrepancySound(b, c);
      StatusMoves(b, w, DENIED, 0, c);
    }
    forall v: nat | v < |b.writeOffs| ensures WriteOffSound(mid, v) { assert WriteOffSound(b, v); }
    assert DiscrepancySound(b, d);
    assert !HasPending(mid.writeOffs, d);
    FindingSound(mid, d, RESOLVED, INVESTIGATING, false);
  }

  lemma {:induction false} CancelSound(b: Book, t: nat)
    requires Sound(b)
    ensures Sound(Cancel(b, t).0)
  {
    var after := Cancel(b, t).0;
    forall i: nat | i < |b.lines| ensures LineSound(after, i) { assert LineSound(b, i); }
    forall d: nat | d < |b.discrepancies| ensures DiscrepancySound(after, d) { assert DiscrepancySound(b, d); }
    forall w: nat | w < |b.writeOffs| ensures WriteOffSound(after, w) { assert WriteOffSound(b, w); }
  }

  lemma {:induction false} ApplySound(b: Book, op: Op)
    requires Sound(b)
    ensures Sound(Apply(b, op))
  {
    match op
    case OpCreate(requested) => CreateSound(b, requested);
    case OpCancel(t) => CancelSound(b, t);
    case OpShip(t, inputs, cost) => if Ship(b, t, inputs, cost).1 == Done { ShipSound(b, t, inputs, cost); }
    case OpReceive(t, inputs) => if Receive(b, t, inputs).1 == Done { ReceiveSound(b, t, inputs); }
    case OpInvestigate(d) => FindingSound(b, d, RECORDED, INVESTIGATING, false);
    case OpResolve(d, vendorCaused) => FindingSound(b, d, INVESTIGATING, RESOLVED, vendorCaused);
    case OpRequest(d, quantity, actor) =>
      if Request(b, d, quantity, actor).1 == Done { RequestSound(b, d, quantity, actor); }
    case OpApprove(w, actor) => if Approve(b, w, actor).1 == Done { MoveSound(b, w, POSTED, 1); }
    case OpDeny(w, actor) => if Deny(b, w, actor).1 == Done { DenySound(b, w, actor); }
    case OpReverse(w) => if Reverse(b, w).1 == Done { MoveSound(b, w, REVERSED, -1); }
  }

  /** Over every run: received, damaged and short quantities are the sums of the receipt items and
      stay within what was shipped, which stays within what was requested; what is written off is the
      sum of the posted write-offs. */
  lemma {:induction false} RunSound(b: Book, ops: seq<Op>)
    requires Sound(b)
    ensures Sound(Run(b, ops))
    decreases |ops|
  {
    if ops != [] {
      ApplySound(b, ops[0]);
      RunSound(Apply(b, ops[0]), ops[1..]);
    }
  }

  // ---- What a shipment moves and what it records --------------------------------------------------

  predicate EachLineOnce(inputs: seq<ShipInput>) {
    forall i, j :: 0 <= i < j < |inputs| ==> inputs[i].line != inputs[j].line
  }

  lemma {:induction false} ShippedGrows(lines: seq<Line>, inputs: seq<ShipInput>, cost: nat -> nat, n: nat)
    requires n < |inputs| && forall j :: 0 <= j < |inputs| ==> inputs[j].line < |lines|
    ensures Sum(ShipLines(lines, inputs, cost, n + 1), Shipped)
            == Sum(ShipLines(lines, inputs, cost, n), Shipped)
               + inputs[n].quantity - ShipLines(lines, inputs, cost, n)[inputs[n].line].shipped
  {
    var before, x := ShipLines(lines, inputs, cost, n), inputs[n];
    SumUpdate(before, x.line, before[x.line].(shipped := x.quantity, cost := cost(x.line)), Shipped);
  }

  lemma {:induction false} ShippedAtMostMoved(lines: seq<Line>, inputs: seq<ShipInput>, cost: nat -> nat, n: nat)
    requires n <= |inputs| && forall j :: 0 <= j < |inputs| ==> inputs[j].line < |lines| && inputs[j].quantity > 0
    requires forall j :: 0 <= j < |inputs| ==> lines[inputs[j].line].shipped == 0
    ensures var recorded := Sum(ShipLines(lines, inputs, cost, n), Shipped) - Sum(lines, Shipped);
            && recorded <= Sum(inputs[..n], ShipQuantity)
            && (recorded == Sum(inputs[..n], ShipQuantity) <==> EachLineOnce(inputs[..n]))
  {
    if n > 0 {
      ShippedAtMostMoved(lines, inputs, cost, n - 1);
      ShippedGrows(lines, inputs, cost, n - 1);
      ShipLineEffect(lines, inputs, cost, n - 1, inputs[n - 1].line);
      assert inputs[..n] == inputs[..n - 1] + [inputs[n - 1]];
      SumAppend(inputs[..n - 1], inputs[n - 1], ShipQuantity);
      OnceMore(inputs, n);
    }
  }

  lemma {:induction false} OnceMore(inputs: seq<ShipInput>, n: nat)
    requires 0 < n <= |inputs|
    ensures EachLineOnce(inputs[..n])
            <==> EachLineOnce(inputs[..n - 1]) && forall j :: 0 <= j < n - 1 ==> inputs[j].line != inputs[n - 1].line
  {
    var all, before := inputs[..n], inputs[..n - 1];
    assert forall j :: 0 <= j < n - 1 ==> before[j] == all[j] == inputs[j];
  }

  /** A shipment records on its lines what it moved out of stock if and only if it names each line at
      most once: a second input for a line moves its quantity as well but overwrites the record. */
  lemma {:induction false} ShipRecordsWhatMovedIff(b: Book, t: nat, inputs: seq<ShipInput>, cost: nat -> nat)
    requires Sound(b) && Ship(b, t, inputs, cost).1 == Done
    ensures Sum(Ship(b, t, inputs, cost).0.lines, Shipped) - Sum(b.lines, Shipped) == Sum(inputs, ShipQuantity)
            <==> EachLineOnce(inputs)
  {
    forall j | 0 <= j < |inputs| ensures b.lines[inputs[j].line].shipped == 0 {
      assert LineSound(b, inputs[j].line);
    }
    ShippedAtMostMoved(b.lines, inputs, cost, |inputs|);
    assert inputs[..|inputs|] == inputs;
  }

  // ---- The in-transit account ----------------------------------------------------------------------

  /** The exact value still travelling on a line. */
  function ValueInTransit(l: Line): int {
    (l.shipped - l.received - l.writtenOff) * l.cost
  }

  function ReportedInTransit(l: Line): int {
    Round((l.shipped - l.received - l.writtenOff) * l.cost, MICRO)
  }

  /** The account is within half a ledger unit per rounded amount of the exact value, and what was
      shipped without staying on record. */
  ghost predicate AccountNear(b: Book) {
    -(MICRO * b.roundings) <= 2 * (b.inTransit - Sum(b.lines, ValueInTransit) - b.unrecorded) <= MICRO * b.roundings
  }

  lemma {:induction false} EmptyAccountNear()
    ensures AccountNear(EMPTY)
  {
  }

  /** Costs without digits beyond the third decimal price every quantity exactly. */
  predicate WholeCosts(lines: seq<Line>) {
    forall i :: 0 <= i < |lines| ==> lines[i].cost % MICRO == 0
  }

  /** What the last input for a line sets it to. */
  function LastFor(inputs: seq<ShipInput>, i: nat): int {
    if inputs == [] then 0
    else if Names(inputs[1..], i) then LastFor(inputs[1..], i)
    else if inputs[0].line == i then inputs[0].quantity else 0
  }

  lemma {:induction false} NamesAppend(inputs: seq<ShipInput>, x: ShipInput, i: nat)
    ensures Names(inputs + [x], i) <==> Names(inputs, i) || x.line == i
    ensures inputs != [] ==> (Names(inputs, i) <==> inputs[0].line == i || Names(inputs[1..], i))
    ensures !Names(inputs, i) ==> LastFor(inputs, i) == 0
  {
    var more := inputs + [x];
    assert more[|inputs|] == x && forall j :: 0 <= j < |inputs| ==> more[j] == inputs[j];
    if inputs != [] {
      assert forall j :: 0 <= j < |inputs[1..]| ==> inputs[1..][j] == inputs[j + 1];
      if j :| 0 < j < |inputs| && inputs[j].line == i { assert inputs[1..][j - 1].line == i; }
    }
  }

  lemma {:induction false} LastAppend(inputs: seq<ShipInput>, x: ShipInput, i: nat)
    ensures LastFor(inputs + [x], i) == if x.line == i then x.quantity else LastFor(inputs, i)
  {
    if inputs != [] {
      assert (inputs + [x])[1..] == inputs[1..] + [x];
      LastAppend(inputs[1..], x, i);
      NamesAppend(inputs[1..], x, i);
    } else {
      assert [] + [x] == [x] && [x][1..] == [];
    }
  }

  lemma {:induction false} OverwrittenGrows(inputs: seq<ShipInput>, x: ShipInput, cost: nat -> nat)
    ensures OverwrittenValue(inputs + [x], cost)
            == OverwrittenValue(inputs, cost) + LastFor(inputs, x.line) * cost(x.line)
  {
    if inputs == [] {
      assert [] + [x] == [x] && [x][1..] == [];
    } else {
      assert (inputs + [x])[1..] == inputs[1..] + [x];
      OverwrittenGrows(inputs[1..], x, cost);
      NamesAppend(inputs[1..], x, inputs[0].line);
      NamesAppend(inputs[1..], x, x.line);
    }
  }

  /** Each line a shipment has named records its last input. */
  lemma {:induction false} ShippedLast(lines: seq<Line>, inputs: seq<ShipInput>, cost: nat -> nat, n: nat, i: nat)
    requires n <= |inputs| && (forall j :: 0 <= j < |inputs| ==> inputs[j].line < |lines|)
    requires i < |lines| && lines[i].shipped == 0 && lines[i].received == 0 && lines[i].writtenOff == 0
    ensures ValueInTransit(ShipLines(lines, inputs, cost, n)[i]) == LastFor(inputs[..n], i) * cost(i)
    ensures var l := ShipLines(lines, inputs, cost, n)[i]; l.received == 0 && l.writtenOff == 0
  {
    if n > 0 {
      ShippedLast(lines, inputs, cost, n - 1, i);
      assert inputs[..n] == inputs[..n - 1] + [inputs[n - 1]];
      LastAppend(inputs[..n - 1], inputs[n - 1], i);
    }
  }

  /** An overwritten input loses its value from the record, so none is lost when each line is named
      once, nor otherwise unless the goods cost nothing. */
  lemma {:induction false} NothingOverwrittenIff(inputs: seq<ShipInput>, cost: nat -> nat)
    requires forall j :: 0 <= j < |inputs| ==> inputs[j].quantity > 0 && cost(inputs[j].line) > 0
    ensures OverwrittenValue(inputs, cost) >= 0
    ensures OverwrittenValue(inputs, cost) == 0 <==> EachLineOnce(inputs)
  {
    if inputs != [] {
      var x, rest := inputs[0], inputs[1..];
      assert forall j :: 0 <= j < |rest| ==> rest[j] == inputs[j + 1];
      NothingOverwrittenIff(rest, cost);
      assert x.quantity * cost(x.line) > 0;
      if EachLineOnce(rest) && !Names(rest, x.line) {
        forall i, j | 0 <= i < j < |inputs| ensures inputs[i].line != inputs[j].line {
          assert inputs[j] == rest[j - 1] && (i > 0 ==> inputs[i] == rest[i - 1]);
        }
      }
      if EachLineOnce(inputs) {
        assert forall i, j :: 0 <= i < j < |rest| ==> rest[i] == inputs[i + 1] && rest[j] == inputs[j + 1];
      }
    }
  }

  /** What the last of `n` inputs adds to each of the three totals. */
  lemma {:induction false} OneMoreShipped(lines: seq<Line>, inputs: seq<ShipInput>, cost: nat -> nat, n: nat)
    requires 0 < n <= |inputs| && forall j :: 0 <= j < |inputs| ==> inputs[j].line < |lines|
    requires var l := lines[inputs[n - 1].line]; l.shipped == 0 && l.received == 0 && l.writtenOff == 0
    ensures var x, was := inputs[n - 1], ValueInTransit(ShipLines(lines, inputs, cost, n - 1)[inputs[n - 1].line]);
            && Sum(ShipLines(lines, inputs, cost, n), ValueInTransit)
               == Sum(ShipLines(lines, inputs, cost, n - 1), ValueInTransit) - was + x.quantity * cost(x.line)
            && Sum(inputs[..n], ShipValue(cost)) == Sum(inputs[..n - 1], ShipValue(cost)) + ShipValue(cost)(x)
            && OverwrittenValue(inputs[..n], cost) == OverwrittenValue(inputs[..n - 1], cost) + was
  {
    var before, x := ShipLines(lines, inputs, cost, n - 1), inputs[n - 1];
    ShippedLast(lines, inputs, cost, n - 1, x.line);
    SumUpdate(before, x.line, before[x.line].(shipped := x.quantity, cost := cost(x.line)), ValueInTransit);
    assert inputs[..n] == inputs[..n - 1] + [x];
    SumAppend(inputs[..n - 1], x, ShipValue(cost));
    OverwrittenGrows(inputs[..n - 1], x, cost);
  }

  lemma {:induction false} ShippedValue(lines: seq<Line>, inputs: seq<ShipInput>, cost: nat -> nat, n: nat)
    requires n <= |inputs| && forall j :: 0 <= j < |inputs| ==> inputs[j].line < |lines|
    requires forall j :: 0 <= j < |inputs| ==>
               var l := lines[inputs[j].line]; l.shipped == 0 && l.received == 0 && l.writtenOff == 0
    ensures var off := Sum(inputs[..n], ShipValue(cost)) - OverwrittenValue(inputs[..n], cost)
                       - (Sum(ShipLines(lines, inputs, cost, n), ValueInTransit) - Sum(lines, ValueInTransit));
            && -(MICRO * n) <= 2 * off <= MICRO * n
            && ((forall j :: 0 <= j < n ==> cost(inputs[j].line) % MICRO == 0) ==> off == 0)
  {
    if n > 0 {
      ShippedValue(lines, inputs, cost, n - 1);
      var x := inputs[n - 1];
      OneMoreShipped(lines, inputs, cost, n);
      AmountNear(x.quantity, cost(x.line));
    }
  }

  lemma {:induction false} GoodOnLine(lines: seq<Line>, inputs: seq<Item>, i: nat)
    requires i < |lines|
    ensures Sum(inputs, On(i, GoodValue(lines))) == Sum(inputs, On(i, GOOD)) * lines[i].cost
  {
    if inputs != [] {
      GoodOnLine(lines, inputs[1..], i);
      var g, rest, c := On(i, GOOD)(inputs[0]), Sum(inputs[1..], On(i, GOOD)), lines[i].cost;
      assert (g + rest) * c == g * c + rest * c;
    }
  }

  lemma {:induction false} ReceivedOnLine(lines: seq<Line>, inputs: seq<Item>, i: nat)
    requires i < |lines|
    ensures ValueInTransit(lines[i])
            == ValueInTransit(AddReceipts(lines, inputs)[i]) + Sum(inputs, On(i, GoodValue(lines)))
  {
    GoodOnLine(lines, inputs, i);
    var l, g := lines[i], Sum(inputs, On(i, GOOD));
    var rest := l.shipped - l.received - l.writtenOff;
    assert rest * l.cost == (rest - g) * l.cost + g * l.cost;
    assert l.shipped - (l.received + g) - l.writtenOff == rest - g;
  }

  /** The value the good quantities of one receipt take out of transit. */
  lemma {:induction false} ReceivedValue(lines: seq<Line>, inputs: seq<Item>)
    requires forall j :: 0 <= j < |inputs| ==> inputs[j].line < |lines|
    ensures Sum(AddReceipts(lines, inputs), ValueInTransit)
            == Sum(lines, ValueInTransit) - Sum(inputs, GoodValue(lines))
  {
    var after := AddReceipts(lines, inputs);
    var taken := seq(|lines|, i requires 0 <= i < |lines| => Sum(inputs, On(i, GoodValue(lines))));
    GroupTotals(inputs, ITEM_LINE, GoodValue(lines), taken);
    forall i: nat | i < |lines|
      ensures Values(lines, ValueInTransit)[i] == Values(after, ValueInTransit)[i] + taken[i] {
      ReceivedOnLine(lines, inputs, i);
    }
    SumPairwise(Values(after, ValueInTransit), taken, Values(lines, ValueInTransit));
    ValuesSum(lines, ValueInTransit);
    ValuesSum(after, ValueInTransit);
  }

  lemma {:induction false} ReceiptRoundings(lines: seq<Line>, inputs: seq<Item>)
    requires forall j :: 0 <= j < |inputs| ==> inputs[j].line < |lines|
    ensures var off := Sum(inputs, ReceiptValue(lines)) - Sum(inputs, GoodValue(lines));
            && -(MICRO * |inputs|) <= 2 * off <= MICRO * |inputs|
            && (WholeCosts(lines) ==> off == 0)
  {
    if inputs != [] {
      var x := inputs[0];
      assert forall j :: 0 <= j < |inputs[1..]| ==> inputs[1..][j] == inputs[j + 1];
      ReceiptRoundings(lines, inputs[1..]);
      LedgerRounding(x.good * lines[x.line].cost);
      if WholeCosts(lines) { WholeProduct(x.good, lines[x.line].cost); }
    }
  }

  lemma {:induction false} MoveOnLine(l: Line, quantity: int, sign: int)
    requires sign == 1 || sign == -1
    ensures ValueInTransit(l.(writtenOff := l.writtenOff + sign * quantity))
            == ValueInTransit(l) - sign * (quantity * l.cost)
  {
    var rest := l.shipped - l.received - l.writtenOff;
    if sign == 1 {
      assert (rest - quantity) * l.cost == rest * l.cost - quantity * l.cost;
    } else {
      assert (rest + quantity) * l.cost == rest * l.cost + quantity * l.cost;
    }
  }

  lemma {:induction false} AmountNear(quantity: int, cost: nat)
    ensures -MICRO <= 2 * (Round(quantity * cost, MICRO) - quantity * cost) <= MICRO
    ensures cost % MICRO == 0 ==> Round(quantity * cost, MICRO) == quantity * cost
  {
    LedgerRounding(quantity * cost);
    if cost % MICRO == 0 { WholeProduct(quantity, cost); }
  }

  lemma {:induction false} WriteOffValue(b: Book, w: nat, status: WriteOffStatus, sign: int)
    requires Sound(b) && w < |b.writeOffs| && (sign == 1 || sign == -1)
    ensures var after, row := MoveWrittenOff(SetStatus(b, w, status), w, sign), b.writeOffs[w];
            && row.line < |b.lines| && |after.lines| == |b.lines|
            && Sum(after.lines, ValueInTransit)
                 == Sum(b.lines, ValueInTransit) - sign * (row.quantity * b.lines[row.line].cost)
            && -MICRO <= 2 * (row.amount - row.quantity * b.lines[row.line].cost) <= MICRO
            && (WholeCosts(b.lines) ==> row.amount == row.quantity * b.lines[row.line].cost)
  {
    var row := b.writeOffs[w];
    assert WriteOffSound(b, w) && DiscrepancySound(b, row.discrepancy);
    var l := b.lines[row.line];
    MoveOnLine(l, row.quantity, sign);
    SumUpdate(b.lines, row.line, l.(writtenOff := l.writtenOff + sign * row.quantity), ValueInTransit);
    AmountNear(row.quantity, l.cost);
  }

  /** One step moves the account away from the exact value by at most half a ledger unit for each
      amount it rounds, and not at all when every cost has at most three decimals. */
  ghost predicate Drifts(b: Book, after: Book) {
    var off := (after.inTransit - Sum(after.lines, ValueInTransit) - after.unrecorded)
               - (b.inTransit - Sum(b.lines, ValueInTransit) - b.unrecorded);
    var roundings := after.roundings - b.roundings;
    && 0 <= roundings
    && -(MICRO * roundings) <= 2 * off <= MICRO * roundings
    && (WholeCosts(b.lines) && WholeCosts(after.lines) ==> off == 0)
  }

  lemma {:induction false} StepInTransit(b: Book, op: Op)
    requires Sound(b)
    ensures Drifts(b, Apply(b, op))
  {
    match op
    case OpCreate(requested) =>
      SumConcat(b.lines, NewLines(|b.transfers|, requested), ValueInTransit);
      SumZero(NewLines(|b.transfers|, requested), ValueInTransit);
    case OpShip(t, inputs, cost) => if Ship(b, t, inputs, cost).1 == Done { ShipInTransit(b, t, inputs, cost); }
    case OpReceive(t, inputs) => if Receive(b, t, inputs).1 == Done { ReceiveInTransit(b, t, inputs); }
    case OpApprove(w, actor) => if Approve(b, w, actor).1 == Done { WriteOffInTransit(b, w, POSTED, 1); }
    case OpReverse(w) => if Reverse(b, w).1 == Done { WriteOffInTransit(b, w, REVERSED, -1); }
    case _ =>
  }

  lemma {:induction false} ReceiveInTransit(b: Book, t: nat, inputs: seq<Item>)
    requires Sound(b) && Receive(b, t, inputs).1 == Done
    ensures Drifts(b, Receive(b, t, inputs).0)
  {
    ReceivedValue(b.lines, inputs);
    ReceiptRoundings(b.lines, inputs);
  }

  lemma {:induction false} WriteOffInTransit(b: Book, w: nat, status: WriteOffStatus, sign: int)
    requires Sound(b) && w < |b.writeOffs| && (sign == 1 || sign == -1)
    ensures Drifts(b, MoveWrittenOff(SetStatus(b, w, status), w, sign))
  {
    WriteOffValue(b, w, status, sign);
  }

  lemma {:induction false} ShipInTransit(b: Book, t: nat, inputs: seq<ShipInput>, cost: nat -> nat)
    requires Sound(b) && Ship(b, t, inputs, cost).1 == Done
    ensures Drifts(b, Ship(b, t, inputs, cost).0)
  {
    var after := Ship(b, t, inputs, cost).0;
    forall j | 0 <= j < |inputs|
      ensures var l := b.lines[inputs[j].line]; l.shipped == 0 && l.received == 0 && l.writtenOff == 0
    {
      assert LineSound(b, inputs[j].line);
      WrittenOffWithinFaults(b, inputs[j].line);
    }
    ShippedValue(b.lines, inputs, cost, |inputs|);
    assert inputs[..|inputs|] == inputs;
    if WholeCosts(after.lines) {
      forall j | 0 <= j < |inputs| ensures cost(inputs[j].line) % MICRO == 0 {
        ShipLineEffect(b.lines, inputs, cost, |inputs|, inputs[j].line);
        assert after.lines[inputs[j].line].cost == cost(inputs[j].line);
      }
    }
  }

  /** Over every run the account follows the goods: it differs from their exact value and what was
      shipped without staying on record by at most half a ledger unit for each amount that was rounded
      into it. */
  lemma {:induction false} RunAccountNear(b: Book, ops: seq<Op>)
    requires Sound(b) && AccountNear(b)
    ensures AccountNear(Run(b, ops))
    decreases |ops|
  {
    if ops != [] {
      ApplySound(b, ops[0]);
      StepInTransit(b, ops[0]);
      RunAccountNear(Apply(b, ops[0]), ops[1..]);
    }
  }

  /** What goes unrecorded only ever grows, and only by a shipment that names a line more than once;
      such a shipment does lose some whenever its goods cost something. */
  lemma {:induction false} UnrecordedGrowsIff(b: Book, op: Op)
    requires op.OpShip? ==> forall j :: 0 <= j < |op.shipInputs| ==> op.cost(op.shipInputs[j].line) > 0
    ensures Apply(b, op).unrecorded >= b.unrecorded
    ensures Apply(b, op).unrecorded > b.unrecorded <==>
            op.OpShip? && Ship(b, op.t, op.shipInputs, op.cost).1 == Done && !EachLineOnce(op.shipInputs)
  {
    if op.OpShip? && Ship(b, op.t, op.shipInputs, op.cost).1 == Done {
      NothingOverwrittenIff(op.shipInputs, op.cost);
    }
  }

  lemma {:induction false} ReportedNear(lines: seq<Line>)
    ensures -(MICRO * |lines|) <= 2 * (Sum(lines, ReportedInTransit) - Sum(lines, ValueInTransit)) <= MICRO * |lines|
    ensures WholeCosts(lines) ==> Sum(lines, ReportedInTransit) == Sum(lines, ValueInTransit)
  {
    if lines != [] {
      assert forall i :: 0 <= i < |lines[1..]| ==> lines[1..][i] == lines[i + 1];
      ReportedNear(lines[1..]);
      var l := lines[0];
      LedgerRounding((l.shipped - l.received - l.writtenOff) * l.cost);
      if WholeCosts(lines) { WholeProduct(l.shipped - l.received - l.writtenOff, l.cost); }
    }
  }

  /** A line with nothing left in transit reports nothing. */
  lemma {:induction false} OutstandingOnly(b: Book, i: nat)
    requires Sound(b) && i < |b.lines|
    ensures var l := b.lines[i];
            ReportedInTransit(l)
            == if l.shipped > l.received + l.writtenOff
              then Round((l.shipped - l.received - l.writtenOff) * l.cost, MICRO) else 0
  {
    assert LineSound(b, i);
    WrittenOffWithinFaults(b, i);
    var l := b.lines[i];
    assert l.shipped <= l.received + l.writtenOff ==> l.shipped - l.received - l.writtenOff == 0;
  }

  /** inventory_in_transit_reconciliation: the discrepancy it reports is what was shipped without
      staying on record, and rounding. */
  method Reconcile(b: Book) returns (discrepancy: int)
    requires Sound(b) && AccountNear(b)
    ensures discrepancy == b.inTransit - Sum(b.lines, ReportedInTransit)
    ensures -(MICRO * (b.roundings + |b.lines|)) <= 2 * (discrepancy - b.unrecorded)
            <= MICRO * (b.roundings + |b.lines|)
  {
    var outstanding := 0;
    for i := 0 to |b.lines|
      invariant outstanding == Sum(b.lines[..i], ReportedInTransit)
    {
      var l := b.lines[i];
      assert b.lines[..i + 1] == b.lines[..i] + [l];
      SumAppend(b.lines[..i], l, ReportedInTransit);
      OutstandingOnly(b, i);
      if l.shipped > l.received + l.writtenOff {
        outstanding := outstanding + Round((l.shipped - l.received - l.writtenOff) * l.cost, MICRO);
      }
    }
    assert b.lines[..|b.lines|] == b.lines;
    ReportedNear(b.lines);
    discrepancy := b.inTransit - outstanding;
  }

  /** Goods that cost nothing cannot be written off: the request is accepted, and no approval of it
      ever succeeds. */
  lemma {:induction false} WorthlessWriteOffStuck(b: Book, w: nat, actor: nat)
    requires Sound(b) && w < |b.writeOffs| && b.writeOffs[w].status == PENDING_APPROVAL
             && actor != b.writeOffs[w].initiatedBy
    ensures b.writeOffs[w].discrepancy < |b.discrepancies|
    ensures Approve(b, w, actor).1 == Done
            <==> 2 * b.writeOffs[w].quantity * b.discrepancies[b.writeOffs[w].discrepancy].cost >= MICRO
  {
    DecisionGuardsHold(b, w);
    assert WriteOffSound(b, w);
    var row := b.writeOffs[w];
    var x := row.quantity * b.discrepancies[row.discrepancy].cost;
    assert 2 * row.quantity * b.discrepancies[row.discrepancy].cost == 2 * x;
    assert x >= 0;
  }

  /** Two inputs for one line: five units leave the stock, three are on the record. */
  lemma {:induction false} DoubleInputLosesRecord()
    ensures var b := Create(EMPTY, [5]).0;
            var inputs := [ShipInput(0, 2), ShipInput(0, 3)];
            var after := Ship(b, 0, inputs, (i: nat) => 1).0;
            && Ship(b, 0, inputs, (i: nat) => 1).1 == Done
            && Sum(inputs, ShipQuantity) == 5 && |after.lines| == 1 && after.lines[0].shipped == 3
  {
    var b := Create(EMPTY, [5]).0;
    var inputs := [ShipInput(0, 2), ShipInput(0, 3)];
    var cost := (i: nat) => 1;
    assert b.lines == [Line(0, 5, 0, 0, 0, 0, 0, 0)] && b.transfers == [DRAFT];
    assert ShipProblem(b.lines, 0, inputs, 0) == Done;
    assert inputs == [inputs[0]] + [inputs[1]];
    SumAppend([inputs[0]], inputs[1], ShipQuantity);
    SumAppend([], inputs[0], ShipQuantity);
    assert [] + [inputs[0]] == [inputs[0]];
    assert ShipLines(b.lines, inputs, cost, 0) == b.lines;
    assert ShipLines(b.lines, inputs, cost, 1)[0].shipped == 2;
  }

  predicate ExactlyPriced(op: Op) {
    op.OpShip? ==> forall j :: 0 <= j < |op.shipInputs| ==> op.cost(op.shipInputs[j].line) % MICRO == 0
  }

  lemma {:induction false} CostsStayWhole(b: Book, op: Op)
    requires Sound(b) && WholeCosts(b.lines) && ExactlyPriced(op)
    ensures WholeCosts(Apply(b, op).lines)
  {
    if op.OpShip? && Ship(b, op.t, op.shipInputs, op.cost).1 == Done {
      forall i: nat | i < |b.lines| ensures Apply(b, op).lines[i].cost % MICRO == 0 {
        ShipLineEffect(b.lines, op.shipInputs, op.cost, |op.shipInputs|, i);
      }
    }
  }

  /** When every cost has at most three decimals, the account is the exact value throughout, and what
      was shipped without staying on record. */
  lemma {:induction false} RunAccountExact(b: Book, ops: seq<Op>)
    requires Sound(b) && WholeCosts(b.lines) && b.inTransit == Sum(b.lines, ValueInTransit) + b.unrecorded
    requires forall k :: 0 <= k < |ops| ==> ExactlyPriced(ops[k])
    ensures var after := Run(b, ops);
            after.inTransit == Sum(after.lines, ValueInTransit) + after.unrecorded
                            == Sum(after.lines, ReportedInTransit) + after.unrecorded
    decreases |ops|
  {
    if ops == [] {
      ReportedNear(b.lines);
    } else {
      ApplySound(b, ops[0]);
      StepInTransit(b, ops[0]);
      CostsStayWhole(b, ops[0]);
      assert forall k :: 0 <= k < |ops[1..]| ==> ops[1..][k] == ops[k + 1];
      RunAccountExact(Apply(b, ops[0]), ops[1..]);
    }
  }

  // ---- What each operation admits and does --------------------------------------------------------

  lemma {:induction false} CreateDoneIff(b: Book, requested: seq<int>)
    ensures var (after, o) := Create(b, requested);
            && (o == Done <==> forall i :: 0 <= i < |requested| ==> requested[i] > 0)
            && (o != Done ==> after == b && o == Rejected(INVALID_QUANTITY))
            && (o == Done ==>
                  && after.transfers == b.transfers + [DRAFT] && |after.lines| == |b.lines| + |requested|
                  && (forall i :: 0 <= i < |b.lines| ==> after.lines[i] == b.lines[i])
                  && (forall i :: 0 <= i < |requested| ==>
                        after.lines[|b.lines| + i] == Line(|b.transfers|, requested[i], 0, 0, 0, 0, 0, 0))
                  && after == b.(transfers := after.transfers, lines := after.lines))
  {
  }

  lemma {:induction false} CancelDoneIff(b: Book, t: nat)
    ensures var (after, o) := Cancel(b, t);
            && (o == Done <==> t < |b.transfers| && b.transfers[t] == DRAFT)
            && (o == Existing <==> t < |b.transfers| && b.transfers[t] == CANCELLED)
            && (o.Rejected? ==> o.error == if t >= |b.transfers| then NOT_FOUND else INVALID_TRANSFER_STATE)
            && after == if o == Done then b.(transfers := b.transfers[t := CANCELLED]) else b
  {
  }

  /** A shipment goes ahead if and only if it has inputs, each of a positive quantity within what was requested
      on a line of this transfer, and the transfer is a draft. */
  lemma {:induction false} ShipDoneIff(b: Book, t: nat, inputs: seq<ShipInput>, cost: nat -> nat)
    ensures var (after, o) := Ship(b, t, inputs, cost);
            && (o == Done <==>
                  && inputs != [] && t < |b.transfers| && b.transfers[t] == DRAFT
                  && forall j :: 0 <= j < |inputs| ==>
                       var x := inputs[j];
                       x.line < |b.lines| && b.lines[x.line].transfer == t
                         && 0 < x.quantity <= b.lines[x.line].requested)
            && (o != Done ==> after == b)
  {
  }

  predicate Shippable(b: Book, t: nat, x: ShipInput) {
    x.line < |b.lines| && b.lines[x.line].transfer == t && x.quantity <= b.lines[x.line].requested
  }

  /** What a refused shipment is refused for: the first input its lines cannot take, once nothing else is wrong. */
  lemma {:induction false} ShipRefusedFor(b: Book, t: nat, inputs: seq<ShipInput>, cost: nat -> nat)
    requires Ship(b, t, inputs, cost).1 != Done
    ensures var o := Ship(b, t, inputs, cost).1;
            if inputs == [] then o == Rejected(EMPTY_SHIPMENT)
            else if exists j :: 0 <= j < |inputs| && inputs[j].quantity <= 0 then o == Rejected(INVALID_QUANTITY)
            else if t >= |b.transfers| then o == Rejected(NOT_FOUND)
            else if b.transfers[t] != DRAFT then o == Rejected(INVALID_TRANSFER_STATE)
            else exists j :: 0 <= j < |inputs| && !Shippable(b, t, inputs[j])
                             && (forall k :: 0 <= k < j ==> Shippable(b, t, inputs[k]))
                             && o == Rejected(if inputs[j].line >= |b.lines|
                                                 || b.lines[inputs[j].line].transfer != t then NOT_FOUND
                                              else OVER_SHIPMENT)
  {
    if ShipCheck(b, t, inputs) == ShipProblem(b.lines, t, inputs, 0) != Done {
      var _ := FirstUnshippable(b, t, inputs, 0);
    }
  }

  lemma {:induction false} FirstUnshippable(b: Book, t: nat, inputs: seq<ShipInput>, n: nat) returns (j: nat)
    requires n <= |inputs| && ShipProblem(b.lines, t, inputs, n) != Done
    requires forall k :: 0 <= k < n ==> Shippable(b, t, inputs[k])
    ensures j < |inputs| && !Shippable(b, t, inputs[j])
    ensures forall k :: 0 <= k < j ==> Shippable(b, t, inputs[k])
    ensures ShipProblem(b.lines, t, inputs, n)
            == Rejected(if inputs[j].line >= |b.lines| || b.lines[inputs[j].line].transfer != t then NOT_FOUND
                        else OVER_SHIPMENT)
    decreases |inputs| - n
  {
    if Shippable(b, t, inputs[n]) { j := FirstUnshippable(b, t, inputs, n + 1); } else { j := n; }
  }

  /** Each line records its last input and the cost of the moment, other lines stay, and the account moves by
      what each input is worth, rounded on its own. */
  lemma {:induction false} ShipEffect(b: Book, t: nat, inputs: seq<ShipInput>, cost: nat -> nat)
    requires Ship(b, t, inputs, cost).1 == Done
    ensures var after := Ship(b, t, inputs, cost).0;
            && |after.lines| == |b.lines|
            && (forall j :: 0 <= j < |inputs|
                            && (forall k :: j < k < |inputs| ==> inputs[k].line != inputs[j].line) ==>
                  && inputs[j].line < |b.lines|
                  && after.lines[inputs[j].line]
                     == b.lines[inputs[j].line].(shipped := inputs[j].quantity, cost := cost(inputs[j].line)))
            && (forall i :: 0 <= i < |b.lines| && (forall j :: 0 <= j < |inputs| ==> inputs[j].line != i) ==>
                  after.lines[i] == b.lines[i])
            && after.transfers == b.transfers[t := SHIPPED]
            && after.inTransit == b.inTransit + Sum(inputs, (x: ShipInput) => Round(x.quantity * cost(x.line), MICRO))
            && after.items == b.items && after.discrepancies == b.discrepancies && after.writeOffs == b.writeOffs
  {
    SumSame(inputs, inputs, ShipValue(cost), (x: ShipInput) => Round(x.quantity * cost(x.line), MICRO));
    forall j: nat | j < |inputs| && (forall k :: j < k < |inputs| ==> inputs[k].line != inputs[j].line)
      ensures Ship(b, t, inputs, cost).0.lines[inputs[j].line]
              == b.lines[inputs[j].line].(shipped := inputs[j].quantity, cost := cost(inputs[j].line))
    {
      LastInputRecorded(b.lines, inputs, cost, |inputs|, j);
    }
    forall i: nat | i < |b.lines| && (forall j :: 0 <= j < |inputs| ==> inputs[j].line != i)
      ensures Ship(b, t, inputs, cost).0.lines[i] == b.lines[i]
    {
      ShipLineEffect(b.lines, inputs, cost, |inputs|, i);
    }
  }

  lemma {:induction false} LastInputRecorded(lines: seq<Line>, inputs: seq<ShipInput>, cost: nat -> nat, n: nat, j: nat)
    requires j < n <= |inputs| && forall k :: 0 <= k < |inputs| ==> inputs[k].line < |lines|
    requires forall k :: j < k < n ==> inputs[k].line != inputs[j].line
    ensures ShipLines(lines, inputs, cost, n)[inputs[j].line]
            == lines[inputs[j].line].(shipped := inputs[j].quantity, cost := cost(inputs[j].line))
  {
    if j + 1 < n {
      LastInputRecorded(lines, inputs, cost, n - 1, j);
    } else {
      ShipLineEffect(lines, inputs, cost, j, inputs[j].line);
    }
  }

  /** All units of one line in a receipt, whatever state they arrived in. */
  function ArrivedOn(i: nat): Item -> int {
    (x: Item) => if x.line == i then x.good + x.damaged + x.short else 0
  }

  lemma {:induction false} ReceiptTotalIs(inputs: seq<Item>, i: nat)
    ensures ReceiptTotal(inputs, i) == Sum(inputs, ArrivedOn(i))
    ensures Sum(inputs, On(i, GOOD)) == Sum(inputs, (x: Item) => if x.line == i then x.good else 0)
    ensures Sum(inputs, On(i, DAMAGED)) == Sum(inputs, (x: Item) => if x.line == i then x.damaged else 0)
    ensures Sum(inputs, On(i, SHORT)) == Sum(inputs, (x: Item) => if x.line == i then x.short else 0)
  {
    SumSame(inputs, inputs, On(i, GOOD), (x: Item) => if x.line == i then x.good else 0);
    SumSame(inputs, inputs, On(i, DAMAGED), (x: Item) => if x.line == i then x.damaged else 0);
    SumSame(inputs, inputs, On(i, SHORT), (x: Item) => if x.line == i then x.short else 0);
    var faults := (x: Item) => if x.line == i then x.damaged + x.short else 0;
    SumAdd(inputs, faults, On(i, DAMAGED), On(i, SHORT));
    SumAdd(inputs, ArrivedOn(i), On(i, GOOD), faults);
  }

  /** A receipt goes ahead if and only if it has inputs, none negative and none empty, on lines of a shipped
      transfer, and no line is received beyond what is still under way on it. */
  lemma {:induction false} ReceiveDoneIff(b: Book, t: nat, inputs: seq<Item>)
    ensures var (after, o) := Receive(b, t, inputs);
            && (o == Done <==>
                  && inputs != [] && t < |b.transfers| && b.transfers[t] == SHIPPED
                  && (forall j :: 0 <= j < |inputs| ==>
                        var x := inputs[j];
                        && x.good >= 0 && x.damaged >= 0 && x.short >= 0 && x.good + x.damaged + x.short > 0
                        && x.line < |b.lines| && b.lines[x.line].transfer == t
                        && b.lines[x.line].received + b.lines[x.line].damaged + b.lines[x.line].short
                           + Sum(inputs, ArrivedOn(x.line)) <= b.lines[x.line].shipped))
            && (o != Done ==> after == b)
  {
    forall j | 0 <= j < |inputs|
      ensures ReceiptTotal(inputs, inputs[j].line) == Sum(inputs, ArrivedOn(inputs[j].line)) {
      ReceiptTotalIs(inputs, inputs[j].line);
    }
  }

  predicate Receivable(b: Book, t: nat, inputs: seq<Item>, i: nat) {
    && i < |b.lines| && b.lines[i].transfer == t
    && b.lines[i].received + b.lines[i].damaged + b.lines[i].short + Sum(inputs, ArrivedOn(i)) <= b.lines[i].shipped
  }

  /** What a refused receipt is refused for: the first input whose line cannot take what arrived on it, once nothing
      else is wrong. */
  lemma {:induction false} ReceiveRefusedFor(b: Book, t: nat, inputs: seq<Item>)
    requires Receive(b, t, inputs).1 != Done
    ensures var o := Receive(b, t, inputs).1;
            if inputs == [] then o == Rejected(EMPTY_RECEIPT)
            else if exists j :: 0 <= j < |inputs| && (inputs[j].good < 0 || inputs[j].damaged < 0 || inputs[j].short < 0
                                || inputs[j].good + inputs[j].damaged + inputs[j].short == 0)
            then o == Rejected(INVALID_QUANTITY)
            else if t >= |b.transfers| then o == Rejected(NOT_FOUND)
            else if b.transfers[t] != SHIPPED then o == Rejected(INVALID_TRANSFER_STATE)
            else exists j :: 0 <= j < |inputs| && !Receivable(b, t, inputs, inputs[j].line)
                             && (forall k :: 0 <= k < j ==> Receivable(b, t, inputs, inputs[k].line))
                             && o == Rejected(if inputs[j].line >= |b.lines|
                                                 || b.lines[inputs[j].line].transfer != t then NOT_FOUND
                                              else OVER_RECEIPT)
  {
    if ReceiptCheck(b, t, inputs) == ReceiptProblem(b.lines, t, inputs, 0) != Done {
      var _ := FirstUnreceivable(b, t, inputs, 0);
    }
  }

  lemma {:induction false} FirstUnreceivable(b: Book, t: nat, inputs: seq<Item>, n: nat) returns (j: nat)
    requires n <= |inputs| && ReceiptProblem(b.lines, t, inputs, n) != Done
    requires forall k :: 0 <= k < n ==> Receivable(b, t, inputs, inputs[k].line)
    ensures j < |inputs| && !Receivable(b, t, inputs, inputs[j].line)
    ensures forall k :: 0 <= k < j ==> Receivable(b, t, inputs, inputs[k].line)
    ensures ReceiptProblem(b.lines, t, inputs, n)
            == Rejected(if inputs[j].line >= |b.lines| || b.lines[inputs[j].line].transfer != t then NOT_FOUND
                        else OVER_RECEIPT)
    decreases |inputs| - n
  {
    ReceiptTotalIs(inputs, inputs[n].line);
    if Receivable(b, t, inputs, inputs[n].line) { j := FirstUnreceivable(b, t, inputs, n + 1); } else { j := n; }
  }

  /** Every line's good, damaged and short quantities grow by those of the inputs on it, and the account gives
      up what the good ones are worth, rounded input by input. */
  lemma {:induction false} ReceiveEffect(b: Book, t: nat, inputs: seq<Item>, i: nat)
    requires Receive(b, t, inputs).1 == Done && i < |b.lines|
    ensures var after, l := Receive(b, t, inputs).0, b.lines[i];
            && |after.lines| == |b.lines|
            && after.lines[i] == l.(
                 received := l.received + Sum(inputs, (x: Item) => if x.line == i then x.good else 0),
                 damaged := l.damaged + Sum(inputs, (x: Item) => if x.line == i then x.damaged else 0),
                 short := l.short + Sum(inputs, (x: Item) => if x.line == i then x.short else 0))
            && after.items == b.items + inputs && after.transfers == b.transfers && after.writeOffs == b.writeOffs
            && b.discrepancies <= after.discrepancies
            && after.inTransit == b.inTransit
                 - Sum(inputs,
                   (x: Item) => if x.line < |b.lines| then Round(x.good * b.lines[x.line].cost, MICRO) else 0)
  {
    ReceiptTotalIs(inputs, i);
    SumSame(inputs, inputs, ReceiptValue(b.lines),
      (x: Item) => if x.line < |b.lines| then Round(x.good * b.lines[x.line].cost, MICRO) else 0);
  }

  /** What one input records: a discrepancy of all its damaged and short units at the line's frozen cost, or
      nothing when there are none; the discrepancies of a receipt are those of its inputs, in their order. */
  lemma {:induction false} DiscrepancyOfInput(lines: seq<Line>, inputs: seq<Item>, x: Item)
    requires x.line < |lines| && forall k :: 0 <= k < |inputs| ==> inputs[k].line < |lines|
    ensures NewDiscrepancies(lines, inputs + [x])
            == NewDiscrepancies(lines, inputs)
               + if x.damaged > 0 || x.short > 0
                 then [Discrepancy(x.line, x.damaged + x.short, lines[x.line].cost, RECORDED, false)] else []
  {
    assert (inputs + [x])[..|inputs|] == inputs;
  }

  /** An investigation starts on what was recorded; a resolution ends one and says whose fault it was. */
  lemma {:induction false} FindingDoneIff(b: Book, d: nat, vendorCaused: bool)
    ensures var found := d < |b.discrepancies|;
            && (Apply(b, OpInvestigate(d)) ==
                  if found && b.discrepancies[d].status == RECORDED
                  then b.(discrepancies := b.discrepancies[d := b.discrepancies[d].(status := INVESTIGATING,
                    vendorCaused := false)])
                  else b)
            && (Apply(b, OpResolve(d, vendorCaused)) ==
                  if found && b.discrepancies[d].status == INVESTIGATING
                  then b.(discrepancies :=
                            b.discrepancies[d := b.discrepancies[d].(status := RESOLVED, vendorCaused := vendorCaused)])
                  else b)
            && (forall from, to :: SetFinding(b, d, from, to, vendorCaused).1 ==
                  if !found then Rejected(NOT_FOUND)
                  else if b.discrepancies[d].status != from then Rejected(INVALID_DISCREPANCY_STATE)
                  else Done)
  {
  }

  /** A write-off is requested if and only if the discrepancy is resolved, not the vendor's fault, has no
      request pending, and covers the quantity with what is already posted for it. */
  lemma {:induction false} RequestDoneIff(b: Book, d: nat, quantity: int, actor: nat)
    ensures var (after, o) := Request(b, d, quantity, actor);
            && (o == Done <==>
                  && quantity > 0 && d < |b.discrepancies|
                  && b.discrepancies[d].status == RESOLVED && !b.discrepancies[d].vendorCaused
                  && (forall w :: 0 <= w < |b.writeOffs| && b.writeOffs[w].discrepancy == d ==>
                        b.writeOffs[w].status != PENDING_APPROVAL)
                  && Sum(b.writeOffs, (w: WriteOff) => if w.discrepancy == d
                      && w.status == POSTED then w.quantity else 0)
                     + quantity <= b.discrepancies[d].quantity)
            && (o == Done ==>
                  after == b.(writeOffs := b.writeOffs
                     + [WriteOff(b.discrepancies[d].line, d, quantity,
                       Round(quantity * b.discrepancies[d].cost, MICRO), actor,
                                 PENDING_APPROVAL)]))
            && (o != Done ==> after == b)
            && (o != Done ==>
                  o == Rejected(if quantity <= 0 then INVALID_QUANTITY
                                else if d >= |b.discrepancies| then NOT_FOUND
                                else if b.discrepancies[d].status != RESOLVED then DISCREPANCY_NOT_RESOLVED
                                else if b.discrepancies[d].vendorCaused then VENDOR_CAUSED_NOT_ELIGIBLE
                                else if exists w :: 0 <= w < |b.writeOffs| && b.writeOffs[w].discrepancy == d
                                                    && b.writeOffs[w].status == PENDING_APPROVAL
                                then DUPLICATE_PENDING_WRITE_OFF
                                else QUANTITY_EXCEEDS_REMAINING_DISCREPANCY))
  {
    SumSame(b.writeOffs, b.writeOffs, PostedFor(d),
      (w: WriteOff) => if w.discrepancy == d && w.status == POSTED then w.quantity else 0);
    if HasPending(b.writeOffs, d) {
      var w :| 0 <= w < |b.writeOffs| && Pending(b.writeOffs[w], d);
    }
  }

  /** A pending request is approved by anybody but the one who made it, if it is worth anything; the line and
      the account then move by exactly its quantity and amount. */
  lemma {:induction false} ApproveDoneIff(b: Book, w: nat, actor: nat)
    requires Sound(b)
    ensures var (after, o) := Approve(b, w, actor);
            && (o == Done <==>
                  && w < |b.writeOffs| && b.writeOffs[w].status == PENDING_APPROVAL
                  && b.writeOffs[w].initiatedBy != actor && b.writeOffs[w].amount > 0)
            && (o == Existing <==> w < |b.writeOffs| && b.writeOffs[w].status != PENDING_APPROVAL)
            && (o.Rejected? ==>
                  o.error == if w >= |b.writeOffs| then NOT_FOUND
                             else if b.writeOffs[w].initiatedBy == actor then SELF_APPROVAL_PROHIBITED
                             else JOURNAL_LINE_CHECK)
            && (o != Done ==> after == b)
            && (o == Done ==> WrittenOffBy(b, after, w, POSTED, 1))
  {
    if w < |b.writeOffs| && b.writeOffs[w].status == PENDING_APPROVAL {
      DecisionGuardsHold(b, w);
      assert WriteOffSound(b, w);
    }
  }

  /** One write-off in a new status, its quantity on (or off) its line and its amount off (or on) the account. */
  predicate WrittenOffBy(b: Book, after: Book, w: nat, status: WriteOffStatus, sign: int)
    requires w < |b.writeOffs|
  {
    var row := b.writeOffs[w];
    && row.line < |b.lines|
    && after.writeOffs == b.writeOffs[w := row.(status := status)]
    && after.lines
        == b.lines[row.line := b.lines[row.line].(writtenOff := b.lines[row.line].writtenOff + sign * row.quantity)]
    && after.inTransit == b.inTransit - sign * row.amount
    && after.transfers == b.transfers && after.items == b.items && after.discrepancies == b.discrepancies
  }

  lemma {:induction false} DenyDoneIff(b: Book, w: nat, actor: nat)
    requires Sound(b)
    ensures var (after, o) := Deny(b, w, actor);
            && (o == Done <==>
                  w < |b.writeOffs| && b.writeOffs[w].status == PENDING_APPROVAL && b.writeOffs[w].initiatedBy != actor)
            && (o == Existing <==> w < |b.writeOffs| && b.writeOffs[w].status != PENDING_APPROVAL)
            && (o.Rejected? ==> o.error == if w >= |b.writeOffs| then NOT_FOUND else SELF_APPROVAL_PROHIBITED)
            && (o != Done ==> after == b)
            && (o == Done ==>
                  var row := b.writeOffs[w];
                  && row.discrepancy < |b.discrepancies|
                  && after == b.(writeOffs := b.writeOffs[w := row.(status := DENIED)],
                                 discrepancies := b.discrepancies[row.discrepancy :=
                                   b.discrepancies[row.discrepancy].(status := INVESTIGATING, vendorCaused := false)]))
  {
    if w < |b.writeOffs| && b.writeOffs[w].status == PENDING_APPROVAL {
      DecisionGuardsHold(b, w);
      assert WriteOffSound(b, w);
    }
  }

  lemma {:induction false} ReverseDoneIff(b: Book, w: nat)
    requires Sound(b)
    ensures var (after, o) := Reverse(b, w);
            && (o == Done <==> w < |b.writeOffs| && b.writeOffs[w].status == POSTED)
            && (o == Existing <==> w < |b.writeOffs| && b.writeOffs[w].status == REVERSED)
            && (o.Rejected? ==> o.error == if w >= |b.writeOffs| then NOT_FOUND else INVALID_WRITE_OFF_STATE)
            && (o != Done ==> after == b)
            && (o == Done ==> WrittenOffBy(b, after, w, REVERSED, -1))
  {
    if w < |b.writeOffs| { assert WriteOffSound(b, w); }
  }

  // ---- The service ---------------------------------------------------------------------------------

  /** What the next receipt item adds to the discrepancies and to the value received. */
  lemma {:induction false} OneMoreItem(lines: seq<Line>, inputs: seq<Item>, j: nat)
    requires j < |inputs| && forall k :: 0 <= k < |inputs| ==> inputs[k].line < |lines|
    ensures var x := inputs[j];
            && inputs[..j + 1] == inputs[..j] + [x]
            && Sum(inputs[..j + 1], ReceiptValue(lines))
               == Sum(inputs[..j], ReceiptValue(lines)) + ReceiptValue(lines)(x)
            && NewDiscrepancies(lines, inputs[..j + 1])
               == NewDiscrepancies(lines, inputs[..j])
                  + if x.damaged <= 0 && x.short <= 0 then []
                    else [Discrepancy(x.line, x.damaged + x.short, lines[x.line].cost, RECORDED, false)]
  {
    assert inputs[..j + 1] == inputs[..j] + [inputs[j]] && inputs[..j + 1][..j] == inputs[..j];
    SumAppend(inputs[..j], inputs[j], ReceiptValue(lines));
  }

  class TransferBook {
    var transfers: seq<TransferStatus>
    var lines: seq<Line>
    var items: seq<Item>
    var discrepancies: seq<Discrepancy>
    var writeOffs: seq<WriteOff>
    var inTransit: int
    ghost var roundings: nat
    ghost var unrecorded: int

    ghost function State(): Book
      reads this
    {
      Book(transfers, lines, items, discrepancies, writeOffs, inTransit, roundings, unrecorded)
    }

    constructor ()
      ensures State() == EMPTY && Sound(State())
    {
      transfers, lines, items, discrepancies, writeOffs := [], [], [], [], [];
      inTransit, roundings, unrecorded := 0, 0, 0;
    }

    method CreateTransfer(requested: seq<int>) returns (o: Outcome)
      requires Sound(State())
      modifies this
      ensures (State(), o) == Create(old(State()), requested)
      ensures Sound(State())
    {
      CreateSound(State(), requested);
      for i := 0 to |requested|
        invariant forall k :: 0 <= k < i ==> requested[k] > 0
      {
        if requested[i] <= 0 { return Rejected(INVALID_QUANTITY); }
      }
      lines := lines + NewLines(|transfers|, requested);
      transfers := transfers + [DRAFT];
      o := Done;
    }

    method CancelTransfer(t: nat) returns (o: Outcome)
      requires Sound(State())
      modifies this
      ensures (State(), o) == Cancel(old(State()), t)
      ensures Sound(State())
    {
      CancelSound(State(), t);
      if t >= |transfers| { return Rejected(NOT_FOUND); }
      if transfers[t] == CANCELLED { return Existing; }
      if transfers[t] != DRAFT { return Rejected(INVALID_TRANSFER_STATE); }
      transfers := transfers[t := CANCELLED];
      o := Done;
    }

    method InvestigateDiscrepancy(d: nat) returns (o: Outcome)
      requires Sound(State())
      modifies this
      ensures (State(), o) == SetFinding(old(State()), d, RECORDED, INVESTIGATING, false)
      ensures Sound(State())
    {
      FindingSound(State(), d, RECORDED, INVESTIGATING, false);
      if d >= |discrepancies| { return Rejected(NOT_FOUND); }
      if discrepancies[d].status != RECORDED { return Rejected(INVALID_DISCREPANCY_STATE); }
      discrepancies := discrepancies[d := discrepancies[d].(status := INVESTIGATING, vendorCaused := false)];
      o := Done;
    }

    method ResolveDiscrepancy(d: nat, vendorCaused: bool) returns (o: Outcome)
      requires Sound(State())
      modifies this
      ensures (State(), o) == SetFinding(old(State()), d, INVESTIGATING, RESOLVED, vendorCaused)
      ensures Sound(State())
    {
      FindingSound(State(), d, INVESTIGATING, RESOLVED, vendorCaused);
      if d >= |discrepancies| { return Rejected(NOT_FOUND); }
      if discrepancies[d].status != INVESTIGATING { return Rejected(INVALID_DISCREPANCY_STATE); }
      discrepancies := discrepancies[d := discrepancies[d].(status := RESOLVED, vendorCaused := vendorCaused)];
      o := Done;
    }

    method CheckShipment(t: nat, inputs: seq<ShipInput>) returns (o: Outcome)
      ensures o == ShipCheck(State(), t, inputs)
    {
      if inputs == [] { return Rejected(EMPTY_SHIPMENT); }
      if exists j :: 0 <= j < |inputs| && inputs[j].quantity <= 0 { return Rejected(INVALID_QUANTITY); }
      if t >= |transfers| { return Rejected(NOT_FOUND); }
      if transfers[t] != DRAFT { return Rejected(INVALID_TRANSFER_STATE); }
      for j := 0 to |inputs|
        invariant ShipProblem(lines, t, inputs, 0) == ShipProblem(lines, t, inputs, j)
      {
        if inputs[j].line >= |lines| || lines[inputs[j].line].transfer != t { return Rejected(NOT_FOUND); }
        if inputs[j].quantity > lines[inputs[j].line].requested { return Rejected(OVER_SHIPMENT); }
      }
      o := Done;
    }

    /** Freezes quantity and cost on each input's line, and adds up the value shipped. */
    method ShipInputs(inputs: seq<ShipInput>, cost: nat -> nat) returns (total: int)
      requires forall j :: 0 <= j < |inputs| ==> inputs[j].line < |lines|
      modifies this`lines
      ensures lines == ShipLines(old(lines), inputs, cost, |inputs|)
      ensures total == Sum(inputs, ShipValue(cost))
    {
      total := 0;
      for j := 0 to |inputs|
        invariant |lines| == |old(lines)|
        invariant lines == ShipLines(old(lines), inputs, cost, j) && total == Sum(inputs[..j], ShipValue(cost))
      {
        var x := inputs[j];
        assert inputs[..j + 1] == inputs[..j] + [x];
        SumAppend(inputs[..j], x, ShipValue(cost));
        lines := lines[x.line := lines[x.line].(shipped := x.quantity, cost := cost(x.line))];
        total := total + Round(x.quantity * cost(x.line), MICRO);
      }
      assert inputs[..|inputs|] == inputs;
    }

    method ShipTransfer(t: nat, inputs: seq<ShipInput>, cost: nat -> nat) returns (o: Outcome)
      requires Sound(State())
      modifies this
      ensures (State(), o) == Ship(old(State()), t, inputs, cost)
      ensures Sound(State())
    {
      ghost var b := State();
      o := CheckShipment(t, inputs);
      if o != Done { return; }
      var total := ShipInputs(inputs, cost);
      transfers, inTransit := transfers[t := SHIPPED], inTransit + total;
      roundings, unrecorded := roundings + |inputs|, unrecorded + OverwrittenValue(inputs, cost);
      ShipSound(b, t, inputs, cost);
    }

    method CheckReceipt(t: nat, inputs: seq<Item>) returns (o: Outcome)
      ensures o == ReceiptCheck(State(), t, inputs)
    {
      if inputs == [] { return Rejected(EMPTY_RECEIPT); }
      if exists j :: 0 <= j < |inputs| && MalformedItem(inputs[j]) { return Rejected(INVALID_QUANTITY); }
      if t >= |transfers| { return Rejected(NOT_FOUND); }
      if transfers[t] != SHIPPED { return Rejected(INVALID_TRANSFER_STATE); }
      for j := 0 to |inputs|
        invariant ReceiptProblem(lines, t, inputs, 0) == ReceiptProblem(lines, t, inputs, j)
      {
        if inputs[j].line >= |lines| || lines[inputs[j].line].transfer != t { return Rejected(NOT_FOUND); }
        if ReceiptTotal(inputs, inputs[j].line) > Remaining(lines[inputs[j].line]) { return Rejected(OVER_RECEIPT); }
      }
      o := Done;
    }

    /** The receipt items, their discrepancies, and the value of the good quantities. */
    method AddItems(inputs: seq<Item>) returns (total: int)
      requires forall j :: 0 <= j < |inputs| ==> inputs[j].line < |lines| && !MalformedItem(inputs[j])
      modifies this`items, this`discrepancies
      ensures items == old(items) + inputs
      ensures discrepancies == old(discrepancies) + NewDiscrepancies(lines, inputs)
      ensures total == Sum(inputs, ReceiptValue(lines))
    {
      total := 0;
      for j := 0 to |inputs|
        invariant items == old(items) + inputs[..j]
        invariant discrepancies == old(discrepancies) + NewDiscrepancies(lines, inputs[..j])
        invariant total == Sum(inputs[..j], ReceiptValue(lines))
      {
        var x := inputs[j];
        OneMoreItem(lines, inputs, j);
        if x.good > 0 { total := total + Round(x.good * lines[x.line].cost, MICRO); }
        items := items + [x];
        assert items == old(items) + inputs[..j + 1];
        if x.damaged > 0 || x.short > 0 {
          discrepancies :=
            discrepancies + [Discrepancy(x.line, x.damaged + x.short, lines[x.line].cost, RECORDED, false)];
        }
      }
      assert inputs[..|inputs|] == inputs;
    }

    method AddToLines(inputs: seq<Item>)
      modifies this`lines
      ensures lines == AddReceipts(old(lines), inputs)
    {
      for i := 0 to |lines|
        invariant |lines| == |old(lines)|
        invariant forall k: nat :: k < |lines| ==> lines[k] == if k < i then AddReceipt(old(lines)[k], k, inputs)
                  else old(lines)[k]
      {
        lines := lines[i := AddReceipt(lines[i], i, inputs)];
      }
    }

    method ReceiveTransfer(t: nat, inputs: seq<Item>) returns (o: Outcome)
      requires Sound(State())
      modifies this
      ensures (State(), o) == Receive(old(State()), t, inputs)
      ensures Sound(State())
    {
      ghost var b := State();
      o := CheckReceipt(t, inputs);
      if o != Done { return; }
      var total := AddItems(inputs);
      AddToLines(inputs);
      inTransit, roundings := inTransit - total, roundings + |inputs|;
      assert State() == Receive(b, t, inputs).0;
      ReceiveSound(b, t, inputs);
    }

    method RequestWriteOff(d: nat, quantity: int, actor: nat) returns (o: Outcome)
      requires Sound(State())
      modifies this
      ensures (State(), o) == Request(old(State()), d, quantity, actor)
      ensures Sound(State())
    {
      ApplySound(State(), OpRequest(d, quantity, actor));
      if quantity <= 0 { return Rejected(INVALID_QUANTITY); }
      if d >= |discrepancies| { return Rejected(NOT_FOUND); }
      var row := discrepancies[d];
      if row.status != RESOLVED { return Rejected(DISCREPANCY_NOT_RESOLVED); }
      if row.vendorCaused { return Rejected(VENDOR_CAUSED_NOT_ELIGIBLE); }
      if HasPending(writeOffs, d) { return Rejected(DUPLICATE_PENDING_WRITE_OFF); }
      if quantity > row.quantity - Sum(writeOffs, PostedFor(d)) {
        return Rejected(QUANTITY_EXCEEDS_REMAINING_DISCREPANCY);
      }
      writeOffs :=
        writeOffs + [WriteOff(row.line, d, quantity, Round(quantity * row.cost, MICRO), actor, PENDING_APPROVAL)];
      o := Done;
    }

    method ApproveWriteOff(w: nat, actor: nat) returns (o: Outcome)
      requires Sound(State())
      modifies this
      ensures (State(), o) == Approve(old(State()), w, actor)
      ensures Sound(State())
    {
      ApplySound(State(), OpApprove(w, actor));
      if w >= |writeOffs| { return Rejected(NOT_FOUND); }
      var row := writeOffs[w];
      if row.status != PENDING_APPROVAL { return Existing; }
      if actor == row.initiatedBy { return Rejected(SELF_APPROVAL_PROHIBITED); }
      DecisionGuardsHold(State(), w);
      if row.amount <= 0 { return Rejected(JOURNAL_LINE_CHECK); }
      var l := lines[row.line];
      writeOffs := writeOffs[w := row.(status := POSTED)];
      lines := lines[row.line := l.(writtenOff := l.writtenOff + row.quantity)];
      inTransit, roundings := inTransit - row.amount, roundings + 1;
      o := Done;
    }

    method DenyWriteOff(w: nat, actor: nat) returns (o: Outcome)
      requires Sound(State())
      modifies this
      ensures (State(), o) == Deny(old(State()), w, actor)
      ensures Sound(State())
    {
      ApplySound(State(), OpDeny(w, actor));
      if w >= |writeOffs| { return Rejected(NOT_FOUND); }
      var row := writeOffs[w];
      if row.status != PENDING_APPROVAL { return Existing; }
      if actor == row.initiatedBy { return Rejected(SELF_APPROVAL_PROHIBITED); }
      DecisionGuardsHold(State(), w);
      var d := row.discrepancy;
      writeOffs := writeOffs[w := row.(status := DENIED)];
      discrepancies := discrepancies[d := discrepancies[d].(status := INVESTIGATING, vendorCaused := false)];
      o := Done;
    }

    method ReverseWriteOff(w: nat) returns (o: Outcome)
      requires Sound(State())
      modifies this
      ensures (State(), o) == Reverse(old(State()), w)
      ensures Sound(State())
    {
      ApplySound(State(), OpReverse(w));
      if w >= |writeOffs| { return Rejected(NOT_FOUND); }
      var row := writeOffs[w];
      if row.status == REVERSED { return Existing; }
      if row.status != POSTED { return Rejected(INVALID_WRITE_OFF_STATE); }
      assert WriteOffSound(State(), w);
      var l := lines[row.line];
      writeOffs := writeOffs[w := row.(status := REVERSED)];
      lines := lines[row.line := l.(writtenOff := l.writtenOff - row.quantity)];
      inTransit, roundings := inTransit + row.amount, roundings + 1;
      o := Done;
    }
  }
}
