/** Three-way matching over whole runs: receipts, invoice postings and voids that share the lots of
    any number of purchase order items.

    Rows are kept in insertion order and identified by position.  A match row is never deleted; it
    is live while its invoice is POSTED. */
module ReceiptMatching {
  import opened Sums
  import opened FifoMatching

  datatype Status = DRAFT | POSTED | VOIDED

  datatype Line = Line(item: nat, quantity: nat)

  datatype Invoice = Invoice(lines: seq<Line>, status: Status)

  datatype Match = Match(invoice: nat, line: nat, lot: nat, quantity: nat, unitCost: nat)

  datatype Item = Item(lots: seq<Lot>, invoiced: int, matches: seq<Match>)

  datatype Book = Book(items: seq<Item>, invoices: seq<Invoice>)

  datatype Error =
    | NOT_FOUND | INVALID_QUANTITY | EMPTY_INVOICE | INVALID_INVOICE_STATE | OVER_INVOICING | INVOICE_HAS_PAYMENTS

  datatype Outcome = Done | Unchanged | Rejected(error: Error)

  // ---- Measures ----------------------------------------------------------------------------

  function LineShare(item: nat): Line -> int {
    (l: Line) => if l.item == item then l.quantity else 0
  }

  predicate Live(invoices: seq<Invoice>, m: Match) {
    m.invoice < |invoices| && invoices[m.invoice].status == POSTED
  }

  function LiveQuantity(invoices: seq<Invoice>): Match -> int {
    (m: Match) => if Live(invoices, m) then m.quantity else 0
  }

  function LiveOnLot(invoices: seq<Invoice>, k: nat): Match -> int {
    (m: Match) => if m.lot == k && Live(invoices, m) then m.quantity else 0
  }

  function OfInvoice(invoice: nat): Match -> int {
    (m: Match) => if m.invoice == invoice then m.quantity else 0
  }

  function OfInvoiceOnLot(invoice: nat, k: nat): Match -> int {
    (m: Match) => if m.invoice == invoice && m.lot == k then m.quantity else 0
  }

  function OfLine(invoice: nat, line: nat): Match -> int {
    (m: Match) => if m.invoice == invoice && m.line == line then m.quantity else 0
  }

  /** Units of each lot of an item that live invoices hold. */
  function Used(b: Book, item: nat): (v: seq<int>)
    requires item < |b.items|
    ensures |v| == |b.items[item].lots|
    ensures forall k :: 0 <= k < |v| ==> v[k] == Sum(b.items[item].matches, LiveOnLot(b.invoices, k))
  {
    seq(|b.items[item].lots|, k requires 0 <= k => Sum(b.items[item].matches, LiveOnLot(b.invoices, k)))
  }

  /** Units of each lot that one invoice holds. */
  function Held(b: Book, item: nat, invoice: nat): (v: seq<int>)
    requires item < |b.items|
    ensures |v| == |b.items[item].lots|
    ensures forall k :: 0 <= k < |v| ==> v[k] == Sum(b.items[item].matches, OfInvoiceOnLot(invoice, k))
  {
    seq(|b.items[item].lots|, k requires 0 <= k => Sum(b.items[item].matches, OfInvoiceOnLot(invoice, k)))
  }

  function Requested(lines: seq<Line>, item: nat): int {
    Sum(lines, LineShare(item))
  }

  // ---- Steps ---------------------------------------------------------------------------------

  predicate LinesOn(lines: seq<Line>, items: nat) {
    forall j :: 0 <= j < |lines| ==> lines[j].item < items
  }

  function Tag(invoice: nat, line: nat, slices: seq<Slice>): (r: seq<Match>)
    ensures |r| == |slices|
  {
    seq(|slices|, i requires 0 <= i < |slices| =>
      Match(invoice, line, slices[i].lot, slices[i].quantity, slices[i].unitCost))
  }

  /** One line claims the units that begin where the item's invoiced quantity stands. */
  function PostLine(item: Item, invoice: nat, line: nat, quantity: nat): Item {
    item.(matches := item.matches
                     + Tag(invoice, line, Slices(item.lots, item.invoiced, item.invoiced + quantity, |item.lots|)),
          invoiced := item.invoiced + quantity)
  }

  function PostLines(items: seq<Item>, invoice: nat, lines: seq<Line>, n: nat): (r: seq<Item>)
    requires n <= |lines| && LinesOn(lines, |items|)
    ensures |r| == |items|
  {
    if n == 0 then items
    else
      var before := PostLines(items, invoice, lines, n - 1);
      var l := lines[n - 1];
      before[l.item := PostLine(before[l.item], invoice, n - 1, l.quantity)]
  }

  /** No item would be invoiced beyond what was received of it. */
  predicate Invoiceable(items: seq<Item>, lines: seq<Line>) {
    forall j :: 0 <= j < |lines| ==>
      lines[j].item < |items|
      && items[lines[j].item].invoiced + Requested(lines, lines[j].item) <= Received(items[lines[j].item].lots)
  }

  function Receive(b: Book, item: nat, quantity: nat, unitCost: nat): (r: (Book, Outcome)) {
    if item >= |b.items| then (b, Rejected(NOT_FOUND))
    else if quantity == 0 then (b, Rejected(INVALID_QUANTITY))
    else (b.(items := b.items[item := b.items[item].(lots := b.items[item].lots + [Lot(quantity, unitCost)])]), Done)
  }

  function Create(b: Book, lines: seq<Line>): (r: (Book, Outcome)) {
    if lines == [] then (b, Rejected(EMPTY_INVOICE))
    else if exists j :: 0 <= j < |lines| && lines[j].quantity == 0 then (b, Rejected(INVALID_QUANTITY))
    else if !LinesOn(lines, |b.items|) then (b, Rejected(NOT_FOUND))
    else (b.(invoices := b.invoices + [Invoice(lines, DRAFT)]), Done)
  }

  function Post(b: Book, invoice: nat): (r: (Book, Outcome)) {
    if invoice >= |b.invoices| then (b, Rejected(NOT_FOUND))
    else
      var row := b.invoices[invoice];
      if row.status == VOIDED then (b, Rejected(INVALID_INVOICE_STATE))
      else if row.status == POSTED then (b, Unchanged)
      else if row.lines == [] then (b, Rejected(EMPTY_INVOICE))
      else if !LinesOn(row.lines, |b.items|) then (b, Rejected(NOT_FOUND))
      else if !Invoiceable(b.items, row.lines) then (b, Rejected(OVER_INVOICING))
      else (Book(PostLines(b.items, invoice, row.lines, |row.lines|), b.invoices[invoice := row.(status := POSTED)]),
        Done)
  }

  /** Each item gives back what the invoice's lines had invoiced of it. */
  function Release(items: seq<Item>, lines: seq<Line>): (r: seq<Item>)
    ensures |r| == |items|
  {
    seq(|items|, i requires 0 <= i < |items| => items[i].(invoiced := items[i].invoiced - Requested(lines, i)))
  }

  function Void(b: Book, invoice: nat, settled: bool): (r: (Book, Outcome)) {
    if invoice >= |b.invoices| then (b, Rejected(NOT_FOUND))
    else
      var row := b.invoices[invoice];
      if row.status == VOIDED then (b, Unchanged)
      else if row.status == POSTED && settled then (b, Rejected(INVOICE_HAS_PAYMENTS))
      else (Book(if row.status == POSTED then Release(b.items, row.lines) else b.items,
                 b.invoices[invoice := row.(status := VOIDED)]), Done)
  }

  datatype Op =
    | OpReceive(item: nat, quantity: nat, unitCost: nat)
    | OpCreate(lines: seq<Line>)
    | OpPost(invoice: nat)
    | OpVoid(invoice: nat, settled: bool)

  function Apply(b: Book, op: Op): Book {
    match op
    case OpReceive(item, quantity, unitCost) => Receive(b, item, quantity, unitCost).0
    case OpCreate(lines) => Create(b, lines).0
    case OpPost(invoice) => Post(b, invoice).0
    case OpVoid(invoice, settled) => Void(b, invoice, settled).0
  }

  function Run(b: Book, ops: seq<Op>): Book
    decreases |ops|
  {
    if ops == [] then b else Run(Apply(b, ops[0]), ops[1..])
  }

  /** Purchase order items before anything is received. */
  function Opened(items: nat): Book {
    Book(seq(items, i => Item([], 0, [])), [])
  }

  // ---- What every run keeps -------------------------------------------------------------------

  ghost predicate ItemConsistent(b: Book, i: nat)
    requires i < |b.items|
  {
    var item := b.items[i];
    && 0 <= item.invoiced <= Received(item.lots)
    && item.invoiced == Sum(item.matches, LiveQuantity(b.invoices))
    && (forall j :: 0 <= j < |item.matches| ==>
          item.matches[j].lot < |item.lots|
          && item.matches[j].invoice < |b.invoices| && b.invoices[item.matches[j].invoice].status != DRAFT)
  }

  ghost predicate InvoiceMatched(b: Book, v: nat)
    requires v < |b.invoices|
  {
    var lines := b.invoices[v].lines;
    && LinesOn(lines, |b.items|)
    && (b.invoices[v].status == POSTED ==>
          && (forall i: nat :: i < |b.items| ==> Sum(b.items[i].matches, OfInvoice(v)) == Requested(lines, i))
          && (forall j: nat :: j < |lines| ==> Sum(b.items[lines[j].item].matches, OfLine(v, j)) == lines[j].quantity))
  }

  /** The cached quantity_invoiced of every item equals its live matches and stays within what was
      received; every posted line is matched for exactly its invoiced quantity. */
  ghost predicate Consistent(b: Book) {
    && (forall i: nat :: i < |b.items| ==> ItemConsistent(b, i))
    && (forall v: nat :: v < |b.invoices| ==> InvoiceMatched(b, v))
  }

  lemma {:induction false} TagSum(invoice: nat, line: nat, slices: seq<Slice>, f: Match -> int, g: Slice -> int)
    requires forall s: Slice :: f(Match(invoice, line, s.lot, s.quantity, s.unitCost)) == g(s)
    ensures Sum(Tag(invoice, line, slices), f) == Sum(slices, g)
  {
    SumSame(Tag(invoice, line, slices), slices, f, g);
  }

  /** The items that the first `n` lines of one posting have left behind. */
  ghost predicate PostedTo(items: seq<Item>, after: seq<Item>, invoice: nat, lines: seq<Line>, n: nat, i: nat)
    requires n <= |lines| && i < |items| == |after|
  {
    var quantity := Requested(lines[..n], i);
    && after[i].lots == items[i].lots
    && after[i].invoiced == items[i].invoiced + quantity
    && items[i].matches <= after[i].matches
    && (forall j :: |items[i].matches| <= j < |after[i].matches| ==>
          after[i].matches[j].invoice == invoice && after[i].matches[j].lot < |items[i].lots|)
  }

  lemma {:induction false} RequestedGrows(lines: seq<Line>, n: nat, i: nat)
    requires n < |lines|
    ensures Requested(lines[..n + 1], i) == Requested(lines[..n], i) + LineShare(i)(lines[n])
  {
    assert lines[..n + 1] == lines[..n] + [lines[n]];
    SumAppend(lines[..n], lines[n], LineShare(i));
  }

  lemma {:induction false} RequestedBounds(lines: seq<Line>, n: nat, i: nat)
    requires n <= |lines|
    ensures 0 <= Requested(lines[..n], i) <= Requested(lines, i)
  {
    assert lines == lines[..n] + lines[n..];
    SumConcat(lines[..n], lines[n..], LineShare(i));
    SumNonNegative(lines[..n], LineShare(i));
    SumNonNegative(lines[n..], LineShare(i));
  }

  /** The rows one line adds. */
  lemma {:induction false} LineRows(item: Item, invoice: nat, line: nat, quantity: nat)
    ensures var after := PostLine(item, invoice, line, quantity);
            && item.matches <= after.matches
            && (forall j :: |item.matches| <= j < |after.matches| ==>
                  after.matches[j].invoice == invoice && after.matches[j].lot < |item.lots|)
  {
    SlicesInReceiptOrder(item.lots, item.invoiced, item.invoiced + quantity, |item.lots|);
  }

  lemma {:induction false} PostLinesShape(items: seq<Item>, invoice: nat, lines: seq<Line>, n: nat, i: nat)
    requires n <= |lines| && LinesOn(lines, |items|) && i < |items|
    ensures PostedTo(items, PostLines(items, invoice, lines, n), invoice, lines, n, i)
  {
    if n > 0 {
      PostLinesShape(items, invoice, lines, n - 1, i);
      RequestedGrows(lines, n - 1, i);
      var item := PostLines(items, invoice, lines, n - 1)[i];
      LineRows(item, invoice, n - 1, lines[n - 1].quantity);
    }
  }

  // ---- What each operation admits and does --------------------------------------------------------

  lemma {:induction false} ReceiveDoneIff(b: Book, item: nat, quantity: nat, unitCost: nat)
    ensures var (after, o) := Receive(b, item, quantity, unitCost);
            && (o == Done <==> item < |b.items| && quantity > 0)
            && (o != Done ==> after == b && o == Rejected(if item >= |b.items| then NOT_FOUND else INVALID_QUANTITY))
            && (o == Done ==>
                  && |after.items| == |b.items| && after.invoices == b.invoices
                  && after.items[item].lots == b.items[item].lots + [Lot(quantity, unitCost)]
                  && after.items[item].invoiced == b.items[item].invoiced
                  && after.items[item].matches == b.items[item].matches
                  && forall i :: 0 <= i < |b.items| && i != item ==> after.items[i] == b.items[i])
  {
  }

  lemma {:induction false} CreateDoneIff(b: Book, lines: seq<Line>)
    ensures var (after, o) := Create(b, lines);
            && (o == Done <==>
                  lines != [] && forall j :: 0 <= j < |lines| ==> lines[j].quantity > 0 && lines[j].item < |b.items|)
            && (o != Done ==>
                  o == Rejected(if lines == [] then EMPTY_INVOICE
                                else if exists j :: 0 <= j < |lines| && lines[j].quantity == 0 then INVALID_QUANTITY
                                else NOT_FOUND))
            && after == if o == Done then b.(invoices := b.invoices + [Invoice(lines, DRAFT)]) else b
  {
  }

  /** What the lines of an invoice ask for of one item. */
  function AskedFor(lines: seq<Line>, i: nat): int {
    Sum(lines, (l: Line) => if l.item == i then l.quantity else 0)
  }

  /** A draft is posted if and only if it has lines, on known items, and no item would then be invoiced beyond
      what was received of it; up to and including all of that. */
  lemma {:induction false} PostDoneIff(b: Book, v: nat)
    ensures var (after, o) := Post(b, v);
            && (o == Done <==>
                  && v < |b.invoices| && b.invoices[v].status == DRAFT && b.invoices[v].lines != []
                  && forall j :: 0 <= j < |b.invoices[v].lines| ==>
                       var i := b.invoices[v].lines[j].item;
                       && i < |b.items|
                       && b.items[i].invoiced + AskedFor(b.invoices[v].lines, i)
                          <= Sum(b.items[i].lots, (l: Lot) => l.quantity))
            && (o == Unchanged <==> v < |b.invoices| && b.invoices[v].status == POSTED)
            && (o != Done ==> after == b)
            && (o.Rejected? ==>
                  o.error == if v >= |b.invoices| then NOT_FOUND
                             else if b.invoices[v].status == VOIDED then INVALID_INVOICE_STATE
                             else if b.invoices[v].lines == [] then EMPTY_INVOICE
                             else if exists j :: 0 <= j < |b.invoices[v].lines|
                                                 && b.invoices[v].lines[j].item >= |b.items| then NOT_FOUND
                             else OVER_INVOICING)
            && (o == Done ==> after.invoices == b.invoices[v := b.invoices[v].(status := POSTED)])
  {
    if v < |b.invoices| {
      var lines := b.invoices[v].lines;
      forall j | 0 <= j < |lines| ensures Requested(lines, lines[j].item) == AskedFor(lines, lines[j].item) {
        SumSame(lines, lines, LineShare(lines[j].item), (l: Line) => if l.item == lines[j].item then l.quantity else 0);
      }
      forall i | 0 <= i < |b.items| ensures Received(b.items[i].lots) == Sum(b.items[i].lots, (l: Lot) => l.quantity) {
        UnitsInLots(b.items[i].lots, |b.items[i].lots|);
        assert b.items[i].lots[..|b.items[i].lots|] == b.items[i].lots;
      }
    }
  }

  /** A draft, or a posted invoice with nothing settled, is voided; a posted one gives back what its lines had
      invoiced, and no match row changes. */
  lemma {:induction false} VoidDoneIff(b: Book, v: nat, settled: bool)
    ensures var (after, o) := Void(b, v, settled);
            && (o == Done <==>
                  v < |b.invoices| && (b.invoices[v].status == DRAFT || (b.invoices[v].status == POSTED && !settled)))
            && (o == Unchanged <==> v < |b.invoices| && b.invoices[v].status == VOIDED)
            && (o.Rejected? ==> o.error == if v >= |b.invoices| then NOT_FOUND else INVOICE_HAS_PAYMENTS)
            && (o != Done ==> after == b)
            && (o == Done ==>
                  && after.invoices == b.invoices[v := b.invoices[v].(status := VOIDED)] && |after.items| == |b.items|
                  && forall i: nat :: i < |b.items| ==>
                       after.items[i] == b.items[i].(
                         invoiced := b.items[i].invoiced
                           - if b.invoices[v].status == POSTED then AskedFor(b.invoices[v].lines, i) else 0))
  {
    if v < |b.invoices| {
      var lines := b.invoices[v].lines;
      forall i: nat | i < |b.items| ensures Requested(lines, i) == AskedFor(lines, i) {
        SumSame(lines, lines, LineShare(i), (l: Line) => if l.item == i then l.quantity else 0);
      }
    }
  }

  // ---- Effects of one posting ------------------------------------------------------------------

  lemma {:induction false} PostLineSum(item: Item, invoice: nat, line: nat, quantity: nat, f: Match -> int,
      g: Slice -> int)
    requires forall s: Slice :: f(Match(invoice, line, s.lot, s.quantity, s.unitCost)) == g(s)
    ensures Sum(PostLine(item, invoice, line, quantity).matches, f)
            == Sum(item.matches, f)
               + Sum(Slices(item.lots, item.invoiced, item.invoiced + quantity, |item.lots|), g)
  {
    var slices := Slices(item.lots, item.invoiced, item.invoiced + quantity, |item.lots|);
    SumConcat(item.matches, Tag(invoice, line, slices), f);
    TagSum(invoice, line, slices, f, g);
  }

  /** What the last of `n` lines does to one item. */
  lemma {:induction false} PostLinesAt(items: seq<Item>, invoice: nat, lines: seq<Line>, n: nat, i: nat)
    requires 0 < n <= |lines| && LinesOn(lines, |items|) && i < |items|
    ensures var before := PostLines(items, invoice, lines, n - 1)[i];
            PostLines(items, invoice, lines, n)[i]
            == if lines[n - 1].item == i then PostLine(before, invoice, n - 1, lines[n - 1].quantity) else before
  {
  }

  lemma {:induction false} LineOnLot(item: Item, invoice: nat, line: nat, quantity: nat, k: nat, f: Match -> int)
    requires k < |item.lots|
    requires forall s: Slice :: f(Match(invoice, line, s.lot, s.quantity, s.unitCost)) == LotShare(k)(s)
    ensures Sum(PostLine(item, invoice, line, quantity).matches, f)
            == Sum(item.matches, f) + Span(item.lots, item.invoiced, item.invoiced + quantity, k)
  {
    PostLineSum(item, invoice, line, quantity, f, LotShare(k));
    SlicesFromLot(item.lots, item.invoiced, item.invoiced + quantity, |item.lots|, k);
  }

  /** The last line on another item: nothing moves. */
  lemma {:induction false} OtherItemLine(items: seq<Item>, invoice: nat, lines: seq<Line>, n: nat, i: nat)
    requires 0 < n <= |lines| && LinesOn(lines, |items|) && i < |items| && lines[n - 1].item != i
    ensures PostLines(items, invoice, lines, n)[i] == PostLines(items, invoice, lines, n - 1)[i]
    ensures Requested(lines[..n], i) == Requested(lines[..n - 1], i)
  {
    PostLinesAt(items, invoice, lines, n, i);
    RequestedGrows(lines, n - 1, i);
  }

  /** The last line on this item: it claims the units that follow those of the lines before it. */
  lemma {:induction false} OwnItemLine(items: seq<Item>, invoice: nat, lines: seq<Line>, n: nat, k: nat,
      f: Match -> int)
    requires 0 < n <= |lines| && LinesOn(lines, |items|) && k < |items[lines[n - 1].item].lots|
    requires forall line: nat, s: Slice :: f(Match(invoice, line, s.lot, s.quantity, s.unitCost)) == LotShare(k)(s)
    ensures var i := lines[n - 1].item;
            var lots, at, before := items[i].lots, items[i].invoiced, Requested(lines[..n - 1], i);
            && 0 <= before && Requested(lines[..n], i) == before + lines[n - 1].quantity
            && Sum(PostLines(items, invoice, lines, n)[i].matches, f)
               == Sum(PostLines(items, invoice, lines, n - 1)[i].matches, f)
                  + Span(lots, at + before, at + before + lines[n - 1].quantity, k)
  {
    var i := lines[n - 1].item;
    PostedBefore(items, invoice, lines, n, i);
    PostLinesAt(items, invoice, lines, n, i);
    LineOnLot(PostLines(items, invoice, lines, n - 1)[i], invoice, n - 1, lines[n - 1].quantity, k, f);
  }

  /** On every lot, the lines of one invoice together claim the units that follow the item's
      invoiced quantity, each line where the one before it stopped. */
  lemma {:induction false} PostedOnLot(items: seq<Item>, invoice: nat, lines: seq<Line>, n: nat, i: nat, k: nat,
      f: Match -> int)
    requires n <= |lines| && LinesOn(lines, |items|) && i < |items| && k < |items[i].lots|
    requires forall line: nat, s: Slice :: f(Match(invoice, line, s.lot, s.quantity, s.unitCost)) == LotShare(k)(s)
    ensures Sum(PostLines(items, invoice, lines, n)[i].matches, f)
            == Sum(items[i].matches, f)
               + Span(items[i].lots, items[i].invoiced, items[i].invoiced + Requested(lines[..n], i), k)
  {
    if n > 0 {
      PostedOnLot(items, invoice, lines, n - 1, i, k, f);
      if lines[n - 1].item == i {
        var at, before := items[i].invoiced, Requested(lines[..n - 1], i);
        OwnItemLine(items, invoice, lines, n, k, f);
        SpanSplit(items[i].lots, at, at + before, at + before + lines[n - 1].quantity, k);
      } else {
        OtherItemLine(items, invoice, lines, n, i);
      }
    }
  }

  /** Where the last of `n` lines finds its item. */
  lemma {:induction false} PostedBefore(items: seq<Item>, invoice: nat, lines: seq<Line>, n: nat, i: nat)
    requires 0 < n <= |lines| && LinesOn(lines, |items|) && i < |items|
    ensures var item := PostLines(items, invoice, lines, n - 1)[i];
            item.lots == items[i].lots && item.invoiced == items[i].invoiced + Requested(lines[..n - 1], i)
    ensures 0 <= Requested(lines[..n - 1], i)
    ensures Requested(lines[..n], i) == Requested(lines[..n - 1], i) + LineShare(i)(lines[n - 1])
  {
    PostLinesShape(items, invoice, lines, n - 1, i);
    RequestedGrows(lines, n - 1, i);
    RequestedBounds(lines, n - 1, i);
  }

  /** Where line `n` of a posting the receipts cover finds its item, and what it is matched for. */
  lemma {:induction false} LineInFull(items: seq<Item>, invoice: nat, lines: seq<Line>, n: nat)
    requires n < |lines| && LinesOn(lines, |items|)
    requires 0 <= items[lines[n].item].invoiced
    requires items[lines[n].item].invoiced + Requested(lines, lines[n].item) <= Received(items[lines[n].item].lots)
    ensures var item := PostLines(items, invoice, lines, n)[lines[n].item];
            Sum(Slices(item.lots, item.invoiced, item.invoiced + lines[n].quantity, |item.lots|), SliceQuantity)
            == lines[n].quantity
  {
    var i := lines[n].item;
    PostLinesShape(items, invoice, lines, n, i);
    RequestedGrows(lines, n, i);
    RequestedBounds(lines, n + 1, i);
    RequestedBounds(lines, n, i);
    var item := PostLines(items, invoice, lines, n)[i];
    SlicesCoverTheLine(item.lots, item.invoiced, item.invoiced + lines[n].quantity, |item.lots|);
  }

  lemma {:induction false} LineCounted(items: seq<Item>, invoice: nat, lines: seq<Line>, n: nat, f: Match -> int)
    requires n < |lines| && LinesOn(lines, |items|)
    requires 0 <= items[lines[n].item].invoiced
    requires items[lines[n].item].invoiced + Requested(lines, lines[n].item) <= Received(items[lines[n].item].lots)
    requires forall s: Slice :: f(Match(invoice, n, s.lot, s.quantity, s.unitCost)) == SliceQuantity(s)
    ensures var item := PostLines(items, invoice, lines, n)[lines[n].item];
            Sum(PostLine(item, invoice, n, lines[n].quantity).matches, f) == Sum(item.matches, f) + lines[n].quantity
  {
    LineInFull(items, invoice, lines, n);
    PostLineSum(PostLines(items, invoice, lines, n)[lines[n].item], invoice, n, lines[n].quantity, f, SliceQuantity);
  }

  /** Within the receipts, the lines of one invoice are matched for all they ask for. */
  lemma {:induction false} PostedInFull(items: seq<Item>, invoice: nat, lines: seq<Line>, n: nat, i: nat,
      f: Match -> int)
    requires n <= |lines| && LinesOn(lines, |items|) && i < |items|
    requires 0 <= items[i].invoiced && items[i].invoiced + Requested(lines, i) <= Received(items[i].lots)
    requires forall line: nat, s: Slice :: f(Match(invoice, line, s.lot, s.quantity, s.unitCost)) == SliceQuantity(s)
    ensures Sum(PostLines(items, invoice, lines, n)[i].matches, f)
            == Sum(items[i].matches, f) + Requested(lines[..n], i)
  {
    if n > 0 {
      PostedInFull(items, invoice, lines, n - 1, i, f);
      PostLinesAt(items, invoice, lines, n, i);
      RequestedGrows(lines, n - 1, i);
      if lines[n - 1].item == i {
        LineCounted(items, invoice, lines, n - 1, f);
      }
    }
  }

  lemma {:induction false} PostLineOwn(item: Item, invoice: nat, line: nat, quantity: nat, j: nat)
    ensures Sum(PostLine(item, invoice, line, quantity).matches, OfLine(invoice, j))
            == Sum(item.matches, OfLine(invoice, j))
               + if line == j
                 then Sum(Slices(item.lots, item.invoiced, item.invoiced + quantity, |item.lots|), SliceQuantity)
                 else 0
  {
    if line == j {
      PostLineSum(item, invoice, line, quantity, OfLine(invoice, j), SliceQuantity);
    } else {
      var none := (s: Slice) => 0;
      PostLineSum(item, invoice, line, quantity, OfLine(invoice, j), none);
      SumZero(Slices(item.lots, item.invoiced, item.invoiced + quantity, |item.lots|), none);
    }
  }

  lemma {:induction false} LineOwnCounted(items: seq<Item>, invoice: nat, lines: seq<Line>, n: nat, j: nat)
    requires n < |lines| && LinesOn(lines, |items|)
    requires 0 <= items[lines[n].item].invoiced
    requires items[lines[n].item].invoiced + Requested(lines, lines[n].item) <= Received(items[lines[n].item].lots)
    ensures var item, q := PostLines(items, invoice, lines, n)[lines[n].item], lines[n].quantity;
            Sum(PostLine(item, invoice, n, q).matches, OfLine(invoice, j))
            == Sum(item.matches, OfLine(invoice, j)) + if n == j then q else 0
  {
    LineInFull(items, invoice, lines, n);
    PostLineOwn(PostLines(items, invoice, lines, n)[lines[n].item], invoice, n, lines[n].quantity, j);
  }

  /** Within the receipts, each line is matched for exactly its own quantity. */
  lemma {:induction false} PostedPerLine(items: seq<Item>, invoice: nat, lines: seq<Line>, n: nat, i: nat, j: nat)
    requires n <= |lines| && LinesOn(lines, |items|) && i < |items|
    requires 0 <= items[i].invoiced && items[i].invoiced + Requested(lines, i) <= Received(items[i].lots)
    ensures Sum(PostLines(items, invoice, lines, n)[i].matches, OfLine(invoice, j))
            == Sum(items[i].matches, OfLine(invoice, j)) + if j < n && lines[j].item == i then lines[j].quantity else 0
  {
    if n > 0 {
      PostedPerLine(items, invoice, lines, n - 1, i, j);
      PostLinesAt(items, invoice, lines, n, i);
      if lines[n - 1].item == i {
        LineOwnCounted(items, invoice, lines, n - 1, j);
      }
    }
  }

  lemma {:induction false} PostLineElsewhere(item: Item, invoice: nat, line: nat, quantity: nat, f: Match -> int)
    requires forall m: Match :: m.invoice == invoice ==> f(m) == 0
    ensures Sum(PostLine(item, invoice, line, quantity).matches, f) == Sum(item.matches, f)
  {
    var none := (s: Slice) => 0;
    PostLineSum(item, invoice, line, quantity, f, none);
    SumZero(Slices(item.lots, item.invoiced, item.invoiced + quantity, |item.lots|), none);
  }

  /** A posting adds nothing to what other invoices hold. */
  lemma {:induction false} PostedElsewhere(items: seq<Item>, invoice: nat, lines: seq<Line>, n: nat, i: nat,
      f: Match -> int)
    requires n <= |lines| && LinesOn(lines, |items|) && i < |items|
    requires forall m: Match :: m.invoice == invoice ==> f(m) == 0
    ensures Sum(PostLines(items, invoice, lines, n)[i].matches, f) == Sum(items[i].matches, f)
  {
    if n > 0 {
      PostedElsewhere(items, invoice, lines, n - 1, i, f);
      PostLinesAt(items, invoice, lines, n, i);
      PostLineElsewhere(PostLines(items, invoice, lines, n - 1)[i], invoice, n - 1, lines[n - 1].quantity, f);
    }
  }

  /** What a posting does to an item: the invoiced quantity moves by what the lines request, every
      lot by its part of that range, and rows already there stay as they were. */
  lemma {:induction false} PostEffect(b: Book, v: nat, i: nat)
    requires Consistent(b) && v < |b.invoices| && i < |b.items| && Post(b, v).1 == Done
    ensures var after, q := Post(b, v).0, Requested(b.invoices[v].lines, i);
            && |after.items| == |b.items|
            && after.items[i].lots == b.items[i].lots
            && b.items[i].matches <= after.items[i].matches
            && 0 <= q && after.items[i].invoiced == b.items[i].invoiced + q <= Received(b.items[i].lots)
            && (forall k :: 0 <= k < |b.items[i].lots| ==>
                  && Used(after, i)[k]
                     == Used(b, i)[k] + Span(b.items[i].lots, b.items[i].invoiced, b.items[i].invoiced + q, k)
                  && Held(after, i, v)[k] == Span(b.items[i].lots, b.items[i].invoiced, b.items[i].invoiced + q, k))
  {
    var lines := b.invoices[v].lines;
    var after := Post(b, v).0;
    assert lines[..|lines|] == lines;
    assert ItemConsistent(b, i) && InvoiceMatched(b, v);
    PostLinesShape(b.items, v, lines, |lines|, i);
    RequestedBounds(lines, |lines|, i);
    RequestedWithin(b, v, i);
    forall k: nat | k < |b.items[i].lots|
      ensures Used(after, i)[k]
              == Used(b, i)[k]
                + Span(b.items[i].lots, b.items[i].invoiced, b.items[i].invoiced + Requested(lines, i), k)
      ensures Held(after, i, v)[k]
              == Span(b.items[i].lots, b.items[i].invoiced, b.items[i].invoiced + Requested(lines, i), k)
    {
      PostEffectOnLot(b, v, i, k);
    }
  }

  lemma {:induction false} PostEffectOnLot(b: Book, v: nat, i: nat, k: nat)
    requires Consistent(b) && v < |b.invoices| && i < |b.items| && Post(b, v).1 == Done && k < |b.items[i].lots|
    ensures var after, item := Post(b, v).0, b.items[i];
            var span := Span(item.lots, item.invoiced, item.invoiced + Requested(b.invoices[v].lines, i), k);
            && |after.items| == |b.items|
            && Sum(after.items[i].matches, LiveOnLot(after.invoices, k))
                 == Sum(item.matches, LiveOnLot(b.invoices, k)) + span
            && Sum(after.items[i].matches, OfInvoiceOnLot(v, k)) == span
  {
    var lines, after := b.invoices[v].lines, Post(b, v).0;
    assert lines[..|lines|] == lines;
    assert ItemConsistent(b, i);
    PostedOnLot(b.items, v, lines, |lines|, i, k, LiveOnLot(after.invoices, k));
    PostedOnLot(b.items, v, lines, |lines|, i, k, OfInvoiceOnLot(v, k));
    SumSame(b.items[i].matches, b.items[i].matches, LiveOnLot(after.invoices, k), LiveOnLot(b.invoices, k));
    SumZero(b.items[i].matches, OfInvoiceOnLot(v, k));
  }

  lemma {:induction false} RequestedWithin(b: Book, v: nat, i: nat)
    requires Consistent(b) && v < |b.invoices| && i < |b.items| && Post(b, v).1 == Done
    ensures b.items[i].invoiced + Requested(b.invoices[v].lines, i) <= Received(b.items[i].lots)
  {
    var lines := b.invoices[v].lines;
    if j :| 0 <= j < |lines| && lines[j].item == i {
    } else {
      SumZero(lines, LineShare(i));
      assert ItemConsistent(b, i);
    }
  }

  // ---- Consistency over every run ---------------------------------------------------------------

  lemma {:induction false} ReceiveConsistent(b: Book, item: nat, quantity: nat, unitCost: nat)
    requires Consistent(b)
    ensures Consistent(Receive(b, item, quantity, unitCost).0)
  {
    var after := Receive(b, item, quantity, unitCost).0;
    forall i: nat | i < |after.items| ensures ItemConsistent(after, i) {
      assert ItemConsistent(b, i);
      StartPrefix(b.items[i].lots, [Lot(quantity, unitCost)], |b.items[i].lots|);
    }
    forall v: nat | v < |after.invoices| ensures InvoiceMatched(after, v) {
      assert InvoiceMatched(b, v);
    }
  }

  lemma {:induction false} CreateConsistent(b: Book, lines: seq<Line>)
    requires Consistent(b)
    ensures Consistent(Create(b, lines).0)
  {
    var after := Create(b, lines).0;
    forall i: nat | i < |after.items| ensures ItemConsistent(after, i) {
      assert ItemConsistent(b, i);
      SumSame(b.items[i].matches, b.items[i].matches, LiveQuantity(b.invoices), LiveQuantity(after.invoices));
    }
    forall v: nat | v < |after.invoices| ensures InvoiceMatched(after, v) {
      assert v < |b.invoices| ==> InvoiceMatched(b, v);
    }
  }

  lemma {:induction false} PostConsistent(b: Book, v: nat)
    requires Consistent(b) && v < |b.invoices| && Post(b, v).1 == Done
    ensures Consistent(Post(b, v).0)
  {
    var lines := b.invoices[v].lines;
    var after := Post(b, v).0;
    assert lines[..|lines|] == lines;
    forall i: nat | i < |after.items| ensures ItemConsistent(after, i) {
      PostItemConsistent(b, v, i);
    }
    forall w: nat | w < |after.invoices| ensures InvoiceMatched(after, w) {
      assert InvoiceMatched(b, w);
      if w == v {
        PostedInvoiceMatched(b, v);
      } else {
        forall i: nat | i < |b.items|
          ensures Sum(after.items[i].matches, OfInvoice(w)) == Sum(b.items[i].matches, OfInvoice(w)) {
          PostedElsewhere(b.items, v, lines, |lines|, i, OfInvoice(w));
        }
        forall i: nat, j: nat | i < |b.items|
          ensures Sum(after.items[i].matches, OfLine(w, j)) == Sum(b.items[i].matches, OfLine(w, j))
        {
          PostedElsewhere(b.items, v, lines, |lines|, i, OfLine(w, j));
        }
      }
    }
  }

  lemma {:induction false} PostItemConsistent(b: Book, v: nat, i: nat)
    requires Consistent(b) && v < |b.invoices| && i < |b.items| && Post(b, v).1 == Done
    ensures ItemConsistent(Post(b, v).0, i)
  {
    var lines := b.invoices[v].lines;
    var after := Post(b, v).0;
    assert lines[..|lines|] == lines;
    assert ItemConsistent(b, i) && InvoiceMatched(b, v);
    PostEffect(b, v, i);
    PostLinesShape(b.items, v, lines, |lines|, i);
    PostedInFull(b.items, v, lines, |lines|, i, LiveQuantity(after.invoices));
    SumSame(b.items[i].matches, b.items[i].matches, LiveQuantity(after.invoices), LiveQuantity(b.invoices));
  }

  lemma {:induction false} PostedInvoiceMatched(b: Book, v: nat)
    requires Consistent(b) && v < |b.invoices| && Post(b, v).1 == Done
    ensures InvoiceMatched(Post(b, v).0, v)
  {
    var lines := b.invoices[v].lines;
    var after := Post(b, v).0;
    assert lines[..|lines|] == lines;
    assert InvoiceMatched(b, v);
    forall i: nat | i < |b.items| ensures Sum(after.items[i].matches, OfInvoice(v)) == Requested(lines, i) {
      assert ItemConsistent(b, i);
      RequestedWithin(b, v, i);
      PostedInFull(b.items, v, lines, |lines|, i, OfInvoice(v));
      SumZero(b.items[i].matches, OfInvoice(v));
    }
    forall j: nat | j < |lines| ensures Sum(after.items[lines[j].item].matches, OfLine(v, j)) == lines[j].quantity {
      var i := lines[j].item;
      assert ItemConsistent(b, i);
      RequestedWithin(b, v, i);
      PostedPerLine(b.items, v, lines, |lines|, i, j);
      SumZero(b.items[i].matches, OfLine(v, j));
    }
  }

  /** What voiding a posted invoice does to an item: every lot gets back exactly what this invoice's
      own persisted matches hold of it; no match row, of this or any other invoice, is touched. */
  lemma {:induction false} VoidEffect(b: Book, v: nat, i: nat)
    requires Consistent(b) && v < |b.invoices| && i < |b.items|
    requires b.invoices[v].status == POSTED
    ensures var after, q := Void(b, v, false).0, Requested(b.invoices[v].lines, i);
            && |after.items| == |b.items|
            && after.items[i].lots == b.items[i].lots && after.items[i].matches == b.items[i].matches
            && 0 <= q && after.items[i].invoiced == b.items[i].invoiced - q
            && q == Sum(b.items[i].matches, OfInvoice(v))
            && (forall k :: 0 <= k < |b.items[i].lots| ==> Used(after, i)[k] == Used(b, i)[k] - Held(b, i, v)[k])
            && (forall w: nat :: w < |b.invoices| && w != v ==>
                  after.invoices[w] == b.invoices[w] && Held(after, i, w) == Held(b, i, w))
  {
    var after := Void(b, v, false).0;
    assert InvoiceMatched(b, v);
    assert b.invoices[v].lines[..|b.invoices[v].lines|] == b.invoices[v].lines;
    RequestedBounds(b.invoices[v].lines, |b.invoices[v].lines|, i);
    forall k | 0 <= k < |b.items[i].lots| ensures Used(after, i)[k] == Used(b, i)[k] - Held(b, i, v)[k] {
      SumAdd(b.items[i].matches, LiveOnLot(b.invoices, k), LiveOnLot(after.invoices, k), OfInvoiceOnLot(v, k));
    }
  }

  lemma {:induction false} VoidConsistent(b: Book, v: nat, settled: bool)
    requires Consistent(b)
    ensures Consistent(Void(b, v, settled).0)
  {
    if v < |b.invoices| && Void(b, v, settled).1 == Done {
      var after := Void(b, v, settled).0;
      forall i: nat | i < |after.items| ensures ItemConsistent(after, i) {
        assert ItemConsistent(b, i);
        if b.invoices[v].status == POSTED {
          VoidEffect(b, v, i);
          SumAdd(b.items[i].matches, LiveQuantity(b.invoices), LiveQuantity(after.invoices), OfInvoice(v));
          SumNonNegative(b.items[i].matches, LiveQuantity(after.invoices));
        } else {
          SumSame(b.items[i].matches, b.items[i].matches, LiveQuantity(b.invoices), LiveQuantity(after.invoices));
        }
      }
      forall w: nat | w < |after.invoices| ensures InvoiceMatched(after, w) {
        assert InvoiceMatched(b, w);
      }
    }
  }

  lemma {:induction false} ApplyConsistent(b: Book, op: Op)
    requires Consistent(b)
    ensures Consistent(Apply(b, op))
  {
    match op
    case OpReceive(item, quantity, unitCost) => ReceiveConsistent(b, item, quantity, unitCost);
    case OpCreate(lines) => CreateConsistent(b, lines);
    case OpPost(v) => if v < |b.invoices| && Post(b, v).1 == Done { PostConsistent(b, v); }
    case OpVoid(v, settled) => VoidConsistent(b, v, settled);
  }

  /** For every interleaving of receipts, drafts, postings and voids: the invoiced quantity of every
      item equals its live matches and stays within its receipts, and every posted line is matched
      for exactly its own quantity. */
  lemma {:induction false} RunConsistent(b: Book, ops: seq<Op>)
    requires Consistent(b)
    ensures Consistent(Run(b, ops))
    decreases |ops|
  {
    if ops != [] {
      ApplyConsistent(b, ops[0]);
      RunConsistent(Apply(b, ops[0]), ops[1..]);
    }
  }

  lemma {:induction false} OpenedConsistent(items: nat)
    ensures Consistent(Opened(items))
  {
    var b := Opened(items);
    forall i: nat | i < |b.items| ensures ItemConsistent(b, i) {
    }
  }

  /** The three-way match has always checked what the FIFO walk needs: on a reachable book, no line
      of an admitted posting can meet receipts that do not cover it. */
  lemma {:induction false} PostingIsCovered(b: Book, v: nat, n: nat)
    requires Consistent(b) && v < |b.invoices| && Post(b, v).1 == Done && n < |b.invoices[v].lines|
    ensures var l := b.invoices[v].lines[n];
            var item := PostLines(b.items, v, b.invoices[v].lines, n)[l.item];
            0 <= item.invoiced && item.invoiced + l.quantity <= Received(item.lots)
  {
    var lines := b.invoices[v].lines;
    var i := lines[n].item;
    assert ItemConsistent(b, i);
    RequestedWithin(b, v, i);
    PostLinesShape(b.items, v, lines, n, i);
    RequestedGrows(lines, n, i);
    RequestedBounds(lines, n + 1, i);
    RequestedBounds(lines, n, i);
  }

  // ---- Lots over whole runs ---------------------------------------------------------------------

  lemma {:induction false} UsedTotal(matches: seq<Match>, invoices: seq<Invoice>, lots: nat)
    requires forall j :: 0 <= j < |matches| ==> matches[j].lot < lots
    ensures Sum(seq(lots, k requires 0 <= k => Sum(matches, LiveOnLot(invoices, k))), Identity)
            == Sum(matches, LiveQuantity(invoices))
  {
    var v := seq(lots, k requires 0 <= k => Sum(matches, LiveOnLot(invoices, k)));
    if matches == [] {
      SumZero(v, Identity);
    } else {
      var rest := matches[1..];
      forall j | 0 <= j < |rest| ensures rest[j].lot < lots { assert rest[j] == matches[j + 1]; }
      UsedTotal(rest, invoices, lots);
      var w := seq(lots, k requires 0 <= k => Sum(rest, LiveOnLot(invoices, k)));
      var k := matches[0].lot;
      SumUpdate(w, k, w[k] + LiveQuantity(invoices)(matches[0]), Identity);
      assert v == w[k := w[k] + LiveQuantity(invoices)(matches[0])];
    }
  }

  ghost predicate LotsRespected(b: Book) {
    forall i: nat :: i < |b.items| ==> WithinLots(b.items[i].lots, Used(b, i))
  }

  ghost predicate AllOldestFirst(b: Book) {
    forall i: nat :: i < |b.items| ==> OldestFirst(b.items[i].lots, Used(b, i), b.items[i].invoiced)
  }

  /** The posted invoice holds the youngest units invoiced so far, of every item. */
  ghost predicate HoldsYoungest(b: Book, v: nat)
    requires v < |b.invoices|
  {
    forall i: nat :: i < |b.items| ==> HoldsYoungestOf(b, v, i)
  }

  ghost predicate HoldsYoungestOf(b: Book, v: nat, i: nat)
    requires v < |b.invoices| && i < |b.items|
  {
    var at := b.items[i].invoiced;
    Held(b, i, v) == SpanVector(b.items[i].lots, at - Requested(b.invoices[v].lines, i), at)
  }

  /** Drafting and posting one more invoice. */
  function Invoicing(b: Book, lines: seq<Line>): Book {
    Post(Create(b, lines).0, |b.invoices|).0
  }

  lemma {:induction false} OldestFirstWithinLots(b: Book)
    requires AllOldestFirst(b)
    ensures LotsRespected(b)
  {
    forall i: nat | i < |b.items| ensures WithinLots(b.items[i].lots, Used(b, i)) {
      assert OldestFirst(b.items[i].lots, Used(b, i), b.items[i].invoiced);
    }
  }

  lemma {:induction false} ItemUsedTotal(b: Book, i: nat)
    requires Consistent(b) && i < |b.items|
    ensures Sum(Used(b, i), Identity) == b.items[i].invoiced
  {
    assert ItemConsistent(b, i);
    UsedTotal(b.items[i].matches, b.invoices, |b.items[i].lots|);
    assert Used(b, i) == seq(|b.items[i].lots|, k requires 0 <= k => Sum(b.items[i].matches, LiveOnLot(b.invoices, k)));
  }

  lemma {:induction false} PostUsed(b: Book, v: nat, i: nat)
    requires Consistent(b) && v < |b.invoices| && i < |b.items| && Post(b, v).1 == Done
    ensures var item, q, after := b.items[i], Requested(b.invoices[v].lines, i), Post(b, v).0;
            && |after.items| == |b.items| && after.items[i].lots == item.lots
            && 0 <= item.invoiced && 0 <= q && after.items[i].invoiced == item.invoiced + q
            && Used(after, i) == AfterPosting(item.lots, Used(b, i), item.invoiced, q)
  {
    PostEffect(b, v, i);
    assert ItemConsistent(b, i);
  }

  lemma {:induction false} PostKeepsItemOldestFirst(b: Book, v: nat, i: nat)
    requires Consistent(b) && v < |b.invoices| && i < |b.items| && Post(b, v).1 == Done
    requires OldestFirst(b.items[i].lots, Used(b, i), b.items[i].invoiced)
    ensures var after := Post(b, v).0;
            OldestFirst(after.items[i].lots, Used(after, i), after.items[i].invoiced)
  {
    PostUsed(b, v, i);
    PostingExtendsPrefix(b.items[i].lots, Used(b, i), b.items[i].invoiced, Requested(b.invoices[v].lines, i));
  }

  lemma {:induction false} PostKeepsOldestFirst(b: Book, v: nat)
    requires Consistent(b) && AllOldestFirst(b) && v < |b.invoices| && Post(b, v).1 == Done
    ensures AllOldestFirst(Post(b, v).0)
  {
    var after := Post(b, v).0;
    forall i: nat | i < |after.items|
      ensures OldestFirst(after.items[i].lots, Used(after, i), after.items[i].invoiced) {
      PostKeepsItemOldestFirst(b, v, i);
    }
  }

  lemma {:induction false} ReceiveKeepsOldestFirst(b: Book, item: nat, quantity: nat, unitCost: nat)
    requires Consistent(b) && AllOldestFirst(b)
    ensures AllOldestFirst(Receive(b, item, quantity, unitCost).0)
  {
    var after := Receive(b, item, quantity, unitCost).0;
    forall i: nat | i < |after.items|
      ensures OldestFirst(after.items[i].lots, Used(after, i), after.items[i].invoiced) {
      assert ItemConsistent(b, i) && OldestFirst(b.items[i].lots, Used(b, i), b.items[i].invoiced);
      var lots, n := b.items[i].lots, |b.items[i].lots|;
      var m := b.items[i].matches;
      if after.items[i].lots != lots {
        forall k | 0 <= k <= n ensures Start(after.items[i].lots, k) == Start(lots, k) {
          StartPrefix(lots, [Lot(quantity, unitCost)], k);
        }
        forall k | 0 <= k <= n ensures Used(after, i)[k] == Span(after.items[i].lots, 0, b.items[i].invoiced, k) {
          if k < n {
            assert Used(after, i)[k] == Used(b, i)[k];
          } else {
            SumZero(m, LiveOnLot(b.invoices, n));
          }
        }
      }
    }
  }

  lemma {:induction false} CreateKeepsUsed(b: Book, lines: seq<Line>, i: nat)
    requires Consistent(b) && i < |b.items|
    ensures Create(b, lines).0.items == b.items && Used(Create(b, lines).0, i) == Used(b, i)
  {
    assert ItemConsistent(b, i);
    var after := Create(b, lines).0;
    forall k | 0 <= k < |b.items[i].lots| ensures Used(after, i)[k] == Used(b, i)[k] {
      SumSame(b.items[i].matches, b.items[i].matches, LiveOnLot(b.invoices, k), LiveOnLot(after.invoices, k));
    }
  }

  lemma {:induction false} VoidUsed(b: Book, v: nat, i: nat)
    requires Consistent(b) && v < |b.invoices| && i < |b.items| && b.invoices[v].status == POSTED
    ensures var item, q, after := b.items[i], Requested(b.invoices[v].lines, i), Void(b, v, false).0;
            && |after.items| == |b.items| && after.items[i].lots == item.lots
            && 0 <= q <= item.invoiced && after.items[i].invoiced == item.invoiced - q
            && Used(after, i) == Less(Used(b, i), Held(b, i, v))
  {
    VoidEffect(b, v, i);
    InvoicedCovers(b, v, i);
  }

  lemma {:induction false} VoidKeepsItemOldestFirstIff(b: Book, v: nat, i: nat)
    requires Consistent(b) && v < |b.invoices| && i < |b.items| && b.invoices[v].status == POSTED
    requires OldestFirst(b.items[i].lots, Used(b, i), b.items[i].invoiced)
    ensures var after := Void(b, v, false).0;
            OldestFirst(after.items[i].lots, Used(after, i), after.items[i].invoiced) <==> HoldsYoungestOf(b, v, i)
  {
    VoidUsed(b, v, i);
    VoidKeepsOldestFirst(b.items[i].lots, Used(b, i), b.items[i].invoiced, Held(b, i, v),
      Requested(b.invoices[v].lines, i));
  }

  /** Voiding a posted invoice keeps the live matches oldest-first if and only if it is an invoice
      that holds the youngest units. */
  lemma {:induction false} VoidKeepsOldestFirstIff(b: Book, v: nat)
    requires Consistent(b) && AllOldestFirst(b) && v < |b.invoices| && b.invoices[v].status == POSTED
    ensures AllOldestFirst(Void(b, v, false).0) <==> HoldsYoungest(b, v)
  {
    var after := Void(b, v, false).0;
    forall i: nat | i < |b.items|
      ensures OldestFirst(after.items[i].lots, Used(after, i), after.items[i].invoiced) <==> HoldsYoungestOf(b, v, i)
    {
      VoidKeepsItemOldestFirstIff(b, v, i);
    }
  }

  lemma {:induction false} InvoicedCovers(b: Book, v: nat, i: nat)
    requires Consistent(b) && v < |b.invoices| && i < |b.items| && b.invoices[v].status == POSTED
    ensures 0 <= Requested(b.invoices[v].lines, i) <= b.items[i].invoiced
  {
    assert ItemConsistent(b, i) && InvoiceMatched(b, v);
    VoidEffect(b, v, i);
    VoidConsistent(b, v, false);
    assert ItemConsistent(Void(b, v, false).0, i);
  }

  lemma {:induction false} VoidDraftKeepsUsed(b: Book, v: nat, settled: bool, i: nat)
    requires Consistent(b) && i < |b.items| && v < |b.invoices| && b.invoices[v].status == DRAFT
    ensures Void(b, v, settled).0.items == b.items && Used(Void(b, v, settled).0, i) == Used(b, i)
  {
    assert ItemConsistent(b, i);
    var after := Void(b, v, settled).0;
    forall k | 0 <= k < |b.items[i].lots| ensures Used(after, i)[k] == Used(b, i)[k] {
      SumSame(b.items[i].matches, b.items[i].matches, LiveOnLot(b.invoices, k), LiveOnLot(after.invoices, k));
    }
  }

  /** The step gives nothing but youngest units back. */
  ghost predicate Disciplined(b: Book, op: Op) {
    op.OpVoid? && op.invoice < |b.invoices| && b.invoices[op.invoice].status == POSTED && !op.settled
    ==> HoldsYoungest(b, op.invoice)
  }

  ghost predicate DisciplinedRun(b: Book, ops: seq<Op>)
    decreases |ops|
  {
    ops == [] || (Disciplined(b, ops[0]) && DisciplinedRun(Apply(b, ops[0]), ops[1..]))
  }

  /** From an oldest-first book, one step leads to an oldest-first book if and only if it does not
      void anything but the youngest units. */
  lemma {:induction false} StepKeepsOldestFirstIff(b: Book, op: Op)
    requires Consistent(b) && AllOldestFirst(b)
    ensures AllOldestFirst(Apply(b, op)) <==> Disciplined(b, op)
  {
    match op
    case OpReceive(item, quantity, unitCost) => ReceiveKeepsOldestFirst(b, item, quantity, unitCost);
    case OpCreate(lines) =>
      forall i: nat | i < |b.items| ensures Used(Apply(b, op), i) == Used(b, i) { CreateKeepsUsed(b, lines, i); }
    case OpPost(v) => if v < |b.invoices| && Post(b, v).1 == Done { PostKeepsOldestFirst(b, v); }
    case OpVoid(v, settled) =>
      if v < |b.invoices| && b.invoices[v].status == POSTED && !settled {
        VoidKeepsOldestFirstIff(b, v);
      } else if v < |b.invoices| && b.invoices[v].status == DRAFT {
        forall i: nat | i < |b.items| ensures Used(Apply(b, op), i) == Used(b, i) {
          VoidDraftKeepsUsed(b, v, settled, i);
        }
      }
  }

  /** Over every run whose voids are all of the youngest units, no lot is ever matched beyond its
      receipt. */
  lemma {:induction false} DisciplinedRunRespectsLots(b: Book, ops: seq<Op>)
    requires Consistent(b) && AllOldestFirst(b) && DisciplinedRun(b, ops)
    ensures AllOldestFirst(Run(b, ops)) && LotsRespected(Run(b, ops))
    decreases |ops|
  {
    if ops == [] {
      OldestFirstWithinLots(b);
    } else {
      StepKeepsOldestFirstIff(b, ops[0]);
      ApplyConsistent(b, ops[0]);
      DisciplinedRunRespectsLots(Apply(b, ops[0]), ops[1..]);
    }
  }

  lemma {:induction false} OpenedOldestFirst(items: nat)
    ensures AllOldestFirst(Opened(items))
  {
    var b := Opened(items);
    forall i: nat | i < |b.items| ensures OldestFirst(b.items[i].lots, Used(b, i), b.items[i].invoiced) {
    }
  }

  /** On any reachable book that respects its lots, the next invoice does so too, whatever it is
      for, if and only if the live matches are the oldest units of every item. */
  lemma {:induction false} NextInvoiceSafeIffOldestFirst(b: Book)
    requires Consistent(b) && LotsRespected(b)
    ensures AllOldestFirst(b) <==> forall lines :: LotsRespected(Invoicing(b, lines))
  {
    if AllOldestFirst(b) {
      forall lines ensures LotsRespected(Invoicing(b, lines)) {
        StepKeepsOldestFirstIff(b, OpCreate(lines));
        ApplyConsistent(b, OpCreate(lines));
        StepKeepsOldestFirstIff(Create(b, lines).0, OpPost(|b.invoices|));
        OldestFirstWithinLots(Invoicing(b, lines));
      }
    }
    if forall lines :: LotsRespected(Invoicing(b, lines)) {
      forall i: nat | i < |b.items| ensures OldestFirst(b.items[i].lots, Used(b, i), b.items[i].invoiced) {
        AllUnitsInvoiced(b, i);
      }
    }
  }

  lemma {:induction false} OneLine(i: nat, quantity: nat)
    ensures Requested([Line(i, quantity)], i) == quantity
  {
    assert [Line(i, quantity)][1..] == [];
    assert Sum([Line(i, quantity)], LineShare(i)) == LineShare(i)(Line(i, quantity)) + Sum([], LineShare(i));
  }

  lemma {:induction false} InvoicingOneItem(b: Book, i: nat, quantity: nat)
    requires Consistent(b) && i < |b.items| && 0 < quantity
    requires b.items[i].invoiced + quantity <= Received(b.items[i].lots)
    ensures var item, after := b.items[i], Invoicing(b, [Line(i, quantity)]);
            && |after.items| == |b.items| && after.items[i].lots == item.lots && 0 <= item.invoiced
            && Used(after, i) == AfterPosting(item.lots, Used(b, i), item.invoiced, quantity)
  {
    var lines := [Line(i, quantity)];
    var drafted := Create(b, lines).0;
    OneLine(i, quantity);
    assert drafted.invoices[|b.invoices|] == Invoice(lines, DRAFT);
    assert Invoiceable(b.items, lines);
    CreateConsistent(b, lines);
    CreateKeepsUsed(b, lines, i);
    PostUsed(drafted, |b.invoices|, i);
  }

  lemma {:induction false} LeftoverFits(b: Book, i: nat)
    requires Consistent(b) && LotsRespected(b) && i < |b.items|
    requires forall lines :: LotsRespected(Invoicing(b, lines))
    ensures var item := b.items[i];
            && 0 <= item.invoiced <= Received(item.lots)
            && WithinLots(item.lots,
                 AfterPosting(item.lots, Used(b, i), item.invoiced, Received(item.lots) - item.invoiced))
  {
    assert ItemConsistent(b, i);
    var item := b.items[i];
    var rest := Received(item.lots) - item.invoiced;
    if rest == 0 {
      assert WithinLots(item.lots, Used(b, i));
      PostingNothing(item.lots, Used(b, i), item.invoiced);
    } else {
      InvoicingOneItem(b, i, rest);
      var after := Invoicing(b, [Line(i, rest)]);
      assert LotsRespected(after) && WithinLots(after.items[i].lots, Used(after, i));
    }
  }

  /** Invoicing all that is left of one item shows whether what was used before was the oldest part. */
  lemma {:induction false} AllUnitsInvoiced(b: Book, i: nat)
    requires Consistent(b) && LotsRespected(b) && i < |b.items|
    requires forall lines :: LotsRespected(Invoicing(b, lines))
    ensures OldestFirst(b.items[i].lots, Used(b, i), b.items[i].invoiced)
  {
    LeftoverFits(b, i);
    assert Sum(Used(b, i), Identity) == b.items[i].invoiced by { ItemUsedTotal(b, i); }
    AllUnitsUsed(b.items[i].lots, Used(b, i), b.items[i].invoiced);
  }

  // ---- A run that matches one lot twice over ---------------------------------------------------

  const TWO_RECEIPTS: seq<Lot> := [Lot(10, 1), Lot(10, 2)]

  const TEN_UNITS: seq<Line> := [Line(0, 10)]

  /** Two receipts of ten, two invoices of ten, the OLDER one voided, and ten invoiced again. */
  const VOID_THE_OLDER: seq<Op> := [
    OpReceive(0, 10, 1), OpReceive(0, 10, 2), OpCreate(TEN_UNITS), OpCreate(TEN_UNITS), OpCreate(TEN_UNITS),
    OpPost(0), OpPost(1), OpVoid(0, false), OpPost(2)]

  lemma {:induction false} PostTen(b: Book, v: nat)
    requires |b.items| == 1 && b.items[0].lots == TWO_RECEIPTS && 0 <= b.items[0].invoiced <= 10
    requires v < |b.invoices| && b.invoices[v] == Invoice(TEN_UNITS, DRAFT)
    ensures var item := b.items[0];
            Post(b, v).0 == Book([PostLine(item, v, 0, 10)], b.invoices[v := Invoice(TEN_UNITS, POSTED)])
  {
    OneLine(0, 10);
    assert Received(TWO_RECEIPTS) == Start(TWO_RECEIPTS, 1) + 10 == 20;
    assert PostLines(b.items, v, TEN_UNITS, 0) == b.items;
    assert PostLines(b.items, v, TEN_UNITS, 1) == [PostLine(b.items[0], v, 0, 10)];
  }

  lemma {:induction false} SlicesOfTen(lot: nat)
    requires lot < 2
    ensures Slices(TWO_RECEIPTS, 10 * lot, 10 * lot + 10, 2) == [Slice(lot, 10, TWO_RECEIPTS[lot].unitCost)]
  {
    assert Start(TWO_RECEIPTS, 1) == 10 && Start(TWO_RECEIPTS, 2) == 20;
    assert Slices(TWO_RECEIPTS, 10 * lot, 10 * lot + 10, 0) == [];
  }

  function Drafted(n: nat): Book {
    Book([Item(TWO_RECEIPTS, 0, [])], seq(n, i => Invoice(TEN_UNITS, DRAFT)))
  }

  /** Three invoices for ten units in the given states; the postings made so far claimed these lots. */
  function Invoiced(first: Status, second: Status, third: Status, matches: seq<Match>, invoiced: int): Book {
    Book([Item(TWO_RECEIPTS, invoiced, matches)],
         [Invoice(TEN_UNITS, first), Invoice(TEN_UNITS, second), Invoice(TEN_UNITS, third)])
  }

  function Ten(invoice: nat, lot: nat): Match {
    Match(invoice, 0, lot, 10, if lot == 0 then 1 else 2)
  }

  lemma {:induction false} RunFrom(b: Book, ops: seq<Op>, k: nat)
    requires k < |ops|
    ensures Run(b, ops[k..]) == Run(Apply(b, ops[k]), ops[k + 1..])
  {
    assert ops[k..][1..] == ops[k + 1..];
  }

  lemma {:induction false} TwoReceiptsFirst()
    ensures Run(Opened(1), VOID_THE_OLDER) == Run(Drafted(0), VOID_THE_OLDER[2..])
  {
    var ops := VOID_THE_OLDER;
    var b1 := Book([Item([Lot(10, 1)], 0, [])], []);
    assert Opened(1).items == [Item([], 0, [])];
    assert [] + [Lot(10, 1)] == [Lot(10, 1)];
    assert Apply(Opened(1), ops[0]).items == b1.items;
    assert [Lot(10, 1)] + [Lot(10, 2)] == TWO_RECEIPTS;
    assert Apply(b1, ops[1]).items == Drafted(0).items && Drafted(0).invoices == [];
    assert ops[0..] == ops;
    RunFrom(Opened(1), ops, 0);
    RunFrom(b1, ops, 1);
  }

  lemma {:induction false} ThreeDraftsNext()
    ensures Run(Drafted(0), VOID_THE_OLDER[2..]) == Run(Drafted(3), VOID_THE_OLDER[5..])
  {
    var ops := VOID_THE_OLDER;
    forall n: nat | n < 3 ensures Apply(Drafted(n), OpCreate(TEN_UNITS)) == Drafted(n + 1) {
      assert Drafted(n + 1).invoices == Drafted(n).invoices + [Invoice(TEN_UNITS, DRAFT)];
    }
    RunFrom(Drafted(0), ops, 2);
    RunFrom(Drafted(1), ops, 3);
    RunFrom(Drafted(2), ops, 4);
  }

  lemma {:induction false} PostTenFrom(matches: seq<Match>, invoices: seq<Invoice>, v: nat, lot: nat)
    requires lot < 2 && v < |invoices| && invoices[v] == Invoice(TEN_UNITS, DRAFT)
    ensures Apply(Book([Item(TWO_RECEIPTS, 10 * lot, matches)], invoices), OpPost(v))
            == Book([Item(TWO_RECEIPTS, 10 * lot + 10, matches + [Ten(v, lot)])],
              invoices[v := Invoice(TEN_UNITS, POSTED)])
  {
    PostTen(Book([Item(TWO_RECEIPTS, 10 * lot, matches)], invoices), v);
    SlicesOfTen(lot);
    assert Tag(v, 0, [Slice(lot, 10, TWO_RECEIPTS[lot].unitCost)]) == [Ten(v, lot)];
  }

  const BOTH_POSTED: Book := Invoiced(POSTED, POSTED, DRAFT, [Ten(0, 0), Ten(1, 1)], 20)

  lemma {:induction false} TwoPostings()
    ensures Run(Drafted(3), VOID_THE_OLDER[5..]) == Run(BOTH_POSTED, VOID_THE_OLDER[7..])
  {
    var ops := VOID_THE_OLDER;
    var b0 := Invoiced(DRAFT, DRAFT, DRAFT, [], 0);
    var b1 := Invoiced(POSTED, DRAFT, DRAFT, [Ten(0, 0)], 10);
    assert Drafted(3) == b0;
    PostTenFrom([], b0.invoices, 0, 0);
    assert [] + [Ten(0, 0)] == [Ten(0, 0)] && b0.invoices[0 := Invoice(TEN_UNITS, POSTED)] == b1.invoices;
    assert Apply(b0, ops[5]) == b1;
    PostTenFrom([Ten(0, 0)], b1.invoices, 1, 1);
    assert [Ten(0, 0)] + [Ten(1, 1)] == [Ten(0, 0), Ten(1, 1)];
    assert b1.invoices[1 := Invoice(TEN_UNITS, POSTED)] == BOTH_POSTED.invoices;
    assert Apply(b1, ops[6]) == BOTH_POSTED;
    RunFrom(b0, ops, 5);
    RunFrom(b1, ops, 6);
  }

  lemma {:induction false} VoidAndPost()
    ensures Run(BOTH_POSTED, VOID_THE_OLDER[7..])
            == Invoiced(VOIDED, POSTED, POSTED, [Ten(0, 0), Ten(1, 1), Ten(2, 1)], 20)
  {
    var ops := VOID_THE_OLDER;
    var b3 := Invoiced(VOIDED, POSTED, DRAFT, [Ten(0, 0), Ten(1, 1)], 10);
    var b4 := Invoiced(VOIDED, POSTED, POSTED, [Ten(0, 0), Ten(1, 1), Ten(2, 1)], 20);
    OneLine(0, 10);
    assert Apply(BOTH_POSTED, ops[7]) == b3;
    PostTenFrom(b3.items[0].matches, b3.invoices, 2, 1);
    assert [Ten(0, 0), Ten(1, 1)] + [Ten(2, 1)] == [Ten(0, 0), Ten(1, 1), Ten(2, 1)];
    assert b3.invoices[2 := Invoice(TEN_UNITS, POSTED)] == b4.invoices;
    assert Apply(b3, ops[8]) == b4;
    RunFrom(BOTH_POSTED, ops, 7);
    RunFrom(b3, ops, 8);
    assert ops[9..] == [];
  }

  /** The promise that live matches stay within each receipt is not kept by every run: the second
      receipt, of ten units, ends up matched for twenty while the first is matched for none. */
  lemma {:induction false} VoidingOlderOverMatchesALot()
    ensures var after := Run(Opened(1), VOID_THE_OLDER);
            && |after.items| == 1 && after.items[0].lots == TWO_RECEIPTS && after.items[0].invoiced == 20
            && Used(after, 0) == [0, 20]
            && !LotsRespected(after)
  {
    TwoReceiptsFirst();
    ThreeDraftsNext();
    TwoPostings();
    VoidAndPost();
    var after := Run(Opened(1), VOID_THE_OLDER);
    var matches := after.items[0].matches;
    assert matches[1..] == [Ten(1, 1), Ten(2, 1)] && matches[1..][1..] == [Ten(2, 1)];
    assert Used(after, 0)[0] == Sum(matches, LiveOnLot(after.invoices, 0)) == 0;
    assert Used(after, 0)[1] == Sum(matches, LiveOnLot(after.invoices, 1)) == 20;
    assert !WithinLots(after.items[0].lots, Used(after, 0));
  }

  // ---- The service -------------------------------------------------------------------------------

  /** `items` with the matches of `after` but their own invoiced quantities. */
  function MatchedOnly(items: seq<Item>, after: seq<Item>): (r: seq<Item>)
    requires |items| == |after|
    ensures |r| == |items|
  {
    seq(|items|, i requires 0 <= i < |items| => after[i].(invoiced := items[i].invoiced))
  }

  lemma {:induction false} ReleaseStep(items: seq<Item>, lines: seq<Line>, n: nat)
    requires n < |lines| && LinesOn(lines, |items|)
    ensures var before, l := Release(items, lines[..n]), lines[n];
            Release(items, lines[..n + 1])
              == before[l.item := before[l.item].(invoiced := before[l.item].invoiced - l.quantity)]
  {
    forall i: nat | i < |items|
      ensures Requested(lines[..n + 1], i) == Requested(lines[..n], i) + LineShare(i)(lines[n]) {
      RequestedGrows(lines, n, i);
    }
  }

  /** The matches of one line, of the units from `from` on, with no change to invoiced quantities. */
  function MatchLine(items: seq<Item>, invoice: nat, n: nat, l: Line, from: int): (r: seq<Item>)
    requires l.item < |items|
    ensures |r| == |items|
  {
    var item := items[l.item];
    items[l.item := item.(matches := item.matches
      + Tag(invoice, n, Slices(item.lots, from, from + l.quantity, |item.lots|)))]
  }

  /** Where line `n` of an admitted posting starts to consume, and what it adds. */
  lemma {:induction false} MatchStep(b: Book, v: nat, n: nat)
    requires Consistent(b) && v < |b.invoices| && Post(b, v).1 == Done && n < |b.invoices[v].lines|
    ensures var lines := b.invoices[v].lines;
            var l := lines[n];
            var items := MatchedOnly(b.items, PostLines(b.items, v, lines, n));
            var from := b.items[l.item].invoiced + Requested(lines[..n], l.item);
            && items[l.item].invoiced == b.items[l.item].invoiced >= 0
            && 0 <= from && from + l.quantity <= Received(items[l.item].lots)
            && MatchLine(items, v, n, l, from) == MatchedOnly(b.items, PostLines(b.items, v, lines, n + 1))
  {
    assert ItemConsistent(b, b.invoices[v].lines[n].item);
    PostingIsCovered(b, v, n);
    PostLinesShape(b.items, v, b.invoices[v].lines, n, b.invoices[v].lines[n].item);
  }

  class MatchBook {
    var items: seq<Item>
    var invoices: seq<Invoice>

    ghost function State(): Book
      reads this
    {
      Book(items, invoices)
    }

    constructor (n: nat)
      ensures State() == Opened(n)
    {
      items, invoices := seq(n, i => Item([], 0, [])), [];
    }

    method ReceiveGoods(item: nat, quantity: nat, unitCost: nat) returns (o: Outcome)
      modifies this
      ensures (State(), o) == Receive(old(State()), item, quantity, unitCost)
    {
      if item >= |items| { return Rejected(NOT_FOUND); }
      if quantity == 0 { return Rejected(INVALID_QUANTITY); }
      items := items[item := items[item].(lots := items[item].lots + [Lot(quantity, unitCost)])];
      o := Done;
    }

    method CreateInvoice(lines: seq<Line>) returns (o: Outcome)
      modifies this
      ensures (State(), o) == Create(old(State()), lines)
    {
      if lines == [] { return Rejected(EMPTY_INVOICE); }
      for j := 0 to |lines|
        invariant forall i :: 0 <= i < j ==> lines[i].quantity != 0
      {
        if lines[j].quantity == 0 { return Rejected(INVALID_QUANTITY); }
      }
      for j := 0 to |lines|
        invariant forall i :: 0 <= i < j ==> lines[i].item < |items|
      {
        if lines[j].item >= |items| { return Rejected(NOT_FOUND); }
      }
      invoices := invoices + [Invoice(lines, DRAFT)];
      o := Done;
    }

    /** Units requested per item, as the posting adds them up. */
    method RequestedByItem(lines: seq<Line>) returns (requested: map<nat, nat>)
      ensures forall i: nat :: i in requested <==> exists j :: 0 <= j < |lines| && lines[j].item == i
      ensures forall i: nat :: i in requested ==> requested[i] == Requested(lines, i)
      ensures forall i: nat :: i !in requested ==> Requested(lines, i) == 0
    {
      requested := map[];
      for n := 0 to |lines|
        invariant forall i: nat :: i in requested <==> exists j :: 0 <= j < n && lines[j].item == i
        invariant forall i: nat :: (if i in requested then requested[i] else 0) == Requested(lines[..n], i)
      {
        var l := lines[n];
        forall i: nat ensures Requested(lines[..n + 1], i) == Requested(lines[..n], i) + LineShare(i)(l) {
          RequestedGrows(lines, n, i);
        }
        requested := requested[l.item := (if l.item in requested then requested[l.item] else 0) + l.quantity];
      }
      assert lines[..|lines|] == lines;
    }

    /** Matches the lines, counts them on their items and posts the invoice. */
    method ApplyPosting(invoice: nat, requested: map<nat, nat>)
      requires Consistent(State()) && invoice < |invoices| && Post(State(), invoice).1 == Done
      requires forall i: nat ::
                 i in requested
                 <==> exists j :: 0 <= j < |invoices[invoice].lines| && invoices[invoice].lines[j].item == i
      requires forall i: nat :: i in requested ==> requested[i] == Requested(invoices[invoice].lines, i)
      requires forall i: nat :: i !in requested ==> Requested(invoices[invoice].lines, i) == 0
      modifies this
      ensures State() == Post(old(State()), invoice).0
    {
      ghost var before := State();
      var row := invoices[invoice];
      MatchLines(invoice, row.lines);
      CountInvoiced(requested, before.items, invoice, row.lines);
      invoices := invoices[invoice := row.(status := POSTED)];
    }

    method PostInvoice(invoice: nat) returns (o: Outcome)
      requires Consistent(State())
      modifies this
      ensures (State(), o) == Post(old(State()), invoice)
      ensures Consistent(State())
    {
      ghost var before := State();
      if invoice >= |invoices| { return Rejected(NOT_FOUND); }
      var row := invoices[invoice];
      if row.status == VOIDED { return Rejected(INVALID_INVOICE_STATE); }
      if row.status == POSTED { return Unchanged; }
      if row.lines == [] { return Rejected(EMPTY_INVOICE); }
      assert InvoiceMatched(before, invoice);
      var requested := RequestedByItem(row.lines);
      var ok := Admitted(requested, row.lines);
      if !ok { return Rejected(OVER_INVOICING); }
      ApplyPosting(invoice, requested);
      PostConsistent(before, invoice);
      o := Done;
    }

    method Admitted(requested: map<nat, nat>, lines: seq<Line>) returns (ok: bool)
      requires LinesOn(lines, |items|)
      requires forall i: nat :: i in requested <==> exists j :: 0 <= j < |lines| && lines[j].item == i
      requires forall i: nat :: i in requested ==> requested[i] == Requested(lines, i)
      ensures ok <==> Invoiceable(items, lines)
    {
      var left := requested.Keys;
      while left != {}
        invariant left <= requested.Keys
        invariant forall i: nat :: i in requested.Keys - left ==>
                    i < |items| && items[i].invoiced + requested[i] <= Received(items[i].lots)
      {
        var i :| i in left;
        if items[i].invoiced + requested[i] > Received(items[i].lots) { return false; }
        left := left - {i};
      }
      ok := true;
    }

    /** Line `n` consumes the lots from where the lines before it stopped. */
    method MatchLineOf(invoice: nat, lines: seq<Line>, n: nat, taken: nat, ghost b: Book)
      requires Consistent(b) && invoice < |b.invoices| && Post(b, invoice).1 == Done
               && b.invoices[invoice].lines == lines
      requires n < |lines| && taken == Requested(lines[..n], lines[n].item)
      requires items == MatchedOnly(b.items, PostLines(b.items, invoice, lines, n))
      modifies this`items
      ensures items == MatchedOnly(b.items, PostLines(b.items, invoice, lines, n + 1))
    {
      var l := lines[n];
      var item := items[l.item];
      MatchStep(b, invoice, n);
      var r := FifoMatchSlices(item.lots, item.invoiced + taken, l.quantity);
      assert r.Matched?;  // MATCH_DATA_INCONSISTENT cannot be raised here
      items := items[l.item := item.(matches := item.matches + Tag(invoice, n, r.slices))];
      assert items == MatchLine(old(items), invoice, n, l, item.invoiced + taken);
    }

    /** One pass over the lines, adding up what each item has given so far. */
    method MatchLines(invoice: nat, lines: seq<Line>)
      requires invoice < |invoices| && invoices[invoice] == Invoice(lines, DRAFT) && lines != []
      requires Consistent(State()) && LinesOn(lines, |items|) && Invoiceable(items, lines)
      modifies this`items
      ensures items == MatchedOnly(old(items), PostLines(old(items), invoice, lines, |lines|))
    {
      ghost var b := State();
      var consumed: map<nat, nat> := map[];
      for n := 0 to |lines|
        invariant items == MatchedOnly(b.items, PostLines(b.items, invoice, lines, n))
        invariant forall i: nat :: (if i in consumed then consumed[i] else 0) == Requested(lines[..n], i)
      {
        var l := lines[n];
        MatchLineOf(invoice, lines, n, if l.item in consumed then consumed[l.item] else 0, b);
        consumed := Consume(consumed, lines, n);
      }
    }

    method Consume(consumed: map<nat, nat>, lines: seq<Line>, n: nat) returns (r: map<nat, nat>)
      requires n < |lines|
      requires forall i: nat :: (if i in consumed then consumed[i] else 0) == Requested(lines[..n], i)
      ensures forall i: nat :: (if i in r then r[i] else 0) == Requested(lines[..n + 1], i)
    {
      var l := lines[n];
      forall i: nat ensures Requested(lines[..n + 1], i) == Requested(lines[..n], i) + LineShare(i)(l) {
        RequestedGrows(lines, n, i);
      }
      r := consumed[l.item := (if l.item in consumed then consumed[l.item] else 0) + l.quantity];
    }

    method CountInvoiced(requested: map<nat, nat>, ghost before: seq<Item>, ghost invoice: nat, ghost lines: seq<Line>)
      requires LinesOn(lines, |before|)
      requires items == MatchedOnly(before, PostLines(before, invoice, lines, |lines|))
      requires forall i: nat :: i in requested <==> exists j :: 0 <= j < |lines| && lines[j].item == i
      requires forall i: nat :: i in requested ==> requested[i] == Requested(lines, i)
      requires forall i: nat :: i !in requested ==> Requested(lines, i) == 0
      modifies this`items
      ensures items == PostLines(before, invoice, lines, |lines|)
    {
      ghost var target := PostLines(before, invoice, lines, |lines|);
      assert lines[..|lines|] == lines;
      forall i: nat | i < |before| ensures target[i].invoiced == before[i].invoiced + Requested(lines, i) {
        PostLinesShape(before, invoice, lines, |lines|, i);
      }
      var left := requested.Keys;
      while left != {}
        invariant left <= requested.Keys && |items| == |target|
        invariant forall i: nat :: i < |items| ==>
                    items[i] == if i in left then target[i].(invoiced := before[i].invoiced) else target[i]
      {
        var i :| i in left;
        items := items[i := items[i].(invoiced := items[i].invoiced + requested[i])];
        left := left - {i};
      }
    }

    /** Takes each line's quantity back off its item. */
    method ReleaseLines(lines: seq<Line>)
      requires LinesOn(lines, |items|)
      modifies this`items
      ensures items == Release(old(items), lines)
    {
      for n := 0 to |lines|
        invariant items == Release(old(items), lines[..n])
      {
        ReleaseStep(old(items), lines, n);
        var l := lines[n];
        items := items[l.item := items[l.item].(invoiced := items[l.item].invoiced - l.quantity)];
      }
      assert lines[..|lines|] == lines;
    }

    method VoidInvoice(invoice: nat, settled: bool) returns (o: Outcome)
      requires Consistent(State())
      modifies this
      ensures (State(), o) == Void(old(State()), invoice, settled)
      ensures Consistent(State())
    {
      ghost var before := State();
      VoidConsistent(before, invoice, settled);
      if invoice >= |invoices| { return Rejected(NOT_FOUND); }
      var row := invoices[invoice];
      if row.status == VOIDED { return Unchanged; }
      if row.status == POSTED && settled { return Rejected(INVOICE_HAS_PAYMENTS); }
      if row.status == POSTED {
        assert InvoiceMatched(before, invoice);
        ReleaseLines(row.lines);
      }
      invoices := invoices[invoice := row.(status := VOIDED)];
      o := Done;
    }
  }
}
