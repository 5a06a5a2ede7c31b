/** Money on a supplier invoice: the stored totals, the amounts a posting takes from its receipt
    matches, and the journal entry it posts (and mirrors on a void).

    Quantities are thousandths, prices and costs millionths, discounts and taxes whole cents; every
    product and total is in billionths. */
module InvoicePosting {
  import opened Sums
  import opened Rounding
  import opened FifoMatching
  import opened JournalEntries

  datatype Line = Line(quantity: nat, unitPrice: nat, discount: nat, tax: nat)

  datatype Totals = Totals(subtotal: int, discountTotal: int, taxTotal: int, grandTotal: int)

  datatype Rejection = EMPTY_INVOICE | INVALID_QUANTITY | LINE_TOTAL_CHECK | GRAND_TOTAL_CHECK

  datatype Draft = Draft(totals: Totals) | Refused(reason: Rejection)

  // ---- Totals ------------------------------------------------------------------------------

  function Gross(l: Line): int {
    l.quantity * l.unitPrice
  }

  function Subtotal(l: Line): int {
    Round(l.quantity * l.unitPrice, CENT)
  }

  function Discount(l: Line): int {
    l.discount * CENT
  }

  function Tax(l: Line): int {
    l.tax * CENT
  }

  /** What the customer of the document would compute without any rounding. */
  function Exact(l: Line): int {
    l.quantity * l.unitPrice - l.discount * CENT + l.tax * CENT
  }

  /** The total as the service stores it, and as the table's CHECK recomputes it. */
  function LineTotal(l: Line): int {
    Round(l.quantity * l.unitPrice, CENT) - l.discount * CENT + l.tax * CENT
  }

  function CheckedTotal(l: Line): int {
    Round(l.quantity * l.unitPrice - l.discount * CENT + l.tax * CENT, CENT)
  }

  /** The CHECK accepts the service's own total on every line except one: half a cent of gross on a
      line that a discount turns negative. */
  lemma {:induction false} LineCheckIff(l: Line)
    ensures LineTotal(l) == CheckedTotal(l) <==> !(Tie(Gross(l), CENT) && Exact(l) < 0)
  {
    MoneyShift(l.quantity * l.unitPrice, l.tax - l.discount);
  }

  lemma {:induction false} LineCheckCanFail()
    ensures var l := Line(500, 10_000, 1, 0); LineTotal(l) == 0 && CheckedTotal(l) == -CENT
  {
  }

  function TotalsOf(lines: seq<Line>): Totals {
    Totals(Sum(lines, Subtotal), Sum(lines, Discount), Sum(lines, Tax), Sum(lines, LineTotal))
  }

  predicate LineChecks(lines: seq<Line>) {
    forall i :: 0 <= i < |lines| ==> LineTotal(lines[i]) == CheckedTotal(lines[i])
  }

  lemma {:induction false} TotalsAgree(lines: seq<Line>)
    ensures Sum(lines, LineTotal) == Sum(lines, Subtotal) - Sum(lines, Discount) + Sum(lines, Tax)
  {
    if lines != [] { TotalsAgree(lines[1..]); }
  }

  /** The stored grand total is the sum of the stored line totals, and is within half a cent per line
      of the unrounded total. */
  lemma {:induction false} GrandTotalNearExact(lines: seq<Line>)
    ensures -(|lines| * CENT) <= 2 * (Sum(lines, LineTotal) - Sum(lines, Exact)) <= |lines| * CENT
  {
    if lines != [] {
      MoneyRounding(lines[0].quantity * lines[0].unitPrice);
      GrandTotalNearExact(lines[1..]);
    }
  }

  method CreateDraft(lines: seq<Line>) returns (r: Draft)
    ensures r.Draft? <==> lines != [] && (forall i :: 0 <= i < |lines| ==> lines[i].quantity > 0)
                          && (forall i :: 0 <= i < |lines| ==> LineTotal(lines[i]) == CheckedTotal(lines[i]))
                          && Sum(lines, LineTotal) >= 0
    ensures r.Refused? ==>
            r.reason == if lines == [] then EMPTY_INVOICE
                       else if exists i :: 0 <= i < |lines| && lines[i].quantity <= 0 then INVALID_QUANTITY
                       else if exists i :: 0 <= i < |lines| && LineTotal(lines[i]) != CheckedTotal(lines[i])
                       then LINE_TOTAL_CHECK
                       else GRAND_TOTAL_CHECK
    ensures r.Draft? ==> r.totals == TotalsOf(lines)
  {
    if lines == [] { return Refused(EMPTY_INVOICE); }
    for i := 0 to |lines|
      invariant forall j :: 0 <= j < i ==> lines[j].quantity > 0
    {
      if lines[i].quantity <= 0 { return Refused(INVALID_QUANTITY); }
    }
    var subtotal, discountTotal, taxTotal := 0, 0, 0;
    for i := 0 to |lines|
      invariant LineChecks(lines[..i])
      invariant subtotal == Sum(lines[..i], Subtotal)
      invariant discountTotal == Sum(lines[..i], Discount) && taxTotal == Sum(lines[..i], Tax)
    {
      var l := lines[i];
      assert lines[..i + 1] == lines[..i] + [l];
      SumAppend(lines[..i], l, Subtotal);
      SumAppend(lines[..i], l, Discount);
      SumAppend(lines[..i], l, Tax);
      var lineSubtotal := Round(l.quantity * l.unitPrice, CENT);
      var lineTotal := lineSubtotal - l.discount * CENT + l.tax * CENT;
      assert lines[i] == l && lineTotal == LineTotal(l);
      if lineTotal != Round(l.quantity * l.unitPrice - l.discount * CENT + l.tax * CENT, CENT) {
        assert !LineChecks(lines);
        return Refused(LINE_TOTAL_CHECK);
      }
      subtotal := subtotal + lineSubtotal;
      discountTotal := discountTotal + l.discount * CENT;
      taxTotal := taxTotal + l.tax * CENT;
    }
    assert lines[..|lines|] == lines;
    TotalsAgree(lines);
    var grandTotal := subtotal - discountTotal + taxTotal;
    if grandTotal < 0 { return Refused(GRAND_TOTAL_CHECK); }
    r := Draft(Totals(subtotal, discountTotal, taxTotal, grandTotal));
  }

  // ---- Amounts taken from receipt matches -----------------------------------------------------

  datatype MatchRow = MatchRow(quantity: nat, unitCost: nat, unitPrice: nat, variance: int)

  function Cost(m: MatchRow): int {
    m.quantity * m.unitCost
  }

  function PriceGap(m: MatchRow): int {
    m.quantity * (m.unitPrice - m.unitCost)
  }

  function Recorded(m: MatchRow): int {
    m.variance
  }

  function Invoiced(m: MatchRow): int {
    m.quantity * m.unitPrice
  }

  /** A persisted match documents its variance at two decimals. */
  function RowOf(s: Slice, unitPrice: nat): MatchRow {
    MatchRow(s.quantity, s.unitCost, unitPrice, Round(s.quantity * (unitPrice - s.unitCost), CENT))
  }

  function RowsOf(slices: seq<Slice>, unitPrice: nat): (r: seq<MatchRow>)
    ensures |r| == |slices|
  {
    seq(|slices|, i requires 0 <= i < |slices| => RowOf(slices[i], unitPrice))
  }

  function AllRows(lines: seq<Line>, slices: seq<seq<Slice>>): seq<MatchRow>
    requires |lines| == |slices|
  {
    if lines == [] then []
    else AllRows(lines[..|lines| - 1], slices[..|slices| - 1])
         + RowsOf(slices[|slices| - 1], lines[|lines| - 1].unitPrice)
  }

  /** Every line is matched for exactly its quantity, as the FIFO walk does. */
  predicate FullyMatched(lines: seq<Line>, slices: seq<seq<Slice>>) {
    |lines| == |slices| && forall i :: 0 <= i < |lines| ==> Sum(slices[i], SliceQuantity) == lines[i].quantity
  }

  /** The rows of one line, and the totals carried on over them. */
  method MatchSlices(slices: seq<Slice>, price: nat, before: seq<MatchRow>, clearingBefore: int, varianceBefore: int)
    returns (rows: seq<MatchRow>, clearingRaw: int, varianceRaw: int)
    requires clearingBefore == Sum(before, Cost) && varianceBefore == Sum(before, PriceGap)
    ensures rows == before + RowsOf(slices, price)
    ensures clearingRaw == Sum(rows, Cost) && varianceRaw == Sum(rows, PriceGap)
  {
    rows, clearingRaw, varianceRaw := before, clearingBefore, varianceBefore;
    for j := 0 to |slices|
      invariant rows == before + RowsOf(slices[..j], price)
      invariant clearingRaw == Sum(rows, Cost) && varianceRaw == Sum(rows, PriceGap)
    {
      var s := slices[j];
      var gap := s.quantity * (price - s.unitCost);
      var row := MatchRow(s.quantity, s.unitCost, price, Round(gap, CENT));
      clearingRaw := clearingRaw + s.quantity * s.unitCost;
      varianceRaw := varianceRaw + gap;
      SumAppend(rows, row, Cost);
      SumAppend(rows, row, PriceGap);
      assert RowsOf(slices[..j + 1], price) == RowsOf(slices[..j], price) + [row];
      rows := rows + [row];
    }
    assert slices[..|slices|] == slices;
  }

  /** The two amounts a posting computes and persists rows for, line by line and slice by slice. */
  method PostMatches(lines: seq<Line>, slices: seq<seq<Slice>>)
      returns (rows: seq<MatchRow>, clearing: int, variance: int)
    requires |lines| == |slices|
    ensures rows == AllRows(lines, slices)
    ensures clearing == Round(Sum(rows, Cost), MICRO) && variance == Round(Sum(rows, PriceGap), MICRO)
  {
    rows := [];
    var clearingRaw, varianceRaw := 0, 0;
    for i := 0 to |lines|
      invariant rows == AllRows(lines[..i], slices[..i])
      invariant clearingRaw == Sum(rows, Cost) && varianceRaw == Sum(rows, PriceGap)
    {
      rows, clearingRaw, varianceRaw := MatchSlices(slices[i], lines[i].unitPrice, rows, clearingRaw, varianceRaw);
      assert lines[..i + 1][..i] == lines[..i] && slices[..i + 1][..i] == slices[..i];
    }
    assert lines[..|lines|] == lines && slices[..|slices|] == slices;
    clearing, variance := Round(clearingRaw, MICRO), Round(varianceRaw, MICRO);
  }

  /** A void reads the persisted rows back and arrives at the very amounts that were posted. */
  method AmountsFromRows(rows: seq<MatchRow>) returns (clearing: int, variance: int)
    ensures clearing == Round(Sum(rows, Cost), MICRO) && variance == Round(Sum(rows, PriceGap), MICRO)
  {
    var clearingRaw, varianceRaw := 0, 0;
    for i := 0 to |rows|
      invariant clearingRaw == Sum(rows[..i], Cost) && varianceRaw == Sum(rows[..i], PriceGap)
    {
      assert rows[..i + 1] == rows[..i] + [rows[i]];
      SumAppend(rows[..i], rows[i], Cost);
      SumAppend(rows[..i], rows[i], PriceGap);
      clearingRaw := clearingRaw + rows[i].quantity * rows[i].unitCost;
      varianceRaw := varianceRaw + rows[i].quantity * (rows[i].unitPrice - rows[i].unitCost);
    }
    assert rows[..|rows|] == rows;
    clearing, variance := Round(clearingRaw, MICRO), Round(varianceRaw, MICRO);
  }

  lemma {:induction false} CostPlusGap(rows: seq<MatchRow>)
    ensures Sum(rows, Cost) + Sum(rows, PriceGap) == Sum(rows, Invoiced)
    ensures Sum(rows, Cost) >= 0
  {
    if rows != [] {
      CostPlusGap(rows[1..]);
      var m := rows[0];
      assert m.quantity * (m.unitPrice - m.unitCost) == m.quantity * m.unitPrice - m.quantity * m.unitCost;
    }
  }

  lemma {:induction false} RowsWorth(slices: seq<Slice>, unitPrice: nat)
    ensures Sum(RowsOf(slices, unitPrice), Invoiced) == Sum(slices, SliceQuantity) * unitPrice
  {
    if slices != [] {
      RowsWorth(slices[1..], unitPrice);
      assert RowsOf(slices, unitPrice)[1..] == RowsOf(slices[1..], unitPrice);
      assert (slices[0].quantity + Sum(slices[1..], SliceQuantity)) * unitPrice
          == slices[0].quantity * unitPrice + Sum(slices[1..], SliceQuantity) * unitPrice;
    }
  }

  /** Before any rounding, clearing and variance do add up to what was invoiced. */
  lemma {:induction false} RawAmountsAddUp(lines: seq<Line>, slices: seq<seq<Slice>>)
    requires FullyMatched(lines, slices)
    ensures Sum(AllRows(lines, slices), Cost) + Sum(AllRows(lines, slices), PriceGap) == Sum(lines, Gross)
    ensures Sum(AllRows(lines, slices), Cost) >= 0
  {
    CostPlusGap(AllRows(lines, slices));
    InvoicedWorth(lines, slices);
  }

  lemma {:induction false} InvoicedWorth(lines: seq<Line>, slices: seq<seq<Slice>>)
    requires FullyMatched(lines, slices)
    ensures Sum(AllRows(lines, slices), Invoiced) == Sum(lines, Gross)
  {
    if lines != [] {
      var n := |lines| - 1;
      var before, own := AllRows(lines[..n], slices[..n]), RowsOf(slices[n], lines[n].unitPrice);
      InvoicedWorth(lines[..n], slices[..n]);
      RowsWorth(slices[n], lines[n].unitPrice);
      assert Sum(own, Invoiced) == Gross(lines[n]);
      assert AllRows(lines, slices) == before + own;
      SumConcat(before, own, Invoiced);
      assert lines == lines[..n] + [lines[n]];
      SumAppend(lines[..n], lines[n], Gross);
    }
  }

  // ---- The journal entry -------------------------------------------------------------------------

  datatype Account = PURCHASE_CLEARING | PRICE_VARIANCE | TAX_EXPENSE | PURCHASE_DISCOUNTS | ACCOUNTS_PAYABLE

  function EntryLines(clearing: int, variance: int, t: Totals, reverse: bool): seq<JournalLine<Account>> {
    Side(PURCHASE_CLEARING, clearing, !reverse)
    + Side(PRICE_VARIANCE, variance, !reverse)
    + Side(PRICE_VARIANCE, -variance, reverse)
    + Side(TAX_EXPENSE, t.taxTotal, !reverse)
    + Side(PURCHASE_DISCOUNTS, t.discountTotal, reverse)
    + Side(ACCOUNTS_PAYABLE, t.grandTotal, reverse)
  }

  predicate NonNegative(clearing: int, t: Totals) {
    clearing >= 0 && t.discountTotal >= 0 && t.taxTotal >= 0 && t.grandTotal >= 0
  }

  lemma {:induction false} EntrySum(clearing: int, variance: int, t: Totals, reverse: bool,
      f: JournalLine<Account> -> int)
    ensures Sum(EntryLines(clearing, variance, t, reverse), f)
            == OnSide(f, PURCHASE_CLEARING, clearing, !reverse)
               + OnSide(f, PRICE_VARIANCE, variance, !reverse) + OnSide(f, PRICE_VARIANCE, -variance, reverse)
               + OnSide(f, TAX_EXPENSE, t.taxTotal, !reverse)
               + OnSide(f, PURCHASE_DISCOUNTS, t.discountTotal, reverse)
               + OnSide(f, ACCOUNTS_PAYABLE, t.grandTotal, reverse)
  {
    var e1 := Side(PURCHASE_CLEARING, clearing, !reverse);
    var e2 := e1 + Side(PRICE_VARIANCE, variance, !reverse);
    var e3 := e2 + Side(PRICE_VARIANCE, -variance, reverse);
    var e4 := e3 + Side(TAX_EXPENSE, t.taxTotal, !reverse);
    var e5 := e4 + Side(PURCHASE_DISCOUNTS, t.discountTotal, reverse);
    assert [] + e1 == e1;
    SumSide([], PURCHASE_CLEARING, clearing, !reverse, f);
    SumSide(e1, PRICE_VARIANCE, variance, !reverse, f);
    SumSide(e2, PRICE_VARIANCE, -variance, reverse, f);
    SumSide(e3, TAX_EXPENSE, t.taxTotal, !reverse, f);
    SumSide(e4, PURCHASE_DISCOUNTS, t.discountTotal, reverse, f);
    SumSide(e5, ACCOUNTS_PAYABLE, t.grandTotal, reverse, f);
  }

  lemma {:induction false} EntryOneSided(clearing: int, variance: int, t: Totals, reverse: bool)
    ensures forall i :: 0 <= i < |EntryLines(clearing, variance, t, reverse)| ==>
              OneSided(EntryLines(clearing, variance, t, reverse)[i])
  {
  }

  /** Whatever the sign of the variance, each line has exactly one positive side, and the entry (or
      its mirror) balances exactly when its five amounts do. */
  lemma {:induction false} EntryBalancesIff(clearing: int, variance: int, t: Totals, reverse: bool)
    requires NonNegative(clearing, t)
    ensures forall i :: 0 <= i < |EntryLines(clearing, variance, t, reverse)| ==>
              OneSided(EntryLines(clearing, variance, t, reverse)[i])
    ensures Balanced(EntryLines(clearing, variance, t, reverse)) <==>
            clearing + variance + t.taxTotal == t.discountTotal + t.grandTotal
  {
    EntryOneSided(clearing, variance, t, reverse);
    EntrySum(clearing, variance, t, reverse, DebitOf());
    EntrySum(clearing, variance, t, reverse, CreditOf());
    SideTotals(PURCHASE_CLEARING, clearing, !reverse);
    SideTotals(PRICE_VARIANCE, variance, !reverse);
    SideTotals(PRICE_VARIANCE, -variance, reverse);
    SideTotals(TAX_EXPENSE, t.taxTotal, !reverse);
    SideTotals(PURCHASE_DISCOUNTS, t.discountTotal, reverse);
    SideTotals(ACCOUNTS_PAYABLE, t.grandTotal, reverse);
  }

  /** A void takes every account back to where it was before the posting. */
  lemma {:induction false} VoidMirrorsPosting(clearing: int, variance: int, t: Totals, a: Account)
    ensures Sum(EntryLines(clearing, variance, t, false), NetOn(a))
            + Sum(EntryLines(clearing, variance, t, true), NetOn(a)) == 0
  {
    EntrySum(clearing, variance, t, false, NetOn(a));
    EntrySum(clearing, variance, t, true, NetOn(a));
    MirrorCancels(PURCHASE_CLEARING, clearing, true, a);
    MirrorCancels(PRICE_VARIANCE, variance, true, a);
    MirrorCancels(PRICE_VARIANCE, -variance, true, a);
    MirrorCancels(TAX_EXPENSE, t.taxTotal, true, a);
    MirrorCancels(PURCHASE_DISCOUNTS, t.discountTotal, true, a);
    MirrorCancels(ACCOUNTS_PAYABLE, t.grandTotal, true, a);
  }

  /** What the entry moves on each account: an invoice clears what was received, expenses the price variance
      and the tax, and owes the total; its discounts are income. */
  lemma {:induction false} EntryNets(clearing: int, variance: int, t: Totals, reverse: bool, a: Account)
    requires NonNegative(clearing, t)
    ensures var sign := if reverse then -1 else 1;
            Sum(EntryLines(clearing, variance, t, reverse), NetOn(a)) ==
              match a
              case PURCHASE_CLEARING => sign * clearing
              case PRICE_VARIANCE => sign * variance
              case TAX_EXPENSE => sign * t.taxTotal
              case PURCHASE_DISCOUNTS => -(sign * t.discountTotal)
              case ACCOUNTS_PAYABLE => -(sign * t.grandTotal)
  {
    EntrySum(clearing, variance, t, reverse, NetOn(a));
  }

  /** The totals a draft stores, column by column. */
  lemma {:induction false} StoredTotals(lines: seq<Line>)
    ensures TotalsOf(lines).subtotal == Sum(lines, (l: Line) => Round(l.quantity * l.unitPrice, CENT))
    ensures TotalsOf(lines).discountTotal == Sum(lines, (l: Line) => l.discount * CENT)
    ensures TotalsOf(lines).taxTotal == Sum(lines, (l: Line) => l.tax * CENT)
    ensures TotalsOf(lines).grandTotal
            == TotalsOf(lines).subtotal - TotalsOf(lines).discountTotal + TotalsOf(lines).taxTotal
  {
    SumSame(lines, lines, Subtotal, (l: Line) => Round(l.quantity * l.unitPrice, CENT));
    SumSame(lines, lines, Discount, (l: Line) => l.discount * CENT);
    SumSame(lines, lines, Tax, (l: Line) => l.tax * CENT);
    TotalsAgree(lines);
  }

  /** The rows of a posting carry the quantity and cost of their slice and the price of their line, and the
      difference rounded to the cent. */
  lemma {:induction false} RowCarries(slices: seq<Slice>, unitPrice: nat, k: nat)
    requires k < |slices|
    ensures var row, s := RowsOf(slices, unitPrice)[k], slices[k];
            && row.quantity == s.quantity && row.unitCost == s.unitCost && row.unitPrice == unitPrice
            && row.variance == Round(s.quantity * (unitPrice - s.unitCost), CENT)
  {
  }

  // ---- When a posting balances -------------------------------------------------------------------

  /** The entry that posting these lines against these slices writes. */
  function PostedEntry(lines: seq<Line>, slices: seq<seq<Slice>>): seq<JournalLine<Account>>
    requires |lines| == |slices|
  {
    var rows := AllRows(lines, slices);
    EntryLines(Round(Sum(rows, Cost), MICRO), Round(Sum(rows, PriceGap), MICRO), TotalsOf(lines), false)
  }

  /** What the rounded line subtotals leave out of the gross value. */
  function SubCent(lines: seq<Line>): int {
    Sum(lines, Gross) - Sum(lines, Subtotal)
  }

  /** The amounts agree with the invoice: decided by the raw clearing cost, the raw variance and the
      invoice's sub-cent remainder alone. */
  predicate RoundsBack(cost: int, gap: int, subCent: int) {
    var left := cost - Round(cost, MICRO);
    || -MICRO / 2 < subCent - left < MICRO / 2
    || (subCent - left == MICRO / 2 && gap < 0)
    || (subCent - left == -MICRO / 2 && gap > 0)
  }

  lemma {:induction false} CentsAdd(a: int, b: int)
    requires a % CENT == 0 && b % CENT == 0
    ensures (a + b) % CENT == 0
  {
  }

  lemma {:induction false} SubtotalsAreCents(lines: seq<Line>)
    ensures Sum(lines, Subtotal) % CENT == 0
  {
    if lines != [] {
      SubtotalsAreCents(lines[1..]);
      MoneyRounding(lines[0].quantity * lines[0].unitPrice);
      CentsAdd(Round(lines[0].quantity * lines[0].unitPrice, CENT), Sum(lines[1..], Subtotal));
    }
  }

  lemma {:induction false} TotalsNonNegative(lines: seq<Line>)
    ensures Sum(lines, Discount) >= 0 && Sum(lines, Tax) >= 0
  {
    if lines != [] { TotalsNonNegative(lines[1..]); }
  }

  lemma {:induction false} RoundsBackIff(cost: int, gap: int, subtotal: int)
    requires subtotal % CENT == 0
    ensures Round(cost, MICRO) + Round(gap, MICRO) == subtotal <==> RoundsBack(cost, gap, cost + gap - subtotal)
  {
    var cleared := Round(cost, MICRO);
    LedgerRounding(cost);
    var micros := subtotal / CENT * 10_000 - cleared / MICRO;
    assert micros * MICRO == subtotal - cleared;
    LedgerPreimage(gap, micros);
  }

  /** The journal entry of a matched invoice balances if and only if its amounts round back. */
  lemma {:induction false} PostingBalancesIff(lines: seq<Line>, slices: seq<seq<Slice>>)
    requires FullyMatched(lines, slices) && Sum(lines, LineTotal) >= 0
    ensures var rows := AllRows(lines, slices);
            Balanced(PostedEntry(lines, slices)) <==> RoundsBack(Sum(rows, Cost), Sum(rows, PriceGap), SubCent(lines))
  {
    var cost, gap := Sum(AllRows(lines, slices), Cost), Sum(AllRows(lines, slices), PriceGap);
    RawAmountsAddUp(lines, slices);
    assert Round(cost, MICRO) >= 0 by { LedgerRounding(cost); }
    TotalsAgree(lines);
    TotalsNonNegative(lines);
    SubtotalsAreCents(lines);
    RoundsBackIff(cost, gap, Sum(lines, Subtotal));
    EntryBalancesIff(Round(cost, MICRO), Round(gap, MICRO), TotalsOf(lines), false);
  }

  lemma {:induction false} WholeCentsRoundBackIff(cost: int, gap: int)
    requires cost >= 0
    ensures RoundsBack(cost, gap, 0) <==> !(Tie(cost, MICRO) && gap >= 0)
  {
    LedgerRounding(cost);
  }

  lemma {:induction false} SubCentNeverRoundsBack(cost: int, gap: int, subCent: int)
    requires subCent < -MICRO || MICRO < subCent
    ensures !RoundsBack(cost, gap, subCent)
  {
    LedgerRounding(cost);
  }

  predicate WholeCents(lines: seq<Line>) {
    forall i :: 0 <= i < |lines| ==> Gross(lines[i]) % CENT == 0
  }

  lemma {:induction false} WholeCentsLeaveNothing(lines: seq<Line>)
    requires WholeCents(lines)
    ensures SubCent(lines) == 0
  {
    forall i | 0 <= i < |lines| ensures Gross(lines[i]) == Subtotal(lines[i]) { }
    SumSame(lines, lines, Gross, Subtotal);
  }

  /** An invoice whose lines are each worth whole cents posts a balanced entry, unless the cost of its
      units falls on half a ledger unit while they were invoiced at no less than they cost. */
  lemma {:induction false} WholeCentPostingBalancesIff(lines: seq<Line>, slices: seq<seq<Slice>>)
    requires FullyMatched(lines, slices) && Sum(lines, LineTotal) >= 0 && WholeCents(lines)
    ensures Balanced(PostedEntry(lines, slices)) <==>
            !(Tie(Sum(AllRows(lines, slices), Cost), MICRO) && Sum(AllRows(lines, slices), PriceGap) >= 0)
  {
    PostingBalancesIff(lines, slices);
    RawAmountsAddUp(lines, slices);
    WholeCentsLeaveNothing(lines);
    WholeCentsRoundBackIff(Sum(AllRows(lines, slices), Cost), Sum(AllRows(lines, slices), PriceGap));
  }

  /** An invoice whose rounded subtotals leave out more than one ledger unit of its gross value can
      never be posted, whichever receipts it is matched with and whatever they cost. */
  lemma {:induction false} SubCentValueNeverBalances(lines: seq<Line>, slices: seq<seq<Slice>>)
    requires FullyMatched(lines, slices) && Sum(lines, LineTotal) >= 0
    requires SubCent(lines) < -MICRO || MICRO < SubCent(lines)
    ensures !Balanced(PostedEntry(lines, slices))
  {
    PostingBalancesIff(lines, slices);
    SubCentNeverRoundsBack(Sum(AllRows(lines, slices), Cost), Sum(AllRows(lines, slices), PriceGap), SubCent(lines));
  }

  /** Receipts that price one thousandth of the first line at `cost`, and everything else at nothing. */
  function PricedAt(lines: seq<Line>, cost: nat): (slices: seq<seq<Slice>>)
    requires forall i :: 0 <= i < |lines| ==> lines[i].quantity > 0
    ensures |slices| == |lines|
  {
    seq(|lines|, i requires 0 <= i < |lines| =>
      if i > 0 then [Slice(0, lines[i].quantity, 0)]
      else if lines[i].quantity == 1 then [Slice(0, 1, cost)]
      else [Slice(0, 1, cost), Slice(1, lines[i].quantity - 1, 0)])
  }

  lemma {:induction false} PricedLine(lines: seq<Line>, cost: nat, i: nat)
    requires (forall j :: 0 <= j < |lines| ==> lines[j].quantity > 0) && i < |lines|
    ensures Sum(PricedAt(lines, cost)[i], SliceQuantity) == lines[i].quantity
    ensures Sum(RowsOf(PricedAt(lines, cost)[i], lines[i].unitPrice), Cost) == if i == 0 then cost else 0
  {
    var slices, price := PricedAt(lines, cost)[i], lines[i].unitPrice;
    if |slices| == 1 {
      SumOne(slices[0], SliceQuantity);
      SumOne(RowOf(slices[0], price), Cost);
      assert RowsOf(slices, price) == [RowOf(slices[0], price)];
    } else {
      SumTwo(slices[0], slices[1], SliceQuantity);
      SumTwo(RowOf(slices[0], price), RowOf(slices[1], price), Cost);
      assert RowsOf(slices, price) == [RowOf(slices[0], price), RowOf(slices[1], price)];
    }
  }

  lemma {:induction false} PricedRows(lines: seq<Line>, cost: nat, n: nat)
    requires (forall j :: 0 <= j < |lines| ==> lines[j].quantity > 0) && 0 < n <= |lines|
    ensures Sum(AllRows(lines[..n], PricedAt(lines, cost)[..n]), Cost) == cost
  {
    var slices := PricedAt(lines, cost);
    assert lines[..n][..n - 1] == lines[..n - 1] && slices[..n][..n - 1] == slices[..n - 1];
    PricedLine(lines, cost, n - 1);
    SumConcat(AllRows(lines[..n - 1], slices[..n - 1]), RowsOf(slices[n - 1], lines[n - 1].unitPrice), Cost);
    if n > 1 {
      PricedRows(lines, cost, n - 1);
    } else {
      assert AllRows(lines[..0], slices[..0]) == [];
    }
  }

  /** Any total cost can be had from some receipts. */
  lemma {:induction false} AnyCost(lines: seq<Line>, cost: nat) returns (slices: seq<seq<Slice>>)
    requires lines != [] && forall i :: 0 <= i < |lines| ==> lines[i].quantity > 0
    ensures FullyMatched(lines, slices) && Sum(AllRows(lines, slices), Cost) == cost
  {
    slices := PricedAt(lines, cost);
    forall i | 0 <= i < |lines| ensures Sum(slices[i], SliceQuantity) == lines[i].quantity {
      PricedLine(lines, cost, i);
    }
    PricedRows(lines, cost, |lines|);
    assert lines[..|lines|] == lines && slices[..|lines|] == slices;
  }

  lemma {:induction false} GrossNonNegative(lines: seq<Line>)
    ensures Sum(lines, Gross) >= 0
  {
    if lines != [] { GrossNonNegative(lines[1..]); }
  }

  /** A cost of the receipts at which the amounts round back. */
  function BalancingCost(gross: int, subCent: int): int {
    if subCent == 999 then 499 + 1_000 * gross + 1_000
    else if subCent <= -500 then 500
    else if subCent >= 500 then 499
    else subCent % 1_000
  }

  lemma {:induction false} BalancingCostRoundsBack(gross: int, subtotal: int)
    requires gross >= 0 && subtotal % CENT == 0 && -1_000 <= gross - subtotal <= 999
    ensures var cost := BalancingCost(gross, gross - subtotal);
            cost >= 0 && RoundsBack(cost, gross - cost, gross - subtotal)
  {
  }

  lemma {:induction false} OnlyNearCentsRoundBack(cost: int, gap: int, subCent: int)
    requires cost >= 0 && RoundsBack(cost, gap, subCent)
    ensures -1_000 <= subCent <= 999
  {
  }

  /** Exactly these invoices can ever be posted: those whose rounded subtotals leave out at most one ledger
      unit of their gross value, or give that much too much.  For them some receipts let the entry balance;
      for the others none do. */
  lemma {:induction false} SomeReceiptsBalanceIff(lines: seq<Line>)
    requires lines != [] && (forall i :: 0 <= i < |lines| ==> lines[i].quantity > 0) && Sum(lines, LineTotal) >= 0
    ensures (exists slices :: FullyMatched(lines, slices) && Balanced(PostedEntry(lines, slices)))
            <==> -1_000 <= SubCent(lines) <= 999
  {
    if slices :| FullyMatched(lines, slices) && Balanced(PostedEntry(lines, slices)) {
      PostingBalancesIff(lines, slices);
      RawAmountsAddUp(lines, slices);
      OnlyNearCentsRoundBack(Sum(AllRows(lines, slices), Cost), Sum(AllRows(lines, slices), PriceGap), SubCent(lines));
    }
    if -1_000 <= SubCent(lines) <= 999 {
      var cost := BalancingCost(Sum(lines, Gross), SubCent(lines));
      GrossNonNegative(lines);
      SubtotalsAreCents(lines);
      BalancingCostRoundsBack(Sum(lines, Gross), Sum(lines, Subtotal));
      var slices := AnyCost(lines, cost);
      RawAmountsAddUp(lines, slices);
      PostingBalancesIff(lines, slices);
    }
  }

  const NEVER_POSTED: Line := Line(333, 1_100_000, 0, 0)

  /** The identity the journal relies on does not hold of every invoice: 0.333 units at 1.10 is a
      valid draft that no posting balances, whatever receipts it is matched with. */
  lemma {:induction false} AnInvoiceThatCannotPost(slices: seq<seq<Slice>>)
    requires FullyMatched([NEVER_POSTED], slices)
    ensures LineChecks([NEVER_POSTED]) && Sum([NEVER_POSTED], LineTotal) > 0
    ensures !Balanced(PostedEntry([NEVER_POSTED], slices))
  {
    var lines := [NEVER_POSTED];
    assert Gross(NEVER_POSTED) == 366_300_000;
    assert Subtotal(NEVER_POSTED) == LineTotal(NEVER_POSTED) == 370_000_000;
    SumOne(NEVER_POSTED, Gross);
    SumOne(NEVER_POSTED, Subtotal);
    SumOne(NEVER_POSTED, LineTotal);
    SubCentValueNeverBalances(lines, slices);
  }

  // ---- The documentary variance --------------------------------------------------------------------

  /** The two-decimal variances on the match rows add up to the posted variance only within half a
      cent per row (and half a ledger unit). */
  lemma {:induction false} RecordedVarianceNearPosted(lines: seq<Line>, slices: seq<seq<Slice>>)
    requires |lines| == |slices|
    ensures var rows := AllRows(lines, slices);
            var off := Sum(rows, Recorded) - Round(Sum(rows, PriceGap), MICRO);
            -(|rows| * CENT + MICRO) <= 2 * off <= |rows| * CENT + MICRO
  {
    var rows := AllRows(lines, slices);
    RowsRecordRounded(lines, slices);
    RecordedNearGap(rows);
    LedgerRounding(Sum(rows, PriceGap));
  }

  lemma {:induction false} RowsRecordRounded(lines: seq<Line>, slices: seq<seq<Slice>>)
    requires |lines| == |slices|
    ensures forall i :: 0 <= i < |AllRows(lines, slices)| ==>
              AllRows(lines, slices)[i].variance == Round(PriceGap(AllRows(lines, slices)[i]), CENT)
  {
    if lines != [] { RowsRecordRounded(lines[..|lines| - 1], slices[..|slices| - 1]); }
  }

  lemma {:induction false} RecordedNearGap(rows: seq<MatchRow>)
    requires forall i :: 0 <= i < |rows| ==> rows[i].variance == Round(PriceGap(rows[i]), CENT)
    ensures -(|rows| * CENT) <= 2 * (Sum(rows, Recorded) - Sum(rows, PriceGap)) <= |rows| * CENT
  {
    if rows != [] {
      assert forall i :: 0 <= i < |rows[1..]| ==> rows[1..][i] == rows[i + 1];
      RecordedNearGap(rows[1..]);
      MoneyRounding(PriceGap(rows[0]));
    }
  }

  lemma {:induction false} RecordedInCents(rows: seq<MatchRow>)
    requires forall i :: 0 <= i < |rows| ==> rows[i].variance == Round(PriceGap(rows[i]), CENT)
    ensures Sum(rows, Recorded) % CENT == 0
  {
    if rows != [] {
      assert forall i :: 0 <= i < |rows[1..]| ==> rows[1..][i] == rows[i + 1];
      RecordedInCents(rows[1..]);
      MoneyRounding(PriceGap(rows[0]));
      CentsAdd(rows[0].variance, Sum(rows[1..], Recorded));
    }
  }

  /** The recorded variances add up to the posted one if and only if what the two-decimal rows drop of
      the price gaps is less than half a ledger unit in all, or just half of one that the total gap
      rounds away. */
  lemma {:induction false} RecordedVarianceIff(lines: seq<Line>, slices: seq<seq<Slice>>)
    requires |lines| == |slices|
    ensures var rows := AllRows(lines, slices);
            var gap, dropped := Sum(rows, PriceGap), Sum(rows, PriceGap) - Sum(rows, Recorded);
            Sum(rows, Recorded) == Round(gap, MICRO) <==>
              || -MICRO / 2 < dropped < MICRO / 2
              || (dropped == MICRO / 2 && gap < 0)
              || (dropped == -MICRO / 2 && gap > 0)
  {
    var rows := AllRows(lines, slices);
    RowsRecordRounded(lines, slices);
    RecordedInCents(rows);
    var micros := Sum(rows, Recorded) / CENT * 10_000;
    assert micros * MICRO == Sum(rows, Recorded);
    LedgerPreimage(Sum(rows, PriceGap), micros);
  }

  /** For an invoice that one receipt covers: recorded and posted variance agree if and only if the quantity
      times the difference of price and cost lies within half a ledger unit of whole cents, the half itself
      counting only towards them. */
  lemma {:induction false} OneMatchRecordedIff(l: Line, slice: Slice)
    ensures var rows := AllRows([l], [[slice]]);
            Sum(rows, Recorded) == Round(Sum(rows, PriceGap), MICRO) <==>
            var past := PastCents(slice.quantity * (l.unitPrice - slice.unitCost));
            past < MICRO / 2 || past >= CENT - MICRO / 2
  {
    var row := RowOf(slice, l.unitPrice);
    assert [l][..0] == [] && [[slice]][..0] == [];
    assert AllRows([l], [[slice]]) == [] + RowsOf([slice], l.unitPrice) == [row];
    SumOne(row, Recorded);
    SumOne(row, PriceGap);
    CentAndLedgerAgree(PriceGap(row));
  }

  lemma {:induction false} WholeCentsRound(x: int)
    requires x % CENT == 0
    ensures Round(x, CENT) == x
  {
  }

  /** In particular they agree whenever every match differs from its receipt by whole cents. */
  lemma {:induction false} WholeCentGapsRecordedExactly(lines: seq<Line>, slices: seq<seq<Slice>>)
    requires |lines| == |slices|
    requires forall i :: 0 <= i < |AllRows(lines, slices)| ==> PriceGap(AllRows(lines, slices)[i]) % CENT == 0
    ensures Sum(AllRows(lines, slices), Recorded) == Round(Sum(AllRows(lines, slices), PriceGap), MICRO)
  {
    var rows := AllRows(lines, slices);
    RowsRecordRounded(lines, slices);
    forall i | 0 <= i < |rows| ensures Recorded(rows[i]) == PriceGap(rows[i]) { WholeCentsRound(PriceGap(rows[i])); }
    SumSame(rows, rows, Recorded, PriceGap);
    RecordedVarianceIff(lines, slices);
  }

  /** The sum of the recorded variances is not the posted variance in general: 0.500 units at 1.01
      received at 1.00 records one whole cent and posts half of one. */
  lemma {:induction false} RecordedVarianceCanDiffer()
    ensures var rows := RowsOf([Slice(0, 500, 1_000_000)], 1_010_000);
            Sum(rows, Recorded) == CENT && Round(Sum(rows, PriceGap), MICRO) == CENT / 2
  {
    var rows := RowsOf([Slice(0, 500, 1_000_000)], 1_010_000);
    assert rows[1..] == [];
  }
}
