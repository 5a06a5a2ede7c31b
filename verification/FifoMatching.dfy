/** FIFO consumption of goods-receipt lots.

    The lots of one purchase order item, in receipt order, are laid end to end on a line of units;
    lot `k` occupies `[Start(k), Start(k + 1))`.  Posting an invoice line claims the interval that
    begins where `quantity_invoiced` stands.  Quantities are thousandths of a unit. */
module FifoMatching {
  import opened Sums

  datatype Lot = Lot(quantity: nat, unitCost: nat)

  datatype Slice = Slice(lot: nat, quantity: nat, unitCost: nat)

  datatype MatchResult = Matched(slices: seq<Slice>) | DataInconsistent

  function Start(lots: seq<Lot>, k: nat): nat
    requires k <= |lots|
  {
    if k == 0 then 0 else Start(lots, k - 1) + lots[k - 1].quantity
  }

  function Received(lots: seq<Lot>): nat {
    Start(lots, |lots|)
  }

  function Overlap(lo: int, hi: int, a: int, b: int): nat {
    var from := if lo < a then a else lo;
    var to := if hi < b then hi else b;
    if from < to then to - from else 0
  }

  /** How many of the units `[lo, hi)` of the item came in lot `k`. */
  function Span(lots: seq<Lot>, lo: int, hi: int, k: nat): nat
    requires k < |lots|
  {
    Overlap(lo, hi, Start(lots, k), Start(lots, k + 1))
  }

  function SpanVector(lots: seq<Lot>, lo: int, hi: int): (v: seq<int>)
    ensures |v| == |lots| && forall k :: 0 <= k < |lots| ==> v[k] == Span(lots, lo, hi, k)
  {
    seq(|lots|, k requires 0 <= k < |lots| => Span(lots, lo, hi, k))
  }

  function SliceQuantity(s: Slice): int {
    s.quantity
  }

  function LotShare(k: nat): Slice -> int {
    (s: Slice) => if s.lot == k then s.quantity else 0
  }

  /** Where the first `n` lots end is how many units they hold. */
  lemma {:induction false} UnitsInLots(lots: seq<Lot>, n: nat)
    requires n <= |lots|
    ensures Start(lots, n) == Sum(lots[..n], (l: Lot) => l.quantity)
  {
    if n > 0 {
      UnitsInLots(lots, n - 1);
      assert lots[..n] == lots[..n - 1] + [lots[n - 1]];
      SumAppend(lots[..n - 1], lots[n - 1], (l: Lot) => l.quantity);
    } else {
      assert lots[..0] == [];
    }
  }

  // ---- The walk ----------------------------------------------------------------------------

  /** The units `[lo, hi)` as slices of the first `k` lots: from each lot, in receipt order, the
      part of the range that came in it, at that lot's own cost. */
  function Slices(lots: seq<Lot>, lo: int, hi: int, k: nat): seq<Slice>
    requires k <= |lots|
  {
    if k == 0 then []
    else if Span(lots, lo, hi, k - 1) == 0 then Slices(lots, lo, hi, k - 1)
    else Slices(lots, lo, hi, k - 1) + [Slice(k - 1, Span(lots, lo, hi, k - 1), lots[k - 1].unitCost)]
  }

  /** What the walk has left to skip, and left to take, when it reaches unit `at` of the line. */
  function ToSkip(lo: int, at: int): int {
    if at <= lo then lo - at else 0
  }

  function ToTake(lo: int, hi: int, at: int): int {
    if at <= lo then hi - lo else if at < hi then hi - at else 0
  }

  lemma {:induction false} StartMonotone(lots: seq<Lot>, i: nat, j: nat)
    requires i <= j <= |lots|
    ensures Start(lots, i) <= Start(lots, j)
  {
    if i < j { StartMonotone(lots, i, j - 1); }
  }

  lemma {:induction false} WalkStep(lots: seq<Lot>, lo: int, hi: int, k: nat)
    requires k < |lots| && lo <= hi
    ensures var q, skip, remaining := lots[k].quantity, ToSkip(lo, Start(lots, k)), ToTake(lo, hi, Start(lots, k));
            && ToSkip(lo, Start(lots, k + 1)) == (if skip >= q then skip - q else 0)
            && Span(lots, lo, hi, k) == (if skip >= q then 0 else if q - skip < remaining then q - skip else remaining)
            && ToTake(lo, hi, Start(lots, k + 1)) == remaining - Span(lots, lo, hi, k)
  {
  }

  lemma {:induction false} WalkDone(lots: seq<Lot>, lo: nat, hi: nat, k: nat, n: nat)
    requires lo <= hi && k <= n <= |lots| && ToTake(lo, hi, Start(lots, k)) == 0
    ensures Slices(lots, lo, hi, n) == Slices(lots, lo, hi, k)
    ensures lo == hi || hi <= Start(lots, n)
  {
    StartMonotone(lots, k, n);
    if k < n {
      StartMonotone(lots, k, n - 1);
      WalkDone(lots, lo, hi, k, n - 1);
    }
  }

  /** The walk answers exactly when the receipts cover the requested range, and then with the
      units of that range and no others. */
  method FifoMatchSlices(lots: seq<Lot>, alreadyInvoiced: nat, additional: nat) returns (r: MatchResult)
    ensures r == if additional == 0 || alreadyInvoiced + additional <= Received(lots)
                 then Matched(Slices(lots, alreadyInvoiced, alreadyInvoiced + additional, |lots|))
                 else DataInconsistent
  {
    var skip, remaining := alreadyInvoiced, additional;
    var slices: seq<Slice> := [];
    ghost var lo, hi := alreadyInvoiced, alreadyInvoiced + additional;
    var k := 0;
    while k < |lots|
      invariant 0 <= k <= |lots|
      invariant skip == ToSkip(lo, Start(lots, k)) && remaining == ToTake(lo, hi, Start(lots, k))
      invariant slices == Slices(lots, lo, hi, k)
    {
      WalkStep(lots, lo, hi, k);
      var lot := lots[k];
      k := k + 1;
      if skip >= lot.quantity {
        skip := skip - lot.quantity;
        continue;
      }
      var available := lot.quantity - skip;
      skip := 0;
      var take := if available < remaining then available else remaining;
      if take > 0 {
        slices := slices + [Slice(k - 1, take, lot.unitCost)];
      }
      remaining := remaining - take;
      if remaining <= 0 { break; }
    }
    if remaining > 0 {
      r := DataInconsistent;
    } else {
      WalkDone(lots, lo, hi, k, |lots|);
      r := Matched(slices);
    }
  }

  /** Every slice is positive and at its lot's own cost, and no lot is drawn from twice. */
  lemma {:induction false} SlicesInReceiptOrder(lots: seq<Lot>, lo: int, hi: int, n: nat)
    requires n <= |lots|
    ensures forall i :: 0 <= i < |Slices(lots, lo, hi, n)| ==>
              var s := Slices(lots, lo, hi, n)[i];
              s.lot < n && s.quantity > 0 && s.unitCost == lots[s.lot].unitCost
    ensures forall i, j :: 0 <= i < j < |Slices(lots, lo, hi, n)| ==>
              Slices(lots, lo, hi, n)[i].lot < Slices(lots, lo, hi, n)[j].lot
  {
    if n > 0 { SlicesInReceiptOrder(lots, lo, hi, n - 1); }
  }

  /** Each lot gives exactly its part of the range. */
  lemma {:induction false} SlicesFromLot(lots: seq<Lot>, lo: int, hi: int, n: nat, k: nat)
    requires n <= |lots| && k < |lots|
    ensures Sum(Slices(lots, lo, hi, n), LotShare(k)) == if k < n then Span(lots, lo, hi, k) else 0
  {
    if n > 0 {
      SlicesFromLot(lots, lo, hi, n - 1, k);
      if Span(lots, lo, hi, n - 1) > 0 {
        SumAppend(Slices(lots, lo, hi, n - 1), Slice(n - 1, Span(lots, lo, hi, n - 1), lots[n - 1].unitCost),
          LotShare(k));
      }
    }
  }

  /** A line the receipts cover is matched for exactly its invoiced quantity. */
  lemma {:induction false} SlicesCoverTheLine(lots: seq<Lot>, lo: nat, hi: nat, n: nat)
    requires lo <= hi && n <= |lots|
    ensures Sum(Slices(lots, lo, hi, n), SliceQuantity) == Overlap(lo, hi, 0, Start(lots, n))
  {
    if n > 0 {
      SlicesCoverTheLine(lots, lo, hi, n - 1);
      if Span(lots, lo, hi, n - 1) > 0 {
        SumAppend(Slices(lots, lo, hi, n - 1), Slice(n - 1, Span(lots, lo, hi, n - 1), lots[n - 1].unitCost),
          SliceQuantity);
      }
    }
  }

  // ---- What any sequence of matches may do to the lots ---------------------------------------

  lemma {:induction false} SpanSplit(lots: seq<Lot>, lo: int, mid: int, hi: int, k: nat)
    requires lo <= mid <= hi && k < |lots|
    ensures Span(lots, lo, mid, k) + Span(lots, mid, hi, k) == Span(lots, lo, hi, k)
  {
  }

  lemma {:induction false} SpanTotal(lots: seq<Lot>, lo: nat, hi: nat)
    requires lo <= hi <= Received(lots)
    ensures Sum(SpanVector(lots, lo, hi), Identity) == hi - lo
  {
    SpanTotalUpTo(lots, lo, hi, |lots|);
    assert SpanVector(lots, lo, hi)[..|lots|] == SpanVector(lots, lo, hi);
  }

  lemma {:induction false} SpanTotalUpTo(lots: seq<Lot>, lo: nat, hi: nat, n: nat)
    requires lo <= hi && n <= |lots|
    ensures Sum(SpanVector(lots, lo, hi)[..n], Identity) == Overlap(lo, hi, 0, Start(lots, n))
  {
    if n > 0 {
      SpanTotalUpTo(lots, lo, hi, n - 1);
      var v := SpanVector(lots, lo, hi);
      assert v[..n] == v[..n - 1] + [v[n - 1]];
      SumAppend(v[..n - 1], v[n - 1], Identity);
    }
  }

  /** No lot has more units matched to live invoices than it was received with. */
  ghost predicate WithinLots(lots: seq<Lot>, used: seq<int>)
    requires |used| == |lots|
  {
    forall k :: 0 <= k < |lots| ==> used[k] <= lots[k].quantity
  }

  /** The live matches are exactly the oldest `invoiced` units received. */
  ghost predicate OldestFirst(lots: seq<Lot>, used: seq<int>, invoiced: int)
    requires |used| == |lots|
  {
    forall k :: 0 <= k < |lots| ==> used[k] == Span(lots, 0, invoiced, k)
  }

  function AfterPosting(lots: seq<Lot>, used: seq<int>, invoiced: nat, quantity: nat): (v: seq<int>)
    requires |used| == |lots|
    ensures |v| == |lots|
    ensures forall k :: 0 <= k < |lots| ==> v[k] == used[k] + Span(lots, invoiced, invoiced + quantity, k)
  {
    seq(|lots|, k requires 0 <= k < |lots| => used[k] + Span(lots, invoiced, invoiced + quantity, k))
  }

  lemma {:induction false} PostingNothing(lots: seq<Lot>, used: seq<int>, invoiced: nat)
    requires |used| == |lots|
    ensures AfterPosting(lots, used, invoiced, 0) == used
  {
    forall k | 0 <= k < |lots| ensures AfterPosting(lots, used, invoiced, 0)[k] == used[k] { }
  }

  /** The exact condition under which invoicing stays within the receipts: every next posting the
      three-way match admits keeps every lot within its receipt if and only if the live matches
      are the oldest units received. */
  lemma {:induction false} SafeIffOldestFirst(lots: seq<Lot>, used: seq<int>, invoiced: nat)
    requires |used| == |lots| && Sum(used, Identity) == invoiced <= Received(lots)
    requires WithinLots(lots, used)
    ensures OldestFirst(lots, used, invoiced) <==>
            forall quantity: nat :: 0 < quantity && invoiced + quantity <= Received(lots) ==>
              WithinLots(lots, AfterPosting(lots, used, invoiced, quantity))
  {
    if OldestFirst(lots, used, invoiced) {
      forall quantity: nat | 0 < quantity && invoiced + quantity <= Received(lots)
        ensures WithinLots(lots, AfterPosting(lots, used, invoiced, quantity))
      {
        PostingExtendsPrefix(lots, used, invoiced, quantity);
      }
    }
    var rest := Received(lots) - invoiced;
    if rest == 0 {
      PostingNothing(lots, used, invoiced);
    }
    if WithinLots(lots, AfterPosting(lots, used, invoiced, rest)) {
      AllUnitsUsed(lots, used, invoiced);
    }
  }

  lemma {:induction false} PostingExtendsPrefix(lots: seq<Lot>, used: seq<int>, invoiced: nat, quantity: nat)
    requires |used| == |lots| && OldestFirst(lots, used, invoiced)
    ensures OldestFirst(lots, AfterPosting(lots, used, invoiced, quantity), invoiced + quantity)
    ensures WithinLots(lots, AfterPosting(lots, used, invoiced, quantity))
  {
    forall k | 0 <= k < |lots|
      ensures used[k] + Span(lots, invoiced, invoiced + quantity, k) == Span(lots, 0, invoiced + quantity, k)
    {
      SpanSplit(lots, 0, invoiced, invoiced + quantity, k);
    }
  }

  /** When posting everything that is left fits, it must fill every lot, so what was used before
      was the oldest part. */
  lemma {:induction false} AllUnitsUsed(lots: seq<Lot>, used: seq<int>, invoiced: nat)
    requires |used| == |lots| && Sum(used, Identity) == invoiced <= Received(lots)
    requires WithinLots(lots, AfterPosting(lots, used, invoiced, Received(lots) - invoiced))
    ensures OldestFirst(lots, used, invoiced)
  {
    var all := Received(lots);
    var v := AfterPosting(lots, used, invoiced, all - invoiced);
    var tail := SpanVector(lots, invoiced, all);
    var full := SpanVector(lots, 0, all);
    SpanTotal(lots, invoiced, all);
    SpanTotal(lots, 0, all);
    SumPairwise(used, tail, v);
    forall k | 0 <= k < |lots| ensures full[k] == lots[k].quantity {
      StartMonotone(lots, k + 1, |lots|);
    }
    SumMono(v, full, Identity, Identity);
    forall k | 0 <= k < |lots| ensures used[k] == Span(lots, 0, invoiced, k) {
      SpanSplit(lots, 0, invoiced, all, k);
    }
  }

  function Less(a: seq<int>, b: seq<int>): (v: seq<int>)
    requires |a| == |b|
    ensures |v| == |a| && forall k :: 0 <= k < |a| ==> v[k] == a[k] - b[k]
  {
    seq(|a|, k requires 0 <= k < |a| => a[k] - b[k])
  }

  /** Voiding an invoice keeps the oldest-first shape exactly when the slices it gives back are the
      youngest units invoiced so far. */
  lemma {:induction false} VoidKeepsOldestFirst(lots: seq<Lot>, used: seq<int>, invoiced: nat, freed: seq<int>,
      quantity: nat)
    requires |used| == |freed| == |lots| && quantity <= invoiced
    requires OldestFirst(lots, used, invoiced)
    ensures OldestFirst(lots, Less(used, freed), invoiced - quantity) <==>
            freed == SpanVector(lots, invoiced - quantity, invoiced)
  {
    forall k | 0 <= k < |lots|
      ensures Less(used, freed)[k] == Span(lots, 0, invoiced - quantity, k)
              <==> freed[k] == Span(lots, invoiced - quantity, invoiced, k)
    {
      SpanSplit(lots, 0, invoiced - quantity, invoiced, k);
    }
  }

  lemma {:induction false} StartPrefix(lots: seq<Lot>, more: seq<Lot>, k: nat)
    requires k <= |lots|
    ensures Start(lots + more, k) == Start(lots, k)
  {
    if k > 0 { StartPrefix(lots, more, k - 1); }
  }

  // ---- What units are worth ------------------------------------------------------------------

  function Worth(units: seq<int>, costs: seq<nat>): int
    requires |units| == |costs|
  {
    if units == [] then 0 else units[0] * costs[0] + Worth(units[1..], costs[1..])
  }

  lemma {:induction false} WorthLinear(a: seq<int>, b: seq<int>, c: seq<int>, costs: seq<nat>)
    requires |a| == |b| == |c| == |costs| && forall i :: 0 <= i < |a| ==> c[i] == a[i] - b[i]
    ensures Worth(c, costs) == Worth(a, costs) - Worth(b, costs)
  {
    if a != [] {
      assert forall i :: 0 <= i < |a[1..]| ==> a[1..][i] == a[i + 1] && b[1..][i] == b[i + 1] && c[1..][i] == c[i + 1];
      WorthLinear(a[1..], b[1..], c[1..], costs[1..]);
      assert c[0] * costs[0] == a[0] * costs[0] - b[0] * costs[0];
    }
  }

  /** Costs of a table of lots in which one lot alone costs anything. */
  function OnlyOne(lots: nat, k: nat, cost: nat): (costs: seq<nat>)
    ensures |costs| == lots && forall i :: 0 <= i < lots ==> costs[i] == if i == k then cost else 0
  {
    seq(lots, i => if i == k then cost else 0)
  }

  lemma {:induction false} WorthOfOne(units: seq<int>, k: nat, cost: nat)
    requires k < |units|
    ensures Worth(units, OnlyOne(|units|, k, cost)) == units[k] * cost
  {
    var costs := OnlyOne(|units|, k, cost);
    if k == 0 {
      WorthFree(units[1..], costs[1..]);
    } else {
      assert costs[1..] == OnlyOne(|units[1..]|, k - 1, cost);
      WorthOfOne(units[1..], k - 1, cost);
    }
  }

  lemma {:induction false} WorthFree(units: seq<int>, costs: seq<nat>)
    requires |units| == |costs| && forall i :: 0 <= i < |units| ==> units[i] * costs[i] == 0
    ensures Worth(units, costs) == 0
  {
    if units != [] {
      assert forall i :: 0 <= i < |units[1..]| ==> units[1..][i] == units[i + 1] && costs[1..][i] == costs[i + 1];
      WorthFree(units[1..], costs[1..]);
    }
  }

  lemma {:induction false} ClearingGap(lots: seq<Lot>, used: seq<int>, invoiced: nat, costs: seq<nat>)
    requires |used| == |costs| == |lots| && invoiced <= Received(lots)
    ensures Worth(SpanVector(lots, 0, Received(lots)), costs) - Worth(used, costs)
            - Worth(SpanVector(lots, invoiced, Received(lots)), costs)
            == Worth(SpanVector(lots, 0, invoiced), costs) - Worth(used, costs)
  {
    var all := Received(lots);
    forall k | 0 <= k < |lots|
      ensures Span(lots, 0, invoiced, k) == Span(lots, 0, all, k) - Span(lots, invoiced, all, k)
    {
      SpanSplit(lots, 0, invoiced, all, k);
    }
    WorthLinear(SpanVector(lots, 0, all), SpanVector(lots, invoiced, all), SpanVector(lots, 0, invoiced), costs);
  }

  /** What is left of the receipts once the used units are taken out is worth the youngest units. */
  ghost predicate LeftoverIsYoungest(lots: seq<Lot>, used: seq<int>, invoiced: nat, costs: seq<nat>)
    requires |used| == |costs| == |lots|
  {
    Worth(SpanVector(lots, 0, Received(lots)), costs) - Worth(used, costs)
    == Worth(SpanVector(lots, invoiced, Received(lots)), costs)
  }

  /** Receipts less live matches are worth the FIFO price of the un-invoiced units, whatever the lots
      cost, if and only if the live matches are the oldest units. */
  lemma {:induction false} LeftoverWorthIffOldestFirst(lots: seq<Lot>, used: seq<int>, invoiced: nat)
    requires |used| == |lots| && invoiced <= Received(lots)
    ensures OldestFirst(lots, used, invoiced) <==>
            forall costs: seq<nat> :: |costs| == |lots| ==> LeftoverIsYoungest(lots, used, invoiced, costs)
  {
    var prefix := SpanVector(lots, 0, invoiced);
    if OldestFirst(lots, used, invoiced) {
      assert used == prefix;
      forall costs: seq<nat> | |costs| == |lots| ensures LeftoverIsYoungest(lots, used, invoiced, costs) {
        ClearingGap(lots, used, invoiced, costs);
      }
    } else {
      var k :| 0 <= k < |lots| && used[k] != Span(lots, 0, invoiced, k);
      var costs := OnlyOne(|lots|, k, 1);
      ClearingGap(lots, used, invoiced, costs);
      WorthOfOne(prefix, k, 1);
      WorthOfOne(used, k, 1);
      assert !LeftoverIsYoungest(lots, used, invoiced, costs);
    }
  }

  function LotCosts(lots: seq<Lot>): (costs: seq<nat>)
    ensures |costs| == |lots| && forall k :: 0 <= k < |lots| ==> costs[k] == lots[k].unitCost
  {
    seq(|lots|, k requires 0 <= k < |lots| => lots[k].unitCost)
  }

  function LotWorth(l: Lot): int {
    l.quantity * l.unitCost
  }

  function SliceCost(s: Slice): int {
    s.quantity * s.unitCost
  }

  lemma {:induction false} WorthAppend(units: seq<int>, n: int, costs: seq<nat>, cost: nat)
    requires |units| == |costs|
    ensures Worth(units + [n], costs + [cost]) == Worth(units, costs) + n * cost
  {
    if units == [] {
      assert [] + [n] == [n] && costs + [cost] == [cost];
      assert Worth([n], [cost]) == n * cost + Worth([n][1..], [cost][1..]);
    } else {
      assert (units + [n])[1..] == units[1..] + [n] && (costs + [cost])[1..] == costs[1..] + [cost];
      WorthAppend(units[1..], n, costs[1..], cost);
    }
  }

  lemma {:induction false} WorthUpdate(units: seq<int>, k: nat, more: int, costs: seq<nat>)
    requires k < |units| == |costs|
    ensures Worth(units[k := units[k] + more], costs) == Worth(units, costs) + more * costs[k]
  {
    var after := units[k := units[k] + more];
    if k == 0 {
      assert after[1..] == units[1..];
      assert (units[0] + more) * costs[0] == units[0] * costs[0] + more * costs[0];
    } else {
      assert after[1..] == units[1..][k - 1 := units[1..][k - 1] + more];
      WorthUpdate(units[1..], k - 1, more, costs[1..]);
    }
  }

  /** The slices of a range cost what the range is worth. */
  lemma {:induction false} SlicesWorth(lots: seq<Lot>, lo: int, hi: int, n: nat)
    requires n <= |lots|
    ensures Sum(Slices(lots, lo, hi, n), SliceCost) == Worth(SpanVector(lots, lo, hi)[..n], LotCosts(lots)[..n])
  {
    if n > 0 {
      var units, costs := SpanVector(lots, lo, hi), LotCosts(lots);
      SlicesWorth(lots, lo, hi, n - 1);
      WorthUpTo(units, costs, n);
      if units[n - 1] > 0 {
        SumAppend(Slices(lots, lo, hi, n - 1), Slice(n - 1, units[n - 1], costs[n - 1]), SliceCost);
      }
    }
  }

  lemma {:induction false} WorthUpTo(units: seq<int>, costs: seq<nat>, n: nat)
    requires |units| == |costs| && 0 < n <= |units|
    ensures Worth(units[..n], costs[..n]) == Worth(units[..n - 1], costs[..n - 1]) + units[n - 1] * costs[n - 1]
  {
    assert units[..n] == units[..n - 1] + [units[n - 1]] && costs[..n] == costs[..n - 1] + [costs[n - 1]];
    WorthAppend(units[..n - 1], units[n - 1], costs[..n - 1], costs[n - 1]);
  }

  lemma {:induction false} AllSlicesWorth(lots: seq<Lot>, lo: int, hi: int)
    ensures Sum(Slices(lots, lo, hi, |lots|), SliceCost) == Worth(SpanVector(lots, lo, hi), LotCosts(lots))
  {
    SlicesWorth(lots, lo, hi, |lots|);
    assert SpanVector(lots, lo, hi)[..|lots|] == SpanVector(lots, lo, hi) && LotCosts(lots)[..|lots|] == LotCosts(lots);
  }

  lemma {:induction false} QuantitiesWorth(units: seq<int>, lots: seq<Lot>)
    requires |units| == |lots| && forall k :: 0 <= k < |lots| ==> units[k] == lots[k].quantity
    ensures Worth(units, LotCosts(lots)) == Sum(lots, LotWorth)
  {
    if lots != [] {
      assert LotCosts(lots)[1..] == LotCosts(lots[1..]);
      assert forall k :: 0 <= k < |lots[1..]| ==> lots[1..][k] == lots[k + 1] && units[1..][k] == units[k + 1];
      QuantitiesWorth(units[1..], lots[1..]);
    }
  }

  /** Everything received, at cost. */
  lemma {:induction false} ReceivedWorth(lots: seq<Lot>)
    ensures Worth(SpanVector(lots, 0, Received(lots)), LotCosts(lots)) == Sum(lots, LotWorth)
  {
    forall k | 0 <= k < |lots| ensures Span(lots, 0, Received(lots), k) == lots[k].quantity {
      StartMonotone(lots, k + 1, |lots|);
    }
    QuantitiesWorth(SpanVector(lots, 0, Received(lots)), lots);
  }
}
