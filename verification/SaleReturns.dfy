/** Partial returns of one sold line: the telescoping shares of its discount and tax, and the refunded
    price.

    Amounts and unit prices are cents, quantities thousandths of a unit. */
module SaleReturns {
  import opened Sums

  datatype Item = Item(quantity: nat, unitPrice: nat, discount: nat, tax: nat)

  datatype Refund = Refund(price: int, discount: int, tax: int)

  datatype Outcome = Refunded(refund: Refund) | INVALID_QUANTITY | EXCESSIVE_RETURN_QUANTITY

  function Price(r: Refund): int {
    r.price
  }

  function DiscountShare(r: Refund): int {
    r.discount
  }

  function TaxShare(r: Refund): int {
    r.tax
  }

  function Amount(r: Refund): int {
    r.price - r.discount + r.tax
  }

  // ---- Rounding a quotient ------------------------------------------------------------------------

  /** n / d to the nearest whole number, halves up. */
  function RoundedQuotient(n: nat, d: nat): nat
    requires d > 0
  {
    (2 * n + d) / (2 * d)
  }

  lemma {:induction false} QuotientBounds(x: nat, y: nat)
    requires y > 0
    ensures x / y * y <= x < x / y * y + y
  {
  }

  lemma {:induction false} QuotientUnique(x: nat, y: nat, q: nat)
    requires y > 0 && q * y <= x < q * y + y
    ensures x / y == q
  {
    var p := x / y;
    QuotientBounds(x, y);
    assert p >= q + 1 ==> p * y >= (q + 1) * y;
    assert p + 1 <= q ==> (p + 1) * y <= q * y;
    assert (q + 1) * y == q * y + y && (p + 1) * y == p * y + y;
  }

  lemma {:induction false} QuotientMonotone(a: nat, b: nat, d: nat)
    requires d > 0 && a <= b
    ensures RoundedQuotient(a, d) <= RoundedQuotient(b, d)
  {
    var x, y := (2 * a + d) / (2 * d), (2 * b + d) / (2 * d);
    QuotientBounds(2 * a + d, 2 * d);
    QuotientBounds(2 * b + d, 2 * d);
    assert x >= y + 1 ==> x * (2 * d) >= (y + 1) * (2 * d);
    assert (y + 1) * (2 * d) == y * (2 * d) + 2 * d;
  }

  lemma {:induction false} QuotientExact(k: nat, d: nat)
    requires d > 0
    ensures RoundedQuotient(k * d, d) == k
  {
    assert 2 * (k * d) + d == k * (2 * d) + d;
    QuotientUnique(2 * (k * d) + d, 2 * d, k);
  }

  // ---- Shares --------------------------------------------------------------------------------------

  /** What of a line's total the first `returned` units are entitled to. */
  function Entitled(total: nat, quantity: nat, returned: nat): nat
    requires quantity > 0
  {
    RoundedQuotient(total * returned, quantity)
  }

  function Share(total: nat, quantity: nat, already: nat, more: nat): int
    requires quantity > 0
  {
    if total == 0 then 0 else Entitled(total, quantity, already + more) - Entitled(total, quantity, already)
  }

  lemma {:induction false} ShareIsDifference(total: nat, quantity: nat, already: nat, more: nat)
    requires quantity > 0
    ensures Share(total, quantity, already, more)
            == Entitled(total, quantity, already + more) - Entitled(total, quantity, already)
    ensures Share(total, quantity, already, more) >= 0
  {
    assert total * already <= total * (already + more);
    QuotientMonotone(total * already, total * (already + more), quantity);
    if total == 0 { assert total * already == 0 == total * (already + more); }
  }

  function PriceOf(unitPrice: nat, quantity: nat): nat {
    RoundedQuotient(unitPrice * quantity, 1000)
  }

  function RefundOf(item: Item, already: nat, more: nat): Refund
    requires item.quantity > 0
  {
    Refund(PriceOf(item.unitPrice, more), Share(item.discount, item.quantity, already, more),
      Share(item.tax, item.quantity, already, more))
  }

  /** The refunds of successive parts, each starting where the one before left off. */
  function Refunds(item: Item, already: nat, parts: seq<nat>): (r: seq<Refund>)
    requires item.quantity > 0
    ensures |r| == |parts|
    decreases |parts|
  {
    if parts == [] then [] else [RefundOf(item, already, parts[0])] + Refunds(item, already + parts[0], parts[1..])
  }

  function Returned(parts: seq<nat>): nat {
    if parts == [] then 0 else parts[0] + Returned(parts[1..])
  }

  /** However a line is returned, in any number of parts, the discount and the tax given back
      telescope. */
  lemma {:induction false} SharesTelescope(item: Item, already: nat, parts: seq<nat>)
    requires item.quantity > 0
    ensures var refunds, after := Refunds(item, already, parts), already + Returned(parts);
            && Sum(refunds, DiscountShare)
               == Entitled(item.discount, item.quantity, after) - Entitled(item.discount, item.quantity, already)
            && Sum(refunds, TaxShare)
                 == Entitled(item.tax, item.quantity, after) - Entitled(item.tax, item.quantity, already)
            && forall i :: 0 <= i < |refunds| ==> refunds[i].discount >= 0 && refunds[i].tax >= 0
    decreases |parts|
  {
    if parts != [] {
      SharesTelescope(item, already + parts[0], parts[1..]);
      ShareIsDifference(item.discount, item.quantity, already, parts[0]);
      ShareIsDifference(item.tax, item.quantity, already, parts[0]);
      assert Refunds(item, already, parts)[1..] == Refunds(item, already + parts[0], parts[1..]);
    }
  }

  /** So they never exceed the line's own discount and tax, and reach them exactly when the whole
      quantity is back. */
  lemma {:induction false} SharesNeverExceed(item: Item, parts: seq<nat>)
    requires item.quantity > 0 && Returned(parts) <= item.quantity
    ensures var refunds := Refunds(item, 0, parts);
            && 0 <= Sum(refunds, DiscountShare) <= item.discount && 0 <= Sum(refunds, TaxShare) <= item.tax
            && (Returned(parts) == item.quantity ==>
                  Sum(refunds, DiscountShare) == item.discount && Sum(refunds, TaxShare) == item.tax)
  {
    SharesTelescope(item, 0, parts);
    EntitledEnds(item.discount, item.quantity, Returned(parts));
    EntitledEnds(item.tax, item.quantity, Returned(parts));
  }

  lemma {:induction false} EntitledEnds(total: nat, quantity: nat, returned: nat)
    requires quantity > 0 && returned <= quantity
    ensures Entitled(total, quantity, 0) == 0 && Entitled(total, quantity, quantity) == total
    ensures 0 <= Entitled(total, quantity, returned) <= total
  {
    QuotientExact(0, quantity);
    assert total * 0 == 0 * quantity;
    QuotientExact(total, quantity);
    assert total * returned <= total * quantity by {
      assert total * quantity == total * returned + total * (quantity - returned);
    }
    QuotientMonotone(total * returned, total * quantity, quantity);
  }

  /** The first `returned` units are entitled to total * returned / quantity, rounded half up. */
  lemma {:induction false} EntitledIs(total: nat, quantity: nat, returned: nat)
    requires quantity > 0
    ensures var twice := 2 * (quantity * Entitled(total, quantity, returned));
            2 * (total * returned) - quantity < twice <= 2 * (total * returned) + quantity
  {
    var n, q := total * returned, Entitled(total, quantity, returned);
    QuotientBounds(2 * n + quantity, 2 * quantity);
    assert q * (2 * quantity) == 2 * (quantity * q);
  }

  /** One return refunds the unit price times the quantity rounded half up, and what the units returned so far
      are then entitled to of the discount and of the tax beyond what the earlier ones were. */
  lemma {:induction false} RefundIs(item: Item, already: nat, more: nat)
    requires item.quantity > 0
    ensures var r := RefundOf(item, already, more);
            && item.unitPrice * more - 500 < 1000 * r.price <= item.unitPrice * more + 500
            && r.discount == Entitled(item.discount, item.quantity, already + more)
                             - Entitled(item.discount, item.quantity, already)
            && r.tax == Entitled(item.tax, item.quantity, already + more)
                        - Entitled(item.tax, item.quantity, already)
            && Amount(r) == r.price - r.discount + r.tax
  {
    ShareIsDifference(item.discount, item.quantity, already, more);
    ShareIsDifference(item.tax, item.quantity, already, more);
  }

  // ---- The refunded price ------------------------------------------------------------------------

  /** What rounding adds to (or takes from) an exact price, in thousandths of a cent. */
  function RoundingGain(unitPrice: nat, quantity: nat): int {
    var rest := unitPrice * quantity % 1000;
    if rest >= 500 then 1000 - rest else -rest
  }

  function Gains(unitPrice: nat, parts: seq<nat>): int {
    if parts == [] then 0 else RoundingGain(unitPrice, parts[0]) + Gains(unitPrice, parts[1..])
  }

  lemma {:induction false} PriceGain(unitPrice: nat, quantity: nat)
    ensures 1000 * PriceOf(unitPrice, quantity) == unitPrice * quantity + RoundingGain(unitPrice, quantity)
    ensures -500 < RoundingGain(unitPrice, quantity) <= 500
  {
  }

  lemma {:induction false} GainsBounded(unitPrice: nat, parts: seq<nat>)
    ensures -500 * |parts| <= Gains(unitPrice, parts) <= 500 * |parts|
  {
    if parts != [] {
      GainsBounded(unitPrice, parts[1..]);
      PriceGain(unitPrice, parts[0]);
    }
  }

  lemma {:induction false} PricesAddUp(item: Item, already: nat, parts: seq<nat>)
    requires item.quantity > 0
    ensures 1000 * Sum(Refunds(item, already, parts), Price)
            == item.unitPrice * Returned(parts) + Gains(item.unitPrice, parts)
    decreases |parts|
  {
    if parts == [] {
      assert item.unitPrice * 0 == 0;
    } else {
      var p, first, rest := item.unitPrice, parts[0], Returned(parts[1..]);
      PricesAddUp(item, already + first, parts[1..]);
      PriceGain(p, first);
      assert Refunds(item, already, parts)[1..] == Refunds(item, already + first, parts[1..]);
      assert Sum(Refunds(item, already, parts), Price)
          == PriceOf(p, first) + Sum(Refunds(item, already + first, parts[1..]), Price);
      Distribute(p, first, rest);
    }
  }

  lemma {:induction false} Distribute(p: nat, a: nat, b: nat)
    ensures p * (a + b) == p * a + p * b
  {
  }

  /** The line's charge: its rounded price, less discount, plus tax. */
  function Charge(item: Item): int {
    PriceOf(item.unitPrice, item.quantity) - item.discount + item.tax
  }

  lemma {:induction false} AmountParts(refunds: seq<Refund>)
    ensures Sum(refunds, Amount) == Sum(refunds, Price) - Sum(refunds, DiscountShare) + Sum(refunds, TaxShare)
  {
    if refunds != [] { AmountParts(refunds[1..]); }
  }

  /** A line returned in full, in parts, is refunded what was charged for it exactly when the parts'
      own roundings add up to that of the whole; the two differ by at most half a cent for each part
      and one for the whole. */
  lemma {:induction false} RefundsChargeIffRoundingsAgree(item: Item, parts: seq<nat>)
    requires item.quantity > 0 && Returned(parts) == item.quantity
    ensures Sum(Refunds(item, 0, parts), Amount) == Charge(item)
            <==> Gains(item.unitPrice, parts) == RoundingGain(item.unitPrice, item.quantity)
    ensures -(|parts| + 1) <= 2 * (Sum(Refunds(item, 0, parts), Amount) - Charge(item)) <= |parts| + 1
  {
    var refunds := Refunds(item, 0, parts);
    AmountParts(refunds);
    SharesNeverExceed(item, parts);
    PricesAddUp(item, 0, parts);
    GainsBounded(item.unitPrice, parts);
    PriceGain(item.unitPrice, item.quantity);
  }

  /** What rounding the price of one thousandth of a unit leaves out, in thousandths of a cent. */
  function Off(unitPrice: nat): int {
    unitPrice - 1000 * PriceOf(unitPrice, 1)
  }

  /** While the remainders of the whole line fit half a cent, the price of any part of it is the same
      multiple of its quantity. */
  lemma {:induction false} PriceLinear(unitPrice: nat, quantity: nat)
    ensures PriceOf(unitPrice, quantity) == PriceOf(unitPrice, 1) * quantity
            <==> -500 <= Off(unitPrice) * quantity < 500
  {
    var one, off := PriceOf(unitPrice, 1), Off(unitPrice);
    assert unitPrice * quantity == 1000 * (one * quantity) + off * quantity by {
      assert unitPrice == 1000 * one + off;
      assert (1000 * one + off) * quantity == 1000 * one * quantity + off * quantity;
    }
    assert PriceOf(unitPrice, quantity) == (2 * (unitPrice * quantity) + 1000) / 2000;
    assert one * quantity >= 0;
  }

  lemma {:induction false} PartsFit(unitPrice: nat, part: nat, quantity: nat)
    requires part <= quantity && -500 <= Off(unitPrice) * quantity < 500
    ensures -500 <= Off(unitPrice) * part < 500
  {
    WithinWhole(Off(unitPrice), part, quantity);
  }

  lemma {:induction false} WithinWhole(off: int, part: nat, quantity: nat)
    requires part <= quantity
    ensures off >= 0 ==> 0 <= off * part <= off * quantity
    ensures off < 0 ==> off * quantity <= off * part <= 0
  {
    assert off * quantity == off * part + off * (quantity - part);
  }

  lemma {:induction false} PartsPriced(item: Item, already: nat, parts: seq<nat>)
    requires item.quantity > 0 && Returned(parts) <= item.quantity
    requires -500 <= Off(item.unitPrice) * item.quantity < 500
    ensures Sum(Refunds(item, already, parts), Price) == PriceOf(item.unitPrice, 1) * Returned(parts)
    decreases |parts|
  {
    if parts != [] {
      var one, first, rest := PriceOf(item.unitPrice, 1), parts[0], Returned(parts[1..]);
      PartsPriced(item, already + first, parts[1..]);
      PartsFit(item.unitPrice, first, item.quantity);
      PriceLinear(item.unitPrice, first);
      assert Refunds(item, already, parts)[1..] == Refunds(item, already + first, parts[1..]);
      Distribute(one, first, rest);
    }
  }

  function Thousandths(n: nat): (parts: seq<nat>)
    ensures |parts| == n && Returned(parts) == n
  {
    if n == 0 then [] else [1] + Thousandths(n - 1)
  }

  lemma {:induction false} ThousandthsPriced(item: Item, already: nat, n: nat)
    requires item.quantity > 0
    ensures Sum(Refunds(item, already, Thousandths(n)), Price) == PriceOf(item.unitPrice, 1) * n
    decreases n
  {
    if n > 0 {
      ThousandthsPriced(item, already + 1, n - 1);
      assert Thousandths(n)[1..] == Thousandths(n - 1) && Thousandths(n)[0] == 1;
      assert Refunds(item, already, Thousandths(n))[1..] == Refunds(item, already + 1, Thousandths(n - 1));
      Distribute(PriceOf(item.unitPrice, 1), 1, n - 1);
    }
  }

  lemma {:induction false} RefundsChargeIffPriced(item: Item, parts: seq<nat>)
    requires item.quantity > 0 && Returned(parts) == item.quantity
    ensures Sum(Refunds(item, 0, parts), Amount) == Charge(item)
            <==> Sum(Refunds(item, 0, parts), Price) == PriceOf(item.unitPrice, item.quantity)
  {
    AmountParts(Refunds(item, 0, parts));
    SharesNeverExceed(item, parts);
  }

  /** The price share does not telescope.  However a line is returned in full, its refunds come to
      exactly what was charged for it, if and only if the unit price is so close to a whole cent per
      thousandth that all its remainders together round away. */
  lemma {:induction false} EverySplitRefundsChargeIff(item: Item)
    requires item.quantity > 0
    ensures (forall parts: seq<nat> :: Returned(parts) == item.quantity ==>
            Sum(Refunds(item, 0, parts), Amount) == Charge(item))
            <==> -500 <= Off(item.unitPrice) * item.quantity < 500
  {
    PriceLinear(item.unitPrice, item.quantity);
    if -500 <= Off(item.unitPrice) * item.quantity < 500 {
      forall parts: seq<nat> | Returned(parts) == item.quantity
        ensures Sum(Refunds(item, 0, parts), Amount) == Charge(item) {
        PartsPriced(item, 0, parts);
        RefundsChargeIffPriced(item, parts);
      }
    } else {
      var parts := Thousandths(item.quantity);
      ThousandthsPriced(item, 0, item.quantity);
      RefundsChargeIffPriced(item, parts);
    }
  }

  /** One unit at 1.01 returned in two halves is refunded 1.02. */
  lemma {:induction false} TwoHalvesRefundMore()
    ensures var item := Item(1000, 101, 0, 0); Sum(Refunds(item, 0, [500, 500]), Amount) == Charge(item) + 1
  {
    var item := Item(1000, 101, 0, 0);
    assert [500, 500][1..] == [500] && [500][1..] == [];
    assert Refunds(item, 500, [500]) == [RefundOf(item, 500, 500)] + Refunds(item, 1000, []);
    assert Refunds(item, 0, [500, 500]) == [RefundOf(item, 0, 500), RefundOf(item, 500, 500)];
    assert PriceOf(101, 500) == 51 && PriceOf(101, 1000) == 101;
    var refunds := Refunds(item, 0, [500, 500]);
    assert RefundOf(item, 0, 500) == Refund(51, 0, 0) == RefundOf(item, 500, 500);
    assert refunds == [Refund(51, 0, 0)] + [Refund(51, 0, 0)] && [] + [Refund(51, 0, 0)] == [Refund(51, 0, 0)];
    SumAppend([Refund(51, 0, 0)], Refund(51, 0, 0), Amount);
    SumAppend([], Refund(51, 0, 0), Amount);
  }

  // ---- The service -------------------------------------------------------------------------------

  class SaleItem {
    const item: Item
    var quantityReturned: nat
    ghost var refunds: seq<Refund>

    ghost predicate Valid()
      reads this
    {
      && item.quantity > 0 && quantityReturned <= item.quantity
      && 0 <= Sum(refunds, DiscountShare) == Entitled(item.discount, item.quantity, quantityReturned) <= item.discount
      && 0 <= Sum(refunds, TaxShare) == Entitled(item.tax, item.quantity, quantityReturned) <= item.tax
      && (quantityReturned == item.quantity ==>
            Sum(refunds, DiscountShare) == item.discount && Sum(refunds, TaxShare) == item.tax)
    }

    constructor (item: Item)
      requires item.quantity > 0
      ensures Valid() && this.item == item && quantityReturned == 0 && refunds == []
    {
      this.item, quantityReturned, refunds := item, 0, [];
      EntitledEnds(item.discount, item.quantity, 0);
      EntitledEnds(item.tax, item.quantity, 0);
    }

    method Return(quantity: nat) returns (o: Outcome)
      requires Valid()
      modifies this
      ensures Valid()
      ensures o.Refunded? <==> 0 < quantity <= item.quantity - old(quantityReturned)
      ensures o == INVALID_QUANTITY <==> quantity == 0
      ensures o.Refunded? ==> o.refund == RefundOf(item, old(quantityReturned), quantity)
      ensures o.Refunded? ==>
              quantityReturned == old(quantityReturned) + quantity && refunds == old(refunds) + [o.refund]
      ensures !o.Refunded? ==> quantityReturned == old(quantityReturned) && refunds == old(refunds)
    {
      if quantity <= 0 { return INVALID_QUANTITY; }
      if quantity > item.quantity - quantityReturned { return EXCESSIVE_RETURN_QUANTITY; }
      var refund := RefundOf(item, quantityReturned, quantity);
      ShareIsDifference(item.discount, item.quantity, quantityReturned, quantity);
      ShareIsDifference(item.tax, item.quantity, quantityReturned, quantity);
      SumAppend(refunds, refund, DiscountShare);
      SumAppend(refunds, refund, TaxShare);
      EntitledEnds(item.discount, item.quantity, quantityReturned + quantity);
      EntitledEnds(item.tax, item.quantity, quantityReturned + quantity);
      refunds := refunds + [refund];
      quantityReturned := quantityReturned + quantity;
      o := Refunded(refund);
    }
  }
}
