/** The settlement migration: one invoice column per payment becomes a table of allocations, and back.

    Rows are identified by position.  A column that a schema does not have reads None, a table that
    it does not have reads [].  A migration is one transaction: it either completes or changes
    nothing. */
module PaymentMigration {
  import opened Options
  import opened Sums

  datatype Invoice = Invoice(order: Option<nat>, grandTotal: int, paid: int, credited: Option<int>)

  datatype Payment = Payment(amount: int, invoice: Option<nat>)

  datatype Allocation = Allocation(payment: nat, invoice: nat, amount: int)

  datatype Match = Match(line: nat, receiptItem: nat, quantity: nat)

  datatype Source = CREDIT_NOTE_SOURCE | OTHER_SOURCE

  /** Permission codes, roles, and which role was granted which code. */
  datatype Rbac = Rbac(codes: set<string>, roles: set<string>, grants: set<(string, string)>)

  datatype Database = Database(
    invoices: seq<Invoice>, payments: seq<Payment>, allocations: seq<Allocation>,
    matches: seq<Match>, creditNotes: nat, sources: seq<Source>, rbac: Rbac)

  datatype Refusal =
    | MULTIPLE_INVOICES | CREDITED_INVOICE | NO_PURCHASE_ORDER | CREDIT_NOTES_EXIST | PAYMENT_WITHOUT_INVOICE

  datatype Outcome = Migrated | Refused(reason: Refusal)

  const AP_CREDIT := "ap.credit"

  const GRANTEES: set<string> := {"Admin", "Manager"}

  // ---- The two schemas ----------------------------------------------------------------------------

  predicate RbacValid(r: Rbac) {
    forall g :: g in r.grants ==> g.0 in r.roles && g.1 in r.codes
  }

  predicate OldInvoice(i: Invoice) {
    i.order.Some? && i.credited.None? && 0 <= i.paid <= i.grandTotal
  }

  predicate NewInvoice(i: Invoice) {
    i.credited.Some? && i.paid >= 0 && i.credited.value >= 0 && i.paid + i.credited.value <= i.grandTotal
  }

  predicate ValidOld(d: Database) {
    && (forall i :: 0 <= i < |d.invoices| ==> OldInvoice(d.invoices[i]))
    && (forall p :: 0 <= p < |d.payments| ==>
          d.payments[p].amount > 0 && d.payments[p].invoice.Some? && d.payments[p].invoice.value < |d.invoices|)
    && (forall k :: 0 <= k < |d.sources| ==> d.sources[k] != CREDIT_NOTE_SOURCE)
    && d.allocations == [] && d.matches == [] && d.creditNotes == 0
    && RbacValid(d.rbac)
  }

  predicate ValidNew(d: Database) {
    && (forall i :: 0 <= i < |d.invoices| ==> NewInvoice(d.invoices[i]))
    && (forall p :: 0 <= p < |d.payments| ==> d.payments[p].amount > 0 && d.payments[p].invoice.None?)
    && (forall a :: 0 <= a < |d.allocations| ==>
          && d.allocations[a].payment < |d.payments| && d.allocations[a].invoice < |d.invoices|
          && d.allocations[a].amount > 0)
    && (forall a, b :: 0 <= a < b < |d.allocations| ==>
          !(d.allocations[a].payment == d.allocations[b].payment
            && d.allocations[a].invoice == d.allocations[b].invoice))
    && RbacValid(d.rbac)
  }

  // ---- What the statements do --------------------------------------------------------------------

  function Credited(invoices: seq<Invoice>): (r: seq<Invoice>)
    ensures |r| == |invoices| && forall i :: 0 <= i < |r| ==> r[i] == invoices[i].(credited := Some(0))
  {
    seq(|invoices|, i requires 0 <= i < |invoices| => invoices[i].(credited := Some(0)))
  }

  function Uncredited(invoices: seq<Invoice>): (r: seq<Invoice>)
    ensures |r| == |invoices| && forall i :: 0 <= i < |r| ==> r[i] == invoices[i].(credited := None)
  {
    seq(|invoices|, i requires 0 <= i < |invoices| => invoices[i].(credited := None))
  }

  /** One allocation of the whole amount for each of the first `n` payments. */
  function AllocationOf(payments: seq<Payment>, p: nat): Allocation
    requires p < |payments| && payments[p].invoice.Some?
  {
    Allocation(p, payments[p].invoice.value, payments[p].amount)
  }

  function AllocationsOf(payments: seq<Payment>): (r: seq<Allocation>)
    requires forall p :: 0 <= p < |payments| ==> payments[p].invoice.Some?
    ensures |r| == |payments| && forall p :: 0 <= p < |r| ==> r[p] == AllocationOf(payments, p)
  {
    seq(|payments|, p requires 0 <= p < |payments| => AllocationOf(payments, p))
  }

  function Invoiceless(payments: seq<Payment>): (r: seq<Payment>)
    ensures |r| == |payments| && forall p :: 0 <= p < |r| ==> r[p] == payments[p].(invoice := None)
  {
    seq(|payments|, p requires 0 <= p < |payments| => payments[p].(invoice := None))
  }

  function Granted(r: Rbac): Rbac {
    r.(codes := r.codes + {AP_CREDIT}, grants := r.grants + set role | role in r.roles * GRANTEES :: (role, AP_CREDIT))
  }

  function Revoked(r: Rbac): Rbac {
    r.(codes := r.codes - {AP_CREDIT}, grants := set g | g in r.grants && g.1 != AP_CREDIT)
  }

  function Upgraded(d: Database): Database
    requires ValidOld(d)
  {
    d.(invoices := Credited(d.invoices), payments := Invoiceless(d.payments),
       allocations := AllocationsOf(d.payments), rbac := Granted(d.rbac))
  }

  /** The invoice of the last allocation that names the payment. */
  function InvoiceOf(allocations: seq<Allocation>, p: nat): (i: Option<nat>)
    ensures i.None? <==> forall a :: 0 <= a < |allocations| ==> allocations[a].payment != p
  {
    if allocations == [] then None
    else if allocations[|allocations| - 1].payment == p then Some(allocations[|allocations| - 1].invoice)
    else InvoiceOf(allocations[..|allocations| - 1], p)
  }

  function Restored(payments: seq<Payment>, allocations: seq<Allocation>): (r: seq<Payment>)
    ensures |r| == |payments| && forall p: nat :: p < |r| ==> r[p] == payments[p].(invoice := InvoiceOf(allocations, p))
  {
    seq(|payments|, p requires 0 <= p < |payments| => payments[p].(invoice := InvoiceOf(allocations, p)))
  }

  predicate PaysTwoInvoices(allocations: seq<Allocation>) {
    exists a, b :: 0 <= a < b < |allocations| && allocations[a].payment == allocations[b].payment
  }

  function Guard(d: Database): Outcome {
    if PaysTwoInvoices(d.allocations) then Refused(MULTIPLE_INVOICES)
    else if exists i :: 0 <= i < |d.invoices| && d.invoices[i].credited.Some? && d.invoices[i].credited.value > 0
    then Refused(CREDITED_INVOICE)
    else if exists i :: 0 <= i < |d.invoices| && d.invoices[i].order.None? then Refused(NO_PURCHASE_ORDER)
    else if d.creditNotes > 0 || (exists k :: 0 <= k < |d.sources| && d.sources[k] == CREDIT_NOTE_SOURCE)
    then Refused(CREDIT_NOTES_EXIST)
    else if exists p: nat :: p < |d.payments| && InvoiceOf(d.allocations, p).None? then Refused(PAYMENT_WITHOUT_INVOICE)
    else Migrated
  }

  function Downgraded(d: Database): Database {
    d.(invoices := Uncredited(d.invoices), payments := Restored(d.payments, d.allocations),
       allocations := [], matches := [], creditNotes := 0, rbac := Revoked(d.rbac))
  }

  // ---- There and back -----------------------------------------------------------------------------

  lemma {:induction false} FindAllocation(allocations: seq<Allocation>, a: nat)
    requires a < |allocations| && !PaysTwoInvoices(allocations)
    ensures InvoiceOf(allocations, allocations[a].payment) == Some(allocations[a].invoice)
  {
    var n := |allocations| - 1;
    if a < n {
      assert !PaysTwoInvoices(allocations[..n]) by {
        forall x, y | 0 <= x < y < n ensures allocations[..n][x].payment != allocations[..n][y].payment {
          assert allocations[x].payment != allocations[y].payment;
        }
      }
      FindAllocation(allocations[..n], a);
    }
  }

  /** Every database of the old schema can be upgraded, the result meets every new constraint, and
      the downgrade then gives every invoice, payment and journal row back as it was. */
  lemma {:induction false} DownAfterUp(d: Database)
    requires ValidOld(d)
    ensures ValidNew(Upgraded(d)) && Guard(Upgraded(d)) == Migrated
    ensures Downgraded(Upgraded(d)) == d.(rbac := Revoked(Granted(d.rbac)))
  {
    var up := Upgraded(d);
    assert !PaysTwoInvoices(up.allocations);
    forall p: nat | p < |d.payments| ensures InvoiceOf(up.allocations, p) == d.payments[p].invoice {
      FindAllocation(up.allocations, p);
    }
    assert Downgraded(up).invoices == d.invoices;
    assert Downgraded(up).payments == d.payments;
  }

  /** The permissions come back as they were if and only if the code did not exist before, which it
      does on a database whose seed already ran with today's permission list. */
  lemma {:induction false} PermissionsBackIff(r: Rbac)
    requires RbacValid(r)
    ensures Revoked(Granted(r)) == r <==> AP_CREDIT !in r.codes
  {
    if AP_CREDIT !in r.codes {
      forall g | g in r.grants ensures g in Revoked(Granted(r)).grants { }
      assert Revoked(Granted(r)).grants == r.grants;
      assert Revoked(Granted(r)).codes == r.codes;
    }
  }

  predicate OnlyAllocation(d: Database, p: nat, a: nat) {
    && a < |d.allocations| && d.allocations[a].payment == p
    && forall b :: 0 <= b < |d.allocations| && d.allocations[b].payment == p ==> b == a
  }

  ghost predicate PaidOnce(d: Database, p: nat) {
    exists a :: OnlyAllocation(d, p, a)
  }

  /** Every payment settles exactly one invoice. */
  ghost predicate OneInvoiceEach(d: Database) {
    forall p: nat :: p < |d.payments| ==> PaidOnce(d, p)
  }

  predicate NoCredits(d: Database) {
    && d.creditNotes == 0
    && (forall i :: 0 <= i < |d.invoices| ==> d.invoices[i].credited == Some(0))
    && (forall k :: 0 <= k < |d.sources| ==> d.sources[k] != CREDIT_NOTE_SOURCE)
  }

  predicate AllFromOneOrder(d: Database) {
    forall i :: 0 <= i < |d.invoices| ==> d.invoices[i].order.Some?
  }

  /** Exactly which databases can be downgraded; what they become meets every old constraint. */
  lemma {:induction false} DowngradesIff(d: Database)
    requires ValidNew(d)
    ensures Guard(d) == Migrated <==> NoCredits(d) && AllFromOneOrder(d) && OneInvoiceEach(d)
    ensures Guard(d) == Migrated ==> ValidOld(Downgraded(d))
  {
    if OneInvoiceEach(d) {
      forall a: nat, b: nat | a < b < |d.allocations| ensures d.allocations[a].payment != d.allocations[b].payment {
        assert PaidOnce(d, d.allocations[a].payment);
      }
      forall p: nat | p < |d.payments| ensures InvoiceOf(d.allocations, p).Some? { assert PaidOnce(d, p); }
    }
    if Guard(d) == Migrated {
      forall p: nat | p < |d.payments| ensures PaidOnce(d, p) {
        assert InvoiceOf(d.allocations, p).Some?;
        var a: nat :| a < |d.allocations| && d.allocations[a].payment == p;
        assert OnlyAllocation(d, p, a);
      }
      DowngradedValid(d);
    }
  }

  /** The first thing the downgrade finds in its way is what it reports. */
  lemma {:induction false} RefusedFor(d: Database)
    requires ValidNew(d) && Guard(d) != Migrated
    ensures Guard(d)
            == Refused(if exists a, b :: 0 <= a < b < |d.allocations|
                            && d.allocations[a].payment == d.allocations[b].payment then MULTIPLE_INVOICES
                       else if exists i :: 0 <= i < |d.invoices| && d.invoices[i].credited != Some(0)
                         then CREDITED_INVOICE
                       else if exists i :: 0 <= i < |d.invoices| && d.invoices[i].order == None then NO_PURCHASE_ORDER
                       else if d.creditNotes > 0 || CREDIT_NOTE_SOURCE in d.sources then CREDIT_NOTES_EXIST
                       else PAYMENT_WITHOUT_INVOICE)
  {
    assert forall i :: 0 <= i < |d.invoices| ==> NewInvoice(d.invoices[i]);
    assert CREDIT_NOTE_SOURCE in d.sources <==>
        exists k :: 0 <= k < |d.sources| && d.sources[k] == CREDIT_NOTE_SOURCE;
  }

  lemma {:induction false} DowngradedValid(d: Database)
    requires ValidNew(d) && Guard(d) == Migrated
    ensures ValidOld(Downgraded(d))
  {
    forall p: nat | p < |d.payments| ensures Restored(d.payments, d.allocations)[p].invoice.value < |d.invoices| {
      assert InvoiceOf(d.allocations, p).Some?;
      var a :| 0 <= a < |d.allocations| && d.allocations[a].payment == p;
      FindAllocation(d.allocations, a);
    }
  }

  /** The upgrade credits every invoice with nothing, turns each payment's invoice into one allocation of its whole
      amount, grants the new permission to the roles that get it, and changes nothing else. */
  lemma {:induction false} UpgradeEffect(d: Database)
    requires ValidOld(d)
    ensures var up := Upgraded(d);
            && |up.invoices| == |d.invoices| && |up.payments| == |up.allocations| == |d.payments|
            && (forall i :: 0 <= i < |d.invoices| ==>
                  var row := d.invoices[i]; up.invoices[i] == Invoice(row.order, row.grandTotal, row.paid, Some(0)))
            && (forall p: nat :: p < |d.payments| ==>
                  && up.payments[p] == Payment(d.payments[p].amount, None)
                  && d.payments[p].invoice == Some(up.allocations[p].invoice)
                  && up.allocations[p].payment == p && up.allocations[p].amount == d.payments[p].amount)
            && up.sources == d.sources && up.matches == d.matches && up.creditNotes == d.creditNotes
            && up.rbac.codes == d.rbac.codes + {"ap.credit"} && up.rbac.roles == d.rbac.roles
            && (forall role, code :: (role, code) in up.rbac.grants <==>
                  (role, code) in d.rbac.grants
                  || (code == "ap.credit" && role in d.rbac.roles && (role == "Admin" || role == "Manager")))
  {
    var up := Upgraded(d);
    forall p: nat | p < |d.payments| ensures up.allocations[p] == AllocationOf(d.payments, p) { }
  }

  /** The downgrade gives each payment the invoice that its allocation names and takes away what only the new
      schema has: the credited amounts, the two tables and the permission. */
  lemma {:induction false} DowngradeEffect(d: Database)
    requires ValidNew(d) && Guard(d) == Migrated
    ensures var down := Downgraded(d);
            && |down.invoices| == |d.invoices| && |down.payments| == |d.payments|
            && (forall i :: 0 <= i < |d.invoices| ==>
                  var row := d.invoices[i]; down.invoices[i] == Invoice(row.order, row.grandTotal, row.paid, None))
            && (forall a :: 0 <= a < |d.allocations| ==>
                  var row := d.allocations[a];
                  down.payments[row.payment] == Payment(d.payments[row.payment].amount, Some(row.invoice)))
            && (forall p :: 0 <= p < |d.payments| ==> down.payments[p].amount == d.payments[p].amount)
            && down.allocations == [] && down.matches == [] && down.creditNotes == 0 && down.sources == d.sources
            && down.rbac.codes == d.rbac.codes - {"ap.credit"} && down.rbac.roles == d.rbac.roles
            && (forall role, code :: (role, code) in down.rbac.grants <==>
                  (role, code) in d.rbac.grants && code != "ap.credit")
  {
    forall a | 0 <= a < |d.allocations|
      ensures InvoiceOf(d.allocations, d.allocations[a].payment) == Some(d.allocations[a].invoice) {
      FindAllocation(d.allocations, a);
    }
  }

  // ---- Back and there -----------------------------------------------------------------------------

  predicate FullAmounts(d: Database) {
    forall a :: 0 <= a < |d.allocations| ==>
      d.allocations[a].payment < |d.payments| ==> d.allocations[a].amount == d.payments[d.allocations[a].payment].amount
  }

  ghost predicate DefaultPermissions(r: Rbac) {
    && AP_CREDIT in r.codes
    && (forall role :: (role, AP_CREDIT) in r.grants <==> role in r.roles * GRANTEES)
  }

  /** The rows of the allocation table, whose own order carries no meaning. */
  function Rows(allocations: seq<Allocation>): set<Allocation> {
    set a | 0 <= a < |allocations| :: allocations[a]
  }

  /** What upgrading again makes of an allocation: the whole amount of its payment. */
  lemma {:induction false} AllocationAgain(d: Database, a: nat)
    requires ValidNew(d) && Guard(d) == Migrated && a < |d.allocations|
    ensures ValidOld(Downgraded(d))
    ensures var again, row := Upgraded(Downgraded(d)).allocations, d.allocations[a];
            |again| == |d.payments| && again[row.payment] == row.(amount := d.payments[row.payment].amount)
  {
    DowngradedValid(d);
    FindAllocation(d.allocations, a);
  }

  lemma {:induction false} AllocationsBack(d: Database)
    requires ValidNew(d) && Guard(d) == Migrated && FullAmounts(d)
    ensures ValidOld(Downgraded(d))
    ensures Rows(Upgraded(Downgraded(d)).allocations) == Rows(d.allocations)
  {
    DowngradedValid(d);
    var again := Upgraded(Downgraded(d)).allocations;
    forall p: nat | p < |again| ensures again[p] in Rows(d.allocations) {
      assert InvoiceOf(d.allocations, p).Some?;
      var a: nat :| a < |d.allocations| && d.allocations[a].payment == p;
      AllocationAgain(d, a);
    }
    forall a: nat | a < |d.allocations| ensures d.allocations[a] in Rows(again) {
      AllocationAgain(d, a);
      assert again[d.allocations[a].payment] in Rows(again);
    }
  }

  /** When the downgrade goes through, upgrading again restores every allocation if and only if each
      was for the whole amount of its payment. */
  lemma {:induction false} AllocationsBackIff(d: Database)
    requires ValidNew(d) && Guard(d) == Migrated
    ensures ValidOld(Downgraded(d))
    ensures Rows(Upgraded(Downgraded(d)).allocations) == Rows(d.allocations) <==> FullAmounts(d)
  {
    DowngradedValid(d);
    if FullAmounts(d) {
      AllocationsBack(d);
    } else {
      var a: nat :| a < |d.allocations| && d.allocations[a].amount != d.payments[d.allocations[a].payment].amount;
      var again := Upgraded(Downgraded(d)).allocations;
      AllocationAgain(d, a);
      forall p: nat | p < |again| ensures again[p] != d.allocations[a] { assert again[p].payment == p; }
      assert d.allocations[a] in Rows(d.allocations) && d.allocations[a] !in Rows(again);
    }
  }

  /** When the downgrade goes through, upgrading again restores the whole database if and only if the
      invoices' receipt matches (which no guard protects) were none, every allocation was for the
      whole amount of its payment, and the new permission was granted to just its default roles. */
  lemma {:induction false} UpAfterDownIff(d: Database)
    requires ValidNew(d) && Guard(d) == Migrated
    ensures ValidOld(Downgraded(d))
    ensures var again := Upgraded(Downgraded(d));
            && again.invoices == d.invoices && again.payments == d.payments && again.sources == d.sources
            && again.creditNotes == d.creditNotes
            && (Rows(again.allocations) == Rows(d.allocations) && again.matches == d.matches && again.rbac == d.rbac
                <==> FullAmounts(d) && d.matches == [] && DefaultPermissions(d.rbac))
  {
    DowngradedValid(d);
    AllocationsBackIff(d);
    var again := Upgraded(Downgraded(d));
    assert again.invoices == d.invoices;
    assert again.payments == d.payments;
    PermissionsAgainIff(d.rbac);
  }

  lemma {:induction false} PermissionsAgainIff(r: Rbac)
    requires RbacValid(r)
    ensures Granted(Revoked(r)) == r <==> DefaultPermissions(r)
  {
    var again := Granted(Revoked(r));
    forall role ensures (role, AP_CREDIT) in again.grants <==> role in r.roles * GRANTEES { }
    if DefaultPermissions(r) {
      assert again.codes == r.codes;
      forall g ensures g in again.grants <==> g in r.grants { assert g == (g.0, g.1); }
      assert again.grants == r.grants;
    }
  }

  /** With the settlement rule of the service, that a payment's allocations add up to its amount, the
      single allocation left by the guard is for the whole amount. */
  lemma {:induction false} SettledPaymentsHaveFullAmounts(d: Database)
    requires ValidNew(d) && Guard(d) == Migrated
    requires forall p: nat :: p < |d.payments| ==> Sum(d.allocations, OfPayment(p)) == d.payments[p].amount
    ensures FullAmounts(d)
  {
    forall a: nat | a < |d.allocations| ensures d.allocations[a].amount == d.payments[d.allocations[a].payment].amount {
      var p := d.allocations[a].payment;
      SumTakeOut(d.allocations, a, OfPayment(p));
      SumZero(d.allocations[..a] + d.allocations[a + 1..], OfPayment(p));
    }
  }

  function OfPayment(p: nat): Allocation -> int {
    (a: Allocation) => if a.payment == p then a.amount else 0
  }

  // ---- The migration as a script of statements ----------------------------------------------------

  class Schema {
    var db: Database

    constructor (d: Database)
      ensures db == d
    {
      db := d;
    }

    method Upgrade()
      requires ValidOld(db)
      modifies this
      ensures db == Upgraded(old(db)) && ValidNew(db)
    {
      ghost var before := db;
      DownAfterUp(db);
      // Add the column, backfill it, make it NOT NULL.
      for i := 0 to |db.invoices|
        invariant db == before.(invoices := db.invoices) && |db.invoices| == |before.invoices|
        invariant forall k :: 0 <= k < |db.invoices| ==>
                    db.invoices[k] == if k < i then before.invoices[k].(credited := Some(0)) else before.invoices[k]
      {
        db := db.(invoices := db.invoices[i := db.invoices[i].(credited := Some(0))]);
      }
      assert db.invoices == Credited(before.invoices);
      // INSERT INTO supplier_payment_allocations SELECT ... FROM supplier_payments.
      for p := 0 to |db.payments|
        invariant db
                  == before.(invoices := Credited(before.invoices), allocations := AllocationsOf(before.payments)[..p])
      {
        db := db.(allocations := db.allocations + [Allocation(p, db.payments[p].invoice.value, db.payments[p].amount)]);
      }
      db := db.(payments := Invoiceless(db.payments));
      db := db.(rbac := Granted(db.rbac));
    }

    method Downgrade() returns (o: Outcome)
      requires ValidNew(db)
      modifies this
      ensures o == Guard(old(db))
      ensures db == if o == Migrated then Downgraded(old(db)) else old(db)
      ensures o == Migrated ==> ValidOld(db)
    {
      ghost var before := db;
      if PaysTwoInvoices(db.allocations) { return Refused(MULTIPLE_INVOICES); }
      if exists i :: 0 <= i < |db.invoices| && db.invoices[i].credited.Some? && db.invoices[i].credited.value > 0 {
        return Refused(CREDITED_INVOICE);
      }
      if exists i :: 0 <= i < |db.invoices| && db.invoices[i].order.None? { return Refused(NO_PURCHASE_ORDER); }
      if db.creditNotes > 0 || exists k :: 0 <= k < |db.sources| && db.sources[k] == CREDIT_NOTE_SOURCE {
        return Refused(CREDIT_NOTES_EXIST);
      }
      var restored := RestoreInvoices(db.payments, db.allocations);
      // ALTER COLUMN purchase_invoice_id SET NOT NULL: a payment without an allocation aborts here.
      if exists p :: 0 <= p < |restored| && restored[p].invoice.None? { return Refused(PAYMENT_WITHOUT_INVOICE); }
      assert Guard(db) == Migrated by {
        forall p: nat | p < |db.payments| ensures InvoiceOf(db.allocations, p).Some? {
          assert restored[p].invoice.Some?;
        }
      }
      DowngradedValid(db);
      db := db.(creditNotes := 0);
      db := db.(payments := restored, allocations := []);
      db := db.(matches := []);
      db := db.(invoices := Uncredited(db.invoices));
      db := db.(rbac := Revoked(db.rbac));
      o := Migrated;
    }

    /** UPDATE supplier_payments SET purchase_invoice_id = ... FROM supplier_payment_allocations. */
    method RestoreInvoices(payments: seq<Payment>, allocations: seq<Allocation>) returns (r: seq<Payment>)
      requires forall p :: 0 <= p < |payments| ==> payments[p].invoice.None?
      requires forall a :: 0 <= a < |allocations| ==> allocations[a].payment < |payments|
      ensures r == Restored(payments, allocations)
    {
      r := payments;
      for a := 0 to |allocations|
        invariant r == Restored(payments, allocations[..a])
      {
        assert allocations[..a + 1][..a] == allocations[..a];
        var p := allocations[a].payment;
        r := r[p := r[p].(invoice := Some(allocations[a].invoice))];
      }
      assert allocations[..|allocations|] == allocations;
    }
  }
}
