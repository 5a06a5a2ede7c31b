/** Accounts-payable settlement: invoices, payments and credit notes split over many invoices, their
    reversals, voids, and the control account they post to.

    Rows are identified by their position in insertion order.  Amounts are cents.  One step is one
    committed transaction; a rejected request changes nothing. */
module Settlement {
  import opened Options
  import opened StoreAccess
  import opened Sums

  datatype Status = DRAFT | POSTED | PARTIALLY_PAID | PAID | VOIDED

  datatype Invoice = Invoice(store: nat, supplier: nat, date: int, grandTotal: nat,
                             amountPaid: int, amountCredited: int, status: Status)

  datatype CreditLine = CreditLine(description: nat, amount: int)

  datatype Terms = Payment(means: nat, amount: int) | CreditNote(number: nat, reason: nat, lines: seq<CreditLine>)

  datatype Allocation = Allocation(invoice: nat, amount: int)

  datatype Request = Request(store: nat, supplier: nat, date: int, terms: Terms, allocations: seq<Allocation>, key: nat)

  /** A payment or credit note.  `reversal` is the date of its one reversal row, if there is one;
      `applied` is the amount_allocated column that only credit notes have. */
  datatype Document = Document(request: Request, amount: int, applied: int, reversal: Option<int>)

  datatype Source = InvoicePosted(id: nat) | InvoiceVoided(id: nat) | Settled(id: nat) | Reversed(id: nat)

  /** What one journal entry does to Accounts Payable: credit less debit. */
  datatype Posting = Posting(source: Source, store: nat, amount: int)

  datatype Books = Books(invoices: seq<Invoice>, documents: seq<Document>, journal: seq<Posting>)

  datatype Error =
    | NOT_FOUND | STORE_ACCESS_DENIED | INVALID_INVOICE_STATE | INVOICE_HAS_PAYMENTS
    | INVALID_AMOUNT | EMPTY_CREDIT_NOTE | EMPTY_ALLOCATIONS | DUPLICATE_ALLOCATION_TARGET
    | ALLOCATION_MUST_EQUAL_AMOUNT | IDEMPOTENCY_KEY_CONFLICT | STORE_MISMATCH | SUPPLIER_MISMATCH
    | OVERPAYMENT | DUPLICATE_CREDIT_NUMBER

  datatype Outcome = Done(id: nat) | Existing(id: nat) | Rejected(error: Error)

  // ---- Measures ----------------------------------------------------------------------------

  function LineAmount(l: CreditLine): int {
    l.amount
  }

  function AllocationAmount(a: Allocation): int {
    a.amount
  }

  function ToInvoice(i: nat): Allocation -> int {
    (a: Allocation) => if a.invoice == i then a.amount else 0
  }

  function Total(terms: Terms): int {
    match terms
    case Payment(_, amount) => amount
    case CreditNote(_, _, lines) => Sum(lines, LineAmount)
  }

  /** What an un-reversed document of one kind takes off invoice `i`. */
  function LiveOn(payment: bool, i: nat): Document -> int {
    (d: Document) => if d.reversal.None? && d.request.terms.Payment? == payment
      then Sum(d.request.allocations, ToInvoice(i)) else 0
  }

  predicate Accounting(s: Status) {
    s != DRAFT && s != VOIDED
  }

  predicate Outstanding(s: Status) {
    s == POSTED || s == PARTIALLY_PAID
  }

  function Balance(i: Invoice): int {
    i.grandTotal - i.amountPaid - i.amountCredited
  }

  /** Which stores and suppliers a report is about. */
  type Scope = (nat, nat) -> bool

  function OwedIn(keep: Scope): Invoice -> int {
    (i: Invoice) => if keep(i.store, i.supplier) && Outstanding(i.status) then Balance(i) else 0
  }

  function BilledIn(keep: Scope): Invoice -> int {
    (i: Invoice) => if keep(i.store, i.supplier) && Accounting(i.status) then i.grandTotal else 0
  }

  function SettledIn(keep: Scope): Document -> int {
    (d: Document) => if keep(d.request.store, d.request.supplier) && d.reversal.None? then d.amount else 0
  }

  /** Every supplier's rows of the given stores. */
  function AllSuppliers(stores: nat -> bool): Scope {
    (store: nat, supplier: nat) => stores(store)
  }

  function PostedIn(stores: nat -> bool): Posting -> int {
    (p: Posting) => if stores(p.store) then p.amount else 0
  }

  // ---- Steps ---------------------------------------------------------------------------------

  function Recompute(i: Invoice): Invoice {
    var settled := i.amountPaid + i.amountCredited;
    i.(status := if settled >= i.grandTotal then PAID else if settled > 0 then PARTIALLY_PAID else POSTED)
  }

  function Bump(i: Invoice, payment: bool, delta: int): Invoice {
    Recompute(if payment then i.(amountPaid := i.amountPaid + delta)
              else i.(amountCredited := i.amountCredited + delta))
  }

  predicate TargetsExist(allocations: seq<Allocation>, n: nat) {
    forall j :: 0 <= j < |allocations| ==> allocations[j].invoice < n
  }

  /** The first `n` allocations applied (`sign` 1) or taken back (`sign` -1), invoice by invoice. */
  function Allocate(invoices: seq<Invoice>, payment: bool, allocations: seq<Allocation>, sign: int,
      n: nat): (r: seq<Invoice>)
    requires n <= |allocations| && TargetsExist(allocations, |invoices|)
    ensures |r| == |invoices|
  {
    if n == 0 then invoices
    else
      var before := Allocate(invoices, payment, allocations, sign, n - 1);
      var a := allocations[n - 1];
      before[a.invoice := Bump(before[a.invoice], payment, sign * a.amount)]
  }

  function Create(b: Books, store: nat, supplier: nat, date: int, grandTotal: nat): Books {
    b.(invoices := b.invoices + [Invoice(store, supplier, date, grandTotal, 0, 0, DRAFT)])
  }

  function Post(b: Books, caller: Option<nat>, i: nat): (Books, Outcome) {
    if i >= |b.invoices| then (b, Rejected(NOT_FOUND))
    else
      var row := b.invoices[i];
      if Denied(caller, row.store) then (b, Rejected(STORE_ACCESS_DENIED))
      else if row.status == VOIDED then (b, Rejected(INVALID_INVOICE_STATE))
      else if row.status != DRAFT then (b, Existing(i))
      else (b.(invoices := b.invoices[i := row.(status := POSTED)],
               journal := b.journal + [Posting(InvoicePosted(i), row.store, row.grandTotal)]), Done(i))
  }

  function Void(b: Books, caller: Option<nat>, i: nat): (Books, Outcome) {
    if i >= |b.invoices| then (b, Rejected(NOT_FOUND))
    else
      var row := b.invoices[i];
      if Denied(caller, row.store) then (b, Rejected(STORE_ACCESS_DENIED))
      else if row.status == VOIDED then (b, Existing(i))
      else if row.status == PARTIALLY_PAID || row.status == PAID then (b, Rejected(INVOICE_HAS_PAYMENTS))
      else (b.(invoices := b.invoices[i := row.(status := VOIDED)],
               journal := if row.status == POSTED
                 then b.journal + [Posting(InvoiceVoided(i), row.store, 0 - row.grandTotal)]
                          else b.journal), Done(i))
  }

  predicate DistinctTargets(allocations: seq<Allocation>) {
    forall i, j :: 0 <= i < j < |allocations| ==> allocations[i].invoice != allocations[j].invoice
  }

  /** What is wrong with a request whatever the books say. */
  function Malformed(r: Request): Option<Error> {
    if r.terms.Payment? && r.terms.amount <= 0 then Some(INVALID_AMOUNT)
    else if r.terms.CreditNote? && r.terms.lines == [] then Some(EMPTY_CREDIT_NOTE)
    else if r.terms.CreditNote? && (exists j :: 0 <= j < |r.terms.lines| && r.terms.lines[j].amount <= 0)
      then Some(INVALID_AMOUNT)
    else if r.allocations == [] then Some(EMPTY_ALLOCATIONS)
    else if !DistinctTargets(r.allocations) then Some(DUPLICATE_ALLOCATION_TARGET)
    else if exists j :: 0 <= j < |r.allocations| && r.allocations[j].amount <= 0 then Some(INVALID_AMOUNT)
    else if r.terms.Payment? && Sum(r.allocations, AllocationAmount) != r.terms.amount
      then Some(ALLOCATION_MUST_EQUAL_AMOUNT)
    else None
  }

  predicate SameTable(r: Request, s: Request) {
    r.terms.Payment? == s.terms.Payment?
  }

  /** The document that already carries the request's idempotency key. */
  function FindKey(documents: seq<Document>, r: Request): (d: Option<nat>)
    ensures d.Some? ==>
            d.value < |documents| && documents[d.value].request.key == r.key && SameTable(documents[d.value].request, r)
    ensures d.None? ==> forall j :: 0 <= j < |documents| ==>
            !(documents[j].request.key == r.key && SameTable(documents[j].request, r))
  {
    if documents == [] then None
    else
      var last := |documents| - 1;
      if documents[last].request.key == r.key && SameTable(documents[last].request, r) then Some(last)
      else FindKey(documents[..last], r)
  }

  /** Equal signatures: the order of lines and allocations does not matter, nor does the store. */
  predicate SameRequest(r: Request, s: Request) {
    && r.supplier == s.supplier
    && (match r.terms
        case Payment(_, _) => s.terms == r.terms
        case CreditNote(number, reason, lines) =>
          s.terms.CreditNote? && s.terms.number == number && s.terms.reason == reason
            && multiset(s.terms.lines) == multiset(lines))
    && multiset(r.allocations) == multiset(s.allocations)
  }

  predicate CreditNumberTaken(documents: seq<Document>, r: Request) {
    r.terms.CreditNote?
    && exists j :: 0 <= j < |documents| && documents[j].request.supplier == r.supplier
                   && documents[j].request.terms.CreditNote? && documents[j].request.terms.number == r.terms.number
  }

  /** The first allocation, from the `n`th on, that its invoice cannot take. */
  function AllocationProblem(invoices: seq<Invoice>, r: Request, n: nat): Option<Error>
    requires n <= |r.allocations| && TargetsExist(r.allocations, |invoices|)
    decreases |r.allocations| - n
  {
    if n == |r.allocations| then None
    else
      var a := r.allocations[n];
      var i := invoices[a.invoice];
      if i.store != r.store then Some(STORE_MISMATCH)
      else if i.supplier != r.supplier then Some(SUPPLIER_MISMATCH)
      else if !Outstanding(i.status) then Some(INVALID_INVOICE_STATE)
      else if a.amount > Balance(i) then Some(OVERPAYMENT)
      else AllocationProblem(invoices, r, n + 1)
  }

  function Entered(b: Books, r: Request): Books
    requires TargetsExist(r.allocations, |b.invoices|)
  {
    Books(Allocate(b.invoices, r.terms.Payment?, r.allocations, 1, |r.allocations|),
          b.documents + [Document(r, Total(r.terms), if r.terms.Payment? then 0 else Total(r.terms), None)],
          b.journal + [Posting(Settled(|b.documents|), r.store, -Total(r.terms))])
  }

  function Settle(b: Books, caller: Option<nat>, r: Request): (Books, Outcome) {
    if Malformed(r).Some? then (b, Rejected(Malformed(r).value))
    else
      match FindKey(b.documents, r)
      case Some(d) =>
        if SameRequest(b.documents[d].request, r) then (b, Existing(d)) else (b, Rejected(IDEMPOTENCY_KEY_CONFLICT))
      case None =>
        if Denied(caller, r.store) then (b, Rejected(STORE_ACCESS_DENIED))
        else if Sum(r.allocations, AllocationAmount) != Total(r.terms) then (b, Rejected(ALLOCATION_MUST_EQUAL_AMOUNT))
        else if !TargetsExist(r.allocations, |b.invoices|) then (b, Rejected(NOT_FOUND))
        else if AllocationProblem(b.invoices, r, 0).Some? then (b, Rejected(AllocationProblem(b.invoices, r, 0).value))
        else if CreditNumberTaken(b.documents, r) then (b, Rejected(DUPLICATE_CREDIT_NUMBER))
        else (Entered(b, r), Done(|b.documents|))
  }

  function Undone(b: Books, d: nat, today: int): Books
    requires d < |b.documents| && TargetsExist(b.documents[d].request.allocations, |b.invoices|)
  {
    var doc := b.documents[d];
    var r := doc.request;
    Books(Allocate(b.invoices, r.terms.Payment?, r.allocations, -1, |r.allocations|),
          b.documents[d := doc.(reversal := Some(today),
                                applied := if r.terms.Payment? then doc.applied
                                             else doc.applied - Sum(r.allocations, AllocationAmount))],
          b.journal + [Posting(Reversed(d), r.store, doc.amount)])
  }

  function Reverse(b: Books, caller: Option<nat>, d: nat, today: int): (Books, Outcome) {
    if d >= |b.documents| then (b, Rejected(NOT_FOUND))
    else if Denied(caller, b.documents[d].request.store) then (b, Rejected(STORE_ACCESS_DENIED))
    else if b.documents[d].reversal.Some? then (b, Existing(d))
    else if !TargetsExist(b.documents[d].request.allocations, |b.invoices|) then (b, Rejected(NOT_FOUND))
    else (Undone(b, d, today), Done(d))
  }

  datatype Op =
    | OpCreate(store: nat, supplier: nat, date: int, grandTotal: nat)
    | OpPost(caller: Option<nat>, i: nat)
    | OpVoid(caller: Option<nat>, i: nat)
    | OpSettle(caller: Option<nat>, request: Request)
    | OpReverse(caller: Option<nat>, d: nat, today: int)

  function Apply(b: Books, op: Op): Books {
    match op
    case OpCreate(store, supplier, date, grandTotal) => Create(b, store, supplier, date, grandTotal)
    case OpPost(caller, i) => Post(b, caller, i).0
    case OpVoid(caller, i) => Void(b, caller, i).0
    case OpSettle(caller, request) => Settle(b, caller, request).0
    case OpReverse(caller, d, today) => Reverse(b, caller, d, today).0
  }

  function Run(b: Books, ops: seq<Op>): Books
    decreases |ops|
  {
    if ops == [] then b else Run(Apply(b, ops[0]), ops[1..])
  }

  const EMPTY: Books := Books([], [], [])

  // ---- What every run keeps -------------------------------------------------------------------

  predicate StatusFits(i: Invoice) {
    match i.status
    case DRAFT => i.amountPaid == 0 && i.amountCredited == 0
    case VOIDED => i.amountPaid == 0 && i.amountCredited == 0
    case POSTED => i.amountPaid + i.amountCredited == 0
    case PARTIALLY_PAID => 0 < i.amountPaid + i.amountCredited < i.grandTotal
    case PAID => 0 < i.amountPaid + i.amountCredited == i.grandTotal
  }

  /** Both settled amounts are the sums of the un-reversed allocations that name the invoice; they
      stay within its total, and its status says how far it is settled. */
  ghost predicate InvoiceConsistent(b: Books, i: nat)
    requires i < |b.invoices|
  {
    var row := b.invoices[i];
    && row.amountPaid == Sum(b.documents, LiveOn(true, i)) >= 0
    && row.amountCredited == Sum(b.documents, LiveOn(false, i)) >= 0
    && row.amountPaid + row.amountCredited <= row.grandTotal
    && StatusFits(row)
  }

  /** A document is allocated in full, to distinct invoices of its own store and supplier. */
  ghost predicate DocumentConsistent(b: Books, d: nat)
    requires d < |b.documents|
  {
    var doc, r := b.documents[d], b.documents[d].request;
    && doc.amount == Total(r.terms) == Sum(r.allocations, AllocationAmount)
    && DistinctTargets(r.allocations)
    && (forall j :: 0 <= j < |r.allocations| ==>
          && r.allocations[j].amount > 0
          && r.allocations[j].invoice < |b.invoices|
          && b.invoices[r.allocations[j].invoice].store == r.store
          && b.invoices[r.allocations[j].invoice].supplier == r.supplier)
    && (r.terms.CreditNote? ==> doc.applied == if doc.reversal.None? then doc.amount else 0)
  }

  ghost predicate KeysUnique(documents: seq<Document>) {
    forall c, d :: 0 <= c < d < |documents| ==>
      !(documents[c].request.key == documents[d].request.key && SameTable(documents[c].request, documents[d].request))
  }

  /** The control account holds, for a selection of stores, what was billed less what was settled. */
  ghost predicate ControlAgrees(b: Books, stores: nat -> bool) {
    Sum(b.journal, PostedIn(stores))
    == Sum(b.invoices, BilledIn(AllSuppliers(stores))) - Sum(b.documents, SettledIn(AllSuppliers(stores)))
  }

  ghost predicate Consistent(b: Books) {
    && (forall i: nat :: i < |b.invoices| ==> InvoiceConsistent(b, i))
    && (forall d: nat :: d < |b.documents| ==> DocumentConsistent(b, d))
    && KeysUnique(b.documents)
    && (forall stores: nat -> bool :: ControlAgrees(b, stores))
  }

  // ---- Allocation ------------------------------------------------------------------------------

  lemma {:induction false} UntouchedTarget(allocations: seq<Allocation>, i: nat)
    requires forall j :: 0 <= j < |allocations| ==> allocations[j].invoice != i
    ensures Sum(allocations, ToInvoice(i)) == 0
  {
    SumZero(allocations, ToInvoice(i));
  }

  lemma {:induction false} ShareOfPrefix(allocations: seq<Allocation>, n: nat, i: nat)
    requires n < |allocations|
    ensures Sum(allocations[..n + 1], ToInvoice(i))
            == Sum(allocations[..n], ToInvoice(i)) + ToInvoice(i)(allocations[n])
  {
    assert allocations[..n + 1] == allocations[..n] + [allocations[n]];
    SumAppend(allocations[..n], allocations[n], ToInvoice(i));
  }

  /** Each invoice moves by its own share; an invoice without one keeps its row as it was. */
  lemma {:induction false} AllocateShare(invoices: seq<Invoice>, payment: bool, allocations: seq<Allocation>,
      sign: int, n: nat, i: nat)
    requires n <= |allocations| && TargetsExist(allocations, |invoices|) && DistinctTargets(allocations)
             && i < |invoices|
    requires forall j :: 0 <= j < |allocations| ==> allocations[j].amount > 0
    ensures var share := Sum(allocations[..n], ToInvoice(i));
            && share >= 0
            && Allocate(invoices, payment, allocations, sign, n)[i]
               == if share == 0 then invoices[i] else Bump(invoices[i], payment, sign * share)
  {
    if n > 0 {
      AllocateShare(invoices, payment, allocations, sign, n - 1, i);
      ShareOfPrefix(allocations, n - 1, i);
      if allocations[n - 1].invoice == i {
        UntouchedTarget(allocations[..n - 1], i);
      }
    }
  }

  /** An allocation's whole share fits the invoice it names. */
  lemma {:induction false} NoProblemMeans(invoices: seq<Invoice>, r: Request, n: nat)
    requires n <= |r.allocations| && TargetsExist(r.allocations, |invoices|)
    requires AllocationProblem(invoices, r, n).None?
    ensures forall j :: n <= j < |r.allocations| ==>
              var i := invoices[r.allocations[j].invoice];
              i.store == r.store && i.supplier == r.supplier && Outstanding(i.status)
                && r.allocations[j].amount <= Balance(i)
    decreases |r.allocations| - n
  {
    if n < |r.allocations| { NoProblemMeans(invoices, r, n + 1); }
  }

  lemma {:induction false} ShareOfOne(allocations: seq<Allocation>, j: nat)
    requires j < |allocations| && DistinctTargets(allocations)
    ensures Sum(allocations, ToInvoice(allocations[j].invoice)) == allocations[j].amount
  {
    var i := allocations[j].invoice;
    SumTakeOut(allocations, j, ToInvoice(i));
    SumZero(allocations[..j] + allocations[j + 1..], ToInvoice(i));
  }

  // ---- Consistency over every run ---------------------------------------------------------------

  lemma {:induction false} CreateConsistent(b: Books, store: nat, supplier: nat, date: int, grandTotal: nat)
    requires Consistent(b)
    ensures Consistent(Create(b, store, supplier, date, grandTotal))
  {
    var row := Invoice(store, supplier, date, grandTotal, 0, 0, DRAFT);
    var after := Create(b, store, supplier, date, grandTotal);
    forall i: nat | i < |after.invoices| ensures InvoiceConsistent(after, i) {
      if i < |b.invoices| {
        assert InvoiceConsistent(b, i);
      } else {
        NoShareBeyond(b, i);
      }
    }
    forall d: nat | d < |after.documents| ensures DocumentConsistent(after, d) {
      assert DocumentConsistent(b, d);
    }
    forall stores: nat -> bool ensures ControlAgrees(after, stores) {
      assert ControlAgrees(b, stores);
      SumAppend(b.invoices, row, BilledIn(AllSuppliers(stores)));
      BilledOfStores(stores, row);
    }
  }

  lemma {:induction false} NoShareBeyond(b: Books, i: nat)
    requires Consistent(b) && i >= |b.invoices|
    ensures Sum(b.documents, LiveOn(true, i)) == 0 && Sum(b.documents, LiveOn(false, i)) == 0
  {
    forall d: nat | d < |b.documents| ensures Sum(b.documents[d].request.allocations, ToInvoice(i)) == 0 {
      assert DocumentConsistent(b, d);
      UntouchedTarget(b.documents[d].request.allocations, i);
    }
    SumZero(b.documents, LiveOn(true, i));
    SumZero(b.documents, LiveOn(false, i));
  }

  lemma {:induction false} BilledOfStores(stores: nat -> bool, row: Invoice)
    ensures BilledIn(AllSuppliers(stores))(row) == if stores(row.store) && Accounting(row.status) then row.grandTotal
            else 0
  {
    assert AllSuppliers(stores)(row.store, row.supplier) == stores(row.store);
  }

  /** Changing the status of one invoice within the unsettled ones, with the matching posting. */
  lemma {:induction false} StatusStepConsistent(b: Books, i: nat, status: Status, after: Books)
    requires Consistent(b) && i < |b.invoices| && b.invoices[i].status in {DRAFT, POSTED} && status in {POSTED, VOIDED}
    requires after.invoices == b.invoices[i := b.invoices[i].(status := status)] && after.documents == b.documents
    requires |after.journal| >= |b.journal| && b.journal == after.journal[..|b.journal|]
    requires forall stores: nat -> bool ::
               Sum(after.journal, PostedIn(stores)) - Sum(b.journal, PostedIn(stores))
               == BilledIn(AllSuppliers(stores))(after.invoices[i]) - BilledIn(AllSuppliers(stores))(b.invoices[i])
    ensures Consistent(after)
  {
    forall j: nat | j < |after.invoices| ensures InvoiceConsistent(after, j) {
      assert InvoiceConsistent(b, j);
    }
    forall d: nat | d < |after.documents| ensures DocumentConsistent(after, d) {
      assert DocumentConsistent(b, d);
    }
    forall stores: nat -> bool ensures ControlAgrees(after, stores) {
      assert ControlAgrees(b, stores);
      SumUpdate(b.invoices, i, after.invoices[i], BilledIn(AllSuppliers(stores)));
      assert Sum(after.journal, PostedIn(stores)) - Sum(b.journal, PostedIn(stores))
          == BilledIn(AllSuppliers(stores))(after.invoices[i]) - BilledIn(AllSuppliers(stores))(b.invoices[i]);
      assert after.invoices == b.invoices[i := after.invoices[i]];
    }
  }

  lemma {:induction false} PostConsistent(b: Books, caller: Option<nat>, i: nat)
    requires Consistent(b)
    ensures Consistent(Post(b, caller, i).0)
  {
    if Post(b, caller, i).1.Done? {
      var after := Post(b, caller, i).0;
      forall stores: nat -> bool
        ensures Sum(after.journal, PostedIn(stores)) - Sum(b.journal, PostedIn(stores))
                == BilledIn(AllSuppliers(stores))(after.invoices[i]) - BilledIn(AllSuppliers(stores))(b.invoices[i])
      {
        var p := Posting(InvoicePosted(i), b.invoices[i].store, b.invoices[i].grandTotal);
        SumAppend(b.journal, p, PostedIn(stores));
        BilledOfStores(stores, b.invoices[i]);
        BilledOfStores(stores, after.invoices[i]);
      }
      StatusStepConsistent(b, i, POSTED, after);
    }
  }

  lemma {:induction false} VoidConsistent(b: Books, caller: Option<nat>, i: nat)
    requires Consistent(b)
    ensures Consistent(Void(b, caller, i).0)
  {
    if Void(b, caller, i).1.Done? {
      var after := Void(b, caller, i).0;
      forall stores: nat -> bool
        ensures Sum(after.journal, PostedIn(stores)) - Sum(b.journal, PostedIn(stores))
                == BilledIn(AllSuppliers(stores))(after.invoices[i]) - BilledIn(AllSuppliers(stores))(b.invoices[i])
      {
        var p := Posting(InvoiceVoided(i), b.invoices[i].store, 0 - b.invoices[i].grandTotal);
        if b.invoices[i].status == POSTED {
          SumAppend(b.journal, p, PostedIn(stores));
        }
        BilledOfStores(stores, b.invoices[i]);
        BilledOfStores(stores, after.invoices[i]);
      }
      StatusStepConsistent(b, i, VOIDED, after);
    }
  }

  /** The invoices after a document is entered (`sign` 1) or reversed (`sign` -1): accounting rows
      stay accounting rows, and no identifying field moves. */
  lemma {:induction false} AllocateKeepsBilling(invoices: seq<Invoice>, payment: bool, allocations: seq<Allocation>,
      sign: int, keep: Scope)
    requires TargetsExist(allocations, |invoices|) && DistinctTargets(allocations)
    requires forall j :: 0 <= j < |allocations| ==>
             allocations[j].amount > 0 && Accounting(invoices[allocations[j].invoice].status)
    ensures var after := Allocate(invoices, payment, allocations, sign, |allocations|);
            && (forall i :: 0 <= i < |invoices| ==>
                 after[i].store == invoices[i].store && after[i].supplier == invoices[i].supplier)
            && Sum(after, BilledIn(keep)) == Sum(invoices, BilledIn(keep))
  {
    var after := Allocate(invoices, payment, allocations, sign, |allocations|);
    assert allocations[..|allocations|] == allocations;
    forall i: nat | i < |invoices|
      ensures after[i].store == invoices[i].store && after[i].supplier == invoices[i].supplier
      ensures BilledIn(keep)(after[i]) == BilledIn(keep)(invoices[i])
    {
      AllocateShare(invoices, payment, allocations, sign, |allocations|, i);
      if Sum(allocations, ToInvoice(i)) != 0 {
        TargetOf(allocations, i);
        assert Accounting(invoices[i].status) && Accounting(after[i].status);
      }
    }
    SumSame(after, invoices, BilledIn(keep), BilledIn(keep));
  }

  lemma {:induction false} TargetOf(allocations: seq<Allocation>, i: nat)
    requires Sum(allocations, ToInvoice(i)) != 0
    ensures exists j :: 0 <= j < |allocations| && allocations[j].invoice == i
  {
    if forall j :: 0 <= j < |allocations| ==> allocations[j].invoice != i { UntouchedTarget(allocations, i); }
  }

  /** What the checks of a new request have established when it is entered. */
  lemma {:induction false} EnteredFacts(b: Books, caller: Option<nat>, r: Request, i: nat)
    requires Settle(b, caller, r).1.Done? && i < |b.invoices|
    ensures TargetsExist(r.allocations, |b.invoices|) && DistinctTargets(r.allocations)
    ensures Sum(r.allocations, AllocationAmount) == Total(r.terms)
    ensures forall j :: 0 <= j < |r.allocations| ==>
              && r.allocations[j].amount > 0 && Outstanding(b.invoices[r.allocations[j].invoice].status)
              && b.invoices[r.allocations[j].invoice].store == r.store
                   && b.invoices[r.allocations[j].invoice].supplier == r.supplier
    ensures var share := Sum(r.allocations, ToInvoice(i));
            && share >= 0
            && (share > 0 ==> Outstanding(b.invoices[i].status) && share <= Balance(b.invoices[i]))
            && Entered(b, r).invoices[i] == if share == 0 then b.invoices[i]
                 else Bump(b.invoices[i], r.terms.Payment?, share)
  {
    NoProblemMeans(b.invoices, r, 0);
    AllocateShare(b.invoices, r.terms.Payment?, r.allocations, 1, |r.allocations|, i);
    assert r.allocations[..|r.allocations|] == r.allocations;
    if Sum(r.allocations, ToInvoice(i)) > 0 {
      TargetOf(r.allocations, i);
      var j :| 0 <= j < |r.allocations| && r.allocations[j].invoice == i;
      ShareOfOne(r.allocations, j);
    }
  }

  lemma {:induction false} SettleConsistent(b: Books, caller: Option<nat>, r: Request)
    requires Consistent(b)
    ensures Consistent(Settle(b, caller, r).0)
  {
    if Settle(b, caller, r).1.Done? {
      var after := Settle(b, caller, r).0;
      var doc := after.documents[|b.documents|];
      forall i: nat | i < |after.invoices| ensures InvoiceConsistent(after, i) {
        assert InvoiceConsistent(b, i);
        EnteredFacts(b, caller, r, i);
        SumAppend(b.documents, doc, LiveOn(true, i));
        SumAppend(b.documents, doc, LiveOn(false, i));
      }
      forall d: nat | d < |after.documents| ensures DocumentConsistent(after, d) {
        SettledDocumentConsistent(b, caller, r, d);
      }
      forall stores: nat -> bool ensures ControlAgrees(after, stores) {
        SettledControlAgrees(b, caller, r, stores);
      }
    }
  }

  lemma {:induction false} SomeInvoice(b: Books, caller: Option<nat>, r: Request)
    requires Settle(b, caller, r).1.Done?
    ensures |b.invoices| > 0
  {
    assert r.allocations[0].invoice < |b.invoices|;
  }

  lemma {:induction false} SettledIdentities(b: Books, caller: Option<nat>, r: Request)
    requires Settle(b, caller, r).1.Done?
    ensures var after := Settle(b, caller, r).0.invoices;
            |after| == |b.invoices|
            && forall i :: 0 <= i < |after| ==>
                 after[i].store == b.invoices[i].store && after[i].supplier == b.invoices[i].supplier
  {
    SomeInvoice(b, caller, r);
    EnteredFacts(b, caller, r, 0);
    AllocateKeepsBilling(b.invoices, r.terms.Payment?, r.allocations, 1, (s: nat, t: nat) => true);
  }

  lemma {:induction false} SettledDocumentConsistent(b: Books, caller: Option<nat>, r: Request, d: nat)
    requires Consistent(b) && Settle(b, caller, r).1.Done? && d <= |b.documents|
    ensures DocumentConsistent(Settle(b, caller, r).0, d)
  {
    SettledIdentities(b, caller, r);
    if d < |b.documents| {
      assert DocumentConsistent(b, d);
    } else {
      SomeInvoice(b, caller, r);
      EnteredFacts(b, caller, r, 0);
    }
  }

  lemma {:induction false} SettledControlAgrees(b: Books, caller: Option<nat>, r: Request, stores: nat -> bool)
    requires Consistent(b) && Settle(b, caller, r).1.Done?
    ensures ControlAgrees(Settle(b, caller, r).0, stores)
  {
    var after, keep := Settle(b, caller, r).0, AllSuppliers(stores);
    assert ControlAgrees(b, stores);
    assert Sum(after.invoices, BilledIn(keep)) == Sum(b.invoices, BilledIn(keep)) by {
      SomeInvoice(b, caller, r);
      EnteredFacts(b, caller, r, 0);
      AllocateKeepsBilling(b.invoices, r.terms.Payment?, r.allocations, 1, keep);
    }
    var doc, posting := after.documents[|b.documents|], after.journal[|b.journal|];
    assert SettledIn(keep)(doc) == -PostedIn(stores)(posting) by {
      assert keep(r.store, r.supplier) == stores(r.store);
    }
    SumAppend(b.documents, doc, SettledIn(keep));
    SumAppend(b.journal, posting, PostedIn(stores));
  }

  /** A live document's share is still on the invoice, so taking it back leaves a settled amount
      that is not negative, on a row that still accounts. */
  lemma {:induction false} UndoneFacts(b: Books, d: nat, i: nat)
    requires Consistent(b) && d < |b.documents| && b.documents[d].reversal.None? && i < |b.invoices|
    ensures TargetsExist(b.documents[d].request.allocations, |b.invoices|)
    ensures var r := b.documents[d].request;
            var share := Sum(r.allocations, ToInvoice(i));
            && share >= 0
            && (share > 0 ==> b.invoices[i].status in {PARTIALLY_PAID, PAID})
            && share <= (if r.terms.Payment? then b.invoices[i].amountPaid else b.invoices[i].amountCredited)
            && Allocate(b.invoices, r.terms.Payment?, r.allocations, -1, |r.allocations|)[i]
               == if share == 0 then b.invoices[i] else Bump(b.invoices[i], r.terms.Payment?, -share)
  {
    var r := b.documents[d].request;
    assert DocumentConsistent(b, d) && InvoiceConsistent(b, i);
    AllocateShare(b.invoices, r.terms.Payment?, r.allocations, -1, |r.allocations|, i);
    assert r.allocations[..|r.allocations|] == r.allocations;
    forall c: nat | c < |b.documents| ensures LiveOn(r.terms.Payment?, i)(b.documents[c]) >= 0 {
      assert DocumentConsistent(b, c);
      SumNonNegative(b.documents[c].request.allocations, ToInvoice(i));
    }
    SumNonNegative(b.documents, LiveOn(r.terms.Payment?, i));
    assert LiveOn(r.terms.Payment?, i)(b.documents[d]) == Sum(r.allocations, ToInvoice(i));
  }

  lemma {:induction false} ReverseConsistent(b: Books, caller: Option<nat>, d: nat, today: int)
    requires Consistent(b)
    ensures Consistent(Reverse(b, caller, d, today).0)
  {
    if Reverse(b, caller, d, today).1.Done? {
      var after := Reverse(b, caller, d, today).0;
      forall i: nat | i < |after.invoices| ensures InvoiceConsistent(after, i) {
        assert InvoiceConsistent(b, i);
        UndoneFacts(b, d, i);
        SumUpdate(b.documents, d, after.documents[d], LiveOn(true, i));
        SumUpdate(b.documents, d, after.documents[d], LiveOn(false, i));
      }
      forall c: nat | c < |after.documents| ensures DocumentConsistent(after, c) {
        UndoneDocumentConsistent(b, d, today, c);
      }
      forall stores: nat -> bool ensures ControlAgrees(after, stores) {
        UndoneControlAgrees(b, d, today, stores);
      }
    }
  }

  lemma {:induction false} UndoneTargetsAccounting(b: Books, d: nat)
    requires Consistent(b) && d < |b.documents| && b.documents[d].reversal.None?
    ensures var r := b.documents[d].request;
            forall j :: 0 <= j < |r.allocations| ==>
              r.allocations[j].invoice < |b.invoices| && r.allocations[j].amount > 0
              && Accounting(b.invoices[r.allocations[j].invoice].status)
  {
    var r := b.documents[d].request;
    assert DocumentConsistent(b, d);
    forall j | 0 <= j < |r.allocations| ensures Accounting(b.invoices[r.allocations[j].invoice].status) {
      UndoneFacts(b, d, r.allocations[j].invoice);
      ShareOfOne(r.allocations, j);
    }
  }

  lemma {:induction false} UndoneDocumentConsistent(b: Books, d: nat, today: int, c: nat)
    requires Consistent(b) && d < |b.documents| && b.documents[d].reversal.None? && c < |b.documents|
    requires TargetsExist(b.documents[d].request.allocations, |b.invoices|)
    ensures DocumentConsistent(Undone(b, d, today), c)
  {
    var r := b.documents[d].request;
    assert DocumentConsistent(b, c) && DocumentConsistent(b, d);
    UndoneTargetsAccounting(b, d);
    AllocateKeepsBilling(b.invoices, r.terms.Payment?, r.allocations, -1, (s: nat, t: nat) => true);
  }

  lemma {:induction false} UndoneControlAgrees(b: Books, d: nat, today: int, stores: nat -> bool)
    requires Consistent(b) && d < |b.documents| && b.documents[d].reversal.None?
    requires TargetsExist(b.documents[d].request.allocations, |b.invoices|)
    ensures ControlAgrees(Undone(b, d, today), stores)
  {
    var r, after := b.documents[d].request, Undone(b, d, today);
    assert ControlAgrees(b, stores);
    assert DocumentConsistent(b, d);
    UndoneTargetsAccounting(b, d);
    AllocateKeepsBilling(b.invoices, r.terms.Payment?, r.allocations, -1, AllSuppliers(stores));
    SumUpdate(b.documents, d, after.documents[d], SettledIn(AllSuppliers(stores)));
    SumAppend(b.journal, after.journal[|b.journal|], PostedIn(stores));
  }

  lemma {:induction false} ApplyConsistent(b: Books, op: Op)
    requires Consistent(b)
    ensures Consistent(Apply(b, op))
  {
    match op
    case OpCreate(store, supplier, date, grandTotal) => CreateConsistent(b, store, supplier, date, grandTotal);
    case OpPost(caller, i) => PostConsistent(b, caller, i);
    case OpVoid(caller, i) => VoidConsistent(b, caller, i);
    case OpSettle(caller, request) => SettleConsistent(b, caller, request);
    case OpReverse(caller, d, today) => ReverseConsistent(b, caller, d, today);
  }

  /** Over every run of drafts, postings, voids, payments, credit notes and reversals. */
  lemma {:induction false} RunConsistent(b: Books, ops: seq<Op>)
    requires Consistent(b)
    ensures Consistent(Run(b, ops))
    decreases |ops|
  {
    if ops != [] {
      ApplyConsistent(b, ops[0]);
      RunConsistent(Apply(b, ops[0]), ops[1..]);
    }
  }

  lemma {:induction false} EmptyConsistent()
    ensures Consistent(EMPTY)
  {
  }

  // ---- What each operation admits and does --------------------------------------------------------

  predicate Permitted(caller: Option<nat>, store: nat) {
    caller.None? || caller.value == store
  }

  /** What any request must be, whatever the books say: positive amounts, each invoice named once, and a
      payment allocated in full. */
  predicate WellFormed(r: Request) {
    && r.allocations != []
    && (forall j :: 0 <= j < |r.allocations| ==> r.allocations[j].amount > 0)
    && (forall j, k :: 0 <= j < k < |r.allocations| ==> r.allocations[j].invoice != r.allocations[k].invoice)
    && (match r.terms
        case Payment(_, amount) => amount > 0 && amount == Sum(r.allocations, AllocationAmount)
        case CreditNote(_, _, lines) => lines != [] && forall j :: 0 <= j < |lines| ==> lines[j].amount > 0)
  }

  /** A credit note is allocated in full as well. */
  predicate FullyAllocated(r: Request) {
    r.terms.CreditNote? ==> Sum(r.terms.lines, LineAmount) == Sum(r.allocations, AllocationAmount)
  }

  /** No document of the same kind carries the request's key. */
  predicate KeyFree(b: Books, r: Request) {
    forall d :: 0 <= d < |b.documents| ==>
      b.documents[d].request.key != r.key || b.documents[d].request.terms.Payment? != r.terms.Payment?
  }

  /** No credit note of the supplier carries the request's number. */
  predicate NumberFree(b: Books, r: Request) {
    r.terms.CreditNote? ==>
      forall d :: 0 <= d < |b.documents| && b.documents[d].request.terms.CreditNote?
                  && b.documents[d].request.supplier == r.supplier ==>
        b.documents[d].request.terms.number != r.terms.number
  }

  /** The invoice is one of the request's store and supplier, is posted and not settled in full, and owes at
      least what the allocation gives it. */
  predicate Takes(b: Books, r: Request, a: Allocation) {
    && a.invoice < |b.invoices|
    && b.invoices[a.invoice].store == r.store && b.invoices[a.invoice].supplier == r.supplier
    && (b.invoices[a.invoice].status == POSTED || b.invoices[a.invoice].status == PARTIALLY_PAID)
    && a.amount <= b.invoices[a.invoice].grandTotal - b.invoices[a.invoice].amountPaid
                   - b.invoices[a.invoice].amountCredited
  }

  lemma {:induction false} WellFormedIff(r: Request)
    ensures Malformed(r).None? <==> WellFormed(r)
  {
  }

  lemma {:induction false} NoProblemIff(b: Books, r: Request, n: nat)
    requires n <= |r.allocations| && TargetsExist(r.allocations, |b.invoices|)
    ensures AllocationProblem(b.invoices, r, n).None? <==>
            forall j :: n <= j < |r.allocations| ==> Takes(b, r, r.allocations[j])
    decreases |r.allocations| - n
  {
    if n < |r.allocations| { NoProblemIff(b, r, n + 1); }
  }

  /** A payment or credit note is entered if and only if it is well formed and allocated in full, its key and
      its number are free, the caller may act for the store, and every invoice it names takes what it is
      given.  Otherwise nothing changes. */
  lemma {:induction false} SettleDoneIff(b: Books, caller: Option<nat>, r: Request)
    ensures var (after, o) := Settle(b, caller, r);
            && (o.Done? <==>
                  && WellFormed(r) && FullyAllocated(r) && KeyFree(b, r) && NumberFree(b, r)
                  && Permitted(caller, r.store)
                  && forall j :: 0 <= j < |r.allocations| ==> Takes(b, r, r.allocations[j]))
            && (!o.Done? ==> after == b)
  {
    WellFormedIff(r);
    if TargetsExist(r.allocations, |b.invoices|) { NoProblemIff(b, r, 0); }
  }

  /** A repeated key answers with its own document when the request is the same, and is refused when not. */
  lemma {:induction false} SettleRepeated(b: Books, caller: Option<nat>, r: Request, d: nat)
    requires Consistent(b) && WellFormed(r) && d < |b.documents|
    requires b.documents[d].request.key == r.key && b.documents[d].request.terms.Payment? == r.terms.Payment?
    ensures var first := b.documents[d].request;
            Settle(b, caller, r)
            == if first.supplier == r.supplier && multiset(first.allocations) == multiset(r.allocations)
                  && (if r.terms.Payment? then first.terms == r.terms
                      else first.terms.number == r.terms.number && first.terms.reason == r.terms.reason
                           && multiset(first.terms.lines) == multiset(r.terms.lines))
               then (b, Existing(d)) else (b, Rejected(IDEMPOTENCY_KEY_CONFLICT))
  {
    WellFormedIff(r);
    OneOfKey(b.documents, FindKey(b.documents, r).value, d);
  }

  lemma {:induction false} OneOfKey(documents: seq<Document>, c: nat, d: nat)
    requires KeysUnique(documents) && c < |documents| && d < |documents|
    requires documents[c].request.key == documents[d].request.key
    requires documents[c].request.terms.Payment? == documents[d].request.terms.Payment?
    ensures c == d
  {
    assert SameTable(documents[c].request, documents[d].request)
        && SameTable(documents[d].request, documents[c].request);
  }

  /** Which of the request's own faults it is refused for, in the order they are looked at. */
  lemma {:induction false} RefusedAsMalformed(b: Books, caller: Option<nat>, r: Request)
    requires !WellFormed(r)
    ensures var o := Settle(b, caller, r).1;
            var badTerms := if r.terms.Payment? then r.terms.amount <= 0
                            else exists j :: 0 <= j < |r.terms.lines| && r.terms.lines[j].amount <= 0;
            var noLines := r.terms.CreditNote? && r.terms.lines == [];
            var twice := exists j, k :: 0 <= j < k < |r.allocations|
                                        && r.allocations[j].invoice == r.allocations[k].invoice;
            var badShare := exists j :: 0 <= j < |r.allocations| && r.allocations[j].amount <= 0;
            && (o == Rejected(EMPTY_CREDIT_NOTE) <==> noLines)
            && (o == Rejected(EMPTY_ALLOCATIONS) <==> !noLines && !badTerms && r.allocations == [])
            && (o == Rejected(DUPLICATE_ALLOCATION_TARGET) <==> !noLines && !badTerms && twice)
            && (o == Rejected(INVALID_AMOUNT) <==> badTerms || (!noLines && !twice && badShare))
            && (o == Rejected(ALLOCATION_MUST_EQUAL_AMOUNT) <==>
                  !noLines && !badTerms && r.allocations != [] && !twice && !badShare)
  {
  }

  /** Which invoice a request is refused for, and why: the first that does not take its share. */
  lemma {:induction false} RefusedForInvoice(b: Books, caller: Option<nat>, r: Request, j: nat)
    requires WellFormed(r) && FullyAllocated(r) && KeyFree(b, r) && Permitted(caller, r.store)
    requires forall k :: 0 <= k < |r.allocations| ==> r.allocations[k].invoice < |b.invoices|
    requires j < |r.allocations| && !Takes(b, r, r.allocations[j])
    requires forall k :: 0 <= k < j ==> Takes(b, r, r.allocations[k])
    ensures var i := b.invoices[r.allocations[j].invoice];
            Settle(b, caller, r).1 == Rejected(
              if i.store != r.store then STORE_MISMATCH
              else if i.supplier != r.supplier then SUPPLIER_MISMATCH
              else if i.status != POSTED && i.status != PARTIALLY_PAID then INVALID_INVOICE_STATE
              else OVERPAYMENT)
  {
    WellFormedIff(r);
    FirstProblem(b, r, 0, j);
  }

  lemma {:induction false} FirstProblem(b: Books, r: Request, n: nat, j: nat)
    requires n <= j < |r.allocations| && TargetsExist(r.allocations, |b.invoices|)
    requires !Takes(b, r, r.allocations[j]) && forall k :: n <= k < j ==> Takes(b, r, r.allocations[k])
    ensures AllocationProblem(b.invoices, r, n) == AllocationProblem(b.invoices, r, j)
    ensures AllocationProblem(b.invoices, r, j).Some?
    decreases j - n
  {
    if n < j { FirstProblem(b, r, n + 1, j); }
  }

  /** The other refusals of a well-formed request. */
  lemma {:induction false} RefusedOtherwise(b: Books, caller: Option<nat>, r: Request)
    requires WellFormed(r) && KeyFree(b, r)
    ensures var o := Settle(b, caller, r).1;
            && (o == Rejected(STORE_ACCESS_DENIED) <==> !Permitted(caller, r.store))
            && (o == Rejected(ALLOCATION_MUST_EQUAL_AMOUNT) <==> Permitted(caller, r.store) && !FullyAllocated(r))
            && (o == Rejected(NOT_FOUND) <==>
                  && Permitted(caller, r.store) && FullyAllocated(r)
                  && exists j :: 0 <= j < |r.allocations| && r.allocations[j].invoice >= |b.invoices|)
            && (o == Rejected(DUPLICATE_CREDIT_NUMBER) <==>
                  && Permitted(caller, r.store) && FullyAllocated(r)
                  && (forall j :: 0 <= j < |r.allocations| ==> Takes(b, r, r.allocations[j])) && !NumberFree(b, r))
  {
    WellFormedIff(r);
    if TargetsExist(r.allocations, |b.invoices|) {
      NoProblemIff(b, r, 0);
      ProblemKinds(b, r, 0);
    }
  }

  lemma {:induction false} ProblemKinds(b: Books, r: Request, n: nat)
    requires n <= |r.allocations| && TargetsExist(r.allocations, |b.invoices|)
    ensures var e := AllocationProblem(b.invoices, r, n);
            e.Some? ==> e.value in {STORE_MISMATCH, SUPPLIER_MISMATCH, INVALID_INVOICE_STATE, OVERPAYMENT}
    decreases |r.allocations| - n
  {
    if n < |r.allocations| { ProblemKinds(b, r, n + 1); }
  }

  /** An invoice after an amount was paid or credited to it: settled in full when nothing is left to pay. */
  predicate SettledBy(before: Invoice, after: Invoice, payment: bool, amount: int) {
    && after.store == before.store && after.supplier == before.supplier && after.date == before.date
    && after.grandTotal == before.grandTotal
    && after.amountPaid == before.amountPaid + (if payment then amount else 0)
    && after.amountCredited == before.amountCredited + (if payment then 0 else amount)
    && (after.status == PAID <==> after.amountPaid + after.amountCredited == after.grandTotal)
    && (after.status == PARTIALLY_PAID <==> after.amountPaid + after.amountCredited < after.grandTotal)
  }

  /** What an accepted request does: one document and one posting record it. */
  lemma {:induction false} SettleRecords(b: Books, caller: Option<nat>, r: Request)
    requires Settle(b, caller, r).1.Done?
    ensures var (after, o) := Settle(b, caller, r);
            var amount := Sum(r.allocations, AllocationAmount);
            && o.id == |b.documents| && |after.invoices| == |b.invoices|
            && after.documents
               == b.documents + [Document(r, amount, if r.terms.Payment? then 0 else amount, None)]
            && after.journal == b.journal + [Posting(Settled(|b.documents|), r.store, -amount)]
  {
  }

  /** Each invoice it names is settled by its own allocation. */
  lemma {:induction false} NamedInvoiceSettled(b: Books, caller: Option<nat>, r: Request, j: nat)
    requires Consistent(b) && Settle(b, caller, r).1.Done? && j < |r.allocations|
    ensures |Settle(b, caller, r).0.invoices| == |b.invoices| && r.allocations[j].invoice < |b.invoices|
    ensures SettledBy(b.invoices[r.allocations[j].invoice],
                      Settle(b, caller, r).0.invoices[r.allocations[j].invoice],
                      r.terms.Payment?, r.allocations[j].amount)
  {
    var i := r.allocations[j].invoice;
    SettleDoneIff(b, caller, r);
    assert Takes(b, r, r.allocations[j]) && InvoiceConsistent(b, i);
    NamedInvoiceBumped(b.invoices, r, 1, j);
  }

  /** No other invoice changes. */
  lemma {:induction false} OthersUnsettled(b: Books, caller: Option<nat>, r: Request, i: nat)
    requires Settle(b, caller, r).1.Done? && i < |b.invoices|
    requires forall j :: 0 <= j < |r.allocations| ==> r.allocations[j].invoice != i
    ensures |Settle(b, caller, r).0.invoices| == |b.invoices| && Settle(b, caller, r).0.invoices[i] == b.invoices[i]
  {
    SettleDoneIff(b, caller, r);
    OtherInvoiceKept(b.invoices, r, 1, i);
  }

  lemma {:induction false} NamedInvoiceBumped(invoices: seq<Invoice>, r: Request, sign: int, j: nat)
    requires TargetsExist(r.allocations, |invoices|) && DistinctTargets(r.allocations) && j < |r.allocations|
    requires forall k :: 0 <= k < |r.allocations| ==> r.allocations[k].amount > 0
    ensures var i := r.allocations[j].invoice;
            Allocate(invoices, r.terms.Payment?, r.allocations, sign, |r.allocations|)[i]
            == Bump(invoices[i], r.terms.Payment?, sign * r.allocations[j].amount)
  {
    assert r.allocations[..|r.allocations|] == r.allocations;
    AllocateShare(invoices, r.terms.Payment?, r.allocations, sign, |r.allocations|, r.allocations[j].invoice);
    ShareOfOne(r.allocations, j);
  }

  lemma {:induction false} OtherInvoiceKept(invoices: seq<Invoice>, r: Request, sign: int, i: nat)
    requires TargetsExist(r.allocations, |invoices|) && DistinctTargets(r.allocations) && i < |invoices|
    requires forall k :: 0 <= k < |r.allocations| ==> r.allocations[k].amount > 0 && r.allocations[k].invoice != i
    ensures Allocate(invoices, r.terms.Payment?, r.allocations, sign, |r.allocations|)[i] == invoices[i]
  {
    assert r.allocations[..|r.allocations|] == r.allocations;
    AllocateShare(invoices, r.terms.Payment?, r.allocations, sign, |r.allocations|, i);
    UntouchedTarget(r.allocations, i);
  }

  /** Whatever an invoice still owes can be paid at once, and then it is paid. */
  lemma {:induction false} WholeBalancePaid(b: Books, caller: Option<nat>, i: nat, date: int, means: nat, key: nat)
    requires Consistent(b) && i < |b.invoices|
    requires b.invoices[i].status == POSTED || b.invoices[i].status == PARTIALLY_PAID
    requires b.invoices[i].grandTotal > b.invoices[i].amountPaid + b.invoices[i].amountCredited
    requires caller.None? || caller.value == b.invoices[i].store
    requires forall d :: 0 <= d < |b.documents| && b.documents[d].request.terms.Payment? ==>
             b.documents[d].request.key != key
    ensures var row := b.invoices[i];
            var owed := row.grandTotal - row.amountPaid - row.amountCredited;
            var r := Request(row.store, row.supplier, date, Payment(means, owed), [Allocation(i, owed)], key);
            var (after, o) := Settle(b, caller, r);
            o.Done? && |after.invoices| == |b.invoices|
            && after.invoices[i] == row.(amountPaid := row.amountPaid + owed, status := PAID)
  {
    var row := b.invoices[i];
    var owed := row.grandTotal - row.amountPaid - row.amountCredited;
    var r := Request(row.store, row.supplier, date, Payment(means, owed), [Allocation(i, owed)], key);
    SumOne(Allocation(i, owed), AllocationAmount);
    assert r.allocations[0] == Allocation(i, owed);
    SettleDoneIff(b, caller, r);
    NamedInvoiceSettled(b, caller, r, 0);
  }

  /** A draft is posted, and only a draft, by a caller of its store; what it owes is its total. */
  lemma {:induction false} PostDoneIff(b: Books, caller: Option<nat>, i: nat)
    ensures var (after, o) := Post(b, caller, i);
            var found := i < |b.invoices|;
            && (o.Done? <==> found && Permitted(caller, b.invoices[i].store) && b.invoices[i].status == DRAFT)
            && (o.Existing? <==>
                  && found && Permitted(caller, b.invoices[i].store)
                  && b.invoices[i].status in {POSTED, PARTIALLY_PAID, PAID})
            && (!o.Done? ==> after == b)
            && (o.Done? ==>
                  after == Books(b.invoices[i := b.invoices[i].(status := POSTED)], b.documents,
                    b.journal + [Posting(InvoicePosted(i), b.invoices[i].store, b.invoices[i].grandTotal)]))
  {
  }

  /** A draft or an invoice with nothing settled is voided by a caller of its store; what was posted is
      posted back. */
  lemma {:induction false} VoidDoneIff(b: Books, caller: Option<nat>, i: nat)
    ensures var (after, o) := Void(b, caller, i);
            var found := i < |b.invoices|;
            && (o.Done? <==> found && Permitted(caller, b.invoices[i].store) && b.invoices[i].status in {DRAFT, POSTED})
            && (o.Existing? <==> found && Permitted(caller, b.invoices[i].store) && b.invoices[i].status == VOIDED)
            && (!o.Done? ==> after == b)
            && (o.Done? ==>
                  && after.invoices == b.invoices[i := b.invoices[i].(status := VOIDED)]
                       && after.documents == b.documents
                  && after.journal == b.journal
                       + (if b.invoices[i].status == DRAFT then []
                          else [Posting(InvoiceVoided(i), b.invoices[i].store, 0 - b.invoices[i].grandTotal)]))
  {
  }

  /** A document is reversed once, by a caller of its store; each invoice it settled has its amount back. */
  lemma {:induction false} ReverseDoneIff(b: Books, caller: Option<nat>, d: nat, today: int)
    requires Consistent(b)
    ensures var (after, o) := Reverse(b, caller, d, today);
            var found := d < |b.documents|;
            && (o.Done? <==> found && Permitted(caller, b.documents[d].request.store) && b.documents[d].reversal.None?)
            && (o.Existing?
                <==> found && Permitted(caller, b.documents[d].request.store) && b.documents[d].reversal.Some?)
            && (!o.Done? ==> after == b)
  {
    if d < |b.documents| { assert DocumentConsistent(b, d); }
  }

  lemma {:induction false} ReverseEffect(b: Books, caller: Option<nat>, d: nat, today: int)
    requires Consistent(b) && Reverse(b, caller, d, today).1.Done?
    ensures var after, doc := Reverse(b, caller, d, today).0, b.documents[d];
            var r, pay := doc.request, doc.request.terms.Payment?;
            && |after.invoices| == |b.invoices| && |after.documents| == |b.documents|
            && (forall j :: 0 <= j < |r.allocations| ==>
                  var i := r.allocations[j].invoice;
                  && i < |b.invoices|
                  && after.invoices[i].amountPaid
                       == b.invoices[i].amountPaid - (if pay then r.allocations[j].amount else 0)
                  && after.invoices[i].amountCredited
                     == b.invoices[i].amountCredited - (if pay then 0 else r.allocations[j].amount)
                  && after.invoices[i].grandTotal == b.invoices[i].grandTotal)
            && (forall i :: 0 <= i < |b.invoices|
                            && (forall j :: 0 <= j < |r.allocations| ==> r.allocations[j].invoice != i) ==>
                  after.invoices[i] == b.invoices[i])
            && after.documents[d].reversal == Some(today) && after.documents[d].request == r
            && after.documents[d].amount == doc.amount
            && (forall c :: 0 <= c < |b.documents| && c != d ==> after.documents[c] == b.documents[c])
            && after.journal == b.journal + [Posting(Reversed(d), r.store, Sum(r.allocations, AllocationAmount))]
  {
    var after, r := Reverse(b, caller, d, today).0, b.documents[d].request;
    assert DocumentConsistent(b, d);
    forall j: nat | j < |r.allocations|
      ensures after.invoices[r.allocations[j].invoice]
              == Bump(b.invoices[r.allocations[j].invoice], r.terms.Payment?, -r.allocations[j].amount)
    {
      NamedInvoiceBumped(b.invoices, r, -1, j);
    }
    forall i: nat | i < |b.invoices| && (forall j :: 0 <= j < |r.allocations| ==> r.allocations[j].invoice != i)
      ensures after.invoices[i] == b.invoices[i]
    {
      OtherInvoiceKept(b.invoices, r, -1, i);
    }
  }

  // ---- Reconciliation ---------------------------------------------------------------------------

  /** What the given documents take off each invoice in scope. */
  function SettledPerInvoice(invoices: seq<Invoice>, documents: seq<Document>, keep: Scope): (v: seq<int>)
    ensures |v| == |invoices|
    ensures forall i :: 0 <= i < |v| ==>
              v[i] == if keep(invoices[i].store, invoices[i].supplier)
                      then Sum(documents, LiveOn(true, i)) + Sum(documents, LiveOn(false, i)) else 0
  {
    seq(|invoices|, i requires 0 <= i < |invoices| =>
      if keep(invoices[i].store, invoices[i].supplier)
      then Sum(documents, LiveOn(true, i)) + Sum(documents, LiveOn(false, i)) else 0)
  }

  predicate OwnInvoices(invoices: seq<Invoice>, r: Request) {
    forall j :: 0 <= j < |r.allocations| ==>
      && r.allocations[j].invoice < |invoices|
      && invoices[r.allocations[j].invoice].store == r.store
           && invoices[r.allocations[j].invoice].supplier == r.supplier
  }

  function Shares(invoices: seq<Invoice>, allocations: seq<Allocation>): (v: seq<int>)
    ensures |v| == |invoices| && forall i :: 0 <= i < |v| ==> v[i] == Sum(allocations, ToInvoice(i))
  {
    seq(|invoices|, i requires 0 <= i => Sum(allocations, ToInvoice(i)))
  }

  /** One document's shares add up to its amount, over the invoices. */
  lemma {:induction false} SharesTotal(invoices: seq<Invoice>, allocations: seq<Allocation>)
    requires TargetsExist(allocations, |invoices|)
    ensures Sum(Shares(invoices, allocations), Identity) == Sum(allocations, AllocationAmount)
  {
    if allocations == [] {
      SumZero(Shares(invoices, []), Identity);
    } else {
      var a, rest := allocations[0], allocations[1..];
      assert TargetsExist(rest, |invoices|) by {
        forall j | 0 <= j < |rest| ensures rest[j].invoice < |invoices| { assert rest[j] == allocations[j + 1]; }
      }
      SharesTotal(invoices, rest);
      var v := Shares(invoices, rest);
      SumUpdate(v, a.invoice, v[a.invoice] + a.amount, Identity);
      assert Shares(invoices, allocations) == v[a.invoice := v[a.invoice] + a.amount];
    }
  }

  lemma {:induction false} SharesOutside(invoices: seq<Invoice>, r: Request, i: nat)
    requires OwnInvoices(invoices, r) && i < |invoices|
    ensures Sum(r.allocations, ToInvoice(i)) != 0 ==> invoices[i].store == r.store && invoices[i].supplier == r.supplier
  {
    if Sum(r.allocations, ToInvoice(i)) != 0 { TargetOf(r.allocations, i); }
  }

  /** Counting the same allocations by invoice and by document gives the same total. */
  lemma {:induction false} CountedTwice(invoices: seq<Invoice>, documents: seq<Document>, keep: Scope)
    requires forall d :: 0 <= d < |documents| ==>
               && OwnInvoices(invoices, documents[d].request)
               && documents[d].amount == Sum(documents[d].request.allocations, AllocationAmount)
    ensures Sum(SettledPerInvoice(invoices, documents, keep), Identity) == Sum(documents, SettledIn(keep))
  {
    var v := SettledPerInvoice(invoices, documents, keep);
    if documents == [] {
      SumZero(v, Identity);
    } else {
      var d, rest := documents[0], documents[1..];
      assert forall j :: 0 <= j < |rest| ==> rest[j] == documents[j + 1];
      CountedTwice(invoices, rest, keep);
      var w := SettledPerInvoice(invoices, rest, keep);
      if d.reversal.Some? || !keep(d.request.store, d.request.supplier) {
        forall i: nat | i < |invoices| ensures v[i] == w[i] { SharesOutside(invoices, d.request, i); }
        assert v == w;
      } else {
        var shares := Shares(invoices, d.request.allocations);
        SharesTotal(invoices, d.request.allocations);
        forall i: nat | i < |invoices| ensures v[i] == shares[i] + w[i] { SharesOutside(invoices, d.request, i); }
        SumPairwise(shares, w, v);
      }
    }
  }

  /** What is owed, invoice by invoice, is what was billed less what was settled, document by
      document: for any selection of stores and suppliers. */
  lemma {:induction false} OwedTelescopes(b: Books, keep: Scope)
    requires Consistent(b)
    ensures Sum(b.invoices, OwedIn(keep)) == Sum(b.invoices, BilledIn(keep)) - Sum(b.documents, SettledIn(keep))
  {
    forall d | 0 <= d < |b.documents|
      ensures OwnInvoices(b.invoices, b.documents[d].request)
      ensures b.documents[d].amount == Sum(b.documents[d].request.allocations, AllocationAmount)
    {
      assert DocumentConsistent(b, d);
    }
    CountedTwice(b.invoices, b.documents, keep);
    var billed, owed := Values(b.invoices, BilledIn(keep)), Values(b.invoices, OwedIn(keep));
    var settled := SettledPerInvoice(b.invoices, b.documents, keep);
    forall i: nat | i < |b.invoices| ensures billed[i] == owed[i] + settled[i] {
      assert InvoiceConsistent(b, i);
      var row := b.invoices[i];
      assert owed[i] == OwedIn(keep)(row) && billed[i] == BilledIn(keep)(row);
      assert settled[i] == if keep(row.store, row.supplier) then row.amountPaid + row.amountCredited else 0;
    }
    SumPairwise(owed, settled, billed);
    ValuesSum(b.invoices, BilledIn(keep));
    ValuesSum(b.invoices, OwedIn(keep));
  }

  /** The Accounts Payable control account equals the subledger, for any selection of stores. */
  lemma {:induction false} ControlAccountReconciles(b: Books, stores: nat -> bool)
    requires Consistent(b)
    ensures Sum(b.journal, PostedIn(stores)) == Sum(b.invoices, OwedIn(AllSuppliers(stores)))
  {
    assert ControlAgrees(b, stores);
    OwedTelescopes(b, AllSuppliers(stores));
  }

  /** Payments and credits ever applied, and what a void is guarded by: an invoice can be voided
      exactly when no un-reversed document settles any of it. */
  lemma {:induction false} VoidableIffUnsettled(b: Books, i: nat)
    requires Consistent(b) && i < |b.invoices| && Accounting(b.invoices[i].status)
    ensures Void(b, None, i).1.Done? <==> Sum(b.documents, LiveOn(true, i)) + Sum(b.documents, LiveOn(false, i)) == 0
  {
    assert InvoiceConsistent(b, i);
  }

  // ---- Reversal ---------------------------------------------------------------------------------

  /** Reversing a document right after entering it puts every invoice row back, status included. */
  lemma {:induction false} ReverseUndoesSettle(b: Books, caller: Option<nat>, r: Request, today: int)
    requires Consistent(b) && Settle(b, caller, r).1.Done?
    ensures var entered := Settle(b, caller, r).0;
            var back := Reverse(entered, None, |b.documents|, today);
            && back.1 == Done(|b.documents|)
            && back.0.invoices == b.invoices
            && forall stores :: Sum(back.0.journal, PostedIn(stores)) == Sum(b.journal, PostedIn(stores))
  {
    var entered := Settle(b, caller, r).0;
    var d := |b.documents|;
    SettleConsistent(b, caller, r);
    assert DocumentConsistent(entered, d);
    var back := Reverse(entered, None, d, today).0;
    forall i: nat | i < |b.invoices| ensures back.invoices[i] == b.invoices[i] {
      assert InvoiceConsistent(b, i);
      EnteredFacts(b, caller, r, i);
      UndoneFacts(entered, d, i);
    }
    forall stores ensures Sum(back.journal, PostedIn(stores)) == Sum(b.journal, PostedIn(stores)) {
      SumAppend(b.journal, entered.journal[|b.journal|], PostedIn(stores));
      SumAppend(entered.journal, back.journal[|entered.journal|], PostedIn(stores));
    }
  }

  // ---- Retries ----------------------------------------------------------------------------------

  /** Identifying data of a document never changes. */
  ghost predicate Extends(b: Books, after: Books) {
    && |b.documents| <= |after.documents|
    && (forall d :: 0 <= d < |b.documents| ==> after.documents[d].request == b.documents[d].request)
  }

  lemma {:induction false} RunExtends(b: Books, ops: seq<Op>)
    ensures Extends(b, Run(b, ops))
    decreases |ops|
  {
    if ops != [] {
      assert Extends(b, Apply(b, ops[0]));
      RunExtends(Apply(b, ops[0]), ops[1..]);
    }
  }

  lemma {:induction false} FoundByKey(documents: seq<Document>, r: Request, d: nat)
    requires KeysUnique(documents) && d < |documents|
    requires documents[d].request.key == r.key && SameTable(documents[d].request, r)
    ensures FindKey(documents, r) == Some(d)
  {
  }

  /** However much later a request is sent again, reordered or not, and whatever happened in
      between, it is answered with the document it created and changes nothing; the same key on a
      different request is refused. */
  lemma {:induction false} RetryAtAnyTime(b: Books, caller: Option<nat>, r: Request, ops: seq<Op>,
      retrier: Option<nat>, again: Request)
    requires Consistent(b) && Settle(b, caller, r).1.Done?
    requires again.key == r.key && SameTable(again, r) && Malformed(again).None?
    ensures var later := Run(Settle(b, caller, r).0, ops);
            Settle(later, retrier, again)
            == (later, if SameRequest(r, again) then Existing(|b.documents|) else Rejected(IDEMPOTENCY_KEY_CONFLICT))
  {
    var entered := Settle(b, caller, r).0;
    SettleConsistent(b, caller, r);
    RunConsistent(entered, ops);
    RunExtends(entered, ops);
    var later := Run(entered, ops);
    assert later.documents[|b.documents|].request == r;
    FoundByKey(later.documents, again, |b.documents|);
  }

  // ---- One journal entry per source ------------------------------------------------------------

  predicate SourceUsed(b: Books, s: Source) {
    match s
    case InvoicePosted(i) => i < |b.invoices| && b.invoices[i].status != DRAFT
    case InvoiceVoided(i) => i < |b.invoices| && b.invoices[i].status == VOIDED
    case Settled(d) => d < |b.documents|
    case Reversed(d) => d < |b.documents| && b.documents[d].reversal.Some?
  }

  ghost predicate SourcesUnique(b: Books) {
    && (forall k :: 0 <= k < |b.journal| ==> SourceUsed(b, b.journal[k].source))
    && (forall j, k :: 0 <= j < k < |b.journal| ==> b.journal[j].source != b.journal[k].source)
  }

  lemma {:induction false} EmptySourcesUnique()
    ensures SourcesUnique(EMPTY)
  {
  }

  /** No step ever meets the partial unique index on (source_type, source_id). */
  lemma {:induction false} RunPostsEachSourceOnce(b: Books, ops: seq<Op>)
    requires Consistent(b) && SourcesUnique(b)
    ensures SourcesUnique(Run(b, ops))
    decreases |ops|
  {
    if ops != [] {
      ApplyConsistent(b, ops[0]);
      StepPostsEachSourceOnce(b, ops[0]);
      RunPostsEachSourceOnce(Apply(b, ops[0]), ops[1..]);
    }
  }

  lemma {:induction false} AccountingKept(b: Books, r: Request, sign: int, i: nat)
    requires TargetsExist(r.allocations, |b.invoices|) && DistinctTargets(r.allocations) && i < |b.invoices|
    requires forall j :: 0 <= j < |r.allocations| ==>
               r.allocations[j].amount > 0 && Accounting(b.invoices[r.allocations[j].invoice].status)
    ensures var after := Allocate(b.invoices, r.terms.Payment?, r.allocations, sign, |r.allocations|)[i].status;
            (after == DRAFT <==> b.invoices[i].status == DRAFT) && (after == VOIDED <==> b.invoices[i].status == VOIDED)
  {
    AllocateShare(b.invoices, r.terms.Payment?, r.allocations, sign, |r.allocations|, i);
    assert r.allocations[..|r.allocations|] == r.allocations;
    if Sum(r.allocations, ToInvoice(i)) != 0 { TargetOf(r.allocations, i); }
  }

  lemma {:induction false} StepPostsEachSourceOnce(b: Books, op: Op)
    requires Consistent(b) && SourcesUnique(b)
    ensures SourcesUnique(Apply(b, op))
  {
    var after := Apply(b, op);
    forall k | 0 <= k < |b.journal| ensures SourceUsed(after, b.journal[k].source) {
      SourceStaysUsed(b, op, b.journal[k].source);
    }
  }

  lemma {:induction false} SourceStaysUsed(b: Books, op: Op, s: Source)
    requires Consistent(b) && SourceUsed(b, s)
    ensures SourceUsed(Apply(b, op), s)
  {
    if s.InvoicePosted? || s.InvoiceVoided? {
      if op.OpSettle? && Settle(b, op.caller, op.request).1.Done? {
        SettleKeepsPosted(b, op.caller, op.request, s.id);
      } else if op.OpReverse? && Reverse(b, op.caller, op.d, op.today).1.Done? {
        ReverseKeepsPosted(b, op.caller, op.d, op.today, s.id);
      }
    }
  }

  lemma {:induction false} SettleKeepsPosted(b: Books, caller: Option<nat>, r: Request, i: nat)
    requires Consistent(b) && Settle(b, caller, r).1.Done? && i < |b.invoices|
    ensures var after := Settle(b, caller, r).0.invoices;
            |after| == |b.invoices|
            && (after[i].status == DRAFT <==> b.invoices[i].status == DRAFT)
            && (after[i].status == VOIDED <==> b.invoices[i].status == VOIDED)
  {
    EnteredFacts(b, caller, r, i);
    AccountingKept(b, r, 1, i);
  }

  lemma {:induction false} ReverseKeepsPosted(b: Books, caller: Option<nat>, d: nat, today: int, i: nat)
    requires Consistent(b) && Reverse(b, caller, d, today).1.Done? && i < |b.invoices|
    ensures var after := Reverse(b, caller, d, today).0.invoices;
            |after| == |b.invoices|
            && (after[i].status == DRAFT <==> b.invoices[i].status == DRAFT)
            && (after[i].status == VOIDED <==> b.invoices[i].status == VOIDED)
  {
    UndoneTargetsAccounting(b, d);
    assert DocumentConsistent(b, d);
    AccountingKept(b, b.documents[d].request, -1, i);
  }

  // ---- Supplier statement -----------------------------------------------------------------------

  datatype Event = Event(date: int, amount: int)

  datatype StatementLine = StatementLine(date: int, amount: int, running: int)

  function Effect(e: Event): int {
    e.amount
  }

  function EffectBefore(from: Option<int>): Event -> int {
    (e: Event) => if from.Some? && e.date < from.value then e.amount else 0
  }

  predicate InRange(e: Event, from: Option<int>, to: Option<int>) {
    (from.None? || from.value <= e.date) && (to.None? || e.date <= to.value)
  }

  function EffectWithin(from: Option<int>, to: Option<int>): Event -> int {
    (e: Event) => if InRange(e, from, to) then e.amount else 0
  }

  function InvoiceEvents(invoices: seq<Invoice>, keep: Scope): seq<Event> {
    if invoices == [] then []
    else
      var i := invoices[0];
      (if keep(i.store, i.supplier) && Accounting(i.status) then [Event(i.date, i.grandTotal)] else [])
      + InvoiceEvents(invoices[1..], keep)
  }

  function DocumentEvents(documents: seq<Document>, keep: Scope): seq<Event> {
    if documents == [] then []
    else
      var d := documents[0];
      (if keep(d.request.store, d.request.supplier) then [Event(d.request.date, -d.amount)] else [])
      + DocumentEvents(documents[1..], keep)
  }

  function ReversalEvents(documents: seq<Document>, keep: Scope): seq<Event> {
    if documents == [] then []
    else
      var d := documents[0];
      (if keep(d.request.store, d.request.supplier) && d.reversal.Some?
       then [Event(d.reversal.value, d.amount)] else [])
      + ReversalEvents(documents[1..], keep)
  }

  /** Every dated event of the suppliers and stores in scope, before they are put in date order. */
  function Events(b: Books, keep: Scope): seq<Event> {
    InvoiceEvents(b.invoices, keep) + DocumentEvents(b.documents, keep) + ReversalEvents(b.documents, keep)
  }

  function RangeLines(events: seq<Event>, from: Option<int>, to: Option<int>, opening: int): seq<StatementLine>
  {
    if events == [] then []
    else
      var n := |events| - 1;
      var before := RangeLines(events[..n], from, to, opening);
      if InRange(events[n], from, to)
      then before + [StatementLine(events[n].date, events[n].amount, opening + Sum(events, EffectWithin(from, to)))]
      else before
  }

  /** The statement of a list of events, in whatever order they were sorted. */
  method Statement(events: seq<Event>, from: Option<int>, to: Option<int>)
    returns (opening: int, lines: seq<StatementLine>, closing: int)
    ensures opening == Sum(events, EffectBefore(from))
    ensures lines == RangeLines(events, from, to, opening)
    ensures closing == opening + Sum(events, EffectWithin(from, to))
  {
    opening := 0;
    for i := 0 to |events|
      invariant opening == Sum(events[..i], EffectBefore(from))
    {
      assert events[..i + 1] == events[..i] + [events[i]];
      SumAppend(events[..i], events[i], EffectBefore(from));
      if from.Some? && events[i].date < from.value { opening := opening + events[i].amount; }
    }
    var running := opening;
    lines := [];
    for i := 0 to |events|
      invariant running == opening + Sum(events[..i], EffectWithin(from, to))
      invariant lines == RangeLines(events[..i], from, to, opening)
    {
      assert events[..i + 1] == events[..i] + [events[i]] && events[..i + 1][..i] == events[..i];
      SumAppend(events[..i], events[i], EffectWithin(from, to));
      if InRange(events[i], from, to) {
        running := running + events[i].amount;
        lines := lines + [StatementLine(events[i].date, events[i].amount, running)];
      }
    }
    assert events[..|events|] == events;
    closing := running;
  }

  /** What an invoice comes to on a statement, under any measure of events. */
  function OfInvoice(keep: Scope, measure: Event -> int): Invoice -> int {
    (i: Invoice) => if keep(i.store, i.supplier) && Accounting(i.status) then measure(Event(i.date, i.grandTotal))
      else 0
  }

  /** What a payment or credit note comes to, with its reversal. */
  function OfDocument(keep: Scope, measure: Event -> int): Document -> int {
    (d: Document) =>
      if keep(d.request.store, d.request.supplier)
      then measure(Event(d.request.date, -d.amount))
           + if d.reversal.Some? then measure(Event(d.reversal.value, d.amount)) else 0
      else 0
  }

  lemma {:induction false} InvoiceEventsTotal(invoices: seq<Invoice>, keep: Scope, measure: Event -> int)
    ensures Sum(InvoiceEvents(invoices, keep), measure) == Sum(invoices, OfInvoice(keep, measure))
  {
    if invoices != [] {
      InvoiceEventsTotal(invoices[1..], keep, measure);
      var i := invoices[0];
      SumOne(Event(i.date, i.grandTotal), measure);
      SumConcat(if keep(i.store, i.supplier) && Accounting(i.status) then [Event(i.date, i.grandTotal)] else [],
                InvoiceEvents(invoices[1..], keep), measure);
    }
  }

  lemma {:induction false} DocumentEventsTotal(documents: seq<Document>, keep: Scope, measure: Event -> int)
    ensures Sum(DocumentEvents(documents, keep), measure) + Sum(ReversalEvents(documents, keep), measure)
            == Sum(documents, OfDocument(keep, measure))
  {
    if documents != [] {
      DocumentEventsTotal(documents[1..], keep, measure);
      var d := documents[0];
      var kept := keep(d.request.store, d.request.supplier);
      SumOne(Event(d.request.date, -d.amount), measure);
      SumConcat(if kept then [Event(d.request.date, -d.amount)] else [], DocumentEvents(documents[1..], keep), measure);
      if d.reversal.Some? { SumOne(Event(d.reversal.value, d.amount), measure); }
      SumConcat(if kept && d.reversal.Some? then [Event(d.reversal.value, d.amount)] else [],
                ReversalEvents(documents[1..], keep), measure);
    }
  }

  lemma {:induction false} EventsTotal(b: Books, keep: Scope, events: seq<Event>, measure: Event -> int)
    requires multiset(events) == multiset(Events(b, keep))
    ensures Sum(events, measure)
            == Sum(b.invoices, OfInvoice(keep, measure)) + Sum(b.documents, OfDocument(keep, measure))
  {
    SumPermutation(events, Events(b, keep), measure);
    SumConcat(InvoiceEvents(b.invoices, keep), DocumentEvents(b.documents, keep), measure);
    SumConcat(InvoiceEvents(b.invoices, keep) + DocumentEvents(b.documents, keep), ReversalEvents(b.documents, keep),
      measure);
    InvoiceEventsTotal(b.invoices, keep, measure);
    DocumentEventsTotal(b.documents, keep, measure);
  }

  lemma {:induction false} WholeStatement(events: seq<Event>)
    ensures Sum(events, EffectBefore(None)) + Sum(events, EffectWithin(None, None)) == Sum(events, Effect)
  {
    SumZero(events, EffectBefore(None));
    SumSame(events, events, EffectWithin(None, None), Effect);
  }

  lemma {:induction false} WholeBilled(invoices: seq<Invoice>, keep: Scope)
    ensures Sum(invoices, OfInvoice(keep, Effect)) == Sum(invoices, BilledIn(keep))
  {
    forall k | 0 <= k < |invoices| ensures OfInvoice(keep, Effect)(invoices[k]) == BilledIn(keep)(invoices[k]) {
      assert Effect(Event(invoices[k].date, invoices[k].grandTotal)) == invoices[k].grandTotal;
    }
    SumSame(invoices, invoices, OfInvoice(keep, Effect), BilledIn(keep));
  }

  lemma {:induction false} WholeSettled(documents: seq<Document>, keep: Scope)
    ensures Sum(documents, OfDocument(keep, Effect)) == -Sum(documents, SettledIn(keep))
  {
    forall k | 0 <= k < |documents| ensures OfDocument(keep, Effect)(documents[k]) == -SettledIn(keep)(documents[k]) {
      DocumentInFull(keep, documents[k]);
    }
    SumNegated(documents, OfDocument(keep, Effect), SettledIn(keep));
  }

  lemma {:induction false} DocumentInFull(keep: Scope, d: Document)
    ensures OfDocument(keep, Effect)(d) == -SettledIn(keep)(d)
  {
    assert Effect(Event(d.request.date, -d.amount)) == -d.amount;
    if d.reversal.Some? { assert Effect(Event(d.reversal.value, d.amount)) == d.amount; }
  }

  /** With no date filter, the statement of any stores and suppliers closes at exactly what the
      summary says is owed, however its events were ordered. */
  lemma {:induction false} StatementClosesAtOwed(b: Books, keep: Scope, events: seq<Event>)
    requires Consistent(b) && multiset(events) == multiset(Events(b, keep))
    ensures Sum(events, EffectBefore(None)) + Sum(events, EffectWithin(None, None)) == Sum(b.invoices, OwedIn(keep))
  {
    WholeStatement(events);
    EventsTotal(b, keep, events, Effect);
    WholeBilled(b.invoices, keep);
    WholeSettled(b.documents, keep);
    OwedTelescopes(b, keep);
  }

  /** A statement opens where the statement of the days before it closed. */
  lemma {:induction false} StatementsChain(events: seq<Event>, from: Option<int>, to: int)
    requires from.Some? ==> from.value <= to + 1
    ensures Sum(events, EffectBefore(Some(to + 1)))
            == Sum(events, EffectBefore(from)) + Sum(events, EffectWithin(from, Some(to)))
  {
    SumAdd(events, EffectBefore(Some(to + 1)), EffectBefore(from), EffectWithin(from, Some(to)));
  }

  /** Billed before a day: the posted invoices in scope dated earlier. */
  function BilledBefore(keep: Scope, day: int): Invoice -> int {
    (i: Invoice) =>
      if keep(i.store, i.supplier) && i.date < day
          && (i.status == POSTED || i.status == PARTIALLY_PAID || i.status == PAID)
      then i.grandTotal else 0
  }

  /** Settled before a day: documents dated earlier, but for those that were also reversed earlier. */
  function SettledBefore(keep: Scope, day: int): Document -> int {
    (d: Document) =>
      if keep(d.request.store, d.request.supplier)
      then (if d.request.date < day then d.amount else 0)
           - (if d.reversal.Some? && d.reversal.value < day then d.amount else 0)
      else 0
  }

  /** The statement of any stores and suppliers opens at what was billed before its first day less what was
      settled before it, and closes at the same of the day after its last. */
  lemma {:induction false} StatementOpensAndCloses(b: Books, keep: Scope, events: seq<Event>, from: int, to: int)
    requires multiset(events) == multiset(Events(b, keep)) && from <= to + 1
    ensures Sum(events, EffectBefore(Some(from)))
            == Sum(b.invoices, BilledBefore(keep, from)) - Sum(b.documents, SettledBefore(keep, from))
    ensures Sum(events, EffectBefore(Some(from))) + Sum(events, EffectWithin(Some(from), Some(to)))
            == Sum(b.invoices, BilledBefore(keep, to + 1)) - Sum(b.documents, SettledBefore(keep, to + 1))
  {
    OpensAt(b, keep, events, from);
    OpensAt(b, keep, events, to + 1);
    StatementsChain(events, Some(from), to);
  }

  lemma {:induction false} BilledRow(keep: Scope, day: int, i: Invoice)
    ensures OfInvoice(keep, EffectBefore(Some(day)))(i) == BilledBefore(keep, day)(i)
  {
    assert Accounting(i.status) <==> i.status == POSTED || i.status == PARTIALLY_PAID || i.status == PAID;
  }

  lemma {:induction false} SettledRow(keep: Scope, day: int, d: Document)
    ensures OfDocument(keep, EffectBefore(Some(day)))(d) == -SettledBefore(keep, day)(d)
  {
  }

  lemma {:induction false} OpensAt(b: Books, keep: Scope, events: seq<Event>, day: int)
    requires multiset(events) == multiset(Events(b, keep))
    ensures Sum(events, EffectBefore(Some(day)))
            == Sum(b.invoices, BilledBefore(keep, day)) - Sum(b.documents, SettledBefore(keep, day))
  {
    var invoiced, settled := OfInvoice(keep, EffectBefore(Some(day))), OfDocument(keep, EffectBefore(Some(day)));
    EventsTotal(b, keep, events, EffectBefore(Some(day)));
    assert Sum(b.invoices, invoiced) == Sum(b.invoices, BilledBefore(keep, day)) by {
      forall k | 0 <= k < |b.invoices| ensures invoiced(b.invoices[k]) == BilledBefore(keep, day)(b.invoices[k]) {
        BilledRow(keep, day, b.invoices[k]);
      }
      SumSame(b.invoices, b.invoices, invoiced, BilledBefore(keep, day));
    }
    assert Sum(b.documents, settled) == -Sum(b.documents, SettledBefore(keep, day)) by {
      forall k | 0 <= k < |b.documents| ensures settled(b.documents[k]) == -SettledBefore(keep, day)(b.documents[k]) {
        SettledRow(keep, day, b.documents[k]);
      }
      SumNegated(b.documents, settled, SettledBefore(keep, day));
    }
  }

  /** The events of the days asked for. */
  function Listed(events: seq<Event>, from: Option<int>, to: Option<int>): seq<Event> {
    if events == [] then []
    else
      var e := events[|events| - 1];
      Listed(events[..|events| - 1], from, to)
      + if (from.Some? ==> from.value <= e.date) && (to.Some? ==> e.date <= to.value) then [e] else []
  }

  lemma {:induction false} PrefixesOf<T>(s: seq<T>, x: T)
    ensures (s + [x])[..|s| + 1] == s + [x]
    ensures forall n :: 0 <= n <= |s| ==> (s + [x])[..n] == s[..n]
  {
  }

  /** One line for each event of the days asked for, in order, with the opening balance and the amounts of the
      lines up to it. */
  lemma {:induction false} LinesRun(events: seq<Event>, from: Option<int>, to: Option<int>, opening: int)
    ensures var lines, listed := RangeLines(events, from, to, opening), Listed(events, from, to);
            && |lines| == |listed| && Sum(listed, Effect) == Sum(events, EffectWithin(from, to))
            && forall k :: 0 <= k < |lines| ==>
                 lines[k] == StatementLine(listed[k].date, listed[k].amount, opening + Sum(listed[..k + 1], Effect))
  {
    if events != [] {
      var n := |events| - 1;
      var e, before := events[n], Listed(events[..n], from, to);
      LinesRun(events[..n], from, to, opening);
      assert events == events[..n] + [e];
      SumAppend(events[..n], e, EffectWithin(from, to));
      SumAppend(before, e, Effect);
      if InRange(e, from, to) { PrefixesOf(before, e); } else { assert before + [] == before; }
    }
  }

  // ---- The service -------------------------------------------------------------------------------

  class SettlementBook {
    var invoices: seq<Invoice>
    var documents: seq<Document>
    var journal: seq<Posting>

    ghost function State(): Books
      reads this
    {
      Books(invoices, documents, journal)
    }

    constructor ()
      ensures State() == EMPTY && Consistent(State())
    {
      invoices, documents, journal := [], [], [];
      EmptyConsistent();
    }

    method CreateInvoice(store: nat, supplier: nat, date: int, grandTotal: nat) returns (i: nat)
      requires Consistent(State())
      modifies this
      ensures State() == Create(old(State()), store, supplier, date, grandTotal)
      ensures i == old(|invoices|) && Consistent(State())
    {
      CreateConsistent(State(), store, supplier, date, grandTotal);
      i := |invoices|;
      invoices := invoices + [Invoice(store, supplier, date, grandTotal, 0, 0, DRAFT)];
    }

    method PostInvoice(caller: Option<nat>, i: nat) returns (o: Outcome)
      requires Consistent(State())
      modifies this
      ensures (State(), o) == Post(old(State()), caller, i)
      ensures Consistent(State())
    {
      PostConsistent(State(), caller, i);
      if i >= |invoices| { return Rejected(NOT_FOUND); }
      var row := invoices[i];
      if Denied(caller, row.store) { return Rejected(STORE_ACCESS_DENIED); }
      if row.status != DRAFT {
        return if row.status == VOIDED then Rejected(INVALID_INVOICE_STATE) else Existing(i);
      }
      invoices := invoices[i := row.(status := POSTED)];
      journal := journal + [Posting(InvoicePosted(i), row.store, row.grandTotal)];
      o := Done(i);
    }

    method VoidInvoice(caller: Option<nat>, i: nat) returns (o: Outcome)
      requires Consistent(State())
      modifies this
      ensures (State(), o) == Void(old(State()), caller, i)
      ensures Consistent(State())
    {
      VoidConsistent(State(), caller, i);
      if i >= |invoices| { return Rejected(NOT_FOUND); }
      var row := invoices[i];
      if Denied(caller, row.store) { return Rejected(STORE_ACCESS_DENIED); }
      if row.status == VOIDED { return Existing(i); }
      if row.status == PARTIALLY_PAID || row.status == PAID { return Rejected(INVOICE_HAS_PAYMENTS); }
      if row.status == POSTED {
        journal := journal + [Posting(InvoiceVoided(i), row.store, 0 - row.grandTotal)];
      }
      invoices := invoices[i := row.(status := VOIDED)];
      o := Done(i);
    }

    method CheckRequest(r: Request) returns (problem: Option<Error>)
      ensures problem == Malformed(r)
    {
      match r.terms {
        case Payment(_, amount) =>
          if amount <= 0 { return Some(INVALID_AMOUNT); }
        case CreditNote(_, _, lines) =>
          if lines == [] { return Some(EMPTY_CREDIT_NOTE); }
          for j := 0 to |lines|
            invariant forall k :: 0 <= k < j ==> lines[k].amount > 0
          {
            if lines[j].amount <= 0 { return Some(INVALID_AMOUNT); }
          }
      }
      if r.allocations == [] { return Some(EMPTY_ALLOCATIONS); }
      var distinct := CheckTargets(r.allocations);
      if !distinct { return Some(DUPLICATE_ALLOCATION_TARGET); }
      var total := 0;
      for j := 0 to |r.allocations|
        invariant total == Sum(r.allocations[..j], AllocationAmount)
        invariant forall k :: 0 <= k < j ==> r.allocations[k].amount > 0
      {
        if r.allocations[j].amount <= 0 { return Some(INVALID_AMOUNT); }
        assert r.allocations[..j + 1] == r.allocations[..j] + [r.allocations[j]];
        SumAppend(r.allocations[..j], r.allocations[j], AllocationAmount);
        total := total + r.allocations[j].amount;
      }
      assert r.allocations[..|r.allocations|] == r.allocations;
      problem := if r.terms.Payment? && total != r.terms.amount then Some(ALLOCATION_MUST_EQUAL_AMOUNT) else None;
    }

    /** Compares the number of targets with the number of different targets. */
    method CheckTargets(allocations: seq<Allocation>) returns (distinct: bool)
      ensures distinct <==> DistinctTargets(allocations)
    {
      var targets: set<nat> := {};
      for j := 0 to |allocations|
        invariant targets == set k | 0 <= k < j :: allocations[k].invoice
        invariant DistinctTargets(allocations[..j])
      {
        if allocations[j].invoice in targets { return false; }
        targets := targets + {allocations[j].invoice};
      }
      assert allocations[..|allocations|] == allocations;
      distinct := true;
    }

    method CheckInvoices(r: Request) returns (problem: Option<Error>)
      requires TargetsExist(r.allocations, |invoices|)
      ensures problem == AllocationProblem(invoices, r, 0)
    {
      for j := 0 to |r.allocations|
        invariant AllocationProblem(invoices, r, 0) == AllocationProblem(invoices, r, j)
      {
        var i := invoices[r.allocations[j].invoice];
        if i.store != r.store { return Some(STORE_MISMATCH); }
        if i.supplier != r.supplier { return Some(SUPPLIER_MISMATCH); }
        if !Outstanding(i.status) { return Some(INVALID_INVOICE_STATE); }
        if r.allocations[j].amount > Balance(i) { return Some(OVERPAYMENT); }
      }
      problem := None;
    }

    method ApplyAllocations(r: Request, sign: int)
      requires TargetsExist(r.allocations, |invoices|)
      modifies this`invoices
      ensures invoices == Allocate(old(invoices), r.terms.Payment?, r.allocations, sign, |r.allocations|)
    {
      ghost var before := invoices;
      for j := 0 to |r.allocations|
        invariant |invoices| == |before| && TargetsExist(r.allocations, |before|)
        invariant invoices == Allocate(before, r.terms.Payment?, r.allocations, sign, j)
      {
        var a := r.allocations[j];
        invoices := invoices[a.invoice := Bump(invoices[a.invoice], r.terms.Payment?, sign * a.amount)];
      }
    }

    /** record_supplier_payment and create_supplier_credit_note. */
    method SettleDocument(caller: Option<nat>, r: Request) returns (o: Outcome)
      requires Consistent(State())
      modifies this
      ensures (State(), o) == Settle(old(State()), caller, r)
      ensures Consistent(State())
    {
      SettleConsistent(State(), caller, r);
      var problem := CheckRequest(r);
      if problem.Some? { return Rejected(problem.value); }
      var existing := FindKey(documents, r);
      if existing.Some? {
        return if SameRequest(documents[existing.value].request, r) then Existing(existing.value)
               else Rejected(IDEMPOTENCY_KEY_CONFLICT);
      }
      if Denied(caller, r.store) { return Rejected(STORE_ACCESS_DENIED); }
      if Sum(r.allocations, AllocationAmount) != Total(r.terms) { return Rejected(ALLOCATION_MUST_EQUAL_AMOUNT); }
      if !TargetsExist(r.allocations, |invoices|) { return Rejected(NOT_FOUND); }
      problem := CheckInvoices(r);
      if problem.Some? { return Rejected(problem.value); }
      if CreditNumberTaken(documents, r) { return Rejected(DUPLICATE_CREDIT_NUMBER); }
      o := Done(|documents|);
      ApplyAllocations(r, 1);
      journal := journal + [Posting(Settled(|documents|), r.store, -Total(r.terms))];
      documents := documents + [Document(r, Total(r.terms), if r.terms.Payment? then 0 else Total(r.terms), None)];
    }

    /** reverse_supplier_payment and reverse_supplier_credit_note. */
    method ReverseDocument(caller: Option<nat>, d: nat, today: int) returns (o: Outcome)
      requires Consistent(State())
      modifies this
      ensures (State(), o) == Reverse(old(State()), caller, d, today)
      ensures Consistent(State())
    {
      ReverseConsistent(State(), caller, d, today);
      if d >= |documents| { return Rejected(NOT_FOUND); }
      var doc := documents[d];
      if Denied(caller, doc.request.store) { return Rejected(STORE_ACCESS_DENIED); }
      if doc.reversal.Some? { return Existing(d); }
      assert DocumentConsistent(State(), d);
      ApplyAllocations(doc.request, -1);
      journal := journal + [Posting(Reversed(d), doc.request.store, doc.amount)];
      var applied := if doc.request.terms.Payment? then doc.applied
                     else doc.applied - Sum(doc.request.allocations, AllocationAmount);
      documents := documents[d := doc.(reversal := Some(today), applied := applied)];
      o := Done(d);
    }

    /** ap_reconciliation: the control account against the subledger, for any selection of stores. */
    method Reconcile(stores: nat -> bool) returns (ledger: int, subledger: int)
      requires Consistent(State())
      ensures ledger == subledger == Sum(invoices, OwedIn(AllSuppliers(stores)))
    {
      ledger, subledger := 0, 0;
      for k := 0 to |journal|
        invariant ledger == Sum(journal[..k], PostedIn(stores))
      {
        assert journal[..k + 1] == journal[..k] + [journal[k]];
        SumAppend(journal[..k], journal[k], PostedIn(stores));
        if stores(journal[k].store) { ledger := ledger + journal[k].amount; }
      }
      for i := 0 to |invoices|
        invariant subledger == Sum(invoices[..i], OwedIn(AllSuppliers(stores)))
      {
        var row := invoices[i];
        assert invoices[..i + 1] == invoices[..i] + [row];
        SumAppend(invoices[..i], row, OwedIn(AllSuppliers(stores)));
        assert AllSuppliers(stores)(row.store, row.supplier) == stores(row.store);
        if Outstanding(row.status) && stores(row.store) { subledger := subledger + Balance(row); }
      }
      assert journal[..|journal|] == journal && invoices[..|invoices|] == invoices;
      ControlAccountReconciles(State(), stores);
    }
  }
}
