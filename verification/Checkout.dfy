/** Exactly-once checkout over a lossy network.

    The till keeps one idempotency key per attempt; the server answers a known key from a fast path
    and otherwise relies on a unique constraint.  One operation is one atomic step: requests can be
    delivered any number of times or never, replies can be lost, transactions can abort, and the
    steps of different transactions interleave. */
module Checkout {
  import opened Options
  import opened Sums

  datatype Sale = Sale(key: nat, quantity: nat)

  datatype Call = Call(key: nat, quantity: nat, pending: bool)

  /** A server transaction that has passed the fast path, before and after its INSERT. */
  datatype Phase = Checked | Inserted | Ended

  datatype Transaction = Transaction(call: nat, key: nat, quantity: nat, phase: Phase)

  datatype Reply = Success(call: nat, sale: nat) | Failure(call: nat)

  /** `abandoned` are the keys that were lost with their page before an answer. */
  datatype State = State(
    key: Option<nat>, nextKey: nat, checkingOut: bool, completed: Option<nat>, calls: seq<Call>,
    transactions: seq<Transaction>, replies: set<Reply>, sales: seq<Sale>, stock: int,
    abandoned: set<nat>)

  datatype Op =
    | Press(quantity: nat)
    | Receive(reply: Reply)
    | GiveUp(call: nat)
    | NewSale
    | Reload
    | Deliver(call: nat)
    | Insert(t: nat)
    | Commit(t: nat)
    | Abort(t: nat)

  function Start(stock: int): State {
    State(None, 0, false, None, [], [], {}, [], stock, {})
  }

  // ---- Steps ---------------------------------------------------------------------------------

  function FindSale(sales: seq<Sale>, key: nat): (i: Option<nat>)
    ensures i.Some? ==> i.value < |sales| && sales[i.value].key == key
    ensures i.None? ==> forall j :: 0 <= j < |sales| ==> sales[j].key != key
  {
    if sales == [] then None
    else if sales[|sales| - 1].key == key then Some(|sales| - 1)
    else FindSale(sales[..|sales| - 1], key)
  }

  predicate HoldsKey(s: State, key: nat) {
    exists t :: 0 <= t < |s.transactions| && s.transactions[t].phase == Inserted && s.transactions[t].key == key
  }

  predicate Enabled(s: State, op: Op) {
    match op
    case Press(_) => true
    case Receive(reply) => reply in s.replies && reply.call < |s.calls| && s.calls[reply.call].pending
    case GiveUp(call) => call < |s.calls| && s.calls[call].pending
    case NewSale => s.completed.Some?
    case Reload => true
    case Deliver(call) => call < |s.calls|
    case Insert(t) =>  // an INSERT of a key that an open transaction holds waits for its end
      t < |s.transactions| && s.transactions[t].phase == Checked && !HoldsKey(s, s.transactions[t].key)
    case Commit(t) => t < |s.transactions| && s.transactions[t].phase == Inserted
    case Abort(t) => t < |s.transactions| && s.transactions[t].phase != Ended
  }

  /** Calls whose page is gone: their answers will reach nobody. */
  function Unheard(calls: seq<Call>): (r: seq<Call>)
    ensures |r| == |calls| && forall c :: 0 <= c < |r| ==> r[c] == calls[c].(pending := false)
  {
    seq(|calls|, c requires 0 <= c < |calls| => calls[c].(pending := false))
  }

  function Finish(s: State, call: nat): State
    requires call < |s.calls|
  {
    s.(calls := s.calls[call := s.calls[call].(pending := false)], checkingOut := false)
  }

  function End(s: State, t: nat, reply: Reply): State
    requires t < |s.transactions|
  {
    s.(transactions := s.transactions[t := s.transactions[t].(phase := Ended)], replies := s.replies + {reply})
  }

  function Next(s: State, op: Op): State
    requires Enabled(s, op)
  {
    match op
    case Press(quantity) =>
      var key := if s.key.Some? then s.key.value else s.nextKey;
      s.(key := Some(key), nextKey := if s.key.Some? then s.nextKey else s.nextKey + 1,
         checkingOut := true, calls := s.calls + [Call(key, quantity, true)])
    case Receive(Success(call, sale)) => Finish(s, call).(key := None, completed := Some(sale))
    case Receive(Failure(call)) => Finish(s, call)
    case GiveUp(call) => Finish(s, call)
    case NewSale => s.(key := None, completed := None)
    case Reload =>  // the page and its key are gone, whatever it was waiting for
      s.(key := None, checkingOut := false, completed := None, calls := Unheard(s.calls),
         abandoned := if s.key.Some? then s.abandoned + {s.key.value} else s.abandoned)
    case Deliver(call) =>
      var c := s.calls[call];
      (match FindSale(s.sales, c.key)
       case Some(i) => s.(replies := s.replies + {Success(call, i)})
       case None => s.(transactions := s.transactions + [Transaction(call, c.key, c.quantity, Checked)]))
    case Insert(t) =>
      (match FindSale(s.sales, s.transactions[t].key)
       case Some(winner) => End(s, t, Success(s.transactions[t].call, winner))
       case None => s.(transactions := s.transactions[t := s.transactions[t].(phase := Inserted)]))
    case Commit(t) =>
      var tx := s.transactions[t];
      End(s, t, Success(tx.call, |s.sales|)).(sales := s.sales + [Sale(tx.key, tx.quantity)],
        stock := s.stock - tx.quantity)
    case Abort(t) => End(s, t, Failure(s.transactions[t].call))
  }

  /** Operations that are not enabled do nothing. */
  function Run(s: State, ops: seq<Op>): State
    decreases |ops|
  {
    if ops == [] then s else Run(if Enabled(s, ops[0]) then Next(s, ops[0]) else s, ops[1..])
  }

  // ---- Every interleaving ---------------------------------------------------------------------

  function Quantity(x: Sale): int {
    x.quantity
  }

  predicate OneSalePerKey(sales: seq<Sale>) {
    forall i, j :: 0 <= i < j < |sales| ==> sales[i].key != sales[j].key
  }

  predicate TransactionSound(s: State, t: nat)
    requires t < |s.transactions|
  {
    var tx := s.transactions[t];
    && tx.call < |s.calls| && s.calls[tx.call].key == tx.key && s.calls[tx.call].quantity == tx.quantity
    && (tx.phase == Inserted ==> FindSale(s.sales, tx.key).None?)
    && (forall u :: 0 <= u < |s.transactions| && u != t
                    && tx.phase == Inserted && s.transactions[u].phase == Inserted ==>
          s.transactions[u].key != tx.key)
  }

  predicate ReplySound(s: State, r: Reply) {
    && r.call < |s.calls|
    && (r.Success? ==> r.sale < |s.sales| && s.sales[r.sale].key == s.calls[r.call].key)
  }

  /** The sale is what one of the calls asked for. */
  predicate SaleOfCall(s: State, i: nat)
    requires i < |s.sales|
  {
    exists c :: 0 <= c < |s.calls| && s.calls[c].key == s.sales[i].key && s.calls[c].quantity == s.sales[i].quantity
  }

  ghost predicate Sound(s: State, initialStock: int) {
    && OneSalePerKey(s.sales)
    && (forall i: nat :: i < |s.sales| ==> SaleOfCall(s, i))
    && s.stock == initialStock - Sum(s.sales, Quantity)
    && (forall t: nat :: t < |s.transactions| ==> TransactionSound(s, t))
    && (forall r :: r in s.replies ==> ReplySound(s, r))
    && (forall c :: 0 <= c < |s.calls| ==> s.calls[c].key < s.nextKey)
    && (forall i :: 0 <= i < |s.sales| ==> s.sales[i].key < s.nextKey)
    && (s.key.Some? ==> s.key.value < s.nextKey)
  }

  lemma {:induction false} KeptSale(s: State, after: State, i: nat)
    requires i < |s.sales| && i < |after.sales| && after.sales[i] == s.sales[i] && SaleOfCall(s, i)
    requires |s.calls| <= |after.calls|
    requires forall c :: 0 <= c < |s.calls| ==>
               after.calls[c].key == s.calls[c].key && after.calls[c].quantity == s.calls[c].quantity
    ensures SaleOfCall(after, i)
  {
    var c :| 0 <= c < |s.calls| && s.calls[c].key == s.sales[i].key && s.calls[c].quantity == s.sales[i].quantity;
    assert after.calls[c].key == after.sales[i].key;
  }

  lemma {:induction false} CommitLeavesTransaction(s: State, t: nat, u: nat, initialStock: int)
    requires Sound(s, initialStock) && Enabled(s, Commit(t)) && u < |s.transactions|
    ensures |Next(s, Commit(t)).transactions| == |s.transactions| && TransactionSound(Next(s, Commit(t)), u)
  {
    var after, tx, other := Next(s, Commit(t)), s.transactions[t], s.transactions[u];
    assert TransactionSound(s, t) && TransactionSound(s, u);
    if u != t && other.phase == Inserted {
      assert other.key != tx.key;
      NewSaleElsewhere(s.sales, Sale(tx.key, tx.quantity), other.key);
    }
  }

  lemma {:induction false} NewSaleElsewhere(sales: seq<Sale>, more: Sale, key: nat)
    requires FindSale(sales, key).None? && more.key != key
    ensures FindSale(sales + [more], key).None?
  {
  }

  lemma {:induction false} CommitSound(s: State, t: nat, initialStock: int)
    requires Sound(s, initialStock) && Enabled(s, Commit(t))
    ensures Sound(Next(s, Commit(t)), initialStock)
  {
    var after, tx := Next(s, Commit(t)), s.transactions[t];
    assert TransactionSound(s, t);
    SumAppend(s.sales, Sale(tx.key, tx.quantity), Quantity);
    forall u: nat | u < |after.transactions| ensures TransactionSound(after, u) {
      CommitLeavesTransaction(s, t, u, initialStock);
    }
    forall r | r in after.replies ensures ReplySound(after, r) {
      assert r in s.replies ==> ReplySound(s, r);
    }
    forall i: nat | i < |after.sales| ensures SaleOfCall(after, i) {
      if i < |s.sales| { KeptSale(s, after, i); }
    }
  }

  lemma {:induction false} InsertSound(s: State, t: nat, initialStock: int)
    requires Sound(s, initialStock) && Enabled(s, Insert(t))
    ensures Sound(Next(s, Insert(t)), initialStock)
  {
    var after := Next(s, Insert(t));
    assert TransactionSound(s, t);
    forall u: nat | u < |after.transactions| ensures TransactionSound(after, u) {
      assert TransactionSound(s, u);
    }
    forall r | r in after.replies ensures ReplySound(after, r) {
      assert r in s.replies ==> ReplySound(s, r);
    }
    forall i: nat | i < |after.sales| ensures SaleOfCall(after, i) {
      if i < |s.sales| { KeptSale(s, after, i); }
    }
  }

  lemma {:induction false} AbortSound(s: State, t: nat, initialStock: int)
    requires Sound(s, initialStock) && Enabled(s, Abort(t))
    ensures Sound(Next(s, Abort(t)), initialStock)
  {
    var after := Next(s, Abort(t));
    assert TransactionSound(s, t);
    forall u: nat | u < |after.transactions| ensures TransactionSound(after, u) {
      assert TransactionSound(s, u);
    }
    forall r | r in after.replies ensures ReplySound(after, r) {
      assert r in s.replies ==> ReplySound(s, r);
    }
    forall i: nat | i < |after.sales| ensures SaleOfCall(after, i) {
      if i < |s.sales| { KeptSale(s, after, i); }
    }
  }

  lemma {:induction false} DeliverSound(s: State, call: nat, initialStock: int)
    requires Sound(s, initialStock) && Enabled(s, Deliver(call))
    ensures Sound(Next(s, Deliver(call)), initialStock)
  {
    var after := Next(s, Deliver(call));
    forall u: nat | u < |after.transactions| ensures TransactionSound(after, u) {
      assert u < |s.transactions| ==> TransactionSound(s, u);
    }
    forall r | r in after.replies ensures ReplySound(after, r) {
      assert r in s.replies ==> ReplySound(s, r);
    }
    forall i: nat | i < |after.sales| ensures SaleOfCall(after, i) {
      if i < |s.sales| { KeptSale(s, after, i); }
    }
  }

  lemma {:induction false} TillStepSound(s: State, op: Op, initialStock: int)
    requires Sound(s, initialStock) && Enabled(s, op)
             && (op.Press? || op.Receive? || op.GiveUp? || op.NewSale? || op.Reload?)
    ensures Sound(Next(s, op), initialStock)
  {
    var after := Next(s, op);
    forall u: nat | u < |after.transactions| ensures TransactionSound(after, u) {
      assert u < |s.transactions| ==> TransactionSound(s, u);
    }
    forall r | r in after.replies ensures ReplySound(after, r) {
      assert r in s.replies ==> ReplySound(s, r);
    }
    forall i: nat | i < |after.sales| ensures SaleOfCall(after, i) {
      if i < |s.sales| { KeptSale(s, after, i); }
    }
  }

  lemma {:induction false} NextSound(s: State, op: Op, initialStock: int)
    requires Sound(s, initialStock) && Enabled(s, op)
    ensures Sound(Next(s, op), initialStock)
  {
    match op
    case Commit(t) => CommitSound(s, t, initialStock);
    case Insert(t) => InsertSound(s, t, initialStock);
    case Abort(t) => AbortSound(s, t, initialStock);
    case Deliver(call) => DeliverSound(s, call, initialStock);
    case _ => TillStepSound(s, op, initialStock);
  }

  /** Whatever is lost, repeated, raced or aborted, and whoever presses the button how often, there
      is at most one sale per key and stock is taken exactly once for each. */
  lemma {:induction false} RunSound(s: State, ops: seq<Op>, initialStock: int)
    requires Sound(s, initialStock)
    ensures Sound(Run(s, ops), initialStock)
    decreases |ops|
  {
    if ops != [] {
      var next := if Enabled(s, ops[0]) then Next(s, ops[0]) else s;
      if Enabled(s, ops[0]) { NextSound(s, ops[0], initialStock); }
      RunSound(next, ops[1..], initialStock);
    }
  }

  lemma {:induction false} StartSound(stock: int)
    ensures Sound(Start(stock), stock)
  {
  }

  /** The sale a successful call returns is the one and only sale of that call's key. */
  lemma {:induction false} SuccessReturnsTheSale(s: State, reply: Reply, initialStock: int)
    requires Sound(s, initialStock) && reply.Success? && Enabled(s, Receive(reply))
    ensures var k := s.calls[reply.call].key;
            && reply.sale < |s.sales| && s.sales[reply.sale].key == k
            && forall i :: 0 <= i < |s.sales| && s.sales[i].key == k ==> i == reply.sale
  {
    assert ReplySound(s, reply);
    assert forall i: nat :: i < |s.sales| && i != reply.sale ==> s.sales[i].key != s.sales[reply.sale].key;
  }

  // ---- What each step does ---------------------------------------------------------------------------

  /** A press sends what is in the cart, under the attempt's key or a fresh one. */
  lemma {:induction false} PressSends(s: State, quantity: nat)
    ensures var after := Next(s, Press(quantity));
            && after.key.Some? && (s.key.Some? ==> after.key == s.key && after.nextKey == s.nextKey)
            && (s.key.None? ==> after.key.value == s.nextKey && after.nextKey == s.nextKey + 1)
            && after.calls == s.calls + [Call(after.key.value, quantity, true)] && after.checkingOut
            && after.sales == s.sales && after.stock == s.stock && after.completed == s.completed
  {
  }

  /** An answer ends its call; a successful one completes the sale and lets go of the key, a failed or missing
      one keeps it for the next try. */
  lemma {:induction false} AnswerEndsCall(s: State, op: Op)
    requires (op.Receive? || op.GiveUp?) && Enabled(s, op)
    ensures var after, call := Next(s, op), if op.Receive? then op.reply.call else op.call;
            && |after.calls| == |s.calls| && after.calls[call] == Call(s.calls[call].key, s.calls[call].quantity, false)
            && (forall c :: 0 <= c < |s.calls| && c != call ==> after.calls[c] == s.calls[c])
            && !after.checkingOut && after.sales == s.sales && after.stock == s.stock && after.nextKey == s.nextKey
            && (op.Receive? && op.reply.Success? ==> after.key.None? && after.completed == Some(op.reply.sale))
            && (op.GiveUp? || op.reply.Failure? ==> after.key == s.key && after.completed == s.completed)
  {
  }

  /** A delivered request whose key already has a sale is answered with it; nothing is sold. */
  lemma {:induction false} RepeatAnswered(s: State, call: nat, i: nat)
    requires call < |s.calls| && i < |s.sales| && s.sales[i].key == s.calls[call].key && OneSalePerKey(s.sales)
    ensures var after := Next(s, Deliver(call));
            Success(call, i) in after.replies && after.sales == s.sales && after.stock == s.stock
            && after.transactions == s.transactions
  {
    var found := FindSale(s.sales, s.calls[call].key).value;
    assert found == i;
  }

  /** A request under a new key, delivered, inserted and committed, leaves exactly the sale it asked for, and
      takes that quantity from stock. */
  lemma {:induction false} NewRequestSold(s: State, call: nat)
    requires call < |s.calls|
    requires forall i :: 0 <= i < |s.sales| ==> s.sales[i].key != s.calls[call].key
    requires forall t :: 0 <= t < |s.transactions| && s.transactions[t].phase == Inserted ==>
               s.transactions[t].key != s.calls[call].key
    ensures var t := |s.transactions|;
            var s1 := Next(s, Deliver(call));
            && Enabled(s1, Insert(t)) && Enabled(Next(s1, Insert(t)), Commit(t))
            && var after := Next(Next(s1, Insert(t)), Commit(t));
               && after.sales == s.sales + [Sale(s.calls[call].key, s.calls[call].quantity)]
               && after.stock == s.stock - s.calls[call].quantity
               && Success(call, |s.sales|) in after.replies
  {
    var t, c := |s.transactions|, s.calls[call];
    var s1 := Next(s, Deliver(call));
    assert s1.transactions == s.transactions + [Transaction(call, c.key, c.quantity, Checked)];
    var s2 := Next(s1, Insert(t));
    assert s2.transactions[t] == Transaction(call, c.key, c.quantity, Inserted);
  }

  /** A transaction that has not ended may abort at any time; it sells nothing and answers with a failure. */
  lemma {:induction false} AbortSellsNothing(s: State, t: nat)
    requires t < |s.transactions| && (s.transactions[t].phase == Checked || s.transactions[t].phase == Inserted)
    ensures Enabled(s, Abort(t))
    ensures var after := Next(s, Abort(t));
            && after.sales == s.sales && after.stock == s.stock && after.calls == s.calls
            && after.replies == s.replies + {Failure(s.transactions[t].call)}
            && after.transactions[t].phase == Ended
  {
  }

  /** The next customer, or a reloaded page, starts without a key and without a completed sale; a reload moreover
      hears no answer any more, and leaves a key it held behind.  Neither touches what was sold. */
  lemma {:induction false} TillStartsOver(s: State)
    ensures Enabled(s, NewSale) <==> s.completed != None
    ensures s.completed != None ==> Next(s, NewSale) == s.(key := None, completed := None)
    ensures Enabled(s, Reload)
    ensures var after := Next(s, Reload);
            && after.key == None && after.completed == None && !after.checkingOut
            && |after.calls| == |s.calls|
            && (forall c :: 0 <= c < |s.calls| ==> after.calls[c] == Call(s.calls[c].key, s.calls[c].quantity, false))
            && after.abandoned == s.abandoned + (if s.key.Some? then {s.key.value} else {})
            && after.sales == s.sales && after.stock == s.stock && after.nextKey == s.nextKey
            && after.transactions == s.transactions && after.replies == s.replies
  {
  }

  // ---- The till as it is used -------------------------------------------------------------------

  /** The checkout button is on the screen and not disabled. */
  predicate ButtonEnabled(s: State) {
    s.completed.None? && !s.checkingOut
  }

  predicate Guarded(s: State, ops: seq<Op>)
    decreases |ops|
  {
    ops == []
    || ((ops[0].Press? ==> ButtonEnabled(s))
        && Guarded(if Enabled(s, ops[0]) then Next(s, ops[0]) else s, ops[1..]))
  }

  /** One call at a time, carrying the current key; and every key the till has let go of, other than with
      its page, is the key of exactly one committed sale. */
  ghost predicate TillSound(s: State) {
    && (forall c: nat :: c < |s.calls| && s.calls[c].pending ==>
         s.checkingOut && c == |s.calls| - 1 && s.key == Some(s.calls[c].key))
    && (s.completed.Some? ==> s.key.None? && !s.checkingOut)
    && (s.checkingOut ==> |s.calls| > 0 && s.calls[|s.calls| - 1].pending)
    && (forall k: nat :: k < s.nextKey && s.key != Some(k) && k !in s.abandoned ==> FindSale(s.sales, k).Some?)
    && (forall k :: k in s.abandoned ==> k < s.nextKey && s.key != Some(k))
    && (s.key.Some? ==> s.key.value < s.nextKey)
  }

  lemma {:induction false} StartTillSound(stock: int)
    ensures TillSound(Start(stock))
  {
  }

  lemma {:induction false} FindSaleGrows(sales: seq<Sale>, more: Sale, k: nat)
    requires FindSale(sales, k).Some?
    ensures FindSale(sales + [more], k).Some?
  {
    assert (sales + [more])[FindSale(sales, k).value].key == k;
  }

  lemma {:induction false} NextTillSound(s: State, op: Op, initialStock: int)
    requires Sound(s, initialStock) && TillSound(s) && Enabled(s, op)
    requires op.Press? ==> ButtonEnabled(s)
    ensures TillSound(Next(s, op))
  {
    KeysRetiredWithSale(s, op, initialStock);
    CallsStaySingle(s, op);
  }

  lemma {:induction false} CallsStaySingle(s: State, op: Op)
    requires TillSound(s) && Enabled(s, op) && (op.Press? ==> ButtonEnabled(s))
    ensures var after := Next(s, op);
            && (forall c: nat :: c < |after.calls| && after.calls[c].pending ==>
                  after.checkingOut && c == |after.calls| - 1 && after.key == Some(after.calls[c].key))
            && (after.completed.Some? ==> after.key.None? && !after.checkingOut)
            && (after.checkingOut ==> |after.calls| > 0 && after.calls[|after.calls| - 1].pending)
            && (forall k :: k in after.abandoned ==> k < after.nextKey && after.key != Some(k))
            && (after.key.Some? ==> after.key.value < after.nextKey)
  {
  }

  lemma {:induction false} KeysRetiredWithSale(s: State, op: Op, initialStock: int)
    requires Sound(s, initialStock) && TillSound(s) && Enabled(s, op)
    requires op.Press? ==> ButtonEnabled(s)
    ensures var after := Next(s, op);
            forall k: nat :: k < after.nextKey && after.key != Some(k) && k !in after.abandoned ==>
              FindSale(after.sales, k).Some?
  {
    var after := Next(s, op);
    forall k: nat | k < after.nextKey && after.key != Some(k) && k !in after.abandoned
      ensures FindSale(after.sales, k).Some?
    {
      if op.Receive? && op.reply.Success? && s.key == Some(k) {
        SuccessReturnsTheSale(s, op.reply, initialStock);
      } else if op.Commit? {
        FindSaleGrows(s.sales, Sale(s.transactions[op.t].key, s.transactions[op.t].quantity), k);
      }
    }
  }

  /** With the button as it is, no attempt is ever charged twice or dropped while the till believes
      it succeeded: each key let go of has exactly one sale, unless it was lost with its page; a sale
      beyond those can only be of the attempt still under way, or of one so lost. */
  lemma {:induction false} GuardedRunTillSound(s: State, ops: seq<Op>, initialStock: int)
    requires Sound(s, initialStock) && TillSound(s) && Guarded(s, ops)
    ensures Sound(Run(s, ops), initialStock) && TillSound(Run(s, ops))
    decreases |ops|
  {
    if ops != [] {
      var next := if Enabled(s, ops[0]) then Next(s, ops[0]) else s;
      if Enabled(s, ops[0]) {
        NextSound(s, ops[0], initialStock);
        NextTillSound(s, ops[0], initialStock);
      }
      GuardedRunTillSound(next, ops[1..], initialStock);
    }
  }

  function Keys(sales: seq<Sale>): (r: set<nat>) {
    set i | 0 <= i < |sales| :: sales[i].key
  }

  lemma {:induction false} CountKeys(sales: seq<Sale>)
    requires OneSalePerKey(sales)
    ensures |Keys(sales)| == |sales|
  {
    if sales != [] {
      var n := |sales| - 1;
      CountKeys(sales[..n]);
      assert Keys(sales) == Keys(sales[..n]) + {sales[n].key};
    }
  }

  function Below(n: nat): (r: set<nat>)
    ensures |r| == n && forall k: nat :: k in r <==> k < n
  {
    if n == 0 then {} else Below(n - 1) + {n - 1}
  }

  /** Attempts lost with their page that came to nothing. */
  function Lost(s: State): (r: set<nat>) {
    set k | k in s.abandoned && FindSale(s.sales, k).None?
  }

  /** So the number of sales is the number of attempts, less those lost with their page that came to
      nothing, give or take the one still under way. */
  lemma {:induction false} AttemptsCounted(s: State, initialStock: int)
    requires Sound(s, initialStock) && TillSound(s)
    ensures |s.sales| == s.nextKey - |Lost(s)| - if s.key.Some? && FindSale(s.sales, s.key.value).None? then 1 else 0
  {
    CountKeys(s.sales);
    var all, lost := Below(s.nextKey), Lost(s);
    var open := if s.key.Some? && FindSale(s.sales, s.key.value).None? then {s.key.value} else {};
    forall k | k in all - lost - open ensures k in Keys(s.sales) { assert FindSale(s.sales, k).Some?; }
    assert Keys(s.sales) == all - lost - open;
    assert lost <= all && open <= all - lost;
  }

  predicate NeverReloaded(ops: seq<Op>) {
    forall i :: 0 <= i < |ops| ==> !ops[i].Reload?
  }

  /** A till that is never reloaded loses no key. */
  lemma {:induction false} NothingAbandoned(s: State, ops: seq<Op>)
    requires NeverReloaded(ops)
    ensures Run(s, ops).abandoned == s.abandoned
    decreases |ops|
  {
    if ops != [] {
      assert forall i :: 0 <= i < |ops[1..]| ==> ops[1..][i] == ops[i + 1];
      NothingAbandoned(if Enabled(s, ops[0]) then Next(s, ops[0]) else s, ops[1..]);
    }
  }

  /** Two overlapping calls, of which the second is answered after the next attempt began. */
  const LATE_ANSWER: seq<Op> := [
    Press(1), Press(1), Deliver(0), Insert(0), Commit(0), Receive(Success(0, 0)), NewSale, Press(5),
    Deliver(1), Receive(Success(1, 0))]

  lemma {:induction false} RunFrom(s: State, ops: seq<Op>, k: nat, op: Op, next: State)
    requires k < |ops| && ops[k] == op && Enabled(s, op) && Next(s, op) == next
    ensures Run(s, ops[k..]) == Run(next, ops[k + 1..])
  {
    assert ops[k..][1..] == ops[k + 1..];
  }

  function Racing(transactions: seq<Transaction>, replies: set<Reply>, sales: seq<Sale>, stock: int): State {
    State(Some(0), 1, true, None, [Call(0, 1, true), Call(0, 1, true)], transactions, replies, sales, stock, {})
  }

  const SOLD: State := Racing([Transaction(0, 0, 1, Ended)], {Success(0, 0)}, [Sale(0, 1)], 9)

  const PRESSED_ONCE: State := State(Some(0), 1, true, None, [Call(0, 1, true)], [], {}, [], 10, {})

  lemma {:induction false} Pressed()
    ensures Run(Start(10), LATE_ANSWER) == Run(PRESSED_ONCE, LATE_ANSWER[1..])
  {
    assert LATE_ANSWER[0..] == LATE_ANSWER;
    RunFrom(Start(10), LATE_ANSWER, 0, Press(1), PRESSED_ONCE);
  }

  lemma {:induction false} PressedTwice()
    ensures Run(PRESSED_ONCE, LATE_ANSWER[1..]) == Run(Racing([], {}, [], 10), LATE_ANSWER[2..])
  {
    RunFrom(PRESSED_ONCE, LATE_ANSWER, 1, Press(1), Racing([], {}, [], 10));
  }

  lemma {:induction false} FirstDelivered()
    ensures Run(Racing([], {}, [], 10), LATE_ANSWER[2..])
            == Run(Racing([Transaction(0, 0, 1, Checked)], {}, [], 10), LATE_ANSWER[3..])
  {
    assert [] + [Transaction(0, 0, 1, Checked)] == [Transaction(0, 0, 1, Checked)];
    RunFrom(Racing([], {}, [], 10), LATE_ANSWER, 2, Deliver(0), Racing([Transaction(0, 0, 1, Checked)], {}, [], 10));
  }

  lemma {:induction false} FirstInserted()
    ensures Run(Racing([Transaction(0, 0, 1, Checked)], {}, [], 10), LATE_ANSWER[3..])
            == Run(Racing([Transaction(0, 0, 1, Inserted)], {}, [], 10), LATE_ANSWER[4..])
  {
    var s3 := Racing([Transaction(0, 0, 1, Checked)], {}, [], 10);
    assert !HoldsKey(s3, 0) && FindSale([], 0).None?;
    assert [Transaction(0, 0, 1, Checked)][0 := Transaction(0, 0, 1, Inserted)] == [Transaction(0, 0, 1, Inserted)];
    RunFrom(s3, LATE_ANSWER, 3, Insert(0), Racing([Transaction(0, 0, 1, Inserted)], {}, [], 10));
  }

  lemma {:induction false} FirstCommitted()
    ensures Run(Racing([Transaction(0, 0, 1, Inserted)], {}, [], 10), LATE_ANSWER[4..]) == Run(SOLD, LATE_ANSWER[5..])
  {
    assert [Transaction(0, 0, 1, Inserted)][0 := Transaction(0, 0, 1, Ended)] == [Transaction(0, 0, 1, Ended)];
    assert {} + {Success(0, 0)} == {Success(0, 0)} && [] + [Sale(0, 1)] == [Sale(0, 1)];
    RunFrom(Racing([Transaction(0, 0, 1, Inserted)], {}, [], 10), LATE_ANSWER, 4, Commit(0), SOLD);
  }

  function Answered(calls: seq<Call>, replies: set<Reply>): State {
    SOLD.(key := None, checkingOut := false, completed := Some(0), calls := calls, replies := replies)
  }

  lemma {:induction false} FirstAnswered()
    ensures Run(SOLD, LATE_ANSWER[5..])
            == Run(Answered([Call(0, 1, false), Call(0, 1, true)], {Success(0, 0)}), LATE_ANSWER[6..])
  {
    RunFrom(SOLD, LATE_ANSWER, 5, Receive(Success(0, 0)),
      Answered([Call(0, 1, false), Call(0, 1, true)], {Success(0, 0)}));
  }

  const SECOND_ATTEMPT: State :=
    SOLD.(key := Some(1), nextKey := 2, calls := [Call(0, 1, false), Call(0, 1, true), Call(1, 5, true)])

  lemma {:induction false} SecondPressed()
    ensures Run(Answered([Call(0, 1, false), Call(0, 1, true)], {Success(0, 0)}), LATE_ANSWER[6..])
            == Run(SECOND_ATTEMPT, LATE_ANSWER[8..])
  {
    var s6 := Answered([Call(0, 1, false), Call(0, 1, true)], {Success(0, 0)});
    RunFrom(s6, LATE_ANSWER, 6, NewSale, s6.(completed := None));
    RunFrom(s6.(completed := None), LATE_ANSWER, 7, Press(5), SECOND_ATTEMPT);
  }

  lemma {:induction false} LateAnswerReceived()
    ensures var s := Run(SECOND_ATTEMPT, LATE_ANSWER[8..]);
            && s.key.None? && s.calls == [Call(0, 1, false), Call(0, 1, false), Call(1, 5, true)]
                 && s.sales == [Sale(0, 1)] && s.completed == Some(0)
  {
    var s9 := SECOND_ATTEMPT.(replies := {Success(0, 0), Success(1, 0)});
    assert FindSale([Sale(0, 1)], 0) == Some(0);
    assert {Success(0, 0)} + {Success(1, 0)} == {Success(0, 0), Success(1, 0)};
    RunFrom(SECOND_ATTEMPT, LATE_ANSWER, 8, Deliver(1), s9);
    RunFrom(s9, LATE_ANSWER, 9, Receive(Success(1, 0)), Next(s9, Receive(Success(1, 0))));
    assert LATE_ANSWER[10..] == [];
  }

  /** The disabled button is what this rests on: were calls allowed to overlap, a late answer to the
      first attempt would clear the key of the second, whose own call has not been answered and
      whose key no sale carries. */
  lemma {:induction false} OverlappingCallsClearTheWrongKey()
    ensures var s := Run(Start(10), LATE_ANSWER);
            && s.key.None? && s.calls == [Call(0, 1, false), Call(0, 1, false), Call(1, 5, true)]
            && FindSale(s.sales, 1).None? && s.completed == Some(0)
  {
    Pressed();
    PressedTwice();
    FirstDelivered();
    FirstInserted();
    FirstCommitted();
    FirstAnswered();
    SecondPressed();
    LateAnswerReceived();
  }

  /** A sale is committed, and the page is reloaded before its answer arrives. */
  const RELOADED: seq<Op> := [Press(1), Deliver(0), Insert(0), Commit(0), Reload]

  function Single(transactions: seq<Transaction>, replies: set<Reply>, sales: seq<Sale>, stock: int): State {
    State(Some(0), 1, true, None, [Call(0, 1, true)], transactions, replies, sales, stock, {})
  }

  lemma {:induction false} OneCallDelivered()
    ensures Run(Start(10), RELOADED) == Run(Single([Transaction(0, 0, 1, Checked)], {}, [], 10), RELOADED[2..])
  {
    var s1, s2 := Single([], {}, [], 10), Single([Transaction(0, 0, 1, Checked)], {}, [], 10);
    assert RELOADED[0..] == RELOADED;
    assert [] + [Transaction(0, 0, 1, Checked)] == [Transaction(0, 0, 1, Checked)];
    RunFrom(Start(10), RELOADED, 0, Press(1), s1);
    RunFrom(s1, RELOADED, 1, Deliver(0), s2);
  }

  lemma {:induction false} OneCallInserted()
    ensures Run(Single([Transaction(0, 0, 1, Checked)], {}, [], 10), RELOADED[2..])
            == Run(Single([Transaction(0, 0, 1, Inserted)], {}, [], 10), RELOADED[3..])
  {
    var s2, s3 :=
        Single([Transaction(0, 0, 1, Checked)], {}, [], 10), Single([Transaction(0, 0, 1, Inserted)], {}, [], 10);
    assert !HoldsKey(s2, 0) && FindSale([], 0).None?;
    assert s2.transactions[0 := Transaction(0, 0, 1, Inserted)] == s3.transactions;
    RunFrom(s2, RELOADED, 2, Insert(0), s3);
  }

  lemma {:induction false} OneCallCommitted()
    ensures Run(Single([Transaction(0, 0, 1, Inserted)], {}, [], 10), RELOADED[3..])
            == Run(Single([Transaction(0, 0, 1, Ended)], {Success(0, 0)}, [Sale(0, 1)], 9), RELOADED[4..])
  {
    var s3 := Single([Transaction(0, 0, 1, Inserted)], {}, [], 10);
    var s4 := Single([Transaction(0, 0, 1, Ended)], {Success(0, 0)}, [Sale(0, 1)], 9);
    assert {} + {Success(0, 0)} == {Success(0, 0)} && [] + [Sale(0, 1)] == [Sale(0, 1)];
    assert s3.transactions[0 := Transaction(0, 0, 1, Ended)] == s4.transactions;
    RunFrom(s3, RELOADED, 3, Commit(0), s4);
  }

  /** The key lives in the page: after a reload the till stands as before the attempt, its next one will
      carry another key, and the sale of the first is there all the same. */
  lemma {:induction false} ReloadForgetsASale()
    ensures var s := Run(Start(10), RELOADED);
            && Guarded(Start(10), RELOADED) && s.key.None? && s.completed.None? && ButtonEnabled(s)
            && s.nextKey == 1 && s.sales == [Sale(0, 1)] && s.abandoned == {0}
  {
    var s4 := Single([Transaction(0, 0, 1, Ended)], {Success(0, 0)}, [Sale(0, 1)], 9);
    OneCallDelivered();
    OneCallInserted();
    OneCallCommitted();
    RunFrom(s4, RELOADED, 4, Reload, Next(s4, Reload));
    assert RELOADED[5..] == [];
    OnePress();
  }

  /** It is pressed once, with the button enabled. */
  lemma {:induction false} OnePress()
    ensures Guarded(Start(10), RELOADED)
  {
    NoMorePresses(Next(Start(10), RELOADED[0]), RELOADED[1..]);
  }

  lemma {:induction false} NoMorePresses(s: State, ops: seq<Op>)
    requires forall i :: 0 <= i < |ops| ==> !ops[i].Press?
    ensures Guarded(s, ops)
    decreases |ops|
  {
    if ops != [] { NoMorePresses(if Enabled(s, ops[0]) then Next(s, ops[0]) else s, ops[1..]); }
  }

  // ---- The backfill of older rows -----------------------------------------------------------------

  function Digits(n: nat): (s: string)
    ensures |s| >= 1
  {
    if n < 10 then ["0123456789"[n]] else Digits(n / 10) + ["0123456789"[n % 10]]
  }

  lemma {:induction false} DigitsDiffer(a: nat, b: nat)
    requires a < 10 && b < 10 && "0123456789"[a] == "0123456789"[b]
    ensures a == b
  {
  }

  lemma {:induction false} DigitsInjective(a: nat, b: nat)
    requires Digits(a) == Digits(b)
    ensures a == b
  {
    var x, y := Digits(a), Digits(b);
    assert x[|x| - 1] == "0123456789"[a % 10] && y[|y| - 1] == "0123456789"[b % 10];
    DigitsDiffer(a % 10, b % 10);
    if a >= 10 && b >= 10 {
      assert x[..|x| - 1] == Digits(a / 10) && y[..|y| - 1] == Digits(b / 10);
      DigitsInjective(a / 10, b / 10);
    }
  }

  /** Rows that predate the key get one derived from their id; no two rows get the same. */
  function LegacyKey(id: nat): string {
    "legacy-" + Digits(id)
  }

  lemma {:induction false} BackfillCannotCollide(ids: seq<nat>, i: nat, j: nat)
    requires i < |ids| && j < |ids| && LegacyKey(ids[i]) == LegacyKey(ids[j])
    requires forall a, b :: 0 <= a < b < |ids| ==> ids[a] != ids[b]
    ensures i == j
  {
    assert LegacyKey(ids[i])[7..] == Digits(ids[i]) && LegacyKey(ids[j])[7..] == Digits(ids[j]);
    DigitsInjective(ids[i], ids[j]);
  }
}
