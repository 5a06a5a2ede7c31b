/** The double-entry ledger: journal entries and lines that only grow, the deferred balance trigger,
    reversal, closed periods, and the reports that sum lines.

    Rows are identified by their position in insertion order; amounts are whole ledger units. */
module Ledger {
  import opened Options
  import opened StoreAccess
  import opened Sums
  import JournalEntries

  datatype Entry = Entry(store: nat, date: int, kind: nat, source: Option<nat>, reversalOf: Option<nat>)

  datatype Line = Line(entry: nat, account: nat, debit: int, credit: int)

  /** A closed range of dates, both ends included. */
  datatype Period = Period(store: nat, start: int, end: int)

  datatype Journal = Journal(accounts: nat, entries: seq<Entry>, lines: seq<Line>, periods: seq<Period>)

  /** What a caller asks to post on one account. */
  datatype Spec = Spec(account: nat, debit: int, credit: int)

  /** The one source type no operation posts automatically. */
  const MANUAL: nat := 0

  datatype Error =
    | NOT_FOUND | STORE_ACCESS_DENIED | EMPTY_JOURNAL_ENTRY | PERIOD_CLOSED | ACCOUNTS_NOT_SEEDED
    | DUPLICATE_SOURCE | LINE_CHECK | UNBALANCED | OPERATIONAL_REVERSAL_REQUIRED | CANNOT_REVERSE_REVERSAL
    | INVALID_PERIOD_RANGE | PERIOD_OVERLAP

  datatype Outcome = Done(id: nat) | Existing(id: nat) | Rejected(error: Error)

  // ---- The trigger ----------------------------------------------------------------------------

  const ENTRY_OF: Line -> nat := (l: Line) => l.entry

  const ACCOUNT_OF: Line -> nat := (l: Line) => l.account

  const DEBIT: Line -> int := (l: Line) => l.debit

  const CREDIT: Line -> int := (l: Line) => l.credit

  const NET: Line -> int := (l: Line) => l.debit - l.credit

  function DebitSum(lines: seq<Line>, e: nat): int {
    Sum(lines, Group(ENTRY_OF, e, DEBIT))
  }

  function CreditSum(lines: seq<Line>, e: nat): int {
    Sum(lines, Group(ENTRY_OF, e, CREDIT))
  }

  predicate OneSided(l: Line) {
    JournalEntries.OneSided(JournalEntries.JournalLine(l.account, l.debit, l.credit))
  }

  predicate Touches(lines: seq<Line>, e: nat) {
    exists i :: 0 <= i < |lines| && lines[i].entry == e
  }

  /** What the trigger lets pass for one inserted row: its entry as it stands at commit. */
  predicate Accepted(lines: seq<Line>, e: nat) {
    Touches(lines, e) && DebitSum(lines, e) == CreditSum(lines, e) != 0
  }

  predicate TriggerAccepts(lines: seq<Line>, inserted: seq<Line>) {
    forall i :: 0 <= i < |inserted| ==> Accepted(lines, inserted[i].entry)
  }

  /** Every entry that has a line is balanced with a positive total. */
  ghost predicate AllBalanced(lines: seq<Line>) {
    forall e: nat :: Touches(lines, e) ==> DebitSum(lines, e) == CreditSum(lines, e) > 0
  }

  predicate AllOneSided(lines: seq<Line>) {
    forall i :: 0 <= i < |lines| ==> OneSided(lines[i])
  }

  lemma {:induction false} NotNegative(lines: seq<Line>, e: nat)
    requires AllOneSided(lines)
    ensures DebitSum(lines, e) >= 0 && CreditSum(lines, e) >= 0
  {
    SumNonNegative(lines, Group(ENTRY_OF, e, DEBIT));
    SumNonNegative(lines, Group(ENTRY_OF, e, CREDIT));
  }

  lemma {:induction false} UntouchedEntry(lines: seq<Line>, e: nat)
    requires !Touches(lines, e)
    ensures DebitSum(lines, e) == 0 == CreditSum(lines, e)
  {
    SumZero(lines, Group(ENTRY_OF, e, DEBIT));
    SumZero(lines, Group(ENTRY_OF, e, CREDIT));
  }

  lemma {:induction false} EntryAfterBatch(lines: seq<Line>, inserted: seq<Line>, e: nat)
    ensures DebitSum(lines + inserted, e) == DebitSum(lines, e) + DebitSum(inserted, e)
    ensures CreditSum(lines + inserted, e) == CreditSum(lines, e) + CreditSum(inserted, e)
    ensures Touches(lines + inserted, e) <==> Touches(lines, e) || Touches(inserted, e)
  {
    SumConcat(lines, inserted, Group(ENTRY_OF, e, DEBIT));
    SumConcat(lines, inserted, Group(ENTRY_OF, e, CREDIT));
    if i :| 0 <= i < |inserted| && inserted[i].entry == e {
      assert (lines + inserted)[|lines| + i].entry == e;
    }
    if i :| 0 <= i < |lines| && lines[i].entry == e {
      assert (lines + inserted)[i].entry == e;
    }
  }

  /** On a balanced ledger, checking only the entries the batch touches decides whether the whole
      resulting ledger is balanced. */
  lemma {:induction false} TriggerIffWholeLedger(lines: seq<Line>, inserted: seq<Line>)
    requires AllOneSided(lines + inserted) && AllBalanced(lines)
    ensures TriggerAccepts(lines + inserted, inserted) <==> AllBalanced(lines + inserted)
  {
    var all := lines + inserted;
    forall e: nat
      ensures TriggerAccepts(all, inserted) && Touches(all, e) ==> DebitSum(all, e) == CreditSum(all, e) > 0
    {
      EntryAfterBatch(lines, inserted, e);
      NotNegative(all, e);
      if !Touches(inserted, e) { UntouchedEntry(inserted, e); }
    }
    if AllBalanced(all) {
      forall i | 0 <= i < |inserted| ensures Accepted(all, inserted[i].entry) {
        assert all[|lines| + i] == inserted[i];
      }
    }
  }

  /** Neither the order of the rows nor their division into statements matters to the trigger. */
  lemma {:induction false} InsertOrderIrrelevant(lines: seq<Line>, a: seq<Line>, b: seq<Line>)
    requires multiset(a) == multiset(b)
    ensures TriggerAccepts(lines + a, a) <==> TriggerAccepts(lines + b, b)
  {
    TriggerReordered(lines, a, b);
    TriggerReordered(lines, b, a);
  }

  lemma {:induction false} TriggerReordered(lines: seq<Line>, a: seq<Line>, b: seq<Line>)
    requires multiset(a) == multiset(b)
    ensures TriggerAccepts(lines + a, a) ==> TriggerAccepts(lines + b, b)
  {
    if TriggerAccepts(lines + a, a) {
      forall i | 0 <= i < |b| ensures Accepted(lines + b, b[i].entry) {
        var e := b[i].entry;
        assert b[i] in multiset(a);
        var j :| 0 <= j < |a| && a[j] == b[i];
        assert Accepted(lines + a, a[j].entry);
        EntryAfterBatch(lines, a, e);
        EntryAfterBatch(lines, b, e);
        SumPermutation(a, b, Group(ENTRY_OF, e, DEBIT));
        SumPermutation(a, b, Group(ENTRY_OF, e, CREDIT));
      }
    }
  }

  /** One firing of the trigger re-aggregates the entry of its row. */
  method CheckEntryBalance(lines: seq<Line>, e: nat) returns (ok: bool)
    ensures ok <==> Accepted(lines, e)
  {
    var debitSum, creditSum, lineCount := 0, 0, 0;
    for i := 0 to |lines|
      invariant debitSum == DebitSum(lines[..i], e) && creditSum == CreditSum(lines[..i], e)
      invariant lineCount > 0 <==> Touches(lines[..i], e)
      invariant lineCount >= 0
    {
      assert lines[..i + 1] == lines[..i] + [lines[i]];
      SumAppend(lines[..i], lines[i], Group(ENTRY_OF, e, DEBIT));
      SumAppend(lines[..i], lines[i], Group(ENTRY_OF, e, CREDIT));
      if lines[i].entry == e {
        debitSum, creditSum, lineCount := debitSum + lines[i].debit, creditSum + lines[i].credit, lineCount + 1;
        assert lines[..i + 1][i].entry == e;
      } else {
        assert Touches(lines[..i], e) ==> Touches(lines[..i + 1], e) by {
          if k :| 0 <= k < i && lines[..i][k].entry == e { assert lines[..i + 1][k].entry == e; }
        }
      }
    }
    assert lines[..|lines|] == lines;
    ok := lineCount != 0 && debitSum == creditSum && debitSum != 0;
  }

  /** The deferred trigger fires once per inserted row, at commit. */
  method DeferredChecks(lines: seq<Line>, inserted: seq<Line>) returns (ok: bool)
    ensures ok <==> TriggerAccepts(lines, inserted)
  {
    for i := 0 to |inserted|
      invariant TriggerAccepts(lines, inserted[..i])
    {
      var pass := CheckEntryBalance(lines, inserted[i].entry);
      if !pass { return false; }
    }
    assert inserted[..|inserted|] == inserted;
    ok := true;
  }

  /** Transactions against the tables themselves: any rows for any entries, old or new. */
  function CommitBatch(lines: seq<Line>, inserted: seq<Line>): seq<Line> {
    if AllOneSided(inserted) && TriggerAccepts(lines + inserted, inserted) then lines + inserted else lines
  }

  function CommitAll(lines: seq<Line>, batches: seq<seq<Line>>): seq<Line>
    decreases |batches|
  {
    if batches == [] then lines else CommitAll(CommitBatch(lines, batches[0]), batches[1..])
  }

  /** Every committed state of every run is balanced. */
  lemma {:induction false} EveryCommitBalanced(lines: seq<Line>, batches: seq<seq<Line>>)
    requires AllOneSided(lines) && AllBalanced(lines)
    ensures AllOneSided(CommitAll(lines, batches)) && AllBalanced(CommitAll(lines, batches))
    decreases |batches|
  {
    if batches != [] {
      if AllOneSided(batches[0]) { TriggerIffWholeLedger(lines, batches[0]); }
      EveryCommitBalanced(CommitBatch(lines, batches[0]), batches[1..]);
    }
  }

  /** A batch is committed, all of it, if and only if each of its lines has one positive side and the whole ledger
      is balanced with it. */
  lemma {:induction false} CommitsIff(lines: seq<Line>, inserted: seq<Line>)
    requires AllOneSided(lines) && AllBalanced(lines)
    ensures CommitBatch(lines, inserted)
            == if (forall i :: 0 <= i < |inserted| ==>
                     (inserted[i].debit > 0 && inserted[i].credit == 0)
                     || (inserted[i].debit == 0 && inserted[i].credit > 0))
                  && AllBalanced(lines + inserted)
               then lines + inserted else lines
  {
    assert AllOneSided(inserted) <==>
        forall i :: 0 <= i < |inserted| ==>
          (inserted[i].debit > 0 && inserted[i].credit == 0) || (inserted[i].debit == 0 && inserted[i].credit > 0);
    if AllOneSided(inserted) { TriggerIffWholeLedger(lines, inserted); }
  }

  // ---- Reports ---------------------------------------------------------------------------------

  /** A measure restricted to lines whose whole entry a filter selects. */
  function Selected(entries: seq<Entry>, keep: Entry -> bool, measure: Line -> int): Line -> int {
    (l: Line) => if l.entry < |entries| && keep(entries[l.entry]) then measure(l) else 0
  }

  predicate References(entries: nat, accounts: nat, lines: seq<Line>) {
    forall i :: 0 <= i < |lines| ==> lines[i].entry < entries && lines[i].account < accounts
  }

  /** For any filter that selects entries, such as stores and dates, debits equal credits. */
  lemma {:induction false} FilteredTotalsAgree(entries: seq<Entry>, lines: seq<Line>, keep: Entry -> bool)
    requires forall i :: 0 <= i < |lines| ==> lines[i].entry < |entries|
    requires forall e: nat :: e < |entries| ==> DebitSum(lines, e) == CreditSum(lines, e)
    ensures Sum(lines, Selected(entries, keep, DEBIT)) == Sum(lines, Selected(entries, keep, CREDIT))
  {
    var net := Selected(entries, keep, NET);
    var totals := seq(|entries|, e => 0);
    forall e: nat | e < |entries| ensures totals[e] == Sum(lines, Group(ENTRY_OF, e, net)) {
      SumAdd(lines, Group(ENTRY_OF, e, DEBIT), Group(ENTRY_OF, e, CREDIT), Group(ENTRY_OF, e, NET));
      assert Sum(lines, Group(ENTRY_OF, e, NET)) == DebitSum(lines, e) - CreditSum(lines, e) == 0;
      assert totals[e] == 0;
      if keep(entries[e]) {
        SumSame(lines, lines, Group(ENTRY_OF, e, net), Group(ENTRY_OF, e, NET));
      } else {
        SumZero(lines, Group(ENTRY_OF, e, net));
      }
    }
    GroupTotals(lines, ENTRY_OF, net, totals);
    SumZero(totals, Identity);
    SumAdd(lines, Selected(entries, keep, DEBIT), Selected(entries, keep, CREDIT), net);
  }

  datatype TrialRow = TrialRow(debit: int, credit: int)

  /** An account that the report leaves out counts for nothing. */
  function RowDebit(r: Option<TrialRow>): int {
    if r.Some? then r.value.debit else 0
  }

  function RowCredit(r: Option<TrialRow>): int {
    if r.Some? then r.value.credit else 0
  }

  predicate HasLine(lines: seq<Line>, a: nat) {
    exists i :: 0 <= i < |lines| && lines[i].account == a
  }

  predicate HasSelectedLine(entries: seq<Entry>, lines: seq<Line>, keep: Entry -> bool, a: nat) {
    exists i :: 0 <= i < |lines| && lines[i].account == a && lines[i].entry < |entries| && keep(entries[lines[i].entry])
  }

  /** The filter keeps an account that was never posted to, and drops one whose every entry lies
      outside the filter. */
  predicate Listed(entries: seq<Entry>, lines: seq<Line>, keep: Entry -> bool, a: nat) {
    !HasLine(lines, a) || HasSelectedLine(entries, lines, keep, a)
  }

  /** The report as it should read: which accounts it lists, and their selected totals. */
  ghost predicate IsTrialBalance(entries: seq<Entry>, lines: seq<Line>, keep: Entry -> bool,
      rows: seq<Option<TrialRow>>) {
    forall a: nat :: a < |rows| ==>
      && (rows[a].Some? <==> Listed(entries, lines, keep, a))
      && (rows[a].Some? ==>
            && rows[a].value.debit == Sum(lines, Group(ACCOUNT_OF, a, Selected(entries, keep, DEBIT)))
            && rows[a].value.credit == Sum(lines, Group(ACCOUNT_OF, a, Selected(entries, keep, CREDIT))))
  }

  lemma {:induction false} OneMoreLine(entries: seq<Entry>, lines: seq<Line>, keep: Entry -> bool, n: nat, a: nat)
    requires n < |lines| && lines[n].entry < |entries|
    ensures HasLine(lines[..n + 1], a) <==> HasLine(lines[..n], a) || lines[n].account == a
    ensures HasSelectedLine(entries, lines[..n + 1], keep, a)
            <==> HasSelectedLine(entries, lines[..n], keep, a)
                 || (lines[n].account == a && keep(entries[lines[n].entry]))
  {
    var all, before := lines[..n + 1], lines[..n];
    assert all[n] == lines[n] && forall i :: 0 <= i < n ==> all[i] == before[i];
  }

  lemma {:induction false} OneMoreAmount(entries: seq<Entry>, lines: seq<Line>, keep: Entry -> bool, n: nat, a: nat,
      measure: Line -> int)
    requires n < |lines|
    ensures Sum(lines[..n + 1], Group(ACCOUNT_OF, a, Selected(entries, keep, measure)))
            == Sum(lines[..n], Group(ACCOUNT_OF, a, Selected(entries, keep, measure)))
               + Group(ACCOUNT_OF, a, Selected(entries, keep, measure))(lines[n])
  {
    assert lines[..n + 1] == lines[..n] + [lines[n]];
    SumAppend(lines[..n], lines[n], Group(ACCOUNT_OF, a, Selected(entries, keep, measure)));
  }

  /** Rows as accumulated over the first `n` lines: only accounts with a selected line have one yet. */
  ghost predicate Accumulated(entries: seq<Entry>, lines: seq<Line>, keep: Entry -> bool, rows: seq<Option<TrialRow>>) {
    forall a: nat :: a < |rows| ==>
      && (rows[a].Some? <==> HasSelectedLine(entries, lines, keep, a))
      && RowDebit(rows[a]) == Sum(lines, Group(ACCOUNT_OF, a, Selected(entries, keep, DEBIT)))
      && RowCredit(rows[a]) == Sum(lines, Group(ACCOUNT_OF, a, Selected(entries, keep, CREDIT)))
  }

  /** `keep` is the store and date filter on entries. */
  method TrialBalance(accounts: nat, entries: seq<Entry>, lines: seq<Line>, keep: Entry -> bool)
      returns (rows: seq<Option<TrialRow>>)
    requires References(|entries|, accounts, lines)
    ensures |rows| == accounts && IsTrialBalance(entries, lines, keep, rows)
  {
    rows := seq(accounts, a => None);
    var posted := seq(accounts, a => false);
    for i := 0 to |lines|
      invariant |rows| == |posted| == accounts
      invariant forall a: nat :: a < accounts ==> (posted[a] <==> HasLine(lines[..i], a))
      invariant Accumulated(entries, lines[..i], keep, rows)
    {
      var l := lines[i];
      forall a: nat { OneMoreLine(entries, lines, keep, i, a); }
      forall a: nat { OneMoreAmount(entries, lines, keep, i, a, DEBIT); }
      forall a: nat { OneMoreAmount(entries, lines, keep, i, a, CREDIT); }
      posted := posted[l.account := true];
      if keep(entries[l.entry]) {
        var row := rows[l.account];
        rows := rows[l.account := Some(TrialRow(RowDebit(row) + l.debit, RowCredit(row) + l.credit))];
      }
    }
    assert lines[..|lines|] == lines;
    rows := seq(accounts, a requires 0 <= a < accounts => if posted[a] then rows[a] else Some(TrialRow(0, 0)));
    forall a: nat | a < accounts && !posted[a] ensures !HasSelectedLine(entries, lines, keep, a) { }
  }

  /** An account that is left out has nothing in the selected entries. */
  lemma {:induction false} LeftOutIsZero(entries: seq<Entry>, lines: seq<Line>, keep: Entry -> bool, a: nat,
      measure: Line -> int)
    requires !HasSelectedLine(entries, lines, keep, a)
    ensures Sum(lines, Group(ACCOUNT_OF, a, Selected(entries, keep, measure))) == 0
  {
    SumZero(lines, Group(ACCOUNT_OF, a, Selected(entries, keep, measure)));
  }

  /** Totalled over the accounts it lists, a trial balance of a balanced ledger has equal columns, each
      the total of the selected lines. */
  lemma {:induction false} TrialBalanceBalances(entries: seq<Entry>, lines: seq<Line>, keep: Entry -> bool,
      rows: seq<Option<TrialRow>>)
    requires References(|entries|, |rows|, lines) && IsTrialBalance(entries, lines, keep, rows)
    requires forall e: nat :: e < |entries| ==> DebitSum(lines, e) == CreditSum(lines, e)
    ensures Sum(rows, RowDebit) == Sum(rows, RowCredit) == Sum(lines, Selected(entries, keep, DEBIT))
  {
    forall a: nat | a < |rows|
      ensures Values(rows, RowDebit)[a] == Sum(lines, Group(ACCOUNT_OF, a, Selected(entries, keep, DEBIT)))
      ensures Values(rows, RowCredit)[a] == Sum(lines, Group(ACCOUNT_OF, a, Selected(entries, keep, CREDIT)))
    {
      if !Listed(entries, lines, keep, a) {
        LeftOutIsZero(entries, lines, keep, a, DEBIT);
        LeftOutIsZero(entries, lines, keep, a, CREDIT);
      }
    }
    GroupTotals(lines, ACCOUNT_OF, Selected(entries, keep, DEBIT), Values(rows, RowDebit));
    GroupTotals(lines, ACCOUNT_OF, Selected(entries, keep, CREDIT), Values(rows, RowCredit));
    ValuesSum(rows, RowDebit);
    ValuesSum(rows, RowCredit);
    FilteredTotalsAgree(entries, lines, keep);
  }

  /** Whatever the filter, an account that was never posted to is listed; one that was is listed under
      every filter only if it has a line under each: here a filter on another store drops it. */
  lemma {:induction false} PostedAccountDropped(e: Entry, store: nat)
    requires e.store != store
    ensures var lines := [Line(0, 0, 5, 0), Line(0, 1, 0, 5)];
            var keep := (x: Entry) => x.store == store;
            !Listed([e], lines, keep, 0) && !Listed([e], lines, keep, 1) && Listed([e], lines, keep, 2)
  {
    var lines := [Line(0, 0, 5, 0), Line(0, 1, 0, 5)];
    assert lines[0].account == 0 && lines[1].account == 1;
    assert HasLine(lines, 0) && HasLine(lines, 1);
  }

  /** The number of entries whose lines do not balance. */
  method ImbalanceCount(entries: nat, lines: seq<Line>) returns (n: nat)
    ensures n == 0 <==> forall e: nat :: e < entries ==> DebitSum(lines, e) == CreditSum(lines, e)
  {
    n := 0;
    for e := 0 to entries
      invariant n == 0 <==> forall k: nat :: k < e ==> DebitSum(lines, k) == CreditSum(lines, k)
    {
      if DebitSum(lines, e) != CreditSum(lines, e) { n := n + 1; }
    }
  }

  /** No imbalanced entry forces the ledger's debit total to equal its credit total. */
  lemma {:induction false} NoImbalanceTotalsAgree(entries: seq<Entry>, lines: seq<Line>)
    requires forall i :: 0 <= i < |lines| ==> lines[i].entry < |entries|
    requires forall e: nat :: e < |entries| ==> DebitSum(lines, e) == CreditSum(lines, e)
    ensures Sum(lines, DEBIT) == Sum(lines, CREDIT)
  {
    var all := (e: Entry) => true;
    FilteredTotalsAgree(entries, lines, all);
    SumSame(lines, lines, Selected(entries, all, DEBIT), DEBIT);
    SumSame(lines, lines, Selected(entries, all, CREDIT), CREDIT);
  }

  /** Equal totals do not mean that no entry is imbalanced: the snapshot needs both figures. */
  lemma {:induction false} EqualTotalsProveLittle()
    ensures var lines := [Line(0, 0, 5, 0), Line(1, 0, 0, 5)];
            && Sum(lines, DEBIT) == Sum(lines, CREDIT)
            && DebitSum(lines, 0) != CreditSum(lines, 0) && DebitSum(lines, 1) != CreditSum(lines, 1)
  {
    var a, b := Line(0, 0, 5, 0), Line(1, 0, 0, 5);
    assert [a, b] == [a] + [b];
    forall f: Line -> int ensures Sum([a, b], f) == f(a) + f(b) {
      SumAppend([a], b, f);
      SumAppend([], a, f);
      assert [] + [a] == [a];
    }
  }

  // ---- The posting service ----------------------------------------------------------------------

  predicate Closed(periods: seq<Period>, store: nat, date: int) {
    exists k :: 0 <= k < |periods| && periods[k].store == store && periods[k].start <= date <= periods[k].end
  }

  predicate Overlaps(p: Period, q: Period) {
    p.store == q.store && p.start <= q.end && q.start <= p.end
  }

  predicate SourcePosted(entries: seq<Entry>, kind: nat, source: Option<nat>) {
    source.Some?
    && exists e :: 0 <= e < |entries| && entries[e].kind == kind && entries[e].source == source
         && entries[e].reversalOf.None?
  }

  function LinesOf(e: nat, specs: seq<Spec>): (lines: seq<Line>)
    ensures |lines| == |specs|
    ensures forall i :: 0 <= i < |lines| ==> lines[i] == Line(e, specs[i].account, specs[i].debit, specs[i].credit)
  {
    seq(|specs|, i requires 0 <= i < |specs| => Line(e, specs[i].account, specs[i].debit, specs[i].credit))
  }

  function Append(j: Journal, entry: Entry, lines: seq<Line>): Journal {
    j.(entries := j.entries + [entry], lines := j.lines + lines)
  }

  function PostEntry(j: Journal, store: nat, date: int, kind: nat, source: Option<nat>,
      specs: seq<Spec>): (Journal, Outcome) {
    var id := |j.entries|;
    var lines := LinesOf(id, specs);
    if specs == [] then (j, Rejected(EMPTY_JOURNAL_ENTRY))
    else if Closed(j.periods, store, date) then (j, Rejected(PERIOD_CLOSED))
    else if exists i :: 0 <= i < |specs| && specs[i].account >= j.accounts then (j, Rejected(ACCOUNTS_NOT_SEEDED))
    else if SourcePosted(j.entries, kind, source) then (j, Rejected(DUPLICATE_SOURCE))
    else if !AllOneSided(lines) then (j, Rejected(LINE_CHECK))
    else if !TriggerAccepts(j.lines + lines, lines) then (j, Rejected(UNBALANCED))
    else (Append(j, Entry(store, date, kind, source, None), lines), Done(id))
  }

  /** The lines of entry `e` with debit and credit swapped, as lines of entry `id`. */
  function Mirror(lines: seq<Line>, e: nat, id: nat): seq<Line> {
    if lines == [] then []
    else
      var l := lines[|lines| - 1];
      Mirror(lines[..|lines| - 1], e, id) + if l.entry == e then [Line(id, l.account, l.credit, l.debit)] else []
  }

  function FindReversal(entries: seq<Entry>, e: nat): (r: Option<nat>)
    ensures r.Some? ==> r.value < |entries| && entries[r.value].reversalOf == Some(e)
    ensures r.None? ==> forall k :: 0 <= k < |entries| ==> entries[k].reversalOf != Some(e)
  {
    if entries == [] then None
    else if entries[|entries| - 1].reversalOf == Some(e) then Some(|entries| - 1)
    else FindReversal(entries[..|entries| - 1], e)
  }

  function ReverseEntry(j: Journal, caller: Option<nat>, e: nat, today: int): (Journal, Outcome) {
    if e >= |j.entries| then (j, Rejected(NOT_FOUND))
    else
      var row := j.entries[e];
      if Denied(caller, row.store) then (j, Rejected(STORE_ACCESS_DENIED))
      else if row.kind != MANUAL then (j, Rejected(OPERATIONAL_REVERSAL_REQUIRED))
      else if row.reversalOf.Some? then (j, Rejected(CANNOT_REVERSE_REVERSAL))
      else if FindReversal(j.entries, e).Some? then (j, Existing(FindReversal(j.entries, e).value))
      else if !Touches(j.lines, e) then (j, Rejected(EMPTY_JOURNAL_ENTRY))
      else if Closed(j.periods, row.store, today) then (j, Rejected(PERIOD_CLOSED))
      else (Append(j, Entry(row.store, today, row.kind, row.source, Some(e)), Mirror(j.lines, e, |j.entries|)),
        Done(|j.entries|))
  }

  function ClosePeriod(j: Journal, caller: Option<nat>, p: Period): (Journal, Outcome) {
    if Denied(caller, p.store) then (j, Rejected(STORE_ACCESS_DENIED))
    else if p.end < p.start then (j, Rejected(INVALID_PERIOD_RANGE))
    else if exists k :: 0 <= k < |j.periods| && Overlaps(j.periods[k], p) then (j, Rejected(PERIOD_OVERLAP))
    else (j.(periods := j.periods + [p]), Done(|j.periods|))
  }

  datatype Op =
    | OpPost(store: nat, date: int, kind: nat, source: Option<nat>, specs: seq<Spec>)
    | OpReverse(caller: Option<nat>, e: nat, today: int)
    | OpClose(caller: Option<nat>, p: Period)

  function Apply(j: Journal, op: Op): Journal {
    match op
    case OpPost(store, date, kind, source, specs) => PostEntry(j, store, date, kind, source, specs).0
    case OpReverse(caller, e, today) => ReverseEntry(j, caller, e, today).0
    case OpClose(caller, p) => ClosePeriod(j, caller, p).0
  }

  function Run(j: Journal, ops: seq<Op>): Journal
    decreases |ops|
  {
    if ops == [] then j else Run(Apply(j, ops[0]), ops[1..])
  }

  // ---- What every run keeps -------------------------------------------------------------------

  function EntryNetOn(e: nat, a: nat): Line -> int {
    (l: Line) => if l.entry == e && l.account == a then l.debit - l.credit else 0
  }

  /** A reversal undoes its original on every account; neither a reversal nor a reversed entry is
      reversed again. */
  ghost predicate ReversalSound(j: Journal, r: nat)
    requires r < |j.entries|
  {
    j.entries[r].reversalOf.Some? ==>
      var e := j.entries[r].reversalOf.value;
      && e < r && j.entries[e].reversalOf.None? && j.entries[e].kind == j.entries[r].kind == MANUAL
      && (forall a: nat :: Sum(j.lines, EntryNetOn(e, a)) + Sum(j.lines, EntryNetOn(r, a)) == 0)
      && (forall s :: 0 <= s < |j.entries| && j.entries[s].reversalOf == Some(e) ==> s == r)
  }

  ghost predicate Sound(j: Journal) {
    && References(|j.entries|, j.accounts, j.lines)
    && AllOneSided(j.lines) && AllBalanced(j.lines)
    && (forall e: nat :: e < |j.entries| ==> Touches(j.lines, e) && ReversalSound(j, e))
    && (forall d, e :: 0 <= d < e < |j.entries| && j.entries[d].reversalOf.None? && j.entries[e].reversalOf.None?
                       && j.entries[d].source.Some? ==>
          !(j.entries[d].kind == j.entries[e].kind && j.entries[d].source == j.entries[e].source))
    && (forall p :: 0 <= p < |j.periods| ==> j.periods[p].start <= j.periods[p].end)
    && (forall p, q :: 0 <= p < q < |j.periods| ==> !Overlaps(j.periods[p], j.periods[q]))
  }

  lemma {:induction false} MirrorSums(lines: seq<Line>, e: nat, id: nat)
    ensures DebitSum(Mirror(lines, e, id), id) == CreditSum(lines, e)
    ensures CreditSum(Mirror(lines, e, id), id) == DebitSum(lines, e)
    ensures forall a: nat :: Sum(Mirror(lines, e, id), EntryNetOn(id, a)) == -Sum(lines, EntryNetOn(e, a))
    ensures forall i :: 0 <= i < |Mirror(lines, e, id)| ==> Mirror(lines, e, id)[i].entry == id
    ensures Touches(lines, e) <==> Mirror(lines, e, id) != []
  {
    if lines != [] {
      var rest, l := lines[..|lines| - 1], lines[|lines| - 1];
      assert lines == rest + [l];
      MirrorSums(rest, e, id);
      assert l.entry != e ==> Mirror(lines, e, id) == Mirror(rest, e, id);
      SumAppend(rest, l, Group(ENTRY_OF, e, DEBIT));
      SumAppend(rest, l, Group(ENTRY_OF, e, CREDIT));
      EntryAfterBatch(rest, [l], e);
      forall a: nat ensures Sum(Mirror(lines, e, id), EntryNetOn(id, a)) == -Sum(lines, EntryNetOn(e, a)) {
        SumAppend(rest, l, EntryNetOn(e, a));
        if l.entry == e { SumAppend(Mirror(rest, e, id), Line(id, l.account, l.credit, l.debit), EntryNetOn(id, a)); }
      }
      if l.entry == e {
        assert [l][0].entry == e;
        SumAppend(Mirror(rest, e, id), Line(id, l.account, l.credit, l.debit), Group(ENTRY_OF, id, DEBIT));
        SumAppend(Mirror(rest, e, id), Line(id, l.account, l.credit, l.debit), Group(ENTRY_OF, id, CREDIT));
      }
    }
  }

  lemma {:induction false} MirrorRows(lines: seq<Line>, e: nat, id: nat, accounts: nat)
    requires AllOneSided(lines) && forall i :: 0 <= i < |lines| ==> lines[i].account < accounts
    ensures AllOneSided(Mirror(lines, e, id))
    ensures forall i :: 0 <= i < |Mirror(lines, e, id)| ==> Mirror(lines, e, id)[i].account < accounts
  {
    if lines != [] { MirrorRows(lines[..|lines| - 1], e, id, accounts); }
  }

  /** A reversal never meets the balance trigger: its entry is balanced because the original is. */
  lemma {:induction false} ReversalAccepted(j: Journal, e: nat)
    requires Sound(j) && e < |j.entries|
    ensures var mirror := Mirror(j.lines, e, |j.entries|);
            AllOneSided(mirror) && TriggerAccepts(j.lines + mirror, mirror)
  {
    var id := |j.entries|;
    MirrorSums(j.lines, e, id);
    MirrorRows(j.lines, e, id, j.accounts);
    EntryAfterBatch(j.lines, Mirror(j.lines, e, id), id);
    UntouchedEntry(j.lines, id);
    if Mirror(j.lines, e, id) != [] { assert Mirror(j.lines, e, id)[0].entry == id; }
  }

  /** What adding one more entry with its own lines leaves as it was. */
  lemma {:induction false} OldNetsKept(j: Journal, lines: seq<Line>, e: nat, a: nat)
    requires forall i :: 0 <= i < |lines| ==> lines[i].entry == |j.entries|
    requires e < |j.entries|
    ensures Sum(j.lines + lines, EntryNetOn(e, a)) == Sum(j.lines, EntryNetOn(e, a))
  {
    SumConcat(j.lines, lines, EntryNetOn(e, a));
    SumZero(lines, EntryNetOn(e, a));
  }

  lemma {:induction false} AppendSound(j: Journal, entry: Entry, lines: seq<Line>)
    requires Sound(j) && lines != []
    requires forall i :: 0 <= i < |lines| ==> lines[i].entry == |j.entries| && lines[i].account < j.accounts
    requires AllOneSided(lines) && TriggerAccepts(j.lines + lines, lines)
    requires entry.reversalOf.None? ==> !SourcePosted(j.entries, entry.kind, entry.source)
    requires forall e: nat :: entry.reversalOf == Some(e) ==>
               && e < |j.entries| && j.entries[e].reversalOf.None? && j.entries[e].kind == entry.kind == MANUAL
               && FindReversal(j.entries, e).None?
               && lines == Mirror(j.lines, e, |j.entries|)
    ensures Sound(Append(j, entry, lines))
  {
    var after, id := Append(j, entry, lines), |j.entries|;
    TriggerIffWholeLedger(j.lines, lines);
    forall e: nat | e < |after.entries| ensures Touches(after.lines, e) {
      EntryAfterBatch(j.lines, lines, e);
      if e == id { assert lines[0].entry == id; }
    }
    forall r: nat | r < |after.entries| ensures ReversalSound(after, r) {
      if r < id {
        assert ReversalSound(j, r);
        AppendKeepsReversal(j, entry, lines, r);
      } else {
        NewReversalSound(j, entry, lines);
      }
    }
  }

  lemma {:induction false} AppendKeepsReversal(j: Journal, entry: Entry, lines: seq<Line>, r: nat)
    requires r < |j.entries| && ReversalSound(j, r)
    requires forall i :: 0 <= i < |lines| ==> lines[i].entry == |j.entries|
    requires forall e: nat :: entry.reversalOf == Some(e) ==> FindReversal(j.entries, e).None?
    ensures ReversalSound(Append(j, entry, lines), r)
  {
    if j.entries[r].reversalOf.Some? {
      var e := j.entries[r].reversalOf.value;
      forall a: nat ensures Sum(j.lines + lines, EntryNetOn(e, a)) + Sum(j.lines + lines, EntryNetOn(r, a)) == 0 {
        OldNetsKept(j, lines, e, a);
        OldNetsKept(j, lines, r, a);
      }
    }
  }

  lemma {:induction false} NewReversalSound(j: Journal, entry: Entry, lines: seq<Line>)
    requires Sound(j)
    requires forall i :: 0 <= i < |lines| ==> lines[i].entry == |j.entries|
    requires forall e: nat :: entry.reversalOf == Some(e) ==>
               && e < |j.entries| && j.entries[e].reversalOf.None? && j.entries[e].kind == entry.kind == MANUAL
               && FindReversal(j.entries, e).None?
               && lines == Mirror(j.lines, e, |j.entries|)
    ensures ReversalSound(Append(j, entry, lines), |j.entries|)
  {
    var id := |j.entries|;
    if entry.reversalOf.Some? {
      var e := entry.reversalOf.value;
      MirrorSums(j.lines, e, id);
      forall a: nat ensures Sum(j.lines + lines, EntryNetOn(e, a)) + Sum(j.lines + lines, EntryNetOn(id, a)) == 0 {
        OldNetsKept(j, lines, e, a);
        SumConcat(j.lines, lines, EntryNetOn(id, a));
        SumZero(j.lines, EntryNetOn(id, a));
      }
    }
  }

  lemma {:induction false} ApplySound(j: Journal, op: Op)
    requires Sound(j)
    ensures Sound(Apply(j, op))
  {
    match op
    case OpPost(store, date, kind, source, specs) =>
      if PostEntry(j, store, date, kind, source, specs).1.Done? {
        AppendSound(j, Entry(store, date, kind, source, None), LinesOf(|j.entries|, specs));
      }
    case OpReverse(caller, e, today) =>
      if ReverseEntry(j, caller, e, today).1.Done? {
        var row, mirror := j.entries[e], Mirror(j.lines, e, |j.entries|);
        ReversalAccepted(j, e);
        MirrorSums(j.lines, e, |j.entries|);
        MirrorRows(j.lines, e, |j.entries|, j.accounts);
        AppendSound(j, Entry(row.store, today, row.kind, row.source, Some(e)), mirror);
      }
    case OpClose(caller, p) =>
      forall e: nat | e < |j.entries| ensures ReversalSound(Apply(j, op), e) {
        assert ReversalSound(j, e);
      }
  }

  /** Over every run of the service the ledger is balanced, no entry is empty, each source is posted
      once, each entry reversed at most once and exactly, and closed periods never overlap. */
  lemma {:induction false} RunSound(j: Journal, ops: seq<Op>)
    requires Sound(j)
    ensures Sound(Run(j, ops))
    decreases |ops|
  {
    if ops != [] {
      ApplySound(j, ops[0]);
      RunSound(Apply(j, ops[0]), ops[1..]);
    }
  }

  // ---- What each operation admits and does --------------------------------------------------------

  function SpecDebit(x: Spec): int {
    x.debit
  }

  function SpecCredit(x: Spec): int {
    x.credit
  }

  function SpecDebitOn(a: nat): Spec -> int {
    (x: Spec) => if x.account == a then x.debit else 0
  }

  function SpecCreditOn(a: nat): Spec -> int {
    (x: Spec) => if x.account == a then x.credit else 0
  }

  function SpecNetOn(a: nat): Spec -> int {
    (x: Spec) => if x.account == a then x.debit - x.credit else 0
  }

  function LineNetOn(a: nat): Line -> int {
    (l: Line) => if l.account == a then l.debit - l.credit else 0
  }

  /** A date in a closed period of the store. */
  predicate InClosedPeriod(j: Journal, store: nat, date: int) {
    exists k :: 0 <= k < |j.periods|
                && j.periods[k].store == store && j.periods[k].start <= date && date <= j.periods[k].end
  }

  /** Another entry, not a reversal, that was posted for the same source. */
  predicate SourceTaken(j: Journal, kind: nat, source: Option<nat>) {
    exists e :: 0 <= e < |j.entries| && source.Some?
                && j.entries[e] == Entry(j.entries[e].store, j.entries[e].date, kind, source, None)
  }

  predicate SpecsOneSided(specs: seq<Spec>) {
    forall i :: 0 <= i < |specs| ==>
      (specs[i].debit > 0 && specs[i].credit == 0) || (specs[i].debit == 0 && specs[i].credit > 0)
  }

  lemma {:induction false} LinesOfSum(id: nat, specs: seq<Spec>, f: Line -> int, g: Spec -> int)
    requires forall x: Spec :: f(Line(id, x.account, x.debit, x.credit)) == g(x)
    ensures Sum(LinesOf(id, specs), f) == Sum(specs, g)
  {
    SumSame(LinesOf(id, specs), specs, f, g);
  }

  /** The trigger's verdict on a new entry is that its two sides agree. */
  lemma {:induction false} NewEntryAccepted(j: Journal, specs: seq<Spec>)
    requires References(|j.entries|, j.accounts, j.lines) && specs != [] && SpecsOneSided(specs)
    ensures var lines := LinesOf(|j.entries|, specs);
            TriggerAccepts(j.lines + lines, lines) <==> Sum(specs, SpecDebit) == Sum(specs, SpecCredit)
  {
    var id := |j.entries|;
    var lines := LinesOf(id, specs);
    SumConcat(j.lines, lines, Group(ENTRY_OF, id, DEBIT));
    SumConcat(j.lines, lines, Group(ENTRY_OF, id, CREDIT));
    SumZero(j.lines, Group(ENTRY_OF, id, DEBIT));
    SumZero(j.lines, Group(ENTRY_OF, id, CREDIT));
    LinesOfSum(id, specs, Group(ENTRY_OF, id, DEBIT), SpecDebit);
    LinesOfSum(id, specs, Group(ENTRY_OF, id, CREDIT), SpecCredit);
    SumNonNegative(specs, SpecDebit);
    SumNonNegative(specs, SpecCredit);
    assert SpecDebit(specs[0]) > 0 || SpecCredit(specs[0]) > 0;
    assert lines[0].entry == id && (j.lines + lines)[|j.lines|] == lines[0];
    assert forall i :: 0 <= i < |lines| ==> lines[i].entry == id;
  }

  /** A posting is accepted if and only if it has lines, each with one positive side, whose debits equal
      their credits, on known accounts, in an open period, for a source not yet posted.  Otherwise nothing
      changes. */
  lemma {:induction false} PostDoneIff(j: Journal, store: nat, date: int, kind: nat, source: Option<nat>,
      specs: seq<Spec>)
    requires Sound(j)
    ensures var (after, o) := PostEntry(j, store, date, kind, source, specs);
            && (o.Done? <==>
                  && specs != [] && SpecsOneSided(specs) && Sum(specs, SpecDebit) == Sum(specs, SpecCredit)
                  && (forall i :: 0 <= i < |specs| ==> specs[i].account < j.accounts)
                  && !InClosedPeriod(j, store, date) && !SourceTaken(j, kind, source))
            && (!o.Done? ==> after == j && o.Rejected?)
            && (o == Rejected(PERIOD_CLOSED) <==> specs != [] && InClosedPeriod(j, store, date))
  {
    var lines := LinesOf(|j.entries|, specs);
    assert SpecsOneSided(specs) <==> AllOneSided(lines) by {
      forall i | 0 <= i < |specs|
        ensures OneSided(lines[i]) <==>
                (specs[i].debit > 0 && specs[i].credit == 0) || (specs[i].debit == 0 && specs[i].credit > 0)
      {
      }
    }
    assert SourceTaken(j, kind, source) <==> SourcePosted(j.entries, kind, source);
    if specs != [] && SpecsOneSided(specs) { NewEntryAccepted(j, specs); }
  }

  /** What a refused posting is refused for: the first of these that holds, or else that it does not balance. */
  lemma {:induction false} PostRefusedFor(j: Journal, store: nat, date: int, kind: nat, source: Option<nat>,
      specs: seq<Spec>)
    requires Sound(j) && !PostEntry(j, store, date, kind, source, specs).1.Done?
    ensures PostEntry(j, store, date, kind, source, specs).1
            == Rejected(if specs == [] then EMPTY_JOURNAL_ENTRY
                        else if InClosedPeriod(j, store, date) then PERIOD_CLOSED
                        else if exists i :: 0 <= i < |specs| && specs[i].account >= j.accounts then ACCOUNTS_NOT_SEEDED
                        else if SourceTaken(j, kind, source) then DUPLICATE_SOURCE
                        else if !SpecsOneSided(specs) then LINE_CHECK
                        else UNBALANCED)
  {
    var lines := LinesOf(|j.entries|, specs);
    assert SourceTaken(j, kind, source) <==> SourcePosted(j.entries, kind, source);
    assert forall i :: 0 <= i < |specs| ==>
        (OneSided(lines[i]) <==>
         (specs[i].debit > 0 && specs[i].credit == 0) || (specs[i].debit == 0 && specs[i].credit > 0));
    assert SpecsOneSided(specs) <==> AllOneSided(lines);
  }

  /** An accepted posting adds one entry and a line for each that was asked for, on its account and side;
      each account moves by what was asked for on it. */
  lemma {:induction false} PostEffect(j: Journal, store: nat, date: int, kind: nat, source: Option<nat>,
      specs: seq<Spec>, a: nat)
    requires Sound(j) && PostEntry(j, store, date, kind, source, specs).1.Done?
    ensures var (after, o) := PostEntry(j, store, date, kind, source, specs);
            && o.id == |j.entries| && after.entries == j.entries + [Entry(store, date, kind, source, None)]
            && after.accounts == j.accounts && after.periods == j.periods
            && |after.lines| == |j.lines| + |specs| && after.lines[..|j.lines|] == j.lines
            && (forall i :: 0 <= i < |specs| ==>
                  var l := after.lines[|j.lines| + i];
                  && l.entry == |j.entries| && l.account == specs[i].account
                  && l.debit == specs[i].debit && l.credit == specs[i].credit)
            && Sum(after.lines, LineNetOn(a)) == Sum(j.lines, LineNetOn(a)) + Sum(specs, SpecNetOn(a))
  {
    var lines := LinesOf(|j.entries|, specs);
    SumConcat(j.lines, lines, LineNetOn(a));
    LinesOfSum(|j.entries|, specs, LineNetOn(a), SpecNetOn(a));
  }

  /** The trial balance sees it: an account's debits and credits grow by what was asked for on each side,
      under every filter that selects the new entry, and under no other. */
  lemma {:induction false} PostingReported(j: Journal, store: nat, date: int, kind: nat, source: Option<nat>,
      specs: seq<Spec>,
      keep: Entry -> bool, a: nat)
    requires Sound(j) && PostEntry(j, store, date, kind, source, specs).1.Done?
    ensures var after, kept :=
            PostEntry(j, store, date, kind, source, specs).0, keep(Entry(store, date, kind, source, None));
            && Reported(after, keep, a, DEBIT)
                 == Reported(j, keep, a, DEBIT) + (if kept then Sum(specs, SpecDebitOn(a)) else 0)
            && Reported(after, keep, a, CREDIT)
                 == Reported(j, keep, a, CREDIT) + (if kept then Sum(specs, SpecCreditOn(a)) else 0)
  {
    PostingReportedBy(j, store, date, kind, source, specs, keep, a, DEBIT, SpecDebitOn(a));
    PostingReportedBy(j, store, date, kind, source, specs, keep, a, CREDIT, SpecCreditOn(a));
  }

  lemma {:induction false} PostingReportedBy(j: Journal, store: nat, date: int, kind: nat, source: Option<nat>,
      specs: seq<Spec>,
      keep: Entry -> bool, a: nat, measure: Line -> int, g: Spec -> int)
    requires Sound(j) && PostEntry(j, store, date, kind, source, specs).1.Done?
    requires forall id: nat, x: Spec ::
             (if x.account == a then measure(Line(id, x.account, x.debit, x.credit)) else 0) == g(x)
    ensures var after, kept :=
            PostEntry(j, store, date, kind, source, specs).0, keep(Entry(store, date, kind, source, None));
            Reported(after, keep, a, measure) == Reported(j, keep, a, measure) + if kept then Sum(specs, g) else 0
  {
    var after, entry := PostEntry(j, store, date, kind, source, specs).0, Entry(store, date, kind, source, None);
    var lines := LinesOf(|j.entries|, specs);
    var f := Group(ACCOUNT_OF, a, Selected(after.entries, keep, measure));
    assert after.entries[|j.entries|] == entry;
    SumConcat(j.lines, lines, f);
    SumSame(j.lines, j.lines, f, Group(ACCOUNT_OF, a, Selected(j.entries, keep, measure)));
    if keep(entry) { SumSame(lines, specs, f, g); } else { SumZero(lines, f); }
  }

  /** A reversal is accepted if and only if it is of an entry the caller may touch, posted by hand, itself no
      reversal and not reversed before, on a day that is not closed; a second one answers with the first. */
  lemma {:induction false} ReverseDoneIff(j: Journal, caller: Option<nat>, e: nat, today: int)
    requires Sound(j)
    ensures var (after, o) := ReverseEntry(j, caller, e, today);
            var mayReverse := e < |j.entries| && (caller.None? || caller.value == j.entries[e].store)
                              && j.entries[e].kind == 0 && j.entries[e].reversalOf.None?;
            var reversed := exists r :: 0 <= r < |j.entries| && j.entries[r].reversalOf == Some(e);
            && (o.Done? <==> mayReverse && !reversed && !InClosedPeriod(j, j.entries[e].store, today))
            && (o.Existing? <==> mayReverse && reversed)
            && (o.Existing? ==> o.id < |j.entries| && j.entries[o.id].reversalOf == Some(e))
            && (!o.Done? ==> after == j)
            && (o.Rejected? ==>
                  o.error == if e >= |j.entries| then NOT_FOUND
                             else if caller.Some? && caller.value != j.entries[e].store then STORE_ACCESS_DENIED
                             else if j.entries[e].kind != 0 then OPERATIONAL_REVERSAL_REQUIRED
                             else if j.entries[e].reversalOf.Some? then CANNOT_REVERSE_REVERSAL
                             else PERIOD_CLOSED)
            && (o.Done? ==>
                  && o.id == |j.entries|
                  && after.entries == j.entries + [Entry(j.entries[e].store, today, 0, j.entries[e].source, Some(e))]
                  && after.accounts == j.accounts && after.periods == j.periods && j.lines <= after.lines)
  {
  }

  /** A reversal takes every account back by what its original put on it. */
  lemma {:induction false} ReverseEffect(j: Journal, caller: Option<nat>, e: nat, today: int, a: nat)
    requires Sound(j) && ReverseEntry(j, caller, e, today).1.Done?
    ensures var after := ReverseEntry(j, caller, e, today).0;
            Sum(after.lines, LineNetOn(a)) == Sum(j.lines, LineNetOn(a)) - Sum(j.lines, EntryNetOn(e, a))
  {
    SumConcat(j.lines, Mirror(j.lines, e, |j.entries|), LineNetOn(a));
    MirrorNet(j.lines, e, |j.entries|, a);
  }

  lemma {:induction false} MirrorNet(lines: seq<Line>, e: nat, id: nat, a: nat)
    ensures Sum(Mirror(lines, e, id), LineNetOn(a)) == -Sum(lines, EntryNetOn(e, a))
  {
    if lines != [] {
      var n := |lines| - 1;
      var l := lines[n];
      MirrorNet(lines[..n], e, id, a);
      assert lines == lines[..n] + [l];
      SumAppend(lines[..n], l, EntryNetOn(e, a));
      if l.entry == e {
        SumAppend(Mirror(lines[..n], e, id), Line(id, l.account, l.credit, l.debit), LineNetOn(a));
      } else {
        assert Mirror(lines, e, id) == Mirror(lines[..n], e, id);
      }
    }
  }

  /** A period is closed if and only if the caller may touch its store, it does not end before it starts, and
      it shares no date with a closed one of the store. */
  lemma {:induction false} CloseDoneIff(j: Journal, caller: Option<nat>, p: Period)
    requires Sound(j)
    ensures var (after, o) := ClosePeriod(j, caller, p);
            && (o.Done? <==>
                  && (caller.None? || caller.value == p.store) && p.start <= p.end
                  && forall date :: p.start <= date <= p.end ==> !InClosedPeriod(j, p.store, date))
            && (!o.Done? ==> o == Rejected(if caller.Some? && caller.value != p.store then STORE_ACCESS_DENIED
                                           else if p.end < p.start then INVALID_PERIOD_RANGE
                                           else PERIOD_OVERLAP))
            && after == if o.Done? then j.(periods := j.periods + [p]) else j
  {
    if k :| 0 <= k < |j.periods| && Overlaps(j.periods[k], p) {
      var q := j.periods[k];
      var date := if q.start < p.start then p.start else q.start;
      assert p.start <= p.end ==> p.start <= date <= p.end && InClosedPeriod(j, p.store, date);
    } else {
      assert forall k :: 0 <= k < |j.periods| ==> !Overlaps(j.periods[k], p);
    }
  }

  // ---- Closed periods ---------------------------------------------------------------------------

  predicate Within(p: Period, e: Entry) {
    e.store == p.store && p.start <= e.date <= p.end
  }

  /** What the lines of the selected entries put on one account. */
  function Reported(j: Journal, keep: Entry -> bool, a: nat, measure: Line -> int): int {
    Sum(j.lines, Group(ACCOUNT_OF, a, Selected(j.entries, keep, measure)))
  }

  lemma {:induction false} AppendOutside(j: Journal, entry: Entry, lines: seq<Line>, keep: Entry -> bool, a: nat,
      measure: Line -> int)
    requires forall i :: 0 <= i < |j.lines| ==> j.lines[i].entry < |j.entries|
    requires forall i :: 0 <= i < |lines| ==> lines[i].entry == |j.entries|
    requires !keep(entry)
    ensures Reported(Append(j, entry, lines), keep, a, measure) == Reported(j, keep, a, measure)
  {
    var after := Append(j, entry, lines);
    var f := Group(ACCOUNT_OF, a, Selected(after.entries, keep, measure));
    SumConcat(j.lines, lines, f);
    SumZero(lines, f);
    SumSame(j.lines, j.lines, f, Group(ACCOUNT_OF, a, Selected(j.entries, keep, measure)));
  }

  lemma {:induction false} StepFrozen(j: Journal, p: Period, op: Op, keep: Entry -> bool, a: nat, measure: Line -> int)
    requires Sound(j) && p in j.periods
    requires forall e :: keep(e) ==> Within(p, e)
    ensures Reported(Apply(j, op), keep, a, measure) == Reported(j, keep, a, measure) && p in Apply(j, op).periods
  {
    match op {
      case OpPost(store, date, kind, source, specs) =>
        if PostEntry(j, store, date, kind, source, specs).1.Done? {
          AppendOutside(j, Entry(store, date, kind, source, None), LinesOf(|j.entries|, specs), keep, a, measure);
        }
      case OpReverse(caller, e, today) =>
        if ReverseEntry(j, caller, e, today).1.Done? {
          var row := j.entries[e];
          MirrorSums(j.lines, e, |j.entries|);
          AppendOutside(j, Entry(row.store, today, row.kind, row.source, Some(e)), Mirror(j.lines, e, |j.entries|),
            keep, a, measure);
        }
      case OpClose(_, _) =>
    }
  }

  /** Once a period is closed, whatever a report says about entries inside it, on any account and for
      any narrower filter, is never changed by any later run. */
  lemma {:induction false} ClosedPeriodFrozen(j: Journal, p: Period, ops: seq<Op>, keep: Entry -> bool, a: nat,
      measure: Line -> int)
    requires Sound(j) && p in j.periods
    requires forall e :: keep(e) ==> Within(p, e)
    ensures Reported(Run(j, ops), keep, a, measure) == Reported(j, keep, a, measure)
    decreases |ops|
  {
    if ops != [] {
      ApplySound(j, ops[0]);
      StepFrozen(j, p, ops[0], keep, a, measure);
      ClosedPeriodFrozen(Apply(j, ops[0]), p, ops[1..], keep, a, measure);
    }
  }

  // ---- The service --------------------------------------------------------------------------------

  class GeneralLedger {
    const accounts: nat
    var entries: seq<Entry>
    var lines: seq<Line>
    var periods: seq<Period>

    ghost function State(): Journal
      reads this
    {
      Journal(accounts, entries, lines, periods)
    }

    constructor (accounts: nat)
      ensures State() == Journal(accounts, [], [], []) && Sound(State())
    {
      this.accounts := accounts;
      entries, lines, periods := [], [], [];
    }

    method Post(store: nat, date: int, kind: nat, source: Option<nat>, specs: seq<Spec>) returns (o: Outcome)
      requires Sound(State())
      modifies this
      ensures (State(), o) == PostEntry(old(State()), store, date, kind, source, specs)
      ensures Sound(State())
    {
      ApplySound(State(), OpPost(store, date, kind, source, specs));
      if specs == [] { return Rejected(EMPTY_JOURNAL_ENTRY); }
      if Closed(periods, store, date) { return Rejected(PERIOD_CLOSED); }
      if exists i :: 0 <= i < |specs| && specs[i].account >= accounts { return Rejected(ACCOUNTS_NOT_SEEDED); }
      if SourcePosted(entries, kind, source) { return Rejected(DUPLICATE_SOURCE); }
      var id := |entries|;
      var inserted: seq<Line> := [];
      for i := 0 to |specs|
        invariant inserted == LinesOf(id, specs[..i])
        invariant AllOneSided(inserted)
      {
        var line := Line(id, specs[i].account, specs[i].debit, specs[i].credit);
        if !OneSided(line) {
          assert LinesOf(id, specs)[i] == line;
          return Rejected(LINE_CHECK);
        }
        inserted := inserted + [line];
      }
      assert specs[..|specs|] == specs;
      var ok := DeferredChecks(lines + inserted, inserted);
      if !ok { return Rejected(UNBALANCED); }
      entries, lines := entries + [Entry(store, date, kind, source, None)], lines + inserted;
      o := Done(id);
    }

    method Reverse(caller: Option<nat>, e: nat, today: int) returns (o: Outcome)
      requires Sound(State())
      modifies this
      ensures (State(), o) == ReverseEntry(old(State()), caller, e, today)
      ensures Sound(State())
    {
      ApplySound(State(), OpReverse(caller, e, today));
      if e >= |entries| { return Rejected(NOT_FOUND); }
      var row := entries[e];
      if Denied(caller, row.store) { return Rejected(STORE_ACCESS_DENIED); }
      if row.kind != MANUAL { return Rejected(OPERATIONAL_REVERSAL_REQUIRED); }
      if row.reversalOf.Some? { return Rejected(CANNOT_REVERSE_REVERSAL); }
      var existing := FindReversal(entries, e);
      if existing.Some? { return Existing(existing.value); }
      assert Touches(lines, e);  // EMPTY_JOURNAL_ENTRY cannot be raised here
      if Closed(periods, row.store, today) { return Rejected(PERIOD_CLOSED); }
      var id := |entries|;
      var inserted: seq<Line> := [];
      for i := 0 to |lines|
        invariant entries == old(entries) && lines == old(lines) && periods == old(periods)
        invariant inserted == Mirror(lines[..i], e, id)
      {
        assert lines[..i + 1][..i] == lines[..i];
        if lines[i].entry == e {
          inserted := inserted + [Line(id, lines[i].account, lines[i].credit, lines[i].debit)];
        }
      }
      assert lines[..|lines|] == lines;
      entries, lines := entries + [Entry(row.store, today, row.kind, row.source, Some(e))], lines + inserted;
      o := Done(id);
    }

    method Close(caller: Option<nat>, p: Period) returns (o: Outcome)
      requires Sound(State())
      modifies this
      ensures (State(), o) == ClosePeriod(old(State()), caller, p)
      ensures Sound(State())
    {
      ApplySound(State(), OpClose(caller, p));
      if Denied(caller, p.store) { return Rejected(STORE_ACCESS_DENIED); }
      if p.end < p.start { return Rejected(INVALID_PERIOD_RANGE); }
      for k := 0 to |periods|
        invariant forall i :: 0 <= i < k ==> !Overlaps(periods[i], p)
      {
        if Overlaps(periods[k], p) { return Rejected(PERIOD_OVERLAP); }
      }
      o := Done(|periods|);
      periods := periods + [p];
    }
  }
}
