/** Payroll periods: overtime over a split period, net pay and its journal entry, and the lifecycle of
    calculation, approval, posting, reversal and cancellation.

    Amounts are cents; hours are in any one unit. */
module Payroll {
  import opened Options
  import opened Sums
  import opened JournalEntries

  // ---- Overtime --------------------------------------------------------------------------------

  function Over(hours: int, threshold: int): int {
    if hours > threshold then hours - threshold else 0
  }

  function OverPerSegment(threshold: int): int -> int {
    (hours: int) => Over(hours, threshold)
  }

  /** Regular and overtime hours of an eligible hourly employee, the threshold applied to each pay
      rate's stretch of the period on its own. */
  method SplitHours(segments: seq<int>, threshold: int) returns (regular: int, overtime: int)
    ensures overtime == Sum(segments, OverPerSegment(threshold))
    ensures regular + overtime == Sum(segments, Identity)
  {
    regular, overtime := 0, 0;
    for i := 0 to |segments|
      invariant overtime == Sum(segments[..i], OverPerSegment(threshold))
      invariant regular + overtime == Sum(segments[..i], Identity)
    {
      var hours := segments[i];
      assert segments[..i + 1] == segments[..i] + [hours];
      SumAppend(segments[..i], hours, OverPerSegment(threshold));
      SumAppend(segments[..i], hours, Identity);
      regular := regular + if hours < threshold then hours else threshold;
      overtime := overtime + if hours - threshold > 0 then hours - threshold else 0;
    }
    assert segments[..|segments|] == segments;
  }

  /** At most one stretch of the period has any hours. */
  predicate OneStretch(segments: seq<int>) {
    forall i, j :: 0 <= i < j < |segments| ==> segments[i] == 0 || segments[j] == 0
  }

  lemma {:induction false} Idle(segments: seq<int>)
    requires forall i :: 0 <= i < |segments| ==> segments[i] >= 0
    ensures Sum(segments, Identity) >= 0
    ensures Sum(segments, Identity) == 0 <==> forall i :: 0 <= i < |segments| ==> segments[i] == 0
  {
    SumNonNegative(segments, Identity);
    if forall i :: 0 <= i < |segments| ==> segments[i] == 0 { SumZero(segments, Identity); }
  }

  /** The policy's threshold is per period.  Applying it per pay rate finds the period's overtime if
      and only if the period has none or all its hours fall under one rate; otherwise it finds less. */
  lemma {:induction false} OvertimePerPeriodIff(segments: seq<int>, threshold: int)
    requires threshold > 0 && forall i :: 0 <= i < |segments| ==> segments[i] >= 0
    ensures Sum(segments, OverPerSegment(threshold)) <= Over(Sum(segments, Identity), threshold)
    ensures Sum(segments, OverPerSegment(threshold)) == Over(Sum(segments, Identity), threshold)
            <==> Sum(segments, Identity) <= threshold || OneStretch(segments)
    ensures Sum(segments, OverPerSegment(threshold)) >= 0
  {
    Idle(segments);
    if segments != [] {
      var first, rest := segments[0], segments[1..];
      assert forall i :: 0 <= i < |rest| ==> rest[i] == segments[i + 1];
      Idle(rest);
      OvertimePerPeriodIff(rest, threshold);
      var hours, over := Sum(rest, Identity), Sum(rest, OverPerSegment(threshold));
      assert Sum(segments, Identity) == first + hours;
      assert Sum(segments, OverPerSegment(threshold)) == Over(first, threshold) + over;
      if first > 0 && hours > 0 {
        var k :| 0 <= k < |rest| && rest[k] != 0;
        assert segments[0] != 0 && segments[k + 1] != 0;
      } else if first == 0 {
        OneStretchRest(segments);
      } else {
        assert OneStretch(segments);
      }
    }
  }

  lemma {:induction false} OneStretchRest(segments: seq<int>)
    requires segments != [] && segments[0] == 0
    ensures OneStretch(segments) <==> OneStretch(segments[1..])
  {
    var rest := segments[1..];
    assert forall i :: 0 <= i < |rest| ==> rest[i] == segments[i + 1];
    if OneStretch(rest) {
      forall i, j | 0 <= i < j < |segments| ensures segments[i] == 0 || segments[j] == 0 {
        if i > 0 { assert rest[i - 1] == segments[i] && rest[j - 1] == segments[j]; }
      }
    }
    if OneStretch(segments) {
      forall i, j | 0 <= i < j < |rest| ensures rest[i] == 0 || rest[j] == 0 {
        assert rest[i] == segments[i + 1] && rest[j] == segments[j + 1];
      }
    }
  }

  /** A raise in the middle of a 60-hour week with a threshold of 40: no overtime instead of 20. */
  lemma {:induction false} RaiseLosesOvertime()
    ensures Sum([30, 30], OverPerSegment(40)) == 0 && Over(Sum([30, 30], Identity), 40) == 20
  {
    assert [30, 30][1..] == [30] && [30][1..] == [];
  }

  // ---- Net pay and the journal entry ------------------------------------------------------------

  datatype EmployeeResult = EmployeeResult(gross: int, deductions: int, contributions: int, net: int)

  function Gross(r: EmployeeResult): int {
    r.gross
  }

  function Deductions(r: EmployeeResult): int {
    r.deductions
  }

  function Contributions(r: EmployeeResult): int {
    r.contributions
  }

  function Net(r: EmployeeResult): int {
    r.net
  }

  datatype Totals = Totals(gross: int, deductions: int, contributions: int, net: int)

  function TotalsOf(results: seq<EmployeeResult>): Totals {
    Totals(Sum(results, Gross), Sum(results, Deductions), Sum(results, Contributions), Sum(results, Net))
  }

  /** The table's CHECKs on one result. */
  predicate ResultChecks(r: EmployeeResult) {
    r.gross >= 0 && r.deductions >= 0 && r.net >= 0 && r.net == r.gross - r.deductions
  }

  predicate AllChecked(results: seq<EmployeeResult>) {
    forall i :: 0 <= i < |results| ==> ResultChecks(results[i]) && results[i].contributions >= 0
  }

  lemma {:induction false} TotalsBalance(results: seq<EmployeeResult>)
    requires AllChecked(results)
    ensures var t := TotalsOf(results);
            t.gross >= 0 && t.deductions >= 0 && t.contributions >= 0 && t.net >= 0 && t.gross == t.net + t.deductions
  {
    SumAdd(results, Gross, Net, Deductions);
    SumNonNegative(results, Gross);
    SumNonNegative(results, Deductions);
    SumNonNegative(results, Contributions);
    SumNonNegative(results, Net);
  }

  datatype Account = WAGES | CONTRIBUTION_EXPENSE | PAYROLL_PAYABLE | DEDUCTION_PAYABLE | CONTRIBUTION_PAYABLE

  function EntryLines(t: Totals, reverse: bool): seq<JournalLine<Account>> {
    Side(WAGES, t.gross, !reverse) + Side(CONTRIBUTION_EXPENSE, t.contributions, !reverse)
    + Side(PAYROLL_PAYABLE, t.net, reverse) + Side(DEDUCTION_PAYABLE, t.deductions, reverse)
    + Side(CONTRIBUTION_PAYABLE, t.contributions, reverse)
  }

  lemma {:induction false} EntrySum(t: Totals, reverse: bool, f: JournalLine<Account> -> int)
    ensures Sum(EntryLines(t, reverse), f)
            == OnSide(f, WAGES, t.gross, !reverse) + OnSide(f, CONTRIBUTION_EXPENSE, t.contributions, !reverse)
               + OnSide(f, PAYROLL_PAYABLE, t.net, reverse) + OnSide(f, DEDUCTION_PAYABLE, t.deductions, reverse)
               + OnSide(f, CONTRIBUTION_PAYABLE, t.contributions, reverse)
  {
    var e1 := Side(WAGES, t.gross, !reverse);
    var e2 := e1 + Side(CONTRIBUTION_EXPENSE, t.contributions, !reverse);
    var e3 := e2 + Side(PAYROLL_PAYABLE, t.net, reverse);
    var e4 := e3 + Side(DEDUCTION_PAYABLE, t.deductions, reverse);
    assert [] + e1 == e1;
    SumSide([], WAGES, t.gross, !reverse, f);
    SumSide(e1, CONTRIBUTION_EXPENSE, t.contributions, !reverse, f);
    SumSide(e2, PAYROLL_PAYABLE, t.net, reverse, f);
    SumSide(e3, DEDUCTION_PAYABLE, t.deductions, reverse, f);
    SumSide(e4, CONTRIBUTION_PAYABLE, t.contributions, reverse, f);
  }

  lemma {:induction false} PostingMirrors(t: Totals, a: Account)
    ensures Sum(EntryLines(t, false), NetOn(a)) + Sum(EntryLines(t, true), NetOn(a)) == 0
  {
    EntrySum(t, false, NetOn(a));
    EntrySum(t, true, NetOn(a));
    MirrorCancels(WAGES, t.gross, true, a);
    MirrorCancels(CONTRIBUTION_EXPENSE, t.contributions, true, a);
    MirrorCancels(PAYROLL_PAYABLE, t.net, true, a);
    MirrorCancels(DEDUCTION_PAYABLE, t.deductions, true, a);
    MirrorCancels(CONTRIBUTION_PAYABLE, t.contributions, true, a);
  }

  lemma {:induction false} PostingEven(t: Totals, reverse: bool)
    requires t.gross >= 0 && t.deductions >= 0 && t.contributions >= 0 && t.net >= 0 && t.gross == t.net + t.deductions
    ensures Sum(EntryLines(t, reverse), DebitOf()) == Sum(EntryLines(t, reverse), CreditOf())
            == t.gross + t.contributions
  {
    EntrySum(t, reverse, DebitOf());
    EntrySum(t, reverse, CreditOf());
    SideTotals(WAGES, t.gross, !reverse);
    SideTotals(CONTRIBUTION_EXPENSE, t.contributions, !reverse);
    SideTotals(PAYROLL_PAYABLE, t.net, reverse);
    SideTotals(DEDUCTION_PAYABLE, t.deductions, reverse);
    SideTotals(CONTRIBUTION_PAYABLE, t.contributions, reverse);
  }

  lemma {:induction false} PostingEmptyIff(t: Totals, reverse: bool)
    requires t.gross >= 0 && t.deductions >= 0 && t.contributions >= 0 && t.net >= 0 && t.gross == t.net + t.deductions
    ensures EntryLines(t, reverse) == [] <==> t.gross == 0 && t.contributions == 0
  {
    if EntryLines(t, reverse) == [] {
      assert |Side(WAGES, t.gross, !reverse)| == 0 && |Side(CONTRIBUTION_EXPENSE, t.contributions, !reverse)| == 0;
    }
  }

  /** For any number of employees the posting, and its reversal, balances; a reversal takes every
      account back; and there is an entry to post unless nobody earned or was contributed for
      anything. */
  lemma {:induction false} PostingBalances(results: seq<EmployeeResult>, reverse: bool, a: Account)
    requires AllChecked(results)
    ensures var t := TotalsOf(results);
            && Sum(EntryLines(t, reverse), DebitOf()) == Sum(EntryLines(t, reverse), CreditOf())
                 == t.gross + t.contributions
            && Sum(EntryLines(t, false), NetOn(a)) + Sum(EntryLines(t, true), NetOn(a)) == 0
            && (EntryLines(t, reverse) == [] <==> t.gross == 0 && t.contributions == 0)
  {
    var t := TotalsOf(results);
    TotalsBalance(results);
    PostingEven(t, reverse);
    PostingMirrors(t, a);
    PostingEmptyIff(t, reverse);
  }

  // ---- The lifecycle ------------------------------------------------------------------------------

  datatype Status = DRAFT | OPEN | CALCULATED | APPROVED | POSTED | CANCELLED

  datatype Error =
    | INVALID_PERIOD_STATE | ACTOR_REQUIRED | STALE_CALCULATION | RESULT_CHECK | NO_CALCULATED_RESULTS
    | EMPTY_JOURNAL_ENTRY

  datatype Outcome = Done | Existing | Rejected(error: Error)

  /** One period with its results; `posted` and `reversed` are the entries that exist for it. */
  datatype Period = Period(status: Status, calculatedBy: Option<nat>, calculatedAt: Option<int>,
                           approvedBy: Option<nat>, results: seq<EmployeeResult>, totals: Totals,
                           posted: seq<seq<JournalLine<Account>>>, reversed: seq<seq<JournalLine<Account>>>)

  const NEW_PERIOD: Period := Period(DRAFT, None, None, None, [], Totals(0, 0, 0, 0), [], [])

  datatype Op =
    | OpOpen
    | OpCalculate(actor: Option<nat>, now: int, results: seq<EmployeeResult>)
    | OpApprove(actor: Option<nat>, stale: bool)
    | OpPost(actor: Option<nat>)
    | OpReverse(actor: Option<nat>)
    | OpCancel

  /** `results` are what the calculation engine answers for the employees of the store; `stale` is
      what the attendance check finds. */
  function Step(p: Period, op: Op): (Period, Outcome) {
    match op
    case OpOpen =>
      if p.status == OPEN then (p, Existing)
      else if p.status != DRAFT then (p, Rejected(INVALID_PERIOD_STATE))
      else (p.(status := OPEN), Done)
    case OpCalculate(actor, now, results) =>
      if actor.None? then (p, Rejected(ACTOR_REQUIRED))
      else if p.status != OPEN && p.status != CALCULATED then (p, Rejected(INVALID_PERIOD_STATE))
      else if !AllChecked(results) then (p, Rejected(RESULT_CHECK))
      else (p.(status := CALCULATED, calculatedBy := actor, calculatedAt := Some(now), results := results,
        totals := TotalsOf(results)), Done)
    case OpApprove(actor, stale) =>
      if p.status == APPROVED then (p, Existing)
      else if p.status != CALCULATED then (p, Rejected(INVALID_PERIOD_STATE))
      else if actor.None? then (p, Rejected(ACTOR_REQUIRED))
      else if stale then (p, Rejected(STALE_CALCULATION))
      else (p.(status := APPROVED, approvedBy := actor), Done)
    case OpPost(actor) =>
      if p.status == POSTED then (p, Existing)
      else if p.status != APPROVED then (p, Rejected(INVALID_PERIOD_STATE))
      else if actor.None? then (p, Rejected(ACTOR_REQUIRED))
      else if p.results == [] then (p, Rejected(NO_CALCULATED_RESULTS))
      else if EntryLines(TotalsOf(p.results), false) == [] then (p, Rejected(EMPTY_JOURNAL_ENTRY))
      else (p.(status := POSTED, posted := p.posted + [EntryLines(TotalsOf(p.results), false)]), Done)
    case OpReverse(actor) =>
      if p.status != POSTED then (p, Rejected(INVALID_PERIOD_STATE))
      else if actor.None? then (p, Rejected(ACTOR_REQUIRED))
      else if p.reversed != [] then (p, Existing)
      else (p.(reversed := p.reversed + [EntryLines(TotalsOf(p.results), true)]), Done)
    case OpCancel =>
      if p.status == CANCELLED then (p, Existing)
      else if p.status == POSTED then (p, Rejected(INVALID_PERIOD_STATE))
      else (p.(status := CANCELLED), Done)
  }

  function Run(p: Period, ops: seq<Op>): Period
    decreases |ops|
  {
    if ops == [] then p else Run(Step(p, ops[0]).0, ops[1..])
  }

  function Entries(p: Period): seq<seq<JournalLine<Account>>> {
    p.posted + p.reversed
  }

  /** The three consistency CHECKs together, the totals of the results, and one posting at most. */
  predicate Sound(p: Period) {
    && (p.status in {CALCULATED, APPROVED, POSTED} ==> p.calculatedBy.Some? && p.calculatedAt.Some?)
    && (p.status in {APPROVED, POSTED} ==> p.approvedBy.Some?)
    && (p.status == POSTED <==> p.posted != [])
    && AllChecked(p.results) && p.totals == TotalsOf(p.results)
    && (p.posted == [] || p.posted == [EntryLines(p.totals, false)])
    && (p.reversed == [] || (p.posted != [] && p.reversed == [EntryLines(p.totals, true)]))
  }

  lemma {:induction false} StepKeepsChecks(p: Period, op: Op)
    requires Sound(p)
    ensures Sound(Step(p, op).0)
  {
  }

  lemma {:induction false} StepSound(p: Period, op: Op)
    requires Sound(p)
    ensures Sound(Step(p, op).0)
    ensures p.status == POSTED ==> Step(p, op).0.status == POSTED && Step(p, op).0.posted == p.posted
                                   && Step(p, op).0.totals == p.totals && Step(p, op).0.results == p.results
    ensures p.status == CANCELLED ==> Step(p, op).0 == p
  {
    StepKeepsChecks(p, op);
  }

  /** Over every run the checks hold together; a posted period stays posted with the same results,
      entry and totals, and a cancelled one never changes again. */
  lemma {:induction false} RunSound(p: Period, ops: seq<Op>)
    requires Sound(p)
    ensures Sound(Run(p, ops))
    ensures p.status == POSTED ==> Run(p, ops).status == POSTED && Run(p, ops).posted == p.posted
                                   && Run(p, ops).totals == p.totals && Run(p, ops).results == p.results
    ensures p.status == CANCELLED ==> Run(p, ops) == p
    decreases |ops|
  {
    if ops != [] {
      StepSound(p, ops[0]);
      RunSound(Step(p, ops[0]).0, ops[1..]);
    }
  }

  function AllLines(entries: seq<seq<JournalLine<Account>>>): seq<JournalLine<Account>> {
    if entries == [] then [] else entries[0] + AllLines(entries[1..])
  }

  /** Whatever happened to the period, its entries balance in every state, and once it is reversed
      they leave nothing on any account. */
  lemma {:induction false} LedgerOfRun(ops: seq<Op>, a: Account)
    ensures var p := Run(NEW_PERIOD, ops);
            && Sum(AllLines(Entries(p)), DebitOf()) == Sum(AllLines(Entries(p)), CreditOf())
            && (p.reversed != [] ==> Sum(AllLines(Entries(p)), NetOn(a)) == 0)
            && (p.posted == [] ==> Entries(p) == [])
  {
    assert Sound(NEW_PERIOD);
    RunSound(NEW_PERIOD, ops);
    var p := Run(NEW_PERIOD, ops);
    if p.posted != [] {
      PostingBalances(p.results, false, a);
      PostingBalances(p.results, true, a);
      var forth, back := EntryLines(p.totals, false), EntryLines(p.totals, true);
      if p.reversed == [] {
        assert Entries(p) == [forth] && [forth][1..] == [] && forth + [] == forth;
        assert AllLines(Entries(p)) == forth + AllLines([]);
      } else {
        assert Entries(p) == [forth, back] && [forth, back][1..] == [back] && [back][1..] == [] && back + [] == back;
        assert AllLines([back]) == back + AllLines([]);
        assert AllLines(Entries(p)) == forth + back;
        SumConcat(forth, back, DebitOf());
        SumConcat(forth, back, CreditOf());
        SumConcat(forth, back, NetOn(a));
      }
    }
  }

  // ---- The buttons -------------------------------------------------------------------------------

  /** The status-dependent buttons of the period screen. */
  predicate Shown(status: Status, op: Op) {
    match op
    case OpOpen => status == DRAFT
    case OpCalculate(_, _, _) => status == OPEN || status == CALCULATED
    case OpApprove(_, _) => status == CALCULATED
    case OpPost(_) => status == APPROVED
    case OpReverse(_) => status == POSTED
    case OpCancel => status in {DRAFT, OPEN, CALCULATED, APPROVED}
  }

  /** The screen offers exactly the operations that can change the period in its status. */
  lemma {:induction false} ButtonsMatchService(p: Period, op: Op)
    requires op.OpCalculate? ==> op.actor.Some?
    ensures Shown(p.status, op)
            <==> Step(p, op).1 != Rejected(INVALID_PERIOD_STATE) && (op.OpReverse? || Step(p, op).1 != Existing)
  {
  }

  // ---- What each operation admits and does --------------------------------------------------------

  /** What a posting of these results moves on one account: wages and the employer's contributions are
      expenses; the net pay, the deductions and the contributions are owed. */
  function OwedBy(results: seq<EmployeeResult>, a: Account): int {
    match a
    case WAGES => Sum(results, (r: EmployeeResult) => r.gross)
    case CONTRIBUTION_EXPENSE => Sum(results, (r: EmployeeResult) => r.contributions)
    case PAYROLL_PAYABLE => -Sum(results, (r: EmployeeResult) => r.net)
    case DEDUCTION_PAYABLE => -Sum(results, (r: EmployeeResult) => r.deductions)
    case CONTRIBUTION_PAYABLE => -Sum(results, (r: EmployeeResult) => r.contributions)
  }

  lemma {:induction false} StoredTotals(results: seq<EmployeeResult>)
    ensures TotalsOf(results).gross == Sum(results, (r: EmployeeResult) => r.gross)
    ensures TotalsOf(results).deductions == Sum(results, (r: EmployeeResult) => r.deductions)
    ensures TotalsOf(results).contributions == Sum(results, (r: EmployeeResult) => r.contributions)
    ensures TotalsOf(results).net == Sum(results, (r: EmployeeResult) => r.net)
  {
    SumSame(results, results, Gross, (r: EmployeeResult) => r.gross);
    SumSame(results, results, Deductions, (r: EmployeeResult) => r.deductions);
    SumSame(results, results, Contributions, (r: EmployeeResult) => r.contributions);
    SumSame(results, results, Net, (r: EmployeeResult) => r.net);
  }

  lemma {:induction false} EntryNets(results: seq<EmployeeResult>, reverse: bool, a: Account)
    requires AllChecked(results)
    ensures Sum(EntryLines(TotalsOf(results), reverse), NetOn(a)) == if reverse then -OwedBy(results, a)
            else OwedBy(results, a)
  {
    StoredTotals(results);
    TotalsBalance(results);
    EntrySum(TotalsOf(results), reverse, NetOn(a));
  }

  /** Over every run: each total of a period is the sum of its own column over the results; the one entry of
      a posted period moves every account by what those results owe, and that of a reversed one takes it
      back. */
  lemma {:induction false} RunPostsResults(ops: seq<Op>, a: Account)
    ensures var p := Run(NEW_PERIOD, ops);
            && p.totals.gross == Sum(p.results, (r: EmployeeResult) => r.gross)
            && p.totals.deductions == Sum(p.results, (r: EmployeeResult) => r.deductions)
            && p.totals.contributions == Sum(p.results, (r: EmployeeResult) => r.contributions)
            && p.totals.net == Sum(p.results, (r: EmployeeResult) => r.net)
            && (p.status == POSTED ==> |p.posted| == 1 && Sum(p.posted[0], NetOn(a)) == OwedBy(p.results, a))
            && (p.status != POSTED ==> p.posted == [] && p.reversed == [])
            && (p.reversed != [] ==> |p.reversed| == 1 && Sum(p.reversed[0], NetOn(a)) == -OwedBy(p.results, a))
  {
    assert Sound(NEW_PERIOD);
    RunSound(NEW_PERIOD, ops);
    var p := Run(NEW_PERIOD, ops);
    StoredTotals(p.results);
    EntryNets(p.results, false, a);
    EntryNets(p.results, true, a);
  }

  /** Somebody earned or was contributed for something. */
  predicate SomethingToPost(results: seq<EmployeeResult>) {
    exists i :: 0 <= i < |results| && results[i].gross + results[i].contributions > 0
  }

  /** From which status each operation goes ahead, who must be named, and what else must hold. */
  predicate Admitted(p: Period, op: Op) {
    match op
    case OpOpen => p.status == DRAFT
    case OpCalculate(actor, _, results) =>
      actor.Some? && (p.status == OPEN || p.status == CALCULATED)
      && forall i :: 0 <= i < |results| ==>
           var r := results[i];
           r.gross >= 0 && r.deductions >= 0 && r.contributions >= 0 && r.net >= 0 && r.gross == r.net + r.deductions
    case OpApprove(actor, stale) => actor.Some? && p.status == CALCULATED && !stale
    case OpPost(actor) =>
      actor.Some? && p.status == APPROVED && SomethingToPost(p.results)
    case OpReverse(actor) => actor.Some? && p.status == POSTED && p.reversed == []
    case OpCancel => p.status != POSTED && p.status != CANCELLED
  }

  /** Every operation goes ahead if and only if it is admitted, and then leaves exactly this. */
  lemma {:induction false} StepDoneIff(p: Period, op: Op)
    requires Sound(p)
    ensures var (after, o) := Step(p, op);
            && (o == Done <==> Admitted(p, op))
            && (o != Done ==> after == p)
            && (o == Done ==>
                  match op
                  case OpOpen => after == p.(status := OPEN)
                  case OpCalculate(actor, now, results) =>
                    && after.status == CALCULATED && after.calculatedBy == actor && after.calculatedAt == Some(now)
                    && after.results == results && after.posted == p.posted && after.reversed == p.reversed
                  case OpApprove(actor, _) => after == p.(status := APPROVED, approvedBy := actor)
                  case OpPost(_) =>
                    && after.status == POSTED && after.results == p.results && after.reversed == p.reversed
                    && |after.posted| == 1
                  case OpReverse(_) =>
                    && after.status == POSTED && after.results == p.results && after.posted == p.posted
                    && |after.reversed| == 1
                  case OpCancel => after == p.(status := CANCELLED))
  {
    if op.OpPost? { WorthPosting(p.results); }
  }

  /** What has happened already is answered with the period as it is; anything else is refused, for the first of
      these that is not met. */
  lemma {:induction false} StepRepeatedOrRefused(p: Period, op: Op)
    requires Sound(p)
    ensures var o := Step(p, op).1;
            && (o == Existing <==>
                  match op
                  case OpOpen => p.status == OPEN
                  case OpCalculate(_, _, _) => false
                  case OpApprove(_, _) => p.status == APPROVED
                  case OpPost(_) => p.status == POSTED
                  case OpReverse(actor) => p.status == POSTED && p.reversed != [] && actor.Some?
                  case OpCancel => p.status == CANCELLED)
            && (o.Rejected? ==>
                  o.error ==
                  match op
                  case OpOpen => INVALID_PERIOD_STATE
                  case OpCalculate(actor, _, _) =>
                    if actor.None? then ACTOR_REQUIRED
                    else if p.status != OPEN && p.status != CALCULATED then INVALID_PERIOD_STATE
                    else RESULT_CHECK
                  case OpApprove(actor, _) =>
                    if p.status != CALCULATED then INVALID_PERIOD_STATE
                    else if actor.None? then ACTOR_REQUIRED
                    else STALE_CALCULATION
                  case OpPost(actor) =>
                    if p.status != APPROVED then INVALID_PERIOD_STATE
                    else if actor.None? then ACTOR_REQUIRED
                    else if p.results == [] then NO_CALCULATED_RESULTS
                    else EMPTY_JOURNAL_ENTRY
                  case OpReverse(_) => if p.status != POSTED then INVALID_PERIOD_STATE else ACTOR_REQUIRED
                  case OpCancel => INVALID_PERIOD_STATE)
  {
  }

  lemma {:induction false} WorthPosting(results: seq<EmployeeResult>)
    requires AllChecked(results)
    ensures EntryLines(TotalsOf(results), false) != [] <==> SomethingToPost(results)
  {
    TotalsBalance(results);
    PostingEmptyIff(TotalsOf(results), false);
    SumNonNegative(results, Gross);
    SumNonNegative(results, Contributions);
    if forall i :: 0 <= i < |results| ==> results[i].gross + results[i].contributions <= 0 {
      SumZero(results, Gross);
      SumZero(results, Contributions);
    } else {
      var i :| 0 <= i < |results| && results[i].gross + results[i].contributions > 0;
      assert Gross(results[i]) > 0 || Contributions(results[i]) > 0;
    }
  }

  // ---- The service -------------------------------------------------------------------------------

  class PayrollPeriod {
    var period: Period

    constructor ()
      ensures period == NEW_PERIOD && Sound(period)
    {
      period := NEW_PERIOD;
    }

    method Calculate(actor: Option<nat>, now: int, results: seq<EmployeeResult>) returns (o: Outcome)
      requires Sound(period)
      modifies this
      ensures (period, o) == Step(old(period), OpCalculate(actor, now, results))
      ensures Sound(period)
    {
      StepSound(period, OpCalculate(actor, now, results));
      if actor.None? { return Rejected(ACTOR_REQUIRED); }
      if period.status != OPEN && period.status != CALCULATED { return Rejected(INVALID_PERIOD_STATE); }
      var t := Totals(0, 0, 0, 0);
      for i := 0 to |results|
        invariant AllChecked(results[..i]) && t == TotalsOf(results[..i]) && period == old(period)
      {
        var r := results[i];
        assert results[..i + 1] == results[..i] + [r];
        SumAppend(results[..i], r, Gross);
        SumAppend(results[..i], r, Deductions);
        SumAppend(results[..i], r, Contributions);
        SumAppend(results[..i], r, Net);
        if !ResultChecks(r) || r.contributions < 0 { return Rejected(RESULT_CHECK); }
        t := Totals(t.gross + r.gross, t.deductions + r.deductions, t.contributions + r.contributions, t.net + r.net);
      }
      assert results[..|results|] == results;
      period := period.(results := results, totals := t);
      period := period.(status := CALCULATED, calculatedBy := actor, calculatedAt := Some(now));
      o := Done;
    }

    method Open() returns (o: Outcome)
      requires Sound(period)
      modifies this
      ensures (period, o) == Step(old(period), OpOpen)
      ensures Sound(period)
    {
      if period.status != DRAFT {
        return if period.status == OPEN then Existing else Rejected(INVALID_PERIOD_STATE);
      }
      period := period.(status := OPEN);
      o := Done;
    }

    method Approve(actor: Option<nat>, stale: bool) returns (o: Outcome)
      requires Sound(period)
      modifies this
      ensures (period, o) == Step(old(period), OpApprove(actor, stale))
      ensures Sound(period)
    {
      if period.status != CALCULATED {
        return if period.status == APPROVED then Existing else Rejected(INVALID_PERIOD_STATE);
      }
      if actor.None? { return Rejected(ACTOR_REQUIRED); }
      assert period.calculatedAt.Some?;  // MISSING_CALCULATION_TIMESTAMP cannot be raised here
      if stale { return Rejected(STALE_CALCULATION); }
      period := period.(status := APPROVED, approvedBy := actor);
      o := Done;
    }

    method Post(actor: Option<nat>) returns (o: Outcome)
      requires Sound(period)
      modifies this
      ensures (period, o) == Step(old(period), OpPost(actor))
      ensures Sound(period)
    {
      if period.status == POSTED { return Existing; }
      if period.status != APPROVED { return Rejected(INVALID_PERIOD_STATE); }
      if actor.None? { return Rejected(ACTOR_REQUIRED); }
      if period.results == [] { return Rejected(NO_CALCULATED_RESULTS); }
      var entry := EntryLines(period.totals, false);
      if entry == [] { return Rejected(EMPTY_JOURNAL_ENTRY); }
      period := period.(status := POSTED, posted := period.posted + [entry]);
      o := Done;
    }

    method Reverse(actor: Option<nat>) returns (o: Outcome)
      requires Sound(period)
      modifies this
      ensures (period, o) == Step(old(period), OpReverse(actor))
      ensures Sound(period)
    {
      if period.status != POSTED { return Rejected(INVALID_PERIOD_STATE); }
      if actor.None? { return Rejected(ACTOR_REQUIRED); }
      if period.reversed != [] { return Existing; }
      period := period.(reversed := period.reversed + [EntryLines(period.totals, true)]);
      o := Done;
    }

    method Cancel() returns (o: Outcome)
      requires Sound(period)
      modifies this
      ensures (period, o) == Step(old(period), OpCancel)
      ensures Sound(period)
    {
      if period.status == CANCELLED { return Existing; }
      if period.status == POSTED { return Rejected(INVALID_PERIOD_STATE); }
      period := period.(status := CANCELLED);
      o := Done;
    }
  }
}
