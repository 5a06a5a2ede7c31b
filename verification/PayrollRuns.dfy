/** Attendance, assignments and payroll periods in one run: each period pays the records as they stood
    when it was calculated, and nothing keeps those records from being corrected afterwards. */
module PayrollRuns {
  import opened Options
  import opened Sums
  import opened PayrollCoverage
  import Attendance
  import EffectiveDates
  import Payroll

  /** The assignments of every employee. */
  type Staff = map<nat, Assignments>

  /** A period with the attendance and the assignments its results were calculated from. */
  datatype Period = Period(row: Row, basis: seq<Attendance.Record>, staff: Staff)

  datatype State = State(records: seq<Attendance.Record>, jobs: Staff, periods: seq<Period>)

  const START: State := State([], map[], [])

  // ---- Steps -------------------------------------------------------------------------------------

  function JobsOf(staff: Staff, employee: nat): Assignments {
    if employee in staff then staff[employee] else []
  }

  function Rows(periods: seq<Period>): (r: seq<Row>)
    ensures |r| == |periods| && forall k :: 0 <= k < |r| ==> r[k] == periods[k].row
  {
    seq(|periods|, k requires 0 <= k < |periods| => periods[k].row)
  }

  function Create(s: State, caller: Option<nat>, store: nat, start: int, end: int, payDate: int): State {
    if PayrollCoverage.Create(Rows(s.periods), caller, store, start, end, payDate).1.Done?
    then s.(periods := s.periods + [Period(Row(store, start, end, Payroll.NEW_PERIOD), [], map[])])
    else s
  }

  predicate Stale(records: seq<Attendance.Record>, row: Row) {
    row.period.calculatedAt.Some?
    && Attendance.LooksStale(records, row.store, row.start, row.end, row.period.calculatedAt.value)
  }

  /** The step as the attendance makes it: approval looks for records updated since the calculation. */
  function Checked(records: seq<Attendance.Record>, row: Row, step: Payroll.Op): Payroll.Op {
    if step.OpApprove? then step.(stale := Stale(records, row)) else step
  }

  function Moved(s: State, p: Period, step: Payroll.Op): Period {
    var (after, o) := Payroll.Step(p.row.period, Checked(s.records, p.row, step));
    var row := p.row.(period := after);
    if step.OpCalculate? && o == Payroll.Done then Period(row, s.records, s.jobs) else p.(row := row)
  }

  function Lifecycle(s: State, i: nat, step: Payroll.Op): (State, Option<Payroll.Outcome>) {
    if i >= |s.periods| then (s, None)
    else
      var p := s.periods[i];
      (s.(periods := s.periods[i := Moved(s, p, step)]),
       Some(Payroll.Step(p.row.period, Checked(s.records, p.row, step)).1))
  }

  datatype Op =
    | OnAttendance(clocking: Attendance.Op)
    | OnAssignment(employee: nat, from: int, store: nat)
    | OnCreate(caller: Option<nat>, store: nat, start: int, end: int, payDate: int)
    | OnPeriod(i: nat, step: Payroll.Op)

  function Apply(s: State, op: Op): State {
    match op
    case OnAttendance(clocking) => s.(records := Attendance.Apply(s.records, clocking))
    case OnAssignment(employee, from, store) =>
      s.(jobs := s.jobs[employee := EffectiveDates.Change(JobsOf(s.jobs, employee), from, store).0])
    case OnCreate(caller, store, start, end, payDate) => Create(s, caller, store, start, end, payDate)
    case OnPeriod(i, step) => Lifecycle(s, i, step).0
  }

  function Run(s: State, ops: seq<Op>): State
    decreases |ops|
  {
    if ops == [] then s else Run(Apply(s, ops[0]), ops[1..])
  }

  // ---- What every run keeps ------------------------------------------------------------------------

  /** What may become of a record: an open one is closed, any one is voided, nothing else changes. */
  predicate Kept(a: Attendance.Record, b: Attendance.Record) {
    && b.employee == a.employee && b.store == a.store && b.workDate == a.workDate && b.clockIn == a.clockIn
    && (a.status != Attendance.OPEN ==> b.clockOut == a.clockOut && b.status != Attendance.OPEN)
    && (a.status == Attendance.VOIDED ==> b.status == Attendance.VOIDED)
  }

  ghost predicate Later(before: seq<Attendance.Record>, records: seq<Attendance.Record>) {
    |before| <= |records| && forall i :: 0 <= i < |before| ==> Kept(before[i], records[i])
  }

  ghost predicate PeriodSound(records: seq<Attendance.Record>, p: Period) {
    Attendance.Sound(p.basis) && Later(p.basis, records)
  }

  ghost predicate Consistent(s: State) {
    && Attendance.Sound(s.records) && PayrollCoverage.Sound(Rows(s.periods))
    && (forall k :: 0 <= k < |s.periods| ==> PeriodSound(s.records, s.periods[k]))
  }

  lemma {:induction false} ClockingLater(records: seq<Attendance.Record>, op: Attendance.Op)
    ensures Later(records, Attendance.Apply(records, op))
  {
  }

  lemma {:induction false} LaterStill(
      a: seq<Attendance.Record>, b: seq<Attendance.Record>, c: seq<Attendance.Record>)
    requires Later(a, b) && Later(b, c)
    ensures Later(a, c)
  {
    forall i | 0 <= i < |a| ensures Kept(a[i], c[i]) {
      assert Kept(a[i], b[i]) && Kept(b[i], c[i]);
    }
  }

  lemma {:induction false} AttendanceSound(s: State, clocking: Attendance.Op)
    requires Consistent(s)
    ensures Consistent(Apply(s, OnAttendance(clocking)))
  {
    var after := Apply(s, OnAttendance(clocking));
    Attendance.ApplySound(s.records, clocking);
    ClockingLater(s.records, clocking);
    forall k | 0 <= k < |s.periods| ensures PeriodSound(after.records, s.periods[k]) {
      LaterStill(s.periods[k].basis, s.records, after.records);
    }
  }

  lemma {:induction false} CreateSoundToo(
      s: State, caller: Option<nat>, store: nat, start: int, end: int, payDate: int)
    requires Consistent(s)
    ensures Consistent(Create(s, caller, store, start, end, payDate))
  {
    var after := Create(s, caller, store, start, end, payDate);
    if after != s {
      var row := Row(store, start, end, Payroll.NEW_PERIOD);
      PayrollCoverage.CreateSound(Rows(s.periods), store, start, end);
      assert Rows(after.periods) == Rows(s.periods) + [row];
    }
  }

  lemma {:induction false} LifecycleSoundToo(s: State, i: nat, step: Payroll.Op)
    requires Consistent(s) && i < |s.periods|
    ensures Consistent(Lifecycle(s, i, step).0)
  {
    var after, p := Lifecycle(s, i, step).0, s.periods[i];
    assert PeriodSound(s.records, p);
    PayrollCoverage.LifecycleSound(Rows(s.periods), i, Checked(s.records, p.row, step));
    assert Rows(after.periods) == Rows(s.periods)[i := after.periods[i].row];
    assert PeriodSound(s.records, after.periods[i]);
  }

  lemma {:induction false} ApplyConsistent(s: State, op: Op)
    requires Consistent(s)
    ensures Consistent(Apply(s, op))
  {
    match op
    case OnAttendance(clocking) => AttendanceSound(s, clocking);
    case OnAssignment(_, _, _) =>
    case OnCreate(caller, store, start, end, payDate) => CreateSoundToo(s, caller, store, start, end, payDate);
    case OnPeriod(i, step) => if i < |s.periods| { LifecycleSoundToo(s, i, step); }
  }

  /** Over every run: what a period was calculated from is an earlier state of the records, which have only
      been closed, voided or added to since. */
  lemma {:induction false} RunConsistent(s: State, ops: seq<Op>)
    requires Consistent(s)
    ensures Consistent(Run(s, ops))
    decreases |ops|
  {
    if ops != [] {
      ApplyConsistent(s, ops[0]);
      RunConsistent(Apply(s, ops[0]), ops[1..]);
    }
  }

  lemma {:induction false} StartConsistent()
    ensures Consistent(START)
  {
  }

  // ---- What a step leaves -------------------------------------------------------------------------

  /** An assignment is taken if it begins after the employee's current one, which then ends the day before; the
      other employees, the records and the periods stay. */
  lemma {:induction false} AssignmentTaken(s: State, employee: nat, from: int, store: nat)
    ensures var after, h := Apply(s, OnAssignment(employee, from, store)), JobsOf(s.jobs, employee);
            && after.records == s.records && after.periods == s.periods
            && (forall e: nat :: e != employee ==> JobsOf(after.jobs, e) == JobsOf(s.jobs, e))
            && JobsOf(after.jobs, employee)
               == if h == [] then [EffectiveDates.Period(from, None, store)]
                  else if from <= h[|h| - 1].from then h
                  else h[..|h| - 1]
                       + [EffectiveDates.Period(h[|h| - 1].from, Some(from - 1), h[|h| - 1].value),
                          EffectiveDates.Period(from, None, store)]
  {
  }

  /** A new period is added under the calendar's own rule, with nothing calculated. */
  lemma {:induction false} PeriodCreated(
      s: State, caller: Option<nat>, store: nat, start: int, end: int, payDate: int)
    ensures var after := Apply(s, OnCreate(caller, store, start, end, payDate));
            && after.records == s.records && after.jobs == s.jobs
            && after.periods
               == if (caller == None || caller == Some(store)) && start <= end <= payDate
                     && forall k :: 0 <= k < |s.periods| && s.periods[k].row.store == store ==>
                          s.periods[k].row.start != start || s.periods[k].row.end != end
                  then s.periods + [Period(Row(store, start, end, Payroll.NEW_PERIOD), [], map[])]
                  else s.periods
  {
    PayrollCoverage.CreateDoneIff(Rows(s.periods), caller, store, start, end, payDate);
  }

  /** An accepted calculation keeps the records and the assignments it was made from; whatever else becomes of a
      period leaves them as they are, and no step touches its store or its dates. */
  lemma {:induction false} BasisIsOfCalculation(s: State, i: nat, step: Payroll.Op)
    requires i < |s.periods|
    ensures var (after, o) := Lifecycle(s, i, step);
            var p, q := s.periods[i], after.periods[i];
            && o.Some? && after.records == s.records && after.jobs == s.jobs
            && |after.periods| == |s.periods|
            && (forall k :: 0 <= k < |s.periods| && k != i ==> after.periods[k] == s.periods[k])
            && (q.row.store, q.row.start, q.row.end) == (p.row.store, p.row.start, p.row.end)
            && (step.OpCalculate? && o.value == Payroll.Done ==>
                  && q.basis == s.records && q.staff == s.jobs
                  && q.row.period.results == step.results && q.row.period.calculatedAt == Some(step.now))
            && (step.OpCalculate? && o.value != Payroll.Done ==> q == p)
            && (!step.OpCalculate? ==> q.basis == p.basis && q.staff == p.staff)
  {
  }

  /** An approval goes through if and only if the period stands calculated, someone approves it, and no record of
      its store and dates was updated later than its calculation. */
  lemma {:induction false} ApprovedIff(s: State, i: nat, actor: Option<nat>, flag: bool)
    requires i < |s.periods|
    ensures var (after, o) := Lifecycle(s, i, Payroll.OpApprove(actor, flag));
            var row := s.periods[i].row;
            && (o == Some(Payroll.Done) <==>
                  && row.period.status == Payroll.CALCULATED && actor.Some?
                  && forall k :: 0 <= k < |s.records| && row.period.calculatedAt.Some? && s.records[k].updatedAt.Some?
                                 && s.records[k].store == row.store
                                 && row.start <= s.records[k].workDate <= row.end ==>
                       s.records[k].updatedAt.value <= row.period.calculatedAt.value)
            && after.periods[i].row.period.status
               == if o == Some(Payroll.Done) then Payroll.APPROVED else row.period.status
  {
    var row := s.periods[i].row;
    if Stale(s.records, row) {
      var k :| 0 <= k < |s.records| && Attendance.InPeriod(s.records[k], row.store, row.start, row.end)
               && s.records[k].updatedAt.Some? && s.records[k].updatedAt.value > row.period.calculatedAt.value;
    }
  }

  // ---- Who is paid for what --------------------------------------------------------------------------

  /** The period's entry stands, and the employee was on it when it was calculated. */
  predicate Pays(p: Period, employee: nat) {
    PaysEmployee(JobsOf(p.staff, employee), p.row)
  }

  /** The period pays for this record: it was closed already, on the period's store and dates. */
  predicate Counts(p: Period, employee: nat, i: nat) {
    Pays(p, employee) && i < |p.basis| && Attendance.Counted(p.basis[i], employee, DatesOf(p.row))
  }

  function CountsRecord(employee: nat, i: nat): Period -> bool {
    (p: Period) => Counts(p, employee, i)
  }

  function CountsOne(employee: nat, i: nat): Period -> int {
    Indicator(CountsRecord(employee, i))
  }

  /** How many periods pay for a record. */
  function RecordTimes(s: State, employee: nat, i: nat): int {
    Sum(s.periods, CountsOne(employee, i))
  }

  predicate PaysAt(p: Period, employee: nat, t: int) {
    Pays(p, employee) && t in Attendance.Worked(p.basis, employee, DatesOf(p.row))
  }

  function PaysInstant(employee: nat, t: int): Period -> bool {
    (p: Period) => PaysAt(p, employee, t)
  }

  /** How many periods pay for an instant. */
  function InstantTimes(s: State, employee: nat, t: int): int {
    Sum(s.periods, Indicator(PaysInstant(employee, t)))
  }

  ghost predicate CountedOnce(s: State, employee: nat, i: nat) {
    OnlyOne(s.periods, CountsRecord(employee, i))
  }

  ghost predicate AllCountedOnce(s: State, employee: nat) {
    forall i: nat :: i < |s.records| && Attendance.Counted(s.records[i], employee, Anywhere()) ==>
      CountedOnce(s, employee, i)
  }

  /** No record that a standing period paid for has been corrected since. */
  ghost predicate NoneVoidedSince(s: State, employee: nat) {
    forall k, i: nat :: 0 <= k < |s.periods| && i < |s.records| && Counts(s.periods[k], employee, i) ==>
      s.records[i].status != Attendance.VOIDED
  }

  lemma {:induction false} CountedOnceIff(s: State, employee: nat, i: nat)
    ensures RecordTimes(s, employee, i) >= 0
    ensures RecordTimes(s, employee, i) == 1 <==> CountedOnce(s, employee, i)
  {
    OnlyOneIff(s.periods, CountsRecord(employee, i));
  }

  /** A period that pays for an instant does so through a record of that instant. */
  lemma {:induction false} PaidThrough(s: State, k: nat, employee: nat, t: int) returns (i: nat)
    requires Consistent(s) && k < |s.periods| && PaysAt(s.periods[k], employee, t)
    ensures i < |s.records| && Counts(s.periods[k], employee, i)
    ensures t in Attendance.InstantsOf(s.periods[k].basis[i], employee, DatesOf(s.periods[k].row))
    ensures s.records[i].status != Attendance.VOIDED ==> t in Attendance.InstantsOf(s.records[i], employee, Anywhere())
    ensures s.records[i].store == s.periods[k].row.store
    ensures s.periods[k].row.start <= s.records[i].workDate <= s.periods[k].row.end
  {
    var p := s.periods[k];
    i := Attendance.WorkedBy(p.basis, employee, DatesOf(p.row), t);
    assert PeriodSound(s.records, p);
    assert Kept(p.basis[i], s.records[i]);
    assert Attendance.RowSound(s.records, i);
    assert DatesOf(p.row)(p.basis[i]);
  }

  lemma {:induction false} PaysCountedInstants(s: State, k: nat, employee: nat, i: nat, t: int)
    requires Consistent(s) && k < |s.periods| && i < |s.records| && Counts(s.periods[k], employee, i)
    requires t in Attendance.InstantsOf(s.records[i], employee, Anywhere())
    ensures PaysAt(s.periods[k], employee, t)
  {
    var p := s.periods[k];
    assert PeriodSound(s.records, p);
    assert Kept(p.basis[i], s.records[i]);
    Attendance.AllWorked(p.basis, employee, DatesOf(p.row), i);
  }

  /** The period pays for the instant through a record that was corrected since. */
  predicate PaysCorrected(p: Period, records: seq<Attendance.Record>, employee: nat, t: int) {
    exists j :: 0 <= j < |p.basis| && j < |records| && Counts(p, employee, j) && records[j].status == Attendance.VOIDED
                && t in Attendance.InstantsOf(p.basis[j], employee, DatesOf(p.row))
  }

  function PaysThroughCorrected(records: seq<Attendance.Record>, employee: nat, t: int): Period -> bool {
    (p: Period) => PaysCorrected(p, records, employee, t)
  }

  /** How many periods pay for an instant through corrected records. */
  function CorrectedTimes(s: State, employee: nat, t: int): int {
    Sum(s.periods, Indicator(PaysThroughCorrected(s.records, employee, t)))
  }

  /** A period counts no two records of one instant. */
  lemma {:induction false} CountsOneOfInstant(s: State, k: nat, employee: nat, i: nat, j: nat, t: int)
    requires Consistent(s) && k < |s.periods| && i < |s.records|
    requires Counts(s.periods[k], employee, i) && t in Attendance.InstantsOf(s.records[i], employee, Anywhere())
    requires Counts(s.periods[k], employee, j)
    requires t in Attendance.InstantsOf(s.periods[k].basis[j], employee, DatesOf(s.periods[k].row))
    ensures i == j
  {
    var p := s.periods[k];
    assert PeriodSound(s.records, p);
    assert Kept(p.basis[i], s.records[i]);
    InstantOfOne(p.basis, employee, Anywhere(), t, i, j);
  }

  /** A period pays for an instant worked through its own record or a corrected one, never both. */
  lemma {:induction false} CorrectedPays(s: State, k: nat, employee: nat, i: nat, t: int)
    requires Consistent(s) && k < |s.periods| && PaysCorrected(s.periods[k], s.records, employee, t)
    requires i < |s.records| && t in Attendance.InstantsOf(s.records[i], employee, Anywhere())
    ensures PaysAt(s.periods[k], employee, t) && !Counts(s.periods[k], employee, i)
  {
    var p := s.periods[k];
    var j: nat :| j < |p.basis| && j < |s.records| && Counts(p, employee, j) && s.records[j].status == Attendance.VOIDED
                  && t in Attendance.InstantsOf(p.basis[j], employee, DatesOf(p.row));
    Attendance.AllWorked(p.basis, employee, DatesOf(p.row), j);
    if Counts(p, employee, i) { CountsOneOfInstant(s, k, employee, i, j, t); }
  }

  lemma {:induction false} PaysEitherWay(s: State, k: nat, employee: nat, i: nat, t: int)
    requires Consistent(s) && k < |s.periods|
    requires i < |s.records| && t in Attendance.InstantsOf(s.records[i], employee, Anywhere())
    ensures var p := s.periods[k];
            && (PaysAt(p, employee, t) <==> Counts(p, employee, i) || PaysCorrected(p, s.records, employee, t))
            && !(Counts(p, employee, i) && PaysCorrected(p, s.records, employee, t))
  {
    var p := s.periods[k];
    if PaysCorrected(p, s.records, employee, t) {
      CorrectedPays(s, k, employee, i, t);
    } else if Counts(p, employee, i) {
      PaysCountedInstants(s, k, employee, i, t);
    } else if PaysAt(p, employee, t) {
      var j := PaidThrough(s, k, employee, t);
      if s.records[j].status != Attendance.VOIDED { InstantOfOne(s.records, employee, Anywhere(), t, i, j); }
    }
  }

  /** An instant worked is paid as often as its record, and once more for each standing period that paid for
      it through a record that was corrected since. */
  lemma {:induction false} InstantPaidInTwoWays(s: State, employee: nat, i: nat, t: int)
    requires Consistent(s) && i < |s.records| && t in Attendance.InstantsOf(s.records[i], employee, Anywhere())
    ensures InstantTimes(s, employee, t) == RecordTimes(s, employee, i) + CorrectedTimes(s, employee, t)
  {
    forall k: nat | k < |s.periods|
      ensures Indicator(PaysInstant(employee, t))(s.periods[k])
              == CountsOne(employee, i)(s.periods[k])
                + Indicator(PaysThroughCorrected(s.records, employee, t))(s.periods[k])
    {
      PaysEitherWay(s, k, employee, i, t);
    }
    SumAdd(s.periods, Indicator(PaysInstant(employee, t)), CountsOne(employee, i),
           Indicator(PaysThroughCorrected(s.records, employee, t)));
  }

  /** While no paid record was corrected, an instant is paid as often as its record. */
  lemma {:induction false} InstantPaidWithRecord(s: State, employee: nat, i: nat, t: int)
    requires Consistent(s) && NoneVoidedSince(s, employee)
    requires i < |s.records| && t in Attendance.InstantsOf(s.records[i], employee, Anywhere())
    ensures InstantTimes(s, employee, t) == RecordTimes(s, employee, i)
  {
    InstantPaidInTwoWays(s, employee, i, t);
    SumZero(s.periods, Indicator(PaysThroughCorrected(s.records, employee, t)));
  }

  /** Every instant the employee worked is paid exactly once. */
  ghost predicate EachInstantOnce(s: State, employee: nat) {
    forall t :: t in Attendance.Worked(s.records, employee, Anywhere()) ==> InstantTimes(s, employee, t) == 1
  }

  /** Over every run of clocks, corrections, assignments and payroll: while no record that a standing period
      paid for was corrected since, every instant worked is paid exactly once if and only if each closed
      record was closed already when exactly one standing period of its store and date was calculated. */
  lemma {:induction false} EachInstantOnceIff(ops: seq<Op>, employee: nat)
    requires NoneVoidedSince(Run(START, ops), employee)
    ensures EachInstantOnce(Run(START, ops), employee) <==> AllCountedOnce(Run(START, ops), employee)
  {
    var s := Run(START, ops);
    StartConsistent();
    RunConsistent(START, ops);
    if AllCountedOnce(s, employee) {
      forall t | t in Attendance.Worked(s.records, employee, Anywhere()) ensures InstantTimes(s, employee, t) == 1 {
        var i := Attendance.WorkedBy(s.records, employee, Anywhere(), t);
        InstantPaidWithRecord(s, employee, i, t);
        CountedOnceIff(s, employee, i);
      }
    }
    if EachInstantOnce(s, employee) {
      forall i: nat | i < |s.records| && Attendance.Counted(s.records[i], employee, Anywhere())
        ensures CountedOnce(s, employee, i)
      {
        assert Attendance.RowSound(s.records, i);
        Attendance.AllWorked(s.records, employee, Anywhere(), i);
        InstantPaidWithRecord(s, employee, i, s.records[i].clockIn);
        CountedOnceIff(s, employee, i);
      }
    }
  }

  /** The record is paid once, and no standing period pays any of its instants through a corrected record. */
  ghost predicate PaidAsItStands(s: State, employee: nat, i: nat)
    requires i < |s.records|
  {
    && CountedOnce(s, employee, i)
    && (forall t :: t in Attendance.InstantsOf(s.records[i], employee, Anywhere()) ==>
          forall k :: 0 <= k < |s.periods| ==> !PaysCorrected(s.periods[k], s.records, employee, t))
  }

  /** No standing period counts the record, and exactly one pays each of its instants through a corrected one. */
  ghost predicate PaidAsCorrected(s: State, employee: nat, i: nat)
    requires i < |s.records|
  {
    && (forall k :: 0 <= k < |s.periods| ==> !Counts(s.periods[k], employee, i))
    && (forall t :: t in Attendance.InstantsOf(s.records[i], employee, Anywhere()) ==>
          OnlyOne(s.periods, PaysThroughCorrected(s.records, employee, t)))
  }

  ghost predicate EachPaidEitherWay(s: State, employee: nat) {
    forall i: nat :: i < |s.records| && Attendance.Counted(s.records[i], employee, Anywhere()) ==>
      PaidAsItStands(s, employee, i) || PaidAsCorrected(s, employee, i)
  }

  lemma {:induction false} NoneIff<T>(rows: seq<T>, p: T -> bool)
    ensures Sum(rows, Indicator(p)) >= 0
    ensures Sum(rows, Indicator(p)) == 0 <==> forall k :: 0 <= k < |rows| ==> !p(rows[k])
  {
    CountOne(rows, Indicator(p));
    assert forall k :: 0 <= k < |rows| ==> (Indicator(p)(rows[k]) == 0 <==> !p(rows[k]));
  }

  lemma {:induction false} NotCountedIff(s: State, employee: nat, i: nat)
    ensures RecordTimes(s, employee, i) >= 0
    ensures RecordTimes(s, employee, i) == 0 <==>
            forall k :: 0 <= k < |s.periods| ==> !Counts(s.periods[k], employee, i)
  {
    NoneIff(s.periods, CountsRecord(employee, i));
    assert forall k :: 0 <= k < |s.periods| ==>
      (CountsRecord(employee, i)(s.periods[k]) <==> Counts(s.periods[k], employee, i));
  }

  lemma {:induction false} NotCorrectedIff(s: State, employee: nat, t: int)
    ensures CorrectedTimes(s, employee, t) >= 0
    ensures CorrectedTimes(s, employee, t) == 0 <==>
            forall k :: 0 <= k < |s.periods| ==> !PaysCorrected(s.periods[k], s.records, employee, t)
    ensures CorrectedTimes(s, employee, t) == 1 <==> OnlyOne(s.periods, PaysThroughCorrected(s.records, employee, t))
  {
    var p := PaysThroughCorrected(s.records, employee, t);
    NoneIff(s.periods, p);
    OnlyOneIff(s.periods, p);
    assert forall k :: 0 <= k < |s.periods| ==>
      (p(s.periods[k]) <==> PaysCorrected(s.periods[k], s.records, employee, t));
  }

  lemma {:induction false} AsItStandsIff(s: State, employee: nat, i: nat)
    requires i < |s.records|
    ensures PaidAsItStands(s, employee, i) <==>
            && RecordTimes(s, employee, i) == 1
            && forall t :: t in Attendance.InstantsOf(s.records[i], employee, Anywhere()) ==>
                 CorrectedTimes(s, employee, t) == 0
  {
    CountedOnceIff(s, employee, i);
    forall t { NotCorrectedIff(s, employee, t); }
  }

  lemma {:induction false} AsCorrectedIff(s: State, employee: nat, i: nat)
    requires i < |s.records|
    ensures PaidAsCorrected(s, employee, i) <==>
            && RecordTimes(s, employee, i) == 0
            && forall t :: t in Attendance.InstantsOf(s.records[i], employee, Anywhere()) ==>
                 CorrectedTimes(s, employee, t) == 1
  {
    NotCountedIff(s, employee, i);
    forall t { NotCorrectedIff(s, employee, t); }
  }

  /** All instants of one record are paid exactly once if and only if the record is paid as it stands or as
      corrected. */
  lemma {:induction false} RecordPaidIff(s: State, employee: nat, i: nat)
    requires Consistent(s) && i < |s.records| && Attendance.Counted(s.records[i], employee, Anywhere())
    ensures (forall t :: t in Attendance.InstantsOf(s.records[i], employee, Anywhere()) ==>
               InstantTimes(s, employee, t) == 1)
            <==> PaidAsItStands(s, employee, i) || PaidAsCorrected(s, employee, i)
  {
    var instants := Attendance.InstantsOf(s.records[i], employee, Anywhere());
    AsItStandsIff(s, employee, i);
    AsCorrectedIff(s, employee, i);
    CountedOnceIff(s, employee, i);
    assert s.records[i].clockIn in instants by { assert Attendance.RowSound(s.records, i); }
    forall t | t in instants
      ensures InstantTimes(s, employee, t) == RecordTimes(s, employee, i) + CorrectedTimes(s, employee, t)
      ensures CorrectedTimes(s, employee, t) >= 0
    {
      InstantPaidInTwoWays(s, employee, i, t);
      NotCorrectedIff(s, employee, t);
    }
  }

  lemma {:induction false} InstantsByRecord(s: State, employee: nat)
    ensures EachInstantOnce(s, employee) <==>
            forall i: nat, t: int ::
              i < |s.records| && t in Attendance.InstantsOf(s.records[i], employee, Anywhere()) ==>
                InstantTimes(s, employee, t) == 1
  {
    if EachInstantOnce(s, employee) {
      forall i: nat, t: int | i < |s.records| && t in Attendance.InstantsOf(s.records[i], employee, Anywhere())
        ensures InstantTimes(s, employee, t) == 1
      {
        Attendance.AllWorked(s.records, employee, Anywhere(), i);
      }
    } else {
      var t :| t in Attendance.Worked(s.records, employee, Anywhere()) && InstantTimes(s, employee, t) != 1;
      var i := Attendance.WorkedBy(s.records, employee, Anywhere(), t);
    }
  }

  /** Over every run, corrected or not: every instant worked is paid exactly once if and only if each closed
      record either is counted by one standing period, none of which pays its instants through a corrected
      record, or is counted by none and has each of its instants paid through exactly one. */
  lemma {:induction false} EachInstantOnceEitherWay(ops: seq<Op>, employee: nat)
    ensures EachInstantOnce(Run(START, ops), employee) <==> EachPaidEitherWay(Run(START, ops), employee)
  {
    var s := Run(START, ops);
    StartConsistent();
    RunConsistent(START, ops);
    InstantsByRecord(s, employee);
    forall i: nat | i < |s.records| && Attendance.Counted(s.records[i], employee, Anywhere())
      ensures (forall t :: t in Attendance.InstantsOf(s.records[i], employee, Anywhere()) ==>
                 InstantTimes(s, employee, t) == 1)
              <==> PaidAsItStands(s, employee, i) || PaidAsCorrected(s, employee, i)
    {
      RecordPaidIff(s, employee, i);
    }
  }

  // ---- Double payment ----------------------------------------------------------------------------------

  /** No two periods that pay the employee share a store and a date. */
  ghost predicate KeptApart(s: State, employee: nat) {
    forall j, k :: 0 <= j < k < |s.periods| && Pays(s.periods[j], employee) && Pays(s.periods[k], employee) ==>
      Disjoint(s.periods[j].row, s.periods[k].row)
  }

  /** Among periods that are kept apart, an instant paid twice lies in a record that a standing period paid
      for and that was corrected since. */
  lemma {:induction false} DoublyPaidIsCorrected(s: State, employee: nat, t: int) returns (k: nat, i: nat)
    requires Consistent(s) && KeptApart(s, employee) && InstantTimes(s, employee, t) > 1
    ensures k < |s.periods| && i < |s.records| && Counts(s.periods[k], employee, i)
    ensures t in Attendance.InstantsOf(s.periods[k].basis[i], employee, DatesOf(s.periods[k].row))
    ensures s.records[i].status == Attendance.VOIDED
  {
    var a, b := TwoOf(s.periods, PaysInstant(employee, t));
    var i1 := PaidThrough(s, a, employee, t);
    var i2 := PaidThrough(s, b, employee, t);
    if s.records[i1].status == Attendance.VOIDED { return a, i1; }
    if s.records[i2].status == Attendance.VOIDED { return b, i2; }
    assert Counts(s.periods[a], employee, i1) && Counts(s.periods[b], employee, i2);
    assert Disjoint(s.periods[a].row, s.periods[b].row);
    InstantOfOne(s.records, employee, Anywhere(), t, i1, i2);
    assert false;
  }

  /** Over every run, an instant paid twice by periods kept apart is in a corrected record. */
  lemma {:induction false} RunDoublyPaidIsCorrected(ops: seq<Op>, employee: nat, t: int)
    requires KeptApart(Run(START, ops), employee) && InstantTimes(Run(START, ops), employee, t) > 1
    ensures var s := Run(START, ops);
            exists k, i: nat :: 0 <= k < |s.periods| && i < |s.records| && Counts(s.periods[k], employee, i)
                                && t in Attendance.InstantsOf(s.periods[k].basis[i], employee,
                                     DatesOf(s.periods[k].row))
                                && s.records[i].status == Attendance.VOIDED
  {
    StartConsistent();
    RunConsistent(START, ops);
    var k, i := DoublyPaidIsCorrected(Run(START, ops), employee, t);
  }

  ghost predicate NonePaidTwice(s: State, employee: nat) {
    forall t :: InstantTimes(s, employee, t) <= 1
  }

  lemma {:induction false} ApartPaysOnce(s: State, employee: nat)
    requires Consistent(s) && KeptApart(s, employee) && NoneVoidedSince(s, employee)
    ensures NonePaidTwice(s, employee)
  {
    forall t ensures InstantTimes(s, employee, t) <= 1 {
      if InstantTimes(s, employee, t) > 1 {
        var k, i := DoublyPaidIsCorrected(s, employee, t);
        assert false;
      }
    }
  }

  /** The same periods in the same states, calculated for the same assignments. */
  ghost predicate SameCalendar(s: State, other: State) {
    |s.periods| == |other.periods|
    && forall k :: 0 <= k < |s.periods| ==>
         s.periods[k].row == other.periods[k].row && s.periods[k].staff == other.periods[k].staff
  }

  lemma {:induction false} SameCalendarApart(s: State, other: State, employee: nat)
    requires SameCalendar(s, other)
    ensures KeptApart(s, employee) <==> KeptApart(other, employee)
  {
    forall k | 0 <= k < |s.periods| ensures Pays(s.periods[k], employee) <==> Pays(other.periods[k], employee) { }
  }

  // ---- The same calendar around a single shift ------------------------------------------------------------

  function EarlyShift(employee: nat, store: nat, date: int, now: int): seq<Op> {
    [OnAttendance(Attendance.OpIn(None, employee, store, 0, date, true, now)),
     OnAttendance(Attendance.OpOut(None, 0, 8, now))]
  }

  function EarlyRecord(employee: nat, store: nat, date: int, now: int): Attendance.Record {
    Attendance.Record(employee, store, date, 0, Some(8), Attendance.CLOSED, None, Some(now))
  }

  lemma {:induction false} EarlyShiftRun(employee: nat, store: nat, date: int, now: int)
    ensures Run(START, EarlyShift(employee, store, date, now))
            == START.(records := [EarlyRecord(employee, store, date, now)])
  {
    var ops := EarlyShift(employee, store, date, now);
    var open := Attendance.Record(employee, store, date, 0, None, Attendance.OPEN, None, None);
    var mid, end := START.(records := [open]), START.(records := [EarlyRecord(employee, store, date, now)]);
    assert Attendance.Apply([], ops[0].clocking) == [open];
    assert Attendance.Apply([open], ops[1].clocking) == end.records;
    assert ops[1..][1..] == [];
    assert Run(mid, ops[1..]) == Run(end, []);
  }

  /** What a run does besides attendance: the steps that change something. */
  ghost function Calendar(s: State, ops: seq<Op>): seq<Op>
    decreases |ops|
  {
    if ops == [] then []
    else (if ops[0].OnAttendance? || Apply(s, ops[0]) == s then [] else [ops[0]])
         + Calendar(Apply(s, ops[0]), ops[1..])
  }

  /** No calculation is earlier than this. */
  predicate NotBefore(ops: seq<Op>, now: int) {
    forall j :: 0 <= j < |ops| && ops[j].OnPeriod? && ops[j].step.OpCalculate? ==> now <= ops[j].step.now
  }

  function Earliest(ops: seq<Op>): (now: int)
    ensures NotBefore(ops, now)
  {
    if ops == [] then 0
    else
      var rest := Earliest(ops[1..]);
      assert forall j :: 0 < j < |ops| ==> ops[j] == ops[1..][j - 1];
      if ops[0].OnPeriod? && ops[0].step.OpCalculate? && ops[0].step.now < rest then ops[0].step.now else rest
  }

  /** The same calendar, with nothing but one early record to calculate from. */
  ghost predicate Mirrors(s: State, other: State, r: Attendance.Record, now: int) {
    && SameCalendar(s, other) && s.jobs == other.jobs && other.records == [r] && r.updatedAt == Some(now)
    && (forall k :: 0 <= k < |s.periods| && s.periods[k].row.period.calculatedAt.Some? ==>
          other.periods[k].basis == [r] && now <= s.periods[k].row.period.calculatedAt.value)
  }

  lemma {:induction false} MirrorPeriod(s: State, other: State, r: Attendance.Record, now: int, i: nat,
      step: Payroll.Op)
    requires Mirrors(s, other, r, now) && i < |s.periods| && Lifecycle(s, i, step).0 != s
    requires step.OpCalculate? ==> now <= step.now
    ensures Mirrors(Lifecycle(s, i, step).0, Lifecycle(other, i, step).0, r, now)
  {
    var p, q := s.periods[i], other.periods[i];
    var checked := Checked(s.records, p.row, step);
    if step.OpApprove? {
      assert s.periods == s.periods[i := p];
      assert Moved(s, p, step) != p;
      assert !Stale([r], q.row);
      assert !checked.stale;
    }
    assert Checked(other.records, q.row, step) == checked;
  }

  lemma {:induction false} MirrorStep(s: State, other: State, r: Attendance.Record, now: int, op: Op)
    requires Mirrors(s, other, r, now) && !op.OnAttendance? && Apply(s, op) != s && NotBefore([op], now)
    ensures Mirrors(Apply(s, op), Apply(other, op), r, now)
  {
    match op
    case OnAssignment(_, _, _) =>
    case OnCreate(_, _, _, _, _) => assert Rows(s.periods) == Rows(other.periods);
    case OnPeriod(i, step) =>
      assert [op][0] == op;
      MirrorPeriod(s, other, r, now, i, step);
  }

  lemma {:induction false} CalendarMirrors(s: State, other: State, r: Attendance.Record, now: int, ops: seq<Op>)
    requires Mirrors(s, other, r, now) && NotBefore(ops, now)
    ensures Mirrors(Run(s, ops), Run(other, Calendar(s, ops)), r, now)
    decreases |ops|
  {
    if ops != [] {
      var after, rest := Apply(s, ops[0]), ops[1..];
      assert forall j :: 0 <= j < |rest| ==> rest[j] == ops[j + 1];
      if ops[0].OnAttendance? || after == s {
        assert Calendar(s, ops) == Calendar(after, rest);
        CalendarMirrors(after, other, r, now, rest);
      } else {
        MirrorStep(s, other, r, now, ops[0]);
        assert Calendar(s, ops) == [ops[0]] + Calendar(after, rest);
        CalendarMirrors(after, Apply(other, ops[0]), r, now, rest);
      }
    }
  }

  lemma {:induction false} RunBoth(s: State, a: seq<Op>, b: seq<Op>)
    ensures Run(s, a + b) == Run(Run(s, a), b)
    decreases |a|
  {
    if a == [] {
      assert a + b == b;
    } else {
      assert (a + b)[0] == a[0] && (a + b)[1..] == a[1..] + b;
      RunBoth(Apply(s, a[0]), a[1..], b);
    }
  }

  /** Any calendar a run can arrive at can also be arrived at around one shift that was there first. */
  lemma {:induction false} AroundOneShift(ops: seq<Op>, employee: nat, store: nat, date: int)
      returns (others: seq<Op>, r: Attendance.Record)
    ensures r == EarlyRecord(employee, store, date, Earliest(ops))
    ensures Mirrors(Run(START, ops), Run(START, others), r, Earliest(ops))
  {
    var now := Earliest(ops);
    r := EarlyRecord(employee, store, date, now);
    var first := EarlyShift(employee, store, date, now);
    others := first + Calendar(START, ops);
    EarlyShiftRun(employee, store, date, now);
    CalendarMirrors(START, START.(records := [r]), r, now, ops);
    RunBoth(START, first, Calendar(START, ops));
  }

  /** A standing period of the mirrored calendar pays the one shift, when it is of its store and dates. */
  lemma {:induction false} MirrorPays(s: State, other: State, r: Attendance.Record, now: int, employee: nat, k: nat)
    requires Consistent(s) && Consistent(other) && Mirrors(s, other, r, now) && k < |s.periods|
    requires Pays(s.periods[k], employee) && DatesOf(s.periods[k].row)(r)
    requires r == EarlyRecord(employee, r.store, r.workDate, now)
    ensures PaysAt(other.periods[k], employee, 0)
  {
    assert Rows(s.periods)[k] == s.periods[k].row;
    assert Payroll.Sound(s.periods[k].row.period);
    assert other.periods[k].basis == [r];
    assert Counts(other.periods[k], employee, 0);
    PaysCountedInstants(other, k, employee, 0, 0);
  }

  lemma {:induction false} MirrorPaysTwice(s: State, other: State, r: Attendance.Record, now: int, employee: nat,
      j: nat, k: nat)
    requires Consistent(s) && Consistent(other) && Mirrors(s, other, r, now) && j < k < |s.periods|
    requires Pays(s.periods[j], employee) && DatesOf(s.periods[j].row)(r)
    requires Pays(s.periods[k], employee) && DatesOf(s.periods[k].row)(r)
    requires r == EarlyRecord(employee, r.store, r.workDate, now)
    ensures !NonePaidTwice(other, employee)
  {
    MirrorPays(s, other, r, now, employee, j);
    MirrorPays(s, other, r, now, employee, k);
    assert PaysInstant(employee, 0)(other.periods[j]) && PaysInstant(employee, 0)(other.periods[k]);
    MoreThanOne(other.periods, PaysInstant(employee, 0), j, k);
    assert InstantTimes(other, employee, 0) > 1;
  }

  lemma {:induction false} MirrorUncorrected(s: State, other: State, r: Attendance.Record, now: int, employee: nat)
    requires Mirrors(s, other, r, now) && r.status == Attendance.CLOSED
    ensures SameCalendar(other, s) && NoneVoidedSince(other, employee)
  {
  }

  lemma {:induction false} SharedDate(a: Row, b: Row) returns (date: int)
    requires a.start <= a.end && b.start <= b.end && !Disjoint(a, b)
    ensures a.store == b.store && a.start <= date <= a.end && b.start <= date <= b.end
  {
    date := if a.start < b.start then b.start else a.start;
  }

  /** The same calendar around one shift of a date that two of its periods share. */
  lemma {:induction false} AroundSharedDate(ops: seq<Op>, employee: nat, j: nat, k: nat)
      returns (others: seq<Op>, r: Attendance.Record)
    requires var s := Run(START, ops); j < k < |s.periods| && !Disjoint(s.periods[j].row, s.periods[k].row)
    ensures Mirrors(Run(START, ops), Run(START, others), r, Earliest(ops))
    ensures r == EarlyRecord(employee, r.store, r.workDate, Earliest(ops))
    ensures DatesOf(Run(START, ops).periods[j].row)(r) && DatesOf(Run(START, ops).periods[k].row)(r)
  {
    var periods := Run(START, ops).periods;
    StartConsistent();
    RunConsistent(START, ops);
    assert Rows(periods)[j] == periods[j].row && Rows(periods)[k] == periods[k].row;
    var date := SharedDate(periods[j].row, periods[k].row);
    others, r := AroundOneShift(ops, employee, periods[j].row.store, date);
  }

  lemma {:induction false} SharedDatePaysTwice(ops: seq<Op>, employee: nat, j: nat, k: nat) returns (others: seq<Op>)
    requires var s := Run(START, ops);
             && j < k < |s.periods| && Pays(s.periods[j], employee) && Pays(s.periods[k], employee)
             && !Disjoint(s.periods[j].row, s.periods[k].row)
    ensures var other := Run(START, others);
            SameCalendar(other, Run(START, ops)) && NoneVoidedSince(other, employee) && !NonePaidTwice(other, employee)
  {
    var r;
    others, r := AroundSharedDate(ops, employee, j, k);
    StartConsistent();
    RunConsistent(START, ops);
    RunConsistent(START, others);
    MirrorPaysTwice(Run(START, ops), Run(START, others), r, Earliest(ops), employee, j, k);
    MirrorUncorrected(Run(START, ops), Run(START, others), r, Earliest(ops), employee);
  }

  /** Whatever attendance the same periods had been calculated on, none of it corrected since, no instant of
      the employee is paid twice. */
  ghost predicate NeverPaidTwice(ops: seq<Op>, employee: nat) {
    forall others: seq<Op> ::
      SameCalendar(Run(START, others), Run(START, ops)) && NoneVoidedSince(Run(START, others), employee) ==>
        NonePaidTwice(Run(START, others), employee)
  }

  /** Over every run: its periods never pay an instant twice, whatever attendance leads to the same calendar
      without a later correction, if and only if those that pay the employee share no store and date. */
  lemma {:induction false} NeverPaidTwiceIff(ops: seq<Op>, employee: nat)
    ensures KeptApart(Run(START, ops), employee) <==> NeverPaidTwice(ops, employee)
  {
    var s := Run(START, ops);
    if KeptApart(s, employee) {
      forall others: seq<Op>
        | SameCalendar(Run(START, others), s) && NoneVoidedSince(Run(START, others), employee)
        ensures NonePaidTwice(Run(START, others), employee)
      {
        StartConsistent();
        RunConsistent(START, others);
        SameCalendarApart(Run(START, others), s, employee);
        ApartPaysOnce(Run(START, others), employee);
      }
    } else {
      var j: nat, k: nat :| j < k < |s.periods| && Pays(s.periods[j], employee) && Pays(s.periods[k], employee)
                            && !Disjoint(s.periods[j].row, s.periods[k].row);
      var others := SharedDatePaysTwice(ops, employee, j, k);
      assert !NeverPaidTwice(ops, employee);
    }
  }

  // ---- Total pay -------------------------------------------------------------------------------------------

  /** The time of the employee that one period pays: its basis, added up. */
  function PaidTime(employee: nat): Period -> int {
    (p: Period) => if Pays(p, employee) then Sum(p.basis, Attendance.Length(employee, DatesOf(p.row))) else 0
  }

  function TotalTime(s: State, employee: nat): int {
    Sum(s.periods, PaidTime(employee))
  }

  function ShareOf(p: Period, employee: nat, i: nat): int {
    if Counts(p, employee, i) then Attendance.Length(employee, DatesOf(p.row))(p.basis[i]) else 0
  }

  function Share(employee: nat, i: nat): Period -> int {
    (p: Period) => ShareOf(p, employee, i)
  }

  function Shares(periods: seq<Period>, employee: nat, n: nat): (v: seq<int>)
    ensures |v| == n && forall i: nat :: i < n ==> v[i] == Sum(periods, Share(employee, i))
  {
    seq(n, i requires 0 <= i => Sum(periods, Share(employee, i)))
  }

  lemma {:induction false} OwnShares(p: Period, employee: nat, n: nat, v: seq<int>)
    requires |p.basis| <= n == |v| && forall i: nat :: i < n ==> v[i] == Share(employee, i)(p)
    ensures Sum(v, Identity) == PaidTime(employee)(p)
  {
    var m := |p.basis|;
    SumSplit(v, m, Identity);
    forall i | 0 <= i < |v[m..]| ensures Identity(v[m..][i]) == 0 {
      assert v[m..][i] == v[m + i] == Share(employee, m + i)(p);
    }
    SumZero(v[m..], Identity);
    forall i: nat | i < m ensures v[..m][i] == v[i] == Share(employee, i)(p) { }
    if Pays(p, employee) {
      SumSame(v[..m], p.basis, Identity, Attendance.Length(employee, DatesOf(p.row)));
    } else {
      SumZero(v[..m], Identity);
    }
  }

  lemma {:induction false} TotalByRecord(periods: seq<Period>, employee: nat, n: nat)
    requires forall k :: 0 <= k < |periods| ==> |periods[k].basis| <= n
    ensures Sum(periods, PaidTime(employee)) == Sum(Shares(periods, employee, n), Identity)
  {
    if periods == [] {
      SumZero(Shares(periods, employee, n), Identity);
    } else {
      var rest := periods[1..];
      assert forall k :: 0 <= k < |rest| ==> rest[k] == periods[k + 1];
      TotalByRecord(rest, employee, n);
      var own := seq(n, i requires 0 <= i => Share(employee, i)(periods[0]));
      OwnShares(periods[0], employee, n, own);
      SumPairwise(own, Shares(rest, employee, n), Shares(periods, employee, n));
    }
  }

  lemma {:induction false} EqualShares(periods: seq<Period>, employee: nat, i: nat, length: int)
    requires forall k :: 0 <= k < |periods| && Counts(periods[k], employee, i) ==>
             Share(employee, i)(periods[k]) == length
    ensures Sum(periods, Share(employee, i)) == length * Sum(periods, CountsOne(employee, i))
  {
    if periods != [] {
      var rest := periods[1..];
      assert forall k :: 0 <= k < |rest| ==> rest[k] == periods[k + 1];
      EqualShares(rest, employee, i, length);
      var one, others := CountsOne(employee, i)(periods[0]), Sum(rest, CountsOne(employee, i));
      assert length * (one + others) == length * one + length * others;
      assert one == 1 ==> Share(employee, i)(periods[0]) == length * one;
    }
  }

  /** While no paid record was corrected, each is paid its length as often as periods count it. */
  lemma {:induction false} ShareOfRecord(s: State, employee: nat, i: nat)
    requires Consistent(s) && NoneVoidedSince(s, employee) && i < |s.records|
    ensures Sum(s.periods, Share(employee, i))
            == Attendance.Length(employee, Anywhere())(s.records[i]) * RecordTimes(s, employee, i)
  {
    var length := Attendance.Length(employee, Anywhere())(s.records[i]);
    forall k | 0 <= k < |s.periods| && Counts(s.periods[k], employee, i)
      ensures Share(employee, i)(s.periods[k]) == length
    {
      assert PeriodSound(s.records, s.periods[k]);
      var a, b := s.periods[k].basis[i], s.records[i];
      assert Kept(a, b);
      assert Attendance.Counted(a, employee, DatesOf(s.periods[k].row)) && b.status == Attendance.CLOSED;
      assert Anywhere()(b) && Attendance.Counted(b, employee, Anywhere());
      assert length == b.clockOut.value - b.clockIn;
    }
    EqualShares(s.periods, employee, i, length);
  }

  ghost predicate NoneCountedTwice(s: State, employee: nat) {
    forall i: nat :: i < |s.records| && Attendance.Counted(s.records[i], employee, Anywhere()) ==>
      RecordTimes(s, employee, i) <= 1
  }

  ghost predicate NoneForgotten(s: State, employee: nat) {
    forall i: nat :: i < |s.records| && Attendance.Counted(s.records[i], employee, Anywhere()) ==>
      RecordTimes(s, employee, i) >= 1
  }

  lemma {:induction false} LengthTimesOrder(length: int, times: int)
    requires length >= 0 && times >= 0
    ensures length == 0 || times <= 1 ==> length * times <= length
    ensures length == 0 || times >= 1 ==> length <= length * times
    ensures length > 0 ==> (length * times == length <==> times == 1)
  {
    assert length * times == length + length * (times - 1);
    if length > 0 && times > 1 { assert length * (times - 1) > 0; }
  }

  lemma {:induction false} ShareOrder(s: State, employee: nat, i: nat)
    requires Consistent(s) && NoneVoidedSince(s, employee) && i < |s.records|
    ensures var length := Attendance.Length(employee, Anywhere())(s.records[i]);
            var share, times := Sum(s.periods, Share(employee, i)), RecordTimes(s, employee, i);
            && length >= 0 && (length > 0 <==> Attendance.Counted(s.records[i], employee, Anywhere()))
            && (length == 0 || times <= 1 ==> share <= length)
            && (length == 0 || times >= 1 ==> length <= share)
            && (length > 0 ==> (share == length <==> CountedOnce(s, employee, i)))
  {
    var length, times := Attendance.Length(employee, Anywhere())(s.records[i]), RecordTimes(s, employee, i);
    assert Attendance.RowSound(s.records, i);
    ShareOfRecord(s, employee, i);
    CountedOnceIff(s, employee, i);
    LengthTimesOrder(length, times);
  }

  /** Over every run: while no paid record was corrected, and none is paid twice or none left out, an
      employee's pay is the time worked if and only if every closed record is paid once. */
  lemma {:induction false} PayIsTimeWorkedIff(ops: seq<Op>, employee: nat)
    requires NoneVoidedSince(Run(START, ops), employee)
    requires NoneCountedTwice(Run(START, ops), employee) || NoneForgotten(Run(START, ops), employee)
    ensures var s := Run(START, ops);
            TotalTime(s, employee) == |Attendance.Worked(s.records, employee, Anywhere())|
            <==> AllCountedOnce(s, employee)
  {
    StartConsistent();
    RunConsistent(START, ops);
    PayIsTimeWorked(Run(START, ops), employee);
  }

  lemma {:induction false} PayIsTimeWorked(s: State, employee: nat)
    requires Consistent(s) && NoneVoidedSince(s, employee)
    requires NoneCountedTwice(s, employee) || NoneForgotten(s, employee)
    ensures TotalTime(s, employee) == |Attendance.Worked(s.records, employee, Anywhere())|
            <==> AllCountedOnce(s, employee)
  {
    var length, n := Attendance.Length(employee, Anywhere()), |s.records|;
    var shares := Shares(s.periods, employee, n);
    forall k | 0 <= k < |s.periods| ensures |s.periods[k].basis| <= n { assert PeriodSound(s.records, s.periods[k]); }
    TotalByRecord(s.periods, employee, n);
    WorkedTime(s.records, employee, Anywhere());
    SharesOrdered(s, employee, shares);
    SameTotalIff(shares, s.records, length);
  }

  lemma {:induction false} SharesOrdered(s: State, employee: nat, shares: seq<int>)
    requires Consistent(s) && NoneVoidedSince(s, employee) && shares == Shares(s.periods, employee, |s.records|)
    ensures var length := Attendance.Length(employee, Anywhere());
            && (NoneCountedTwice(s, employee) ==> forall i :: 0 <= i < |shares| ==> shares[i] <= length(s.records[i]))
            && (NoneForgotten(s, employee) ==> forall i :: 0 <= i < |shares| ==> length(s.records[i]) <= shares[i])
            && (AllCountedOnce(s, employee) <==> forall i :: 0 <= i < |shares| ==> shares[i] == length(s.records[i]))
  {
    var length := Attendance.Length(employee, Anywhere());
    forall i: nat | i < |shares|
      ensures NoneCountedTwice(s, employee) ==> shares[i] <= length(s.records[i])
      ensures NoneForgotten(s, employee) ==> length(s.records[i]) <= shares[i]
      ensures shares[i] == length(s.records[i]) <==>
              (Attendance.Counted(s.records[i], employee, Anywhere()) ==> CountedOnce(s, employee, i))
    {
      ShareOrder(s, employee, i);
    }
  }

  /** Totals of a column that bounds another, row by row, agree only when every row does. */
  lemma {:induction false} SameTotalIff<T>(a: seq<int>, rows: seq<T>, f: T -> int)
    requires |a| == |rows|
    requires (forall i :: 0 <= i < |a| ==> a[i] <= f(rows[i])) || (forall i :: 0 <= i < |a| ==> f(rows[i]) <= a[i])
    ensures Sum(a, Identity) == Sum(rows, f) <==> forall i :: 0 <= i < |a| ==> a[i] == f(rows[i])
  {
    if forall i :: 0 <= i < |a| ==> a[i] <= f(rows[i]) {
      SumMono(a, rows, Identity, f);
    } else {
      SumMono(rows, a, f, Identity);
    }
    if forall i :: 0 <= i < |a| ==> a[i] == f(rows[i]) { SumSame(a, rows, Identity, f); }
  }

  // ---- The failing runs --------------------------------------------------------------------------------------

  function PostedAt(now: int): Payroll.Period {
    var totals := Payroll.TotalsOf([EIGHT_HOURS]);
    Payroll.Period(Payroll.POSTED, Some(1), Some(now), Some(1), [EIGHT_HOURS], totals,
      [Payroll.EntryLines(totals, false)], [])
  }

  /** Opened, calculated at `now`, approved and posted. */
  function Posting(i: nat, now: int): seq<Op> {
    [OnPeriod(i, Payroll.OpOpen), OnPeriod(i, Payroll.OpCalculate(Some(1), now, [EIGHT_HOURS])),
     OnPeriod(i, Payroll.OpApprove(Some(1), false)), OnPeriod(i, Payroll.OpPost(Some(1)))]
  }

  lemma {:induction false} ResultsAccepted()
    ensures Payroll.AllChecked([EIGHT_HOURS]) && Payroll.EntryLines(Payroll.TotalsOf([EIGHT_HOURS]), false) != []
  {
    SumOne(EIGHT_HOURS, Payroll.Gross);
    SumOne(EIGHT_HOURS, Payroll.Deductions);
    SumOne(EIGHT_HOURS, Payroll.Contributions);
    SumOne(EIGHT_HOURS, Payroll.Net);
    Payroll.PostingEmptyIff(Payroll.TotalsOf([EIGHT_HOURS]), false);
  }

  lemma {:induction false} OneStep(s: State, op: Op)
    ensures Run(s, [op]) == Apply(s, op)
  {
    assert [op][1..] == [];
  }

  lemma {:induction false} TwoSteps(s: State, a: Op, b: Op)
    ensures Run(s, [a] + [b]) == Apply(Apply(s, a), b)
  {
    RunBoth(s, [a], [b]);
    OneStep(s, a);
    OneStep(Apply(s, a), b);
  }

  lemma {:induction false} FourSteps(s: State, ops: seq<Op>)
    requires |ops| == 4
    ensures Run(s, ops) == Apply(Apply(Apply(Apply(s, ops[0]), ops[1]), ops[2]), ops[3])
  {
    assert ops == ([ops[0]] + [ops[1]]) + ([ops[2]] + [ops[3]]);
    RunBoth(s, [ops[0]] + [ops[1]], [ops[2]] + [ops[3]]);
    TwoSteps(s, ops[0], ops[1]);
    TwoSteps(Apply(Apply(s, ops[0]), ops[1]), ops[2], ops[3]);
  }

  lemma {:induction false} PostPeriod(s: State, i: nat, now: int)
    requires i < |s.periods| && s.periods[i].row.period == Payroll.NEW_PERIOD
    requires var row := s.periods[i].row; !Attendance.LooksStale(s.records, row.store, row.start, row.end, now)
    ensures Run(s, Posting(i, now))
            == s.(periods := s.periods[i := Period(s.periods[i].row.(period := PostedAt(now)), s.records, s.jobs)])
  {
    var row, totals := s.periods[i].row, Payroll.TotalsOf([EIGHT_HOURS]);
    var begun := Payroll.NEW_PERIOD.(status := Payroll.OPEN);
    var calculated := Payroll.Period(Payroll.CALCULATED, Some(1), Some(now), None, [EIGHT_HOURS], totals, [], []);
    var approved := calculated.(status := Payroll.APPROVED, approvedBy := Some(1));
    var p1, p2 := s.periods[i].(row := row.(period := begun)), Period(row.(period := calculated), s.records, s.jobs);
    var p3, p4 := p2.(row := row.(period := approved)), p2.(row := row.(period := PostedAt(now)));
    ResultsAccepted();
    FourSteps(s, Posting(i, now));
    assert Moved(s, s.periods[i], Payroll.OpOpen) == p1;
    assert Moved(s, p1, Payroll.OpCalculate(Some(1), now, [EIGHT_HOURS])) == p2;
    assert Moved(s, p2, Payroll.OpApprove(Some(1), false)) == p3;
    assert Payroll.Step(approved, Payroll.OpPost(Some(1))).0 == PostedAt(now);
    assert Moved(s, p3, Payroll.OpPost(Some(1))) == p4;
    var s1, s2 := s.(periods := s.periods[i := p1]), s.(periods := s.periods[i := p2]);
    var s3, s4 := s.(periods := s.periods[i := p3]), s.(periods := s.periods[i := p4]);
    assert Apply(s, Posting(i, now)[0]) == s1;
    assert Apply(s1, Posting(i, now)[1]) == s2;
    assert Apply(s2, Posting(i, now)[2]) == s3;
    assert Apply(s3, Posting(i, now)[3]) == s4;
  }

  function Hired(employee: nat): Staff {
    map[employee := ASSIGNED]
  }

  /** An employee of store 0, an overnight shift of day 9, and the periods of days 1-9 and 10-20. */
  function Overnight(employee: nat): seq<Op> {
    [OnAssignment(employee, 1, 0), OnCreate(None, 0, 1, 9, 9), OnCreate(None, 0, 10, 20, 20)]
    + EarlyShift(employee, 0, 9, 1)
  }

  /** Its clock-in is moved past the day boundary: the replacement is of day 10. */
  const PAST_MIDNIGHT: Attendance.Op := Attendance.OpCorrect(None, 0, 2, Some(8), 10, 6)

  function CorrectedOvernight(employee: nat): seq<Op> {
    (Overnight(employee) + Posting(0, 5)) + ([OnAttendance(PAST_MIDNIGHT)] + Posting(1, 7))
  }

  function NewPeriod(start: int, end: int): Period {
    Period(Row(0, start, end, Payroll.NEW_PERIOD), [], map[])
  }

  lemma {:induction false} HiredAndCreated(employee: nat)
    ensures Run(START, [OnAssignment(employee, 1, 0), OnCreate(None, 0, 1, 9, 9), OnCreate(None, 0, 10, 20, 20)])
            == State([], Hired(employee), [NewPeriod(1, 9), NewPeriod(10, 20)])
  {
    var ops := [OnAssignment(employee, 1, 0), OnCreate(None, 0, 1, 9, 9), OnCreate(None, 0, 10, 20, 20)];
    var a := State([], Hired(employee), []);
    var b, c := a.(periods := [NewPeriod(1, 9)]), a.(periods := [NewPeriod(1, 9), NewPeriod(10, 20)]);
    assert Apply(START, ops[0]) == a;
    assert Rows(a.periods) == [];
    assert Apply(a, ops[1]) == b;
    assert Rows(b.periods) == [NewPeriod(1, 9).row];
    assert !Duplicate(Rows(b.periods), 0, 10, 20);
    assert Apply(b, ops[2]) == c;
    assert ops == [ops[0]] + ([ops[1]] + [ops[2]]);
    RunBoth(START, [ops[0]], [ops[1]] + [ops[2]]);
    OneStep(START, ops[0]);
    TwoSteps(a, ops[1], ops[2]);
  }

  lemma {:induction false} OvernightRun(employee: nat)
    ensures Run(START, Overnight(employee))
            == State([EarlyRecord(employee, 0, 9, 1)], Hired(employee), [NewPeriod(1, 9), NewPeriod(10, 20)])
  {
    var ops := EarlyShift(employee, 0, 9, 1);
    var open := Attendance.Record(employee, 0, 9, 0, None, Attendance.OPEN, None, None);
    var s := State([], Hired(employee), [NewPeriod(1, 9), NewPeriod(10, 20)]);
    var mid, end := s.(records := [open]), s.(records := [EarlyRecord(employee, 0, 9, 1)]);
    HiredAndCreated(employee);
    RunBoth(START, [OnAssignment(employee, 1, 0), OnCreate(None, 0, 1, 9, 9), OnCreate(None, 0, 10, 20, 20)], ops);
    assert Attendance.Apply([], ops[0].clocking) == [open];
    assert Attendance.Apply([open], ops[1].clocking) == end.records;
    assert Apply(s, ops[0]) == mid && Apply(mid, ops[1]) == end;
    assert ops == [ops[0]] + [ops[1]];
    TwoSteps(s, ops[0], ops[1]);
  }

  /** The shift as the second calculation finds it, and its replacement. */
  function VoidedShift(employee: nat): Attendance.Record {
    EarlyRecord(employee, 0, 9, 1).(status := Attendance.VOIDED, updatedAt := Some(6))
  }

  function MovedShift(employee: nat): Attendance.Record {
    Attendance.Record(employee, 0, 10, 2, Some(8), Attendance.CLOSED, Some(0), None)
  }

  function PaidTwice(employee: nat): State {
    var first, corrected := [EarlyRecord(employee, 0, 9, 1)], [VoidedShift(employee), MovedShift(employee)];
    State(corrected, Hired(employee),
          [Period(Row(0, 1, 9, PostedAt(5)), first, Hired(employee)),
           Period(Row(0, 10, 20, PostedAt(7)), corrected, Hired(employee))])
  }

  function PaidOnceThen(employee: nat): State {
    var t := PaidTwice(employee);
    t.(records := t.periods[0].basis, periods := [t.periods[0], NewPeriod(10, 20)])
  }

  lemma {:induction false} FirstPosted(employee: nat)
    ensures Run(START, Overnight(employee) + Posting(0, 5)) == PaidOnceThen(employee)
  {
    OvernightRun(employee);
    PostPeriod(Run(START, Overnight(employee)), 0, 5);
    RunBoth(START, Overnight(employee), Posting(0, 5));
  }

  lemma {:induction false} ThenCorrected(employee: nat)
    ensures Run(PaidOnceThen(employee), [OnAttendance(PAST_MIDNIGHT)] + Posting(1, 7)) == PaidTwice(employee)
  {
    var s1, t := PaidOnceThen(employee), PaidTwice(employee);
    var s2 := s1.(records := t.records);
    assert Attendance.Apply(s1.records, PAST_MIDNIGHT) == t.records;
    OneStep(s1, OnAttendance(PAST_MIDNIGHT));
    PostPeriod(s2, 1, 7);
    RunBoth(s1, [OnAttendance(PAST_MIDNIGHT)], Posting(1, 7));
  }

  lemma {:induction false} CorrectedOvernightRun(employee: nat)
    ensures Run(START, CorrectedOvernight(employee)) == PaidTwice(employee)
  {
    FirstPosted(employee);
    ThenCorrected(employee);
    RunBoth(START, Overnight(employee) + Posting(0, 5), [OnAttendance(PAST_MIDNIGHT)] + Posting(1, 7));
  }

  lemma {:induction false} StandingPays(p: Period, employee: nat, now: int)
    requires p.row.store == 0 && p.row.start <= p.row.end && p.row.end >= 1 && p.row.period == PostedAt(now)
             && p.staff == Hired(employee)
    ensures Pays(p, employee)
  {
    assert EffectiveDates.Touches(ASSIGNED[0], p.row.start, p.row.end);
  }

  lemma {:induction false} PaidInBoth(employee: nat, t: int)
    requires 2 <= t < 8
    ensures var s := PaidTwice(employee);
            && Pays(s.periods[0], employee) && Pays(s.periods[1], employee)
            && PaysAt(s.periods[0], employee, t) && PaysAt(s.periods[1], employee, t)
            && Counts(s.periods[0], employee, 0) && s.records[0].status == Attendance.VOIDED
            && |s.periods| == 2 && |s.records| == 2 && Disjoint(s.periods[0].row, s.periods[1].row)
  {
    var a, b := PaidTwice(employee).periods[0], PaidTwice(employee).periods[1];
    StandingPays(a, employee, 5);
    StandingPays(b, employee, 7);
    assert t in Attendance.InstantsOf(a.basis[0], employee, DatesOf(a.row));
    assert t in Attendance.InstantsOf(b.basis[1], employee, DatesOf(b.row));
    Attendance.AllWorked(a.basis, employee, DatesOf(a.row), 0);
    Attendance.AllWorked(b.basis, employee, DatesOf(b.row), 1);
  }

  /** What the two periods of this state come to. */
  lemma {:induction false} TwoApart(s: State, employee: nat, t: int)
    requires |s.periods| == 2 && Disjoint(s.periods[0].row, s.periods[1].row)
    requires PaysAt(s.periods[0], employee, t) && PaysAt(s.periods[1], employee, t)
    requires |s.records| > 0 && Counts(s.periods[0], employee, 0) && s.records[0].status == Attendance.VOIDED
    ensures KeptApart(s, employee) && !NoneVoidedSince(s, employee) && InstantTimes(s, employee, t) == 2
  {
    assert s.periods == [s.periods[0], s.periods[1]];
    SumTwo(s.periods[0], s.periods[1], Indicator(PaysInstant(employee, t)));
  }

  lemma {:induction false} PaidTwiceApart(employee: nat, t: int)
    requires 2 <= t < 8
    ensures var s := PaidTwice(employee);
            KeptApart(s, employee) && !NoneVoidedSince(s, employee) && InstantTimes(s, employee, t) == 2
  {
    PaidInBoth(employee, t);
    TwoApart(PaidTwice(employee), employee, t);
  }

  /** Periods that are kept apart pay the corrected hours twice: each of the instants 2 to 7 once in the shift
      that the first period found on day 9, and once in its replacement of day 10. */
  lemma {:induction false} CorrectionPaysTwice(employee: nat, t: int)
    requires 2 <= t < 8
    ensures var s := Run(START, CorrectedOvernight(employee));
            KeptApart(s, employee) && !NoneVoidedSince(s, employee) && InstantTimes(s, employee, t) == 2
  {
    CorrectedOvernightRun(employee);
    PaidTwiceApart(employee, t);
  }

  /** A shift of day 5 that is still open when its period is calculated. */
  function LateClockOut(employee: nat): seq<Op> {
    [OnAssignment(employee, 1, 0), OnCreate(None, 0, 1, 9, 9), OnCreate(None, 0, 10, 20, 20)]
    + ([OnAttendance(Attendance.OpIn(None, employee, 0, 0, 5, true, 1))]
       + (Posting(0, 5) + [OnAttendance(Attendance.OpOut(None, 0, 8, 6))]))
  }

  function LeftUnpaid(employee: nat): State {
    var open := Attendance.Record(employee, 0, 5, 0, None, Attendance.OPEN, None, None);
    State([EarlyRecord(employee, 0, 5, 6)], Hired(employee),
          [Period(Row(0, 1, 9, PostedAt(5)), [open], Hired(employee)), NewPeriod(10, 20)])
  }

  lemma {:induction false} LateClockOutRun(employee: nat)
    ensures Run(START, LateClockOut(employee)) == LeftUnpaid(employee)
  {
    var t := LeftUnpaid(employee);
    var first := [OnAssignment(employee, 1, 0), OnCreate(None, 0, 1, 9, 9), OnCreate(None, 0, 10, 20, 20)];
    var clockIn := OnAttendance(Attendance.OpIn(None, employee, 0, 0, 5, true, 1));
    var clockOut := OnAttendance(Attendance.OpOut(None, 0, 8, 6));
    var s0 := Run(START, first);
    var s1 := s0.(records := t.periods[0].basis);
    var s2 := s1.(periods := t.periods);
    HiredAndCreated(employee);
    assert Attendance.Apply([], clockIn.clocking) == s1.records;
    OneStep(s0, clockIn);
    PostPeriod(s1, 0, 5);
    assert Run(s1, Posting(0, 5)) == s2;
    assert Attendance.Apply(s2.records, clockOut.clocking) == t.records;
    OneStep(s2, clockOut);
    RunBoth(s1, Posting(0, 5), [clockOut]);
    RunBoth(s0, [clockIn], Posting(0, 5) + [clockOut]);
    RunBoth(START, first, [clockIn] + (Posting(0, 5) + [clockOut]));
  }

  lemma {:induction false} NothingClosedThen(employee: nat)
    ensures var s := LeftUnpaid(employee);
            PaidTime(employee)(s.periods[0]) == 0 && PaidTime(employee)(s.periods[1]) == 0
    ensures NoneVoidedSince(LeftUnpaid(employee), employee)
  {
    var p := LeftUnpaid(employee).periods[0];
    SumOne(p.basis[0], Attendance.Length(employee, DatesOf(p.row)));
  }

  lemma {:induction false} DateInOnePeriod(employee: nat)
    ensures var s := LeftUnpaid(employee); PayrollCoverage.AllPaidOnce(Rows(s.periods), s.records, employee, ASSIGNED)
  {
    var s := LeftUnpaid(employee);
    var rows := Rows(s.periods);
    StandingPays(s.periods[0], employee, 5);
    assert PayrollCoverage.Pays(ASSIGNED, rows[0], 0, 5) && !PayrollCoverage.Pays(ASSIGNED, rows[1], 0, 5);
    assert PaidOnce(rows, ASSIGNED, 0, 5);
  }

  lemma {:induction false} EightWorked(employee: nat, date: int, now: int)
    requires Attendance.Sound([EarlyRecord(employee, 0, date, now)])
    ensures |Attendance.Worked([EarlyRecord(employee, 0, date, now)], employee, Anywhere())| == 8
  {
    var r := EarlyRecord(employee, 0, date, now);
    WorkedTime([r], employee, Anywhere());
    SumOne(r, Attendance.Length(employee, Anywhere()));
  }

  /** Its eight units are paid by nobody, though its date lies in exactly one standing period, and nothing was
      corrected. */
  lemma {:induction false} LateClockOutUnpaid(employee: nat)
    ensures var s := Run(START, LateClockOut(employee));
            && NoneVoidedSince(s, employee) && |Attendance.Worked(s.records, employee, Anywhere())| == 8
            && TotalTime(s, employee) == 0
            && PayrollCoverage.AllPaidOnce(Rows(s.periods), s.records, employee, ASSIGNED)
  {
    var s := LeftUnpaid(employee);
    LateClockOutRun(employee);
    StartConsistent();
    RunConsistent(START, LateClockOut(employee));
    EightWorked(employee, 5, 6);
    NothingClosedThen(employee);
    SumTwo(s.periods[0], s.periods[1], PaidTime(employee));
    DateInOnePeriod(employee);
  }

  // ---- The service ---------------------------------------------------------------------------------------------

  class PayrollOffice {
    var records: seq<Attendance.Record>
    var jobs: Staff
    var periods: seq<Period>

    ghost function Now(): State
      reads this
    {
      State(records, jobs, periods)
    }

    constructor ()
      ensures Now() == START && Consistent(Now())
    {
      records, jobs, periods := [], map[], [];
    }

    /** The query of the approval: one record of the period updated since. */
    method StaleAttendance(row: Row) returns (found: bool)
      ensures found <==> Stale(records, row)
    {
      if row.period.calculatedAt.None? { return false; }
      for i := 0 to |records|
        invariant forall k :: 0 <= k < i ==>
          !(Attendance.InPeriod(records[k], row.store, row.start, row.end)
            && records[k].updatedAt.Some? && records[k].updatedAt.value > row.period.calculatedAt.value)
      {
        var r := records[i];
        if r.store == row.store && row.start <= r.workDate <= row.end
           && r.updatedAt.Some? && r.updatedAt.value > row.period.calculatedAt.value {
          return true;
        }
      }
      found := false;
    }

    method Calculate(i: nat, actor: Option<nat>, now: int, results: seq<Payroll.EmployeeResult>)
      returns (o: Option<Payroll.Outcome>)
      requires Consistent(Now())
      modifies this
      ensures (Now(), o) == Lifecycle(old(Now()), i, Payroll.OpCalculate(actor, now, results))
      ensures Consistent(Now())
    {
      ApplyConsistent(Now(), OnPeriod(i, Payroll.OpCalculate(actor, now, results)));
      if i >= |periods| { return None; }
      var p := periods[i];
      assert periods[i := p] == periods;
      if actor.None? { return Some(Payroll.Rejected(Payroll.ACTOR_REQUIRED)); }
      if p.row.period.status != Payroll.OPEN && p.row.period.status != Payroll.CALCULATED {
        return Some(Payroll.Rejected(Payroll.INVALID_PERIOD_STATE));
      }
      if !Payroll.AllChecked(results) { return Some(Payroll.Rejected(Payroll.RESULT_CHECK)); }
      var calculated := p.row.period.(status := Payroll.CALCULATED, calculatedBy := actor, calculatedAt := Some(now),
                                      results := results, totals := Payroll.TotalsOf(results));
      periods := periods[i := Period(p.row.(period := calculated), records, jobs)];
      o := Some(Payroll.Done);
    }

    method Approve(i: nat, actor: Option<nat>) returns (o: Option<Payroll.Outcome>)
      requires Consistent(Now())
      modifies this
      ensures (Now(), o) == Lifecycle(old(Now()), i, Payroll.OpApprove(actor, false))
      ensures Consistent(Now())
    {
      ApplyConsistent(Now(), OnPeriod(i, Payroll.OpApprove(actor, false)));
      if i >= |periods| { return None; }
      var p := periods[i];
      assert periods[i := p] == periods;
      if p.row.period.status != Payroll.CALCULATED {
        return Some(if p.row.period.status == Payroll.APPROVED then Payroll.Existing
                    else Payroll.Rejected(Payroll.INVALID_PERIOD_STATE));
      }
      if actor.None? { return Some(Payroll.Rejected(Payroll.ACTOR_REQUIRED)); }
      var stale := StaleAttendance(p.row);
      if stale { return Some(Payroll.Rejected(Payroll.STALE_CALCULATION)); }
      periods :=
        periods[i := p.(row := p.row.(period := p.row.period.(status := Payroll.APPROVED, approvedBy := actor)))];
      o := Some(Payroll.Done);
    }
  }
}
