/** Which worked time a list of payroll periods pays when all of them are calculated on one and the same
    list of attendance records: the list with its unique ranges, the assignments that put an employee on a
    store's payroll, and the attendance that is added up.  PayrollRuns has each period calculated in its
    own turn.

    Dates are days; instants and paid time are microseconds, as in the attendance records.  Paid time is
    the time that hourly rates are applied to; a salary is paid by days, whatever was worked. */
module PayrollCoverage {
  import opened Options
  import opened StoreAccess
  import opened Sums
  import Attendance
  import EffectiveDates
  import Payroll

  datatype Row = Row(store: nat, start: int, end: int, period: Payroll.Period)

  datatype Error = STORE_ACCESS_DENIED | INVALID_PERIOD_RANGE | INVALID_PAY_DATE | DUPLICATE_PAYROLL_PERIOD

  datatype Outcome = Done(id: nat) | Rejected(error: Error)

  // ---- The list of periods -----------------------------------------------------------------------

  /** What UNIQUE (store_id, period_start, period_end) refuses: the very same range, and no other. */
  predicate Duplicate(periods: seq<Row>, store: nat, start: int, end: int) {
    exists i :: 0 <= i < |periods| && periods[i].store == store && periods[i].start == start && periods[i].end == end
  }

  function Create(periods: seq<Row>, caller: Option<nat>, store: nat, start: int, end: int,
      payDate: int): (seq<Row>, Outcome) {
    if Denied(caller, store) then (periods, Rejected(STORE_ACCESS_DENIED))
    else if end < start then (periods, Rejected(INVALID_PERIOD_RANGE))
    else if payDate < end then (periods, Rejected(INVALID_PAY_DATE))
    else if Duplicate(periods, store, start, end) then (periods, Rejected(DUPLICATE_PAYROLL_PERIOD))
    else (periods + [Row(store, start, end, Payroll.NEW_PERIOD)], Done(|periods|))
  }

  datatype Op =
    | OpCreate(caller: Option<nat>, store: nat, start: int, end: int, payDate: int)
    | OpLifecycle(i: nat, op: Payroll.Op)

  function Apply(periods: seq<Row>, op: Op): seq<Row> {
    match op
    case OpCreate(caller, store, start, end, payDate) => Create(periods, caller, store, start, end, payDate).0
    case OpLifecycle(i, step) =>
      if i < |periods| then periods[i := periods[i].(period := Payroll.Step(periods[i].period, step).0)] else periods
  }

  function Run(periods: seq<Row>, ops: seq<Op>): seq<Row>
    decreases |ops|
  {
    if ops == [] then periods else Run(Apply(periods, ops[0]), ops[1..])
  }

  ghost predicate Sound(periods: seq<Row>) {
    && (forall i :: 0 <= i < |periods| ==> periods[i].start <= periods[i].end && Payroll.Sound(periods[i].period))
    && (forall i, j :: 0 <= i < j < |periods| ==>
          (periods[i].store, periods[i].start, periods[i].end) != (periods[j].store, periods[j].start, periods[j].end))
  }

  lemma {:induction false} CreateSound(periods: seq<Row>, store: nat, start: int, end: int)
    requires Sound(periods) && start <= end && !Duplicate(periods, store, start, end)
    ensures Sound(periods + [Row(store, start, end, Payroll.NEW_PERIOD)])
  {
  }

  lemma {:induction false} LifecycleSound(periods: seq<Row>, i: nat, step: Payroll.Op)
    requires Sound(periods) && i < |periods|
    ensures Sound(periods[i := periods[i].(period := Payroll.Step(periods[i].period, step).0)])
  {
    Payroll.StepSound(periods[i].period, step);
  }

  lemma {:induction false} ApplySound(periods: seq<Row>, op: Op)
    requires Sound(periods)
    ensures Sound(Apply(periods, op))
  {
    match op
    case OpCreate(caller, store, start, end, payDate) =>
      if Create(periods, caller, store, start, end, payDate).1.Done? { CreateSound(periods, store, start, end); }
    case OpLifecycle(i, step) => if i < |periods| { LifecycleSound(periods, i, step); }
  }

  /** Over every run the ranges of a store are distinct; nothing keeps them apart. */
  lemma {:induction false} RunSound(periods: seq<Row>, ops: seq<Op>)
    requires Sound(periods)
    ensures Sound(Run(periods, ops))
    decreases |ops|
  {
    if ops != [] {
      ApplySound(periods, ops[0]);
      RunSound(Apply(periods, ops[0]), ops[1..]);
    }
  }

  /** A period is created if and only if it is for the caller's store, does not end before it starts, pays no
      earlier than it ends, and no period of that store has the same two dates; it starts out a draft, with nothing
      calculated or posted. */
  lemma {:induction false} CreateDoneIff(periods: seq<Row>, caller: Option<nat>, store: nat, start: int, end: int,
      payDate: int)
    ensures var (after, o) := Create(periods, caller, store, start, end, payDate);
            && (o.Done? <==>
                  && (caller == None || caller == Some(store)) && start <= end <= payDate
                  && forall i :: 0 <= i < |periods| && periods[i].store == store ==>
                       periods[i].start != start || periods[i].end != end)
            && (o == Rejected(STORE_ACCESS_DENIED) <==> caller != None && caller != Some(store))
            && (o == Rejected(INVALID_PERIOD_RANGE) <==> (caller == None || caller == Some(store)) && end < start)
            && (o == Rejected(INVALID_PAY_DATE) <==>
                  (caller == None || caller == Some(store)) && start <= end && payDate < end)
            && (o.Done? ==>
                  && o.id == |periods| && |after| == |periods| + 1 && after[..|periods|] == periods
                  && var r := after[|periods|];
                     && (r.store, r.start, r.end) == (store, start, end)
                     && r.period.status == Payroll.DRAFT && r.period.results == []
                     && r.period.posted == [] && r.period.reversed == [])
            && Apply(periods, OpCreate(caller, store, start, end, payDate)) == after
            && (!o.Done? ==> after == periods)
  {
  }

  // ---- Who is paid for what ------------------------------------------------------------------------

  type Assignments = seq<EffectiveDates.Period<nat>>

  /** The employee has an assignment at the period's store on some date of the period. */
  predicate Assigned(h: Assignments, p: Row) {
    exists i :: 0 <= i < |h| && h[i].value == p.store && EffectiveDates.Touches(h[i], p.start, p.end)
  }

  /** That is: on one of its days the employee's assignment is at that store. */
  lemma {:induction false} AssignedIff(h: Assignments, p: Row)
    requires EffectiveDates.Contiguous(h) && p.start <= p.end
    ensures Assigned(h, p) <==>
            exists i, date :: 0 <= i < |h| && h[i].value == p.store
                              && p.start <= date <= p.end && EffectiveDates.Covers(h[i], date)
  {
    if i :| 0 <= i < |h| && h[i].value == p.store && EffectiveDates.Touches(h[i], p.start, p.end) {
      assert i + 1 < |h| ==> EffectiveDates.EndsWhereNextBegins(h, i);
      var date := if h[i].from < p.start then p.start else h[i].from;
      assert EffectiveDates.Covers(h[i], date);
    }
  }

  /** The period's entry stands, and the employee is on it. */
  predicate PaysEmployee(h: Assignments, p: Row) {
    p.period.posted != [] && p.period.reversed == [] && Assigned(h, p)
  }

  predicate Pays(h: Assignments, p: Row, store: nat, date: int) {
    PaysEmployee(h, p) && p.store == store && p.start <= date <= p.end
  }

  function Indicator<T>(p: T -> bool): T -> int {
    (x: T) => if p(x) then 1 else 0
  }

  ghost predicate OnlyOne<T>(rows: seq<T>, p: T -> bool) {
    exists i :: 0 <= i < |rows| && p(rows[i]) && forall j :: 0 <= j < |rows| && j != i ==> !p(rows[j])
  }

  function PaysShift(h: Assignments, store: nat, date: int): Row -> bool {
    (p: Row) => Pays(h, p, store, date)
  }

  function PaysFor(h: Assignments, store: nat, date: int): Row -> int {
    Indicator(PaysShift(h, store, date))
  }

  /** How many periods pay the employee for a shift at this store and work date. */
  function TimesPaid(periods: seq<Row>, h: Assignments, store: nat, date: int): int {
    Sum(periods, PaysFor(h, store, date))
  }

  ghost predicate PaidOnce(periods: seq<Row>, h: Assignments, store: nat, date: int) {
    OnlyOne(periods, PaysShift(h, store, date))
  }

  function DatesOf(p: Row): Attendance.Selection {
    Attendance.PeriodOf(p.store, p.start, p.end)
  }

  function Anywhere(): Attendance.Selection {
    (r: Attendance.Record) => true
  }

  /** The time of the employee that one period pays. */
  function PaidBy(records: seq<Attendance.Record>, employee: nat, h: Assignments): Row -> int {
    (p: Row) => if PaysEmployee(h, p) then Sum(records, Attendance.Length(employee, DatesOf(p))) else 0
  }

  function TotalPaid(periods: seq<Row>, records: seq<Attendance.Record>, employee: nat, h: Assignments): int {
    Sum(periods, PaidBy(records, employee, h))
  }

  lemma {:induction false} CountOne<T>(rows: seq<T>, f: T -> int)
    requires forall i :: 0 <= i < |rows| ==> f(rows[i]) == 0 || f(rows[i]) == 1
    ensures Sum(rows, f) >= 0
    ensures Sum(rows, f) == 0 <==> forall i :: 0 <= i < |rows| ==> f(rows[i]) == 0
    ensures Sum(rows, f) <= 1 <==> forall i, j :: 0 <= i < j < |rows| ==> f(rows[i]) == 0 || f(rows[j]) == 0
  {
    if rows != [] {
      var rest := rows[1..];
      forall i | 0 <= i < |rest| ensures rest[i] == rows[i + 1] { }
      CountOne(rest, f);
      if Sum(rows, f) <= 1 {
        forall i, j | 0 <= i < j < |rows| ensures f(rows[i]) == 0 || f(rows[j]) == 0 {
          assert rest[j - 1] == rows[j];
          if i > 0 { assert rest[i - 1] == rows[i]; }
        }
      } else if f(rows[0]) == 1 {
        var j :| 0 <= j < |rest| && f(rest[j]) != 0;
        assert f(rows[0]) != 0 && f(rows[j + 1]) != 0;
      } else {
        var i, j :| 0 <= i < j < |rest| && f(rest[i]) != 0 && f(rest[j]) != 0;
        assert f(rows[i + 1]) != 0 && f(rows[j + 1]) != 0;
      }
    }
  }

  lemma {:induction false} OnlyOneIff<T>(rows: seq<T>, p: T -> bool)
    ensures Sum(rows, Indicator(p)) >= 0
    ensures Sum(rows, Indicator(p)) == 1 <==> OnlyOne(rows, p)
  {
    var f := Indicator(p);
    CountOne(rows, f);
    if Sum(rows, f) == 1 {
      var i :| 0 <= i < |rows| && f(rows[i]) != 0;
      forall j | 0 <= j < |rows| && j != i ensures !p(rows[j]) { assert f(rows[j]) == 0; }
    }
    if OnlyOne(rows, p) {
      var i :| 0 <= i < |rows| && p(rows[i]) && forall j :: 0 <= j < |rows| && j != i ==> !p(rows[j]);
      assert f(rows[i]) == 1;
    }
  }

  lemma {:induction false} TwoOf<T>(rows: seq<T>, p: T -> bool) returns (a: nat, b: nat)
    requires Sum(rows, Indicator(p)) > 1
    ensures a < b < |rows| && p(rows[a]) && p(rows[b])
  {
    var f := Indicator(p);
    CountOne(rows, f);
    a, b :| a < b < |rows| && f(rows[a]) != 0 && f(rows[b]) != 0;
  }

  lemma {:induction false} MoreThanOne<T>(rows: seq<T>, p: T -> bool, a: nat, b: nat)
    requires a < b < |rows| && p(rows[a]) && p(rows[b])
    ensures Sum(rows, Indicator(p)) > 1
  {
    var f := Indicator(p);
    CountOne(rows, f);
    assert f(rows[a]) == 1 && f(rows[b]) == 1;
  }

  lemma {:induction false} PaidOnceIff(periods: seq<Row>, h: Assignments, store: nat, date: int)
    ensures TimesPaid(periods, h, store, date) >= 0
    ensures TimesPaid(periods, h, store, date) == 1 <==> PaidOnce(periods, h, store, date)
  {
    OnlyOneIff(periods, PaysShift(h, store, date));
  }

  // ---- Paid time, record by record ------------------------------------------------------------------

  /** One record's length, as often as periods pay for it. */
  function LengthTimes(periods: seq<Row>, employee: nat, h: Assignments): Attendance.Record -> int {
    (r: Attendance.Record) =>
      Attendance.Length(employee, Anywhere())(r) * TimesPaid(periods, h, r.store, r.workDate)
  }

  function LengthIn(p: Row, employee: nat, h: Assignments): Attendance.Record -> int {
    (r: Attendance.Record) => if PaysEmployee(h, p) then Attendance.Length(employee, DatesOf(p))(r) else 0
  }

  lemma {:induction false} RecordIn(p: Row, rest: seq<Row>, employee: nat, h: Assignments, r: Attendance.Record)
    ensures LengthTimes([p] + rest, employee, h)(r) == LengthIn(p, employee, h)(r) + LengthTimes(rest, employee, h)(r)
  {
    var length, f := Attendance.Length(employee, Anywhere())(r), PaysFor(h, r.store, r.workDate);
    assert ([p] + rest)[0] == p && ([p] + rest)[1..] == rest;
    assert Sum([p] + rest, f) == f(p) + Sum(rest, f);
    assert length * (f(p) + Sum(rest, f)) == length * f(p) + length * Sum(rest, f);
    assert Anywhere()(r) && (DatesOf(p)(r) <==> Attendance.InPeriod(r, p.store, p.start, p.end));
    assert Attendance.Counted(r, employee, DatesOf(p))
        <==> Attendance.Counted(r, employee, Anywhere()) && DatesOf(p)(r);
    assert f(p) == if Pays(h, p, r.store, r.workDate) then 1 else 0;
    assert Attendance.Length(employee, DatesOf(p))(r) == if DatesOf(p)(r) then length else 0;
    assert f(p) == 1 ==> LengthIn(p, employee, h)(r) == length;
    assert f(p) == 0 ==> LengthIn(p, employee, h)(r) == 0;
    if f(p) == 1 { assert length * f(p) == length; } else { assert f(p) == 0 && length * f(p) == 0; }
  }

  /** On one list of records, what all periods pay is each record's length, as often as periods pay for its
      store and date. */
  lemma {:induction false} PaidPerRecord(periods: seq<Row>, records: seq<Attendance.Record>, employee: nat,
      h: Assignments)
    ensures TotalPaid(periods, records, employee, h) == Sum(records, LengthTimes(periods, employee, h))
  {
    if periods == [] {
      forall i | 0 <= i < |records| ensures LengthTimes([], employee, h)(records[i]) == 0 {
        assert Attendance.Length(employee, Anywhere())(records[i]) * 0 == 0;
      }
      SumZero(records, LengthTimes(periods, employee, h));
    } else {
      var p, rest := periods[0], periods[1..];
      PaidPerRecord(rest, records, employee, h);
      assert periods == [p] + rest;
      forall i | 0 <= i < |records|
        ensures LengthTimes(periods, employee, h)(records[i])
                == LengthIn(p, employee, h)(records[i]) + LengthTimes(rest, employee, h)(records[i])
      {
        RecordIn(p, rest, employee, h, records[i]);
      }
      SumAdd(records, LengthTimes(periods, employee, h), LengthIn(p, employee, h), LengthTimes(rest, employee, h));
      if PaysEmployee(h, p) {
        SumSame(records, records, LengthIn(p, employee, h), Attendance.Length(employee, DatesOf(p)));
      } else {
        SumZero(records, LengthIn(p, employee, h));
      }
    }
  }

  ghost predicate AllPaidOnce(periods: seq<Row>, records: seq<Attendance.Record>, employee: nat, h: Assignments) {
    forall i :: 0 <= i < |records| && Attendance.Counted(records[i], employee, Anywhere()) ==>
      PaidOnce(periods, h, records[i].store, records[i].workDate)
  }

  ghost predicate NonePaidTwice(periods: seq<Row>, records: seq<Attendance.Record>, employee: nat, h: Assignments) {
    forall i :: 0 <= i < |records| && Attendance.Counted(records[i], employee, Anywhere()) ==>
      TimesPaid(periods, h, records[i].store, records[i].workDate) <= 1
  }

  ghost predicate NoneLeftOut(periods: seq<Row>, records: seq<Attendance.Record>, employee: nat, h: Assignments) {
    forall i :: 0 <= i < |records| && Attendance.Counted(records[i], employee, Anywhere()) ==>
      TimesPaid(periods, h, records[i].store, records[i].workDate) >= 1
  }

  lemma {:induction false} LengthOrder(periods: seq<Row>, records: seq<Attendance.Record>, employee: nat,
      h: Assignments, i: nat)
    requires i < |records| && Attendance.RowSound(records, i)
    ensures var r := records[i];
            var length, times := Attendance.Length(employee, Anywhere())(r), TimesPaid(periods, h, r.store, r.workDate);
            && (length > 0 <==> Attendance.Counted(r, employee, Anywhere())) && length >= 0 && times >= 0
            && (times <= 1 || length == 0 ==> length * times <= length)
            && (times >= 1 || length == 0 ==> length <= length * times)
            && (length > 0 ==> (length * times == length <==> PaidOnce(periods, h, r.store, r.workDate)))
  {
    var r := records[i];
    var length, times := Attendance.Length(employee, Anywhere())(r), TimesPaid(periods, h, r.store, r.workDate);
    PaidOnceIff(periods, h, r.store, r.workDate);
    if times >= 1 { assert length * times == length + length * (times - 1); }
    if length > 0 && times > 1 { assert length * (times - 1) > 0; }
  }

  /** On one list of records, while none is paid twice or none is left out, an employee's pay is the time
      worked if and only if every closed record's store and work date lies in exactly one period that pays for it. */
  lemma {:induction false} PayIsWorkedTimeIff(periods: seq<Row>, records: seq<Attendance.Record>, employee: nat,
      h: Assignments)
    requires Attendance.Sound(records)
    requires NonePaidTwice(periods, records, employee, h) || NoneLeftOut(periods, records, employee, h)
    ensures TotalPaid(periods, records, employee, h) == |Attendance.Worked(records, employee, Anywhere())|
            <==> AllPaidOnce(periods, records, employee, h)
  {
    var length, times := Attendance.Length(employee, Anywhere()), LengthTimes(periods, employee, h);
    PaidPerRecord(periods, records, employee, h);
    WorkedTime(records, employee, Anywhere());
    forall i: nat | i < |records|
      ensures NonePaidTwice(periods, records, employee, h) ==> times(records[i]) <= length(records[i])
      ensures NoneLeftOut(periods, records, employee, h) ==> length(records[i]) <= times(records[i])
      ensures times(records[i]) == length(records[i]) <==>
              (Attendance.Counted(records[i], employee, Anywhere()) ==>
                PaidOnce(periods, h, records[i].store, records[i].workDate))
    {
      assert Attendance.RowSound(records, i);
      LengthOrder(periods, records, employee, h, i);
    }
    if NonePaidTwice(periods, records, employee, h) {
      SumMono(records, records, times, length);
    } else {
      SumMono(records, records, length, times);
    }
    if AllPaidOnce(periods, records, employee, h) { SumSame(records, records, times, length); }
  }

  lemma {:induction false} WorkedTime(records: seq<Attendance.Record>, employee: nat, keep: Attendance.Selection)
    requires Attendance.Sound(records)
    ensures Sum(records, Attendance.Length(employee, keep)) == |Attendance.Worked(records, employee, keep)|
  {
    forall i: nat | i < |records| && records[i].clockOut.Some? ensures records[i].clockOut.value > records[i].clockIn {
      assert Attendance.RowSound(records, i);
    }
    Attendance.PaidTimeIsWorkedTime(records, employee, keep);
  }

  // ---- Paid time, instant by instant -----------------------------------------------------------------

  function PaysInstant(records: seq<Attendance.Record>, employee: nat, h: Assignments, t: int): Row -> int {
    (p: Row) => if PaysEmployee(h, p) && t in Attendance.Worked(records, employee, DatesOf(p)) then 1 else 0
  }

  function TimesInstantPaid(periods: seq<Row>, records: seq<Attendance.Record>, employee: nat, h: Assignments,
      t: int): int {
    Sum(periods, PaysInstant(records, employee, h, t))
  }

  /** No two records of an employee share an instant. */
  lemma {:induction false} InstantOfOne(records: seq<Attendance.Record>, employee: nat, keep: Attendance.Selection,
      t: int, i: nat, j: nat)
    requires Attendance.NoOverlap(records) && i < |records| && j < |records|
    requires t in Attendance.InstantsOf(records[i], employee, Anywhere())
             && t in Attendance.InstantsOf(records[j], employee, keep)
    ensures i == j
  {
    assert Attendance.Conflict(records[i], records[j]) && Attendance.Conflict(records[j], records[i]);
  }

  lemma {:induction false} InstantOfRecord(records: seq<Attendance.Record>, employee: nat, keep: Attendance.Selection,
      t: int, i: nat)
    requires Attendance.NoOverlap(records) && i < |records|
             && t in Attendance.InstantsOf(records[i], employee, Anywhere())
    ensures t in Attendance.Worked(records, employee, keep) <==> keep(records[i])
  {
    if keep(records[i]) {
      Attendance.AllWorked(records, employee, keep, i);
    }
    if t in Attendance.Worked(records, employee, keep) {
      var j := Attendance.WorkedBy(records, employee, keep, t);
      InstantOfOne(records, employee, keep, t, i, j);
    }
  }

  /** An instant is paid as often as periods pay for the record it was worked in. */
  lemma {:induction false} InstantPaidWithRecord(periods: seq<Row>, records: seq<Attendance.Record>, employee: nat,
      h: Assignments, t: int, i: nat)
    requires Attendance.NoOverlap(records) && i < |records|
             && t in Attendance.InstantsOf(records[i], employee, Anywhere())
    ensures TimesInstantPaid(periods, records, employee, h, t)
            == TimesPaid(periods, h, records[i].store, records[i].workDate)
  {
    forall k | 0 <= k < |periods|
      ensures PaysInstant(records, employee, h, t)(periods[k])
              == PaysFor(h, records[i].store, records[i].workDate)(periods[k])
    {
      InstantOfRecord(records, employee, DatesOf(periods[k]), t, i);
    }
    SumSame(periods, periods, PaysInstant(records, employee, h, t), PaysFor(h, records[i].store, records[i].workDate));
  }

  /** Over every run of the attendance book, with every period calculated at its end: each instant an employee
      worked is paid exactly once if and only if the store and work date of every closed record lie in
      exactly one period that pays the employee. */
  lemma {:induction false} EveryInstantPaidOnceIff(periods: seq<Row>, ops: seq<Attendance.Op>, employee: nat,
      h: Assignments)
    ensures var records := Attendance.Run([], ops);
            (forall t :: t in Attendance.Worked(records, employee, Anywhere()) ==>
               TimesInstantPaid(periods, records, employee, h, t) == 1)
            <==> AllPaidOnce(periods, records, employee, h)
  {
    var records := Attendance.Run([], ops);
    Attendance.RunSound([], ops);
    if AllPaidOnce(periods, records, employee, h) {
      forall t | t in Attendance.Worked(records, employee, Anywhere())
        ensures TimesInstantPaid(periods, records, employee, h, t) == 1
      {
        var i := Attendance.WorkedBy(records, employee, Anywhere(), t);
        InstantPaidWithRecord(periods, records, employee, h, t, i);
        PaidOnceIff(periods, h, records[i].store, records[i].workDate);
      }
    }
    if forall t :: t in Attendance.Worked(records, employee, Anywhere()) ==>
        TimesInstantPaid(periods, records, employee, h, t) == 1 {
      forall i: nat | i < |records| && Attendance.Counted(records[i], employee, Anywhere())
        ensures PaidOnce(periods, h, records[i].store, records[i].workDate)
      {
        var t := records[i].clockIn;
        assert Attendance.RowSound(records, i);
        Attendance.AllWorked(records, employee, Anywhere(), i);
        InstantPaidWithRecord(periods, records, employee, h, t, i);
        PaidOnceIff(periods, h, records[i].store, records[i].workDate);
      }
    }
  }

  // ---- What the list of periods alone decides ---------------------------------------------------------

  predicate Disjoint(p: Row, q: Row) {
    p.store != q.store || p.end < q.start || q.end < p.start
  }

  /** No two periods that pay the employee share a store and a date. */
  ghost predicate KeptApart(periods: seq<Row>, h: Assignments) {
    forall i, j :: 0 <= i < j < |periods| && PaysEmployee(h, periods[i]) && PaysEmployee(h, periods[j]) ==>
      Disjoint(periods[i], periods[j])
  }

  lemma {:induction false} ApartPayOnce(periods: seq<Row>, h: Assignments, store: nat, date: int)
    requires KeptApart(periods, h)
    ensures TimesPaid(periods, h, store, date) <= 1
  {
    var f := PaysFor(h, store, date);
    forall i, j | 0 <= i < j < |periods| ensures f(periods[i]) == 0 || f(periods[j]) == 0 {
      assert PaysEmployee(h, periods[i]) && PaysEmployee(h, periods[j]) ==> Disjoint(periods[i], periods[j]);
    }
    CountOne(periods, f);
  }

  /** Two periods that share a store and a date pay a shift of that date twice. */
  lemma {:induction false} SharedDatePaidTwice(periods: seq<Row>, h: Assignments, i: nat, j: nat) returns (date: int)
    requires i < j < |periods| && PaysEmployee(h, periods[i]) && PaysEmployee(h, periods[j])
    requires periods[i].start <= periods[i].end && periods[j].start <= periods[j].end
             && !Disjoint(periods[i], periods[j])
    ensures TimesPaid(periods, h, periods[i].store, date) > 1
  {
    date := if periods[i].start < periods[j].start then periods[j].start else periods[i].start;
    var f := PaysFor(h, periods[i].store, date);
    assert f(periods[i]) == 1 && f(periods[j]) == 1;
    CountOne(periods, f);
  }

  lemma {:induction false} KeptApartIff(periods: seq<Row>, h: Assignments)
    requires Sound(periods)
    ensures KeptApart(periods, h) <==> forall store: nat, date: int :: TimesPaid(periods, h, store, date) <= 1
  {
    if KeptApart(periods, h) {
      forall store: nat, date: int ensures TimesPaid(periods, h, store, date) <= 1 {
        ApartPayOnce(periods, h, store, date);
      }
    } else {
      var i: nat, j: nat :| i < j < |periods| && PaysEmployee(h, periods[i]) && PaysEmployee(h, periods[j])
                            && !Disjoint(periods[i], periods[j]);
      var date := SharedDatePaidTwice(periods, h, i, j);
    }
  }

  /** One shift of eight units, clocked in and out at a store. */
  function Shift(employee: nat, store: nat, date: int): seq<Attendance.Op> {
    [Attendance.OpIn(None, employee, store, 0, date, true, 0), Attendance.OpOut(None, 0, 8, 1)]
  }

  function ShiftRecord(employee: nat, store: nat, date: int): Attendance.Record {
    Attendance.Record(employee, store, date, 0, Some(8), Attendance.CLOSED, None, Some(1))
  }

  lemma {:induction false} ShiftRun(employee: nat, store: nat, date: int)
    ensures Attendance.Run([], Shift(employee, store, date)) == [ShiftRecord(employee, store, date)]
  {
    var ops := Shift(employee, store, date);
    var open := Attendance.Record(employee, store, date, 0, None, Attendance.OPEN, None, None);
    assert Attendance.Apply([], ops[0]) == [open];
    assert Attendance.Apply([open], ops[1]) == [ShiftRecord(employee, store, date)];
    assert ops[1..] == [ops[1]] && ops[1..][1..] == [];
    assert Attendance.Run([open], ops[1..]) == Attendance.Run(Attendance.Apply([open], ops[1]), []);
  }

  /** No instant of the employee is paid twice, on whatever list of records all periods are calculated. */
  ghost predicate NeverPaidTwice(periods: seq<Row>, employee: nat, h: Assignments) {
    forall ops: seq<Attendance.Op>, t: int :: TimesInstantPaid(periods, Attendance.Run([], ops), employee, h, t) <= 1
  }

  /** Calculated on one list of records, whatever it is, the periods never pay an instant of the employee
      twice if and only if those that pay the employee are kept apart. */
  lemma {:induction false} NeverPaidTwiceIff(periods: seq<Row>, employee: nat, h: Assignments)
    requires Sound(periods)
    ensures KeptApart(periods, h) <==> NeverPaidTwice(periods, employee, h)
  {
    KeptApartIff(periods, h);
    if KeptApart(periods, h) {
      forall ops: seq<Attendance.Op>, t: int
        ensures TimesInstantPaid(periods, Attendance.Run([], ops), employee, h, t) <= 1 {
        InstantAtMostOnce(periods, ops, employee, h, t);
      }
      assert NeverPaidTwice(periods, employee, h);
    }
    if NeverPaidTwice(periods, employee, h) {
      forall store: nat, date: int ensures TimesPaid(periods, h, store, date) <= 1 {
        ShiftTellsTimes(periods, employee, h, store, date);
        assert TimesInstantPaid(periods, Attendance.Run([], Shift(employee, store, date)), employee, h, 0) <= 1;
      }
      assert KeptApart(periods, h);
    }
  }

  lemma {:induction false} ShiftTellsTimes(periods: seq<Row>, employee: nat, h: Assignments, store: nat, date: int)
    ensures TimesInstantPaid(periods, Attendance.Run([], Shift(employee, store, date)), employee, h, 0)
            == TimesPaid(periods, h, store, date)
  {
    var records := Attendance.Run([], Shift(employee, store, date));
    Attendance.RunSound([], Shift(employee, store, date));
    ShiftRun(employee, store, date);
    InstantPaidWithRecord(periods, records, employee, h, 0, 0);
  }

  lemma {:induction false} InstantAtMostOnce(periods: seq<Row>, ops: seq<Attendance.Op>, employee: nat, h: Assignments,
      t: int)
    requires forall store, date :: TimesPaid(periods, h, store, date) <= 1
    ensures TimesInstantPaid(periods, Attendance.Run([], ops), employee, h, t) <= 1
  {
    var records := Attendance.Run([], ops);
    Attendance.RunSound([], ops);
    if i: nat :| i < |records| && t in Attendance.InstantsOf(records[i], employee, Anywhere()) {
      InstantPaidWithRecord(periods, records, employee, h, t, i);
      assert TimesPaid(periods, h, records[i].store, records[i].workDate) <= 1;
    } else {
      forall k | 0 <= k < |periods| ensures PaysInstant(records, employee, h, t)(periods[k]) == 0 {
        if t in Attendance.Worked(records, employee, DatesOf(periods[k])) {
          var i := Attendance.WorkedBy(records, employee, DatesOf(periods[k]), t);
          assert t in Attendance.InstantsOf(records[i], employee, Anywhere());
        }
      }
      SumZero(periods, PaysInstant(records, employee, h, t));
    }
  }

  // ---- The failing runs ---------------------------------------------------------------------------------

  const EIGHT_HOURS: Payroll.EmployeeResult := Payroll.EmployeeResult(100, 0, 0, 100)

  const POSTING: seq<Payroll.Op> :=
    [Payroll.OpOpen, Payroll.OpCalculate(Some(1), 0, [EIGHT_HOURS]), Payroll.OpApprove(Some(1), false),
      Payroll.OpPost(Some(1))]

  function OnPeriod(i: nat): seq<Op> {
    seq(|POSTING|, k requires 0 <= k < |POSTING| => OpLifecycle(i, POSTING[k]))
  }

  const CREATES: seq<Op> := [OpCreate(None, 0, 1, 10, 10), OpCreate(None, 0, 10, 20, 20)]

  /** Two periods of one store that share day 10, both created, calculated, approved and posted. */
  function TwoPeriods(): seq<Op> {
    CREATES + (OnPeriod(0) + OnPeriod(1))
  }

  function Posted(): Payroll.Period {
    Payroll.Run(Payroll.NEW_PERIOD, POSTING)
  }

  lemma {:induction false} PostingStands()
    ensures Posted().posted != [] && Posted().reversed == []
  {
    var p0 := Payroll.NEW_PERIOD;
    var p1 := Payroll.Step(p0, POSTING[0]).0;
    var p2 := Payroll.Step(p1, POSTING[1]).0;
    var p3 := Payroll.Step(p2, POSTING[2]).0;
    SumOne(EIGHT_HOURS, Payroll.Gross);
    SumOne(EIGHT_HOURS, Payroll.Deductions);
    SumOne(EIGHT_HOURS, Payroll.Contributions);
    SumOne(EIGHT_HOURS, Payroll.Net);
    assert p3.status == Payroll.APPROVED && p3.results == [EIGHT_HOURS];
    assert Payroll.EntryLines(Payroll.TotalsOf(p3.results), false) != [] by {
      Payroll.PostingEmptyIff(Payroll.TotalsOf(p3.results), false);
    }
    var p4 := Payroll.Step(p3, POSTING[3]).0;
    assert p4.posted != [] && p4.reversed == [];
    assert POSTING[1..][1..][1..][1..] == [];
    assert Payroll.Run(p3, POSTING[3..]) == Payroll.Run(p4, []);
    assert POSTING[1..][1..] == POSTING[2..] && POSTING[2..][1..] == POSTING[3..];
    assert Payroll.Run(p0, POSTING) == Payroll.Run(p1, POSTING[1..]) == Payroll.Run(p2, POSTING[2..])
        == Payroll.Run(p3, POSTING[3..]);
  }

  lemma {:induction false} RunConcat(periods: seq<Row>, a: seq<Op>, b: seq<Op>)
    ensures Run(periods, a + b) == Run(Run(periods, a), b)
    decreases |a|
  {
    if a == [] {
      assert a + b == b;
    } else {
      assert (a + b)[0] == a[0] && (a + b)[1..] == a[1..] + b;
      RunConcat(Apply(periods, a[0]), a[1..], b);
    }
  }

  lemma {:induction false} LifecycleRun(periods: seq<Row>, i: nat, steps: seq<Payroll.Op>, ops: seq<Op>)
    requires i < |periods| && |ops| == |steps| && forall k :: 0 <= k < |ops| ==> ops[k] == OpLifecycle(i, steps[k])
    ensures Run(periods, ops) == periods[i := periods[i].(period := Payroll.Run(periods[i].period, steps))]
    decreases |steps|
  {
    if steps == [] {
      assert periods == periods[i := periods[i]];
    } else {
      LifecycleRun(Apply(periods, ops[0]), i, steps[1..], ops[1..]);
    }
  }

  lemma {:induction false} BothCreated()
    ensures Run([], CREATES) == [Row(0, 1, 10, Payroll.NEW_PERIOD), Row(0, 10, 20, Payroll.NEW_PERIOD)]
  {
    var first, second := Row(0, 1, 10, Payroll.NEW_PERIOD), Row(0, 10, 20, Payroll.NEW_PERIOD);
    assert !Duplicate([first], 0, 10, 20);
    assert Apply([], CREATES[0]) == [first];
    assert Apply([first], CREATES[1]) == [first, second];
    var last := CREATES[1..];
    assert last[1..] == [];
    assert Run([first], last) == Run(Apply([first], last[0]), []);
  }

  lemma {:induction false} PostOne(periods: seq<Row>, i: nat)
    requires i < |periods| && periods[i].period == Payroll.NEW_PERIOD
    ensures Run(periods, OnPeriod(i)) == periods[i := periods[i].(period := Posted())]
  {
    LifecycleRun(periods, i, POSTING, OnPeriod(i));
  }

  lemma {:induction false} PostBoth(periods: seq<Row>)
    requires |periods| == 2 && periods[0].period == periods[1].period == Payroll.NEW_PERIOD
    ensures Run(periods, OnPeriod(0) + OnPeriod(1))
            == [periods[0].(period := Posted()), periods[1].(period := Posted())]
  {
    PostOne(periods, 0);
    var mid := periods[0 := periods[0].(period := Posted())];
    PostOne(mid, 1);
    RunConcat(periods, OnPeriod(0), OnPeriod(1));
  }

  lemma {:induction false} BothStand()
    ensures Run([], TwoPeriods()) == [Row(0, 1, 10, Posted()), Row(0, 10, 20, Posted())]
  {
    BothCreated();
    PostBoth(Run([], CREATES));
    RunConcat([], CREATES, OnPeriod(0) + OnPeriod(1));
  }

  /** An employee assigned to store 0 from day 1 on. */
  const ASSIGNED: Assignments := [EffectiveDates.Period(1, None, 0)]

  lemma {:induction false} TimesOfTwo(date: int)
    ensures TimesPaid(Run([], TwoPeriods()), ASSIGNED, 0, date)
            == (if 1 <= date <= 10 then 1 else 0) + (if 10 <= date <= 20 then 1 else 0)
    ensures TimesPaid(Run([], TwoPeriods()), ASSIGNED, 1, date) == 0
  {
    BothStand();
    PostingStands();
    var a, b := Row(0, 1, 10, Posted()), Row(0, 10, 20, Posted());
    assert EffectiveDates.Touches(ASSIGNED[0], 1, 10) && EffectiveDates.Touches(ASSIGNED[0], 10, 20);
    assert Assigned(ASSIGNED, a) && Assigned(ASSIGNED, b);
    SumTwo(a, b, PaysFor(ASSIGNED, 0, date));
    SumTwo(a, b, PaysFor(ASSIGNED, 1, date));
  }

  lemma {:induction false} ShiftPaid(periods: seq<Row>, employee: nat, store: nat, date: int, h: Assignments)
    ensures TotalPaid(periods, [ShiftRecord(employee, store, date)], employee, h)
            == 8 * TimesPaid(periods, h, store, date)
  {
    var r := ShiftRecord(employee, store, date);
    PaidPerRecord(periods, [r], employee, h);
    assert [r][1..] == [];
    assert Sum([r], LengthTimes(periods, employee, h))
        == LengthTimes(periods, employee, h)(r) + Sum([], LengthTimes(periods, employee, h));
    assert Attendance.Length(employee, Anywhere())(r) == 8;
  }

  /** The shared day: eight units worked, sixteen paid. */
  lemma {:induction false} OverlappingPeriodsPayTwice(employee: nat)
    ensures var records := Attendance.Run([], Shift(employee, 0, 10));
            && |Attendance.Worked(records, employee, Anywhere())| == 8
            && TotalPaid(Run([], TwoPeriods()), records, employee, ASSIGNED) == 16
  {
    OneShift(employee, 0, 10);
    TimesOfTwo(10);
  }

  /** A shift at a store the employee is not assigned to, which the clock accepts, is paid by none. */
  lemma {:induction false} ShiftElsewhereUnpaid(employee: nat, date: int)
    ensures var records := Attendance.Run([], Shift(employee, 1, date));
            && |Attendance.Worked(records, employee, Anywhere())| == 8
            && TotalPaid(Run([], TwoPeriods()), records, employee, ASSIGNED) == 0
  {
    OneShift(employee, 1, date);
    TimesOfTwo(date);
  }

  lemma {:induction false} OneShift(employee: nat, store: nat, date: int)
    ensures var records := Attendance.Run([], Shift(employee, store, date));
            && |Attendance.Worked(records, employee, Anywhere())| == 8
            && TotalPaid(Run([], TwoPeriods()), records, employee, ASSIGNED)
               == 8 * TimesPaid(Run([], TwoPeriods()), ASSIGNED, store, date)
  {
    var r := ShiftRecord(employee, store, date);
    ShiftRun(employee, store, date);
    Attendance.RunSound([], Shift(employee, store, date));
    WorkedTime([r], employee, Anywhere());
    assert [r][1..] == [];
    assert Sum([r], Attendance.Length(employee, Anywhere()))
        == Attendance.Length(employee, Anywhere())(r) + Sum([], Attendance.Length(employee, Anywhere()));
    ShiftPaid(Run([], TwoPeriods()), employee, store, date, ASSIGNED);
  }

  function SecondShift(employee: nat): Attendance.Record {
    ShiftRecord(employee, 1, 11).(clockIn := 8, clockOut := Some(16))
  }

  lemma {:induction false} TwoShiftsSound(employee: nat)
    ensures Attendance.Sound([ShiftRecord(employee, 0, 10), SecondShift(employee)])
  {
    var records := [ShiftRecord(employee, 0, 10), SecondShift(employee)];
    assert !Attendance.Conflict(records[0], records[1]);
    assert Attendance.RowSound(records, 0) && Attendance.RowSound(records, 1);
  }

  lemma {:induction false} TwoShiftsPaid(periods: seq<Row>, employee: nat, h: Assignments)
    ensures var records := [ShiftRecord(employee, 0, 10), SecondShift(employee)];
            && TotalPaid(periods, records, employee, h)
                 == 8 * (TimesPaid(periods, h, 0, 10) + TimesPaid(periods, h, 1, 11))
            && Sum(records, Attendance.Length(employee, Anywhere())) == 16
  {
    var a, b, length := ShiftRecord(employee, 0, 10), SecondShift(employee), Attendance.Length(employee, Anywhere());
    PaidPerRecord(periods, [a, b], employee, h);
    SumTwo(a, b, LengthTimes(periods, employee, h));
    SumTwo(a, b, length);
    assert length(a) == 8 && length(b) == 8;
  }

  lemma {:induction false} FaultsCancelOn(periods: seq<Row>, employee: nat, h: Assignments)
    requires TimesPaid(periods, h, 0, 10) == 2 && TimesPaid(periods, h, 1, 11) == 0
    ensures var records := [ShiftRecord(employee, 0, 10), SecondShift(employee)];
            && Attendance.Sound(records)
            && TotalPaid(periods, records, employee, h) == Sum(records, Attendance.Length(employee, Anywhere())) == 16
            && !AllPaidOnce(periods, records, employee, h)
  {
    var records := [ShiftRecord(employee, 0, 10), SecondShift(employee)];
    TwoShiftsSound(employee);
    TwoShiftsPaid(periods, employee, h);
    PaidOnceIff(periods, h, 0, 10);
    assert Attendance.Counted(records[0], employee, Anywhere());
  }

  /** Totals alone do not show it: with one shift paid twice and one left out, pay equals time worked
      though neither is paid once. */
  lemma {:induction false} FaultsCanCancel(employee: nat)
    ensures var records := [ShiftRecord(employee, 0, 10), SecondShift(employee)];
            && Attendance.Sound(records)
            && TotalPaid(Run([], TwoPeriods()), records, employee, ASSIGNED)
               == Sum(records, Attendance.Length(employee, Anywhere())) == 16
            && !AllPaidOnce(Run([], TwoPeriods()), records, employee, ASSIGNED)
  {
    TimesOfTwo(10);
    TimesOfTwo(11);
    FaultsCancelOn(Run([], TwoPeriods()), employee, ASSIGNED);
  }

  // ---- Pay segments ---------------------------------------------------------------------------------------

  /** The hours of one calculation: attendance added up over each segment's own dates. */
  function HoursOver<T>(segments: seq<EffectiveDates.Segment<T>>, records: seq<Attendance.Record>, employee: nat,
      store: nat): int {
    if segments == [] then 0
    else Sum(records, Attendance.Length(employee, Attendance.PeriodOf(store, segments[0].start, segments[0].end)))
         + HoursOver(segments[1..], records, employee, store)
  }

  lemma {:induction false} TilesHours<T>(segments: seq<EffectiveDates.Segment<T>>, start: int, end: int,
      records: seq<Attendance.Record>, employee: nat, store: nat)
    requires EffectiveDates.Tiles(segments, start, end)
    ensures HoursOver(segments, records, employee, store)
            == Sum(records, Attendance.Length(employee, Attendance.PeriodOf(store, start, end)))
    decreases |segments|
  {
    var first, rest := segments[0], segments[1..];
    if rest != [] {
      EffectiveDates.TilesRest(segments, start, end);
      TilesHours(rest, first.end + 1, end, records, employee, store);
      SumAdd(records, Attendance.Length(employee, Attendance.PeriodOf(store, start, end)),
             Attendance.Length(employee, Attendance.PeriodOf(store, start, first.end)),
             Attendance.Length(employee, Attendance.PeriodOf(store, first.end + 1, end)));
    }
  }

  /** An employee whose rates cover the period is paid, over all the rates' segments together, for
      exactly the instants worked at the store on its dates, however often the rate changed. */
  lemma {:induction false} SegmentsPayThePeriod<T>(rates: seq<EffectiveDates.Period<T>>, ops: seq<Attendance.Op>,
      employee: nat, p: Row)
    requires EffectiveDates.Contiguous(rates) && p.start <= p.end
    requires rates != [] && rates[0].from <= p.start
    ensures var records := Attendance.Run([], ops);
            HoursOver(EffectiveDates.Segments(rates, p.start, p.end), records, employee, p.store)
            == Sum(records, Attendance.Length(employee, DatesOf(p)))
            == |Attendance.Worked(records, employee, DatesOf(p))|
  {
    var records := Attendance.Run([], ops);
    Attendance.RunSound([], ops);
    EffectiveDates.CoverageIff(rates, p.start, p.end);
    TilesHours(EffectiveDates.Segments(rates, p.start, p.end), p.start, p.end, records, employee, p.store);
    WorkedTime(records, employee, DatesOf(p));
  }

  // ---- The service ------------------------------------------------------------------------------------------

  class PayrollCalendar {
    var periods: seq<Row>

    constructor ()
      ensures periods == [] && Sound(periods)
    {
      periods := [];
    }

    method FindDuplicate(store: nat, start: int, end: int) returns (found: bool)
      ensures found <==> Duplicate(periods, store, start, end)
    {
      for i := 0 to |periods|
        invariant forall k :: 0 <= k < i ==>
                  !(periods[k].store == store && periods[k].start == start && periods[k].end == end)
      {
        if periods[i].store == store && periods[i].start == start && periods[i].end == end { return true; }
      }
      found := false;
    }

    method CreatePeriod(caller: Option<nat>, store: nat, start: int, end: int, payDate: int) returns (o: Outcome)
      requires Sound(periods)
      modifies this
      ensures (periods, o) == Create(old(periods), caller, store, start, end, payDate)
      ensures Sound(periods)
    {
      ApplySound(periods, OpCreate(caller, store, start, end, payDate));
      if Denied(caller, store) { return Rejected(STORE_ACCESS_DENIED); }
      if end < start { return Rejected(INVALID_PERIOD_RANGE); }
      if payDate < end { return Rejected(INVALID_PAY_DATE); }
      var found := FindDuplicate(store, start, end);
      if found { return Rejected(DUPLICATE_PAYROLL_PERIOD); }
      o := Done(|periods|);
      periods := periods + [Row(store, start, end, Payroll.NEW_PERIOD)];
    }
  }
}
