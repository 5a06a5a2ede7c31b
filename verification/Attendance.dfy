/** Attendance records: clock-in, clock-out, and corrections that void the original and insert a
    replacement, under the database's no-overlap constraint.

    Instants are microseconds.  A record covers [clockIn, clockOut), or everything from clockIn on
    while it is open. */
module Attendance {
  import opened Options
  import opened StoreAccess
  import opened Sums

  datatype Status = OPEN | CLOSED | VOIDED

  datatype Record = Record(employee: nat, store: nat, workDate: int, clockIn: int, clockOut: Option<int>,
                           status: Status, correctionOf: Option<nat>, updatedAt: Option<int>)

  datatype Error =
    | NOT_FOUND | STORE_ACCESS_DENIED | EMPLOYEE_NOT_CLOCKABLE | OVERLAPPING_ATTENDANCE | ATTENDANCE_NOT_OPEN
    | INVALID_CLOCK_OUT | ALREADY_CORRECTED

  datatype Outcome = Done(id: nat) | Rejected(error: Error)

  // ---- The constraint --------------------------------------------------------------------------

  predicate Overlap(r: Record, s: Record) {
    (r.clockOut.None? || s.clockIn < r.clockOut.value) && (s.clockOut.None? || r.clockIn < s.clockOut.value)
  }

  /** What the EXCLUDE constraint refuses. */
  predicate Conflict(r: Record, s: Record) {
    r.employee == s.employee && r.status != VOIDED && s.status != VOIDED && Overlap(r, s)
  }

  predicate Conflicts(rows: seq<Record>, r: Record) {
    exists i :: 0 <= i < |rows| && Conflict(rows[i], r)
  }

  predicate NoOverlap(rows: seq<Record>) {
    forall i, j :: 0 <= i < j < |rows| ==> !Conflict(rows[i], rows[j])
  }

  // ---- Steps -------------------------------------------------------------------------------------

  /** `clockable` is whether the employee's current status may clock in; `workDate` is what the
      store's time zone and day boundary make of the clock-in. */
  function ClockIn(rows: seq<Record>, caller: Option<nat>, employee: nat, store: nat, at: int, workDate: int,
      clockable: bool): (seq<Record>, Outcome) {
    var r := Record(employee, store, workDate, at, None, OPEN, None, None);
    if Denied(caller, store) then (rows, Rejected(STORE_ACCESS_DENIED))
    else if !clockable then (rows, Rejected(EMPLOYEE_NOT_CLOCKABLE))
    else if Conflicts(rows, r) then (rows, Rejected(OVERLAPPING_ATTENDANCE))
    else (rows + [r], Done(|rows|))
  }

  function ClockOut(rows: seq<Record>, caller: Option<nat>, i: nat, at: int, now: int): (seq<Record>, Outcome) {
    if i >= |rows| then (rows, Rejected(NOT_FOUND))
    else if Denied(caller, rows[i].store) then (rows, Rejected(STORE_ACCESS_DENIED))
    else if rows[i].status != OPEN then (rows, Rejected(ATTENDANCE_NOT_OPEN))
    else if at <= rows[i].clockIn then (rows, Rejected(INVALID_CLOCK_OUT))
    else (rows[i := rows[i].(clockOut := Some(at), status := CLOSED, updatedAt := Some(now))], Done(i))
  }

  function Correct(rows: seq<Record>, caller: Option<nat>, i: nat, newIn: int, newOut: Option<int>, workDate: int,
      now: int): (seq<Record>, Outcome) {
    if i >= |rows| then (rows, Rejected(NOT_FOUND))
    else if Denied(caller, rows[i].store) then (rows, Rejected(STORE_ACCESS_DENIED))
    else if rows[i].status == VOIDED then (rows, Rejected(ALREADY_CORRECTED))
    else if newOut.Some? && newOut.value <= newIn then (rows, Rejected(INVALID_CLOCK_OUT))
    else
      var voided := rows[i := rows[i].(status := VOIDED, updatedAt := Some(now))];
      var r := Record(rows[i].employee, rows[i].store, workDate, newIn, newOut,
                      if newOut.Some? then CLOSED else OPEN, Some(i), None);
      if Conflicts(voided, r) then (rows, Rejected(OVERLAPPING_ATTENDANCE))  // the void is rolled back as well
      else (voided + [r], Done(|rows|))
  }

  datatype Op =
    | OpIn(caller: Option<nat>, employee: nat, store: nat, at: int, workDate: int, clockable: bool, now: int)
    | OpOut(caller: Option<nat>, i: nat, at: int, now: int)
    | OpCorrect(caller: Option<nat>, i: nat, newIn: int, newOut: Option<int>, workDate: int, now: int)

  function Apply(rows: seq<Record>, op: Op): seq<Record> {
    match op
    case OpIn(caller, employee, store, at, workDate, clockable, now) =>
      ClockIn(rows, caller, employee, store, at, workDate, clockable).0
    case OpOut(caller, i, at, now) => ClockOut(rows, caller, i, at, now).0
    case OpCorrect(caller, i, newIn, newOut, workDate, now) => Correct(rows, caller, i, newIn, newOut, workDate, now).0
  }

  function Run(rows: seq<Record>, ops: seq<Op>): seq<Record>
    decreases |ops|
  {
    if ops == [] then rows else Run(Apply(rows, ops[0]), ops[1..])
  }

  // ---- What every run keeps -----------------------------------------------------------------------

  predicate RowSound(rows: seq<Record>, i: nat)
    requires i < |rows|
  {
    var r := rows[i];
    && (r.status == OPEN ==> r.clockOut.None?)
    && (r.status == CLOSED ==> r.clockOut.Some?)
    && (r.clockOut.Some? ==> r.clockOut.value > r.clockIn)
    && (r.correctionOf.Some? ==>
          && r.correctionOf.value < i && rows[r.correctionOf.value].status == VOIDED
          && rows[r.correctionOf.value].employee == r.employee && rows[r.correctionOf.value].store == r.store)
    && (r.status == VOIDED <==> exists j :: i < j < |rows| && rows[j].correctionOf == Some(i))
  }

  /** No overlap, and a record is voided exactly when one later record corrects it. */
  ghost predicate Sound(rows: seq<Record>) {
    && NoOverlap(rows)
    && (forall i: nat :: i < |rows| ==> RowSound(rows, i))
    && (forall i, j :: 0 <= i < j < |rows| && rows[i].correctionOf.Some? ==>
         rows[i].correctionOf != rows[j].correctionOf)
  }

  lemma {:induction false} ClockInSound(rows: seq<Record>, r: Record)
    requires Sound(rows) && !Conflicts(rows, r) && r.status == OPEN && r.clockOut.None? && r.correctionOf.None?
    ensures Sound(rows + [r])
  {
    var after := rows + [r];
    forall i: nat | i < |after| ensures RowSound(after, i) {
      if i < |rows| { AppendedRow(rows, r, i); }
    }
  }

  lemma {:induction false} AppendedRow(rows: seq<Record>, r: Record, i: nat)
    requires i < |rows| && RowSound(rows, i) && r.correctionOf != Some(i)
    ensures RowSound(rows + [r], i)
  {
    var after := rows + [r];
    if rows[i].status == VOIDED {
      var j :| i < j < |rows| && rows[j].correctionOf == Some(i);
      assert after[j].correctionOf == Some(i);
    }
  }

  /** Closing a record can never meet the constraint: while it was open it already excluded every
      later instant of its employee. */
  lemma {:induction false} ClockOutSound(rows: seq<Record>, caller: Option<nat>, i: nat, at: int, now: int)
    requires Sound(rows) && ClockOut(rows, caller, i, at, now).1.Done?
    ensures Sound(ClockOut(rows, caller, i, at, now).0)
  {
    var after := ClockOut(rows, caller, i, at, now).0;
    forall j: nat | j < |after| ensures RowSound(after, j) {
      assert RowSound(rows, j);
      if after[j].status == VOIDED {
        var k :| j < k < |rows| && rows[k].correctionOf == Some(j);
        assert after[k].correctionOf == Some(j);
      }
    }
    forall j, k | 0 <= j < k < |after| ensures !Conflict(after[j], after[k]) {
      assert !Conflict(rows[j], rows[k]) && RowSound(rows, i);
    }
  }

  lemma {:induction false} CorrectSound(rows: seq<Record>, caller: Option<nat>, i: nat, newIn: int,
      newOut: Option<int>, workDate: int, now: int)
    requires Sound(rows) && Correct(rows, caller, i, newIn, newOut, workDate, now).1.Done?
    ensures Sound(Correct(rows, caller, i, newIn, newOut, workDate, now).0)
  {
    var after := Correct(rows, caller, i, newIn, newOut, workDate, now).0;
    assert RowSound(rows, i);
    forall j: nat | j < |after| ensures RowSound(after, j) {
      if j < |rows| {
        assert RowSound(rows, j);
        if j == i {
          assert after[|rows|].correctionOf == Some(i);
        } else if after[j].status == VOIDED {
          var k :| j < k < |rows| && rows[k].correctionOf == Some(j);
          assert after[k].correctionOf == Some(j);
        }
      }
    }
    forall j, k | 0 <= j < k < |after| ensures !Conflict(after[j], after[k]) {
      if k < |rows| { assert !Conflict(rows[j], rows[k]); }
    }
    forall j, k | 0 <= j < k < |after| && after[j].correctionOf.Some?
      ensures after[j].correctionOf != after[k].correctionOf {
      assert RowSound(rows, j);
    }
  }

  lemma {:induction false} ApplySound(rows: seq<Record>, op: Op)
    requires Sound(rows)
    ensures Sound(Apply(rows, op))
  {
    match op
    case OpIn(caller, employee, store, at, workDate, clockable, now) =>
      if ClockIn(rows, caller, employee, store, at, workDate, clockable).1.Done? {
        ClockInSound(rows, Record(employee, store, workDate, at, None, OPEN, None, None));
      }
    case OpOut(caller, i, at, now) =>
      if ClockOut(rows, caller, i, at, now).1.Done? { ClockOutSound(rows, caller, i, at, now); }
    case OpCorrect(caller, i, newIn, newOut, workDate, now) =>
      if Correct(rows, caller, i, newIn, newOut, workDate, now).1.Done? {
        CorrectSound(rows, caller, i, newIn, newOut, workDate, now);
      }
  }

  lemma {:induction false} RunSound(rows: seq<Record>, ops: seq<Op>)
    requires Sound(rows)
    ensures Sound(Run(rows, ops))
    decreases |ops|
  {
    if ops != [] {
      ApplySound(rows, ops[0]);
      RunSound(Apply(rows, ops[0]), ops[1..]);
    }
  }

  /** No employee ever has two open records. */
  lemma {:induction false} OneOpenRecord(rows: seq<Record>, i: nat, j: nat)
    requires Sound(rows) && i < |rows| && j < |rows| && rows[i].status == OPEN == rows[j].status
    requires rows[i].employee == rows[j].employee
    ensures i == j
  {
    assert RowSound(rows, i) && RowSound(rows, j);
    assert Conflict(rows[i], rows[j]) && Conflict(rows[j], rows[i]);
  }

  // ---- What each step admits and does ---------------------------------------------------------------

  /** A clock-in is accepted if and only if it is at the caller's store, the employee may clock in and no record
      of theirs that stands is open or ends later; it then appends one open record. */
  lemma {:induction false} ClockInDoneIff(rows: seq<Record>, caller: Option<nat>, employee: nat, store: nat, at: int,
      workDate: int, clockable: bool)
    ensures var (after, o) := ClockIn(rows, caller, employee, store, at, workDate, clockable);
            && (o.Done? <==>
                  && (caller == None || caller == Some(store)) && clockable
                  && forall i :: 0 <= i < |rows| && rows[i].employee == employee && rows[i].status != VOIDED ==>
                       rows[i].clockOut.Some? && rows[i].clockOut.value <= at)
            && (!o.Done? ==> o == Rejected(if caller != None && caller != Some(store) then STORE_ACCESS_DENIED
                                           else if !clockable then EMPLOYEE_NOT_CLOCKABLE
                                           else OVERLAPPING_ATTENDANCE))
            && (o.Done? ==> o.id == |rows|
                            && after == rows + [Record(employee, store, workDate, at, None, OPEN, None, None)])
            && (!o.Done? ==> after == rows)
  {
    var r := Record(employee, store, workDate, at, None, OPEN, None, None);
    forall i | 0 <= i < |rows|
      ensures Conflict(rows[i], r) <==>
              && rows[i].employee == employee && rows[i].status != VOIDED
              && !(rows[i].clockOut.Some? && rows[i].clockOut.value <= at) {
    }
  }

  /** A clock-out is accepted if and only if it is at the caller's store, on an open record and later than its
      clock-in; it closes that record and touches no other column and no other row. */
  lemma {:induction false} ClockOutDoneIff(rows: seq<Record>, caller: Option<nat>, i: nat, at: int, now: int)
    ensures var (after, o) := ClockOut(rows, caller, i, at, now);
            && (o.Done? <==>
                  && i < |rows| && (caller == None || caller == Some(rows[i].store))
                  && rows[i].status == OPEN && at > rows[i].clockIn)
            && (!o.Done? ==> o == Rejected(if i >= |rows| then NOT_FOUND
                                           else if caller != None && caller != Some(rows[i].store)
                                           then STORE_ACCESS_DENIED
                                           else if rows[i].status != OPEN then ATTENDANCE_NOT_OPEN
                                           else INVALID_CLOCK_OUT))
            && (o.Done? ==>
                  var r := rows[i];
                  && o.id == i
                  && after == rows[..i]
                              + [Record(r.employee, r.store, r.workDate, r.clockIn, Some(at), CLOSED, r.correctionOf,
                                        Some(now))]
                              + rows[i + 1..])
            && (!o.Done? ==> after == rows)
  {
  }

  /** The other standing records of the employee leave the interval free. */
  predicate Free(rows: seq<Record>, i: nat, newIn: int, newOut: Option<int>)
    requires i < |rows|
  {
    forall k :: 0 <= k < |rows| && k != i && rows[k].employee == rows[i].employee && rows[k].status != VOIDED ==>
      (rows[k].clockOut.Some? && rows[k].clockOut.value <= newIn)
      || (newOut.Some? && newOut.value <= rows[k].clockIn)
  }

  /** A correction is accepted if and only if it is at the caller's store, of a record that stands, to a time that
      does not end before it begins and that the employee's other standing records leave free. */
  lemma {:induction false} CorrectDoneIff(rows: seq<Record>, caller: Option<nat>, i: nat, newIn: int,
      newOut: Option<int>, workDate: int, now: int)
    ensures var o := Correct(rows, caller, i, newIn, newOut, workDate, now).1;
            && (o.Done? <==>
                  && i < |rows| && (caller == None || caller == Some(rows[i].store)) && rows[i].status != VOIDED
                  && (newOut.Some? ==> newIn < newOut.value) && Free(rows, i, newIn, newOut))
            && (!o.Done? ==> o == Rejected(if i >= |rows| then NOT_FOUND
                                           else if caller != None && caller != Some(rows[i].store)
                                           then STORE_ACCESS_DENIED
                                           else if rows[i].status == VOIDED then ALREADY_CORRECTED
                                           else if newOut.Some? && newOut.value <= newIn then INVALID_CLOCK_OUT
                                           else OVERLAPPING_ATTENDANCE))
  {
    if i < |rows| {
      var voided := rows[i := rows[i].(status := VOIDED, updatedAt := Some(now))];
      var r := Record(rows[i].employee, rows[i].store, workDate, newIn, newOut,
                      if newOut.Some? then CLOSED else OPEN, Some(i), None);
      if Free(rows, i, newIn, newOut) {
        forall k | 0 <= k < |voided| ensures !Conflict(voided[k], r) { }
      } else {
        var k :| 0 <= k < |rows| && k != i && rows[k].employee == rows[i].employee && rows[k].status != VOIDED
                 && !(rows[k].clockOut.Some? && rows[k].clockOut.value <= newIn)
                 && !(newOut.Some? && newOut.value <= rows[k].clockIn);
        assert Conflict(voided[k], r);
      }
    }
  }

  /** It voids that record, keeping its times, and appends its replacement; otherwise nothing is written. */
  lemma {:induction false} CorrectEffect(rows: seq<Record>, caller: Option<nat>, i: nat, newIn: int,
      newOut: Option<int>, workDate: int, now: int)
    ensures var (after, o) := Correct(rows, caller, i, newIn, newOut, workDate, now);
            && (!o.Done? ==> after == rows)
            && (o.Done? ==>
                  var r := rows[i];
                  && o.id == |rows|
                  && after == rows[..i]
                              + [Record(r.employee, r.store, r.workDate, r.clockIn, r.clockOut, VOIDED, r.correctionOf,
                                        Some(now))]
                              + rows[i + 1..]
                              + [Record(r.employee, r.store, workDate, newIn, newOut,
                                        if newOut.Some? then CLOSED else OPEN, Some(i), None)])
  {
  }

  // ---- Time paid for one selection ---------------------------------------------------------------

  function Instants(from: int, to: int): (s: set<int>)
    ensures forall t :: t in s <==> from <= t < to
    ensures |s| == (if from <= to then to - from else 0)
    decreases if from < to then to - from else 0
  {
    if from >= to then {} else Instants(from, to - 1) + {to - 1}
  }

  /** Which closed records a payroll run adds up: an employee's, by store and work date. */
  type Selection = Record -> bool

  predicate Counted(r: Record, employee: nat, keep: Selection) {
    r.employee == employee && r.status == CLOSED && r.clockOut.Some? && keep(r)
  }

  function Length(employee: nat, keep: Selection): Record -> int {
    (r: Record) => if Counted(r, employee, keep) then r.clockOut.value - r.clockIn else 0
  }

  function InstantsOf(r: Record, employee: nat, keep: Selection): set<int> {
    if Counted(r, employee, keep) then Instants(r.clockIn, r.clockOut.value) else {}
  }

  /** Every instant that some counted record covers. */
  function Worked(rows: seq<Record>, employee: nat, keep: Selection): set<int> {
    if rows == [] then {} else Worked(rows[..|rows| - 1], employee, keep) + InstantsOf(rows[|rows| - 1], employee, keep)
  }

  lemma {:induction false} WorkedBy(rows: seq<Record>, employee: nat, keep: Selection, t: int) returns (i: nat)
    requires t in Worked(rows, employee, keep)
    ensures i < |rows| && t in InstantsOf(rows[i], employee, keep)
  {
    var n := |rows| - 1;
    if t in InstantsOf(rows[n], employee, keep) { return n; }
    i := WorkedBy(rows[..n], employee, keep, t);
  }

  lemma {:induction false} AllWorked(rows: seq<Record>, employee: nat, keep: Selection, i: nat)
    requires i < |rows|
    ensures InstantsOf(rows[i], employee, keep) <= Worked(rows, employee, keep)
  {
    if i < |rows| - 1 { AllWorked(rows[..|rows| - 1], employee, keep, i); }
  }

  lemma {:induction false} LastIsDisjoint(rows: seq<Record>, employee: nat, keep: Selection)
    requires rows != [] && NoOverlap(rows)
    ensures Worked(rows[..|rows| - 1], employee, keep) !! InstantsOf(rows[|rows| - 1], employee, keep)
  {
    var n := |rows| - 1;
    forall t | t in Worked(rows[..n], employee, keep) ensures t !in InstantsOf(rows[n], employee, keep) {
      var i := WorkedBy(rows[..n], employee, keep, t);
      assert !Conflict(rows[i], rows[n]);
    }
  }

  /** For any selection of an employee's records, the time paid is the number of instants worked. */
  lemma {:induction false} PaidTimeIsWorkedTime(rows: seq<Record>, employee: nat, keep: Selection)
    requires NoOverlap(rows)
    requires forall i :: 0 <= i < |rows| && rows[i].clockOut.Some? ==> rows[i].clockOut.value > rows[i].clockIn
    ensures Sum(rows, Length(employee, keep)) == |Worked(rows, employee, keep)|
  {
    if rows != [] {
      var n := |rows| - 1;
      PaidTimeIsWorkedTime(rows[..n], employee, keep);
      assert rows == rows[..n] + [rows[n]];
      SumAppend(rows[..n], rows[n], Length(employee, keep));
      LastIsDisjoint(rows, employee, keep);
    }
  }

  /** So over every run, one selection, such as the store and dates of one period, counts each instant
      worked in it once. */
  lemma {:induction false} SelectionCountsOnce(ops: seq<Op>, employee: nat, keep: Selection)
    ensures var rows := Run([], ops); Sum(rows, Length(employee, keep)) == |Worked(rows, employee, keep)|
  {
    RunSound([], ops);
    var rows := Run([], ops);
    forall i: nat | i < |rows| && rows[i].clockOut.Some? ensures rows[i].clockOut.value > rows[i].clockIn {
      assert RowSound(rows, i);
    }
    PaidTimeIsWorkedTime(rows, employee, keep);
  }

  // ---- The staleness guard of payroll approval -----------------------------------------------------

  predicate InPeriod(r: Record, store: nat, from: int, to: int) {
    r.store == store && from <= r.workDate <= to
  }

  function PeriodOf(store: nat, from: int, to: int): Selection {
    (r: Record) => InPeriod(r, store, from, to)
  }

  /** What approval looks for: a record of the period updated after it was calculated. */
  predicate LooksStale(rows: seq<Record>, store: nat, from: int, to: int, calculatedAt: int) {
    exists i :: 0 <= i < |rows| && InPeriod(rows[i], store, from, to)
                && rows[i].updatedAt.Some? && rows[i].updatedAt.value > calculatedAt
  }

  /** What steps after the calculation do to the rows that were there, and how new rows come. */
  ghost predicate Since(before: seq<Record>, rows: seq<Record>, calculatedAt: int) {
    && |before| <= |rows|
    && (forall i :: 0 <= i < |before| ==>
          && rows[i].store == before[i].store && rows[i].workDate == before[i].workDate
          && (rows[i] == before[i] || (rows[i].updatedAt.Some? && rows[i].updatedAt.value > calculatedAt)))
    && (forall i :: |before| <= i < |rows| ==>
          (rows[i].updatedAt.Some? && rows[i].updatedAt.value > calculatedAt)
          || (rows[i].updatedAt.None? && (rows[i].status == CLOSED ==> rows[i].correctionOf.Some?)))
    && (forall i :: |before| <= i < |rows| && rows[i].correctionOf.Some? ==>
          && rows[i].correctionOf.value < i
          && rows[rows[i].correctionOf.value].updatedAt.Some?
               && rows[rows[i].correctionOf.value].updatedAt.value > calculatedAt)
  }

  lemma {:induction false} ClockInKeepsSince(before: seq<Record>, rows: seq<Record>, op: Op, calculatedAt: int)
    requires Since(before, rows, calculatedAt) && op.OpIn?
    ensures Since(before, Apply(rows, op), calculatedAt)
  {
    var after := Apply(rows, op);
    assert forall i :: 0 <= i < |rows| ==> after[i] == rows[i];
  }

  lemma {:induction false} ClockOutKeepsSince(before: seq<Record>, rows: seq<Record>, op: Op, calculatedAt: int)
    requires Since(before, rows, calculatedAt) && op.OpOut? && op.now > calculatedAt
    ensures Since(before, Apply(rows, op), calculatedAt)
  {
    var after := Apply(rows, op);
    assert forall i :: 0 <= i < |rows| ==> after[i] == rows[i] || (i == op.i && after[i].updatedAt == Some(op.now));
    assert forall i :: 0 <= i < |rows| ==>
      after[i].store == rows[i].store && after[i].workDate == rows[i].workDate
        && after[i].correctionOf == rows[i].correctionOf;
  }

  lemma {:induction false} UpdateKeepsSince(before: seq<Record>, rows: seq<Record>, i: nat, status: Status, now: int,
      calculatedAt: int)
    requires Since(before, rows, calculatedAt) && i < |rows| && now > calculatedAt
    ensures Since(before, rows[i := rows[i].(status := status, updatedAt := Some(now))], calculatedAt)
  {
    var after := rows[i := rows[i].(status := status, updatedAt := Some(now))];
    assert forall k :: 0 <= k < |rows| && k != i ==> after[k] == rows[k];
  }

  lemma {:induction false} ReplacementKeepsSince(before: seq<Record>, rows: seq<Record>, r: Record, i: nat,
      calculatedAt: int)
    requires Since(before, rows, calculatedAt) && i < |rows| && r.correctionOf == Some(i) && r.updatedAt.None?
    requires rows[i].updatedAt.Some? && rows[i].updatedAt.value > calculatedAt
    ensures Since(before, rows + [r], calculatedAt)
  {
    assert forall k :: 0 <= k < |rows| ==> (rows + [r])[k] == rows[k];
  }

  /** The replacement that an accepted correction inserts. */
  lemma {:induction false} CorrectedTo(rows: seq<Record>, op: Op) returns (r: Record)
    requires op.OpCorrect? && Correct(rows, op.caller, op.i, op.newIn, op.newOut, op.workDate, op.now).1.Done?
    ensures op.i < |rows| && r.correctionOf == Some(op.i) && r.updatedAt.None?
    ensures Apply(rows, op) == rows[op.i := rows[op.i].(status := VOIDED, updatedAt := Some(op.now))] + [r]
  {
    r := Record(rows[op.i].employee, rows[op.i].store, op.workDate, op.newIn, op.newOut,
                if op.newOut.Some? then CLOSED else OPEN, Some(op.i), None);
  }

  lemma {:induction false} CorrectKeepsSince(before: seq<Record>, rows: seq<Record>, op: Op, calculatedAt: int)
    requires Since(before, rows, calculatedAt) && op.OpCorrect? && op.now > calculatedAt
    ensures Since(before, Apply(rows, op), calculatedAt)
  {
    if Correct(rows, op.caller, op.i, op.newIn, op.newOut, op.workDate, op.now).1.Done? {
      var voided := rows[op.i := rows[op.i].(status := VOIDED, updatedAt := Some(op.now))];
      var r := CorrectedTo(rows, op);
      UpdateKeepsSince(before, rows, op.i, VOIDED, op.now, calculatedAt);
      ReplacementKeepsSince(before, voided, r, op.i, calculatedAt);
    }
  }

  lemma {:induction false} SinceKept(before: seq<Record>, rows: seq<Record>, op: Op, calculatedAt: int)
    requires Since(before, rows, calculatedAt) && op.now > calculatedAt
    ensures Since(before, Apply(rows, op), calculatedAt)
  {
    match op
    case OpIn(_, _, _, _, _, _, _) => ClockInKeepsSince(before, rows, op, calculatedAt);
    case OpOut(_, _, _, _) => ClockOutKeepsSince(before, rows, op, calculatedAt);
    case OpCorrect(_, _, _, _, _, _) => CorrectKeepsSince(before, rows, op, calculatedAt);
  }

  lemma {:induction false} SinceRun(before: seq<Record>, rows: seq<Record>, ops: seq<Op>, calculatedAt: int)
    requires Since(before, rows, calculatedAt) && forall k :: 0 <= k < |ops| ==> ops[k].now > calculatedAt
    ensures Since(before, Run(rows, ops), calculatedAt)
    decreases |ops|
  {
    if ops != [] {
      SinceKept(before, rows, ops[0], calculatedAt);
      assert forall k :: 0 <= k < |ops[1..]| ==> ops[1..][k] == ops[k + 1];
      SinceRun(before, Apply(rows, ops[0]), ops[1..], calculatedAt);
    }
  }

  /** A correction made since the calculation that brought a paid shift into the period from outside. */
  predicate MovedIn(rows: seq<Record>, i: nat, employee: nat, store: nat, from: int, to: int)
    requires i < |rows|
  {
    && Counted(rows[i], employee, PeriodOf(store, from, to)) && rows[i].correctionOf.Some?
    && rows[i].correctionOf.value < |rows| && !InPeriod(rows[rows[i].correctionOf.value], store, from, to)
  }

  predicate NoneMovedIn(rows: seq<Record>, n: nat, employee: nat, store: nat, from: int, to: int) {
    forall i: nat :: n <= i < |rows| ==> !MovedIn(rows, i, employee, store, from, to)
  }

  /** Rows of the period that were there at the calculation, when none of them looks stale. */
  lemma {:induction false} OldTimeUnchanged(before: seq<Record>, rows: seq<Record>, calculatedAt: int, employee: nat,
      store: nat, from: int, to: int)
    requires Since(before, rows, calculatedAt) && !LooksStale(rows, store, from, to, calculatedAt)
    ensures var paid := Length(employee, PeriodOf(store, from, to)); Sum(rows[..|before|], paid) == Sum(before, paid)
  {
    var paid := Length(employee, PeriodOf(store, from, to));
    forall i | 0 <= i < |before| ensures paid(rows[..|before|][i]) == paid(before[i]) {
      assert rows[..|before|][i] == rows[i];
    }
    SumSame(rows[..|before|], before, paid, paid);
  }

  lemma {:induction false} NewTimeIsMovedIn(before: seq<Record>, rows: seq<Record>, calculatedAt: int, employee: nat,
      store: nat, from: int, to: int, i: nat)
    requires Since(before, rows, calculatedAt) && !LooksStale(rows, store, from, to, calculatedAt)
    requires |before| <= i < |rows| && RowSound(rows, i)
    ensures var paid := Length(employee, PeriodOf(store, from, to))(rows[i]);
            paid >= 0 && (paid > 0 <==> MovedIn(rows, i, employee, store, from, to))
  {
  }

  /** When approval finds nothing stale, an employee's paid time is still what was calculated if and
      only if no correction since then moved a shift into the period from another date: the inserted
      row carries no update time, and the voided one is outside the dates that are looked at. */
  lemma {:induction false} ApprovedTimeUnchangedIff(rows: seq<Record>, ops: seq<Op>, calculatedAt: int, employee: nat,
      store: nat, from: int, to: int)
    requires Sound(rows) && forall k :: 0 <= k < |ops| ==> ops[k].now > calculatedAt
    requires !LooksStale(Run(rows, ops), store, from, to, calculatedAt)
    ensures var after, paid := Run(rows, ops), Length(employee, PeriodOf(store, from, to));
            |rows| <= |after|
            && (Sum(after, paid) == Sum(rows, paid)
                <==> NoneMovedIn(after, |rows|, employee, store, from, to))
  {
    var after, paid := Run(rows, ops), Length(employee, PeriodOf(store, from, to));
    SinceItself(rows, calculatedAt);
    SinceRun(rows, rows, ops, calculatedAt);
    RunSound(rows, ops);
    TimeUnchangedIff(rows, after, calculatedAt, employee, store, from, to);
  }

  lemma {:induction false} TimeUnchangedIff(before: seq<Record>, rows: seq<Record>, calculatedAt: int, employee: nat,
      store: nat, from: int, to: int)
    requires Since(before, rows, calculatedAt) && Sound(rows) && !LooksStale(rows, store, from, to, calculatedAt)
    ensures var paid := Length(employee, PeriodOf(store, from, to));
            Sum(rows, paid) == Sum(before, paid) <==> NoneMovedIn(rows, |before|, employee, store, from, to)
  {
    var paid, n := Length(employee, PeriodOf(store, from, to)), |before|;
    var earlier, more := Sum(rows[..n], paid), Sum(rows[n..], paid);
    assert Sum(rows, paid) == earlier + more by { SumSplit(rows, n, paid); }
    assert earlier == Sum(before, paid) by { OldTimeUnchanged(before, rows, calculatedAt, employee, store, from, to); }
    assert more == 0 <==> NoneMovedIn(rows, n, employee, store, from, to) by {
      NewTimeZeroIff(before, rows, calculatedAt, employee, store, from, to);
    }
  }

  lemma {:induction false} SinceItself(rows: seq<Record>, calculatedAt: int)
    requires Sound(rows)
    ensures Since(rows, rows, calculatedAt)
  {
  }

  lemma {:induction false} NewTimeZeroIff(before: seq<Record>, rows: seq<Record>, calculatedAt: int, employee: nat,
      store: nat, from: int, to: int)
    requires Since(before, rows, calculatedAt) && Sound(rows) && !LooksStale(rows, store, from, to, calculatedAt)
    ensures Sum(rows[|before|..], Length(employee, PeriodOf(store, from, to))) == 0
            <==> NoneMovedIn(rows, |before|, employee, store, from, to)
  {
    var paid, more, n := Length(employee, PeriodOf(store, from, to)), rows[|before|..], |before|;
    forall k: nat | k < |more|
      ensures paid(more[k]) >= 0 && (paid(more[k]) > 0 <==> MovedIn(rows, n + k, employee, store, from, to))
    {
      assert RowSound(rows, n + k) && more[k] == rows[n + k];
      NewTimeIsMovedIn(before, rows, calculatedAt, employee, store, from, to, n + k);
    }
    ZeroSumIff(more, paid);
    if Sum(more, paid) == 0 {
      forall i: nat | n <= i < |rows| ensures !MovedIn(rows, i, employee, store, from, to) {
        assert paid(more[i - n]) == 0;
      }
    }
  }

  lemma {:induction false} ZeroSumIff<T>(rows: seq<T>, measure: T -> int)
    requires forall i :: 0 <= i < |rows| ==> measure(rows[i]) >= 0
    ensures Sum(rows, measure) == 0 <==> forall i :: 0 <= i < |rows| ==> measure(rows[i]) == 0
  {
    SumNonNegative(rows, measure);
    if forall i :: 0 <= i < |rows| ==> measure(rows[i]) == 0 { SumZero(rows, measure); }
  }

  /** It can happen: a shift of day 9 is corrected to day 10 after the payroll of day 10 was
      calculated, and approval has nothing to object to. */
  lemma {:induction false} ShiftMovedInUnnoticed()
    ensures var rows := [Record(1, 1, 9, 900, Some(908), CLOSED, None, Some(5))];
            var after := Run(rows, [OpCorrect(None, 0, 1000, Some(1008), 10, 20)]);
            var paid := Length(1, PeriodOf(1, 10, 10));
            && Sound(rows) && !LooksStale(after, 1, 10, 10, 15)
            && Sum(rows, paid) == 0 && Sum(after, paid) == 8
  {
    var rows := [Record(1, 1, 9, 900, Some(908), CLOSED, None, Some(5))];
    var op := OpCorrect(None, 0, 1000, Some(1008), 10, 20);
    var after :=
        [Record(1, 1, 9, 900, Some(908), VOIDED, None, Some(20)),
          Record(1, 1, 10, 1000, Some(1008), CLOSED, Some(0), None)];
    assert RowSound(rows, 0);
    assert Apply(rows, op) == after;
    assert [op][1..] == [] && Run(rows, [op]) == Run(after, []);
    var paid := Length(1, PeriodOf(1, 10, 10));
    assert after == [after[0]] + [after[1]];
    SumAppend([after[0]], after[1], paid);
    assert [] + [after[0]] == [after[0]] && [] + [rows[0]] == [rows[0]];
    SumAppend([], after[0], paid);
    SumAppend([], rows[0], paid);
    assert rows == [rows[0]];
  }

  // ---- The service ----------------------------------------------------------------------------------

  class AttendanceBook {
    var records: seq<Record>

    constructor ()
      ensures records == [] && Sound(records)
    {
      records := [];
    }

    method FindConflict(r: Record) returns (found: bool)
      ensures found <==> Conflicts(records, r)
    {
      for i := 0 to |records|
        invariant forall k :: 0 <= k < i ==> !Conflict(records[k], r)
      {
        if Conflict(records[i], r) { return true; }
      }
      found := false;
    }

    method ClockInAt(caller: Option<nat>, employee: nat, store: nat, at: int, workDate: int, clockable: bool)
        returns (o: Outcome)
      requires Sound(records)
      modifies this
      ensures (records, o) == ClockIn(old(records), caller, employee, store, at, workDate, clockable)
      ensures Sound(records)
    {
      ApplySound(records, OpIn(caller, employee, store, at, workDate, clockable, 0));
      if Denied(caller, store) { return Rejected(STORE_ACCESS_DENIED); }
      if !clockable { return Rejected(EMPLOYEE_NOT_CLOCKABLE); }
      var r := Record(employee, store, workDate, at, None, OPEN, None, None);
      var found := FindConflict(r);
      if found { return Rejected(OVERLAPPING_ATTENDANCE); }
      o := Done(|records|);
      records := records + [r];
    }

    method ClockOutAt(caller: Option<nat>, i: nat, at: int, now: int) returns (o: Outcome)
      requires Sound(records)
      modifies this
      ensures (records, o) == ClockOut(old(records), caller, i, at, now)
      ensures Sound(records)
    {
      ApplySound(records, OpOut(caller, i, at, now));
      if i >= |records| { return Rejected(NOT_FOUND); }
      if Denied(caller, records[i].store) { return Rejected(STORE_ACCESS_DENIED); }
      if records[i].status != OPEN { return Rejected(ATTENDANCE_NOT_OPEN); }
      if at <= records[i].clockIn { return Rejected(INVALID_CLOCK_OUT); }
      records := records[i := records[i].(clockOut := Some(at), status := CLOSED, updatedAt := Some(now))];
      o := Done(i);
    }

    method CorrectRecord(caller: Option<nat>, i: nat, newIn: int, newOut: Option<int>, workDate: int, now: int)
        returns (o: Outcome)
      requires Sound(records)
      modifies this
      ensures (records, o) == Correct(old(records), caller, i, newIn, newOut, workDate, now)
      ensures Sound(records)
    {
      ApplySound(records, OpCorrect(caller, i, newIn, newOut, workDate, now));
      if i >= |records| { return Rejected(NOT_FOUND); }
      if Denied(caller, records[i].store) { return Rejected(STORE_ACCESS_DENIED); }
      if records[i].status == VOIDED { return Rejected(ALREADY_CORRECTED); }
      if newOut.Some? && newOut.value <= newIn { return Rejected(INVALID_CLOCK_OUT); }
      var original := records[i];
      records := records[i := original.(status := VOIDED, updatedAt := Some(now))];
      var r := Record(original.employee, original.store, workDate, newIn, newOut,
                      if newOut.Some? then CLOSED else OPEN, Some(i), None);
      var found := FindConflict(r);
      if found {
        records := records[i := original];
        assert records == old(records);
        return Rejected(OVERLAPPING_ATTENDANCE);
      }
      o := Done(|records|);
      records := records + [r];
    }
  }
}
