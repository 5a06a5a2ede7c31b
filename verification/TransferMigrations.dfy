/** The three migrations that widen the transfer tables, and their guarded downgrades.

    A column that a schema does not have reads None; a table that it does not have is empty.  Level 1
    is the schema of the first transfer tables, levels 2 to 4 are what each migration adds. */
module TransferMigrations {
  import opened Options

  datatype Line = Line(requested: int, shipped: int, received: int, damaged: Option<int>, short: Option<int>,
      writtenOff: Option<int>)

  datatype Item = Item(good: int, damaged: Option<int>, short: Option<int>)

  datatype Source = WRITE_OFF_SOURCE | OTHER_SOURCE

  /** Tables whose contents no step reads are represented by their number of rows. */
  datatype Database = Database(
    lines: seq<Line>, items: seq<Item>, custody: nat, discrepancies: nat,
    rules: nat, writeOffs: nat, approvals: nat, sources: seq<Source>)

  datatype Refusal = FAULTY_LINES | FAULTY_ITEMS | CUSTODY_ROWS | DISCREPANCY_ROWS | WRITE_OFF_ROWS | SOURCE_TYPE_CHECK

  datatype Result = Migrated(db: Database) | Refused(reason: Refusal)

  // ---- Constraints of each level -----------------------------------------------------------------

  predicate Shipment(l: Line) {
    l.requested > 0 && 0 <= l.shipped <= l.requested
  }

  predicate NarrowLine(l: Line) {
    Shipment(l) && l.damaged.None? && l.short.None? && l.writtenOff.None? && 0 <= l.received <= l.shipped
  }

  predicate FaultLine(l: Line) {
    && Shipment(l) && l.damaged.Some? && l.short.Some?
    && l.received >= 0 && l.damaged.value >= 0 && l.short.value >= 0
    && l.received + l.damaged.value + l.short.value <= l.shipped
  }

  predicate WriteOffLine(l: Line) {
    FaultLine(l) && l.writtenOff.Some? && 0 <= l.writtenOff.value <= l.damaged.value + l.short.value
  }

  predicate NarrowItem(x: Item) {
    x.damaged.None? && x.short.None? && x.good > 0
  }

  predicate FaultItem(x: Item) {
    && x.damaged.Some? && x.short.Some?
    && x.good >= 0 && x.damaged.value >= 0 && x.short.value >= 0 && x.good + x.damaged.value + x.short.value > 0
  }

  predicate OldSources(d: Database) {
    forall k :: 0 <= k < |d.sources| ==> d.sources[k] != WRITE_OFF_SOURCE
  }

  predicate Valid1(d: Database) {
    && (forall i :: 0 <= i < |d.lines| ==> NarrowLine(d.lines[i]))
    && (forall i :: 0 <= i < |d.items| ==> NarrowItem(d.items[i]))
    && d.custody == d.discrepancies == d.rules == d.writeOffs == d.approvals == 0
    && OldSources(d)
  }

  predicate Valid2(d: Database) {
    && (forall i :: 0 <= i < |d.lines| ==> FaultLine(d.lines[i]) && d.lines[i].writtenOff.None?)
    && (forall i :: 0 <= i < |d.items| ==> FaultItem(d.items[i]))
    && d.discrepancies == d.rules == d.writeOffs == d.approvals == 0
    && OldSources(d)
  }

  predicate Valid3(d: Database) {
    Valid2(d.(discrepancies := 0))
  }

  predicate Valid4(d: Database) {
    && (forall i :: 0 <= i < |d.lines| ==> WriteOffLine(d.lines[i]))
    && (forall i :: 0 <= i < |d.items| ==> FaultItem(d.items[i]))
  }

  // ---- The migrations ------------------------------------------------------------------------------

  function MapLines(lines: seq<Line>, f: Line -> Line): (r: seq<Line>)
    ensures |r| == |lines| && forall i :: 0 <= i < |r| ==> r[i] == f(lines[i])
  {
    seq(|lines|, i requires 0 <= i < |lines| => f(lines[i]))
  }

  function MapItems(items: seq<Item>, f: Item -> Item): (r: seq<Item>)
    ensures |r| == |items| && forall i :: 0 <= i < |r| ==> r[i] == f(items[i])
  {
    seq(|items|, i requires 0 <= i < |items| => f(items[i]))
  }

  function Up2(d: Database): Database {
    d.(lines := MapLines(d.lines, (l: Line) => l.(damaged := Some(0), short := Some(0))),
       items := MapItems(d.items, (x: Item) => x.(damaged := Some(0), short := Some(0))))
  }

  function Up4(d: Database): Database {
    d.(lines := MapLines(d.lines, (l: Line) => l.(writtenOff := Some(0))))
  }

  /** The second of the three only creates an empty table. */
  function UpAll(d: Database): Database {
    Up4(Up2(d))
  }

  function Down4(d: Database): Result {
    if d.writeOffs > 0 || d.approvals > 0 || (exists i :: 0 <= i < |d.lines| && d.lines[i].writtenOff != Some(0))
    then Refused(WRITE_OFF_ROWS)
    else if !OldSources(d) then Refused(SOURCE_TYPE_CHECK)
    else Migrated(d.(lines := MapLines(d.lines, (l: Line) => l.(writtenOff := None)), rules := 0, writeOffs := 0,
      approvals := 0))
  }

  function Down3(d: Database): Result {
    if d.discrepancies > 0 then Refused(DISCREPANCY_ROWS) else Migrated(d.(discrepancies := 0))
  }

  predicate FaultyLine(l: Line) {
    (l.damaged.Some? && l.damaged.value > 0) || (l.short.Some? && l.short.value > 0)
  }

  predicate FaultyItem(x: Item) {
    (x.damaged.Some? && x.damaged.value > 0) || (x.short.Some? && x.short.value > 0) || x.good == 0
  }

  function Down2(d: Database): Result {
    if exists i :: 0 <= i < |d.lines| && FaultyLine(d.lines[i]) then Refused(FAULTY_LINES)
    else if exists i :: 0 <= i < |d.items| && FaultyItem(d.items[i]) then Refused(FAULTY_ITEMS)
    else if d.custody > 0 then Refused(CUSTODY_ROWS)
    else Migrated(d.(lines := MapLines(d.lines, (l: Line) => l.(damaged := None, short := None)),
                     items := MapItems(d.items, (x: Item) => x.(damaged := None, short := None)), custody := 0))
  }

  function Then(r: Result, next: Database -> Result): Result {
    if r.Migrated? then next(r.db) else r
  }

  function DownAll(d: Database): Result {
    Then(Then(Down4(d), Down3), Down2)
  }

  // ---- There and back -----------------------------------------------------------------------------

  /** Upgrading through the chain meets each level's constraints, and going back restores every row. */
  lemma {:induction false} DownAfterUp(d: Database)
    requires Valid1(d)
    ensures Valid2(Up2(d)) && Valid3(Up2(d)) && Valid4(UpAll(d))
    ensures DownAll(UpAll(d)) == Migrated(d)
  {
    var up := UpAll(d);
    assert Down4(up).db.lines == Up2(d).lines;
    assert Down2(Up2(d)).db.lines == d.lines;
    assert Down2(Up2(d)).db.items == d.items;
  }

  /** The upgrades add zeros and keep every row's own columns; no table gains a row. */
  lemma {:induction false} UpgradeEffect(d: Database)
    ensures var up := UpAll(d);
            && |up.lines| == |d.lines| && |up.items| == |d.items|
            && (forall i :: 0 <= i < |d.lines| ==>
                  var l := d.lines[i];
                  up.lines[i] == Line(l.requested, l.shipped, l.received, Some(0), Some(0), Some(0)))
            && (forall i :: 0 <= i < |d.items| ==> up.items[i] == Item(d.items[i].good, Some(0), Some(0)))
            && (up.custody, up.discrepancies, up.rules) == (d.custody, d.discrepancies, d.rules)
            && (up.writeOffs, up.approvals, up.sources) == (d.writeOffs, d.approvals, d.sources)
  {
  }

  /** The first thing a downgrade finds in its way is what it reports. */
  lemma {:induction false} RefusedFor(d: Database)
    requires Valid4(d)
    ensures var written := d.writeOffs > 0 || d.approvals > 0
                           || exists i :: 0 <= i < |d.lines| && d.lines[i].writtenOff != Some(0);
            && (Down4(d) == Refused(WRITE_OFF_ROWS) <==> written)
            && (Down4(d) == Refused(SOURCE_TYPE_CHECK) <==> !written && WRITE_OFF_SOURCE in d.sources)
            && (Down3(d) == Refused(DISCREPANCY_ROWS) <==> d.discrepancies > 0)
  {
    assert WRITE_OFF_SOURCE in d.sources <==> exists k :: 0 <= k < |d.sources| && d.sources[k] == WRITE_OFF_SOURCE;
  }

  lemma {:induction false} ReceivingRefusedFor(d: Database)
    requires Valid2(d)
    ensures var lines :=
              (exists i :: 0 <= i < |d.lines| && (d.lines[i].damaged != Some(0) || d.lines[i].short != Some(0)));
            var items :=
              (exists i :: 0 <= i < |d.items|
                 && (d.items[i].damaged != Some(0) || d.items[i].short != Some(0) || d.items[i].good == 0));
            && (Down2(d) == Refused(FAULTY_LINES) <==> lines)
            && (Down2(d) == Refused(FAULTY_ITEMS) <==> !lines && items)
            && (Down2(d) == Refused(CUSTODY_ROWS) <==> !lines && !items && d.custody > 0)
  {
    forall i | 0 <= i < |d.lines|
      ensures FaultyLine(d.lines[i]) <==> d.lines[i].damaged != Some(0) || d.lines[i].short != Some(0) {
      assert FaultLine(d.lines[i]);
    }
    forall i | 0 <= i < |d.items|
      ensures FaultyItem(d.items[i])
              <==> d.items[i].damaged != Some(0) || d.items[i].short != Some(0) || d.items[i].good == 0 {
      assert FaultItem(d.items[i]);
    }
  }

  /** Nothing the oldest schema cannot represent; the approval policy is not mentioned. */
  predicate Representable(d: Database) {
    && (forall i :: 0 <= i < |d.lines| ==>
          d.lines[i].damaged == Some(0) && d.lines[i].short == Some(0) && d.lines[i].writtenOff == Some(0))
    && (forall i :: 0 <= i < |d.items| ==>
         d.items[i].damaged == Some(0) && d.items[i].short == Some(0) && d.items[i].good > 0)
    && d.custody == d.discrepancies == d.writeOffs == d.approvals == 0
    && OldSources(d)
  }

  /** Exactly which databases the guards let all the way down; what is left meets the oldest,
      narrowest constraints. */
  lemma {:induction false} DowngradesIff(d: Database)
    requires Valid4(d)
    ensures DownAll(d).Migrated? <==> Representable(d)
    ensures DownAll(d).Migrated? ==> Valid1(DownAll(d).db)
    ensures Down4(d).Migrated? ==> Valid3(Down4(d).db)
    ensures Down4(d).Migrated? && Down3(Down4(d).db).Migrated? ==> Valid2(Down3(Down4(d).db).db)
  {
    if Down4(d).Migrated? {
      var three := Down4(d).db;
      assert forall i :: 0 <= i < |d.lines| ==> three.lines[i] == d.lines[i].(writtenOff := None);
      assert Valid3(three);
      if Down3(three).Migrated? {
        DowngradesFrom2Iff(Down3(three).db);
      }
    }
  }

  lemma {:induction false} DowngradesFrom2Iff(d: Database)
    requires Valid2(d)
    ensures Down2(d).Migrated? <==>
            && (forall i :: 0 <= i < |d.lines| ==> d.lines[i].damaged == Some(0) && d.lines[i].short == Some(0))
            && (forall i :: 0 <= i < |d.items| ==>
                 d.items[i].damaged == Some(0) && d.items[i].short == Some(0) && d.items[i].good > 0)
            && d.custody == 0
    ensures Down2(d).Migrated? ==> Valid1(Down2(d).db)
  {
    if forall i :: 0 <= i < |d.lines| ==> !FaultyLine(d.lines[i]) {
      forall i | 0 <= i < |d.lines| ensures d.lines[i].damaged == Some(0) && d.lines[i].short == Some(0) {
        assert FaultLine(d.lines[i]) && !FaultyLine(d.lines[i]);
      }
    }
    if forall i :: 0 <= i < |d.items| ==> !FaultyItem(d.items[i]) {
      forall i | 0 <= i < |d.items|
        ensures d.items[i].damaged == Some(0) && d.items[i].short == Some(0) && d.items[i].good > 0 {
        assert FaultItem(d.items[i]) && !FaultyItem(d.items[i]);
      }
    }
  }

  /** After a downgrade that the guards allowed, upgrading again restores the same database if and
      only if no approval policy rule had been configured: those are dropped without a guard. */
  lemma {:induction false} UpAfterDownIff(d: Database)
    requires Valid4(d) && DownAll(d).Migrated?
    ensures UpAll(DownAll(d).db) == d.(rules := 0)
    ensures UpAll(DownAll(d).db) == d <==> d.rules == 0
  {
    DowngradesIff(d);
    var again := UpAll(DownAll(d).db);
    assert again.lines == d.lines;
    assert again.items == d.items;
  }

  // ---- The phase-2 downgrade as a script --------------------------------------------------------------

  class Schema {
    var db: Database

    constructor (d: Database)
      ensures db == d
    {
      db := d;
    }

    /** Counts before it touches anything; a refusal leaves the tables as they were. */
    method DowngradeReceiving() returns (refusal: Option<Refusal>)
      modifies this
      ensures match Down2(old(db))
              case Migrated(after) => refusal.None? && db == after
              case Refused(reason) => refusal == Some(reason) && db == old(db)
    {
      var faultyLines, faultyItems := 0, 0;
      for i := 0 to |db.lines|
        invariant db == old(db)
        invariant faultyLines > 0 <==> exists k :: 0 <= k < i && FaultyLine(db.lines[k])
        invariant faultyLines >= 0
      {
        if FaultyLine(db.lines[i]) { faultyLines := faultyLines + 1; }
      }
      if faultyLines > 0 { return Some(FAULTY_LINES); }
      for i := 0 to |db.items|
        invariant db == old(db)
        invariant faultyItems > 0 <==> exists k :: 0 <= k < i && FaultyItem(db.items[k])
        invariant faultyItems >= 0
      {
        if FaultyItem(db.items[i]) { faultyItems := faultyItems + 1; }
      }
      if faultyItems > 0 { return Some(FAULTY_ITEMS); }
      if db.custody > 0 { return Some(CUSTODY_ROWS); }
      db := db.(custody := 0);
      db := db.(items := MapItems(db.items, (x: Item) => x.(damaged := None, short := None)));
      db := db.(lines := MapLines(db.lines, (l: Line) => l.(damaged := None, short := None)));
      refusal := None;
    }
  }
}
