/** Effective-dated histories of one employee (status, assignment, pay rate): inclusive date ranges, the
    last one open-ended, and the segments they cut a payroll period into. */
module EffectiveDates {
  import opened Options

  datatype Period<T> = Period(from: int, to: Option<int>, value: T)

  datatype Segment<T> = Segment(start: int, end: int, value: T)

  datatype Outcome = Done | INVALID_EFFECTIVE_DATE

  predicate Covers<T>(p: Period<T>, d: int) {
    p.from <= d && (p.to.None? || d <= p.to.value)
  }

  /** What the EXCLUDE constraint refuses: two ranges with a date in common. */
  predicate Overlap<T>(p: Period<T>, q: Period<T>) {
    (p.to.None? || q.from <= p.to.value) && (q.to.None? || p.from <= q.to.value)
  }

  // ---- Histories -------------------------------------------------------------------------------

  predicate EndsWhereNextBegins<T>(h: seq<Period<T>>, i: nat)
    requires i + 1 < |h|
  {
    h[i].from < h[i + 1].from && h[i].to == Some(h[i + 1].from - 1)
  }

  /** Each range ends the day before the next begins; only the last is open-ended. */
  predicate Contiguous<T>(h: seq<Period<T>>) {
    && (h != [] ==> h[|h| - 1].to.None?)
    && (forall i: nat :: i + 1 < |h| ==> EndsWhereNextBegins(h, i))
  }

  /** Closes the current range the day before `from`, and opens a new one. */
  function Change<T>(h: seq<Period<T>>, from: int, value: T): (seq<Period<T>>, Outcome) {
    if h == [] then ([Period(from, None, value)], Done)
    else
      var current := h[|h| - 1];
      if from <= current.from then (h, INVALID_EFFECTIVE_DATE)
      else (h[|h| - 1 := current.(to := Some(from - 1))] + [Period(from, None, value)], Done)
  }

  function Changes<T>(h: seq<Period<T>>, ops: seq<(int, T)>): seq<Period<T>>
    decreases |ops|
  {
    if ops == [] then h else Changes(Change(h, ops[0].0, ops[0].1).0, ops[1..])
  }

  lemma {:induction false} ChangeContiguous<T>(h: seq<Period<T>>, from: int, value: T)
    requires Contiguous(h)
    ensures Contiguous(Change(h, from, value).0)
  {
    var after := Change(h, from, value).0;
    forall i: nat | i + 1 < |after| ensures EndsWhereNextBegins(after, i) {
      assert i + 1 < |h| ==> EndsWhereNextBegins(h, i);
    }
  }

  lemma {:induction false} ChangesContiguous<T>(h: seq<Period<T>>, ops: seq<(int, T)>)
    requires Contiguous(h)
    ensures Contiguous(Changes(h, ops))
    decreases |ops|
  {
    if ops != [] {
      ChangeContiguous(h, ops[0].0, ops[0].1);
      ChangesContiguous(Change(h, ops[0].0, ops[0].1).0, ops[1..]);
    }
  }

  lemma {:induction false} InOrder<T>(h: seq<Period<T>>, i: nat, j: nat)
    requires Contiguous(h) && i < j < |h|
    ensures h[i].to.Some? && h[i].from <= h[i].to.value < h[j].from
    decreases j - i
  {
    assert EndsWhereNextBegins(h, i);
    if i + 1 < j { InOrder(h, i + 1, j); }
  }

  /** No change ever meets the no-overlap constraint, so every date from the first range on has
      exactly one status, assignment or rate. */
  lemma {:induction false} ExactlyOne<T>(h: seq<Period<T>>, d: int) returns (i: nat)
    requires Contiguous(h) && h != [] && h[0].from <= d
    ensures i < |h| && Covers(h[i], d)
    ensures forall j :: 0 <= j < |h| && Covers(h[j], d) ==> j == i
    ensures forall j, k :: 0 <= j < k < |h| ==> !Overlap(h[j], h[k])
  {
    i := 0;
    while !Covers(h[i], d)
      invariant i < |h| && h[i].from <= d
      decreases |h| - i
    {
      assert i + 1 < |h| ==> EndsWhereNextBegins(h, i);
      i := i + 1;
    }
    forall j: nat, k: nat | j < k < |h| ensures !Overlap(h[j], h[k]) && (Covers(h[j], d) ==> !Covers(h[k], d)) {
      InOrder(h, j, k);
    }
  }

  /** A change leaves every earlier date as it was. */
  lemma {:induction false} ChangeKeepsHistory<T>(h: seq<Period<T>>, from: int, value: T, d: int, i: nat)
    requires Contiguous(h) && i < |h| && Covers(h[i], d) && d < from
    ensures var after := Change(h, from, value).0;
            Covers(after[i], d) && after[i].value == h[i].value && after[i].from == h[i].from
  {
    if i + 1 < |h| { assert EndsWhereNextBegins(h, i); }
  }

  // ---- Segments of a payroll period -------------------------------------------------------------

  function Least(a: int, b: int): int {
    if a < b then a else b
  }

  function Clip<T>(p: Period<T>, start: int, end: int): Segment<T> {
    Segment(if p.from > start then p.from else start, if p.to.Some? then Least(p.to.value, end) else end, p.value)
  }

  predicate Touches<T>(p: Period<T>, start: int, end: int) {
    p.from <= end && (p.to.None? || p.to.value >= start)
  }

  function Segments<T>(h: seq<Period<T>>, start: int, end: int): seq<Segment<T>> {
    if h == [] then []
    else (if Touches(h[0], start, end) then [Clip(h[0], start, end)] else []) + Segments(h[1..], start, end)
  }

  method ResolveSegments<T>(h: seq<Period<T>>, start: int, end: int) returns (segments: seq<Segment<T>>)
    ensures segments == Segments(h, start, end)
  {
    segments := [];
    for i := 0 to |h|
      invariant segments + Segments(h[i..], start, end) == Segments(h, start, end)
    {
      if Touches(h[i], start, end) {
        segments := segments + [Clip(h[i], start, end)];
      }
    }
  }

  predicate Within<T>(s: Segment<T>, d: int) {
    s.start <= d <= s.end
  }

  predicate CoveredBy<T>(segments: seq<Segment<T>>, d: int) {
    exists i :: 0 <= i < |segments| && Within(segments[i], d)
  }

  function Insert<T>(s: Segment<T>, sorted: seq<Segment<T>>): seq<Segment<T>> {
    if sorted == [] || s.start <= sorted[0].start then [s] + sorted else [sorted[0]] + Insert(s, sorted[1..])
  }

  function ByStart<T>(segments: seq<Segment<T>>): seq<Segment<T>> {
    if segments == [] then [] else Insert(segments[0], ByStart(segments[1..]))
  }

  predicate InStartOrder<T>(segments: seq<Segment<T>>) {
    forall i, j :: 0 <= i < j < |segments| ==> segments[i].start <= segments[j].start
  }

  lemma {:induction false} InsertedRows<T>(s: Segment<T>, sorted: seq<Segment<T>>)
    ensures multiset(Insert(s, sorted)) == multiset(sorted) + multiset{s}
  {
    if sorted != [] && s.start > sorted[0].start {
      InsertedRows(s, sorted[1..]);
      assert sorted == [sorted[0]] + sorted[1..];
    }
  }

  lemma {:induction false} InsertedOrder<T>(s: Segment<T>, sorted: seq<Segment<T>>, first: int)
    requires InStartOrder(sorted) && first <= s.start && forall i :: 0 <= i < |sorted| ==> first <= sorted[i].start
    ensures InStartOrder(Insert(s, sorted))
            && forall i :: 0 <= i < |Insert(s, sorted)| ==> first <= Insert(s, sorted)[i].start
  {
    if sorted != [] && s.start > sorted[0].start {
      var rest := sorted[1..];
      assert forall i :: 0 <= i < |rest| ==> rest[i] == sorted[i + 1];
      InsertedOrder(s, rest, sorted[0].start);
      var after := Insert(s, rest);
      assert Insert(s, sorted) == [sorted[0]] + after;
    }
  }

  lemma {:induction false} Ordered<T>(segments: seq<Segment<T>>)
    ensures InStartOrder(ByStart(segments)) && multiset(ByStart(segments)) == multiset(segments)
  {
    if segments != [] {
      Ordered(segments[1..]);
      var rest, s := ByStart(segments[1..]), segments[0];
      InsertedRows(s, rest);
      InsertedOrder(s, rest, if rest == [] then s.start else Least(s.start, rest[0].start));
      assert segments == [segments[0]] + segments[1..];
    }
  }

  /** What the engine looks for: a rate on every date of the period, and no hole before any segment. */
  ghost predicate NoHole<T>(segments: seq<Segment<T>>, start: int, end: int) {
    forall d :: start <= d && (d <= end || exists i :: 0 <= i < |segments| && d < segments[i].start) ==>
        CoveredBy(segments, d)
  }

  lemma {:induction false} SameSegmentsSameHoles<T>(a: seq<Segment<T>>, b: seq<Segment<T>>, start: int, end: int)
    requires multiset(a) == multiset(b)
    ensures |a| == |b|
    ensures NoHole(a, start, end) ==> NoHole(b, start, end)
  {
    assert |multiset(a)| == |a| && |multiset(b)| == |b|;
    if NoHole(a, start, end) {
      forall d | start <= d && (d <= end || exists i :: 0 <= i < |b| && d < b[i].start) ensures CoveredBy(b, d) {
        if d > end {
          var i :| 0 <= i < |b| && d < b[i].start;
          var k := AlsoIn(b, a, i);
        }
        assert CoveredBy(a, d);
        var i :| 0 <= i < |a| && Within(a[i], d);
        var k := AlsoIn(a, b, i);
      }
    }
  }

  lemma {:induction false} AlsoIn<T>(a: seq<T>, b: seq<T>, i: nat) returns (k: nat)
    requires multiset(a) == multiset(b) && i < |a|
    ensures k < |b| && b[k] == a[i]
  {
    assert a[i] in multiset(a);
    assert a[i] in b;
    k :| 0 <= k < |b| && b[k] == a[i];
  }

  /** The engine's own check: whatever segments it is given, in whatever order, it refuses the
      calculation exactly when there is none or a date it needs has no rate. */
  method CheckCoverage<T>(segments: seq<Segment<T>>, start: int, end: int) returns (ok: bool)
    ensures ok <==> segments != [] && NoHole(segments, start, end)
  {
    if segments == [] { return false; }
    var ordered := ByStart(segments);
    Ordered(segments);
    SameSegmentsSameHoles(segments, ordered, start, end);
    SameSegmentsSameHoles(ordered, segments, start, end);
    ok := WalkSegments(ordered, start, end);
  }

  method WalkSegments<T>(ordered: seq<Segment<T>>, start: int, end: int) returns (ok: bool)
    requires InStartOrder(ordered)
    ensures ok <==> NoHole(ordered, start, end)
  {
    var cursor := start;
    for i := 0 to |ordered|
      invariant cursor >= start
      invariant forall d :: start <= d < cursor ==> CoveredBy(ordered, d)
      invariant forall k :: 0 <= k < i ==> ordered[k].end < cursor && ordered[k].start <= cursor
    {
      if ordered[i].start > cursor {
        assert !CoveredBy(ordered, cursor);
        return false;
      }
      if ordered[i].end + 1 > cursor {
        forall d | cursor <= d <= ordered[i].end ensures CoveredBy(ordered, d) { assert Within(ordered[i], d); }
        cursor := ordered[i].end + 1;
      }
    }
    if cursor <= end {
      assert !CoveredBy(ordered, cursor);
      return false;
    }
    ok := true;
  }

  /** On the segments of a period, that is a rate on every one of its dates. */
  lemma {:induction false} CoverageOfPeriod<T>(segments: seq<Segment<T>>, start: int, end: int)
    requires start <= end && forall i :: 0 <= i < |segments| ==> segments[i].start <= end
    ensures segments != [] && NoHole(segments, start, end) <==> forall d :: start <= d <= end ==> CoveredBy(segments, d)
  {
    if segments == [] { assert !CoveredBy(segments, start); }
  }

  function Days<T>(segments: seq<Segment<T>>): int {
    if segments == [] then 0 else segments[0].end - segments[0].start + 1 + Days(segments[1..])
  }

  /** The segments of a contiguous history tile the period from the first range on: in order, without
      gaps, ending at the period's end. */
  predicate Tiles<T>(segments: seq<Segment<T>>, start: int, end: int) {
    && segments != [] && segments[0].start == start && segments[|segments| - 1].end == end
    && (forall i :: 0 <= i < |segments| ==> start <= segments[i].start <= segments[i].end <= end)
    && (forall i: nat :: i + 1 < |segments| ==> segments[i + 1].start == segments[i].end + 1)
  }

  lemma {:induction false} ContiguousRest<T>(h: seq<Period<T>>)
    requires Contiguous(h) && |h| > 1
    ensures Contiguous(h[1..])
  {
    var rest := h[1..];
    forall i: nat | i + 1 < |rest| ensures EndsWhereNextBegins(rest, i) { assert EndsWhereNextBegins(h, i + 1); }
  }

  lemma {:induction false} SegmentsTile<T>(h: seq<Period<T>>, start: int, end: int)
    requires Contiguous(h) && h != [] && start <= end
    ensures h[0].from > end ==> Segments(h, start, end) == []
    ensures h[0].from <= end ==>
              Tiles(Segments(h, start, end), if h[0].from > start then h[0].from else start, end)
    decreases |h|
  {
    var rest := h[1..];
    if rest == [] {
      assert Segments(h, start, end) == (if Touches(h[0], start, end) then [Clip(h[0], start, end)] else []);
    } else {
      assert EndsWhereNextBegins(h, 0);
      ContiguousRest(h);
      SegmentsTile(rest, start, end);
      var tail := Segments(rest, start, end);
      if Touches(h[0], start, end) {
        var first := Clip(h[0], start, end);
        assert Segments(h, start, end) == [first] + tail;
        if h[1].from <= end { TilePrepend(first, tail, end); }
      } else {
        assert Segments(h, start, end) == tail;
      }
    }
  }

  lemma {:induction false} TilePrepend<T>(first: Segment<T>, tail: seq<Segment<T>>, end: int)
    requires first.start <= first.end && Tiles(tail, first.end + 1, end)
    ensures Tiles([first] + tail, first.start, end)
  {
    var all := [first] + tail;
    forall i: nat | i + 1 < |all| ensures all[i + 1].start == all[i].end + 1 { PrependedAdjoins(first, tail, end, i); }
    forall i: nat | i < |all| ensures first.start <= all[i].start <= all[i].end <= end {
      assert i > 0 ==> all[i] == tail[i - 1];
    }
  }

  lemma {:induction false} PrependedAdjoins<T>(first: Segment<T>, tail: seq<Segment<T>>, end: int, i: nat)
    requires Tiles(tail, first.end + 1, end) && i < |tail|
    ensures ([first] + tail)[i + 1].start == ([first] + tail)[i].end + 1
  {
    if i > 0 {
      var k := i - 1;
      assert tail[k + 1].start == tail[k].end + 1;
    }
  }

  lemma {:induction false} TilesAfter<T>(segments: seq<Segment<T>>, start: int, end: int, i: nat, j: nat)
    requires Tiles(segments, start, end) && i < j < |segments|
    ensures segments[i].end < segments[j].start
    decreases j - i
  {
    assert segments[i + 1].start == segments[i].end + 1;
    if i + 1 < j { TilesAfter(segments, start, end, i + 1, j); }
  }

  lemma {:induction false} TilesRest<T>(segments: seq<Segment<T>>, start: int, end: int)
    requires Tiles(segments, start, end) && |segments| > 1
    ensures Tiles(segments[1..], segments[0].end + 1, end)
  {
    var rest := segments[1..];
    assert segments[0 + 1].start == segments[0].end + 1;
    forall i: nat | i + 1 < |rest| ensures rest[i + 1].start == rest[i].end + 1 {
      assert segments[i + 1 + 1].start == segments[i + 1].end + 1;
    }
    forall i | 0 <= i < |rest| ensures rest[0].start <= rest[i].start <= rest[i].end <= end {
      if i > 0 { TilesAfter(segments, start, end, 1, i + 1); }
    }
  }

  /** Tiles count every day exactly once. */
  lemma {:induction false} TileDays<T>(segments: seq<Segment<T>>, start: int, end: int)
    requires Tiles(segments, start, end)
    ensures Days(segments) == end - start + 1
    decreases |segments|
  {
    if |segments| > 1 {
      TilesRest(segments, start, end);
      TileDays(segments[1..], segments[0].end + 1, end);
    }
  }

  /** The calculation goes ahead if and only if the employee had a rate by the first day of the
      period; then its segments count each of the period's days exactly once. */
  lemma {:induction false} CoverageIff<T>(h: seq<Period<T>>, start: int, end: int)
    requires Contiguous(h) && start <= end
    ensures var segments := Segments(h, start, end);
            && (segments != [] && NoHole(segments, start, end) <==> h != [] && h[0].from <= start)
            && (h != [] && h[0].from <= start ==> Tiles(segments, start, end) && Days(segments) == end - start + 1)
  {
    var segments := Segments(h, start, end);
    if h == [] {
      assert !CoveredBy(segments, start);
    } else {
      SegmentsTile(h, start, end);
      CoverageOfPeriod(segments, start, end);
      if h[0].from <= start {
        TileDays(segments, start, end);
        forall d | start <= d <= end ensures CoveredBy(segments, d) { TileCovers(segments, start, end, d); }
      } else {
        assert forall i :: 0 <= i < |segments| ==> !Within(segments[i], start);
        assert !CoveredBy(segments, start);
      }
    }
  }

  lemma {:induction false} TileCovers<T>(segments: seq<Segment<T>>, start: int, end: int, d: int)
    requires Tiles(segments, start, end) && start <= d <= end
    ensures CoveredBy(segments, d)
  {
    var i := 0;
    while segments[i].end < d
      invariant i < |segments| && segments[i].start <= d
      decreases |segments| - i
    {
      assert i + 1 < |segments| ==> segments[i + 1].start == segments[i].end + 1;
      i := i + 1;
    }
    assert Within(segments[i], d);
  }

  // ---- Which value counts on a date ---------------------------------------------------------------

  /** A segment's dates lie in the period and in a range of its own value. */
  lemma {:induction false} SegmentIsOfRange<T>(h: seq<Period<T>>, start: int, end: int, i: nat, d: int) returns (k: nat)
    requires i < |Segments(h, start, end)| && Within(Segments(h, start, end)[i], d)
    ensures start <= d <= end && k < |h| && Covers(h[k], d)
    ensures Segments(h, start, end)[i].value == h[k].value
    decreases |h|
  {
    var first := if Touches(h[0], start, end) then [Clip(h[0], start, end)] else [];
    var rest := Segments(h[1..], start, end);
    assert Segments(h, start, end) == first + rest;
    if i < |first| { return 0; }
    assert rest[i - |first|] == Segments(h, start, end)[i];
    var j := SegmentIsOfRange(h[1..], start, end, i - |first|, d);
    k := j + 1;
  }

  /** Every date of the period that a range covers is in a segment of that range's value. */
  lemma {:induction false} RangeHasSegment<T>(h: seq<Period<T>>, start: int, end: int, k: nat, d: int) returns (i: nat)
    requires k < |h| && Covers(h[k], d) && start <= d <= end
    ensures i < |Segments(h, start, end)| && Within(Segments(h, start, end)[i], d)
    ensures Segments(h, start, end)[i].value == h[k].value
    decreases |h|
  {
    var first := if Touches(h[0], start, end) then [Clip(h[0], start, end)] else [];
    var rest := Segments(h[1..], start, end);
    assert Segments(h, start, end) == first + rest;
    if k == 0 { return 0; }
    var j := RangeHasSegment(h[1..], start, end, k - 1, d);
    i := |first| + j;
  }

  /** On every date of the period, and whatever other ranges there are, the segments carry the value of the
      range that covers it: there is one with the date, and every one with the date has that value. */
  lemma {:induction false} SegmentValues<T>(h: seq<Period<T>>, start: int, end: int, k: nat, d: int)
    requires Contiguous(h) && k < |h| && Covers(h[k], d) && start <= d <= end
    ensures var segments := Segments(h, start, end);
            && CoveredBy(segments, d)
            && forall i :: 0 <= i < |segments| && Within(segments[i], d) ==> segments[i].value == h[k].value
  {
    var found := RangeHasSegment(h, start, end, k, d);
    forall i: nat | i < |Segments(h, start, end)| && Within(Segments(h, start, end)[i], d)
      ensures Segments(h, start, end)[i].value == h[k].value
    {
      var j := SegmentIsOfRange(h, start, end, i, d);
      OneCovers(h, j, k, d);
    }
  }

  lemma {:induction false} OneCovers<T>(h: seq<Period<T>>, j: nat, k: nat, d: int)
    requires Contiguous(h) && j < |h| && k < |h| && Covers(h[j], d) && Covers(h[k], d)
    ensures j == k
  {
    if j < k { InOrder(h, j, k); }
    if k < j { InOrder(h, k, j); }
  }

  /** No date lies in two segments. */
  lemma {:induction false} OneSegmentPerDate<T>(h: seq<Period<T>>, start: int, end: int, d: int, i: nat, j: nat)
    requires Contiguous(h) && h != [] && h[0].from <= end && start <= end
    requires i < |Segments(h, start, end)| && j < |Segments(h, start, end)|
    requires Within(Segments(h, start, end)[i], d) && Within(Segments(h, start, end)[j], d)
    ensures i == j
  {
    SegmentsTile(h, start, end);
    var from := if h[0].from > start then h[0].from else start;
    if i < j { TilesAfter(Segments(h, start, end), from, end, i, j); }
    if j < i { TilesAfter(Segments(h, start, end), from, end, j, i); }
  }

  /** A change is accepted if and only if it begins after the current range does; then its value holds from
      its own date on, and nothing changes otherwise. */
  lemma {:induction false} ChangeDoneIff<T>(h: seq<Period<T>>, from: int, value: T)
    requires Contiguous(h)
    ensures var (after, o) := Change(h, from, value);
            && (o == Done <==> h == [] || h[|h| - 1].from < from)
            && (o != Done ==> after == h)
            && (o == Done ==>
                  && |after| == |h| + 1 && after[|h|] == Period(from, None, value)
                  && forall d, k :: from <= d && 0 <= k < |after| && Covers(after[k], d) ==> after[k].value == value)
  {
    var (after, o) := Change(h, from, value);
    ChangeContiguous(h, from, value);
    if o == Done {
      forall d, k: nat | from <= d && k < |after| && Covers(after[k], d) ensures after[k].value == value {
        OneCovers(after, k, |h|, d);
      }
    }
  }

  // ---- The service -------------------------------------------------------------------------------

  /** One employee's rows of one kind. */
  class History<T> {
    var periods: seq<Period<T>>

    constructor ()
      ensures periods == [] && Contiguous(periods)
    {
      periods := [];
    }

    /** Closes the open range, if there is one, and appends the new one. */
    method ChangeFrom(from: int, value: T) returns (o: Outcome)
      requires Contiguous(periods)
      modifies this
      ensures (periods, o) == Change(old(periods), from, value)
      ensures Contiguous(periods)
    {
      ChangeContiguous(periods, from, value);
      if periods != [] {
        var last := |periods| - 1;
        if from <= periods[last].from { return INVALID_EFFECTIVE_DATE; }
        periods := periods[last := periods[last].(to := Some(from - 1))];
      }
      assert old(periods) == [] ==> periods + [Period(from, None, value)] == [Period(from, None, value)];
      periods := periods + [Period(from, None, value)];
      o := Done;
    }
  }
}
