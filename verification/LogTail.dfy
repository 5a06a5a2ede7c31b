/** The exporter's incremental reading of the access log.

    The log only grows between polls, and each poll ends at a line end.  What one line says is a
    parameter: not a request, or a request with its status and whether it was slow. */
module LogTail {
  import opened Sums

  datatype Entry = Skip | Request(status: nat, slow: bool)

  /** Requests by status class, and the two special counts. */
  datatype Counters = Counters(byClass: map<nat, nat>, limited: nat, slow: nat)

  const ZERO: Counters := Counters(map[], 0, 0)

  const LINE_END: char := '\n'

  // ---- Lines ------------------------------------------------------------------------------------

  /** The text of the lines of a log, without their ends. */
  function Lines(log: string): (r: seq<string>)
  {
    LinesFrom(log, [])
  }

  function LinesFrom(log: string, begun: string): seq<string> {
    if log == [] then (if begun == [] then [] else [begun])
    else if log[0] == LINE_END then [begun] + LinesFrom(log[1..], [])
    else LinesFrom(log[1..], begun + [log[0]])
  }

  predicate AtLineEnd(log: string) {
    log == [] || log[|log| - 1] == LINE_END
  }

  lemma {:induction false} LinesFromConcat(a: string, b: string, begun: string)
    requires if a == [] then begun == [] else a[|a| - 1] == LINE_END
    ensures LinesFrom(a + b, begun) == LinesFrom(a, begun) + LinesFrom(b, [])
    decreases |a|
  {
    if a == [] {
      assert a + b == b;
    } else {
      assert (a + b)[1..] == a[1..] + b && (a + b)[0] == a[0];
      if a[0] == LINE_END {
        LinesFromConcat(a[1..], b, []);
      } else {
        LinesFromConcat(a[1..], b, begun + [a[0]]);
      }
    }
  }

  function Rejoined(lines: seq<string>): string {
    if lines == [] then [] else lines[0] + [LINE_END] + Rejoined(lines[1..])
  }

  lemma {:induction false} FinishedLine(log: string, begun: string)
    requires log != [] && log[0] == LINE_END
    ensures [] + log[1..] == log[1..] && begun + log == begun + [LINE_END] + log[1..]
    ensures AtLineEnd(begun + log) <==> AtLineEnd(log[1..])
    ensures var rest := LinesFrom(log[1..], []);
            Rejoined([begun] + rest) == begun + [LINE_END] + Rejoined(rest)
  {
    assert ([begun] + LinesFrom(log[1..], []))[1..] == LinesFrom(log[1..], []);
    assert log[1..] != [] ==> (begun + log)[|begun + log| - 1] == log[1..][|log[1..]| - 1];
  }

  /** No line holds a line end, and putting the ends back gives the log again, with one more when its last line
      was not finished. */
  lemma {:induction false} LinesRejoin(log: string, begun: string)
    requires LINE_END !in begun
    ensures var lines := LinesFrom(log, begun);
            && (forall i :: 0 <= i < |lines| ==> LINE_END !in lines[i])
            && Rejoined(lines) == begun + log + if AtLineEnd(begun + log) then [] else [LINE_END]
    decreases |log|
  {
    if log == [] {
      assert begun + log == begun;
      if begun != [] {
        assert [begun][1..] == [] && Rejoined([begun]) == begun + [LINE_END] + Rejoined([]);
      }
    } else if log[0] == LINE_END {
      LinesRejoin(log[1..], []);
      FinishedLine(log, begun);
    } else {
      LinesRejoin(log[1..], begun + [log[0]]);
      assert begun + [log[0]] + log[1..] == begun + log;
    }
  }

  // ---- Counting ----------------------------------------------------------------------------------

  function Get(m: map<nat, nat>, k: nat): nat {
    if k in m then m[k] else 0
  }

  function Count(c: Counters, e: Entry): Counters {
    match e
    case Skip => c
    case Request(status, slow) =>
      Counters(c.byClass[status / 100 := Get(c.byClass, status / 100) + 1],
               c.limited + (if status == 429 then 1 else 0), c.slow + (if slow then 1 else 0))
  }

  function CountAll(c: Counters, lines: seq<string>, parse: string -> Entry): Counters {
    if lines == [] then c else Count(CountAll(c, lines[..|lines| - 1], parse), parse(lines[|lines| - 1]))
  }

  lemma {:induction false} CountConcat(c: Counters, a: seq<string>, b: seq<string>, parse: string -> Entry)
    ensures CountAll(c, a + b, parse) == CountAll(CountAll(c, a, parse), b, parse)
    decreases |b|
  {
    if b == [] {
      assert a + b == a;
    } else {
      var n := |b| - 1;
      assert (a + b)[..|a + b| - 1] == a + b[..n];
      CountConcat(c, a, b[..n], parse);
    }
  }

  function Parsed(lines: seq<string>, parse: string -> Entry): (r: seq<Entry>)
    ensures |r| == |lines| && forall i :: 0 <= i < |r| ==> r[i] == parse(lines[i])
  {
    seq(|lines|, i requires 0 <= i < |lines| => parse(lines[i]))
  }

  const CLASS_OF: Entry -> nat := (e: Entry) => if e.Request? then e.status / 100 else 0

  const ONE: Entry -> int := (e: Entry) => if e.Request? then 1 else 0

  function Limited(e: Entry): int {
    if e.Request? && e.status == 429 then 1 else 0
  }

  function Slow(e: Entry): int {
    if e.Request? && e.slow then 1 else 0
  }

  /** Each counter is the number of requests it is about. */
  lemma {:induction false} CountersMean(lines: seq<string>, parse: string -> Entry)
    ensures var c, entries := CountAll(ZERO, lines, parse), Parsed(lines, parse);
            && (forall k: nat :: Get(c.byClass, k) == Sum(entries, Group(CLASS_OF, k, ONE)))
            && c.limited == Sum(entries, Limited) && c.slow == Sum(entries, Slow)
  {
    if lines != [] {
      var n := |lines| - 1;
      CountersMean(lines[..n], parse);
      var before, e := Parsed(lines[..n], parse), parse(lines[n]);
      assert Parsed(lines, parse) == before + [e];
      SumAppend(before, e, Limited);
      SumAppend(before, e, Slow);
      forall k: nat
        ensures Sum(before + [e], Group(CLASS_OF, k, ONE))
                == Sum(before, Group(CLASS_OF, k, ONE)) + Group(CLASS_OF, k, ONE)(e) {
        SumAppend(before, e, Group(CLASS_OF, k, ONE));
      }
    }
  }

  /** The classes together count every request once, and the 429s are among the 4xx. */
  lemma {:induction false} ClassesPartitionRequests(lines: seq<string>, parse: string -> Entry, counts: seq<int>)
    requires var c := CountAll(ZERO, lines, parse); forall k: nat :: k < |counts| ==> counts[k] == Get(c.byClass, k)
    requires forall i :: 0 <= i < |lines| ==> CLASS_OF(parse(lines[i])) < |counts|
    ensures Sum(counts, Identity) == Sum(Parsed(lines, parse), ONE)
    ensures CountAll(ZERO, lines, parse).limited <= Get(CountAll(ZERO, lines, parse).byClass, 4)
  {
    CountersMean(lines, parse);
    GroupTotals(Parsed(lines, parse), CLASS_OF, ONE, counts);
    var entries := Parsed(lines, parse);
    SumMono(entries, entries, Limited, Group(CLASS_OF, 4, ONE));
  }

  // ---- Polls ---------------------------------------------------------------------------------------

  /** Reads what was appended since the last poll. */
  function Poll(offset: nat, c: Counters, log: string, parse: string -> Entry): (nat, Counters) {
    if offset >= |log| then (offset, c) else (|log|, CountAll(c, Lines(log[offset..]), parse))
  }

  function Polls(offset: nat, c: Counters, logs: seq<string>, parse: string -> Entry): (nat, Counters)
    decreases |logs|
  {
    if logs == [] then (offset, c)
    else
      var next := Poll(offset, c, logs[0], parse);
      Polls(next.0, next.1, logs[1..], parse)
  }

  /** The log as successive polls find it: it only grows, and was cut at a line end. */
  predicate Growing(from: string, logs: seq<string>)
    decreases |logs|
  {
    logs == [] || (from <= logs[0] && AtLineEnd(logs[0]) && Growing(logs[0], logs[1..]))
  }

  function Latest(from: string, logs: seq<string>): string {
    if logs == [] then from else logs[|logs| - 1]
  }

  /** However often the log is polled, the offset is the number of characters consumed and the counters
      are those of one pass over the whole log. */
  lemma {:induction false} PollsArePass(from: string, logs: seq<string>, parse: string -> Entry)
    requires AtLineEnd(from) && Growing(from, logs)
    ensures Polls(|from|, CountAll(ZERO, Lines(from), parse), logs, parse)
            == (|Latest(from, logs)|, CountAll(ZERO, Lines(Latest(from, logs)), parse))
    decreases |logs|
  {
    if logs != [] {
      var log := logs[0];
      assert log == from + log[|from|..];
      LinesFromConcat(from, log[|from|..], []);
      CountConcat(ZERO, Lines(from), Lines(log[|from|..]), parse);
      if |from| == |log| { assert log == from && log[|from|..] == []; }
      PollsArePass(log, logs[1..], parse);
      if |logs| > 1 { assert logs[1..][|logs| - 2] == logs[|logs| - 1]; }
    }
  }

  class Exporter {
    var offset: nat
    var byClass: map<nat, nat>
    var limited: nat
    var slow: nat

    function State(): Counters
      reads this
    {
      Counters(byClass, limited, slow)
    }

    constructor ()
      ensures offset == 0 && State() == ZERO
    {
      offset, byClass, limited, slow := 0, map[], 0, 0;
    }

    method TailLog(log: string, parse: string -> Entry)
      modifies this
      ensures (offset, State()) == Poll(old(offset), old(State()), log, parse)
    {
      ghost var before := State();
      if offset >= |log| { return; }
      var lines := Lines(log[offset..]);
      offset := |log|;
      for i := 0 to |lines|
        invariant offset == |log|
        invariant State() == CountAll(before, lines[..i], parse)
      {
        assert lines[..i + 1][..i] == lines[..i];
        match parse(lines[i]) {
          case Skip =>
          case Request(status, isSlow) =>
            byClass := byClass[status / 100 := Get(byClass, status / 100) + 1];
            if status == 429 { limited := limited + 1; }
            if isSlow { slow := slow + 1; }
        }
      }
      assert lines[..|lines|] == lines;
    }
  }
}
