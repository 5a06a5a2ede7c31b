/** The in-process fixed-window rate limiter.

    Threads read the clock before they take the lock, so a run is a list of operations in lock order,
    each call with its own clock reading; nothing orders the readings unless a lemma says so. */
module RateLimiter {
  import opened Options

  type Key = string

  datatype Window = Window(startedAt: real, count: int)

  datatype Config = Config(limit: int, windowSeconds: real)

  datatype Op = Check(key: Key, now: real) | Reset(key: Key) | Clear

  type Windows = map<Key, Window>

  function Budget(c: Config): int {
    if c.limit > 1 then c.limit else 1
  }

  predicate Fresh(c: Config, w: Windows, key: Key, now: real) {
    key !in w || now - w[key].startedAt >= c.windowSeconds
  }

  /** The windows after one operation, and whether a call was let through. */
  function Step(c: Config, w: Windows, op: Op): (Windows, bool) {
    match op
    case Check(key, now) =>
      if Fresh(c, w, key, now) then (w[key := Window(now, 1)], true)
      else if w[key].count >= c.limit then (w, false)
      else (w[key := Window(w[key].startedAt, w[key].count + 1)], true)
    case Reset(key) => (w - {key}, true)
    case Clear => (map[], true)
  }

  function Run(c: Config, ops: seq<Op>): Windows {
    if ops == [] then map[] else Step(c, Run(c, ops[..|ops| - 1]), ops[|ops| - 1]).0
  }

  /** Whether the `i`th operation went through. */
  predicate Passed(c: Config, ops: seq<Op>, i: nat)
    requires i < |ops|
  {
    Step(c, Run(c, ops[..i]), ops[i]).1
  }

  // ---- One key's own history -------------------------------------------------------------------

  predicate Concerns(op: Op, key: Key) {
    op.Clear? || op.key == key
  }

  function Own(ops: seq<Op>, key: Key): seq<Op> {
    if ops == [] then []
    else Own(ops[..|ops| - 1], key) + if Concerns(ops[|ops| - 1], key) then [ops[|ops| - 1]] else []
  }

  function At(w: Windows, key: Key): Option<Window> {
    if key in w then Some(w[key]) else None
  }

  lemma {:induction false} StepOnOwn(c: Config, w: Windows, own: Windows, op: Op, key: Key)
    requires At(w, key) == At(own, key)
    ensures Concerns(op, key) ==> At(Step(c, w, op).0, key) == At(Step(c, own, op).0, key)
    ensures !Concerns(op, key) ==> At(Step(c, w, op).0, key) == At(w, key)
  {
  }

  lemma {:induction false} OwnWindow(c: Config, ops: seq<Op>, key: Key)
    ensures At(Run(c, ops), key) == At(Run(c, Own(ops, key)), key)
  {
    if ops != [] {
      var before, op := ops[..|ops| - 1], ops[|ops| - 1];
      var own := Own(before, key);
      OwnWindow(c, before, key);
      StepOnOwn(c, Run(c, before), Run(c, own), op, key);
      if Concerns(op, key) {
        assert Own(ops, key) == own + [op] && (own + [op])[..|own|] == own;
        assert Run(c, own + [op]) == Step(c, Run(c, own), op).0;
      } else {
        assert Own(ops, key) == own;
      }
    }
  }

  /** In every interleaving, what a key has left, and whether its next call passes, depends on that
      key's own calls and resets alone. */
  lemma {:induction false} KeysIndependent(c: Config, ops: seq<Op>, key: Key, now: real)
    ensures At(Run(c, ops), key) == At(Run(c, Own(ops, key)), key)
    ensures Step(c, Run(c, ops), Check(key, now)).1 == Step(c, Run(c, Own(ops, key)), Check(key, now)).1
  {
    OwnWindow(c, ops, key);
  }

  /** The operation that opened the key's current window. */
  function LastOpening(c: Config, ops: seq<Op>, key: Key): (o: Option<nat>)
    ensures o.Some? ==> o.value < |ops| && ops[o.value].Check? && ops[o.value].key == key
  {
    if ops == [] then None
    else
      var n := |ops| - 1;
      var before := LastOpening(c, ops[..n], key);
      match ops[n]
      case Clear => None
      case Reset(k) => if k == key then None else before
      case Check(k, now) =>
        if k == key && (before.None? || now - ops[before.value].now >= c.windowSeconds) then Some(n) else before
  }

  /** Calls of the key let through among the operations from `from` on. */
  function PassedSince(c: Config, ops: seq<Op>, key: Key, from: nat): nat {
    if |ops| <= from then 0
    else
      var n := |ops| - 1;
      PassedSince(c, ops[..n], key, from)
      + if ops[n].Check? && ops[n].key == key && Passed(c, ops, n) then 1 else 0
  }

  /** The stored window is a summary of the full history: it began at the last opening, its count is
      exactly the calls let through since, and that never exceeds the limit (or one). */
  lemma {:induction false} WindowSummarisesHistory(c: Config, ops: seq<Op>, key: Key)
    ensures var o := LastOpening(c, ops, key);
            && (key in Run(c, ops) <==> o.Some?)
            && (o.Some? ==> Run(c, ops)[key] == Window(ops[o.value].now, PassedSince(c, ops, key, o.value)))
            && (o.Some? ==> 1 <= PassedSince(c, ops, key, o.value) <= Budget(c))
  {
    if ops != [] {
      var n := |ops| - 1;
      WindowSummarisesHistory(c, ops[..n], key);
      if ops[n].Check? && ops[n].key == key {
        assert PassedSince(c, ops[..n], key, n) == 0;
      }
    }
  }

  /** A call is refused exactly when the current window is open at its reading and already full. */
  lemma {:induction false} RefusedIff(c: Config, ops: seq<Op>, key: Key, now: real)
    ensures var o := LastOpening(c, ops, key);
            !Step(c, Run(c, ops), Check(key, now)).1
            <==> o.Some? && now - ops[o.value].now < c.windowSeconds && PassedSince(c, ops, key, o.value) >= c.limit
  {
    WindowSummarisesHistory(c, ops, key);
  }

  // ---- The sliding bound -------------------------------------------------------------------------

  predicate InInterval(c: Config, from: real, now: real) {
    from <= now < from + c.windowSeconds
  }

  /** Calls of the key let through whose reading lies in [from, from + windowSeconds). */
  function PassedWithin(c: Config, ops: seq<Op>, key: Key, from: real): nat {
    if ops == [] then 0
    else
      var n := |ops| - 1;
      PassedWithin(c, ops[..n], key, from)
      + if ops[n].Check? && ops[n].key == key && InInterval(c, from, ops[n].now) && Passed(c, ops, n) then 1 else 0
  }

  predicate NeverReset(ops: seq<Op>, key: Key) {
    forall i :: 0 <= i < |ops| ==> !ops[i].Clear? && (ops[i].Reset? ==> ops[i].key != key)
  }

  predicate ClockOrdered(ops: seq<Op>, key: Key) {
    forall i, j :: 0 <= i < j < |ops| && ops[i].Check? && ops[j].Check? && ops[i].key == key && ops[j].key == key
                   ==> ops[i].now <= ops[j].now
  }

  /** No call is counted in a window that began after the call read the clock. */
  ghost predicate NoneCountedLate(c: Config, ops: seq<Op>, key: Key) {
    forall i :: 0 <= i < |ops| && ops[i].Check? && ops[i].key == key && Passed(c, ops, i) && key in Run(c, ops[..i])
                ==> ops[i].now >= Run(c, ops[..i])[key].startedAt
  }

  /** How many calls can lie in the interval, by where the current window began. */
  ghost predicate SlidingInvariant(c: Config, w: Option<Window>, from: real, passed: nat) {
    match w
    case None => passed == 0
    case Some(window) =>
      && 1 <= window.count <= Budget(c)
      && (window.startedAt + c.windowSeconds <= from ==> passed == 0)
      && (window.startedAt < from ==> passed <= window.count - 1)
      && (from <= window.startedAt < from + c.windowSeconds ==> passed <= Budget(c) - 1 + window.count)
      && passed <= 2 * Budget(c) - 1
  }

  /** One call of the key, counted no earlier than its window began. */
  lemma {:induction false} SlidingStep(c: Config, w: Windows, key: Key, now: real, from: real, passed: nat)
    requires c.windowSeconds > 0.0 && SlidingInvariant(c, At(w, key), from, passed)
    requires Step(c, w, Check(key, now)).1 && key in w ==> now >= w[key].startedAt
    ensures var (after, ok) := Step(c, w, Check(key, now));
            SlidingInvariant(c, At(after, key), from, passed + if InInterval(c, from, now) && ok then 1 else 0)
  {
  }

  lemma {:induction false} SlidingKept(c: Config, ops: seq<Op>, key: Key, from: real)
    requires c.windowSeconds > 0.0 && NeverReset(ops, key) && NoneCountedLate(c, ops, key)
    ensures SlidingInvariant(c, At(Run(c, ops), key), from, PassedWithin(c, ops, key, from))
  {
    if ops != [] {
      var n := |ops| - 1;
      forall i | 0 <= i < n ensures ops[..n][i] == ops[i] && ops[..n][..i] == ops[..i] { }
      assert NoneCountedLate(c, ops[..n], key);
      SlidingKept(c, ops[..n], key, from);
      if ops[n].Check? && ops[n].key == key {
        SlidingStep(c, Run(c, ops[..n]), key, ops[n].now, from, PassedWithin(c, ops[..n], key, from));
      }
    }
  }

  /** While no call is counted in a window that began after its reading, and nothing is reset, any
      interval as long as the window sees at most twice the limit less one calls of a key. */
  lemma {:induction false} SlidingBound(c: Config, ops: seq<Op>, key: Key, from: real)
    requires c.windowSeconds > 0.0 && NeverReset(ops, key) && NoneCountedLate(c, ops, key)
    ensures PassedWithin(c, ops, key, from) <= 2 * Budget(c) - 1
  {
    SlidingKept(c, ops, key, from);
  }

  /** Readings in lock order are enough for that. */
  lemma {:induction false} OrderedCountsNoneLate(c: Config, ops: seq<Op>, key: Key)
    requires ClockOrdered(ops, key)
    ensures NoneCountedLate(c, ops, key)
  {
    forall i | 0 <= i < |ops| && ops[i].Check? && ops[i].key == key && Passed(c, ops, i) && key in Run(c, ops[..i])
      ensures ops[i].now >= Run(c, ops[..i])[key].startedAt
    {
      WindowSummarisesHistory(c, ops[..i], key);
      assert ops[..i][LastOpening(c, ops[..i], key).value] == ops[LastOpening(c, ops[..i], key).value];
    }
  }

  lemma {:induction false} OrderedSlidingBound(c: Config, ops: seq<Op>, key: Key, from: real)
    requires c.windowSeconds > 0.0 && NeverReset(ops, key) && ClockOrdered(ops, key)
    ensures PassedWithin(c, ops, key, from) <= 2 * Budget(c) - 1
  {
    OrderedCountsNoneLate(c, ops, key);
    SlidingBound(c, ops, key, from);
  }

  function Calls(key: Key, now: real, n: nat): (ops: seq<Op>)
    ensures |ops| == n && forall i :: 0 <= i < n ==> ops[i] == Check(key, now)
  {
    seq(n, i => Check(key, now))
  }

  /** Where a key stands: its window, and its calls let through in the interval from `from` on. */
  ghost predicate Stands(c: Config, ops: seq<Op>, key: Key, from: real, w: Window, passed: nat) {
    key in Run(c, ops) && Run(c, ops)[key] == w && PassedWithin(c, ops, key, from) == passed
  }

  lemma {:induction false} CallReopens(c: Config, ops: seq<Op>, key: Key, now: real, from: real)
    requires Fresh(c, Run(c, ops), key, now)
    ensures Stands(c, ops + [Check(key, now)], key, from, Window(now, 1),
                   PassedWithin(c, ops, key, from) + if InInterval(c, from, now) then 1 else 0)
  {
    var after := ops + [Check(key, now)];
    assert after[..|after| - 1] == ops && after[|after| - 1] == Check(key, now);
  }

  lemma {:induction false} CallFits(c: Config, ops: seq<Op>, key: Key, now: real, from: real, w: Window, passed: nat)
    requires Stands(c, ops, key, from, w, passed)
    requires now - w.startedAt < c.windowSeconds && w.count < c.limit && InInterval(c, from, now)
    ensures Stands(c, ops + [Check(key, now)], key, from, Window(w.startedAt, w.count + 1), passed + 1)
  {
    var after := ops + [Check(key, now)];
    assert after[..|after| - 1] == ops && after[|after| - 1] == Check(key, now);
  }

  /** `n` more calls at one reading inside a window that has room for them. */
  lemma {:induction false} CallsFill(c: Config, ops: seq<Op>, key: Key, now: real, n: nat, from: real, w: Window,
      passed: nat)
    requires Stands(c, ops, key, from, w, passed)
    requires now - w.startedAt < c.windowSeconds && w.count + n <= c.limit && InInterval(c, from, now)
    ensures Stands(c, ops + Calls(key, now, n), key, from, Window(w.startedAt, w.count + n), passed + n)
  {
    if n == 0 {
      assert ops + Calls(key, now, 0) == ops;
    } else {
      CallsFill(c, ops, key, now, n - 1, from, w, passed);
      assert ops + Calls(key, now, n) == (ops + Calls(key, now, n - 1)) + [Check(key, now)];
      CallFits(c, ops + Calls(key, now, n - 1), key, now, from, Window(w.startedAt, w.count + n - 1), passed + n - 1);
    }
  }

  /** One call, the rest of the budget half a window later, a full budget at the end of the window. */
  function Burst(c: Config, key: Key): seq<Op>
    requires c.limit >= 1
  {
    [Check(key, 0.0)] + Calls(key, c.windowSeconds / 2.0, c.limit - 1)
    + ([Check(key, c.windowSeconds)] + Calls(key, c.windowSeconds, c.limit - 1))
  }

  lemma {:induction false} BurstOrdered(c: Config, key: Key)
    requires c.limit >= 1 && c.windowSeconds > 0.0
    ensures NeverReset(Burst(c, key), key) && ClockOrdered(Burst(c, key), key)
  {
    var ops := Burst(c, key);
    forall i | 0 <= i < |ops|
      ensures ops[i]
              == Check(key, if i == 0 then 0.0 else if i < c.limit then c.windowSeconds / 2.0 else c.windowSeconds)
    {
    }
  }

  /** The bound is attained, whatever the limit and the window. */
  lemma {:induction false} SlidingBoundAttained(c: Config, key: Key)
    requires c.limit >= 1 && c.windowSeconds > 0.0
    ensures NeverReset(Burst(c, key), key) && ClockOrdered(Burst(c, key), key)
    ensures PassedWithin(c, Burst(c, key), key, c.windowSeconds / 2.0) == 2 * c.limit - 1
  {
    BurstOrdered(c, key);
    BurstPasses(c, key);
  }

  lemma {:induction false} BurstPasses(c: Config, key: Key)
    requires c.limit >= 1 && c.windowSeconds > 0.0
    ensures PassedWithin(c, Burst(c, key), key, c.windowSeconds / 2.0) == 2 * c.limit - 1
  {
    var w, half, more := c.windowSeconds, c.windowSeconds / 2.0, c.limit - 1;
    var first := [Check(key, 0.0)];
    assert [] + first == first;
    CallReopens(c, [], key, 0.0, half);
    CallsFill(c, first, key, half, more, half, Window(0.0, 1), 0);
    var early := first + Calls(key, half, more);
    CallReopens(c, early, key, w, half);
    CallsFill(c, early + [Check(key, w)], key, w, more, half, Window(w, 1), more + 1);
    assert Burst(c, key) == early + [Check(key, w)] + Calls(key, w, more);
  }

  /** Lock order alone is not enough: a thread whose reading is late can still be counted in a newer
      window, here a fourth call within ten seconds under a limit of two. */
  lemma {:induction false} UnorderedClockExceedsBound()
    ensures var c := Config(2, 10.0);
            var ops :=
                [Check("a", 0.0), Check("a", 9.0), Check("a", 10.0), Check("a", 10.0), Check("a", 20.0),
                  Check("a", 10.0)];
            NeverReset(ops, "a") && PassedWithin(c, ops, "a", 9.0) == 4 > 2 * Budget(c) - 1
  {
    var c := Config(2, 10.0);
    var ops :=
        [Check("a", 0.0), Check("a", 9.0), Check("a", 10.0), Check("a", 10.0), Check("a", 20.0), Check("a", 10.0)];
    assert ops[..6][..5] == ops[..5] && ops[..5][..4] == ops[..4] && ops[..4][..3] == ops[..3];
    assert ops[..3][..2] == ops[..2] && ops[..2][..1] == ops[..1] && ops[..1][..0] == [] && ops[..6] == ops;
    assert At(Run(c, ops[..1]), "a") == Some(Window(0.0, 1));
    assert At(Run(c, ops[..2]), "a") == Some(Window(0.0, 2));
    assert At(Run(c, ops[..3]), "a") == Some(Window(10.0, 1));
    assert At(Run(c, ops[..4]), "a") == Some(Window(10.0, 2));
    assert At(Run(c, ops[..5]), "a") == Some(Window(20.0, 1));
    assert PassedWithin(c, ops[..1], "a", 9.0) == 0;
    assert PassedWithin(c, ops[..2], "a", 9.0) == 1;
    assert PassedWithin(c, ops[..3], "a", 9.0) == 2;
    assert PassedWithin(c, ops[..4], "a", 9.0) == 3;
    assert PassedWithin(c, ops[..5], "a", 9.0) == 3;
  }

  // ---- The limiter itself ------------------------------------------------------------------------

  class FixedWindowRateLimiter {
    const config: Config
    var windows: Windows
    ghost var history: seq<Op>

    /** The stored windows are what the whole history leads to. */
    ghost predicate Valid()
      reads this
    {
      windows == Run(config, history)
    }

    constructor (limit: int, windowSeconds: real)
      ensures Valid() && history == [] && config == Config(limit, windowSeconds)
    {
      config := Config(limit, windowSeconds);
      windows := map[];
      history := [];
    }

    /** Refused exactly when the key's window is open at this reading and the calls let through
        since it opened have used up the limit. */
    method CheckCall(key: Key, now: real) returns (ok: bool)
      requires Valid()
      modifies this
      ensures Valid() && history == old(history) + [Check(key, now)]
      ensures var o := LastOpening(config, old(history), key);
              !ok <==> o.Some? && now - old(history)[o.value].now < config.windowSeconds
                       && PassedSince(config, old(history), key, o.value) >= config.limit
      ensures forall k :: k != key ==> At(windows, k) == At(old(windows), k)
      ensures !ok ==> windows == old(windows)
    {
      RefusedIff(config, history, key, now);
      history := history + [Check(key, now)];
      assert history[..|history| - 1] == old(history);
      if key !in windows || now - windows[key].startedAt >= config.windowSeconds {
        windows := windows[key := Window(now, 1)];
        return true;
      }
      if windows[key].count >= config.limit { return false; }
      windows := windows[key := Window(windows[key].startedAt, windows[key].count + 1)];
      ok := true;
    }

    method ResetKey(key: Key)
      requires Valid()
      modifies this
      ensures Valid() && history == old(history) + [Reset(key)]
      ensures windows == old(windows) - {key}
    {
      history := history + [Reset(key)];
      assert history[..|history| - 1] == old(history);
      windows := windows - {key};
    }

    method ClearAll()
      requires Valid()
      modifies this
      ensures Valid() && history == old(history) + [Clear] && windows == map[]
    {
      history := history + [Clear];
      assert history[..|history| - 1] == old(history);
      windows := map[];
    }
  }
}
