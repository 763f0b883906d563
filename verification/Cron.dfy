/**
 Cron ticks: which minutes a field set matches, the minute key that removes repeats, and the ticks' passes.

 A date is what the host's calendar gives for one reading of the clock; the pass's own timestamp is a separate clock.
 */
module Cron {
  import opened Wrappers

  datatype Date = Date(year: int, month: nat, day: nat, hour: nat, minute: nat, weekday: nat)

  predicate OnCalendar(d: Date) {
    d.month <= 11 && 1 <= d.day <= 31 && d.hour <= 23 && d.minute <= 59 && d.weekday <= 6
  }

  function MinuteKey(d: Date): int {
    d.year * 100000000 + d.month * 1000000 + d.day * 10000 + d.hour * 100 + d.minute
  }

  predicate SameMinute(a: Date, b: Date) {
    a.year == b.year && a.month == b.month && a.day == b.day && a.hour == b.hour && a.minute == b.minute
  }

  /** The calendar's own order of minutes. */
  predicate Earlier(a: Date, b: Date) {
    || a.year < b.year
    || (a.year == b.year &&
        (|| a.month < b.month
         || (a.month == b.month &&
             (|| a.day < b.day
              || (a.day == b.day &&
                  (a.hour < b.hour || (a.hour == b.hour && a.minute < b.minute)))))))
  }

  lemma EarlierHasTheLesserKey(a: Date, b: Date)
    requires OnCalendar(a) && OnCalendar(b) && Earlier(a, b)
    ensures MinuteKey(a) < MinuteKey(b)
  {
  }

  /** The key orders minutes as the calendar does, so it is one number per minute; none of them is -1. */
  lemma KeysFollowTheCalendar(a: Date, b: Date)
    requires OnCalendar(a) && OnCalendar(b)
    ensures MinuteKey(a) < MinuteKey(b) <==> Earlier(a, b)
    ensures MinuteKey(a) == MinuteKey(b) <==> SameMinute(a, b)
    ensures MinuteKey(a) != -1
  {
    if Earlier(a, b) {
      EarlierHasTheLesserKey(a, b);
    } else if Earlier(b, a) {
      EarlierHasTheLesserKey(b, a);
    }
    assert a.month * 1000000 + a.day * 10000 + a.hour * 100 + a.minute < 99999999;
  }

  // ---------------------------------------------------------------------------------------------
  // Fields

  /** A comma-separated part; a number that does not parse is none. */
  datatype Part =
    | Every
    | Stepped(start: Option<Option<int>>, step: Option<int>)
    | Range(lo: Option<int>, hi: Option<int>)
    | One(value: Option<int>)

  function StartOf(p: Part, min: int): Option<int>
    requires p.Stepped?
  {
    if p.start.None? then Some(min) else p.start.value
  }

  /** Where `n` steps from `start` lead. */
  function At(start: int, step: int, n: nat): int {
    start + n * step
  }

  /** The values a part stands for; a step that does not parse is never taken. */
  ghost predicate Denotes(p: Part, min: int, max: int, v: int) {
    match p
    case Every => min <= v <= max
    case Range(lo, hi) => lo.Some? && hi.Some? && lo.value <= v <= hi.value
    case One(value) => value == Some(v)
    case Stepped(_, step) =>
      var start := StartOf(p, min);
      start.Some? && start.value <= max && v <= max
      && if step.Some? then exists n: nat :: At(start.value, step.value, n) == v else v == start.value
  }

  /** A stepped part is walked to its end unless its step is zero or less and its start is in range. */
  predicate Ends(p: Part, min: int, max: int) {
    p.Stepped? && StartOf(p, min).Some? && p.step.Some? ==> p.step.value > 0 || StartOf(p, min).value > max
  }

  /** The walk ends exactly when some number of steps carries it past `max`. */
  lemma StepsMustClimb(p: Part, min: int, max: int)
    requires p.Stepped? && StartOf(p, min).Some? && p.step.Some?
    ensures Ends(p, min, max) <==> exists n: nat :: At(StartOf(p, min).value, p.step.value, n) > max
  {
    var start, step := StartOf(p, min).value, p.step.value;
    if start > max {
      assert At(start, step, 0) > max;
    } else if step > 0 {
      var n := max - start + 1;
      assert n * step >= n;
      assert At(start, step, n) > max;
    } else {
      forall n: nat ensures At(start, step, n) <= max {
        assert n * step <= 0;
      }
    }
  }

  /** A step of zero from a start in range never gets past the maximum. */
  lemma AZeroStepIsEndless(min: int, max: int)
    requires min <= max
    ensures var p := Stepped(Some(Some(min)), Some(0));
            && !Ends(p, min, max) && !Ends(p.(start := None), min, max)
            && forall n: nat :: At(StartOf(p, min).value, p.step.value, n) <= max
  {
    StepsMustClimb(Stepped(Some(Some(min)), Some(0)), min, max);
  }

  lemma LaterIsHigher(start: int, step: int, m: nat, n: nat)
    requires step > 0
    ensures At(start, step, m) < At(start, step, n) ==> m < n
  {
    if n <= m {
      assert (m - n) * step >= 0;
    }
  }

  method WalkSteps(start: int, step: int, max: int) returns (values: set<int>)
    requires step > 0
    ensures forall v :: v in values <==> v <= max && exists n: nat :: At(start, step, n) == v
  {
    values := {};
    var i := start;
    ghost var n: nat := 0;
    while i <= max
      invariant i == At(start, step, n)
      invariant forall v :: v in values ==> v <= max && exists m: nat :: At(start, step, m) == v
      invariant forall m: nat :: m < n ==> At(start, step, m) in values
      decreases max - i
    {
      values := values + {i};
      n := n + 1;
      i := i + step;
    }
    forall m: nat | At(start, step, m) <= max ensures At(start, step, m) in values {
      LaterIsHigher(start, step, m, n);
    }
  }

  method WalkRange(lo: int, hi: int) returns (values: set<int>)
    ensures forall v :: v in values <==> lo <= v <= hi
  {
    values := {};
    var i := lo;
    while i <= hi
      invariant lo <= i
      invariant forall v :: v in values <==> lo <= v < i && v <= hi
      decreases hi - i
    {
      values := values + {i};
      i := i + 1;
    }
  }

  method PartValues(p: Part, min: int, max: int) returns (values: set<int>)
    requires Ends(p, min, max)
    ensures forall v :: v in values <==> Denotes(p, min, max, v)
  {
    values := {};
    match p
    case Every => values := WalkRange(min, max);
    case Range(lo, hi) => if lo.Some? && hi.Some? { values := WalkRange(lo.value, hi.value); }
    case One(value) => if value.Some? { values := {value.value}; }
    case Stepped(_, step) =>
      var start := StartOf(p, min);
      if start.Some? && start.value <= max {
        if step.Some? {
          values := WalkSteps(start.value, step.value, max);
        } else {
          values := {start.value};
        }
      }
  }

  method ParseField(parts: seq<Part>, min: int, max: int) returns (values: set<int>)
    requires forall i :: 0 <= i < |parts| ==> Ends(parts[i], min, max)
    ensures forall v :: v in values <==> exists i :: 0 <= i < |parts| && Denotes(parts[i], min, max, v)
  {
    values := {};
    for k := 0 to |parts|
      invariant forall v :: v in values <==> exists i :: 0 <= i < k && Denotes(parts[i], min, max, v)
    {
      var more := PartValues(parts[k], min, max);
      values := values + more;
    }
  }

  datatype Fields = Fields(minute: set<int>, hour: set<int>, day: set<int>, month: set<int>, weekday: set<int>)

  predicate Matches(f: Fields, d: Date) {
    d.minute in f.minute && d.hour in f.hour && d.day in f.day && d.month + 1 in f.month && d.weekday in f.weekday
  }

  // ---------------------------------------------------------------------------------------------
  // A cron tick's passes

  const CHECK_INTERVAL := 1000.0

  datatype CronTick = CronTick(acc: real, last: Option<real>, lastFired: int)

  const ADDED := CronTick(CHECK_INTERVAL, None, -1)

  /** The tick after a pass, and whether it fires. */
  function AdvanceCron(k: CronTick, f: Fields, time: real, now: Date): (CronTick, bool) {
    if k.last.None? then (k.(last := Some(time)), false)
    else
      var acc := k.acc + (time - k.last.value);
      if acc < CHECK_INTERVAL then (k.(acc := acc, last := Some(time)), false)
      else if MinuteKey(now) != k.lastFired && Matches(f, now) then (CronTick(0.0, Some(time), MinuteKey(now)), true)
      else (k.(acc := 0.0, last := Some(time)), false)
  }

  /** `Reset` is a resume: the next pass only captures its time. */
  datatype Event = Pass(time: real, now: Date) | Reset

  datatype Run = Run(tick: CronTick, fired: seq<Date>)

  function RunOf(f: Fields, h: seq<Event>): Run {
    if h == [] then Run(ADDED, [])
    else
      var r := RunOf(f, h[..|h| - 1]);
      match h[|h| - 1]
      case Reset => r.(tick := r.tick.(last := None))
      case Pass(time, now) =>
        var (tick, fires) := AdvanceCron(r.tick, f, time, now);
        Run(tick, if fires then r.fired + [now] else r.fired)
  }

  predicate OnCalendars(h: seq<Event>) {
    forall i :: 0 <= i < |h| && h[i].Pass? ==> OnCalendar(h[i].now)
  }

  predicate Forward(h: seq<Event>) {
    forall i, j :: 0 <= i < j < |h| && h[i].Pass? && h[j].Pass? ==> MinuteKey(h[i].now) <= MinuteKey(h[j].now)
  }

  predicate FiredInv(f: Fields, r: Run) {
    && (forall i :: 0 <= i < |r.fired| ==> OnCalendar(r.fired[i]) && Matches(f, r.fired[i]))
    && (forall i, j :: 0 <= i < j < |r.fired| ==> MinuteKey(r.fired[i]) < MinuteKey(r.fired[j]))
    && r.tick.lastFired == if r.fired == [] then -1 else MinuteKey(r.fired[|r.fired| - 1])
  }

  /** The last date fired is one of the passes'. */
  predicate FiredOnAPass(h: seq<Event>, fired: seq<Date>) {
    fired != [] ==> exists i :: 0 <= i < |h| && h[i].Pass? && h[i].now == fired[|fired| - 1]
  }

  lemma PassKeepsFired(f: Fields, r: Run, time: real, now: Date)
    requires FiredInv(f, r) && OnCalendar(now) && (r.fired != [] ==> r.tick.lastFired <= MinuteKey(now))
    ensures var (tick, fires) := AdvanceCron(r.tick, f, time, now);
            FiredInv(f, Run(tick, if fires then r.fired + [now] else r.fired))
  {
    var (tick, fires) := AdvanceCron(r.tick, f, time, now);
    if fires {
      var fired := r.fired + [now];
      forall i, j | 0 <= i < j < |fired| ensures MinuteKey(fired[i]) < MinuteKey(fired[j]) {
        if j == |r.fired| && i < j - 1 {
          assert MinuteKey(r.fired[i]) < MinuteKey(r.fired[j - 1]);
        }
      }
    }
  }

  lemma {:induction false} FiredAlways(f: Fields, h: seq<Event>)
    requires OnCalendars(h) && Forward(h)
    ensures FiredInv(f, RunOf(f, h)) && FiredOnAPass(h, RunOf(f, h).fired)
  {
    if h != [] {
      var n := |h| - 1;
      var front := h[..n];
      assert forall i :: 0 <= i < n ==> front[i] == h[i];
      FiredAlways(f, front);
      var r := RunOf(f, front);
      if h[n].Pass? {
        PassKeepsFired(f, r, h[n].time, h[n].now);
        if RunOf(f, h).fired != r.fired {
          assert h[n].now == RunOf(f, h).fired[|r.fired|];
        }
      }
    }
  }

  /** Under a forward clock a cron tick fires at most once in a calendar minute, in order, and only in matching ones. */
  lemma OncePerMinute(f: Fields, h: seq<Event>, i: nat, j: nat)
    requires OnCalendars(h) && Forward(h) && i < j < |RunOf(f, h).fired|
    ensures var fired := RunOf(f, h).fired;
            Earlier(fired[i], fired[j]) && !SameMinute(fired[i], fired[j]) && Matches(f, fired[i]) && Matches(f, fired[j])
  {
    FiredAlways(f, h);
    var fired := RunOf(f, h).fired;
    KeysFollowTheCalendar(fired[i], fired[j]);
  }

  /** A new tick's first pass captures its time; the next one is a check, however soon it comes. */
  lemma FirstCountedPassChecks(f: Fields, first: real, second: real, was: Date, now: Date)
    requires OnCalendar(now) && first <= second
    ensures !AdvanceCron(ADDED, f, first, was).1
    ensures AdvanceCron(AdvanceCron(ADDED, f, first, was).0, f, second, now).1 == Matches(f, now)
  {
    KeysFollowTheCalendar(now, now);
  }

  /** A pass on which the tick looks at the calendar. */
  predicate Checks(k: CronTick, time: real) {
    k.last.Some? && k.acc + (time - k.last.value) >= CHECK_INTERVAL
  }

  /** A pass that does not check fires nothing whatever the date, and after one that does none checks for a whole second. */
  lemma ChecksAreASecondApart(k: CronTick, f: Fields, time: real, now: Date, later: real, other: Date)
    ensures !Checks(k, time) ==> !AdvanceCron(k, f, time, now).1 && AdvanceCron(k, f, time, now) == AdvanceCron(k, f, time, other)
    ensures Checks(k, time) ==>
              var n := AdvanceCron(k, f, time, now).0;
              (Checks(n, later) <==> later >= time + CHECK_INTERVAL)
  {
  }

  /** A pass that checks fires exactly when its minute matches and is not the one last fired. */
  lemma ChecksFireNewMatchingMinutes(k: CronTick, f: Fields, time: real, now: Date)
    requires Checks(k, time)
    ensures AdvanceCron(k, f, time, now).1 <==> Matches(f, now) && MinuteKey(now) != k.lastFired
    ensures AdvanceCron(k, f, time, now).0.lastFired == if AdvanceCron(k, f, time, now).1 then MinuteKey(now) else k.lastFired
  {
  }

  /** However long a pause lasts, the pass that ends it counts none of it. */
  lemma PausedTimeIsNotCounted(f: Fields, h: seq<Event>, time: real, now: Date)
    ensures var r := RunOf(f, h);
            RunOf(f, h + [Reset] + [Pass(time, now)]) == Run(r.tick.(last := Some(time)), r.fired)
  {
    var paused := h + [Reset];
    var resumed := paused + [Pass(time, now)];
    assert paused[..|h|] == h && resumed[..|paused|] == paused;
    assert RunOf(f, paused) == Run(RunOf(f, h).tick.(last := None), RunOf(f, h).fired);
  }

  // ---------------------------------------------------------------------------------------------
  // A matching minute watched for a second does fire

  /** The pass times never go back between resets. */
  predicate Steady(f: Fields, h: seq<Event>) {
    h != [] ==>
      var front := h[..|h| - 1];
      Steady(f, front) &&
      (h[|h| - 1].Pass? && RunOf(f, front).tick.last.Some? ==> RunOf(f, front).tick.last.value <= h[|h| - 1].time)
  }

  lemma {:induction false} NeverNegative(f: Fields, h: seq<Event>)
    requires Steady(f, h)
    ensures RunOf(f, h).tick.acc >= 0.0
  {
    if h != [] { NeverNegative(f, h[..|h| - 1]); }
  }

  /** Every event from `i` on is a pass within the one minute. */
  predicate Within(h: seq<Event>, i: nat, now: Date) {
    i < |h| && forall m :: i <= m < |h| ==> h[m].Pass? && h[m].now == now
  }

  predicate FiredIn(fired: seq<Date>, now: Date) {
    exists k :: 0 <= k < |fired| && SameMinute(fired[k], now)
  }

  /** A pass in the minute: it either has fired by now or has been gathering time since pass `i`. */
  lemma {:induction false} FiredOrGathering(f: Fields, h: seq<Event>, i: nat, now: Date)
    requires OnCalendars(h) && Forward(h) && Steady(f, h) && Within(h, i, now) && Matches(f, now)
    ensures var r := RunOf(f, h);
            r.tick.last == Some(h[|h| - 1].time) &&
            (FiredIn(r.fired, now) || (r.tick.acc >= h[|h| - 1].time - h[i].time && (i < |h| - 1 ==> r.tick.acc < CHECK_INTERVAL)))
    decreases |h|
  {
    var n := |h| - 1;
    var front := h[..n];
    assert forall m :: 0 <= m < n ==> front[m] == h[m];
    NeverNegative(f, front);
    NeverNegative(f, h);
    if i < n {
      assert Within(front, i, now);
      FiredOrGathering(f, front, i, now);
      OnePassMore(f, h, i, now);
    }
  }

  lemma OnePassMore(f: Fields, h: seq<Event>, i: nat, now: Date)
    requires OnCalendars(h) && Forward(h) && Within(h, i, now) && i < |h| - 1 && Matches(f, now)
    requires var front := h[..|h| - 1]; var r := RunOf(f, front);
             r.tick.last == Some(front[|front| - 1].time) &&
             (FiredIn(r.fired, now) || r.tick.acc >= front[|front| - 1].time - h[i].time)
    ensures var r := RunOf(f, h);
            FiredIn(r.fired, now) || (r.tick.acc >= h[|h| - 1].time - h[i].time && r.tick.acc < CHECK_INTERVAL)
  {
    var n := |h| - 1;
    var front := h[..n];
    assert forall m :: 0 <= m < n ==> front[m] == h[m];
    FiredAlways(f, front);
    var was, r := RunOf(f, front), RunOf(f, h);
    assert was.fired <= r.fired;
    if FiredIn(was.fired, now) {
      var k :| 0 <= k < |was.fired| && SameMinute(was.fired[k], now);
      assert r.fired[k] == was.fired[k];
    } else if was.tick.acc + (h[n].time - was.tick.last.value) >= CHECK_INTERVAL {
      assert OnCalendar(h[n].now);
      if MinuteKey(now) == was.tick.lastFired {
        KeysFollowTheCalendar(now, now);
        var last := was.fired[|was.fired| - 1];
        KeysFollowTheCalendar(last, now);
      } else {
        assert r.fired[|was.fired|] == now;
      }
    }
  }

  /** Passes that span a second of a matching minute fire it. */
  lemma AWatchedMinuteFires(f: Fields, h: seq<Event>, i: nat, now: Date)
    requires OnCalendars(h) && Forward(h) && Steady(f, h) && Within(h, i, now) && Matches(f, now)
    requires h[|h| - 1].time - h[i].time >= CHECK_INTERVAL
    ensures FiredIn(RunOf(f, h).fired, now)
  {
    FiredOrGathering(f, h, i, now);
  }
}
