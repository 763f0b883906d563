/**
 The coalesced tick scheduler: phase arithmetic with dropped beats, pause and resume.

 Times are real numbers of milliseconds.  A history is what one tick lives through after it is added: passes of
 the shared loop, pauses and resumes.  While paused the loop makes no pass.
 */
module Ticks {
  import opened Wrappers
  import Cron

  datatype Tick = Tick(interval: real, acc: real, last: Option<real>)

  function Added(intervalMs: real): Tick {
    Tick(if intervalMs > 0.0 then intervalMs else 0.0, 0.0, None)
  }

  /** Whole intervals in `x`. */
  function Quotient(x: real, interval: real): int
    requires interval > 0.0
  {
    (x / interval).Floor
  }

  /** How long so many intervals last. */
  function Span(interval: real, beats: real): real {
    interval * beats
  }

  /** `x % interval`, for `x` not negative. */
  function Remainder(x: real, interval: real): real
    requires interval > 0.0
  {
    x - Span(interval, Quotient(x, interval) as real)
  }

  /** The tick after a pass, and whether it fires: at most once, however many beats were missed. */
  function Advance(k: Tick, time: real): (Tick, bool) {
    if k.interval <= 0.0 then (k, true)
    else if k.last.None? then (k.(last := Some(time)), false)
    else
      var acc := k.acc + (time - k.last.value);
      if acc >= k.interval then (k.(acc := Remainder(acc, k.interval), last := Some(time)), true)
      else (k.(acc := acc, last := Some(time)), false)
  }

  // ---------------------------------------------------------------------------------------------
  // Histories

  datatype Event = Pass(time: real) | Pause | Resume

  datatype Run = Run(tick: Tick, paused: bool, fires: nat)

  function Step(r: Run, e: Event): Run {
    match e
    case Pause => r.(paused := true)
    case Resume => if r.paused then Run(r.tick.(last := None), false, r.fires) else r
    case Pass(time) =>
      var (tick, fires) := Advance(r.tick, time);
      Run(tick, r.paused, if fires then r.fires + 1 else r.fires)
  }

  function RunOf(interval: real, h: seq<Event>): Run {
    if h == [] then Run(Added(interval), false, 0)
    else Step(RunOf(interval, h[..|h| - 1]), h[|h| - 1])
  }

  function Paused(h: seq<Event>): bool {
    h != [] &&
    match h[|h| - 1]
    case Pause => true
    case Resume => false
    case Pass(_) => Paused(h[..|h| - 1])
  }

  /** The pass a new pass's time is counted from; a resume that ends a pause forgets it. */
  function CountedFrom(h: seq<Event>): Option<real> {
    if h == [] then None
    else
      var front := h[..|h| - 1];
      match h[|h| - 1]
      case Pass(time) => Some(time)
      case Pause => CountedFrom(front)
      case Resume => if Paused(front) then None else CountedFrom(front)
  }

  /** Active time: the sum of the stretches between passes that no pause interrupts. */
  function Elapsed(h: seq<Event>): real {
    if h == [] then 0.0
    else
      var front := h[..|h| - 1];
      if h[|h| - 1].Pass? && CountedFrom(front).Some?
      then Elapsed(front) + (h[|h| - 1].time - CountedFrom(front).value)
      else Elapsed(front)
  }

  /** No pass while paused, and the clock does not go back within a stretch. */
  predicate Legal(h: seq<Event>) {
    h != [] ==>
      var front := h[..|h| - 1];
      Legal(front) &&
      (h[|h| - 1].Pass? ==>
         !Paused(front) && (CountedFrom(front).Some? ==> CountedFrom(front).value <= h[|h| - 1].time))
  }

  lemma {:induction false} PausedIsTheRuns(interval: real, h: seq<Event>)
    ensures RunOf(interval, h).paused == Paused(h)
    decreases |h|
  {
    if h != [] { PausedIsTheRuns(interval, h[..|h| - 1]); }
  }

  lemma SpanGrows(interval: real, a: real, b: real)
    requires interval > 0.0
    ensures a <= b ==> Span(interval, a) <= Span(interval, b)
    ensures a < b ==> Span(interval, a) < Span(interval, b)
  {
    assert Span(interval, b) - Span(interval, a) == interval * (b - a);
    if a < b { assert interval * (b - a) > 0.0; }
  }

  lemma SpanAdds(interval: real, a: real, b: real)
    ensures Span(interval, a + b) == Span(interval, a) + Span(interval, b)
    ensures Span(interval, 1.0) == interval && Span(interval, 0.0) == 0.0
  {
  }

  lemma SpanOfShare(x: real, interval: real)
    requires interval > 0.0
    ensures Span(interval, x / interval) == x
  {
  }

  lemma QuotientBounds(x: real, interval: real)
    requires interval > 0.0
    ensures Span(interval, Quotient(x, interval) as real) <= x
    ensures x < Span(interval, Quotient(x, interval) as real + 1.0)
  {
    var q := Quotient(x, interval) as real;
    SpanOfShare(x, interval);
    SpanGrows(interval, q, x / interval);
    SpanGrows(interval, x / interval, q + 1.0);
  }

  lemma SpansApart(interval: real, p: int, q: int)
    requires interval > 0.0
    ensures p < q ==> Span(interval, p as real + 1.0) <= Span(interval, q as real)
  {
    SpanGrows(interval, p as real + 1.0, q as real);
  }

  lemma QuotientIs(x: real, interval: real, q: int)
    requires interval > 0.0 && Span(interval, q as real) <= x < Span(interval, q as real + 1.0)
    ensures Quotient(x, interval) == q
  {
    var p := Quotient(x, interval);
    QuotientBounds(x, interval);
    SpansApart(interval, p, q);
    SpansApart(interval, q, p);
  }

  lemma AtLeastOne(acc: real, interval: real)
    requires interval > 0.0 && acc >= interval
    ensures Quotient(acc, interval) >= 1
  {
    QuotientBounds(acc, interval);
    SpansApart(interval, Quotient(acc, interval), 1);
    SpanAdds(interval, 0.0, 0.0);
  }

  lemma BelowOne(acc: real, interval: real)
    requires interval > 0.0 && 0.0 <= acc < interval
    ensures Quotient(acc, interval) == 0
  {
    SpanAdds(interval, 0.0, 0.0);
    QuotientIs(acc, interval, 0);
  }

  /** The quotient of a sum, from the remainder of its first part. */
  lemma QuotientOfSum(elapsed: real, d: real, interval: real)
    requires interval > 0.0
    ensures var acc := Remainder(elapsed, interval) + d;
            Quotient(elapsed + d, interval) == Quotient(elapsed, interval) + Quotient(acc, interval)
  {
    var q := Quotient(elapsed, interval);
    var acc := Remainder(elapsed, interval) + d;
    var p := Quotient(acc, interval);
    QuotientBounds(acc, interval);
    assert (q + p) as real == q as real + p as real;
    SpanAdds(interval, q as real, p as real);
    SpanAdds(interval, q as real, p as real + 1.0);
    assert q as real + (p as real + 1.0) == (q + p) as real + 1.0;
    assert elapsed + d == acc + Span(interval, q as real);
    QuotientIs(elapsed + d, interval, q + p);
  }

  /** A tick whose accumulator is what is left of `elapsed`, `d` later: it fires when a whole interval was passed. */
  lemma LaterQuotient(elapsed: real, d: real, interval: real)
    requires interval > 0.0 && d >= 0.0
    ensures var acc := Remainder(elapsed, interval) + d;
            && Quotient(elapsed, interval) <= Quotient(elapsed + d, interval)
            && (acc >= interval <==> Quotient(elapsed + d, interval) > Quotient(elapsed, interval))
            && Remainder(elapsed + d, interval) == if acc >= interval then Remainder(acc, interval) else acc
  {
    var q := Quotient(elapsed, interval);
    var acc := Remainder(elapsed, interval) + d;
    var p := Quotient(acc, interval);
    QuotientBounds(elapsed, interval);
    QuotientOfSum(elapsed, d, interval);
    assert (q + p) as real == q as real + p as real;
    SpanAdds(interval, q as real, p as real);
    if acc < interval {
      BelowOne(acc, interval);
      SpanAdds(interval, 0.0, 0.0);
    } else {
      AtLeastOne(acc, interval);
    }
  }

  /** The accumulator is the active time modulo the interval. */
  lemma {:induction false} PhaseIsKept(interval: real, h: seq<Event>)
    requires interval > 0.0 && Legal(h)
    ensures var r := RunOf(interval, h);
            r.paused == Paused(h) && Elapsed(h) >= 0.0 &&
            r.tick == Tick(interval, Remainder(Elapsed(h), interval), CountedFrom(h))
  {
    if h == [] {
      BelowOne(0.0, interval);
    } else {
      var front := h[..|h| - 1];
      PhaseIsKept(interval, front);
      if h[|h| - 1].Pass? && CountedFrom(front).Some? {
        LaterQuotient(Elapsed(front), h[|h| - 1].time - CountedFrom(front).value, interval);
      }
    }
  }

  function Beats(interval: real, h: seq<Event>): int
    requires interval > 0.0
  {
    Quotient(Elapsed(h), interval)
  }

  /** A pass fires exactly when the number of whole intervals of active time grows. */
  lemma FiresWhenABeatIsPassed(interval: real, h: seq<Event>, time: real)
    requires interval > 0.0 && Legal(h + [Pass(time)])
    ensures var next := h + [Pass(time)];
            && (RunOf(interval, next).fires == RunOf(interval, h).fires + 1 <==> Beats(interval, next) > Beats(interval, h))
            && RunOf(interval, next).fires <= RunOf(interval, h).fires + 1
            && Beats(interval, h) <= Beats(interval, next)
  {
    var next := h + [Pass(time)];
    assert next[..|next| - 1] == h;
    PhaseIsKept(interval, h);
    if CountedFrom(h).Some? {
      LaterQuotient(Elapsed(h), time - CountedFrom(h).value, interval);
    }
  }

  /** No pass takes in more than one beat. */
  predicate KeepsUp(interval: real, h: seq<Event>)
    requires interval > 0.0
  {
    h != [] ==>
      KeepsUp(interval, h[..|h| - 1]) && Beats(interval, h) <= Beats(interval, h[..|h| - 1]) + 1
  }

  /** Missed beats are dropped, never caught up: the firings are the beats exactly when every pass kept up. */
  lemma {:induction false} MissedBeatsAreDropped(interval: real, h: seq<Event>)
    requires interval > 0.0 && Legal(h)
    ensures RunOf(interval, h).fires <= Beats(interval, h)
    ensures RunOf(interval, h).fires == Beats(interval, h) <==> KeepsUp(interval, h)
  {
    if h == [] {
      BelowOne(0.0, interval);
    } else {
      var front := h[..|h| - 1];
      MissedBeatsAreDropped(interval, front);
      if h[|h| - 1].Pass? {
        assert h == front + [Pass(h[|h| - 1].time)];
        FiresWhenABeatIsPassed(interval, front, h[|h| - 1].time);
      }
    }
  }

  /** No two passes counted together lie more than one interval apart. */
  predicate ShortGaps(interval: real, h: seq<Event>) {
    h != [] ==>
      var front := h[..|h| - 1];
      ShortGaps(interval, front) &&
      (h[|h| - 1].Pass? && CountedFrom(front).Some? ==> h[|h| - 1].time - CountedFrom(front).value <= interval)
  }

  lemma {:induction false} ShortGapsKeepUp(interval: real, h: seq<Event>)
    requires interval > 0.0 && Legal(h) && ShortGaps(interval, h)
    ensures KeepsUp(interval, h)
  {
    if h != [] {
      var front := h[..|h| - 1];
      ShortGapsKeepUp(interval, front);
      if h[|h| - 1].Pass? && CountedFrom(front).Some? {
        OneGap(Elapsed(front), h[|h| - 1].time - CountedFrom(front).value, interval);
      }
    }
  }

  lemma OneGap(elapsed: real, d: real, interval: real)
    requires interval > 0.0 && 0.0 <= d <= interval
    ensures Quotient(elapsed + d, interval) <= Quotient(elapsed, interval) + 1
  {
    var q, p := Quotient(elapsed, interval), Quotient(elapsed + d, interval);
    QuotientBounds(elapsed, interval);
    QuotientBounds(elapsed + d, interval);
    assert (q + 1) as real == q as real + 1.0;
    SpansApart(interval, q + 1, p);
    SpanAdds(interval, q as real + 1.0, 1.0);
  }

  /** With no gap over one interval a tick fires once for every whole interval of active time. */
  lemma HealthyPassesFireEveryBeat(interval: real, h: seq<Event>)
    requires interval > 0.0 && Legal(h) && ShortGaps(interval, h)
    ensures RunOf(interval, h).fires == Quotient(Elapsed(h), interval)
  {
    ShortGapsKeepUp(interval, h);
    MissedBeatsAreDropped(interval, h);
  }

  // ---------------------------------------------------------------------------------------------
  // Paused time

  function LaterEvent(e: Event, d: real): Event {
    if e.Pass? then Pass(e.time + d) else e
  }

  function Later(h: seq<Event>, d: real): seq<Event> {
    seq(|h|, i requires 0 <= i < |h| => LaterEvent(h[i], d))
  }

  /** The same run, its clock `d` later. */
  predicate Shifted(r: Run, later: Run, d: real) {
    && later.fires == r.fires && later.paused == r.paused
    && later.tick == r.tick.(last := if r.tick.last.Some? then Some(r.tick.last.value + d) else None)
  }

  lemma StepShifted(r: Run, later: Run, e: Event, d: real)
    requires Shifted(r, later, d)
    ensures Shifted(Step(r, e), Step(later, LaterEvent(e, d)), d)
  {
    if e.Pass? && r.tick.last.Some? {
      assert e.time + d - later.tick.last.value == e.time - r.tick.last.value;
    }
  }

  lemma AfterAPause(interval: real, h: seq<Event>)
    ensures RunOf(interval, h + [Pause, Resume]).tick.last.None?
  {
    var before := h + [Pause, Resume];
    assert before[..|before| - 1] == h + [Pause];
    assert (h + [Pause])[..|h|] == h;
    assert RunOf(interval, h + [Pause]).paused;
  }

  /** Paused time never counts: however long a pause lasts, what follows it runs the same. */
  lemma {:induction false} PausedTimeNeverCounts(interval: real, h: seq<Event>, rest: seq<Event>, d: real)
    ensures Shifted(RunOf(interval, h + [Pause, Resume] + rest), RunOf(interval, h + [Pause, Resume] + Later(rest, d)), d)
    decreases |rest|
  {
    var before := h + [Pause, Resume];
    if rest == [] {
      assert before + rest == before && before + Later(rest, d) == before;
      AfterAPause(interval, h);
    } else {
      var n := |rest| - 1;
      PausedTimeNeverCounts(interval, h, rest[..n], d);
      var a, b := before + rest, before + Later(rest, d);
      assert a[..|a| - 1] == before + rest[..n];
      assert b[..|b| - 1] == before + Later(rest[..n], d);
      StepShifted(RunOf(interval, a[..|a| - 1]), RunOf(interval, b[..|b| - 1]), rest[n], d);
    }
  }

  /** An interval of zero or less fires on every pass. */
  lemma {:induction false} FrameTicksFireEveryPass(interval: real, h: seq<Event>)
    requires interval <= 0.0
    ensures RunOf(interval, h).fires == Passes(h) && RunOf(interval, h).tick.interval == 0.0
  {
    if h != [] {
      FrameTicksFireEveryPass(interval, h[..|h| - 1]);
    }
  }

  function Passes(h: seq<Event>): nat {
    if h == [] then 0
    else Passes(h[..|h| - 1]) + if h[|h| - 1].Pass? then 1 else 0
  }

  // ---------------------------------------------------------------------------------------------
  // The scheduler

  datatype Scheduled = Interval(tick: Tick) | CronAt(fields: Cron.Fields, cron: Cron.CronTick)

  function Advanced(s: Scheduled, time: real, now: Cron.Date): (Scheduled, bool) {
    match s
    case Interval(tick) =>
      var (next, due) := Advance(tick, time);
      (Interval(next), due)
    case CronAt(fields, cron) =>
      var (next, due) := Cron.AdvanceCron(cron, fields, time, now);
      (CronAt(fields, next), due)
  }

  function Forgotten(s: Scheduled): Scheduled {
    match s
    case Interval(tick) => Interval(tick.(last := None))
    case CronAt(fields, cron) => CronAt(fields, cron.(last := None))
  }

  /** The first pass after a pause takes the clock up and counts nothing, for interval ticks and cron ticks alike. */
  lemma TheFirstPassBackCountsNothing(s: Scheduled, time: real, now: Cron.Date)
    requires s.Interval? ==> s.tick.interval > 0.0
    ensures var (next, due) := Advanced(Forgotten(s), time, now);
            && !due && Forgotten(next) == Forgotten(s)
            && (next.Interval? ==> next.tick.last == Some(time)) && (next.CronAt? ==> next.cron.last == Some(time))
  {
  }

  // ---------------------------------------------------------------------------------------------
  // The scheduler's ticks and their histories

  /** An interval tick's declared interval and what it has lived through. */
  datatype Life = Life(interval: real, h: seq<Event>)

  /** Each interval tick is where its history leaves it. */
  predicate Lived(ticks: map<nat, Scheduled>, lives: map<nat, Life>, paused: bool) {
    && (forall id :: id in lives ==> id in ticks && ticks[id].Interval?)
    && (forall id :: id in ticks && ticks[id].Interval? ==>
          id in lives && LivedOne(ticks[id].tick, lives[id], paused))
  }

  predicate LivedOne(tick: Tick, life: Life, paused: bool) {
    tick == RunOf(life.interval, life.h).tick && RunOf(life.interval, life.h).paused == paused
  }

  /** And has fired as often as its history says. */
  ghost predicate Counted(due: seq<nat>, lives: map<nat, Life>, nextId: nat) {
    && (forall id :: id in due ==> id < nextId) && (forall id :: id in lives ==> id < nextId)
    && (forall id :: id in lives ==> multiset(due)[id] == RunOf(lives[id].interval, lives[id].h).fires)
  }

  function Lengthened(lives: map<nat, Life>, e: Event): map<nat, Life> {
    map id | id in lives :: Life(lives[id].interval, lives[id].h + [e])
  }

  lemma RunMore(life: Life, e: Event)
    ensures RunOf(life.interval, life.h + [e]) == Step(RunOf(life.interval, life.h), e)
  {
    assert (life.h + [e])[..|life.h|] == life.h;
  }

  predicate NewLife(s: Scheduled, life: Option<Life>, paused: bool) {
    match s
    case Interval(tick) => life.Some? && LivedOne(tick, life.value, paused) && RunOf(life.value.interval, life.value.h).fires == 0
    case CronAt(_, _) => life.None?
  }

  lemma NewTickLives(
      ticks: map<nat, Scheduled>, lives: map<nat, Life>, paused: bool, due: seq<nat>, id: nat, s: Scheduled, life: Option<Life>)
    requires Lived(ticks, lives, paused) && Counted(due, lives, id) && id !in ticks && NewLife(s, life, paused)
    ensures var more := if life.Some? then lives[id := life.value] else lives;
            Lived(ticks[id := s], more, paused) && Counted(due, more, id + 1)
  {
    assert multiset(due)[id] == 0 by { assert id !in due; }
  }

  /** The registered ticks, each once, under numbers already given out. */
  ghost predicate Registered(ticks: map<nat, Scheduled>, order: seq<nat>, nextId: nat) {
    && (forall i, j :: 0 <= i < j < |order| ==> order[i] != order[j])
    && (forall id :: id in ticks <==> id in order)
    && (forall id :: id in order ==> id < nextId)
  }

  lemma OneMoreRegistered(ticks: map<nat, Scheduled>, order: seq<nat>, id: nat, s: Scheduled)
    requires Registered(ticks, order, id)
    ensures id !in ticks && Registered(ticks[id := s], order + [id], id + 1)
  {
    assert forall i :: 0 <= i < |order| ==> order[i] in order;
  }

  lemma OneFewerRegistered(ticks: map<nat, Scheduled>, order: seq<nat>, nextId: nat, i: nat)
    requires Registered(ticks, order, nextId) && i < |order|
    ensures var left := order[..i] + order[i + 1..];
            && Registered(ticks - {order[i]}, left, nextId)
            && forall other :: other in left <==> other in order && other != order[i]
  {
    var left := order[..i] + order[i + 1..];
    forall other ensures other in left <==> other in order && other != order[i] {
      if other in order && other != order[i] {
        var j :| 0 <= j < |order| && order[j] == other;
        assert left[if j < i then j else j - 1] == other;
      }
    }
  }

  lemma StoppedLives(ticks: map<nat, Scheduled>, lives: map<nat, Life>, paused: bool, due: seq<nat>, nextId: nat, id: nat)
    requires Lived(ticks, lives, paused) && Counted(due, lives, nextId)
    ensures Lived(ticks - {id}, lives - {id}, paused) && Counted(due, lives - {id}, nextId)
  {
  }

  lemma PauseLives(ticks: map<nat, Scheduled>, lives: map<nat, Life>, due: seq<nat>, nextId: nat)
    requires Lived(ticks, lives, false) && Counted(due, lives, nextId)
    ensures Lived(ticks, Lengthened(lives, Pause), true) && Counted(due, Lengthened(lives, Pause), nextId)
  {
    forall id | id in lives
      ensures RunOf(lives[id].interval, lives[id].h + [Pause]) == Step(RunOf(lives[id].interval, lives[id].h), Pause)
    {
      RunMore(lives[id], Pause);
    }
  }

  lemma ResumeLivesOne(tick: Tick, life: Life)
    requires LivedOne(tick, life, true)
    ensures var more := Life(life.interval, life.h + [Resume]);
            LivedOne(tick.(last := None), more, false) && RunOf(more.interval, more.h).fires == RunOf(life.interval, life.h).fires
  {
    RunMore(life, Resume);
  }

  lemma ResumeLives(was: map<nat, Scheduled>, ticks: map<nat, Scheduled>, lives: map<nat, Life>, due: seq<nat>, nextId: nat)
    requires Lived(was, lives, true) && Counted(due, lives, nextId)
    requires ticks.Keys == was.Keys && forall id :: id in ticks ==> ticks[id] == Forgotten(was[id])
    ensures Lived(ticks, Lengthened(lives, Resume), false) && Counted(due, Lengthened(lives, Resume), nextId)
  {
    var more := Lengthened(lives, Resume);
    forall id | id in lives
      ensures ticks[id].Interval? && LivedOne(ticks[id].tick, more[id], false)
              && RunOf(more[id].interval, more[id].h).fires == RunOf(lives[id].interval, lives[id].h).fires {
      ResumeLivesOne(was[id].tick, lives[id]);
    }
  }

  lemma {:induction false} DueOnce(ticks: map<nat, Scheduled>, order: seq<nat>, time: real, now: Cron.Date, id: nat)
    requires forall i :: 0 <= i < |order| ==> order[i] in ticks
    requires forall i, j :: 0 <= i < j < |order| ==> order[i] != order[j]
    ensures multiset(DueOf(ticks, order, time, now))[id] == if id in order && Advanced(ticks[id], time, now).1 then 1 else 0
    decreases |order|
  {
    if order != [] {
      var n := |order| - 1;
      var front := order[..n];
      DueOnce(ticks, front, time, now, id);
      APassAdvancesEachOnce(ticks, front, time, now);
      assert order == front + [order[n]] && order[n] !in front;
    }
  }

  lemma PassLivesOne(ticks: map<nat, Scheduled>, lives: map<nat, Life>, order: seq<nat>, due: seq<nat>, time: real, now: Cron.Date, id: nat)
    requires Lived(ticks, lives, false) && id in lives && id in order && ticks[id].Interval?
    requires forall i :: 0 <= i < |order| ==> order[i] in ticks
    requires forall i, j :: 0 <= i < j < |order| ==> order[i] != order[j]
    requires multiset(due)[id] == RunOf(lives[id].interval, lives[id].h).fires
    ensures var life := Life(lives[id].interval, lives[id].h + [Event.Pass(time)]);
            && Walked(ticks, order, time, now)[id].Interval?
            && LivedOne(Walked(ticks, order, time, now)[id].tick, life, false)
            && multiset(due + DueOf(ticks, order, time, now))[id] == RunOf(life.interval, life.h).fires
  {
    RunMore(lives[id], Event.Pass(time));
    APassAdvancesEachOnce(ticks, order, time, now);
    DueOnce(ticks, order, time, now, id);
  }

  lemma PassLives(
      ticks: map<nat, Scheduled>, lives: map<nat, Life>, order: seq<nat>, due: seq<nat>, nextId: nat, time: real, now: Cron.Date)
    requires Lived(ticks, lives, false) && Counted(due, lives, nextId) && forall id :: id in ticks <==> id in order
    requires forall i, j :: 0 <= i < j < |order| ==> order[i] != order[j]
    requires forall id :: id in order ==> id < nextId
    ensures var lived := Lengthened(lives, Event.Pass(time));
            Lived(Walked(ticks, order, time, now), lived, false) && Counted(due + DueOf(ticks, order, time, now), lived, nextId)
  {
    APassAdvancesEachOnce(ticks, order, time, now);
    forall id | id in lives
      ensures var life := Life(lives[id].interval, lives[id].h + [Event.Pass(time)]);
              && Walked(ticks, order, time, now)[id].Interval?
              && LivedOne(Walked(ticks, order, time, now)[id].tick, life, false)
              && multiset(due + DueOf(ticks, order, time, now))[id] == RunOf(life.interval, life.h).fires {
      PassLivesOne(ticks, lives, order, due, time, now, id);
    }
  }

  /**
   So the scheduler's own ticks obey the history laws: an interval tick's accumulator is its active time modulo the
   interval, and its firings are bounded by the whole intervals of that time, equal to them when every pass kept up.
   */
  lemma SchedulerTicksKeepPhase(ticks: map<nat, Scheduled>, lives: map<nat, Life>, paused: bool, due: seq<nat>, nextId: nat, id: nat)
    requires Lived(ticks, lives, paused) && Counted(due, lives, nextId) && id in lives && ticks[id].Interval?
    requires lives[id].interval > 0.0 && Legal(lives[id].h)
    ensures var life := lives[id];
            && ticks[id].tick.acc == Remainder(Elapsed(life.h), life.interval)
            && multiset(due)[id] <= Beats(life.interval, life.h)
            && (multiset(due)[id] == Beats(life.interval, life.h) <==> KeepsUp(life.interval, life.h))
  {
    PhaseIsKept(lives[id].interval, lives[id].h);
    MissedBeatsAreDropped(lives[id].interval, lives[id].h);
  }

  /** One scheduler; `order` is the order ticks were added in, `due` every firing so far. */
  class TickScheduler {
    var ticks: map<nat, Scheduled>
    var order: seq<nat>
    var nextId: nat
    var running: bool
    var paused: bool
    ghost var due: seq<nat>
    /** What each registered interval tick has lived through. */
    ghost var lives: map<nat, Life>

    /** The shared loop runs exactly while some tick is registered and the scheduler is not paused. */
    ghost predicate Valid()
      reads this
    {
      && Registered(ticks, order, nextId)
      && (running <==> !paused && order != [])
      && Lived(ticks, lives, paused) && Counted(due, lives, nextId)
    }

    constructor ()
      ensures Valid() && ticks == map[] && !paused && due == []
    {
      ticks, order, nextId, running, paused, due, lives := map[], [], 1, false, false, [], map[];
    }

    method Register(s: Scheduled, ghost life: Option<Life>) returns (id: nat)
      requires Valid() && NewLife(s, life, paused)
      modifies `ticks, `order, `nextId, `running, `lives
      ensures Valid() && id !in old(ticks) && ticks == old(ticks)[id := s] && order == old(order) + [id]
      ensures lives == if life.Some? then old(lives)[id := life.value] else old(lives)
    {
      id := nextId;
      OneMoreRegistered(ticks, order, id, s);
      NewTickLives(ticks, lives, paused, due, id, s, life);
      nextId := id + 1;
      ticks := ticks[id := s];
      order := order + [id];
      if life.Some? { lives := lives[id := life.value]; }
      if !running && !paused { running := true; }
    }

    method Add(intervalMs: real) returns (id: nat)
      requires Valid()
      modifies `ticks, `order, `nextId, `running, `lives
      ensures Valid() && id !in old(ticks) && ticks == old(ticks)[id := Interval(Added(intervalMs))] && order == old(order) + [id]
      ensures lives == old(lives)[id := Life(intervalMs, if paused then [Pause] else [])]
    {
      id := Register(Interval(Added(intervalMs)), Some(Life(intervalMs, if paused then [Pause] else [])));
    }

    /** A cron tick; its first counted pass is a check. */
    method AddCron(fields: Cron.Fields) returns (id: nat)
      requires Valid()
      modifies `ticks, `order, `nextId, `running, `lives
      ensures Valid() && id !in old(ticks) && order == old(order) + [id] && lives == old(lives)
      ensures ticks == old(ticks)[id := CronAt(fields, Cron.ADDED)]
      ensures forall first, second, was, now :: Cron.OnCalendar(now) && first <= second ==>
                Advanced(Advanced(ticks[id], first, was).0, second, now).1 == Cron.Matches(fields, now)
    {
      id := Register(CronAt(fields, Cron.ADDED), None);
      forall first, second, was, now | Cron.OnCalendar(now) && first <= second
        ensures Advanced(Advanced(ticks[id], first, was).0, second, now).1 == Cron.Matches(fields, now) {
        Cron.FirstCountedPassChecks(fields, first, second, was, now);
      }
    }

    method Stop(id: nat)
      requires Valid()
      modifies `ticks, `order, `running, `lives
      ensures Valid() && ticks == old(ticks) - {id} && lives == old(lives) - {id}
      ensures forall other :: other in order <==> other in old(order) && other != id
    {
      var i := 0;
      while i < |order| && order[i] != id
        invariant 0 <= i <= |order|
        invariant forall j :: 0 <= j < i ==> order[j] != id
      {
        i := i + 1;
      }
      StoppedLives(ticks, lives, paused, due, nextId, id);
      if i < |order| {
        OneFewerRegistered(ticks, order, nextId, i);
        order := order[..i] + order[i + 1..];
      } else {
        assert ticks - {id} == ticks;
      }
      ticks, lives := ticks - {id}, lives - {id};
      if order == [] && running { running := false; }
    }

    method StopAll()
      requires Valid()
      modifies `ticks, `order, `running, `lives
      ensures Valid() && ticks == map[] && !running
    {
      ticks, order, lives := map[], [], map[];
      if running { running := false; }
    }

    method Suspend()
      requires Valid()
      modifies `paused, `running, `lives
      ensures Valid() && paused && !running
      ensures lives == if old(paused) then old(lives) else Lengthened(old(lives), Pause)
    {
      if paused { return; }
      PauseLives(ticks, lives, due, nextId);
      lives := Lengthened(lives, Pause);
      paused := true;
      running := false;
    }

    /** Ending a pause forgets every tick's last pass; otherwise a resume does nothing. */
    method Continue()
      requires Valid()
      modifies `paused, `running, `ticks, `lives
      ensures Valid() && !paused && ticks.Keys == old(ticks.Keys)
      ensures lives == if old(paused) then Lengthened(old(lives), Resume) else old(lives)
      ensures forall id :: id in ticks ==> ticks[id] == if old(paused) then Forgotten(old(ticks)[id]) else old(ticks)[id]
    {
      if !paused { return; }
      ghost var was := ticks;
      ForgetAll();
      paused := false;
      ResumeLives(was, ticks, lives, due, nextId);
      lives := Lengthened(lives, Resume);
      if order != [] { running := true; }
    }

    method ForgetAll()
      requires forall i, j :: 0 <= i < j < |order| ==> order[i] != order[j]
      requires forall id :: id in ticks <==> id in order
      modifies `ticks
      ensures ticks.Keys == old(ticks.Keys) && forall id :: id in ticks ==> ticks[id] == Forgotten(old(ticks)[id])
    {
      for i := 0 to |order|
        invariant ticks.Keys == old(ticks.Keys)
        invariant forall j :: 0 <= j < i ==> ticks[order[j]] == Forgotten(old(ticks)[order[j]])
        invariant forall j :: i <= j < |order| ==> ticks[order[j]] == old(ticks)[order[j]]
      {
        ticks := ticks[order[i] := Forgotten(ticks[order[i]])];
      }
    }

    method AdvanceOne(id: nat, time: real, now: Cron.Date)
      requires id in ticks
      modifies `ticks, `due
      ensures ticks == WalkOne(old(ticks), id, time, now)
      ensures due == old(due) + DueOne(old(ticks), id, time, now)
    {
      var (next, fires) := Advanced(ticks[id], time, now);
      ticks := ticks[id := next];
      if fires { due := due + [id]; }
    }

    method Walk(time: real, now: Cron.Date)
      requires forall i :: 0 <= i < |order| ==> order[i] in ticks
      modifies `ticks, `due
      ensures ticks == Walked(old(ticks), order, time, now)
      ensures due == old(due) + DueOf(old(ticks), order, time, now)
    {
      ghost var was, before := ticks, due;
      ghost var all := order;
      assert was == Walked(was, all[..0], time, now);
      for i := 0 to |order|
        invariant ticks == Walked(was, all[..i], time, now)
        invariant due == before + DueOf(was, all[..i], time, now)
      {
        WalkNext(was, all, i, time, now);
        AdvanceOne(order[i], time, now);
      }
      assert all[..|all|] == all;
    }

    /** One pass: every tick advances once, and those due fire in the order they were added. */
    method Pass(time: real, now: Cron.Date)
      requires Valid() && running
      modifies `ticks, `due, `lives
      ensures Valid() && lives == Lengthened(old(lives), Event.Pass(time))
      ensures ticks == Walked(old(ticks), order, time, now)
      ensures due == old(due) + DueOf(old(ticks), order, time, now)
    {
      PassLives(ticks, lives, order, due, nextId, time, now);
      WalkAndLive(time, now);
    }

    method WalkAndLive(time: real, now: Cron.Date)
      requires forall i :: 0 <= i < |order| ==> order[i] in ticks
      modifies `ticks, `due, `lives
      ensures lives == Lengthened(old(lives), Event.Pass(time))
      ensures ticks == Walked(old(ticks), order, time, now)
      ensures due == old(due) + DueOf(old(ticks), order, time, now)
    {
      Walk(time, now);
      lives := Lengthened(lives, Event.Pass(time));
    }
  }

  lemma WalkNext(ticks: map<nat, Scheduled>, order: seq<nat>, i: nat, time: real, now: Cron.Date)
    requires i < |order| && forall j :: 0 <= j < |order| ==> order[j] in ticks
    ensures var w := Walked(ticks, order[..i], time, now);
            && Walked(ticks, order[..i + 1], time, now) == WalkOne(w, order[i], time, now)
            && DueOf(ticks, order[..i + 1], time, now) == DueOf(ticks, order[..i], time, now) + DueOne(w, order[i], time, now)
  {
    assert order[..i + 1][..i] == order[..i];
  }

  function WalkOne(ticks: map<nat, Scheduled>, id: nat, time: real, now: Cron.Date): (m: map<nat, Scheduled>)
    requires id in ticks
    ensures m.Keys == ticks.Keys
  {
    ticks[id := Advanced(ticks[id], time, now).0]
  }

  function DueOne(ticks: map<nat, Scheduled>, id: nat, time: real, now: Cron.Date): seq<nat>
    requires id in ticks
  {
    if Advanced(ticks[id], time, now).1 then [id] else []
  }

  /** The ticks a walk over `order` leaves. */
  function Walked(ticks: map<nat, Scheduled>, order: seq<nat>, time: real, now: Cron.Date): (m: map<nat, Scheduled>)
    requires forall i :: 0 <= i < |order| ==> order[i] in ticks
    ensures m.Keys == ticks.Keys
  {
    if order == [] then ticks
    else WalkOne(Walked(ticks, order[..|order| - 1], time, now), order[|order| - 1], time, now)
  }

  /** The ticks the walk fires, in order. */
  function DueOf(ticks: map<nat, Scheduled>, order: seq<nat>, time: real, now: Cron.Date): seq<nat>
    requires forall i :: 0 <= i < |order| ==> order[i] in ticks
  {
    if order == [] then []
    else
      DueOf(ticks, order[..|order| - 1], time, now) +
      DueOne(Walked(ticks, order[..|order| - 1], time, now), order[|order| - 1], time, now)
  }

  /** A pass advances every registered tick exactly once from where it stood, and fires exactly those then due. */
  lemma {:induction false} APassAdvancesEachOnce(ticks: map<nat, Scheduled>, order: seq<nat>, time: real, now: Cron.Date)
    requires forall i :: 0 <= i < |order| ==> order[i] in ticks
    requires forall i, j :: 0 <= i < j < |order| ==> order[i] != order[j]
    ensures forall id :: id in ticks ==>
              Walked(ticks, order, time, now)[id] == if id in order then Advanced(ticks[id], time, now).0 else ticks[id]
    ensures forall id :: id in DueOf(ticks, order, time, now) <==> id in order && Advanced(ticks[id], time, now).1
    decreases |order|
  {
    if order != [] {
      var n := |order| - 1;
      var front := order[..n];
      APassAdvancesEachOnce(ticks, front, time, now);
      assert order == front + [order[n]] && order[n] !in front;
    }
  }
}
