/**
 Who asks for an outside call. The browser host gives up the slot of whichever turn runs, and does not ask whose work
 made the call: work of a turn that is already outside can give up the slot of the turn that runs now.

 The machine is that of `BrowserHostQueue` with the caller of every outside call.
 */
module BrowserCallers {
  import opened Wrappers
  import B = BrowserHostQueue

  /** `outside[t]`: turn `t` is inside an outside call of its own work, which gave its slot up. */
  datatype State = State(host: B.Host, outside: seq<bool>)

  datatype Action = Ask(caller: nat) | Other(a: B.Action)

  const Idle := State(B.Idle, [])

  function HostAction(a: Action): B.Action {
    if a.Ask? then B.Outside else a.a
  }

  /** The turn whose slot an outside call made now gives up. */
  function Lender(h: B.Host): Option<nat>
    requires B.ValidIds(h)
  {
    if h.running.Some? && h.turns[h.running.value].held then h.running else None
  }

  /** A call is made by work that has begun. */
  predicate Enabled(s: State, a: Action) {
    match a
    case Ask(c) => c < |s.host.turns| && s.host.turns[c].started
    case Other(b) => !b.Outside? && B.Enabled(s.host, b)
  }

  ghost predicate Inv(s: State) {
    B.Inv(s.host) && |s.outside| == |s.host.turns|
    && forall t :: 0 <= t < |s.outside| && s.outside[t] ==> !s.host.turns[t].held
  }

  /** Whether a turn is inside its own outside call after a step of the host to `n`. */
  function Outside(s: State, a: Action, n: B.Host, t: nat): bool
    requires B.ValidIds(s.host) && t < |n.turns|
  {
    !n.turns[t].held &&
    if a.Ask? && Lender(s.host) == Some(t) then a.caller == t else t < |s.outside| && s.outside[t]
  }

  function After(s: State, a: Action): (n: State)
    requires Inv(s)
    ensures Inv(n)
  {
    if !Enabled(s, a) then s
    else
      var h := B.After(s.host, HostAction(a));
      State(h, seq(|h.turns|, t requires 0 <= t < |h.turns| => Outside(s, a, h, t)))
  }

  function Play(s: State, actions: seq<Action>): (n: State)
    requires Inv(s)
    ensures Inv(n)
    decreases |actions|
  {
    if actions == [] then s else Play(After(s, actions[0]), actions[1..])
  }

  lemma IdleIsFine()
    ensures Inv(Idle) && WorkersHold(Idle)
  {
  }

  /** The turn's work has begun, is not over, and is not inside an outside call of its own. */
  predicate Works(s: State, t: nat) {
    t < |s.host.turns| && t < |s.outside| && s.host.turns[t].started && !s.host.turns[t].done && !s.outside[t]
  }

  ghost predicate WorkersHold(s: State) {
    forall t: nat :: Works(s, t) ==> s.host.turns[t].held
  }

  ghost predicate OneWorks(s: State) {
    forall t: nat, u: nat :: Works(s, t) && Works(s, u) ==> t == u
  }

  /** An outside call gives up its own turn's slot, or that of a turn whose work is over. */
  ghost predicate OwnStep(s: State, a: Action)
    requires Inv(s)
  {
    a.Ask? && Enabled(s, a) && Lender(s.host).Some? ==>
      a.caller == Lender(s.host).value || s.host.turns[Lender(s.host).value].done
  }

  ghost predicate Own(s: State, actions: seq<Action>)
    requires Inv(s)
    decreases |actions|
  {
    actions == [] || (OwnStep(s, actions[0]) && Own(After(s, actions[0]), actions[1..]))
  }

  // ---------------------------------------------------------------------------------------------
  // What a step does to the turns

  /** A round of the pump starts and fills turns and changes nothing else of them. */
  ghost predicate OnlyGrants(h: B.Host, n: B.Host) {
    && |n.turns| == |h.turns|
    && forall t :: 0 <= t < |h.turns| ==>
         n.turns[t] == h.turns[t] || (n.turns[t].held && n.turns[t].done == h.turns[t].done)
  }

  lemma RoundOnlyGrants(h: B.Host)
    requires B.ValidIds(h)
    ensures OnlyGrants(h, B.Next(h)) && OnlyGrants(h, B.Awaken(h))
  {
  }

  /** Turn `t` works on without the slot after a step only if it did before, or the step took the slot from it. */
  ghost predicate WorksOn(h: B.Host, n: B.Host, t: nat, taken: bool) {
    && |n.turns| >= |h.turns|
    && (t < |n.turns| && !n.turns[t].held && n.turns[t].started && !n.turns[t].done ==>
          t < |h.turns| && h.turns[t].started && !h.turns[t].done && (h.turns[t].held ==> taken))
  }

  lemma GrantsWorkOn(h: B.Host, p: B.Host, n: B.Host, t: nat)
    requires WorksOn(h, p, t, false) && OnlyGrants(p, n)
    ensures WorksOn(h, n, t, false)
  {
  }

  lemma ArrivalsWorkOn(h: B.Host, lane: B.Lane, t: nat)
    requires B.ValidIds(h)
    ensures WorksOn(h, B.Step(h, B.Arrive(lane)), t, false)
  {
    var p := B.Push(h.(turns := h.turns + [B.TurnState(lane, false, false, false, false)]), |h.turns|);
    RoundOnlyGrants(p);
    GrantsWorkOn(h, p, B.Awaken(p), t);
  }

  lemma ReturnsWorkOn(h: B.Host, u: nat, t: nat)
    requires B.ValidIds(h) && B.Enabled(h, B.Return(u))
    ensures WorksOn(h, B.Step(h, B.Return(u)), t, false)
  {
    var p := B.Push(h.(turns := h.turns[u := h.turns[u].(away := false)]), u);
    RoundOnlyGrants(p);
    GrantsWorkOn(h, p, B.Awaken(p), t);
  }

  lemma ReleasesWorkOn(h: B.Host, b: B.Action, t: nat)
    requires B.ValidIds(h) && B.Enabled(h, b) && (b.Outside? || b.Settle?)
    ensures WorksOn(h, B.Step(h, b), t, b.Outside? && h.running == Some(t))
  {
  }

  /** Only an outside call takes the slot from a turn whose work goes on, and only a grant begins work. */
  lemma TurnsAfter(h: B.Host, b: B.Action, t: nat)
    requires B.ValidIds(h) && B.Enabled(h, b)
    ensures WorksOn(h, B.Step(h, b), t, b.Outside? && h.running == Some(t))
  {
    match b {
      case Arrive(lane) => ArrivalsWorkOn(h, lane, t);
      case Return(u) => ReturnsWorkOn(h, u, t);
      case Resume =>
        RoundOnlyGrants(h);
        GrantsWorkOn(h, h, B.Next(h), t);
      case _ => ReleasesWorkOn(h, b, t);
    }
  }

  lemma OwnStepsKeepWorkers(s: State, a: Action)
    requires Inv(s) && WorkersHold(s) && OwnStep(s, a)
    ensures WorkersHold(After(s, a))
  {
    if Enabled(s, a) {
      var n := After(s, a);
      forall t: nat | Works(n, t) ensures n.host.turns[t].held {
        TurnsAfter(s.host, HostAction(a), t);
      }
    }
  }

  /** The slot of a turn that still works is given up by another's call: it goes on working without. */
  lemma OthersStepsBreakIt(s: State, a: Action) returns (t: nat)
    requires Inv(s) && !OwnStep(s, a)
    ensures var n := After(s, a);
            Works(n, t) && !n.host.turns[t].held && n.host.turns[t].away && n.host.running.None?
  {
    t := Lender(s.host).value;
    assert !Outside(s, a, After(s, a).host, t);
  }

  lemma HoldersAreOne(s: State)
    requires Inv(s) && WorkersHold(s)
    ensures OneWorks(s)
  {
  }

  // ---------------------------------------------------------------------------------------------
  // A second turn comes to work

  lemma {:induction false} PlayMore(s: State, a: Action, rest: seq<Action>)
    requires Inv(s)
    ensures Play(s, [a] + rest) == Play(After(s, a), rest)
    ensures Own(s, [a] + rest) <==> OwnStep(s, a) && Own(After(s, a), rest)
  {
    assert ([a] + rest)[1..] == rest;
  }

  /** The state in which `t` works although its slot was given up. */
  ghost predicate Robbed(s: State, t: nat) {
    Inv(s) && Works(s, t) && !s.host.turns[t].held && s.host.turns[t].away && s.host.running.None?
  }

  lemma ANewTurnWorks(s: State, t: nat) returns (rest: seq<Action>)
    requires Robbed(s, t) && s.host.foreground == [] && s.host.background == []
    ensures Own(s, rest) && !OneWorks(Play(s, rest))
  {
    var arrive, resume := Other(B.Arrive(B.Foreground)), Other(B.Resume);
    var u := |s.host.turns|;
    rest := [arrive] + ([resume] + []);
    var n := After(s, arrive);
    var m := After(n, resume);
    PlayMore(s, arrive, [resume] + []);
    PlayMore(n, resume, []);
    NewTurnAfter(s, t, n, m);
    assert Works(m, t) && Works(m, u) && t != u;
  }

  lemma NewTurnAfter(s: State, t: nat, n: State, m: State)
    requires Robbed(s, t) && s.host.foreground == [] && s.host.background == []
    requires n == After(s, Other(B.Arrive(B.Foreground))) && m == After(n, Other(B.Resume))
    ensures Works(m, t) && Works(m, |s.host.turns|)
  {
  }

  /** The next waiting turn is granted; when its work is over already, its own call gives the slot up again. */
  lemma {:induction false} AnotherComesToWork(s: State, t: nat) returns (rest: seq<Action>)
    requires Robbed(s, t)
    ensures Own(s, rest) && !OneWorks(Play(s, rest))
    decreases |s.host.foreground| + |s.host.background|
  {
    if s.host.foreground == [] && s.host.background == [] {
      rest := ANewTurnWorks(s, t);
    } else {
      var resume := Other(B.Resume);
      var n := After(s, resume);
      var u := NextGranted(s, t);
      if !n.host.turns[u].done {
        rest := [resume] + [];
        PlayMore(s, resume, []);
        assert Works(n, t) && Works(n, u) && t != u;
      } else {
        var m := After(n, Ask(u));
        GivesItUp(n, t, u);
        var more := AnotherComesToWork(m, t);
        rest := [resume] + ([Ask(u)] + more);
        PlayMore(s, resume, [Ask(u)] + more);
        PlayMore(n, Ask(u), more);
      }
    }
  }

  lemma NextGranted(s: State, t: nat) returns (u: nat)
    requires Robbed(s, t) && (s.host.foreground != [] || s.host.background != [])
    ensures var n := After(s, Other(B.Resume));
            && u < |n.host.turns| && n.host.running == Some(u) && u != t
            && n.host.turns[u].held && n.host.turns[u].started && !n.outside[u]
            && Works(n, t) && !n.host.turns[t].held && n.host.turns[t].away
            && |n.host.foreground| + |n.host.background| < |s.host.foreground| + |s.host.background|
  {
    u := if s.host.foreground != [] then s.host.foreground[0] else s.host.background[0];
  }

  lemma GivesItUp(n: State, t: nat, u: nat)
    requires Inv(n) && u < |n.host.turns| && n.host.running == Some(u) && u != t && n.host.turns[u].started
    requires Works(n, t) && !n.host.turns[t].held && n.host.turns[t].away
    ensures var m := After(n, Ask(u));
            && Robbed(m, t) && OwnStep(n, Ask(u))
            && m.host.foreground == n.host.foreground && m.host.background == n.host.background
  {
  }

  // ---------------------------------------------------------------------------------------------
  // The failing run: a request outside asks again while the next one runs

  const One := State(B.Alone, [false])
  const Gone := State(B.Left, [true])
  const Next := State(
    B.Left.(turns := B.Left.turns + [B.TurnState(B.Foreground, false, false, false, false)], foreground := [1], queuedForeground := [0, 1]),
    [true, false])
  const Two := State(
    B.Host([], [], true, false, Some(1),
           [B.TurnState(B.Foreground, true, false, false, true), B.TurnState(B.Foreground, true, true, false, false)],
           [0, 1], [], [B.SlotGrant(0, B.Foreground, 0), B.SlotGrant(1, B.Foreground, 0)]),
    [true, false])

  lemma AfterIs(s: State, a: Action, n: State)
    requires Inv(s) && Enabled(s, a) && B.Step(s.host, HostAction(a)) == n.host && |n.outside| == |n.host.turns|
    requires forall t :: 0 <= t < |n.outside| ==> n.outside[t] == Outside(s, a, n.host, t)
    ensures Inv(n) && After(s, a) == n
  {
    B.StepKeepsInv(s.host, HostAction(a));
    assert After(s, a).outside == n.outside;
  }

  lemma OneMore(s: State, a: Action, n: State, rest: seq<Action>)
    requires Inv(s) && After(s, a) == n
    ensures Inv(n) && Play(s, [a] + rest) == Play(n, rest)
  {
    PlayMore(s, a, rest);
  }

  lemma FirstComes()
    requires Inv(Idle)
    ensures Inv(One) && After(Idle, Other(B.Arrive(B.Foreground))) == One
  {
    B.FirstArrival();
    AfterIs(Idle, Other(B.Arrive(B.Foreground)), One);
  }

  lemma FirstGoes()
    requires Inv(One)
    ensures Inv(Gone) && After(One, Ask(0)) == Gone
  {
    B.FirstOutside();
    AfterIs(One, Ask(0), Gone);
  }

  lemma SecondComes()
    requires Inv(Gone)
    ensures Inv(Next) && After(Gone, Other(B.Arrive(B.Foreground))) == Next
  {
    AfterIs(Gone, Other(B.Arrive(B.Foreground)), Next);
  }

  lemma SecondRuns()
    requires Inv(Next)
    ensures Inv(Two) && After(Next, Other(B.Resume)) == Two
  {
    assert B.Next(Next.host).turns == Two.host.turns;
    assert B.Next(Next.host).grants == Two.host.grants;
    AfterIs(Next, Other(B.Resume), Two);
  }

  function TwoRequests(rest: seq<Action>): seq<Action> {
    [Other(B.Arrive(B.Foreground))] + ([Ask(0)] + ([Other(B.Arrive(B.Foreground))] + ([Other(B.Resume)] + rest)))
  }

  lemma TwoIsReached(rest: seq<Action>)
    ensures Inv(Idle) && Inv(Two) && Play(Idle, TwoRequests(rest)) == Play(Two, rest)
  {
    var arrive, resume := Other(B.Arrive(B.Foreground)), Other(B.Resume);
    var last := [resume] + rest;
    var second := [arrive] + last;
    IdleIsFine();
    FirstComes();
    OneMore(Idle, arrive, One, [Ask(0)] + second);
    FirstGoes();
    OneMore(One, Ask(0), Gone, second);
    SecondComes();
    OneMore(Gone, arrive, Next, last);
    SecondRuns();
    OneMore(Next, resume, Two, rest);
  }

  // ---------------------------------------------------------------------------------------------
  // Exactly when

  lemma {:induction false} OwnRunsKeepWorkers(s: State, actions: seq<Action>)
    requires Inv(s) && WorkersHold(s) && Own(s, actions)
    ensures WorkersHold(Play(s, actions))
    decreases |actions|
  {
    if actions != [] {
      OwnStepsKeepWorkers(s, actions[0]);
      OwnRunsKeepWorkers(After(s, actions[0]), actions[1..]);
    }
  }

  lemma {:induction false} OwnInParts(s: State, a: seq<Action>, b: seq<Action>)
    requires Inv(s)
    ensures Play(s, a + b) == Play(Play(s, a), b)
    ensures Own(s, a + b) <==> Own(s, a) && Own(Play(s, a), b)
    decreases |a|
  {
    if a == [] {
      assert a + b == b;
    } else {
      assert (a + b)[1..] == a[1..] + b;
      OwnInParts(After(s, a[0]), a[1..], b);
    }
  }

  /** A run that goes on so from `s` with two turns working. */
  ghost predicate Crowds(s: State, rest: seq<Action>)
    requires Inv(s)
  {
    Own(s, rest) && !OneWorks(Play(s, rest))
  }

  lemma OthersStepsCrowd(s: State, a: Action) returns (rest: seq<Action>)
    requires Inv(s) && !OwnStep(s, a)
    ensures Crowds(After(s, a), rest)
  {
    var t := OthersStepsBreakIt(s, a);
    rest := AnotherComesToWork(After(s, a), t);
  }

  lemma AskingAgainRobs(s: State)
    requires Inv(s) && s == Two
    ensures !OwnStep(s, Ask(0)) && Works(s, 1)
  {
  }

  lemma CrowdsAfter(s: State) returns (rest: seq<Action>)
    requires Inv(s) && s == Two
    ensures !OwnStep(s, Ask(0)) && Crowds(After(s, Ask(0)), rest)
  {
    AskingAgainRobs(s);
    rest := OthersStepsCrowd(s, Ask(0));
  }

  /** The first request asks again from outside: the second loses the slot and works on, and a third can join it. */
  lemma AnotherOutsideCallRobsTheRunning(s: State) returns (rest: seq<Action>)
    requires Inv(Idle) && s == Play(Idle, TwoRequests([]))
    ensures !OwnStep(s, Ask(0)) && Crowds(After(s, Ask(0)), rest)
  {
    TwoIsReached([]);
    rest := CrowdsAfter(s);
  }

  lemma BreaksLater(s: State, a: Action, before: seq<Action>, rest: seq<Action>)
    requires Inv(s) && Crowds(Play(After(s, a), before), rest)
    ensures Crowds(Play(s, [a] + before), rest)
  {
    PlayMore(s, a, before);
  }

  /** After the first call that gives up the slot of another turn's unfinished work, two turns can come to work. */
  lemma {:induction false} OthersRunsBreakIt(s: State, actions: seq<Action>) returns (before: seq<Action>, rest: seq<Action>)
    requires Inv(s) && !Own(s, actions)
    ensures before <= actions && Crowds(Play(s, before), rest)
    decreases |actions|
  {
    var a, later := actions[0], actions[1..];
    if OwnStep(s, a) {
      before, rest := OthersRunsBreakIt(After(s, a), later);
    } else {
      before := [];
      rest := OthersStepsCrowd(s, a);
    }
    BreaksLater(s, a, before, rest);
    before := [a] + before;
  }

  lemma OwnCutShort(s: State, actions: seq<Action>, before: seq<Action>)
    requires Inv(s) && Own(s, actions) && before <= actions
    ensures Own(s, before)
  {
    assert actions == before + actions[|before|..];
    OwnInParts(s, before, actions[|before|..]);
  }

  lemma OwnRunsCrowdNever(s: State, rest: seq<Action>)
    requires Inv(s) && WorkersHold(s)
    ensures !Crowds(s, rest)
  {
    if Own(s, rest) {
      OwnRunsKeepWorkers(s, rest);
      HoldersAreOne(Play(s, rest));
    }
  }

  ghost predicate CrowdsFrom(s: State, actions: seq<Action>, before: seq<Action>, rest: seq<Action>)
    requires Inv(s)
  {
    before <= actions && Crowds(Play(s, before), rest)
  }

  /** Somewhere along the run two turns can come to work, though every later call is of its own work. */
  ghost predicate CanCrowd(s: State, actions: seq<Action>)
    requires Inv(s)
  {
    exists before, rest :: CrowdsFrom(s, actions, before, rest)
  }

  lemma NeverCrowded(s: State, actions: seq<Action>, before: seq<Action>, rest: seq<Action>)
    requires Inv(s) && WorkersHold(s) && Own(s, actions)
    ensures !CrowdsFrom(s, actions, before, rest)
  {
    if before <= actions {
      OwnCutShort(s, actions, before);
      OwnRunsKeepWorkers(s, before);
      OwnRunsCrowdNever(Play(s, before), rest);
    }
  }

  lemma OthersCrowd(s: State, actions: seq<Action>)
    requires Inv(s) && !Own(s, actions)
    ensures CanCrowd(s, actions)
  {
    var before, rest := OthersRunsBreakIt(s, actions);
    assert CrowdsFrom(s, actions, before, rest);
  }

  /**
   From an idle host, or any on which whoever works holds the slot: at most one turn works outside an outside call,
   however the run is cut short and goes on, exactly when every outside call of the run gives up the slot of its own
   work, or of work that is over.
   */
  lemma OneWorksExactlyWhenOwn(s: State, actions: seq<Action>)
    requires Inv(s) && WorkersHold(s)
    ensures Own(s, actions) <==> !CanCrowd(s, actions)
  {
    if Own(s, actions) {
      if CanCrowd(s, actions) {
        var before, rest :| CrowdsFrom(s, actions, before, rest);
        NeverCrowded(s, actions, before, rest);
      }
    } else {
      OthersCrowd(s, actions);
    }
  }
}
