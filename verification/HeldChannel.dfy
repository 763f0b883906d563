/**
 A channel that keeps what arrives until something listens, then hands it over.

 Listeners are distinct closures, so each listens once; the hand-over of what was kept is one step.
 */
module HeldChannel {
  import opened Wrappers

  type Message = string

  datatype Handed = Handed(listener: nat, message: Message)

  /** `since` is where in `arrived` each listener's messages begin. */
  datatype State = State(
    held: Option<seq<Message>>, listeners: seq<nat>,
    handed: seq<Handed>, arrived: seq<Message>, since: map<nat, nat>)

  datatype Action = Arrive(message: Message) | Listen(listener: nat) | Leave(listener: nat)

  const START := State(Some([]), [], [], [], map[])

  function HandOne(listeners: seq<nat>, m: Message): seq<Handed> {
    seq(|listeners|, i requires 0 <= i < |listeners| => Handed(listeners[i], m))
  }

  function HandEach(listeners: seq<nat>, ms: seq<Message>): seq<Handed> {
    if ms == [] then [] else HandEach(listeners, ms[..|ms| - 1]) + HandOne(listeners, ms[|ms| - 1])
  }

  function Without(s: seq<nat>, l: nat): seq<nat> {
    if s == [] then [] else if s[0] == l then s[1..] else [s[0]] + Without(s[1..], l)
  }

  predicate Enabled(s: State, a: Action) {
    a.Listen? ==> a.listener !in s.since
  }

  function Step(s: State, a: Action): State {
    match a
    case Arrive(m) =>
      var t := s.(arrived := s.arrived + [m]);
      if s.held.Some? then t.(held := Some(s.held.value + [m])) else t.(handed := s.handed + HandOne(s.listeners, m))
    case Listen(l) =>
      var t := s.(listeners := s.listeners + [l]);
      if s.held.Some?
      then t.(held := None, handed := s.handed + HandEach(t.listeners, s.held.value), since := s.since[l := 0])
      else t.(since := s.since[l := |s.arrived|])
    case Leave(l) => s.(listeners := Without(s.listeners, l))
  }

  function Play(s: State, actions: seq<Action>): Option<State>
    decreases |actions|
  {
    if actions == [] then Some(s)
    else if Enabled(s, actions[0]) then Play(Step(s, actions[0]), actions[1..])
    else None
  }

  /** What one listener was handed, in order. */
  function HandedTo(handed: seq<Handed>, l: nat): seq<Message> {
    if handed == [] then []
    else
      var n := |handed| - 1;
      HandedTo(handed[..n], l) + if handed[n].listener == l then [handed[n].message] else []
  }

  predicate Distinct(s: seq<nat>) {
    forall i, j :: 0 <= i < j < |s| ==> s[i] != s[j]
  }

  predicate Complete(s: State, l: nat) {
    l in s.since && s.since[l] <= |s.arrived| && HandedTo(s.handed, l) == s.arrived[s.since[l]..]
  }

  predicate Inv(s: State) {
    && Distinct(s.listeners)
    && (s.held.Some? ==> s.held.value == s.arrived && s.listeners == [] && s.handed == [] && s.since == map[])
    && (forall l :: l in s.listeners ==> Complete(s, l))
    && (forall i :: 0 <= i < |s.handed| ==> s.handed[i].listener in s.since)
  }

  lemma {:induction false} HandedToAppend(a: seq<Handed>, b: seq<Handed>, l: nat)
    ensures HandedTo(a + b, l) == HandedTo(a, l) + HandedTo(b, l)
    decreases |b|
  {
    if b == [] {
      assert a + b == a;
    } else {
      var n := |b| - 1;
      HandedToAppend(a, b[..n], l);
      assert (a + b)[..|a + b| - 1] == a + b[..n];
    }
  }

  lemma {:induction false} HandOneTo(listeners: seq<nat>, m: Message, l: nat)
    requires Distinct(listeners)
    ensures HandedTo(HandOne(listeners, m), l) == if l in listeners then [m] else []
    decreases |listeners|
  {
    if listeners != [] {
      var n := |listeners| - 1;
      HandOneTo(listeners[..n], m, l);
      assert HandOne(listeners, m)[..n] == HandOne(listeners[..n], m);
      assert listeners == listeners[..n] + [listeners[n]] && listeners[n] !in listeners[..n];
    }
  }

  lemma OneMoreHanded(listeners: seq<nat>, ms: seq<Message>, l: nat)
    requires Distinct(listeners) && ms != []
    ensures HandedTo(HandEach(listeners, ms), l) ==
            HandedTo(HandEach(listeners, ms[..|ms| - 1]), l) + if l in listeners then [ms[|ms| - 1]] else []
  {
    var n := |ms| - 1;
    HandOneTo(listeners, ms[n], l);
    HandedToAppend(HandEach(listeners, ms[..n]), HandOne(listeners, ms[n]), l);
  }

  lemma {:induction false} HandEachTo(listeners: seq<nat>, ms: seq<Message>, l: nat)
    requires Distinct(listeners)
    ensures HandedTo(HandEach(listeners, ms), l) == if l in listeners then ms else []
    decreases |ms|
  {
    if ms != [] {
      var n := |ms| - 1;
      HandEachTo(listeners, ms[..n], l);
      OneMoreHanded(listeners, ms, l);
      assert ms == ms[..n] + [ms[n]];
    }
  }

  lemma {:induction false} WithoutKeeps(s: seq<nat>, l: nat)
    requires Distinct(s)
    ensures Distinct(Without(s, l)) && forall x :: x in Without(s, l) <==> x in s && x != l
  {
    if s != [] {
      WithoutKeeps(s[1..], l);
      assert s == [s[0]] + s[1..] && s[0] !in s[1..];
    }
  }

  lemma {:induction false} StrangersAreHandedNothing(handed: seq<Handed>, l: nat)
    requires forall i :: 0 <= i < |handed| ==> handed[i].listener != l
    ensures HandedTo(handed, l) == []
  {
    if handed != [] { StrangersAreHandedNothing(handed[..|handed| - 1], l); }
  }

  lemma {:induction false} HandedAreListeners(listeners: seq<nat>, ms: seq<Message>)
    ensures forall i :: 0 <= i < |HandEach(listeners, ms)| ==> HandEach(listeners, ms)[i].listener in listeners
    decreases |ms|
  {
    if ms != [] { HandedAreListeners(listeners, ms[..|ms| - 1]); }
  }

  lemma ArriveKeepsInv(s: State, m: Message)
    requires Inv(s)
    ensures Inv(Step(s, Arrive(m)))
  {
    var t := Step(s, Arrive(m));
    if s.held.None? {
      forall l | l in t.listeners ensures Complete(t, l) {
        assert Complete(s, l);
        HandOneTo(s.listeners, m, l);
        HandedToAppend(s.handed, HandOne(s.listeners, m), l);
        assert t.arrived[s.since[l]..] == s.arrived[s.since[l]..] + [m];
      }
      forall i | 0 <= i < |t.handed| ensures t.handed[i].listener in t.since {
        if |s.handed| <= i {
          assert t.handed[i] == HandOne(s.listeners, m)[i - |s.handed|];
          assert Complete(s, t.handed[i].listener);
        }
      }
    }
  }

  lemma FirstListenHands(s: State, l: nat)
    requires Inv(s) && s.held.Some?
    ensures var t := Step(s, Listen(l));
            t == State(None, [l], HandEach([l], s.arrived), s.arrived, map[l := 0])
  {
    assert [] + [l] == [l];
    assert [] + HandEach([l], s.arrived) == HandEach([l], s.arrived);
  }

  lemma FirstIsComplete(t: State, l: nat)
    requires t.held.None? && t.listeners == [l] && t.since == map[l := 0]
    requires HandedTo(t.handed, l) == t.arrived
    requires forall i :: 0 <= i < |t.handed| ==> t.handed[i].listener == l
    ensures Inv(t)
  {
    assert t.arrived[0..] == t.arrived;
    assert Complete(t, l);
  }

  lemma OneIsHandedAll(l: nat, ms: seq<Message>)
    ensures HandedTo(HandEach([l], ms), l) == ms
    ensures forall i :: 0 <= i < |HandEach([l], ms)| ==> HandEach([l], ms)[i].listener == l
  {
    HandEachTo([l], ms, l);
    HandedAreListeners([l], ms);
  }

  lemma FirstListenKeepsInv(s: State, l: nat)
    requires Inv(s) && s.held.Some?
    ensures Inv(Step(s, Listen(l)))
  {
    FirstListenHands(s, l);
    OneIsHandedAll(l, s.arrived);
    FirstIsComplete(Step(s, Listen(l)), l);
  }

  lemma LaterListenKeepsInv(s: State, l: nat)
    requires Inv(s) && s.held.None? && l !in s.since
    ensures Inv(Step(s, Listen(l)))
  {
    var t := Step(s, Listen(l));
    StrangersAreHandedNothing(s.handed, l);
    forall x | x in s.listeners ensures x != l && Complete(t, x) {
      assert Complete(s, x);
    }
    assert Complete(t, l);
    assert forall i :: 0 <= i < |s.listeners| ==> s.listeners[i] in s.listeners;
  }

  lemma StepKeepsInv(s: State, a: Action)
    requires Inv(s) && Enabled(s, a)
    ensures Inv(Step(s, a))
  {
    match a
    case Arrive(m) => ArriveKeepsInv(s, m);
    case Listen(l) => if s.held.Some? { FirstListenKeepsInv(s, l); } else { LaterListenKeepsInv(s, l); }
    case Leave(l) =>
      WithoutKeeps(s.listeners, l);
      forall x | x in Without(s.listeners, l) ensures Complete(Step(s, a), x) {
        assert Complete(s, x);
      }
  }

  lemma {:induction false} PlayKeepsInv(s: State, actions: seq<Action>)
    requires Inv(s) && Play(s, actions).Some?
    ensures Inv(Play(s, actions).value)
    decreases |actions|
  {
    if actions != [] {
      StepKeepsInv(s, actions[0]);
      PlayKeepsInv(Step(s, actions[0]), actions[1..]);
    }
  }

  lemma {:induction false} FirstSinceStays(s: State, actions: seq<Action>, l: nat)
    requires l in s.since && s.since[l] == 0
    requires s.held.None? && Play(s, actions).Some?
    ensures var t := Play(s, actions).value; l in t.since && t.since[l] == 0
    decreases |actions|
  {
    if actions != [] {
      FirstSinceStays(Step(s, actions[0]), actions[1..], l);
    }
  }

  /** Whoever is listening has been handed, once each and in order, all that arrived since it began to listen. */
  lemma ListenersMissNothing(actions: seq<Action>, l: nat)
    requires Play(START, actions).Some? && l in Play(START, actions).value.listeners
    ensures Complete(Play(START, actions).value, l)
  {
    PlayKeepsInv(START, actions);
  }

  lemma HandedOnWithout(s: State, a: Action, l: nat)
    requires Inv(s) && Enabled(s, a) && l in s.since && l !in s.listeners
    ensures var n := Step(s, a); l in n.since && l !in n.listeners && HandedTo(n.handed, l) == HandedTo(s.handed, l)
  {
    match a
    case Arrive(m) =>
      if s.held.None? {
        HandOneTo(s.listeners, m, l);
        HandedToAppend(s.handed, HandOne(s.listeners, m), l);
      }
    case Listen(x) =>
    case Leave(x) => WithoutKeeps(s.listeners, x);
  }

  lemma {:induction false} HandedNoMore(s: State, actions: seq<Action>, l: nat)
    requires Inv(s) && l in s.since && l !in s.listeners && Play(s, actions).Some?
    ensures HandedTo(Play(s, actions).value.handed, l) == HandedTo(s.handed, l)
    decreases |actions|
  {
    if actions != [] {
      HandedOnWithout(s, actions[0], l);
      StepKeepsInv(s, actions[0]);
      HandedNoMore(Step(s, actions[0]), actions[1..], l);
    }
  }

  /** Whoever leaves is handed nothing more, whatever arrives, and the others keep their turns. */
  lemma LeavingEndsTheHanding(s: State, l: nat, later: seq<Action>)
    requires Inv(s) && l in s.listeners && Play(s, [Leave(l)] + later).Some?
    ensures var n := Play(s, [Leave(l)] + later).value; HandedTo(n.handed, l) == HandedTo(s.handed, l)
    ensures exists i :: 0 <= i < |s.listeners| && s.listeners[i] == l &&
              Step(s, Leave(l)).listeners == s.listeners[..i] + s.listeners[i + 1..]
  {
    assert ([Leave(l)] + later)[1..] == later;
    assert Complete(s, l);
    StepKeepsInv(s, Leave(l));
    WithoutKeeps(s.listeners, l);
    HandedNoMore(Step(s, Leave(l)), later, l);
    var i := WithoutAt(s.listeners, l);
  }

  lemma {:induction false} WithoutAt(s: seq<nat>, l: nat) returns (i: nat)
    requires l in s
    ensures i < |s| && s[i] == l && Without(s, l) == s[..i] + s[i + 1..]
    decreases |s|
  {
    if s[0] == l {
      i := 0;
    } else {
      var j := WithoutAt(s[1..], l);
      i := j + 1;
      assert s[..i] == [s[0]] + s[1..][..j];
    }
  }

  /** A new listener comes after those before it. */
  lemma NewListenersComeLast(s: State, l: nat)
    ensures var n := Step(s, Listen(l)).listeners; s.listeners < n && n[|n| - 1] == l && |n| == |s.listeners| + 1
  {
  }

  predicate AllArrivals(actions: seq<Action>) {
    forall i :: 0 <= i < |actions| ==> actions[i].Arrive?
  }

  lemma {:induction false} EarlyIsHeld(s: State, early: seq<Action>)
    requires AllArrivals(early) && s.held.Some?
    ensures Play(s, early).Some?
    ensures Play(s, early).value.held.Some? && Play(s, early).value.since == s.since
    decreases |early|
  {
    if early != [] { EarlyIsHeld(Step(s, early[0]), early[1..]); }
  }

  lemma {:induction false} PlayInParts(s: State, a: seq<Action>, b: seq<Action>)
    requires Play(s, a).Some?
    ensures Play(s, a + b) == Play(Play(s, a).value, b)
    decreases |a|
  {
    if a == [] {
      assert a + b == b;
    } else {
      assert (a + b)[1..] == a[1..] + b;
      PlayInParts(Step(s, a[0]), a[1..], b);
    }
  }

  /** The first listener, however late, is handed everything that ever arrived, for as long as it listens. */
  lemma TheFirstListenerGetsEverything(early: seq<Action>, l: nat, later: seq<Action>)
    requires AllArrivals(early) && Play(START, early + ([Listen(l)] + later)).Some?
    requires l in Play(START, early + ([Listen(l)] + later)).value.listeners
    ensures var s := Play(START, early + ([Listen(l)] + later)).value; HandedTo(s.handed, l) == s.arrived
  {
    var rest := [Listen(l)] + later;
    EarlyIsHeld(START, early);
    PlayInParts(START, early, rest);
    var s := Play(START, early).value;
    assert rest[1..] == later;
    FirstSinceStays(Step(s, Listen(l)), later, l);
    ListenersMissNothing(early + rest, l);
    var t := Play(START, early + rest).value;
    assert t.arrived[0..] == t.arrived;
  }

  // ---------------------------------------------------------------------------------------------
  // The wrapper

  class Holder {
    var held: Option<seq<Message>>
    var listeners: seq<nat>
    ghost var handed: seq<Handed>
    ghost var arrived: seq<Message>
    ghost var since: map<nat, nat>

    ghost function Abstract(): State
      reads this
    {
      State(held, listeners, handed, arrived, since)
    }

    constructor ()
      ensures Abstract() == START
    {
      held, listeners, handed, arrived, since := Some([]), [], [], [], map[];
    }

    method Hand(m: Message)
      modifies `handed
      ensures handed == old(handed) + HandOne(listeners, m)
    {
      for i := 0 to |listeners|
        invariant handed == old(handed) + HandOne(listeners, m)[..i]
      {
        handed := handed + [Handed(listeners[i], m)];
      }
    }

    method OnMessage(m: Message)
      modifies `held, `handed, `arrived
      ensures Abstract() == Step(old(Abstract()), Arrive(m))
    {
      arrived := arrived + [m];
      if held.Some? { held := Some(held.value + [m]); } else { Hand(m); }
    }

    method Subscribe(l: nat)
      modifies this
      ensures Abstract() == Step(old(Abstract()), Listen(l))
    {
      listeners := listeners + [l];
      if held.Some? {
        var early := held.value;
        held := None;
        since := since[l := 0];
        assert HandEach(listeners, early[..0]) == [];
        for i := 0 to |early|
          invariant held.None? && listeners == old(listeners) + [l] && arrived == old(arrived) && since == old(since)[l := 0]
          invariant handed == old(handed) + HandEach(listeners, early[..i])
        {
          assert early[..i + 1][..i] == early[..i];
          Hand(early[i]);
        }
        assert early[..|early|] == early;
      } else {
        since := since[l := |arrived|];
      }
    }

    method Unsubscribe(l: nat)
      modifies `listeners
      ensures Abstract() == Step(old(Abstract()), Leave(l))
    {
      listeners := Without(listeners, l);
    }
  }
}
