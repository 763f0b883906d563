/**
 The event bus: who an event is delivered to, and the depth breaker that ends circular chains.

 A listener is known by a number.  What it emits when called may depend on everything delivered so far; it does
 not subscribe or unsubscribe anyone.  Exceptions a listener throws are caught, so a call always returns.
 */
module EventBus {
  import opened Wrappers

  /** An emit: the event's type and the routing key it may carry. */
  datatype Event = Event(kind: string, routingKey: Option<string>)

  /** What happened, in order: a listener was called, at the depth it then was, or an event was dropped. */
  datatype Entry = Called(depth: int, listener: nat, event: Event) | Dropped(event: Event)

  /** What a listener emits when it is handed an event, given all that happened before. */
  type Script = (nat, Event, seq<Entry>) -> seq<Event>

  datatype Bus = Bus(listeners: map<string, seq<nat>>, maxDepth: int, script: Script)

  const WILDCARD := "*"

  function On(listeners: map<string, seq<nat>>, kind: string): seq<nat> {
    if kind in listeners then listeners[kind] else []
  }

  function Elements(s: seq<nat>): set<nat> {
    set l | l in s
  }

  /** The listeners still to call when those `seen` are passed over. */
  function Skip(s: seq<nat>, seen: set<nat>): seq<nat> {
    if s == [] then []
    else if s[0] in seen then Skip(s[1..], seen)
    else [s[0]] + Skip(s[1..], seen + {s[0]})
  }

  function Primary(b: Bus, e: Event): seq<nat> {
    On(b.listeners, if e.routingKey.Some? then e.routingKey.value else e.kind)
  }

  function Secondary(b: Bus, e: Event): seq<nat> {
    if e.routingKey.Some? && e.routingKey.value != e.kind then On(b.listeners, e.kind) else []
  }

  /** Those subscribed under the routing key or the type. */
  function Keyed(b: Bus, e: Event): seq<nat> {
    Skip(Primary(b, e), {}) + Skip(Secondary(b, e), Elements(Primary(b, e)))
  }

  function Wild(b: Bus, e: Event): seq<nat> {
    if e.kind == WILDCARD then [] else On(b.listeners, WILDCARD)
  }

  // ---------------------------------------------------------------------------------------------
  // What one emit leads to

  function Room(b: Bus, depth: int): nat {
    if depth < b.maxDepth then b.maxDepth - depth else 0
  }

  /** Everything that has happened once `e`, emitted at `depth`, has been dealt with. */
  function Emitted(b: Bus, depth: int, e: Event, log: seq<Entry>): seq<Entry>
    decreases Room(b, depth), 0, 0
  {
    if depth >= b.maxDepth then log + [Dropped(e)]
    else CallEach(b, depth + 1, e, Keyed(b, e) + Wild(b, e), log)
  }

  function CallEach(b: Bus, depth: int, e: Event, targets: seq<nat>, log: seq<Entry>): seq<Entry>
    decreases Room(b, depth), 2, |targets|
  {
    if targets == [] then log
    else CallEach(b, depth, e, targets[1..], CallOne(b, depth, e, targets[0], log))
  }

  function CallOne(b: Bus, depth: int, e: Event, listener: nat, log: seq<Entry>): seq<Entry>
    decreases Room(b, depth), 2, 0
  {
    var called := log + [Called(depth, listener, e)];
    EmitEach(b, depth, b.script(listener, e, called), called)
  }

  function EmitEach(b: Bus, depth: int, events: seq<Event>, log: seq<Entry>): seq<Entry>
    decreases Room(b, depth), 1, |events|
  {
    if events == [] then log
    else EmitEach(b, depth, events[1..], Emitted(b, depth, events[0], log))
  }

  /** The calls made at one depth. */
  function AtDepth(log: seq<Entry>, depth: int): seq<Entry> {
    if log == [] then []
    else (if log[0].Called? && log[0].depth == depth then [log[0]] else []) + AtDepth(log[1..], depth)
  }

  /** Every call happened deeper than `depth` and no deeper than the limit. */
  predicate Between(log: seq<Entry>, depth: int, maxDepth: int) {
    forall i :: 0 <= i < |log| && log[i].Called? ==> depth < log[i].depth <= maxDepth
  }

  function Calls(depth: int, e: Event, targets: seq<nat>): (c: seq<Entry>)
    ensures |c| == |targets| && forall i :: 0 <= i < |c| ==> c[i] == Called(depth, targets[i], e)
  {
    seq(|targets|, i requires 0 <= i < |targets| => Called(depth, targets[i], e))
  }

  lemma {:induction false} AtDepthAppend(a: seq<Entry>, b: seq<Entry>, depth: int)
    ensures AtDepth(a + b, depth) == AtDepth(a, depth) + AtDepth(b, depth)
  {
    if a == [] {
      assert a + b == b;
    } else {
      assert (a + b)[1..] == a[1..] + b;
      AtDepthAppend(a[1..], b, depth);
    }
  }

  lemma {:induction false} NoneAtDepth(log: seq<Entry>, depth: int, maxDepth: int)
    requires Between(log, depth, maxDepth)
    ensures AtDepth(log, depth) == []
  {
    if log != [] { NoneAtDepth(log[1..], depth, maxDepth); }
  }

  lemma JoinBetween(log: seq<Entry>, a: seq<Entry>, c: seq<Entry>, depth: int, maxDepth: int)
    requires Between(a, depth, maxDepth) && Between(c, depth, maxDepth)
    ensures Between(a + c, depth, maxDepth) && log + a + c == log + (a + c)
  {
  }

  lemma {:induction false} EmittedAdds(b: Bus, depth: int, e: Event, log: seq<Entry>) returns (more: seq<Entry>)
    ensures Emitted(b, depth, e, log) == log + more
    ensures Between(more, depth, b.maxDepth)
    ensures AtDepth(more, depth + 1) == if depth < b.maxDepth then Calls(depth + 1, e, Keyed(b, e) + Wild(b, e)) else []
    decreases Room(b, depth), 0, 0
  {
    if depth >= b.maxDepth {
      more := [Dropped(e)];
    } else {
      more := CallEachAdds(b, depth + 1, e, Keyed(b, e) + Wild(b, e), log);
    }
  }

  lemma OneCallMore(depth: int, listener: nat, e: Event, nested: seq<Entry>, rest: seq<Entry>, maxDepth: int)
    requires depth <= maxDepth && Between(nested, depth, maxDepth) && Between(rest, depth - 1, maxDepth)
    ensures var more := [Called(depth, listener, e)] + (nested + rest);
            Between(more, depth - 1, maxDepth) && AtDepth(more, depth) == [Called(depth, listener, e)] + AtDepth(rest, depth)
  {
    var first := [Called(depth, listener, e)];
    NoneAtDepth(nested, depth, maxDepth);
    AtDepthAppend(first, nested + rest, depth);
    AtDepthAppend(nested, rest, depth);
    assert AtDepth(first, depth) == first;
  }

  lemma {:induction false} CallEachAdds(b: Bus, depth: int, e: Event, targets: seq<nat>, log: seq<Entry>) returns (more: seq<Entry>)
    requires depth <= b.maxDepth
    ensures CallEach(b, depth, e, targets, log) == log + more
    ensures Between(more, depth - 1, b.maxDepth)
    ensures AtDepth(more, depth) == Calls(depth, e, targets)
    decreases Room(b, depth), 2, |targets|
  {
    if targets == [] {
      more := [];
    } else {
      var called := log + [Called(depth, targets[0], e)];
      var nested := EmitEachAdds(b, depth, b.script(targets[0], e, called), called);
      var rest := CallEachAdds(b, depth, e, targets[1..], called + nested);
      var first := [Called(depth, targets[0], e)];
      more := first + (nested + rest);
      assert called + nested + rest == log + more;
      OneCallMore(depth, targets[0], e, nested, rest, b.maxDepth);
      assert Calls(depth, e, targets) == first + Calls(depth, e, targets[1..]);
    }
  }

  lemma {:induction false} EmitEachAdds(b: Bus, depth: int, events: seq<Event>, log: seq<Entry>) returns (more: seq<Entry>)
    ensures EmitEach(b, depth, events, log) == log + more
    ensures Between(more, depth, b.maxDepth)
    decreases Room(b, depth), 1, |events|
  {
    if events == [] {
      more := [];
    } else {
      var first := EmittedAdds(b, depth, events[0], log);
      var rest := EmitEachAdds(b, depth, events[1..], log + first);
      more := first + rest;
      JoinBetween(log, first, rest, depth, b.maxDepth);
    }
  }

  lemma AddedAfter(log: seq<Entry>, more: seq<Entry>)
    ensures log <= log + more && (log + more)[|log|..] == more
  {
  }

  lemma CallsInParts(depth: int, e: Event, keyed: seq<nat>, wild: seq<nat>)
    ensures Calls(depth, e, keyed + wild) == Calls(depth, e, keyed) + Calls(depth, e, wild)
  {
  }

  /**
   Whatever the listeners emit in turn, cycles included: an emit below the limit calls every listener of its key or
   type and then every wildcard, once each and in order, at the next depth; every other call it causes is deeper,
   and none is deeper than the limit.  An emit at the limit calls nobody.
   */
  lemma AnEmitCallsEachTargetOnce(b: Bus, depth: int, e: Event, log: seq<Entry>)
    ensures var after := Emitted(b, depth, e, log);
            log <= after &&
            Between(after[|log|..], depth, b.maxDepth) &&
            AtDepth(after[|log|..], depth + 1) ==
            if depth < b.maxDepth then Calls(depth + 1, e, Keyed(b, e)) + Calls(depth + 1, e, Wild(b, e)) else []
  {
    var more := EmittedAdds(b, depth, e, log);
    AddedAfter(log, more);
    CallsInParts(depth + 1, e, Keyed(b, e), Wild(b, e));
  }

  // ---------------------------------------------------------------------------------------------
  // Everything a listener emits is dealt with

  /** What one emit comes to, by itself: a call of each target, or at the limit one dropped event. */
  function Outcome(b: Bus, depth: int, e: Event): seq<Entry> {
    if depth >= b.maxDepth then [Dropped(e)] else Calls(depth + 1, e, Keyed(b, e) + Wild(b, e))
  }

  ghost function Outcomes(b: Bus, depth: int, events: seq<Event>): multiset<Entry> {
    if events == [] then multiset{} else multiset(Outcome(b, depth, events[0])) + Outcomes(b, depth, events[1..])
  }

  /** What the last entry brings about, given all that happened: a call, the outcomes of what its listener then emits. */
  ghost function Caused(b: Bus, log: seq<Entry>): multiset<Entry>
    requires log != []
  {
    var last := log[|log| - 1];
    if last.Called? then Outcomes(b, last.depth, b.script(last.listener, last.event, log)) else multiset{}
  }

  /** What the entries from `from` on bring about together. */
  ghost function CausedSince(b: Bus, log: seq<Entry>, from: nat): multiset<Entry>
    decreases |log|
  {
    if |log| <= from then multiset{} else CausedSince(b, log[..|log| - 1], from) + Caused(b, log)
  }

  lemma {:induction false} CausedInParts(b: Bus, log: seq<Entry>, from: nat, to: nat)
    requires from <= to <= |log|
    ensures CausedSince(b, log, from) == CausedSince(b, log[..to], from) + CausedSince(b, log, to)
    decreases |log|
  {
    if to == |log| {
      assert log[..to] == log;
    } else {
      CausedInParts(b, log[..|log| - 1], from, to);
      assert log[..|log| - 1][..to] == log[..to];
    }
  }

  /** `after` continues `log` by `out` and by what it brings about itself. */
  ghost predicate Entails(b: Bus, log: seq<Entry>, after: seq<Entry>, out: multiset<Entry>) {
    log <= after && multiset(after[|log|..]) == out + CausedSince(b, after, |log|)
  }

  lemma SumsInTurn(a: multiset<Entry>, x: multiset<Entry>, b: multiset<Entry>, y: multiset<Entry>)
    ensures (a + x) + (b + y) == (a + b) + (x + y)
  {
  }

  lemma EndsInParts(log: seq<Entry>, mid: seq<Entry>, after: seq<Entry>)
    requires log <= mid <= after
    ensures multiset(after[|log|..]) == multiset(mid[|log|..]) + multiset(after[|mid|..])
  {
    assert after[|log|..] == mid[|log|..] + after[|mid|..];
  }

  lemma EntailsInTurn(b: Bus, log: seq<Entry>, mid: seq<Entry>, after: seq<Entry>, first: multiset<Entry>, rest: multiset<Entry>)
    requires Entails(b, log, mid, first) && Entails(b, mid, after, rest)
    ensures Entails(b, log, after, first + rest)
  {
    assert after[..|mid|] == mid;
    EndsInParts(log, mid, after);
    CausedInParts(b, after, |log|, |mid|);
    SumsInTurn(first, CausedSince(b, mid, |log|), rest, CausedSince(b, after, |mid|));
  }

  lemma CausedByLast(b: Bus, log: seq<Entry>, entry: Entry)
    ensures CausedSince(b, log + [entry], |log|) == Caused(b, log + [entry])
  {
    var called := log + [entry];
    assert called[..|log|] == log;
    assert CausedSince(b, log, |log|) == multiset{};
  }

  lemma CausedSinceEntry(b: Bus, log: seq<Entry>, entry: Entry, after: seq<Entry>)
    requires log + [entry] <= after
    ensures CausedSince(b, after, |log|) == Caused(b, log + [entry]) + CausedSince(b, after, |log| + 1)
  {
    var called := log + [entry];
    assert after[..|called|] == called;
    CausedInParts(b, after, |log|, |called|);
    CausedByLast(b, log, entry);
  }

  lemma CausedByCall(b: Bus, log: seq<Entry>, entry: Entry)
    requires entry.Called?
    ensures Caused(b, log + [entry]) == Outcomes(b, entry.depth, b.script(entry.listener, entry.event, log + [entry]))
  {
  }

  lemma EntryFirst(log: seq<Entry>, entry: Entry, after: seq<Entry>)
    requires log + [entry] <= after
    ensures multiset(after[|log|..]) == multiset{entry} + multiset(after[|log| + 1..])
  {
    assert after[|log|..] == [entry] + after[|log| + 1..];
  }

  /** A call, and then what its listener emits dealt with, is the call and nothing owed. */
  lemma CallEntails(b: Bus, log: seq<Entry>, entry: Entry, after: seq<Entry>, events: seq<Event>)
    requires entry.Called? && events == b.script(entry.listener, entry.event, log + [entry])
    requires Entails(b, log + [entry], after, Outcomes(b, entry.depth, events))
    ensures Entails(b, log, after, multiset{entry})
  {
    CausedSinceEntry(b, log, entry, after);
    CausedByCall(b, log, entry);
    EntryFirst(log, entry, after);
  }

  lemma {:induction false} EmitEntails(b: Bus, depth: int, e: Event, log: seq<Entry>)
    ensures Entails(b, log, Emitted(b, depth, e, log), multiset(Outcome(b, depth, e)))
    decreases Room(b, depth), 0, 0
  {
    if depth >= b.maxDepth {
      var after := log + [Dropped(e)];
      assert after[..|log|] == log && after[|log|..] == [Dropped(e)];
      assert CausedSince(b, after, |log|) == CausedSince(b, log, |log|) + Caused(b, after);
    } else {
      CallEachEntails(b, depth + 1, e, Keyed(b, e) + Wild(b, e), log);
    }
  }

  lemma {:induction false} CallEachEntails(b: Bus, depth: int, e: Event, targets: seq<nat>, log: seq<Entry>)
    requires depth <= b.maxDepth
    ensures Entails(b, log, CallEach(b, depth, e, targets, log), multiset(Calls(depth, e, targets)))
    decreases Room(b, depth), 2, |targets|
  {
    if targets == [] {
      NothingEntailed(b, log);
    } else {
      var call := Called(depth, targets[0], e);
      var events := b.script(targets[0], e, log + [call]);
      EmitEachEntails(b, depth, events, log + [call]);
      var mid := CallOne(b, depth, e, targets[0], log);
      CallEntails(b, log, call, mid, events);
      CallEachEntails(b, depth, e, targets[1..], mid);
      EntailsInTurn(b, log, mid, CallEach(b, depth, e, targets, log), multiset{call}, multiset(Calls(depth, e, targets[1..])));
      FirstCall(depth, e, targets);
    }
  }

  lemma FirstCall(depth: int, e: Event, targets: seq<nat>)
    requires targets != []
    ensures multiset(Calls(depth, e, targets)) == multiset{Called(depth, targets[0], e)} + multiset(Calls(depth, e, targets[1..]))
  {
    assert Calls(depth, e, targets) == [Called(depth, targets[0], e)] + Calls(depth, e, targets[1..]);
  }

  lemma {:induction false} EmitEachEntails(b: Bus, depth: int, events: seq<Event>, log: seq<Entry>)
    ensures Entails(b, log, EmitEach(b, depth, events, log), Outcomes(b, depth, events))
    decreases Room(b, depth), 1, |events|
  {
    if events == [] {
      NothingEntailed(b, log);
    } else {
      var mid := Emitted(b, depth, events[0], log);
      EmitEntails(b, depth, events[0], log);
      EmitEachEntails(b, depth, events[1..], mid);
      EntailsInTurn(b, log, mid, EmitEach(b, depth, events, log), multiset(Outcome(b, depth, events[0])), Outcomes(b, depth, events[1..]));
    }
  }

  lemma NothingEntailed(b: Bus, log: seq<Entry>)
    ensures Entails(b, log, log, multiset{})
  {
    assert log[|log|..] == [];
  }

  /**
   Nothing a listener emits is lost, and nothing happens that nobody emitted: what an emit adds to the history is its
   own calls, or its drop, together with those of every event the listeners called on the way emit in turn.
   */
  lemma EveryEmitIsDealtWith(b: Bus, depth: int, e: Event, log: seq<Entry>)
    ensures var after := Emitted(b, depth, e, log);
            && log <= after
            && multiset(after[|log|..]) == multiset(Outcome(b, depth, e)) + CausedSince(b, after, |log|)
  {
    EmitEntails(b, depth, e, log);
  }

  // ---------------------------------------------------------------------------------------------
  // The targets

  predicate Distinct(s: seq<nat>) {
    forall i, j :: 0 <= i < j < |s| ==> s[i] != s[j]
  }

  lemma {:induction false} SkipKeepsTheRest(s: seq<nat>, seen: set<nat>)
    ensures Distinct(Skip(s, seen))
    ensures forall l :: l in Skip(s, seen) <==> l in s && l !in seen
  {
    if s != [] {
      assert s == [s[0]] + s[1..];
      SkipKeepsTheRest(s[1..], seen);
      SkipKeepsTheRest(s[1..], seen + {s[0]});
    }
  }

  /** Keyed delivery reaches those under the key or the type, and a listener under both only once. */
  lemma KeyedListenersOnce(b: Bus, e: Event)
    ensures Distinct(Keyed(b, e))
    ensures forall l :: l in Keyed(b, e) <==>
              l in On(b.listeners, e.kind) || (e.routingKey.Some? && l in On(b.listeners, e.routingKey.value))
  {
    SkipKeepsTheRest(Primary(b, e), {});
    SkipKeepsTheRest(Secondary(b, e), Elements(Primary(b, e)));
    var first, second := Skip(Primary(b, e), {}), Skip(Secondary(b, e), Elements(Primary(b, e)));
    forall i, j | 0 <= i < |first| && 0 <= j < |second| ensures first[i] != second[j] {
      assert first[i] in first && second[j] in second;
    }
  }

  predicate CalledAt(calls: seq<Entry>, i: int, l: nat) {
    0 <= i < |calls| && calls[i].Called? && calls[i].listener == l
  }

  lemma CalledInBoth(depth: int, e: Event, keyed: seq<nat>, wild: seq<nat>, l: nat)
    requires l in keyed && l in wild
    ensures var calls := Calls(depth, e, keyed) + Calls(depth, e, wild);
            exists i, j :: CalledAt(calls, i, l) && CalledAt(calls, j, l) && i < j
  {
    var calls := Calls(depth, e, keyed) + Calls(depth, e, wild);
    var i :| 0 <= i < |keyed| && keyed[i] == l;
    var j :| 0 <= j < |wild| && wild[j] == l;
    assert CalledAt(calls, i, l);
    assert CalledAt(calls, |keyed| + j, l);
  }

  /** A listener subscribed both by type and as a wildcard is called twice for the one event. */
  lemma WildcardsAreCalledAgain(b: Bus, depth: int, e: Event, log: seq<Entry>, l: nat)
    requires depth < b.maxDepth && e.kind != WILDCARD
    requires l in Keyed(b, e) && l in On(b.listeners, WILDCARD)
    ensures |log| <= |Emitted(b, depth, e, log)|
    ensures var calls := AtDepth(Emitted(b, depth, e, log)[|log|..], depth + 1);
            exists i, j :: CalledAt(calls, i, l) && CalledAt(calls, j, l) && i < j
  {
    AnEmitCallsEachTargetOnce(b, depth, e, log);
    CalledInBoth(depth + 1, e, Keyed(b, e), Wild(b, e), l);
  }

  lemma {:induction false} CallEachInParts(b: Bus, depth: int, e: Event, first: seq<nat>, rest: seq<nat>, log: seq<Entry>)
    ensures CallEach(b, depth, e, first + rest, log) == CallEach(b, depth, e, rest, CallEach(b, depth, e, first, log))
    decreases |first|
  {
    if first == [] {
      assert first + rest == rest;
    } else {
      assert (first + rest)[1..] == first[1..] + rest;
      CallEachInParts(b, depth, e, first[1..], rest, CallOne(b, depth, e, first[0], log));
    }
  }

  /** Below the limit: first those under the key, then those under the type not yet called, then the wildcards. */
  lemma EmittedInTurn(b: Bus, depth: int, e: Event, primary: seq<nat>, secondary: seq<nat>, log: seq<Entry>)
    requires depth < b.maxDepth && primary == Primary(b, e) && secondary == Secondary(b, e)
    ensures var first := CallEach(b, depth + 1, e, Skip(primary, {}), log);
            var second := CallEach(b, depth + 1, e, Skip(secondary, {} + Elements(primary)), first);
            Emitted(b, depth, e, log) == CallEach(b, depth + 1, e, Wild(b, e), second)
  {
    CallEachInParts(b, depth + 1, e, Skip(primary, {}), Skip(secondary, Elements(primary)), log);
    CallEachInParts(b, depth + 1, e, Keyed(b, e), Wild(b, e), log);
    assert {} + Elements(primary) == Elements(primary);
  }

  // ---------------------------------------------------------------------------------------------
  // Subscriptions

  /** A set of listeners, made for one type; in it a listener stands once, in order of subscription. */
  datatype ListenerSet = ListenerSet(kind: string, members: seq<nat>)

  /** Every set ever made, and the one each type has now. */
  datatype Registry = Registry(sets: seq<ListenerSet>, types: map<string, nat>)

  /** What an unsubscribe keeps: its listener and the very set the listener was added to. */
  datatype Handle = Handle(listener: nat, at: nat)

  ghost predicate Sound(r: Registry) {
    && (forall kind :: kind in r.types ==> r.types[kind] < |r.sets| && r.sets[r.types[kind]].kind == kind)
    && (forall kind :: kind in r.types ==> r.sets[r.types[kind]].members != [])
    && (forall i :: 0 <= i < |r.sets| ==> Distinct(r.sets[i].members))
  }

  /** Who listens to what. */
  function Listening(r: Registry): map<string, seq<nat>>
    requires Sound(r)
  {
    map kind | kind in r.types :: r.sets[r.types[kind]].members
  }

  function Adding(members: seq<nat>, listener: nat): seq<nat> {
    if listener in members then members else members + [listener]
  }

  function Without(members: seq<nat>, listener: nat): seq<nat> {
    if members == [] then []
    else if members[0] == listener then members[1..]
    else [members[0]] + Without(members[1..], listener)
  }

  lemma {:induction false} WithoutIsTheRest(members: seq<nat>, listener: nat)
    requires Distinct(members)
    ensures Distinct(Without(members, listener))
    ensures forall l :: l in Without(members, listener) <==> l in members && l != listener
    decreases |members|
  {
    if members != [] {
      assert members == [members[0]] + members[1..];
      if members[0] != listener {
        WithoutIsTheRest(members[1..], listener);
        var rest := Without(members[1..], listener);
        forall j | 0 <= j < |rest| ensures rest[j] != members[0] { assert rest[j] in rest; }
      }
    }
  }

  /** `on`: the type's set, a new one when it has none, takes the listener. */
  function Subscribed(r: Registry, kind: string, listener: nat): (Registry, Handle)
    requires Sound(r)
  {
    var at := if kind in r.types then r.types[kind] else |r.sets|;
    var sets := if kind in r.types then r.sets else r.sets + [ListenerSet(kind, [])];
    (Registry(sets[at := ListenerSet(kind, Adding(sets[at].members, listener))], r.types[kind := at]), Handle(listener, at))
  }

  /** What `on` returned, called: the listener leaves that set; when that leaves it empty, the type goes, whatever set it has now. */
  function Ended(r: Registry, h: Handle): Registry
    requires h.at < |r.sets|
  {
    var was := r.sets[h.at];
    var left := Without(was.members, h.listener);
    Registry(r.sets[h.at := was.(members := left)], if left == [] then r.types - {was.kind} else r.types)
  }

  lemma SubscribedKeepsSets(r: Registry, kind: string, listener: nat)
    requires Sound(r)
    ensures var (n, h) := Subscribed(r, kind, listener); Sound(n) && h.at < |n.sets|
  {
    var (n, h) := Subscribed(r, kind, listener);
    forall k | k in n.types && k != kind ensures n.sets[n.types[k]] == r.sets[r.types[k]] {}
    assert Distinct(n.sets[h.at].members);
  }

  lemma SubscribedIsSound(r: Registry, kind: string, listener: nat)
    requires Sound(r)
    ensures var (n, h) := Subscribed(r, kind, listener);
            Sound(n) && h.at < |n.sets| && Listening(n) == Listening(r)[kind := Adding(On(Listening(r), kind), listener)]
  {
    SubscribedKeepsSets(r, kind, listener);
    var n := Subscribed(r, kind, listener).0;
    assert n.types.Keys == r.types.Keys + {kind};
  }

  /** A new listener is called after those before it; one that listens already keeps its turn. */
  lemma NewListenersComeLast(r: Registry, kind: string, listener: nat)
    requires Sound(r)
    ensures var (n, h) := Subscribed(r, kind, listener);
            && Sound(n) && h.listener == listener && Current(n, h.at)
            && var was, now := On(Listening(r), kind), On(Listening(n), kind);
            && was <= now && listener in now
            && (listener in was ==> now == was) && (listener !in was ==> |now| == |was| + 1 && now[|was|] == listener)
  {
    SubscribedIsSound(r, kind, listener);
  }

  lemma EndedIsSound(r: Registry, h: Handle)
    requires Sound(r) && h.at < |r.sets|
    ensures Sound(Ended(r, h))
  {
    var n, was := Ended(r, h), r.sets[h.at];
    WithoutIsTheRest(was.members, h.listener);
    assert Distinct(n.sets[h.at].members);
    forall kind | kind in n.types ensures n.sets[n.types[kind]].members != [] {
      if n.types[kind] != h.at { assert n.sets[n.types[kind]] == r.sets[r.types[kind]]; }
    }
  }

  /** The set is the one its type has now. */
  predicate Current(r: Registry, at: nat)
    requires at < |r.sets|
  {
    r.sets[at].kind in r.types && r.types[r.sets[at].kind] == at
  }

  predicate Listens(r: Registry, kind: string, listener: nat)
    requires Sound(r)
  {
    listener in On(Listening(r), kind)
  }

  /** Whoever else listened to whatever type still does, and nobody more. */
  ghost predicate OthersKept(r: Registry, h: Handle)
    requires Sound(r) && h.at < |r.sets|
  {
    EndedIsSound(r, h);
    forall kind, l :: kind != r.sets[h.at].kind || l != h.listener ==> (Listens(Ended(r, h), kind, l) <==> Listens(r, kind, l))
  }

  /** The type has another set by now, with others in it, and the set of this handle is left empty. */
  ghost predicate Stale(r: Registry, h: Handle)
    requires Sound(r) && h.at < |r.sets|
  {
    && !Current(r, h.at) && Without(r.sets[h.at].members, h.listener) == []
    && exists l :: l != h.listener && Listens(r, r.sets[h.at].kind, l)
  }

  /** An unsubscribe touches nobody but its own listener exactly when its set is not such a stale one. */
  lemma OthersKeptExactlyWhenNotStale(r: Registry, h: Handle)
    requires Sound(r) && h.at < |r.sets|
    ensures OthersKept(r, h) <==> !Stale(r, h)
  {
    EndedIsSound(r, h);
    WithoutIsTheRest(r.sets[h.at].members, h.listener);
    var n, kind := Ended(r, h), r.sets[h.at].kind;
    if Stale(r, h) {
      var l :| l != h.listener && Listens(r, kind, l);
      assert !Listens(n, kind, l);
    } else {
      forall k, l | k != kind || l != h.listener ensures Listens(n, k, l) <==> Listens(r, k, l) {
        if k in r.types && r.types[k] != h.at { assert n.sets[r.types[k]] == r.sets[r.types[k]]; }
      }
    }
  }

  // ---------------------------------------------------------------------------------------------
  // Runs of subscribing and unsubscribing

  datatype Act = Begin(kind: string, listener: nat) | End(h: Handle) | Clear

  /** `clear` drops the types and leaves the sets to their handles. */
  function AfterAct(r: Registry, a: Act): (n: Registry)
    requires Sound(r)
    ensures Sound(n)
  {
    match a
    case Begin(kind, listener) => SubscribedIsSound(r, kind, listener); Subscribed(r, kind, listener).0
    case End(h) => if h.at < |r.sets| then EndedIsSound(r, h); Ended(r, h) else r
    case Clear => r.(types := map[])
  }

  function RunOf(r: Registry, acts: seq<Act>): (n: Registry)
    requires Sound(r)
    ensures Sound(n)
    decreases |acts|
  {
    if acts == [] then r else RunOf(AfterAct(r, acts[0]), acts[1..])
  }

  /** After a clear nobody listens to anything. */
  lemma ClearingEndsAllListening(r: Registry)
    requires Sound(r)
    ensures Listening(AfterAct(r, Clear)) == map[]
  {
  }

  lemma {:induction false} OneActMore(r: Registry, acts: seq<Act>, a: Act)
    requires Sound(r)
    ensures RunOf(r, acts + [a]) == AfterAct(RunOf(r, acts), a)
    decreases |acts|
  {
    if acts == [] {
      assert acts + [a] == [a];
      assert RunOf(r, [a]) == AfterAct(r, a);
    } else {
      assert (acts + [a])[1..] == acts[1..] + [a];
      OneActMore(AfterAct(r, acts[0]), acts[1..], a);
    }
  }

  /** After any run, whoever subscribes then listens, last unless it listened already, and nobody else is touched. */
  lemma WhoeverSubscribesListens(r: Registry, acts: seq<Act>, kind: string, listener: nat)
    requires Sound(r)
    ensures var was, now := Listening(RunOf(r, acts)), Listening(RunOf(r, acts + [Begin(kind, listener)]));
            && listener in On(now, kind) && On(was, kind) <= On(now, kind)
            && forall k :: k != kind ==> On(now, k) == On(was, k)
  {
    OneActMore(r, acts, Begin(kind, listener));
    NewListenersComeLast(RunOf(r, acts), kind, listener);
    SubscribedIsSound(RunOf(r, acts), kind, listener);
  }

  /** The listener still stands in the set it was added to. */
  predicate Standing(r: Registry, h: Handle) {
    h.at < |r.sets| && h.listener in r.sets[h.at].members
  }

  /** Nothing is cleared, and no unsubscribe is called for a subscription that no longer stands. */
  ghost predicate Tidy(r: Registry, acts: seq<Act>)
    requires Sound(r)
    decreases |acts|
  {
    acts == [] ||
    (!acts[0].Clear? && (acts[0].End? ==> Standing(r, acts[0].h)) && Tidy(AfterAct(r, acts[0]), acts[1..]))
  }

  /** A set some listener stands in is its type's. */
  ghost predicate SetsAreCurrent(r: Registry) {
    forall i :: 0 <= i < |r.sets| && r.sets[i].members != [] ==> Current(r, i)
  }

  lemma TidyEndKeepsSetsCurrent(r: Registry, h: Handle)
    requires Sound(r) && SetsAreCurrent(r) && Standing(r, h)
    ensures SetsAreCurrent(Ended(r, h))
  {
    var n := Ended(r, h);
    assert Current(r, h.at);
    forall i | 0 <= i < |n.sets| && n.sets[i].members != [] ensures Current(n, i) {
      if i != h.at {
        assert n.sets[i] == r.sets[i];
        assert Current(r, i);
      }
    }
  }

  lemma {:induction false} TidyRunsKeepSetsCurrent(r: Registry, acts: seq<Act>)
    requires Sound(r) && SetsAreCurrent(r) && Tidy(r, acts)
    ensures SetsAreCurrent(RunOf(r, acts))
    decreases |acts|
  {
    if acts != [] {
      if acts[0].End? { TidyEndKeepsSetsCurrent(r, acts[0].h); }
      TidyRunsKeepSetsCurrent(AfterAct(r, acts[0]), acts[1..]);
    }
  }

  /** Over any tidy run, ending a subscription that stands removes just that listener from its type. */
  lemma EndingAStandingSubscription(r: Registry, acts: seq<Act>, h: Handle)
    requires Sound(r) && SetsAreCurrent(r) && Tidy(r, acts) && Standing(RunOf(r, acts), h)
    ensures var s := RunOf(r, acts);
            && Listens(s, s.sets[h.at].kind, h.listener) && OthersKept(s, h)
            && !Listens(RunOf(r, acts + [End(h)]), s.sets[h.at].kind, h.listener)
  {
    var s := RunOf(r, acts);
    OneActMore(r, acts, End(h));
    TidyRunsKeepSetsCurrent(r, acts);
    assert Current(s, h.at);
    OthersKeptExactlyWhenNotStale(s, h);
    EndedIsSound(s, h);
    WithoutIsTheRest(s.sets[h.at].members, h.listener);
  }

  /** An unsubscribe called again after its type was subscribed anew: the new subscriber goes with it. */
  lemma AStaleUnsubscribeDropsTheType(kind: string, first: nat, second: nat)
    requires first != second
    ensures var (a, h) := Subscribed(Registry([], map[]), kind, first);
            var b := Ended(a, h);
            Sound(b) && var (c, g) := Subscribed(b, kind, second);
            Sound(c) && Listens(c, kind, second) && Stale(c, h) && Sound(Ended(c, h)) && Listening(Ended(c, h)) == map[]
  {
    var (a, h) := Subscribed(Registry([], map[]), kind, first);
    SubscribedIsSound(Registry([], map[]), kind, first);
    EndedIsSound(a, h);
    var b := Ended(a, h);
    var (c, g) := Subscribed(b, kind, second);
    SubscribedIsSound(b, kind, second);
    EndedIsSound(c, h);
    assert On(Listening(c), kind) == [second];
    assert Listens(c, kind, second);
  }

  // ---------------------------------------------------------------------------------------------
  // The bus

  lemma {:induction false} WithoutAt(members: seq<nat>, listener: nat, i: nat)
    requires i <= |members| && listener !in members[..i]
    requires i < |members| ==> members[i] == listener
    ensures Without(members, listener) == if i < |members| then members[..i] + members[i + 1..] else members
    decreases i
  {
    if i > 0 {
      assert members[..i][0] == members[0];
      assert members[1..][..i - 1] == members[..i][1..];
      WithoutAt(members[1..], listener, i - 1);
      assert members == [members[0]] + members[1..];
    }
  }

  method Delete(members: seq<nat>, listener: nat) returns (left: seq<nat>)
    ensures left == Without(members, listener)
  {
    var i := 0;
    while i < |members| && members[i] != listener
      invariant 0 <= i <= |members| && listener !in members[..i]
    {
      i := i + 1;
    }
    WithoutAt(members, listener, i);
    left := if i < |members| then members[..i] + members[i + 1..] else members;
  }

  /** Who listens to what, read off the sets. */
  ghost predicate Tabled(listening: map<string, seq<nat>>, r: Registry) {
    && (forall kind :: kind in listening <==> kind in r.types)
    && (forall kind :: kind in r.types ==> r.types[kind] < |r.sets| && listening[kind] == r.sets[r.types[kind]].members)
  }

  lemma SubscribedTables(listening: map<string, seq<nat>>, r: Registry, kind: string, listener: nat)
    requires Sound(r) && Tabled(listening, r)
    ensures Tabled(listening[kind := Adding(On(listening, kind), listener)], Subscribed(r, kind, listener).0)
  {
  }

  class Emitter {
    /** Every set made; a type's entry in `types` is the number of its set. */
    var sets: seq<ListenerSet>
    var types: map<string, nat>
    const maxDepth: int
    const script: Script
    var depth: int
    /** All that has happened on the bus, which a listener's own state may depend on. */
    var log: seq<Entry>

    ghost var listening: map<string, seq<nat>>

    ghost function View(): Registry
      reads `sets, `types
    {
      Registry(sets, types)
    }

    /** A type is listed exactly while someone listens to it. */
    ghost predicate Valid()
      reads `sets, `types, `listening
    {
      Sound(View()) && Tabled(listening, View())
    }

    ghost function Abstract(): Bus
      reads `listening
    {
      Bus(listening, maxDepth, script)
    }

    constructor (maxDepth: int, script: Script)
      ensures Valid() && depth == 0 && log == [] && View() == Registry([], map[])
      ensures this.maxDepth == maxDepth && this.script == script
    {
      this.maxDepth := maxDepth;
      this.script := script;
      sets, types, listening, depth, log := [], map[], map[], 0, [];
    }

    method Subscribe(kind: string, listener: nat) returns (unsubscribe: Handle)
      requires Valid()
      modifies `sets, `types, `listening
      ensures Valid() && (View(), unsubscribe) == Subscribed(old(View()), kind, listener)
      ensures listening == old(listening)[kind := Adding(On(old(listening), kind), listener)]
    {
      ghost var next := Subscribed(View(), kind, listener).0;
      SubscribedIsSound(View(), kind, listener);
      SubscribedTables(listening, View(), kind, listener);
      var at := if kind in types then types[kind] else |sets|;
      if kind !in types { sets := sets + [ListenerSet(kind, [])]; }
      types := types[kind := at];
      var listeners := sets[at].members;
      if listener !in listeners { listeners := listeners + [listener]; }
      sets := sets[at := ListenerSet(kind, listeners)];
      assert View() == next;
      listening := listening[kind := listeners];
      unsubscribe := Handle(listener, at);
    }

    /** What `on` returned is called, for the first time or again. */
    method Unsubscribe(unsubscribe: Handle)
      requires Valid() && unsubscribe.at < |sets|
      modifies `sets, `types, `listening
      ensures Valid() && View() == Ended(old(View()), unsubscribe)
    {
      EndedIsSound(View(), unsubscribe);
      ghost var next := Ended(View(), unsubscribe);
      var listeners := sets[unsubscribe.at];
      var left := Delete(listeners.members, unsubscribe.listener);
      sets := sets[unsubscribe.at := listeners.(members := left)];
      if left == [] { types := types - {listeners.kind}; }
      assert View() == next;
      listening := Listening(next);
    }

    method Clear()
      requires Valid()
      modifies `types, `listening
      ensures Valid() && listening == map[] && View() == old(View()).(types := map[])
    {
      types, listening := map[], map[];
    }

    /** Emit an event; nested emits come back here.  The depth is restored whatever the listeners do. */
    method Emit(e: Event)
      requires Tabled(listening, Registry(sets, types))
      modifies `depth, `log
      ensures depth == old(depth)
      ensures log == Emitted(Abstract(), depth, e, old(log))
      decreases Room(Abstract(), depth), 0, 0
    {
      if depth >= maxDepth {
        log := log + [Dropped(e)];
        return;
      }
      var primary, secondary := KeyedSets(e);
      EmittedInTurn(Abstract(), depth, e, primary, secondary, log);
      depth := depth + 1;
      DeliverInTurn(e, primary, secondary);
      depth := depth - 1;
    }

    method DeliverKeyed(e: Event, primary: seq<nat>, secondary: seq<nat>)
      requires Tabled(listening, Registry(sets, types)) && depth <= maxDepth
      modifies `depth, `log
      ensures depth == old(depth)
      ensures log == CallEach(Abstract(), depth, e, Skip(secondary, {} + Elements(primary)),
                              CallEach(Abstract(), depth, e, Skip(primary, {}), old(log)))
      decreases Room(Abstract(), depth), 4, 0
    {
      var delivered := DeliverTo(e, primary, {});
      delivered := DeliverTo(e, secondary, delivered);
    }

    method DeliverInTurn(e: Event, primary: seq<nat>, secondary: seq<nat>)
      requires Tabled(listening, Registry(sets, types)) && depth <= maxDepth
      modifies `depth, `log
      ensures depth == old(depth)
      ensures log == CallEach(Abstract(), depth, e, Wild(Abstract(), e),
                              CallEach(Abstract(), depth, e, Skip(secondary, {} + Elements(primary)),
                                       CallEach(Abstract(), depth, e, Skip(primary, {}), old(log))))
      decreases Room(Abstract(), depth), 5, 0
    {
      DeliverKeyed(e, primary, secondary);
      DeliverWild(e);
    }

    method DeliverWild(e: Event)
      requires Tabled(listening, Registry(sets, types)) && depth <= maxDepth
      modifies `depth, `log
      ensures depth == old(depth)
      ensures log == CallEach(Abstract(), depth, e, Wild(Abstract(), e), old(log))
      decreases Room(Abstract(), depth), 4, 0
    {
      if e.kind != WILDCARD {
        DeliverAll(e, Lookup(WILDCARD));
      }
    }

    method KeyedSets(e: Event) returns (primary: seq<nat>, secondary: seq<nat>)
      requires Tabled(listening, Registry(sets, types))
      ensures primary == Primary(Abstract(), e) && secondary == Secondary(Abstract(), e)
    {
      primary := if e.routingKey.Some? then Lookup(e.routingKey.value) else Lookup(e.kind);
      secondary := if e.routingKey.Some? && e.routingKey.value != e.kind then Lookup(e.kind) else [];
    }

    function Lookup(kind: string): (found: seq<nat>)
      requires Tabled(listening, Registry(sets, types))
      reads `sets, `types, `listening
      ensures found == On(listening, kind)
    {
      if kind in types then sets[types[kind]].members else []
    }

    method DeliverTo(e: Event, to: seq<nat>, seen: set<nat>) returns (delivered: set<nat>)
      requires Tabled(listening, Registry(sets, types)) && depth <= maxDepth
      modifies `depth, `log
      ensures depth == old(depth) && delivered == seen + Elements(to)
      ensures log == CallEach(Abstract(), depth, e, Skip(to, seen), old(log))
      decreases Room(Abstract(), depth), 3, 0
    {
      delivered := seen;
      for i := 0 to |to|
        invariant depth == old(depth) && delivered == seen + Elements(to[..i])
        invariant CallEach(Abstract(), depth, e, Skip(to[i..], delivered), log) == CallEach(Abstract(), depth, e, Skip(to, seen), old(log))
      {
        assert to[i..][1..] == to[i + 1..] && to[..i + 1] == to[..i] + [to[i]];
        if to[i] !in delivered {
          assert Skip(to[i..], delivered)[1..] == Skip(to[i + 1..], delivered + {to[i]});
          delivered := delivered + {to[i]};
          Invoke(e, to[i]);
        }
      }
      assert to[..|to|] == to;
    }

    method DeliverAll(e: Event, to: seq<nat>)
      requires Tabled(listening, Registry(sets, types)) && depth <= maxDepth
      modifies `depth, `log
      ensures depth == old(depth)
      ensures log == CallEach(Abstract(), depth, e, to, old(log))
      decreases Room(Abstract(), depth), 3, 0
    {
      for i := 0 to |to|
        invariant depth == old(depth)
        invariant CallEach(Abstract(), depth, e, to[i..], log) == CallEach(Abstract(), depth, e, to, old(log))
      {
        assert to[i..][1..] == to[i + 1..];
        Invoke(e, to[i]);
      }
    }

    /** Call one listener: it emits what its script says. */
    method Invoke(e: Event, listener: nat)
      requires Tabled(listening, Registry(sets, types)) && depth <= maxDepth
      modifies `depth, `log
      ensures depth == old(depth)
      ensures log == CallOne(Abstract(), depth, e, listener, old(log))
      decreases Room(Abstract(), depth), 2, 0
    {
      var called := log + [Called(depth, listener, e)];
      log := called;
      var events := script(listener, e, called);
      for i := 0 to |events|
        invariant depth == old(depth)
        invariant EmitEach(Abstract(), depth, events[i..], log) == EmitEach(Abstract(), depth, events, called)
      {
        assert events[i..][1..] == events[i + 1..];
        Emit(events[i]);
      }
    }
  }
}
