/**
 Where a dispatch leg runs: browser-stored data in process, server data on the server; and how the
 mount batch is split between the two and its responses merged.
 */
module Residence {
  import opened Wrappers
  import opened EffectWalk

  // ---------------------------------------------------------------------------------------------
  // The verdicts over a trait

  datatype Site = Server | Client | Anywhere

  /**
   The operator registry: which operators run on the server, and where a given call runs once browser
   storage is taken into account.  `isFalse` folds a condition with a trait's configuration.
   */
  datatype Language = Language(registered: string -> bool, site: Call -> Site, isFalse: (string, SExpr) -> bool)

  datatype Transition = Transition(event: string, guard: Option<SExpr>, effects: seq<SExpr>)

  datatype Tick = Tick(name: string, background: bool, effects: seq<SExpr>)

  datatype Trait = Trait(name: string, orbital: string, transitions: seq<Transition>, ticks: seq<Tick>)

  function Fold(l: Language, t: Trait): SExpr -> bool {
    e => l.isFalse(t.name, e)
  }

  predicate RunsServerEffect(l: Language, t: Trait, e: SExpr) {
    CallsEffect(e, Fold(l, t), (c: Call) => l.site(c) == Server)
  }

  predicate RunsBrowserDataEffect(l: Language, t: Trait, e: SExpr) {
    CallsEffect(e, Fold(l, t), (c: Call) => l.registered(c.operator) && l.site(c) == Client)
  }

  predicate Live(l: Language, t: Trait, transition: Transition) {
    !(transition.guard.Some? && l.isFalse(t.name, transition.guard.value))
  }

  function TickEventKey(tick: string): string {
    "$TICK_" + tick
  }

  predicate AnyServer(l: Language, t: Trait, effects: seq<SExpr>) {
    exists i :: 0 <= i < |effects| && RunsServerEffect(l, t, effects[i])
  }

  predicate AnyBrowserData(l: Language, t: Trait, effects: seq<SExpr>) {
    exists i :: 0 <= i < |effects| && RunsBrowserDataEffect(l, t, effects[i])
  }

  /** With an event, only that event's transitions count. */
  predicate TouchesServer(l: Language, t: Trait, event: Option<string>) {
    (exists i :: 0 <= i < |t.transitions| && (event.None? || t.transitions[i].event == event.value)
       && Live(l, t, t.transitions[i]) && AnyServer(l, t, t.transitions[i].effects))
    || (event.None? && exists i :: 0 <= i < |t.ticks| && !t.ticks[i].background && AnyServer(l, t, t.ticks[i].effects))
  }

  predicate IsBrowserLeg(l: Language, t: Trait, event: string) {
    (exists i :: 0 <= i < |t.transitions| && t.transitions[i].event == event
       && Live(l, t, t.transitions[i]) && AnyBrowserData(l, t, t.transitions[i].effects))
    || (exists i :: 0 <= i < |t.ticks| && TickEventKey(t.ticks[i].name) == event && !t.ticks[i].background
          && AnyBrowserData(l, t, t.ticks[i].effects))
  }

  /**
   If browser storage moves a server-registered call nowhere but to the client, then whatever
   server-registered call a live transition can make, its leg is the server's or the browser store's.
   */
  lemma VerdictsCoverServerCalls(l: Language, t: Trait, k: nat, i: nat, r: Run)
    requires forall c: Call :: l.registered(c.operator) ==> l.site(c) == Server || l.site(c) == Client
    requires k < |t.transitions| && Live(l, t, t.transitions[k]) && i < |t.transitions[k].effects|
    requires Reaches(t.transitions[k].effects[i], r, Fold(l, t), (c: Call) => l.registered(c.operator))
    ensures TouchesServer(l, t, Some(t.transitions[k].event)) || IsBrowserLeg(l, t, t.transitions[k].event)
  {
    var e := t.transitions[k].effects[i];
    var onServer := (c: Call) => l.site(c) == Server;
    var onClient := (c: Call) => l.registered(c.operator) && l.site(c) == Client;
    var c :| c in Calls(e, r, Fold(l, t)) && l.registered(c.operator);
    if l.site(c) == Server {
      assert Reaches(e, r, Fold(l, t), onServer);
      WalkIsSound(e, r, Fold(l, t), onServer);
      assert RunsServerEffect(l, t, t.transitions[k].effects[i]);
    } else {
      assert onClient(c);
      assert Reaches(e, r, Fold(l, t), onClient);
      WalkIsSound(e, r, Fold(l, t), onClient);
      assert RunsBrowserDataEffect(l, t, t.transitions[k].effects[i]);
    }
  }

  /** Run `r` of effect `i` of live transition `k` reaches a call placed on the server. */
  ghost predicate ReachesServer(l: Language, t: Trait, event: string, k: nat, i: nat, r: Run) {
    && k < |t.transitions| && t.transitions[k].event == event && Live(l, t, t.transitions[k])
    && i < |t.transitions[k].effects|
    && Reaches(t.transitions[k].effects[i], r, Fold(l, t), (c: Call) => l.site(c) == Server)
  }

  /** And a verdict is never idle: a server leg has a run that reaches a call placed on the server. */
  lemma ServerVerdictIsExact(l: Language, t: Trait, event: string)
    ensures TouchesServer(l, t, Some(event)) <==> exists k: nat, i: nat, r :: ReachesServer(l, t, event, k, i, r)
  {
    var onServer := (c: Call) => l.site(c) == Server;
    if TouchesServer(l, t, Some(event)) {
      var k :| 0 <= k < |t.transitions| && t.transitions[k].event == event && Live(l, t, t.transitions[k]) &&
               AnyServer(l, t, t.transitions[k].effects);
      var i :| 0 <= i < |t.transitions[k].effects| && RunsServerEffect(l, t, t.transitions[k].effects[i]);
      var r := WalkIsComplete(t.transitions[k].effects[i], Fold(l, t), onServer);
      assert ReachesServer(l, t, event, k, i, r);
    }
    if k: nat, i: nat, r :| ReachesServer(l, t, event, k, i, r) {
      WalkIsSound(t.transitions[k].effects[i], r, Fold(l, t), onServer);
      assert AnyServer(l, t, t.transitions[k].effects);
    }
  }

  /** Run `r` of effect `i` reaches a call browser storage took off the server. */
  ghost predicate EffectReachesBrowserData(l: Language, t: Trait, effects: seq<SExpr>, i: nat, r: Run) {
    i < |effects| && Reaches(effects[i], r, Fold(l, t), (c: Call) => l.registered(c.operator) && l.site(c) == Client)
  }

  /** Such an effect of live transition `k`. */
  ghost predicate ReachesBrowserData(l: Language, t: Trait, event: string, k: nat, i: nat, r: Run) {
    && k < |t.transitions| && t.transitions[k].event == event && Live(l, t, t.transitions[k])
    && EffectReachesBrowserData(l, t, t.transitions[k].effects, i, r)
  }

  /** The same for tick `k`, judged by its own event; one that runs in the background is no leg. */
  ghost predicate TickReachesBrowserData(l: Language, t: Trait, event: string, k: nat, i: nat, r: Run) {
    && k < |t.ticks| && TickEventKey(t.ticks[k].name) == event && !t.ticks[k].background
    && EffectReachesBrowserData(l, t, t.ticks[k].effects, i, r)
  }

  lemma EffectsReachBrowserData(l: Language, t: Trait, effects: seq<SExpr>)
    ensures AnyBrowserData(l, t, effects) <==>
            exists i: nat, r :: EffectReachesBrowserData(l, t, effects, i, r)
  {
    var onClient := (c: Call) => l.registered(c.operator) && l.site(c) == Client;
    if AnyBrowserData(l, t, effects) {
      var i: nat :| i < |effects| && RunsBrowserDataEffect(l, t, effects[i]);
      var r := WalkIsComplete(effects[i], Fold(l, t), onClient);
      assert EffectReachesBrowserData(l, t, effects, i, r);
    }
    if i: nat, r :| EffectReachesBrowserData(l, t, effects, i, r) {
      WalkIsSound(effects[i], r, Fold(l, t), onClient);
      assert RunsBrowserDataEffect(l, t, effects[i]);
    }
  }

  /** A browser leg is exactly one with a run of a live transition, or of a client tick of that event, that reaches browser data. */
  lemma BrowserVerdictIsExact(l: Language, t: Trait, event: string)
    ensures IsBrowserLeg(l, t, event) <==>
            (exists k: nat, i: nat, r :: ReachesBrowserData(l, t, event, k, i, r))
            || (exists k: nat, i: nat, r :: TickReachesBrowserData(l, t, event, k, i, r))
  {
    if IsBrowserLeg(l, t, event) {
      if k :| 0 <= k < |t.transitions| && t.transitions[k].event == event && Live(l, t, t.transitions[k]) &&
              AnyBrowserData(l, t, t.transitions[k].effects) {
        EffectsReachBrowserData(l, t, t.transitions[k].effects);
        var i: nat, r :| EffectReachesBrowserData(l, t, t.transitions[k].effects, i, r);
        assert ReachesBrowserData(l, t, event, k, i, r);
      } else {
        var k :| 0 <= k < |t.ticks| && TickEventKey(t.ticks[k].name) == event && !t.ticks[k].background &&
                 AnyBrowserData(l, t, t.ticks[k].effects);
        EffectsReachBrowserData(l, t, t.ticks[k].effects);
        var i: nat, r :| EffectReachesBrowserData(l, t, t.ticks[k].effects, i, r);
        assert TickReachesBrowserData(l, t, event, k, i, r);
      }
    }
    if k: nat, i: nat, r :| ReachesBrowserData(l, t, event, k, i, r) {
      EffectsReachBrowserData(l, t, t.transitions[k].effects);
      assert AnyBrowserData(l, t, t.transitions[k].effects);
    }
    if k: nat, i: nat, r :| TickReachesBrowserData(l, t, event, k, i, r) {
      EffectsReachBrowserData(l, t, t.ticks[k].effects);
      assert AnyBrowserData(l, t, t.ticks[k].effects);
    }
  }

  // ---------------------------------------------------------------------------------------------
  // Routing

  datatype Transport = Local | Remote

  datatype RouteError = Mixed | NoServer

  datatype LegTrait = LegTrait(name: string, event: Option<string>)

  /** The parts of a dispatch request the router reads; `entityByTrait` travels with a mount batch. */
  datatype Request = Request(
    event: string, targetTrait: Option<string>, sourceTrait: Option<string>,
    traits: Option<seq<LegTrait>>, mount: seq<string>, entityByTrait: Option<map<string, string>>)

  function NamesOf(traits: seq<LegTrait>): set<string> {
    set i | 0 <= i < |traits| :: traits[i].name
  }

  function TraitsOf(r: Request): seq<LegTrait> {
    if r.traits.Some? then r.traits.value else []
  }

  function Named(r: Request): set<string> {
    (if r.targetTrait.Some? then {r.targetTrait.value} else {})
    + (if r.sourceTrait.Some? then {r.sourceTrait.value} else {})
    + NamesOf(TraitsOf(r)) + (set i | 0 <= i < |r.mount| :: r.mount[i])
  }

  /** The event a trait is judged by: the last one its legs name, else the request's. */
  function EventOf(traits: seq<LegTrait>, name: string, event: string): string {
    if traits == [] then event
    else
      var last := traits[|traits| - 1];
      if last.name == name then (if last.event.Some? then last.event.value else event)
      else EventOf(traits[..|traits| - 1], name, event)
  }

  predicate InLeg(r: Request, orbital: string, t: Trait) {
    if Named(r) != {} then t.name in Named(r) else t.orbital == orbital
  }

  predicate ServerLeg(l: Language, index: seq<Trait>, orbital: string, r: Request) {
    exists i :: 0 <= i < |index| && InLeg(r, orbital, index[i])
      && TouchesServer(l, index[i], Some(EventOf(TraitsOf(r), index[i].name, r.event)))
  }

  predicate BrowserLeg(l: Language, index: seq<Trait>, orbital: string, r: Request) {
    exists i :: 0 <= i < |index| && InLeg(r, orbital, index[i])
      && IsBrowserLeg(l, index[i], EventOf(TraitsOf(r), index[i].name, r.event))
  }

  function Route(l: Language, index: seq<Trait>, hasServer: bool, orbital: string, r: Request): Result<Transport, RouteError> {
    if ServerLeg(l, index, orbital, r) && BrowserLeg(l, index, orbital, r) then Err(Mixed)
    else if BrowserLeg(l, index, orbital, r) then Ok(Local)
    else if hasServer then Ok(Remote)
    else if ServerLeg(l, index, orbital, r) then Err(NoServer)
    else Ok(Local)
  }

  /** The request names the trait, or names none and the trait is of its orbital. */
  predicate Concerns(r: Request, orbital: string, t: Trait) {
    || r.targetTrait == Some(t.name) || r.sourceTrait == Some(t.name) || t.name in r.mount
    || (exists i :: 0 <= i < |TraitsOf(r)| && TraitsOf(r)[i].name == t.name)
    || (t.orbital == orbital && r.targetTrait.None? && r.sourceTrait.None? && r.mount == [] && TraitsOf(r) == [])
  }

  /** The trait is judged by `event`: the last leg that names it says so, or is silent, or there is none and the request says so. */
  ghost predicate JudgedBy(r: Request, name: string, event: string) {
    || (exists i :: IsLastNamed(TraitsOf(r), name, i) &&
          event == (if TraitsOf(r)[i].event.Some? then TraitsOf(r)[i].event.value else r.event))
    || (event == r.event && forall i :: 0 <= i < |TraitsOf(r)| ==> TraitsOf(r)[i].name != name)
  }

  predicate IsLastNamed(traits: seq<LegTrait>, name: string, i: int) {
    0 <= i < |traits| && traits[i].name == name && forall j :: i < j < |traits| ==> traits[j].name != name
  }

  lemma ConcernsWhoIsInTheLeg(r: Request, orbital: string, t: Trait)
    ensures InLeg(r, orbital, t) <==> Concerns(r, orbital, t)
  {
    if r.mount != [] { assert r.mount[0] in Named(r); }
    if TraitsOf(r) != [] { assert TraitsOf(r)[0].name in Named(r); }
    if r.targetTrait.Some? { assert r.targetTrait.value in Named(r); }
    if r.sourceTrait.Some? { assert r.sourceTrait.value in Named(r); }
  }

  lemma {:induction false} EventOfIsTheLastNamed(traits: seq<LegTrait>, name: string, event: string)
    ensures (forall i :: 0 <= i < |traits| ==> traits[i].name != name) ==> EventOf(traits, name, event) == event
    ensures forall i :: IsLastNamed(traits, name, i) ==>
              EventOf(traits, name, event) == if traits[i].event.Some? then traits[i].event.value else event
    ensures (exists i :: 0 <= i < |traits| && traits[i].name == name) ==> exists i :: IsLastNamed(traits, name, i)
    decreases |traits|
  {
    if traits != [] {
      var n := |traits| - 1;
      var front := traits[..n];
      EventOfIsTheLastNamed(front, name, event);
      if traits[n].name == name {
        assert IsLastNamed(traits, name, n);
      } else {
        forall i ensures IsLastNamed(traits, name, i) <==> IsLastNamed(front, name, i) {
          if IsLastNamed(traits, name, i) { assert forall j :: i < j < n ==> front[j] == traits[j]; }
          if IsLastNamed(front, name, i) { assert forall j :: i < j < n ==> front[j] == traits[j]; }
        }
        if i :| 0 <= i < |traits| && traits[i].name == name {
          assert front[i].name == name;
          var j :| IsLastNamed(front, name, j);
          assert IsLastNamed(traits, name, j);
        }
      }
    }
  }

  lemma JudgedByItsEvent(r: Request, name: string, event: string)
    ensures JudgedBy(r, name, event) <==> event == EventOf(TraitsOf(r), name, r.event)
  {
    EventOfIsTheLastNamed(TraitsOf(r), name, r.event);
  }

  /** A trait the request concerns has a run, on the event it is judged by, that reaches a call placed on the server. */
  ghost predicate ServerRun(l: Language, index: seq<Trait>, orbital: string, r: Request, j: nat, event: string, k: nat, i: nat, run: Run) {
    && j < |index| && Concerns(r, orbital, index[j]) && JudgedBy(r, index[j].name, event)
    && ReachesServer(l, index[j], event, k, i, run)
  }

  /** The same for a call browser storage took off the server. */
  ghost predicate BrowserRun(l: Language, index: seq<Trait>, orbital: string, r: Request, j: nat, event: string, k: nat, i: nat, run: Run) {
    && j < |index| && Concerns(r, orbital, index[j]) && JudgedBy(r, index[j].name, event)
    && (ReachesBrowserData(l, index[j], event, k, i, run) || TickReachesBrowserData(l, index[j], event, k, i, run))
  }

  ghost predicate CanReachServer(l: Language, index: seq<Trait>, orbital: string, r: Request) {
    exists j: nat, event, k: nat, i: nat, run :: ServerRun(l, index, orbital, r, j, event, k, i, run)
  }

  ghost predicate CanReachBrowserData(l: Language, index: seq<Trait>, orbital: string, r: Request) {
    exists j: nat, event, k: nat, i: nat, run :: BrowserRun(l, index, orbital, r, j, event, k, i, run)
  }

  lemma ServerLegsReach(l: Language, index: seq<Trait>, orbital: string, r: Request)
    ensures ServerLeg(l, index, orbital, r) <==> CanReachServer(l, index, orbital, r)
  {
    if ServerLeg(l, index, orbital, r) {
      var j: nat :| j < |index| && InLeg(r, orbital, index[j]) &&
                    TouchesServer(l, index[j], Some(EventOf(TraitsOf(r), index[j].name, r.event)));
      var event := EventOf(TraitsOf(r), index[j].name, r.event);
      ConcernsWhoIsInTheLeg(r, orbital, index[j]);
      JudgedByItsEvent(r, index[j].name, event);
      ServerVerdictIsExact(l, index[j], event);
      var k: nat, i: nat, run :| ReachesServer(l, index[j], event, k, i, run);
      assert ServerRun(l, index, orbital, r, j, event, k, i, run);
    }
    if j: nat, event, k: nat, i: nat, run :| ServerRun(l, index, orbital, r, j, event, k, i, run) {
      ConcernsWhoIsInTheLeg(r, orbital, index[j]);
      JudgedByItsEvent(r, index[j].name, event);
      ServerVerdictIsExact(l, index[j], event);
    }
  }

  lemma BrowserLegsReach(l: Language, index: seq<Trait>, orbital: string, r: Request)
    ensures BrowserLeg(l, index, orbital, r) <==> CanReachBrowserData(l, index, orbital, r)
  {
    if BrowserLeg(l, index, orbital, r) {
      var j: nat :| j < |index| && InLeg(r, orbital, index[j]) &&
                    IsBrowserLeg(l, index[j], EventOf(TraitsOf(r), index[j].name, r.event));
      var event := EventOf(TraitsOf(r), index[j].name, r.event);
      ConcernsWhoIsInTheLeg(r, orbital, index[j]);
      JudgedByItsEvent(r, index[j].name, event);
      BrowserVerdictIsExact(l, index[j], event);
      if k: nat, i: nat, run :| ReachesBrowserData(l, index[j], event, k, i, run) {
        assert BrowserRun(l, index, orbital, r, j, event, k, i, run);
      } else {
        var k: nat, i: nat, run :| TickReachesBrowserData(l, index[j], event, k, i, run);
        assert BrowserRun(l, index, orbital, r, j, event, k, i, run);
      }
    }
    if j: nat, event, k: nat, i: nat, run :| BrowserRun(l, index, orbital, r, j, event, k, i, run) {
      ConcernsWhoIsInTheLeg(r, orbital, index[j]);
      JudgedByItsEvent(r, index[j].name, event);
      BrowserVerdictIsExact(l, index[j], event);
    }
  }

  /**
   Where a request goes follows from what its runs can reach: data on both sides is refused, browser data stays here,
   server data never does, and a request that reaches neither goes to the server when there is one.
   */
  lemma RoutesFollowReach(l: Language, index: seq<Trait>, hasServer: bool, orbital: string, r: Request)
    ensures var server, browser := CanReachServer(l, index, orbital, r), CanReachBrowserData(l, index, orbital, r);
            var route := Route(l, index, hasServer, orbital, r);
            && (route == Err(Mixed) <==> server && browser)
            && (route == Ok(Remote) <==> hasServer && !browser)
            && (route == Ok(Local) <==> !server && (browser || !hasServer))
            && (route == Err(NoServer) <==> server && !browser && !hasServer)
  {
    ServerLegsReach(l, index, orbital, r);
    BrowserLegsReach(l, index, orbital, r);
  }

  /**
   A tick's own event is judged by its browser data alone.  A client tick whose effects reach the server makes its
   trait one that touches the server, yet the tick's leg is no server leg: with no server at hand it is routed to the
   browser instead of being refused, as a transition with those effects would be.
   */
  lemma TickLegsIgnoreServerEffects(l: Language, t: Trait, k: nat, r: Request)
    requires k < |t.ticks| && !t.ticks[k].background && AnyServer(l, t, t.ticks[k].effects)
    requires r.event == TickEventKey(t.ticks[k].name) && TraitsOf(r) == []
    requires forall i :: 0 <= i < |t.transitions| ==> t.transitions[i].event != r.event
    ensures TouchesServer(l, t, None) && !TouchesServer(l, t, Some(r.event))
    ensures Route(l, [t], false, t.orbital, r) == Ok(Local)
    ensures var u := t.(transitions := [Transition(r.event, None, t.ticks[k].effects)], ticks := []);
            InLeg(r, t.orbital, t) ==> Route(l, [u], false, t.orbital, r).Err?
  {
    var u := t.(transitions := [Transition(r.event, None, t.ticks[k].effects)], ticks := []);
    assert EventOf(TraitsOf(r), t.name, r.event) == r.event;
    if InLeg(r, t.orbital, t) {
      assert u.transitions[0].event == r.event && AnyServer(l, u, u.transitions[0].effects);
      assert TouchesServer(l, u, Some(r.event)) && InLeg(r, t.orbital, [u][0]);
      assert ServerLeg(l, [u], t.orbital, r);
    }
  }

  // ---------------------------------------------------------------------------------------------
  // Mount batches

  /** The request one seed is routed by. */
  function SeedRequest(r: Request, seed: string): Request {
    r.(mount := [seed], traits := None, targetTrait := None, sourceTrait := None)
  }

  function RouteSeed(l: Language, index: seq<Trait>, hasServer: bool, orbital: string, r: Request, seed: string)
    : Result<Transport, RouteError>
  {
    Route(l, index, hasServer, orbital, SeedRequest(r, seed))
  }

  /** Routing a seed reads nothing of it but its trait. */
  function Router(l: Language, index: seq<Trait>, hasServer: bool, orbital: string, r: Request): string -> Result<Transport, RouteError> {
    seed => RouteSeed(l, index, hasServer, orbital, r, seed)
  }

  datatype Leg = Leg(transport: Transport, request: Request)

  function Keep(seeds: seq<string>, keep: set<string>): seq<string> {
    if seeds == [] then []
    else (if seeds[0] in keep then [seeds[0]] else []) + Keep(seeds[1..], keep)
  }

  function KeepTraits(traits: seq<LegTrait>, keep: set<string>): seq<LegTrait> {
    if traits == [] then []
    else (if traits[0].name in keep then [traits[0]] else []) + KeepTraits(traits[1..], keep)
  }

  function LegFor(r: Request, transport: Transport, keep: set<string>): Leg {
    Leg(transport,
        r.(mount := Keep(r.mount, keep),
           traits := if r.traits.Some? then Some(KeepTraits(r.traits.value, keep)) else None,
           entityByTrait := if r.entityByTrait.Some?
                            then Some(map t | t in r.entityByTrait.value && t in keep :: r.entityByTrait.value[t]) else None))
  }

  /** The seeds whose own routing gives `transport`, in order. */
  function SeedsOf(route: string -> Result<Transport, RouteError>, seeds: seq<string>, transport: Transport): seq<string> {
    if seeds == [] then []
    else (if route(seeds[0]) == Ok(transport) then [seeds[0]] else []) + SeedsOf(route, seeds[1..], transport)
  }

  /** The traits of the seeds that are routed to `transport`. */
  ghost function RoutedTo(route: string -> Result<Transport, RouteError>, seeds: seq<string>, transport: Transport): set<string> {
    set s | s in seeds && route(s) == Ok(transport)
  }

  /** A leg for each residence some seed is routed to, with that residence's seeds. */
  ghost predicate LegsOk(route: string -> Result<Transport, RouteError>, r: Request, legs: seq<Leg>) {
    && (forall i, j :: 0 <= i < j < |legs| ==> legs[i].transport != legs[j].transport)
    && (forall k :: 0 <= k < |legs| ==> legs[k] == LegFor(r, legs[k].transport, RoutedTo(route, r.mount, legs[k].transport)))
    && (forall s :: s in r.mount ==> exists k :: 0 <= k < |legs| && route(s) == Ok(legs[k].transport))
  }

  /** The residences the seeds are routed to, in that order and without the later repeats. */
  function FirstReached(route: string -> Result<Transport, RouteError>, seeds: seq<string>): seq<Transport> {
    if seeds == [] then []
    else
      var earlier := FirstReached(route, seeds[..|seeds| - 1]);
      var last := route(seeds[|seeds| - 1]);
      if last.Ok? && last.value !in earlier then earlier + [last.value] else earlier
  }

  lemma OneSeedMore(route: string -> Result<Transport, RouteError>, earlier: seq<string>, seed: string)
    ensures var reached := FirstReached(route, earlier);
            FirstReached(route, earlier + [seed]) ==
            if route(seed).Ok? && route(seed).value !in reached then reached + [route(seed).value] else reached
    ensures forall t :: RoutedTo(route, earlier + [seed], t) ==
                        RoutedTo(route, earlier, t) + if route(seed) == Ok(t) then {seed} else {}
  {
    assert (earlier + [seed])[..|earlier|] == earlier;
  }

  /** The groups so far: the residences in the order reached, and the traits of the seeds routed to each. */
  ghost predicate Grouped(
      route: string -> Result<Transport, RouteError>, seeds: seq<string>, order: seq<Transport>, groups: map<Transport, set<string>>)
  {
    && order == FirstReached(route, seeds)
    && (forall s :: s in seeds ==> route(s).Ok? && route(s).value in order)
    && (forall i, j :: 0 <= i < j < |order| ==> order[i] != order[j])
    && (forall t :: t in groups <==> t in order)
    && (forall t :: t in groups ==> groups[t] == RoutedTo(route, seeds, t))
  }

  /** A seed joins the group of its residence, which starts one, last in order, when it is the first to reach it. */
  function AddSeed(order: seq<Transport>, groups: map<Transport, set<string>>, t: Transport, seed: string)
    : (seq<Transport>, map<Transport, set<string>>)
  {
    if t in groups then (order, groups[t := groups[t] + {seed}]) else (order + [t], groups[t := {seed}])
  }

  lemma ReachedBefore(
      route: string -> Result<Transport, RouteError>, earlier: seq<string>, seed: string, order: seq<Transport>,
      groups: map<Transport, set<string>>, t: Transport)
    requires Grouped(route, earlier, order, groups) && route(seed) == Ok(t) && t in groups
    ensures Grouped(route, earlier + [seed], order, groups[t := groups[t] + {seed}])
  {
    OneSeedMore(route, earlier, seed);
  }

  lemma ReachedFirst(
      route: string -> Result<Transport, RouteError>, earlier: seq<string>, seed: string, order: seq<Transport>,
      groups: map<Transport, set<string>>, t: Transport)
    requires Grouped(route, earlier, order, groups) && route(seed) == Ok(t) && t !in groups
    ensures Grouped(route, earlier + [seed], order + [t], groups[t := {seed}])
  {
    OneSeedMore(route, earlier, seed);
    assert RoutedTo(route, earlier, t) == {};
  }

  lemma GroupedMore(
      route: string -> Result<Transport, RouteError>, earlier: seq<string>, seed: string, order: seq<Transport>,
      groups: map<Transport, set<string>>)
    requires Grouped(route, earlier, order, groups) && route(seed).Ok?
    ensures var next := AddSeed(order, groups, route(seed).value, seed);
            Grouped(route, earlier + [seed], next.0, next.1)
  {
    var t := route(seed).value;
    if t in groups {
      ReachedBefore(route, earlier, seed, order, groups, t);
    } else {
      ReachedFirst(route, earlier, seed, order, groups, t);
    }
  }

  /** The transports in the order the seeds first reach them, with the traits of each. */
  method GroupSeeds(route: string -> Result<Transport, RouteError>, seeds: seq<string>)
    returns (failed: Option<RouteError>, order: seq<Transport>, groups: map<Transport, set<string>>)
    ensures failed.Some? <==> exists s :: s in seeds && route(s).Err?
    ensures failed.None? ==> order == FirstReached(route, seeds)
    ensures failed.None? ==> forall i, j :: 0 <= i < j < |order| ==> order[i] != order[j]
    ensures failed.None? ==> forall i :: 0 <= i < |order| ==> order[i] in groups && groups[order[i]] == RoutedTo(route, seeds, order[i])
    ensures failed.None? ==> forall s :: s in seeds ==> route(s).Ok? && route(s).value in order
  {
    failed, order, groups := None, [], map[];
    for n := 0 to |seeds|
      invariant Grouped(route, seeds[..n], order, groups)
    {
      var routed := route(seeds[n]);
      if routed.Err? {
        failed := Some(routed.error);
        return;
      }
      GroupedMore(route, seeds[..n], seeds[n], order, groups);
      var (nextOrder, nextGroups) := AddSeed(order, groups, routed.value, seeds[n]);
      order, groups := nextOrder, nextGroups;
      assert seeds[..n + 1] == seeds[..n] + [seeds[n]];
    }
    assert seeds[..|seeds|] == seeds;
  }

  function LegTransports(legs: seq<Leg>): (transports: seq<Transport>)
    ensures |transports| == |legs| && forall i :: 0 <= i < |legs| ==> transports[i] == legs[i].transport
  {
    seq(|legs|, i requires 0 <= i < |legs| => legs[i].transport)
  }

  /** `mountLegs`: it throws exactly when some seed has no single residence. */
  method MountLegs(l: Language, index: seq<Trait>, hasServer: bool, orbital: string, r: Request)
    returns (legs: Result<seq<Leg>, RouteError>)
    ensures legs.Err? <==> exists s :: s in r.mount && RouteSeed(l, index, hasServer, orbital, r, s).Err?
    ensures legs.Ok? ==> LegsOk(Router(l, index, hasServer, orbital, r), r, legs.value)
    ensures legs.Ok? ==> LegTransports(legs.value) == FirstReached(Router(l, index, hasServer, orbital, r), r.mount)
  {
    var route := Router(l, index, hasServer, orbital, r);
    assert forall s :: route(s) == RouteSeed(l, index, hasServer, orbital, r, s);
    var failed, order, groups := GroupSeeds(route, r.mount);
    if failed.Some? { return Err(failed.value); }
    var built: seq<Leg> := [];
    for k := 0 to |order|
      invariant |built| == k
      invariant forall i :: 0 <= i < k ==> built[i] == LegFor(r, order[i], RoutedTo(route, r.mount, order[i]))
    {
      var leg := LegFor(r, order[k], groups[order[k]]);
      built := built + [leg];
    }
    assert LegTransports(built) == order;
    forall s | s in r.mount ensures exists k :: 0 <= k < |built| && route(s) == Ok(built[k].transport) {
      var k :| 0 <= k < |order| && order[k] == route(s).value;
      assert built[k].transport == order[k];
    }
    legs := Ok(built);
  }

  /** A leg's seeds are exactly those its own routing sends there, in their order. */
  lemma LegSeedsAreTheRouted(route: string -> Result<Transport, RouteError>, r: Request, legs: seq<Leg>, k: nat)
    requires LegsOk(route, r, legs) && k < |legs|
    ensures legs[k].request.mount == SeedsOf(route, r.mount, legs[k].transport)
  {
    KeptAreRouted(route, r.mount, r.mount, legs[k].transport);
  }

  lemma {:induction false} KeptAreRouted(
      route: string -> Result<Transport, RouteError>, all: seq<string>, seeds: seq<string>, transport: Transport)
    requires forall s :: s in seeds ==> s in all
    ensures Keep(seeds, RoutedTo(route, all, transport)) == SeedsOf(route, seeds, transport)
    decreases |seeds|
  {
    if seeds != [] {
      KeptAreRouted(route, all, seeds[1..], transport);
      assert seeds[0] in all;
    }
  }

  function MountsOf(legs: seq<Leg>): seq<string> {
    if legs == [] then [] else legs[0].request.mount + MountsOf(legs[1..])
  }

  /** Every seed lands in exactly one leg: together the legs' seeds are the batch, none lost and none doubled. */
  lemma LegsPartitionTheBatch(route: string -> Result<Transport, RouteError>, r: Request, legs: seq<Leg>)
    requires LegsOk(route, r, legs)
    ensures multiset(MountsOf(legs)) == multiset(r.mount)
  {
    AtMostTwo(legs);
    SeedsSplit(route, r.mount);
    forall k | 0 <= k < |legs| ensures legs[k].request.mount == SeedsOf(route, r.mount, legs[k].transport) {
      LegSeedsAreTheRouted(route, r, legs, k);
    }
    forall t | t !in Transports(legs) ensures SeedsOf(route, r.mount, t) == [] {
      UnreachedTransport(route, r, legs, t);
    }
    PartitionOf(legs, SeedsOf(route, r.mount, Local), SeedsOf(route, r.mount, Remote));
  }

  function Transports(legs: seq<Leg>): set<Transport> {
    set k | 0 <= k < |legs| :: legs[k].transport
  }

  lemma UnreachedTransport(route: string -> Result<Transport, RouteError>, r: Request, legs: seq<Leg>, t: Transport)
    requires LegsOk(route, r, legs) && t !in Transports(legs)
    ensures SeedsOf(route, r.mount, t) == []
  {
    NoSeeds(route, r.mount, t);
  }

  lemma PartitionOf(legs: seq<Leg>, local: seq<string>, remote: seq<string>)
    requires |legs| <= 2
    requires |legs| == 2 ==> legs[0].transport != legs[1].transport
    requires forall k :: 0 <= k < |legs| ==> legs[k].request.mount == if legs[k].transport.Local? then local else remote
    requires (Local !in Transports(legs) ==> local == []) && (Remote !in Transports(legs) ==> remote == [])
    ensures multiset(MountsOf(legs)) == multiset(local) + multiset(remote)
  {
    if |legs| == 2 {
      MountsOfTwo(legs);
      if legs[0].transport.Local? {
        assert MountsOf(legs) == local + remote;
      } else {
        assert MountsOf(legs) == remote + local;
      }
    } else if |legs| == 1 {
      assert Transports(legs) == {legs[0].transport};
      assert MountsOf(legs) == legs[0].request.mount + [];
      if legs[0].transport.Local? {
        assert remote == [] && MountsOf(legs) == local;
      } else {
        assert local == [] && MountsOf(legs) == remote;
      }
    }
  }

  lemma MountsOfTwo(legs: seq<Leg>)
    requires |legs| == 2
    ensures MountsOf(legs) == legs[0].request.mount + legs[1].request.mount
  {
    assert legs[1..] == [legs[1]];
    assert MountsOf([legs[1]]) == legs[1].request.mount + MountsOf([]);
  }

  lemma AtMostTwo(legs: seq<Leg>)
    ensures |legs| > 2 ==> exists i, j :: 0 <= i < j < |legs| && legs[i].transport == legs[j].transport
  {
    if |legs| > 2 {
      var pair := if legs[0].transport == legs[1].transport then (0, 1)
                  else if legs[0].transport == legs[2].transport then (0, 2) else (1, 2);
      assert legs[pair.0].transport == legs[pair.1].transport;
    }
  }

  lemma {:induction false} NoSeeds(route: string -> Result<Transport, RouteError>, seeds: seq<string>, transport: Transport)
    requires forall s :: s in seeds ==> route(s) != Ok(transport)
    ensures SeedsOf(route, seeds, transport) == []
  {
    if seeds != [] {
      NoSeeds(route, seeds[1..], transport);
    }
  }

  lemma {:induction false} SeedsSplit(route: string -> Result<Transport, RouteError>, seeds: seq<string>)
    requires forall s :: s in seeds ==> route(s).Ok?
    ensures multiset(seeds) == multiset(SeedsOf(route, seeds, Local)) + multiset(SeedsOf(route, seeds, Remote))
  {
    if seeds != [] {
      SeedsSplit(route, seeds[1..]);
      assert seeds == [seeds[0]] + seeds[1..];
      assert seeds[0] in seeds && (route(seeds[0]).value.Local? || route(seeds[0]).value.Remote?);
    }
  }
}
