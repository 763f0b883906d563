/**
 The running slot of a browser host: requests wait in two lanes, one turn holds the slot, and a
 turn may give the slot up while it awaits a service and queue for it again in its own lane.

 `Host` and `Step` are the slot as an abstract machine over which every interleaving is a sequence
 of actions.  `BrowserQueue` is the mutable queue; each of its methods refines one action.
 */
module BrowserHostQueue {
  import opened Wrappers

  datatype Lane = Foreground | Background

  /** `away`: the turn gave its slot up for an outside call that has not come back. */
  datatype TurnState = TurnState(lane: Lane, started: bool, held: bool, done: bool, away: bool)

  /** One grant of the slot, with how many foreground turns were waiting when it was made. */
  datatype SlotGrant = SlotGrant(turn: nat, lane: Lane, foregroundWaiting: nat)

  /**
   `freed` says that the grant the pump awaits has been given back, so the pump has a step to take.
   `queuedForeground`, `queuedBackground` and `grants` record the run: every push and every grant.
   */
  datatype Host = Host(
    foreground: seq<nat>,
    background: seq<nat>,
    pumping: bool,
    freed: bool,
    running: Option<nat>,
    turns: seq<TurnState>,
    queuedForeground: seq<nat>,
    queuedBackground: seq<nat>,
    grants: seq<SlotGrant>)

  datatype Action =
    | Arrive(lane: Lane)     // a request is enqueued
    | Outside                // the work of some turn calls `outsideEventQueue`
    | Return(turn: nat)      // the outside work of `turn` is over: the slot is taken again
    | Settle(turn: nat)      // the work of `turn` settles, with a result or a failure
    | Resume                 // the pump continues after the grant it awaited was freed

  const Idle := Host([], [], false, false, None, [], [], [], [])

  predicate Enabled(h: Host, a: Action) {
    match a
    case Arrive(_) => true
    case Outside => true
    case Return(t) => t < |h.turns| && h.turns[t].away
    case Settle(t) => t < |h.turns| && h.turns[t].started && !h.turns[t].done
    case Resume => h.pumping && h.freed
  }

  function GrantTo(h: Host, t: nat): Host
    requires t < |h.turns|
  {
    h.(running := Some(t), freed := false,
       turns := h.turns[t := h.turns[t].(started := true, held := true)],
       grants := h.grants + [SlotGrant(t, h.turns[t].lane, |h.foreground|)])
  }

  ghost predicate ValidIds(h: Host) {
    && (forall i :: 0 <= i < |h.foreground| ==> h.foreground[i] < |h.turns|)
    && (forall i :: 0 <= i < |h.background| ==> h.background[i] < |h.turns|)
    && (h.running.Some? ==> h.running.value < |h.turns|)
  }

  /** One round of the pump's loop: the next foreground turn, else the next background one, else stop. */
  function Next(h: Host): Host
    requires ValidIds(h)
  {
    if h.foreground != [] then GrantTo(h.(foreground := h.foreground[1..]), h.foreground[0])
    else if h.background != [] then GrantTo(h.(background := h.background[1..]), h.background[0])
    else h.(pumping := false, freed := false)
  }

  function Awaken(h: Host): Host
    requires ValidIds(h)
  {
    if h.pumping then h else Next(h.(pumping := true))
  }

  function Push(h: Host, t: nat): Host
    requires t < |h.turns|
  {
    match h.turns[t].lane
    case Foreground => h.(foreground := h.foreground + [t], queuedForeground := h.queuedForeground + [t])
    case Background => h.(background := h.background + [t], queuedBackground := h.queuedBackground + [t])
  }

  function Release(h: Host, t: nat): Host
    requires t < |h.turns|
  {
    h.(turns := h.turns[t := h.turns[t].(held := false)],
       running := if h.running == Some(t) then None else h.running,
       freed := true)
  }

  function Step(h: Host, a: Action): Host
    requires ValidIds(h) && Enabled(h, a)
  {
    match a
    case Arrive(lane) =>
      var t := |h.turns|;
      Awaken(Push(h.(turns := h.turns + [TurnState(lane, false, false, false, false)]), t))
    case Outside =>
      if h.running.None? || !h.turns[h.running.value].held then h
      else
        var t := h.running.value;
        var r := Release(h, t);
        r.(turns := r.turns[t := r.turns[t].(away := true)])
    case Return(t) => Awaken(Push(h.(turns := h.turns[t := h.turns[t].(away := false)]), t))
    case Settle(t) =>
      var d := h.(turns := h.turns[t := h.turns[t].(done := true)]);
      if d.turns[t].held then Release(d, t) else d
    case Resume => Next(h)
  }

  // ---------------------------------------------------------------------------------------------
  // What every interleaving keeps

  function Granted(grants: seq<SlotGrant>, lane: Lane): (turns: seq<nat>)
  {
    if grants == [] then []
    else
      var g := grants[|grants| - 1];
      Granted(grants[..|grants| - 1], lane) + if g.lane == lane then [g.turn] else []
  }

  ghost predicate NoDuplicates(s: seq<nat>) {
    forall i, j :: 0 <= i < j < |s| ==> s[i] != s[j]
  }

  /** A waiting turn is in its own lane, once, and neither holds the slot nor is away. */
  ghost predicate LaneOk(h: Host, queue: seq<nat>, lane: Lane)
    requires forall i :: 0 <= i < |queue| ==> queue[i] < |h.turns|
  {
    && NoDuplicates(queue)
    && forall i :: 0 <= i < |queue| ==>
         var s := h.turns[queue[i]]; s.lane == lane && !s.held && !s.away
  }

  /** At most one turn holds the slot and `running` names it; the pump never sleeps over a waiting turn. */
  ghost predicate SlotOk(h: Host) {
    && (forall t :: 0 <= t < |h.turns| ==> (h.turns[t].held <==> h.running == Some(t)))
    && (forall t :: 0 <= t < |h.turns| ==> h.turns[t].held || h.turns[t].away ==> h.turns[t].started)
    && (forall t :: 0 <= t < |h.turns| ==> !(h.turns[t].held && h.turns[t].away))
    && (h.pumping ==> (h.freed <==> h.running.None?))
    && (!h.pumping ==> h.foreground == [] && h.background == [] && h.running.None? && !h.freed)
  }

  ghost predicate LanesOk(h: Host)
    requires ValidIds(h)
  {
    LaneOk(h, h.foreground, Foreground) && LaneOk(h, h.background, Background)
  }

  /** Within a lane first in, first out: what was granted, then what waits, is what was queued. */
  ghost predicate OrderOk(h: Host) {
    && h.queuedForeground == Granted(h.grants, Foreground) + h.foreground
    && h.queuedBackground == Granted(h.grants, Background) + h.background
    && (forall i :: 0 <= i < |h.grants| && h.grants[i].lane == Background ==> h.grants[i].foregroundWaiting == 0)
  }

  /** No turn is forgotten: until its work settles a turn holds the slot, waits for it or is away. */
  ghost predicate NoneLost(h: Host) {
    forall t :: 0 <= t < |h.turns| && !h.turns[t].done ==>
      h.turns[t].held || h.turns[t].away || t in h.foreground || t in h.background
  }

  ghost predicate Inv(h: Host) {
    ValidIds(h) && SlotOk(h) && LanesOk(h) && OrderOk(h) && NoneLost(h)
  }

  lemma GrantKeepsOrder(h: Host)
    requires ValidIds(h) && OrderOk(h)
    requires h.foreground != [] ==> h.turns[h.foreground[0]].lane == Foreground
    requires h.background != [] ==> h.turns[h.background[0]].lane == Background
    ensures OrderOk(Next(h))
  {
    var n := Next(h);
    if n.grants != h.grants {
      assert n.grants[..|n.grants| - 1] == h.grants;
    }
  }

  lemma GrantKeepsAll(h: Host)
    requires ValidIds(h) && NoneLost(h)
    ensures NoneLost(Next(h))
  {
    if h.foreground != [] {
      assert h.foreground == [h.foreground[0]] + h.foreground[1..];
    } else if h.background != [] {
      assert h.background == [h.background[0]] + h.background[1..];
    }
  }

  /** A lane without the granted turn stays as it is. */
  lemma LaneAfterGrant(h: Host, queue: seq<nat>, lane: Lane, t: nat)
    requires t < |h.turns| && (forall i :: 0 <= i < |queue| ==> queue[i] < |h.turns|) && LaneOk(h, queue, lane) && t !in queue
    ensures LaneOk(GrantTo(h, t), queue, lane)
  {
  }

  lemma LaneTail(h: Host, queue: seq<nat>, lane: Lane)
    requires queue != [] && (forall i :: 0 <= i < |queue| ==> queue[i] < |h.turns|) && LaneOk(h, queue, lane)
    ensures queue[0] !in queue[1..] && LaneOk(h, queue[1..], lane)
  {
  }

  lemma GrantKeepsLanes(h: Host)
    requires ValidIds(h) && LanesOk(h)
    ensures ValidIds(Next(h)) && LanesOk(Next(h))
  {
    if h.foreground != [] {
      var t, left := h.foreground[0], h.(foreground := h.foreground[1..]);
      LaneTail(h, h.foreground, Foreground);
      assert t !in h.background;
      LaneAfterGrant(left, left.foreground, Foreground, t);
      LaneAfterGrant(left, left.background, Background, t);
    } else if h.background != [] {
      var t, left := h.background[0], h.(background := h.background[1..]);
      LaneTail(h, h.background, Background);
      LaneAfterGrant(left, left.background, Background, t);
    }
  }

  lemma GrantKeepsSlot(h: Host)
    requires ValidIds(h) && LanesOk(h) && h.pumping && h.running.None? && SlotOk(h.(freed := true))
    ensures SlotOk(Next(h))
  {
  }

  lemma NextKeepsInv(h: Host)
    requires ValidIds(h) && LanesOk(h) && OrderOk(h) && NoneLost(h)
    requires h.pumping && h.running.None? && SlotOk(h.(freed := true))
    ensures Inv(Next(h))
  {
    GrantKeepsOrder(h);
    GrantKeepsAll(h);
    GrantKeepsLanes(h);
    GrantKeepsSlot(h);
  }

  lemma PumpKeepsInv(h: Host)
    requires ValidIds(h) && LanesOk(h) && OrderOk(h) && NoneLost(h)
    requires if h.pumping then SlotOk(h) else SlotOk(h.(pumping := true, freed := true))
    ensures Inv(Awaken(h))
  {
    if !h.pumping {
      NextKeepsInv(h.(pumping := true));
    }
  }

  lemma LanePush(h: Host, queue: seq<nat>, t: nat)
    requires t < |h.turns| && forall i :: 0 <= i < |queue| ==> queue[i] < |h.turns|
    requires LaneOk(h, queue, h.turns[t].lane) && t !in queue && !h.turns[t].held && !h.turns[t].away
    ensures LaneOk(h, queue + [t], h.turns[t].lane)
  {
  }

  lemma PushKeepsLanes(h: Host, t: nat)
    requires t < |h.turns| && ValidIds(h) && LanesOk(h)
    requires t !in h.foreground && t !in h.background && !h.turns[t].held && !h.turns[t].away
    ensures ValidIds(Push(h, t)) && LanesOk(Push(h, t))
  {
    LanePush(h, if h.turns[t].lane == Foreground then h.foreground else h.background, t);
  }

  lemma PushKeepsOrder(h: Host, t: nat)
    requires t < |h.turns| && OrderOk(h)
    ensures OrderOk(Push(h, t))
  {
  }

  lemma PushLosesNone(h: Host, t: nat)
    requires t < |h.turns|
    requires forall u :: 0 <= u < |h.turns| && u != t && !h.turns[u].done ==>
               h.turns[u].held || h.turns[u].away || u in h.foreground || u in h.background
    ensures NoneLost(Push(h, t))
  {
    var p := Push(h, t);
    forall u | u in h.foreground ensures u in p.foreground {}
    forall u | u in h.background ensures u in p.background {}
    assert t in p.foreground || t in p.background;
  }

  lemma ArriveKeepsInv(h: Host, lane: Lane)
    requires Inv(h)
    ensures Inv(Step(h, Arrive(lane)))
  {
    var s := h.(turns := h.turns + [TurnState(lane, false, false, false, false)]);
    PushKeepsLanes(s, |h.turns|);
    PushKeepsOrder(s, |h.turns|);
    PushLosesNone(s, |h.turns|);
    PumpKeepsInv(Push(s, |h.turns|));
  }

  lemma ComingBackKeepsLanes(h: Host, t: nat)
    requires ValidIds(h) && LanesOk(h) && t < |h.turns| && h.turns[t].away
    ensures var s := h.(turns := h.turns[t := h.turns[t].(away := false)]); ValidIds(s) && LanesOk(s)
    ensures t !in h.foreground && t !in h.background
  {
  }

  /** The slot is fit for the pump, awake or about to wake. */
  ghost predicate Pumpable(h: Host) {
    if h.pumping then SlotOk(h) else SlotOk(h.(pumping := true, freed := true))
  }

  lemma ReturnIsPumpable(h: Host, t: nat)
    requires Inv(h) && Enabled(h, Return(t))
    ensures Pumpable(Push(h.(turns := h.turns[t := h.turns[t].(away := false)]), t))
  {
  }

  lemma ReturnQueues(h: Host, t: nat)
    requires Inv(h) && Enabled(h, Return(t))
    ensures var p := Push(h.(turns := h.turns[t := h.turns[t].(away := false)]), t);
            ValidIds(p) && LanesOk(p) && OrderOk(p) && NoneLost(p)
  {
    var s := h.(turns := h.turns[t := h.turns[t].(away := false)]);
    ComingBackKeepsLanes(h, t);
    PushKeepsLanes(s, t);
    PushKeepsOrder(s, t);
    PushLosesNone(s, t);
  }

  lemma ReturnKeepsInv(h: Host, t: nat)
    requires Inv(h) && Enabled(h, Return(t))
    ensures Inv(Step(h, Return(t)))
  {
    ReturnQueues(h, t);
    ReturnIsPumpable(h, t);
    PumpKeepsInv(Push(h.(turns := h.turns[t := h.turns[t].(away := false)]), t));
  }

  lemma ReleaseKeepsInv(h: Host, a: Action)
    requires Inv(h) && Enabled(h, a) && (a.Outside? || a.Settle?)
    ensures Inv(Step(h, a))
  {
    var n := Step(h, a);
    assert ValidIds(n) && LanesOk(n) && OrderOk(n) && NoneLost(n);
  }

  lemma StepKeepsInv(h: Host, a: Action)
    requires Inv(h) && Enabled(h, a)
    ensures Inv(Step(h, a))
  {
    match a {
      case Arrive(lane) => ArriveKeepsInv(h, lane);
      case Return(t) => ReturnKeepsInv(h, t);
      case Resume => NextKeepsInv(h);
      case Outside => ReleaseKeepsInv(h, a);
      case Settle(_) => ReleaseKeepsInv(h, a);
    }
  }

  // ---------------------------------------------------------------------------------------------
  // Runs: any sequence of actions, those not enabled when their turn comes being skipped

  function After(h: Host, a: Action): (n: Host)
    requires Inv(h)
    ensures Inv(n)
  {
    if Enabled(h, a) then StepKeepsInv(h, a); Step(h, a) else h
  }

  function Play(h: Host, actions: seq<Action>): (n: Host)
    requires Inv(h)
    ensures Inv(n)
    decreases |actions|
  {
    if actions == [] then h else Play(After(h, actions[0]), actions[1..])
  }

  lemma OneHolder(actions: seq<Action>)
    ensures var h := Play(Idle, actions);
            && (forall t :: 0 <= t < |h.turns| && h.turns[t].held ==> h.running == Some(t))
            && (h.running.Some? ==> h.running.value < |h.turns| && h.turns[h.running.value].held)
  {
    var h := Play(Idle, actions);
    assert Inv(h);
  }

  /** No lost wake-up: over a waiting turn the pump is active, and has a step to take or a holder to wait for. */
  lemma NoLostWakeup(actions: seq<Action>)
    ensures var h := Play(Idle, actions);
            h.foreground != [] || h.background != [] ==> h.pumping && (Enabled(h, Resume) || h.running.Some?)
  {
    var h := Play(Idle, actions);
    assert Inv(h);
  }

  /** The turns an action queues in a lane: a request that arrives, and a turn whose outside work is over, each in its own. */
  function Queues(h: Host, a: Action, lane: Lane): seq<nat> {
    match a
    case Arrive(l) => if l == lane then [|h.turns|] else []
    case Return(t) => if Enabled(h, a) && h.turns[t].lane == lane then [t] else []
    case _ => []
  }

  function QueuedBy(h: Host, actions: seq<Action>, lane: Lane): seq<nat>
    requires Inv(h)
    decreases |actions|
  {
    if actions == [] then [] else Queues(h, actions[0], lane) + QueuedBy(After(h, actions[0]), actions[1..], lane)
  }

  function Recorded(h: Host, lane: Lane): seq<nat> {
    if lane == Foreground then h.queuedForeground else h.queuedBackground
  }

  lemma AwakeningQueuesNobody(h: Host, lane: Lane)
    requires ValidIds(h)
    ensures Recorded(Awaken(h), lane) == Recorded(h, lane) == Recorded(Next(h), lane)
  {
  }

  lemma PushingQueues(h: Host, t: nat, lane: Lane)
    requires t < |h.turns|
    ensures Recorded(Push(h, t), lane) == Recorded(h, lane) + if h.turns[t].lane == lane then [t] else []
  {
  }

  lemma ArrivingIsRecorded(h: Host, l: Lane, lane: Lane)
    requires ValidIds(h)
    ensures Recorded(Step(h, Arrive(l)), lane) == Recorded(h, lane) + Queues(h, Arrive(l), lane)
  {
    var arrived := h.(turns := h.turns + [TurnState(l, false, false, false, false)]);
    PushingQueues(arrived, |h.turns|, lane);
    AwakeningQueuesNobody(Push(arrived, |h.turns|), lane);
  }

  lemma ReturningIsRecorded(h: Host, t: nat, lane: Lane)
    requires ValidIds(h) && Enabled(h, Return(t))
    ensures Recorded(Step(h, Return(t)), lane) == Recorded(h, lane) + Queues(h, Return(t), lane)
  {
    var back := h.(turns := h.turns[t := h.turns[t].(away := false)]);
    PushingQueues(back, t, lane);
    AwakeningQueuesNobody(Push(back, t), lane);
  }

  lemma QueuingIsRecorded(h: Host, a: Action, lane: Lane)
    requires ValidIds(h) && Enabled(h, a)
    ensures Recorded(Step(h, a), lane) == Recorded(h, lane) + Queues(h, a, lane)
  {
    match a {
      case Arrive(l) => ArrivingIsRecorded(h, l, lane);
      case Return(t) => ReturningIsRecorded(h, t, lane);
      case Resume => AwakeningQueuesNobody(h, lane);
      case _ =>
    }
  }

  lemma Onward(s: seq<nat>, more: seq<nat>, rest: seq<nat>)
    ensures (s + more) + rest == s + (more + rest)
  {
  }

  lemma AfterIsRecorded(h: Host, a: Action, n: Host, lane: Lane)
    requires Inv(h) && n == After(h, a)
    ensures Recorded(n, lane) == Recorded(h, lane) + Queues(h, a, lane)
  {
    if Enabled(h, a) { QueuingIsRecorded(h, a, lane); }
  }

  lemma FirstQueued(h: Host, actions: seq<Action>, lane: Lane)
    requires Inv(h) && actions != []
    ensures QueuedBy(h, actions, lane) == Queues(h, actions[0], lane) + QueuedBy(After(h, actions[0]), actions[1..], lane)
  {
  }

  lemma {:induction false} RunsAreRecorded(h: Host, actions: seq<Action>, n: Host, lane: Lane)
    requires Inv(h) && n == Play(h, actions)
    ensures Recorded(n, lane) == Recorded(h, lane) + QueuedBy(h, actions, lane)
    decreases |actions|
  {
    if actions != [] {
      var a, rest := actions[0], actions[1..];
      var m := After(h, a);
      AfterIsRecorded(h, a, m, lane);
      RunsAreRecorded(m, rest, n, lane);
      FirstQueued(h, actions, lane);
      Onward(Recorded(h, lane), Queues(h, a, lane), QueuedBy(m, rest, lane));
    }
  }

  lemma GrantedThenWaiting(h: Host)
    requires Inv(h)
    ensures Granted(h.grants, Foreground) + h.foreground == Recorded(h, Foreground)
    ensures Granted(h.grants, Background) + h.background == Recorded(h, Background)
  {
  }

  lemma FromNothing(s: seq<nat>, more: seq<nat>)
    requires s == []
    ensures s + more == more
  {
  }

  lemma RecordedFromNothing(start: Host, actions: seq<Action>, h: Host, lane: Lane)
    requires Inv(start) && Recorded(start, lane) == [] && h == Play(start, actions)
    ensures Recorded(h, lane) == QueuedBy(start, actions, lane)
  {
    RunsAreRecorded(start, actions, h, lane);
    FromNothing(Recorded(start, lane), QueuedBy(start, actions, lane));
  }

  /** What was granted in a lane, then what waits in it, is what the run queued in it, in that order. */
  lemma LanesServeInOrder(actions: seq<Action>)
    ensures var h := Play(Idle, actions);
            && Granted(h.grants, Foreground) + h.foreground == QueuedBy(Idle, actions, Foreground)
            && Granted(h.grants, Background) + h.background == QueuedBy(Idle, actions, Background)
  {
    var h := Play(Idle, actions);
    RecordedFromNothing(Idle, actions, h, Foreground);
    RecordedFromNothing(Idle, actions, h, Background);
    GrantedThenWaiting(h);
  }

  /** A background turn comes to hold the slot only when no foreground turn waits, and is then the lane's first. */
  lemma BackgroundWaitsForForeground(h: Host, a: Action, t: nat)
    requires Inv(h) && Enabled(h, a)
    requires var n := Step(h, a); t < |n.turns| && n.turns[t].held && n.turns[t].lane == Background
    requires t < |h.turns| ==> !h.turns[t].held
    ensures h.foreground == [] && (h.background != [] ==> t == h.background[0])
  {
  }

  // ---------------------------------------------------------------------------------------------
  // Orderly runs: no work settles while one of its own outside calls is pending

  ghost predicate OrderlyStep(h: Host, a: Action) {
    a.Settle? && Enabled(h, a) ==> h.turns[a.turn].held
  }

  ghost predicate Orderly(h: Host, actions: seq<Action>)
    requires Inv(h)
    decreases |actions|
  {
    actions == [] || (OrderlyStep(h, actions[0]) && Orderly(After(h, actions[0]), actions[1..]))
  }

  /** A turn whose work is over neither holds the slot nor will ask for it again. */
  ghost predicate Live(h: Host)
    requires ValidIds(h)
  {
    && (forall t :: 0 <= t < |h.turns| && h.turns[t].done ==> !h.turns[t].held && !h.turns[t].away)
    && (forall i :: 0 <= i < |h.foreground| ==> !h.turns[h.foreground[i]].done)
    && (forall i :: 0 <= i < |h.background| ==> !h.turns[h.background[i]].done)
  }

  lemma GrantKeepsLive(h: Host, t: nat)
    requires ValidIds(h) && Live(h) && t < |h.turns| && !h.turns[t].done
    ensures ValidIds(GrantTo(h, t)) && Live(GrantTo(h, t))
  {
  }

  lemma RoundKeepsLive(h: Host)
    requires ValidIds(h) && Live(h)
    ensures ValidIds(Next(h)) && Live(Next(h))
  {
    if h.foreground != [] {
      GrantKeepsLive(h.(foreground := h.foreground[1..]), h.foreground[0]);
    } else if h.background != [] {
      GrantKeepsLive(h.(background := h.background[1..]), h.background[0]);
    }
  }

  lemma PumpKeepsLive(h: Host)
    requires ValidIds(h) && Live(h)
    ensures ValidIds(Awaken(h)) && Live(Awaken(h))
  {
    if !h.pumping { RoundKeepsLive(h.(pumping := true)); }
  }

  lemma PushKeepsLive(h: Host, t: nat)
    requires t < |h.turns| && ValidIds(h) && Live(h) && !h.turns[t].done
    ensures ValidIds(Push(h, t)) && Live(Push(h, t))
  {
  }

  lemma SettleKeepsLive(h: Host, t: nat)
    requires Inv(h) && Live(h) && t < |h.turns| && h.turns[t].held && !h.turns[t].done
    requires Enabled(h, Settle(t))
    ensures ValidIds(Step(h, Settle(t))) && Live(Step(h, Settle(t)))
  {
    assert t !in h.foreground && t !in h.background;
  }

  lemma ArriveKeepsLive(h: Host, lane: Lane)
    requires ValidIds(h) && Live(h)
    ensures ValidIds(Step(h, Arrive(lane))) && Live(Step(h, Arrive(lane)))
  {
    var s := h.(turns := h.turns + [TurnState(lane, false, false, false, false)]);
    PushKeepsLive(s, |h.turns|);
    PumpKeepsLive(Push(s, |h.turns|));
  }

  lemma ReturnKeepsLive(h: Host, t: nat)
    requires ValidIds(h) && Live(h) && Enabled(h, Return(t))
    ensures ValidIds(Step(h, Return(t))) && Live(Step(h, Return(t)))
  {
    var s := h.(turns := h.turns[t := h.turns[t].(away := false)]);
    PushKeepsLive(s, t);
    PumpKeepsLive(Push(s, t));
  }

  /** Exactly the orderly steps keep the slot from a turn whose work is over. */
  lemma LiveIffOrderly(h: Host, a: Action)
    requires Inv(h) && Live(h)
    ensures Live(After(h, a)) <==> OrderlyStep(h, a)
  {
    if OrderlyStep(h, a) && Enabled(h, a) {
      match a {
        case Arrive(lane) => ArriveKeepsLive(h, lane);
        case Return(t) => ReturnKeepsLive(h, t);
        case Resume => RoundKeepsLive(h);
        case Settle(t) => SettleKeepsLive(h, t);
        case Outside =>
      }
    }
  }

  /** A turn whose work is over and that still holds the slot, waits for it or is to come back for it. */
  ghost predicate Lingers(h: Host, t: nat) {
    t < |h.turns| && h.turns[t].done && (h.turns[t].held || h.turns[t].away || t in h.foreground || t in h.background)
  }

  lemma UnliveLingers(h: Host) returns (t: nat)
    requires ValidIds(h) && !Live(h)
    ensures Lingers(h, t)
  {
    if u :| 0 <= u < |h.turns| && h.turns[u].done && (h.turns[u].held || h.turns[u].away) {
      t := u;
    } else if i :| 0 <= i < |h.foreground| && h.turns[h.foreground[i]].done {
      t := h.foreground[i];
    } else {
      var i :| 0 <= i < |h.background| && h.turns[h.background[i]].done;
      t := h.background[i];
    }
  }

  lemma LingeringIsUnlive(h: Host, t: nat)
    requires ValidIds(h) && Lingers(h, t)
    ensures !Live(h)
  {
  }

  lemma RoundKeepsLingering(h: Host, t: nat)
    requires ValidIds(h) && Lingers(h, t)
    ensures Lingers(Next(h), t) && Lingers(Awaken(h), t)
  {
    if h.foreground != [] { assert h.foreground == [h.foreground[0]] + h.foreground[1..]; }
    if h.background != [] { assert h.background == [h.background[0]] + h.background[1..]; }
  }

  lemma PushKeepsLingering(h: Host, u: nat, t: nat)
    requires u < |h.turns| && ValidIds(h) && (Lingers(h, t) || (t == u && h.turns[t].done))
    ensures ValidIds(Push(h, u)) && Lingers(Push(h, u), t)
  {
  }

  lemma LingersOn(h: Host, a: Action, t: nat)
    requires Inv(h) && Lingers(h, t)
    ensures Lingers(After(h, a), t)
  {
    if Enabled(h, a) {
      match a {
        case Arrive(lane) =>
          var s := h.(turns := h.turns + [TurnState(lane, false, false, false, false)]);
          PushKeepsLingering(s, |h.turns|, t);
          RoundKeepsLingering(Push(s, |h.turns|), t);
        case Return(u) =>
          var s := h.(turns := h.turns[u := h.turns[u].(away := false)]);
          PushKeepsLingering(s, u, t);
          RoundKeepsLingering(Push(s, u), t);
        case Resume => RoundKeepsLingering(h, t);
        case Settle(_) =>
        case Outside =>
      }
    }
  }

  lemma {:induction false} LingersThroughout(h: Host, actions: seq<Action>, t: nat)
    requires Inv(h) && Lingers(h, t)
    ensures Lingers(Play(h, actions), t)
    decreases |actions|
  {
    if actions != [] {
      LingersOn(h, actions[0], t);
      LingersThroughout(After(h, actions[0]), actions[1..], t);
    }
  }

  /** A run ends with no finished turn left to the slot exactly when each of its steps was orderly. */
  lemma {:induction false} OrderlyRunsStayLive(h: Host, actions: seq<Action>)
    requires Inv(h) && Live(h)
    ensures Live(Play(h, actions)) <==> Orderly(h, actions)
    decreases |actions|
  {
    if actions != [] {
      var n := After(h, actions[0]);
      LiveIffOrderly(h, actions[0]);
      if Live(n) {
        OrderlyRunsStayLive(n, actions[1..]);
      } else {
        var t := UnliveLingers(n);
        LingersThroughout(n, actions[1..], t);
        LingeringIsUnlive(Play(n, actions[1..]), t);
      }
    }
  }

  // ---------------------------------------------------------------------------------------------
  // Draining: every holder settles, nothing else happens

  /** Let the holder settle and the pump go on, until the pump stops. */
  function Drain(h: Host): (n: Host)
    requires Inv(h) && Live(h)
    ensures Inv(n)
    decreases |h.foreground| + |h.background|, h.pumping, h.running.Some?
  {
    if !h.pumping then h
    else
      var a := if h.running.Some? then Settle(h.running.value) else Resume;
      LiveIffOrderly(h, a);
      Drain(After(h, a))
  }

  function TurnsOf(grants: seq<SlotGrant>): (turns: seq<nat>)
    ensures |turns| == |grants|
  {
    seq(|grants|, i requires 0 <= i < |grants| => grants[i].turn)
  }

  /** A round of the pump hands on the next waiting turn, and a settling turn none. */
  lemma RoundServesNext(h: Host)
    requires ValidIds(h)
    ensures var n := Next(h);
            TurnsOf(n.grants) + n.foreground + n.background == TurnsOf(h.grants) + h.foreground + h.background
  {
    var n := Next(h);
    if h.foreground != [] {
      assert TurnsOf(n.grants) == TurnsOf(h.grants) + [h.foreground[0]];
    } else if h.background != [] {
      assert TurnsOf(n.grants) == TurnsOf(h.grants) + [h.background[0]];
    }
  }

  lemma SettlingServesNobody(h: Host, t: nat)
    requires ValidIds(h) && Enabled(h, Settle(t))
    ensures var n := Step(h, Settle(t)); n.grants == h.grants && n.foreground == h.foreground && n.background == h.background
  {
  }

  lemma DrainStep(h: Host)
    requires Inv(h) && Live(h) && h.pumping
    ensures var n := After(h, if h.running.Some? then Settle(h.running.value) else Resume);
            TurnsOf(n.grants) + n.foreground + n.background == TurnsOf(h.grants) + h.foreground + h.background
  {
    if h.running.Some? {
      SettlingServesNobody(h, h.running.value);
    } else {
      RoundServesNext(h);
    }
  }

  /** Draining serves every waiting turn: the foreground lane in order, then the background lane in order. */
  lemma {:induction false} DrainServesEveryTurn(h: Host)
    requires Inv(h) && Live(h)
    ensures var n := Drain(h);
            && n.foreground == [] && n.background == [] && n.running.None?
            && TurnsOf(n.grants) == TurnsOf(h.grants) + h.foreground + h.background
    decreases |h.foreground| + |h.background|, h.pumping, h.running.Some?
  {
    if h.pumping {
      var a := if h.running.Some? then Settle(h.running.value) else Resume;
      LiveIffOrderly(h, a);
      DrainStep(h);
      DrainServesEveryTurn(After(h, a));
    }
  }

  // ---------------------------------------------------------------------------------------------
  // Without that order the slot can be lost

  /** A turn that comes back to an idle host takes the slot, whether or not its work is already over. */
  lemma ReturnTakesTheSlot(h: Host, t: nat)
    requires Inv(h) && t < |h.turns| && h.turns[t].away
    requires h.foreground == [] && h.background == [] && h.running.None?
    ensures var n := After(After(h, Return(t)), Resume);
            n.running == Some(t) && (n.turns[t].done <==> h.turns[t].done)
  {
    var r := After(h, Return(t));
    if !h.pumping {
      assert r.running == Some(t);
    } else {
      assert Enabled(r, Resume);
    }
  }

  /** Such a host is reachable: one request makes an outside call. */
  lemma AnAwayTurnIsReachable()
    ensures var h := Play(Idle, [Arrive(Foreground), Outside]);
            |h.turns| == 1 && h.turns[0].away && !h.turns[0].done && h.foreground == [] && h.background == [] && h.running.None?
  {
    PlayTwo(Idle, Arrive(Foreground), Outside);
    FirstArrival();
    FirstOutside();
  }

  lemma PlayTwo(h: Host, a: Action, b: Action)
    requires Inv(h)
    ensures Play(h, [a, b]) == After(After(h, a), b)
  {
    var n := After(h, a);
    assert [a, b][1..] == [b] && [b][1..] == [];
    assert Play(n, [b]) == Play(After(n, b), []);
  }

  const Alone := Host([], [], true, false, Some(0), [TurnState(Foreground, true, true, false, false)],
                      [0], [], [SlotGrant(0, Foreground, 0)])

  lemma FirstArrival()
    ensures Step(Idle, Arrive(Foreground)) == Alone
  {
    var s := Idle.(turns := [TurnState(Foreground, false, false, false, false)]);
    var p := Push(s, 0);
    assert p == s.(foreground := [0], queuedForeground := [0]);
    assert p.foreground[1..] == [];
  }

  lemma FirstOutside()
    ensures ValidIds(Alone)
    ensures Step(Alone, Outside) ==
            Alone.(turns := [TurnState(Foreground, true, false, false, true)], running := None, freed := true)
  {
  }

  /** The lost slot stays lost whatever happens, unless another turn's work asks for an outside call. */
  lemma {:induction false} LostSlotStaysLost(h: Host, t: nat, actions: seq<Action>)
    requires Inv(h) && h.running == Some(t) && h.turns[t].done
    requires forall i :: 0 <= i < |actions| ==> !actions[i].Outside?
    ensures Play(h, actions).running == Some(t)
    ensures Play(h, actions).grants == h.grants
    decreases |actions|
  {
    if actions != [] {
      LostSlotStaysLost(After(h, actions[0]), t, actions[1..]);
    }
  }

  /** The failing run: a request makes an outside call, settles while it is pending, comes back and is granted. */
  function EarlySettle(rest: seq<Action>): seq<Action> {
    [Arrive(Foreground)] + ([Outside] + ([Settle(0)] + ([Return(0)] + ([Resume] + rest))))
  }

  const Taken :=
    Host([], [], true, false, Some(0), [TurnState(Foreground, true, true, true, false)],
         [0, 0], [], [SlotGrant(0, Foreground, 0), SlotGrant(0, Foreground, 0)])

  const Left := Alone.(turns := [TurnState(Foreground, true, false, false, true)], running := None, freed := true)
  const Stranded := Left.(turns := [TurnState(Foreground, true, false, true, true)])
  const Back := Stranded.(turns := [TurnState(Foreground, true, false, true, false)], foreground := [0], queuedForeground := [0, 0])

  lemma PlayOne(h: Host, a: Action, n: Host, rest: seq<Action>)
    requires Inv(h) && Enabled(h, a) && Step(h, a) == n
    ensures Inv(n) && Play(h, [a] + rest) == Play(n, rest)
  {
    StepKeepsInv(h, a);
    assert ([a] + rest)[1..] == rest;
  }

  lemma Arrives(rest: seq<Action>)
    ensures Inv(Alone) && Play(Idle, [Arrive(Foreground)] + rest) == Play(Alone, rest)
  {
    FirstArrival();
    PlayOne(Idle, Arrive(Foreground), Alone, rest);
  }

  lemma Leaves(rest: seq<Action>)
    requires Inv(Alone)
    ensures Inv(Left) && Play(Alone, [Outside] + rest) == Play(Left, rest)
  {
    FirstOutside();
    PlayOne(Alone, Outside, Left, rest);
  }

  lemma SettlesEarly(rest: seq<Action>)
    requires Inv(Left)
    ensures Inv(Stranded) && Play(Left, [Settle(0)] + rest) == Play(Stranded, rest)
  {
    PlayOne(Left, Settle(0), Stranded, rest);
  }

  lemma StrandedReturns()
    ensures ValidIds(Stranded) && Step(Stranded, Return(0)) == Back
  {
    var s := Stranded.(turns := [TurnState(Foreground, true, false, true, false)]);
    assert Stranded.turns[0 := Stranded.turns[0].(away := false)] == s.turns;
    assert Push(s, 0) == Back;
  }

  lemma ComesBack(rest: seq<Action>)
    requires Inv(Stranded)
    ensures Inv(Back) && Play(Stranded, [Return(0)] + rest) == Play(Back, rest)
  {
    StrandedReturns();
    PlayOne(Stranded, Return(0), Back, rest);
  }

  lemma TakesTheSlot(rest: seq<Action>)
    requires Inv(Back)
    ensures Inv(Taken) && Play(Back, [Resume] + rest) == Play(Taken, rest)
  {
    PlayOne(Back, Resume, Taken, rest);
  }

  lemma EarlySettleIs(rest: seq<Action>)
    ensures Inv(Taken) && Play(Idle, EarlySettle(rest)) == Play(Taken, rest)
  {
    var last := [Resume] + rest;
    var comes := [Return(0)] + last;
    var settles := [Settle(0)] + comes;
    Arrives([Outside] + settles);
    Leaves(settles);
    SettlesEarly(comes);
    ComesBack(last);
    TakesTheSlot(rest);
  }

  /** Its turn then holds the slot with its work over, and nothing but an outside call of some work ever frees it. */
  lemma AnEarlySettleLosesTheSlot(rest: seq<Action>)
    requires forall i :: 0 <= i < |rest| ==> !rest[i].Outside?
    ensures var h := Play(Idle, EarlySettle(rest));
            h.running == Some(0) && h.turns[0].done && h.grants == Taken.grants
  {
    EarlySettleIs(rest);
    LostSlotStaysLost(Taken, 0, rest);
    LingersThroughout(Taken, rest, 0);
  }

  // ---------------------------------------------------------------------------------------------
  // The queue the host keeps

  class Turn {
    const id: nat
    const lane: Lane
    var held: bool
    var done: bool
    ghost var started: bool
    ghost var away: bool

    constructor (id: nat, lane: Lane)
      ensures this.id == id && this.lane == lane && Snapshot() == TurnState(lane, false, false, false, false)
    {
      this.id, this.lane := id, lane;
      held, done, started, away := false, false, false, false;
    }

    ghost function Snapshot(): TurnState
      reads this
    {
      TurnState(lane, started, held, done, away)
    }
  }

  class BrowserQueue {
    var foreground: seq<Turn>
    var background: seq<Turn>
    var pumping: bool
    var running: Turn?
    var turns: nat
    ghost var freed: bool
    ghost var all: seq<Turn>
    ghost var queuedForeground: seq<nat>
    ghost var queuedBackground: seq<nat>
    ghost var grants: seq<SlotGrant>

    /** The references are those of known turns; turn `i` is the `i`-th ever made. */
    ghost predicate Linked()
      reads this, all
    {
      && turns == |all|
      && (forall i :: 0 <= i < |all| ==> all[i].id == i)
      && (forall i :: 0 <= i < |foreground| ==> foreground[i] in all)
      && (forall i :: 0 <= i < |background| ==> background[i] in all)
      && (running != null ==> running in all)
    }

    ghost predicate Valid()
      reads this, all
    {
      Linked() && Inv(View())
    }

    ghost function Ids(queue: seq<Turn>): seq<nat>
    {
      seq(|queue|, i requires 0 <= i < |queue| => queue[i].id)
    }

    ghost function View(): Host
      reads this, all
    {
      Host(Ids(foreground), Ids(background), pumping, freed,
           if running == null then None else Some(running.id),
           seq(|all|, i requires 0 <= i < |all| reads this, all => all[i].Snapshot()),
           queuedForeground, queuedBackground, grants)
    }

    constructor ()
      ensures Valid() && View() == Idle && fresh(all)
    {
      foreground, background, pumping, running, turns := [], [], false, null, 0;
      freed, all, queuedForeground, queuedBackground, grants := false, [], [], [], [];
    }

    /** The body of `grant`: the turn takes the slot. */
    method Grant(turn: Turn)
      requires Linked() && turn in all
      modifies this`running, this`freed, this`grants, turn
      ensures Linked() && View() == GrantTo(old(View()), turn.id)
    {
      grants := grants + [SlotGrant(turn.id, turn.lane, |foreground|)];
      turn.held := true;
      turn.started := true;
      running := turn;
      freed := false;
    }

    /** One round of the pump's loop. */
    method PumpRound()
      requires Linked() && ValidIds(View())
      modifies this`foreground, this`background, this`pumping, this`running, this`freed, this`grants, all
      ensures Linked() && all == old(all) && View() == Next(old(View()))
    {
      var next: Turn;
      if foreground != [] {
        next := foreground[0];
        foreground := foreground[1..];
        assert View() == old(View()).(foreground := old(View()).foreground[1..]);
        Grant(next);
      } else if background != [] {
        next := background[0];
        background := background[1..];
        assert View() == old(View()).(background := old(View()).background[1..]);
        Grant(next);
      } else {
        pumping, freed := false, false;
      }
    }

    method Pump()
      requires Linked() && ValidIds(View())
      modifies this`foreground, this`background, this`pumping, this`running, this`freed, this`grants, all
      ensures Linked() && all == old(all) && View() == Awaken(old(View()))
    {
      if pumping { return; }
      pumping := true;
      PumpRound();
    }

    /** `take`: queue the turn in its own lane and wake the pump. */
    method Take(turn: Turn)
      requires Linked() && turn in all && ValidIds(View())
      modifies this, all
      ensures Linked() && all == old(all)
      ensures View() == Awaken(Push(old(View()), turn.id))
    {
      if turn.lane == Foreground {
        foreground, queuedForeground := foreground + [turn], queuedForeground + [turn.id];
      } else {
        background, queuedBackground := background + [turn], queuedBackground + [turn.id];
      }
      assert View() == Push(old(View()), turn.id);
      Pump();
    }

    /** A request is enqueued. */
    method Arrive(lane: Lane) returns (turn: Turn)
      requires Valid()
      modifies this, all
      ensures Valid() && View() == Step(old(View()), Action.Arrive(lane))
      ensures fresh(turn) && all == old(all) + [turn]
    {
      StepKeepsInv(View(), Action.Arrive(lane));
      turn := Enqueue(lane);
    }

    method Enqueue(lane: Lane) returns (turn: Turn)
      requires Linked() && ValidIds(View())
      modifies this, all
      ensures Linked() && View() == Step(old(View()), Action.Arrive(lane))
      ensures fresh(turn) && all == old(all) + [turn]
    {
      turn := new Turn(turns, lane);
      turns, all := turns + 1, all + [turn];
      assert View() == old(View()).(turns := old(View()).turns + [TurnState(lane, false, false, false, false)]);
      Take(turn);
    }

    /** `outsideEventQueue` begins: the running turn, if any, gives its slot up and is returned. */
    method OutsideCall() returns (turn: Turn?)
      requires Valid()
      modifies this`running, this`freed, all
      ensures Valid() && all == old(all) && View() == Step(old(View()), Outside)
      ensures turn == if old(running) != null && old(running.held) then old(running) else null
    {
      StepKeepsInv(View(), Outside);
      turn := GoOutside();
    }

    method GoOutside() returns (turn: Turn?)
      requires Linked() && ValidIds(View())
      modifies this`running, this`freed, all
      ensures Linked() && all == old(all) && View() == Step(old(View()), Outside)
      ensures turn == if old(running) != null && old(running.held) then old(running) else null
    {
      turn := running;
      if turn == null || !turn.held { return null; }
      GiveUp(turn);
      turn.away := true;
    }

    /** `turn.release`. */
    method GiveUp(turn: Turn)
      requires Linked() && turn in all
      modifies this`running, this`freed, turn
      ensures Linked() && View() == Release(old(View()), turn.id)
    {
      turn.held := false;
      if running == turn { running := null; }
      freed := true;
    }

    /** The outside work is over, with a result or a failure: the turn queues again. */
    method Return(turn: Turn)
      requires Valid() && turn in all && turn.away
      modifies this, all
      ensures Valid() && all == old(all) && View() == Step(old(View()), Action.Return(turn.id))
    {
      StepKeepsInv(View(), Action.Return(turn.id));
      ComeBack(turn);
    }

    method ComeBack(turn: Turn)
      requires Linked() && ValidIds(View()) && turn in all && turn.away
      modifies this, all
      ensures Linked() && all == old(all) && View() == Step(old(View()), Action.Return(turn.id))
    {
      turn.away := false;
      assert View() == old(View()).(turns := old(View()).turns[turn.id := old(turn.Snapshot()).(away := false)]);
      Take(turn);
    }

    /** The work settled, with a result or a failure. */
    method Settle(turn: Turn)
      requires Valid() && turn in all && turn.started && !turn.done
      modifies this`running, this`freed, all
      ensures Valid() && all == old(all) && View() == Step(old(View()), Action.Settle(turn.id))
    {
      StepKeepsInv(View(), Action.Settle(turn.id));
      turn.done := true;
      assert View() == old(View()).(turns := old(View()).turns[turn.id := old(turn.Snapshot()).(done := true)]);
      if turn.held { GiveUp(turn); }
    }

    /** The pump goes on once the grant it awaited is freed. */
    method ResumePump()
      requires Valid() && pumping && freed
      modifies this`foreground, this`background, this`pumping, this`running, this`freed, this`grants, all
      ensures Valid() && all == old(all) && View() == Step(old(View()), Resume)
    {
      StepKeepsInv(View(), Resume);
      PumpRound();
    }
  }
}
