/**
 The runtime-wide event queue of the orbital server: a mutex made of a chain of promises.

 `Tickets` is the chain as `acquireEventQueue` builds it and `Mutex` the plain first-in first-out
 mutex it refines.  `Queue` adds the calls that hold it, leave it for a service and come back, and
 `OrbitalEventQueue` is the mutable queue, each method of which refines one action.
 */
module EventQueue {
  import opened Wrappers
  import opened PromiseChain

  // ---------------------------------------------------------------------------------------------
  // Tickets: every acquisition adds one gate to the chain

  /** Ticket `i` waits for the links before gate `i`; `granted` counts the tickets handed their release. */
  datatype Tickets = Tickets(chain: Chain, granted: nat) {

    ghost predicate Valid() {
      && chain.Valid()
      && chain.settled <= granted <= |chain.closed|
      && granted <= chain.settled + 1
      // a gate is closed by its release, which only the granted ticket has
      && forall i :: granted <= i < |chain.closed| ==> !chain.closed[i]
    }

    predicate Held(i: nat) {
      i < granted && i < |chain.closed| && !chain.closed[i]
    }

    predicate CanGrant(i: nat) {
      granted <= i < |chain.closed| && chain.Ready(i)
    }

    function Acquire(): Tickets {
      this.(chain := chain.Join())
    }

    function Grant(i: nat): Tickets
      requires CanGrant(i)
    {
      this.(granted := granted + 1)
    }

    function Release(i: nat): Tickets
      requires i < |chain.closed|
    {
      this.(chain := chain.Close(i))
    }

    function Settle(): Tickets
      requires chain.CanSettle()
    {
      this.(chain := chain.SettleNext())
    }
  }

  /** Two tickets never hold the queue at once. */
  lemma OneHolder(q: Tickets, i: nat, j: nat)
    requires q.Valid() && q.Held(i) && q.Held(j)
    ensures i == j
  {
  }

  /** Only the oldest waiting ticket can be granted, and only while nobody holds the queue. */
  lemma GrantsFollowAcquisition(q: Tickets, i: nat)
    requires q.Valid() && q.CanGrant(i)
    ensures i == q.granted && forall j: nat :: !q.Held(j)
    ensures q.Grant(i).Valid() && q.Grant(i).Held(i)
  {
  }

  datatype Mutex = Mutex(holder: Option<nat>, waiting: seq<nat>, issued: nat) {

    function Acquire(): Mutex {
      Mutex(holder, waiting + [issued], issued + 1)
    }

    function Grant(): Mutex
      requires holder.None? && waiting != []
    {
      Mutex(Some(waiting[0]), waiting[1..], issued)
    }

    function Release(): Mutex {
      this.(holder := None)
    }
  }

  function Range(from: nat, to: nat): (s: seq<nat>)
    requires from <= to
    ensures |s| == to - from
  {
    seq(to - from, i requires 0 <= i < to - from => from + i)
  }

  function AsMutex(q: Tickets): Mutex
    requires q.granted <= |q.chain.closed|
  {
    Mutex(if q.granted > 0 && q.Held(q.granted - 1) then Some(q.granted - 1) else None,
          Range(q.granted, |q.chain.closed|),
          |q.chain.closed|)
  }

  /** The promise chain refines the mutex: acquiring, granting and releasing are its steps, settling is none. */
  lemma ChainRefinesMutex(q: Tickets)
    requires q.Valid()
    ensures q.Acquire().Valid() && AsMutex(q.Acquire()) == AsMutex(q).Acquire()
    ensures forall i: nat :: q.CanGrant(i) ==>
              q.Grant(i).Valid() && AsMutex(q).holder.None? && AsMutex(q).waiting != [] && AsMutex(q).waiting[0] == i
              && AsMutex(q.Grant(i)) == AsMutex(q).Grant()
    ensures forall i: nat :: q.Held(i) ==>
              AsMutex(q).holder == Some(i) && q.Release(i).Valid() && AsMutex(q.Release(i)) == AsMutex(q).Release()
    ensures q.chain.CanSettle() ==> q.Settle().Valid() && AsMutex(q.Settle()) == AsMutex(q)
  {
    assert Range(q.granted, |q.chain.closed| + 1) == Range(q.granted, |q.chain.closed|) + [|q.chain.closed|];
    forall i: nat | q.CanGrant(i)
      ensures q.Grant(i).Valid() && AsMutex(q).holder.None? && AsMutex(q).waiting != [] && AsMutex(q).waiting[0] == i
              && AsMutex(q.Grant(i)) == AsMutex(q).Grant()
    {
      GrantsFollowAcquisition(q, i);
      assert Range(q.granted, |q.chain.closed|)[1..] == Range(q.granted + 1, |q.chain.closed|);
    }
  }

  /** A queue nobody holds has a microtask to run as long as a ticket waits. */
  lemma NeverStuck(q: Tickets)
    requires q.Valid() && !q.chain.CanSettle() && !(q.granted > 0 && q.Held(q.granted - 1))
    ensures q.granted < |q.chain.closed| ==> q.CanGrant(q.granted)
    ensures q.granted == |q.chain.closed| ==> forall i: nat :: !q.Held(i)
  {
  }

  /** How far the queue is from having granted, released and settled everything. */
  function Remaining(q: Tickets): nat
    requires q.Valid()
  {
    3 * |q.chain.closed| - 2 * q.granted - q.chain.settled + (if q.granted > 0 && q.Held(q.granted - 1) then 1 else 0)
  }

  /** Every holder releases and every microtask runs: the tickets in the order they are granted. */
  function Drain(q: Tickets): (order: seq<nat>)
    requires q.Valid()
    decreases Remaining(q)
  {
    if q.granted > 0 && q.Held(q.granted - 1) then Drain(q.Release(q.granted - 1))
    else if q.chain.CanSettle() then Drain(q.Settle())
    else if q.granted < |q.chain.closed| then
      NeverStuck(q);
      [q.granted] + Drain(q.Grant(q.granted))
    else []
  }

  lemma RangeFrom(from: nat, to: nat)
    requires from < to
    ensures Range(from, to) == [from] + Range(from + 1, to)
  {
  }

  /** When every holder releases, every ticket is granted, in order. */
  lemma {:induction false} DrainGrantsEveryTicket(q: Tickets)
    requires q.Valid()
    ensures Drain(q) == Range(q.granted, |q.chain.closed|)
    decreases Remaining(q)
  {
    if q.granted > 0 && q.Held(q.granted - 1) {
      DrainGrantsEveryTicket(q.Release(q.granted - 1));
    } else if q.chain.CanSettle() {
      DrainGrantsEveryTicket(q.Settle());
    } else {
      NeverStuck(q);
      if q.granted < |q.chain.closed| {
        DrainGrantsEveryTicket(q.Grant(q.granted));
        RangeFrom(q.granted, |q.chain.closed|);
      }
    }
  }

  // ---------------------------------------------------------------------------------------------
  // A hold nobody releases

  datatype TicketStep = Acquires | Grants(ticket: nat) | Releases(ticket: nat) | Settles

  predicate CanTake(q: Tickets, step: TicketStep) {
    match step
    case Acquires => true
    case Grants(i) => q.CanGrant(i)
    case Releases(i) => q.Held(i)
    case Settles => q.chain.CanSettle()
  }

  function TakeStep(q: Tickets, step: TicketStep): Tickets
    requires CanTake(q, step)
  {
    match step
    case Acquires => q.Acquire()
    case Grants(i) => q.Grant(i)
    case Releases(i) => q.Release(i)
    case Settles => q.Settle()
  }

  /** The steps are those of the mutex, each taken when the mutex can take it, and settling is none. */
  lemma TicketStepsAreTheMutexs(q: Tickets, step: TicketStep)
    requires q.Valid()
    ensures CanTake(q, Acquires)
    ensures forall i: nat :: CanTake(q, Releases(i)) <==> AsMutex(q).holder == Some(i)
    ensures forall i: nat :: CanTake(q, Grants(i)) ==> AsMutex(q).holder.None? && AsMutex(q).waiting != [] && AsMutex(q).waiting[0] == i
    ensures CanTake(q, step) ==>
              var m, n := AsMutex(q), AsMutex(TakeStep(q, step));
              && (step.Acquires? ==> n == m.(waiting := m.waiting + [m.issued], issued := m.issued + 1))
              && (step.Grants? ==> n == m.(holder := Some(step.ticket), waiting := m.waiting[1..]))
              && (step.Releases? ==> n == m.(holder := None))
              && (step.Settles? ==> n == m && TakeStep(q, step).chain.settled == q.chain.settled + 1)
  {
    ChainRefinesMutex(q);
  }

  function TakeAll(q: Tickets, steps: seq<TicketStep>): Tickets
    decreases |steps|
  {
    if steps == [] then q
    else TakeAll(if CanTake(q, steps[0]) then TakeStep(q, steps[0]) else q, steps[1..])
  }

  /**
   A run whose work ended while it was outside takes the queue again with nobody left to release it: such a hold
   blocks the queue for good, and its release is the one step that frees it.
   */
  lemma {:induction false} AnUnreleasedHoldBlocksTheQueue(q: Tickets, i: nat, steps: seq<TicketStep>)
    requires q.Valid() && q.Held(i)
    requires forall k :: 0 <= k < |steps| ==> steps[k] != Releases(i)
    ensures TakeAll(q, steps).Held(i) && TakeAll(q, steps).granted == q.granted
    ensures var freed := TakeAll(q, steps + [Releases(i)]); !freed.Held(i) && freed.chain.CanSettle()
    decreases |steps|
  {
    if steps != [] {
      var n := if CanTake(q, steps[0]) then TakeStep(q, steps[0]) else q;
      if CanTake(q, steps[0]) { OnlyReleaseFrees(q, i, steps[0]); }
      AnUnreleasedHoldBlocksTheQueue(n, i, steps[1..]);
      assert (steps + [Releases(i)])[1..] == steps[1..] + [Releases(i)];
    } else {
      assert TakeAll(q, [Releases(i)]) == q.Release(i);
    }
  }

  lemma OnlyReleaseFrees(q: Tickets, i: nat, step: TicketStep)
    requires q.Valid() && q.Held(i) && CanTake(q, step) && step != Releases(i)
    ensures var n := TakeStep(q, step); n.Valid() && n.Held(i) && n.granted == q.granted
  {
    ChainRefinesMutex(q);
    match step {
      case Releases(j) => OneHolder(q, i, j);
      case Grants(j) => GrantsFollowAcquisition(q, j);
      case _ =>
    }
  }

  // ---------------------------------------------------------------------------------------------
  // Calls: runs that hold the queue, leave it for a service and come back

  /** `Over`: the run settled while it held the queue; its hold still says held, but its gate is closed. */
  datatype Phase = Waiting | Running | Away | Over

  /** A run under `enqueueEvent`: its latest ticket, where it stands, whether its work began and whether it settled. */
  datatype Call = Call(ticket: nat, phase: Phase, started: bool, done: bool)

  /** `owner[i]` is the call that acquired ticket `i`. */
  datatype Queue = Queue(tickets: Tickets, calls: seq<Call>, owner: seq<nat>)

  datatype Action =
    | Arrive                         // `enqueueEvent` acquires
    | Enter(call: nat)               // the awaited acquisition resolves: the call runs, first or again
    | Outside(call: nat)             // `outsideEventQueue` begins, in the run's work or in what that left behind
    | Return(call: nat)              // the outside work is over, with a result or a failure
    | Settle(call: nat, threw: bool) // the run's work settled, wherever its hold stands
    | Microtask                      // one link of the chain settles

  const Idle := Queue(Tickets(Empty, 0), [], [])

  predicate Enabled(q: Queue, a: Action) {
    match a
    case Arrive => true
    case Enter(c) => c < |q.calls| && q.calls[c].phase == Waiting && q.tickets.CanGrant(q.calls[c].ticket)
    case Outside(c) => c < |q.calls| && q.calls[c].started
    case Return(c) => c < |q.calls| && q.calls[c].phase == Away
    case Settle(c, _) => c < |q.calls| && q.calls[c].started && !q.calls[c].done
    case Microtask => q.tickets.chain.CanSettle()
  }

  /** A call that waits or runs does so with its latest ticket, which is its own. */
  ghost predicate CallOk(q: Queue, c: nat)
    requires c < |q.calls|
  {
    var t := q.calls[c].ticket;
    && t < |q.owner| && q.owner[t] == c
    && (q.calls[c].phase == Waiting ==> q.tickets.granted <= t)
    && (q.calls[c].phase == Running ==> q.tickets.Held(t))
    && (q.calls[c].phase == Over ==> q.calls[c].done && t < |q.tickets.chain.closed| && q.tickets.chain.closed[t])
    && (q.calls[c].phase != Waiting || q.calls[c].done ==> q.calls[c].started)
  }

  /** A ticket still to be granted is awaited, and a held one is the ticket of a call that runs. */
  ghost predicate TicketOk(q: Queue, t: nat)
    requires t < |q.owner|
  {
    && q.owner[t] < |q.calls|
    && (q.tickets.granted <= t ==> q.calls[q.owner[t]].ticket == t && q.calls[q.owner[t]].phase == Waiting)
    && (q.tickets.Held(t) ==> q.calls[q.owner[t]].ticket == t && q.calls[q.owner[t]].phase == Running)
  }

  ghost predicate Inv(q: Queue) {
    && q.tickets.Valid()
    && |q.owner| == |q.tickets.chain.closed|
    && (forall c :: 0 <= c < |q.calls| ==> CallOk(q, c))
    && (forall t :: 0 <= t < |q.owner| ==> TicketOk(q, t))
  }

  function Step(q: Queue, a: Action): Queue
    requires Inv(q) && Enabled(q, a)
  {
    assert a.Outside? || a.Settle? ==> CallOk(q, a.call);
    match a
    case Arrive =>
      Queue(q.tickets.Acquire(), q.calls + [Call(|q.owner|, Waiting, false, false)], q.owner + [|q.calls|])
    case Enter(c) =>
      q.(tickets := q.tickets.Grant(q.calls[c].ticket), calls := q.calls[c := q.calls[c].(phase := Running, started := true)])
    case Outside(c) =>
      (match q.calls[c].phase
       case Running =>
         q.(tickets := q.tickets.Release(q.calls[c].ticket), calls := q.calls[c := q.calls[c].(phase := Away)])
       // releasing a second time does nothing
       case Over => q.(calls := q.calls[c := q.calls[c].(phase := Away)])
       // a call that does not hold the queue at this moment just runs its work
       case _ => q)
    case Return(c) =>
      Queue(q.tickets.Acquire(), q.calls[c := q.calls[c].(ticket := |q.owner|, phase := Waiting)], q.owner + [c])
    case Settle(c, _) =>
      if q.calls[c].phase != Running then q.(calls := q.calls[c := q.calls[c].(done := true)])
      else q.(tickets := q.tickets.Release(q.calls[c].ticket), calls := q.calls[c := q.calls[c].(phase := Over, done := true)])
    case Microtask => q.(tickets := q.tickets.Settle())
  }

  lemma TicketsStayValid(q: Queue, a: Action)
    requires Inv(q) && Enabled(q, a)
    ensures Step(q, a).tickets.Valid() && |Step(q, a).owner| == |Step(q, a).tickets.chain.closed|
  {
    if a.Outside? || a.Settle? { assert CallOk(q, a.call); }
  }

  lemma CallsStayOk(q: Queue, a: Action, c: nat)
    requires Inv(q) && Enabled(q, a) && c < |Step(q, a).calls|
    ensures CallOk(Step(q, a), c)
  {
    if c < |q.calls| { assert CallOk(q, c); }
    if a.Enter? || a.Outside? || a.Settle? || a.Return? { assert CallOk(q, a.call); }
  }

  lemma TicketsStayOk(q: Queue, a: Action, t: nat)
    requires Inv(q) && Enabled(q, a) && t < |Step(q, a).owner|
    ensures TicketOk(Step(q, a), t)
  {
    if t < |q.owner| { assert TicketOk(q, t); }
    if a.Enter? || a.Outside? || a.Settle? || a.Return? {
      assert CallOk(q, a.call);
      assert TicketOk(q, q.calls[a.call].ticket);
    }
  }

  lemma StepKeepsInv(q: Queue, a: Action)
    requires Inv(q) && Enabled(q, a)
    ensures Inv(Step(q, a))
  {
    TicketsStayValid(q, a);
    forall c | 0 <= c < |Step(q, a).calls| ensures CallOk(Step(q, a), c) { CallsStayOk(q, a, c); }
    forall t | 0 <= t < |Step(q, a).owner| ensures TicketOk(Step(q, a), t) { TicketsStayOk(q, a, t); }
  }

  /** What an action is to the mutex. */
  function MutexStep(q: Queue, a: Action, m: Mutex): Mutex
    requires Inv(q) && Enabled(q, a) && m == AsMutex(q.tickets)
  {
    match a
    case Arrive => m.Acquire()
    case Return(_) => m.Acquire()
    case Enter(c) => ChainRefinesMutex(q.tickets); m.Grant()
    case Outside(c) => if q.calls[c].phase == Running then m.Release() else m
    case Settle(c, _) => if q.calls[c].phase == Running then m.Release() else m
    case Microtask => m
  }

  lemma QueueRefinesMutex(q: Queue, a: Action)
    requires Inv(q) && Enabled(q, a)
    ensures Inv(Step(q, a))
    ensures AsMutex(Step(q, a).tickets) == MutexStep(q, a, AsMutex(q.tickets))
  {
    StepKeepsInv(q, a);
    ChainRefinesMutex(q.tickets);
    if a.Outside? || a.Settle? { assert CallOk(q, a.call); }
  }

  function Play(q: Queue, actions: seq<Action>): (n: Queue)
    requires Inv(q)
    ensures Inv(n)
    decreases |actions|
  {
    if actions == [] then q
    else if Enabled(q, actions[0]) then StepKeepsInv(q, actions[0]); Play(Step(q, actions[0]), actions[1..])
    else Play(q, actions[1..])
  }

  /** Over every interleaving, early settles included, at most one run holds the queue, and a held ticket is its own. */
  lemma OneRunAtATime(actions: seq<Action>)
    ensures var q := Play(Idle, actions);
            && (forall c, d ::
                  0 <= c < |q.calls| && 0 <= d < |q.calls| && q.calls[c].phase == Running && q.calls[d].phase == Running ==>
                    c == d)
            && (forall i :: 0 <= i < |q.owner| && q.tickets.Held(i) ==> q.owner[i] < |q.calls| && q.calls[q.owner[i]].phase == Running)
  {
    var q := Play(Idle, actions);
    assert Inv(q);
    forall c, d | 0 <= c < |q.calls| && 0 <= d < |q.calls| && q.calls[c].phase == Running && q.calls[d].phase == Running
      ensures c == d
    {
      assert CallOk(q, c) && CallOk(q, d);
      OneHolder(q.tickets, q.calls[c].ticket, q.calls[d].ticket);
    }
    forall i | 0 <= i < |q.owner| && q.tickets.Held(i) ensures q.owner[i] < |q.calls| && q.calls[q.owner[i]].phase == Running {
      assert TicketOk(q, i);
    }
  }

  /** A run that left for a service waits behind everything that queued meanwhile, and ahead of what comes later. */
  lemma ReturnRejoinsBehind(actions: seq<Action>, c: nat)
    requires Enabled(Play(Idle, actions), Return(c))
    ensures var q := Play(Idle, actions); var n := Step(q, Return(c));
            && n.calls[c] == q.calls[c].(ticket := |q.owner|, phase := Waiting)
            && AsMutex(n.tickets).waiting == AsMutex(q.tickets).waiting + [n.calls[c].ticket]
            && forall d :: 0 <= d < |q.calls| && q.calls[d].phase == Waiting ==> n.calls[d].ticket < n.calls[c].ticket
  {
    var q := Play(Idle, actions);
    QueueRefinesMutex(q, Return(c));
    forall d | 0 <= d < |q.calls| && q.calls[d].phase == Waiting
      ensures Step(q, Return(c)).calls[d].ticket < |q.owner|
    {
      assert CallOk(q, d);
    }
  }

  /** However a run that holds the queue ends, its hold is released: once the chain catches up the next ticket is granted. */
  lemma SettlingFreesTheQueue(q: Queue, c: nat, threw: bool)
    requires Inv(q) && Enabled(q, Settle(c, threw))
    ensures var n := Step(q, Settle(c, threw));
            && Inv(n)
            && (q.calls[c].phase != Running ==> n.tickets == q.tickets)
            && (q.calls[c].phase == Running ==>
                  && AsMutex(n.tickets).holder.None? && n.tickets.chain.CanSettle()
                  && (n.tickets.granted < |n.owner| ==> n.tickets.Settle().CanGrant(n.tickets.granted)))
  {
    StepKeepsInv(q, Settle(c, threw));
    assert CallOk(q, c);
  }

  // ---------------------------------------------------------------------------------------------
  // Runs that settle too early, and outside calls that begin too late

  /** No run whose work is over holds the queue, waits for it or is away: none can be left holding it. */
  ghost predicate Live(q: Queue) {
    forall c :: 0 <= c < |q.calls| && q.calls[c].done ==> q.calls[c].phase == Over
  }

  /** A run settles only with the queue in hand, and asks for no outside call once it has settled. */
  predicate OrderlyStep(q: Queue, a: Action) {
    Enabled(q, a) ==>
      && (a.Settle? ==> q.calls[a.call].phase == Running)
      && (a.Outside? ==> !q.calls[a.call].done)
  }

  ghost predicate Orderly(q: Queue, actions: seq<Action>)
    requires Inv(q)
    decreases |actions|
  {
    actions == [] || (OrderlyStep(q, actions[0]) && Orderly(After(q, actions[0]), actions[1..]))
  }

  function After(q: Queue, a: Action): (n: Queue)
    requires Inv(q)
    ensures Inv(n)
  {
    if Enabled(q, a) then StepKeepsInv(q, a); Step(q, a) else q
  }

  lemma LiveIffOrderly(q: Queue, a: Action)
    requires Inv(q) && Live(q)
    ensures Live(After(q, a)) <==> OrderlyStep(q, a)
  {
    if Enabled(q, a) {
      var n := Step(q, a);
      if OrderlyStep(q, a) {
        forall c | 0 <= c < |n.calls| && n.calls[c].done ensures n.calls[c].phase == Over {
          if c < |q.calls| { assert CallOk(q, c); }
        }
      } else {
        assert CallOk(q, a.call);
        assert n.calls[a.call].done && n.calls[a.call].phase != Over;
      }
    }
  }

  /** A finished run that is not through with the queue never gets through with it. */
  lemma NeverLiveAgain(q: Queue, a: Action, c: nat)
    requires Inv(q) && c < |q.calls| && q.calls[c].done && q.calls[c].phase != Over
    ensures var n := After(q, a); c < |n.calls| && n.calls[c].done && n.calls[c].phase != Over
  {
  }

  lemma {:induction false} UnliveStays(q: Queue, actions: seq<Action>, c: nat)
    requires Inv(q) && c < |q.calls| && q.calls[c].done && q.calls[c].phase != Over
    ensures var n := Play(q, actions); c < |n.calls| && n.calls[c].done && n.calls[c].phase != Over
    decreases |actions|
  {
    if actions != [] {
      NeverLiveAgain(q, actions[0], c);
      UnliveStays(After(q, actions[0]), actions[1..], c);
    }
  }

  lemma {:induction false} LiveExactlyWhenOrderly(q: Queue, actions: seq<Action>)
    requires Inv(q) && Live(q)
    ensures Live(Play(q, actions)) <==> Orderly(q, actions)
    decreases |actions|
  {
    if actions != [] {
      var n := After(q, actions[0]);
      LiveIffOrderly(q, actions[0]);
      if Live(n) {
        LiveExactlyWhenOrderly(n, actions[1..]);
      } else {
        var c :| 0 <= c < |n.calls| && n.calls[c].done && n.calls[c].phase != Over;
        UnliveStays(n, actions[1..], c);
      }
    }
  }

  /** Every ticket in hand is in the hand of a run that has yet to settle. */
  ghost predicate EveryHoldHasARun(q: Queue)
    requires Inv(q)
  {
    forall t :: 0 <= t < |q.owner| && q.tickets.Held(t) ==> TicketOk(q, t) && !q.calls[q.owner[t]].done
  }

  lemma LiveHoldsHaveRuns(q: Queue)
    requires Inv(q) && Live(q)
    ensures EveryHoldHasARun(q)
  {
    forall t | 0 <= t < |q.owner| && q.tickets.Held(t) ensures TicketOk(q, t) && !q.calls[q.owner[t]].done {
      assert TicketOk(q, t);
    }
  }

  /** How much is left until call `c` is granted, everyone else settling in turn. */
  function Distance(q: Queue, c: nat): nat
    requires Inv(q) && c < |q.calls|
  {
    Remaining(q.tickets) + if q.calls[c].phase == Away then 4 else 0
  }

  /** What brings a stranded run back to the queue: it returns, those ahead of it settle, and it is granted. */
  function Onward(q: Queue, c: nat): Action
    requires Inv(q) && c < |q.calls| && q.calls[c].phase != Over
  {
    if q.calls[c].phase == Away then Return(c)
    else if q.tickets.granted > 0 && q.tickets.Held(q.tickets.granted - 1) then
      assert TicketOk(q, q.tickets.granted - 1);
      Settle(q.owner[q.tickets.granted - 1], false)
    else if q.tickets.chain.CanSettle() then Microtask
    else
      assert CallOk(q, c);
      assert TicketOk(q, q.tickets.granted);
      Enter(q.owner[q.tickets.granted])
  }

  lemma OnwardGoesOn(q: Queue, c: nat)
    requires Inv(q) && c < |q.calls| && q.calls[c].done && q.calls[c].phase != Over && EveryHoldHasARun(q)
    ensures Enabled(q, Onward(q, c)) && OrderlyStep(q, Onward(q, c))
    ensures var n := After(q, Onward(q, c)); c < |n.calls| && n.calls[c].done && n.calls[c].phase != Over && Distance(n, c) < Distance(q, c)
  {
    assert CallOk(q, c);
    if q.tickets.granted > 0 && q.tickets.Held(q.tickets.granted - 1) {
      assert TicketOk(q, q.tickets.granted - 1);
      assert CallOk(q, q.owner[q.tickets.granted - 1]);
    } else {
      NeverStuck1(q.tickets);
      if q.tickets.granted < |q.owner| { assert TicketOk(q, q.tickets.granted); }
    }
    NeverLiveAgain(q, Onward(q, c), c);
  }

  lemma NeverStuck1(q: Tickets)
    requires q.Valid() && !(q.granted > 0 && q.Held(q.granted - 1))
    ensures !q.chain.CanSettle() && q.granted < |q.chain.closed| ==> q.CanGrant(q.granted)
  {
    if !q.chain.CanSettle() { NeverStuck(q); }
  }

  /** From any state with a stranded run, an orderly continuation leaves the queue in the hand of a finished run. */
  lemma {:induction false} StrandedRunsComeToHold(q: Queue, c: nat) returns (rest: seq<Action>)
    requires Inv(q) && c < |q.calls| && q.calls[c].done && q.calls[c].phase != Over
    ensures Orderly(q, rest) && !EveryHoldHasARun(Play(q, rest))
    decreases Distance(q, c)
  {
    if !EveryHoldHasARun(q) {
      rest := [];
    } else {
      OnwardGoesOn(q, c);
      var a := Onward(q, c);
      var tail := StrandedRunsComeToHold(After(q, a), c);
      rest := [a] + tail;
      assert rest[1..] == tail;
    }
  }

  /**
   Over all runs: every hold is in the hand of a run that will release it, now and in every orderly continuation,
   exactly when no run settled while its own outside call was pending and none asked for one after it had settled.
   */
  lemma HoldsHaveRunsExactlyWhenOrderly(actions: seq<Action>)
    ensures Orderly(Idle, actions) <==>
            forall rest :: Orderly(Play(Idle, actions), rest) ==> EveryHoldHasARun(Play(Play(Idle, actions), rest))
  {
    var q := Play(Idle, actions);
    LiveExactlyWhenOrderly(Idle, actions);
    if Live(q) {
      forall rest | Orderly(q, rest) ensures EveryHoldHasARun(Play(q, rest)) {
        LiveExactlyWhenOrderly(q, rest);
        LiveHoldsHaveRuns(Play(q, rest));
      }
    } else {
      var c :| 0 <= c < |q.calls| && q.calls[c].done && q.calls[c].phase != Over;
      var rest := StrandedRunsComeToHold(q, c);
    }
  }

  /** A ticket in a finished run's hand blocks the queue for good, unless that very run asks for another outside call. */
  lemma {:induction false} AFinishedHolderBlocksTheQueue(q: Queue, t: nat, actions: seq<Action>)
    requires Inv(q) && t < |q.owner| && q.tickets.Held(t) && q.owner[t] < |q.calls| && q.calls[q.owner[t]].done
    requires forall k :: 0 <= k < |actions| ==> actions[k] != Outside(q.owner[t])
    ensures var n := Play(q, actions); n.tickets.Held(t) && n.tickets.granted == q.tickets.granted
    decreases |actions|
  {
    if actions != [] {
      assert TicketOk(q, t);
      var n := After(q, actions[0]);
      OtherStepsLeaveTheHold(q, t, actions[0]);
      AFinishedHolderBlocksTheQueue(n, t, actions[1..]);
    }
  }

  lemma OtherStepsLeaveTheHold(q: Queue, t: nat, a: Action)
    requires Inv(q) && t < |q.owner| && q.tickets.Held(t) && q.owner[t] < |q.calls| && q.calls[q.owner[t]].done
    requires a != Outside(q.owner[t])
    ensures var n := After(q, a);
            && n.tickets.Held(t) && n.tickets.granted == q.tickets.granted
            && t < |n.owner| && n.owner[t] == q.owner[t] && n.owner[t] < |n.calls| && n.calls[n.owner[t]].done
  {
    assert TicketOk(q, t);
    if Enabled(q, a) {
      if a.Enter? {
        GrantsFollowAcquisition(q.tickets, q.calls[a.call].ticket);
      } else if (a.Outside? || a.Settle?) && q.calls[a.call].phase == Running {
        assert CallOk(q, a.call);
        OneHolder(q.tickets, t, q.calls[a.call].ticket);
      }
    }
  }

  /** The failing run: one call makes an outside call, settles while it is pending, comes back and is granted again. */
  const EarlySettle := [Arrive, Enter(0), Outside(0), Settle(0, false), Return(0), Microtask, Enter(0)]

  const Wedged := Queue(Tickets(Chain([true, false], 1), 2), [Call(1, Running, true, true)], [0, 0])

  lemma AnEarlySettleWedgesTheQueue()
    ensures Play(Idle, EarlySettle) == Wedged
    ensures Wedged.tickets.Held(1) && Wedged.calls[Wedged.owner[1]].done && !Wedged.tickets.Held(0)
    ensures forall a :: Enabled(Wedged, a) && a != Outside(0) ==> Inv(Wedged) && Step(Wedged, a).tickets.Held(1)
  {
    ArrivesAndEnters();
    LeavesAndSettles();
    ComesBackAndHolds();
    forall a | Enabled(Wedged, a) && a != Outside(0) ensures Step(Wedged, a).tickets.Held(1) {
      OtherStepsLeaveTheHold(Wedged, 1, a);
    }
  }

  const Stranded := Queue(Tickets(Chain([true], 0), 1), [Call(0, Away, true, true)], [0])

  const Runs := Queue(Tickets(Chain([false], 0), 1), [Call(0, Running, true, false)], [0])

  lemma ArrivesAndEnters()
    ensures Inv(Runs) && Play(Idle, EarlySettle) == Play(Runs, EarlySettle[2..])
  {
    var q1 := Queue(Tickets(Chain([false], 0), 0), [Call(0, Waiting, false, false)], [0]);
    assert Step(Idle, Arrive) == q1;
    PlayOne(Idle, EarlySettle, Arrive, q1);
    assert Step(q1, Enter(0)) == Runs;
    PlayOne(q1, EarlySettle[1..], Enter(0), Runs);
    Tails(EarlySettle, 1);
  }

  lemma LeavesAndSettles()
    requires Inv(Runs)
    ensures Inv(Stranded) && Play(Runs, EarlySettle[2..]) == Play(Stranded, EarlySettle[4..])
  {
    var q3 := Stranded.(calls := [Call(0, Away, true, false)]);
    PlayOne(Runs, EarlySettle[2..], Outside(0), q3);
    PlayOne(q3, EarlySettle[3..], Settle(0, false), Stranded);
    Tails(EarlySettle, 3);
  }

  lemma ComesBackAndHolds()
    requires Inv(Stranded)
    ensures Inv(Wedged) && Play(Stranded, EarlySettle[4..]) == Wedged
  {
    var q5 := Queue(Tickets(Chain([true, false], 0), 1), [Call(1, Waiting, true, true)], [0, 0]);
    var q6 := q5.(tickets := Tickets(Chain([true, false], 1), 1));
    PlayOne(Stranded, EarlySettle[4..], Return(0), q5);
    PlayOne(q5, EarlySettle[5..], Microtask, q6);
    PlayOne(q6, EarlySettle[6..], Enter(0), Wedged);
    Tails(EarlySettle, 6);
  }

  lemma {:induction false} Tails(actions: seq<Action>, k: nat)
    requires k < |actions|
    ensures forall i :: 0 <= i <= k ==> actions[i..][1..] == actions[i + 1..]
  {
  }

  lemma PlayOne(q: Queue, actions: seq<Action>, a: Action, n: Queue)
    requires Inv(q) && actions != [] && actions[0] == a && Enabled(q, a) && Step(q, a) == n
    ensures Inv(n) && Play(q, actions) == Play(n, actions[1..])
  {
    StepKeepsInv(q, a);
  }

  // ---------------------------------------------------------------------------------------------
  // The queue the runtime keeps

  /** The hold handed to a run: `release` names the gate it closes. */
  class Hold {
    const call: nat
    var held: bool
    var release: nat
    ghost var phase: Phase
    ghost var started: bool
    ghost var done: bool

    constructor (call: nat, release: nat)
      ensures this.call == call && !held && Snapshot() == Call(release, Waiting, false, false)
    {
      this.call, this.release, phase, held, started, done := call, release, Waiting, false, false, false;
    }

    ghost function Snapshot(): Call
      reads this
    {
      Call(release, phase, started, done)
    }
  }

  class OrbitalEventQueue {
    var chain: Chain
    ghost var granted: nat
    ghost var holds: seq<Hold>
    ghost var owner: seq<nat>

    ghost predicate Linked()
      reads this, holds
    {
      && (forall c :: 0 <= c < |holds| ==> holds[c].call == c)
      && (forall c :: 0 <= c < |holds| ==> (holds[c].held <==> holds[c].phase == Running || holds[c].phase == Over))
    }

    ghost predicate Valid()
      reads this, holds
    {
      Linked() && Inv(View())
    }

    ghost function View(): Queue
      reads this, holds
    {
      Queue(Tickets(chain, granted),
            seq(|holds|, c requires 0 <= c < |holds| reads this, holds => holds[c].Snapshot()),
            owner)
    }

    constructor ()
      ensures Valid() && View() == Idle
    {
      chain, granted, holds, owner := Empty, 0, [], [];
    }

    /** `acquireEventQueue`: chain a new gate and answer which. */
    method Acquire(ghost call: nat) returns (release: nat)
      modifies this`chain, this`owner
      ensures release == |old(chain).closed| && chain == old(chain).Join() && owner == old(owner) + [call]
    {
      release := |chain.closed|;
      chain, owner := chain.Join(), owner + [call];
    }

    /** `enqueueEvent` begins. */
    method Arrive(call: nat) returns (hold: Hold)
      requires Valid() && call == |holds|
      modifies this`chain, this`owner, this`holds
      ensures Valid() && fresh(hold) && holds == old(holds) + [hold]
      ensures View() == Step(old(View()), Action.Arrive)
    {
      StepKeepsInv(View(), Action.Arrive);
      var release := Acquire(call);
      hold := new Hold(call, release);
      holds := holds + [hold];
      assert View() == Step(old(View()), Action.Arrive);
    }

    /** The awaited acquisition resolved: the run starts, or goes on after an outside call. */
    method Enter(hold: Hold)
      requires Valid() && hold in holds && Enabled(View(), Action.Enter(hold.call))
      modifies hold, this`granted
      ensures Valid() && View() == Step(old(View()), Action.Enter(hold.call))
    {
      StepKeepsInv(View(), Action.Enter(hold.call));
      hold.held, hold.phase, hold.started, granted := true, Running, true, granted + 1;
      assert View() == Step(old(View()), Action.Enter(hold.call));
    }

    /** `outsideEventQueue` begins; `left` says whether the queue was given up. */
    method Outside(hold: Hold) returns (left: bool)
      requires Valid() && hold in holds && hold.started
      modifies hold, this`chain
      ensures Valid() && left == old(hold.held) && View() == Step(old(View()), Action.Outside(hold.call))
    {
      StepKeepsInv(View(), Action.Outside(hold.call));
      left := hold.held;
      if left {
        assert CallOk(View(), hold.call);
        hold.held, hold.phase := false, Away;
        chain := chain.Close(hold.release);
      }
      assert View() == Step(old(View()), Action.Outside(hold.call));
    }

    /** The outside work is over: acquire again, behind whatever queued meanwhile. */
    method Return(hold: Hold)
      requires Valid() && hold in holds && hold.phase == Away
      modifies hold, this`chain, this`owner
      ensures Valid() && View() == Step(old(View()), Action.Return(hold.call))
    {
      StepKeepsInv(View(), Action.Return(hold.call));
      hold.release := Acquire(hold.call);
      hold.phase := Waiting;
      assert View() == Step(old(View()), Action.Return(hold.call));
    }

    /** The run's work settled, with a result or a failure: the hold, if held, is released. */
    method Settle(hold: Hold, threw: bool)
      requires Valid() && hold in holds && hold.started && !hold.done
      modifies hold, this`chain
      ensures Valid() && View() == Step(old(View()), Action.Settle(hold.call, threw))
    {
      StepKeepsInv(View(), Action.Settle(hold.call, threw));
      assert CallOk(View(), hold.call);
      if hold.held {
        chain := chain.Close(hold.release);
        hold.phase := Over;
      }
      hold.done := true;
      assert View() == Step(old(View()), Action.Settle(hold.call, threw));
    }
  }
}
