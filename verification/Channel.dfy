/**
 Requests over a message channel: the view's half, the host's half, and the two composed.

 The channel keeps order both ways.  The host answers `send` requests in whatever order its transport settles them.
 */
module Channel {
  import opened Wrappers

  type Body = string

  datatype Request = Register(schemaName: string) | Send(orbital: string, body: Body)
  datatype Call = Call(id: nat, request: Request)
  datatype Answer = Registered(held: bool) | Replied(response: Body) | Closed
  datatype Reply = Reply(id: nat, answer: Answer)

  /** The view's half; `posted` and `settled` are everything it has sent and resolved. */
  datatype View = View(next: nat, pending: seq<nat>, closed: bool, posted: seq<Call>, settled: seq<Reply>)

  /** The host's half: how many calls it has taken, and its transport's response to each `send` by position. */
  datatype Host = Host(taken: nat, answers: map<nat, Body>, sent: seq<Reply>)

  /** `got` replies have reached the view; `forgotten` are the requests an unregister dropped. */
  datatype State = State(view: View, host: Host, got: nat, forgotten: set<nat>)

  const START := State(View(1, [], false, [], []), Host(0, map[], []), 0, {})

  function Without(s: seq<nat>, id: nat): seq<nat> {
    if s == [] then [] else if s[0] == id then s[1..] else [s[0]] + Without(s[1..], id)
  }

  function AllClosed(ids: seq<nat>): (r: seq<Reply>)
    ensures |r| == |ids| && forall i :: 0 <= i < |ids| ==> r[i] == Reply(ids[i], Closed)
  {
    seq(|ids|, i requires 0 <= i < |ids| => Reply(ids[i], Closed))
  }

  // ---------------------------------------------------------------------------------------------
  // The view's steps

  function Ask(v: View, request: Request): View {
    if v.closed then v.(next := v.next + 1, settled := v.settled + [Reply(v.next, Closed)])
    else v.(next := v.next + 1, pending := v.pending + [v.next], posted := v.posted + [Call(v.next, request)])
  }

  function OnReply(v: View, r: Reply): View {
    if r.id in v.pending then v.(pending := Without(v.pending, r.id), settled := v.settled + [r]) else v
  }

  function OnClose(v: View): View {
    v.(pending := [], closed := true, settled := v.settled + AllClosed(v.pending))
  }

  /** The view half's `closed`, `next` and `pending`, as its closures update them. */
  class ChannelTransport {
    var next: nat
    var pending: seq<nat>
    var closed: bool
    ghost var posted: seq<Call>
    ghost var settled: seq<Reply>

    ghost function Abstract(): View
      reads this
    {
      View(next, pending, closed, posted, settled)
    }

    constructor ()
      ensures Abstract() == START.view
    {
      next, pending, closed, posted, settled := 1, [], false, [], [];
    }

    method Request(request: Request) returns (id: nat)
      modifies this
      ensures id == old(next) && Abstract() == Ask(old(Abstract()), request)
    {
      id := next;
      next := next + 1;
      if closed {
        settled := settled + [Reply(id, Closed)];
        return;
      }
      pending := pending + [id];
      posted := posted + [Call(id, request)];
    }

    method OnMessage(reply: Reply)
      modifies `pending, `settled
      ensures Abstract() == OnReply(old(Abstract()), reply)
    {
      if reply.id !in pending { return; }
      pending := Without(pending, reply.id);
      settled := settled + [reply];
    }

    method Close()
      modifies `pending, `closed, `settled
      ensures Abstract() == OnClose(old(Abstract()))
    {
      closed := true;
      for i := 0 to |pending|
        invariant settled == old(settled) + AllClosed(pending)[..i]
      {
        settled := settled + [Reply(pending[i], Closed)];
      }
      pending := [];
    }

    method Unregister()
      modifies `pending
      ensures Abstract() == old(Abstract()).(pending := [])
    {
      pending := [];
    }
  }

  // ---------------------------------------------------------------------------------------------
  // The two halves composed

  datatype Action =
    | Asks(request: Request)
    | HostTakes
    | HostAnswers(at: nat, response: Body)
    | ViewTakes
    | Closes
    | Unregisters

  predicate Enabled(s: State, a: Action) {
    match a
    case HostTakes => s.host.taken < |s.view.posted|
    case HostAnswers(at, _) => at < s.host.taken <= |s.view.posted| && s.view.posted[at].request.Send? && at !in s.host.answers
    case ViewTakes => s.got < |s.host.sent|
    case _ => true
  }

  function Step(served: string, s: State, a: Action): State
    requires Enabled(s, a)
  {
    match a
    case Asks(request) => s.(view := Ask(s.view, request))
    case HostTakes =>
      var call := s.view.posted[s.host.taken];
      s.(host := s.host.(taken := s.host.taken + 1,
                         sent := if call.request.Register?
                                 then s.host.sent + [Reply(call.id, Registered(call.request.schemaName == served))]
                                 else s.host.sent))
    case HostAnswers(at, response) =>
      s.(host := s.host.(answers := s.host.answers[at := response],
                         sent := s.host.sent + [Reply(s.view.posted[at].id, Replied(response))]))
    case ViewTakes => s.(view := OnReply(s.view, s.host.sent[s.got]), got := s.got + 1)
    case Closes => s.(view := OnClose(s.view))
    case Unregisters =>
      s.(view := s.view.(pending := []), forgotten := s.forgotten + set id | id in s.view.pending)
  }

  function Play(served: string, s: State, actions: seq<Action>): Option<State>
    decreases |actions|
  {
    if actions == [] then Some(s)
    else if Enabled(s, actions[0]) then Play(served, Step(served, s, actions[0]), actions[1..])
    else None
  }

  predicate Distinct(s: seq<nat>) {
    forall i, j :: 0 <= i < j < |s| ==> s[i] != s[j]
  }

  predicate SettledIn(settled: seq<Reply>, id: nat) {
    exists i :: 0 <= i < |settled| && settled[i].id == id
  }

  predicate SettledOnce(settled: seq<Reply>) {
    forall i, j :: 0 <= i < j < |settled| ==> settled[i].id != settled[j].id
  }

  /** The view's own bookkeeping: each id asked for is pending, settled or forgotten, never two of them. */
  predicate Books(v: View, forgotten: set<nat>) {
    && v.next >= 1 && Distinct(v.pending) && SettledOnce(v.settled)
    && (forall id :: id in v.pending ==> 1 <= id < v.next && !SettledIn(v.settled, id) && id !in forgotten)
    && (forall i :: 0 <= i < |v.settled| ==> 1 <= v.settled[i].id < v.next && v.settled[i].id !in forgotten)
    && (forall id :: id in forgotten ==> 1 <= id < v.next)
    && (forall id :: 1 <= id < v.next ==> id in v.pending || SettledIn(v.settled, id) || id in forgotten)
    && (v.closed ==> v.pending == [])
  }

  /** The ids on the wire are consecutive, and posting stops at the close. */
  predicate Wire(v: View) {
    && (forall k :: 0 <= k < |v.posted| ==> v.posted[k].id == k + 1)
    && |v.posted| < v.next && (!v.closed ==> |v.posted| == v.next - 1)
    && (forall id :: id in v.pending ==> 1 <= id <= |v.posted|)
  }

  /** A reply carries what the host computed for that very request. */
  predicate Justified(served: string, v: View, h: Host, r: Reply) {
    1 <= r.id <= h.taken <= |v.posted| &&
    match v.posted[r.id - 1].request
    case Register(schemaName) => r.answer == Registered(schemaName == served)
    case Send(_, _) => r.id - 1 in h.answers && r.answer == Replied(h.answers[r.id - 1])
  }

  predicate HostInv(served: string, s: State) {
    && s.host.taken <= |s.view.posted| && s.got <= |s.host.sent|
    && (forall k :: k in s.host.answers ==> k < s.host.taken)
    && (forall j :: 0 <= j < |s.host.sent| ==> Justified(served, s.view, s.host, s.host.sent[j]))
  }

  predicate SettledRight(served: string, s: State) {
    forall i :: 0 <= i < |s.view.settled| ==>
      s.view.settled[i].answer == Closed || Justified(served, s.view, s.host, s.view.settled[i])
  }

  predicate Coming(s: State, id: nat) {
    exists j :: s.got <= j < |s.host.sent| && s.host.sent[j].id == id
  }

  /** A pending request's answer is still owed by the host or on its way. */
  predicate Owed(s: State, id: nat) {
    || id > s.host.taken
    || (1 <= id <= |s.view.posted| && s.view.posted[id - 1].request.Send? && id - 1 !in s.host.answers)
    || Coming(s, id)
  }

  predicate NothingLost(s: State) {
    forall id :: id in s.view.pending ==> Owed(s, id)
  }

  predicate Inv(served: string, s: State) {
    Books(s.view, s.forgotten) && Wire(s.view) && HostInv(served, s) && SettledRight(served, s) && NothingLost(s)
  }

  lemma {:induction false} WithoutKeeps(s: seq<nat>, id: nat)
    requires Distinct(s)
    ensures Distinct(Without(s, id))
    ensures forall x :: x in Without(s, id) <==> x in s && x != id
  {
    if s != [] {
      var rest := s[1..];
      WithoutKeeps(rest, id);
      assert s == [s[0]] + rest;
      assert s[0] !in rest;
    }
  }

  lemma AskKeepsBooks(v: View, forgotten: set<nat>, request: Request)
    requires Books(v, forgotten)
    ensures Books(Ask(v, request), forgotten)
  {
    var w := Ask(v, request);
    assert forall i :: 0 <= i < |v.pending| ==> v.pending[i] in v.pending;
    if v.closed {
      SettledMore(v.settled, Reply(v.next, Closed));
    }
    forall id | 1 <= id < w.next ensures id in w.pending || SettledIn(w.settled, id) || id in forgotten {
      if id < v.next { assert id in v.pending || SettledIn(v.settled, id) || id in forgotten; }
    }
  }

  lemma SettledMore(settled: seq<Reply>, r: Reply)
    ensures forall id :: SettledIn(settled + [r], id) <==> SettledIn(settled, id) || id == r.id
  {
    var more := settled + [r];
    forall id ensures SettledIn(more, id) <==> SettledIn(settled, id) || id == r.id {
      if SettledIn(settled, id) {
        var i :| 0 <= i < |settled| && settled[i].id == id;
        assert more[i].id == id;
      }
      if id == r.id { assert more[|settled|].id == id; }
    }
  }

  lemma ReplyKeepsBooks(v: View, forgotten: set<nat>, r: Reply)
    requires Books(v, forgotten)
    ensures Books(OnReply(v, r), forgotten)
  {
    if r.id in v.pending {
      WithoutKeeps(v.pending, r.id);
      SettledMore(v.settled, r);
      var w := OnReply(v, r);
      forall id | 1 <= id < w.next ensures id in w.pending || SettledIn(w.settled, id) || id in forgotten {
        assert id in v.pending || SettledIn(v.settled, id) || id in forgotten;
      }
    }
  }

  lemma CloseSettles(v: View)
    ensures forall id :: SettledIn(OnClose(v).settled, id) <==> SettledIn(v.settled, id) || id in v.pending
  {
    var all := OnClose(v).settled;
    forall id ensures SettledIn(all, id) <==> SettledIn(v.settled, id) || id in v.pending {
      if SettledIn(v.settled, id) {
        var i :| 0 <= i < |v.settled| && v.settled[i].id == id;
        assert all[i].id == id;
      }
      if id in v.pending {
        var i :| 0 <= i < |v.pending| && v.pending[i] == id;
        assert all[|v.settled| + i].id == id;
      }
    }
  }

  lemma CloseKeepsBooks(v: View, forgotten: set<nat>)
    requires Books(v, forgotten)
    ensures Books(OnClose(v), forgotten)
  {
    CloseSettles(v);
    var w := OnClose(v);
    forall i | |v.settled| <= i < |w.settled| ensures w.settled[i].id in v.pending {
      assert w.settled[i].id == v.pending[i - |v.settled|];
    }
    forall i, j | 0 <= i < j < |w.settled| ensures w.settled[i].id != w.settled[j].id {
      if i < |v.settled| <= j {
        assert w.settled[j].id == v.pending[j - |v.settled|];
        assert SettledIn(v.settled, v.settled[i].id);
      }
    }
    forall id | 1 <= id < w.next ensures id in w.pending || SettledIn(w.settled, id) || id in forgotten {
      assert id in v.pending || SettledIn(v.settled, id) || id in forgotten;
    }
  }

  lemma StepKeepsBooks(served: string, s: State, a: Action)
    requires Books(s.view, s.forgotten) && Enabled(s, a)
    ensures Books(Step(served, s, a).view, Step(served, s, a).forgotten)
  {
    match a
    case Asks(request) => AskKeepsBooks(s.view, s.forgotten, request);
    case ViewTakes => ReplyKeepsBooks(s.view, s.forgotten, s.host.sent[s.got]);
    case Closes => CloseKeepsBooks(s.view, s.forgotten);
    case Unregisters =>
      forall i | 0 <= i < |s.view.settled| ensures s.view.settled[i].id !in s.view.pending {
        assert SettledIn(s.view.settled, s.view.settled[i].id);
      }
    case _ =>
  }

  lemma StepKeepsWire(served: string, s: State, a: Action)
    requires Books(s.view, s.forgotten) && Wire(s.view) && Enabled(s, a)
    ensures Wire(Step(served, s, a).view)
  {
    if a.ViewTakes? { WithoutKeeps(s.view.pending, s.host.sent[s.got].id); }
  }

  lemma StaysJustified(served: string, s: State, a: Action, r: Reply)
    requires HostInv(served, s) && Enabled(s, a) && Justified(served, s.view, s.host, r)
    ensures Justified(served, Step(served, s, a).view, Step(served, s, a).host, r)
  {
  }

  lemma SentIsJustified(served: string, s: State, a: Action)
    requires Wire(s.view) && HostInv(served, s) && Enabled(s, a)
    ensures var t := Step(served, s, a);
            forall j :: |s.host.sent| <= j < |t.host.sent| ==> Justified(served, t.view, t.host, t.host.sent[j])
  {
  }

  lemma StepKeepsHost(served: string, s: State, a: Action)
    requires Wire(s.view) && HostInv(served, s) && Enabled(s, a)
    ensures HostInv(served, Step(served, s, a))
  {
    var t := Step(served, s, a);
    SentIsJustified(served, s, a);
    forall j | 0 <= j < |s.host.sent| ensures Justified(served, t.view, t.host, t.host.sent[j]) {
      StaysJustified(served, s, a, s.host.sent[j]);
      assert t.host.sent[j] == s.host.sent[j];
    }
  }

  lemma StepKeepsSettled(served: string, s: State, a: Action)
    requires Wire(s.view) && HostInv(served, s) && SettledRight(served, s) && Enabled(s, a)
    ensures SettledRight(served, Step(served, s, a))
  {
    var t := Step(served, s, a);
    forall i | 0 <= i < |s.view.settled| && s.view.settled[i].answer != Closed
      ensures Justified(served, t.view, t.host, s.view.settled[i]) {
      StaysJustified(served, s, a, s.view.settled[i]);
    }
    if a.ViewTakes? { StaysJustified(served, s, a, s.host.sent[s.got]); }
  }

  lemma StepLosesNothing(served: string, s: State, a: Action)
    requires Inv(served, s) && Enabled(s, a)
    ensures NothingLost(Step(served, s, a))
  {
    var t := Step(served, s, a);
    if a.ViewTakes? { WithoutKeeps(s.view.pending, s.host.sent[s.got].id); }
    forall id | id in t.view.pending ensures Owed(t, id) {
      if id in s.view.pending {
        StillOwed(served, s, a, id);
      }
    }
  }

  lemma StillOwed(served: string, s: State, a: Action, id: nat)
    requires Inv(served, s) && Enabled(s, a) && id in s.view.pending && id in Step(served, s, a).view.pending
    ensures Owed(Step(served, s, a), id)
  {
    var t := Step(served, s, a);
    if a.ViewTakes? { WithoutKeeps(s.view.pending, s.host.sent[s.got].id); }
    if Coming(s, id) {
      var j :| s.got <= j < |s.host.sent| && s.host.sent[j].id == id;
      assert t.host.sent[j].id == id;
      assert Coming(t, id);
    } else if a.HostTakes? && id == s.host.taken + 1 {
      if s.view.posted[id - 1].request.Register? {
        assert t.host.sent[|s.host.sent|].id == id;
      }
    } else if a.HostAnswers? && a.at == id - 1 {
      assert t.host.sent[|s.host.sent|].id == id;
    }
  }

  lemma StepKeepsInv(served: string, s: State, a: Action)
    requires Inv(served, s) && Enabled(s, a)
    ensures Inv(served, Step(served, s, a))
  {
    StepKeepsBooks(served, s, a);
    StepKeepsWire(served, s, a);
    StepKeepsHost(served, s, a);
    StepKeepsSettled(served, s, a);
    StepLosesNothing(served, s, a);
  }

  lemma {:induction false} PlayKeepsInv(served: string, s: State, actions: seq<Action>)
    requires Inv(served, s) && Play(served, s, actions).Some?
    ensures Inv(served, Play(served, s, actions).value)
    decreases |actions|
  {
    if actions != [] {
      StepKeepsInv(served, s, actions[0]);
      PlayKeepsInv(served, Step(served, s, actions[0]), actions[1..]);
    }
  }

  ghost predicate Reachable(served: string, s: State) {
    exists actions :: Play(served, START, actions) == Some(s)
  }

  lemma ReachableInv(served: string, s: State)
    requires Reachable(served, s)
    ensures Inv(served, s)
  {
    var actions :| Play(served, START, actions) == Some(s);
    PlayKeepsInv(served, START, actions);
  }

  /** No request settles twice, and each settles with what the host computed for it or with the closed failure. */
  lemma SettlesOnceWithItsAnswer(served: string, s: State, i: nat)
    requires Reachable(served, s) && i < |s.view.settled|
    ensures var r := s.view.settled[i];
            && (forall j :: 0 <= j < |s.view.settled| && j != i ==> s.view.settled[j].id != r.id)
            && (r.answer == Closed || Justified(served, s.view, s.host, r))
  {
    ReachableInv(served, s);
  }

  /** A `send` is never answered out of protocol: it is given a reply, its own, or the closed failure. */
  lemma SendsGetReplies(served: string, s: State, i: nat)
    requires Reachable(served, s) && i < |s.view.settled|
    requires 1 <= s.view.settled[i].id <= |s.view.posted| && s.view.posted[s.view.settled[i].id - 1].request.Send?
    ensures !s.view.settled[i].answer.Registered?
  {
    ReachableInv(served, s);
  }

  /** Once the host has taken and answered everything and its replies have arrived, nothing is left waiting. */
  lemma AnsweredHostsSettleEverything(served: string, s: State)
    requires Reachable(served, s)
    requires s.host.taken == |s.view.posted| && s.got == |s.host.sent|
    requires forall k :: 0 <= k < |s.view.posted| && s.view.posted[k].request.Send? ==> k in s.host.answers
    ensures s.view.pending == []
    ensures forall id :: 1 <= id < s.view.next && id !in s.forgotten ==> SettledIn(s.view.settled, id)
  {
    ReachableInv(served, s);
    forall id ensures id !in s.view.pending {
      if 1 <= id <= |s.view.posted| { NothingIsOwed(s, id); }
    }
    NoElements(s.view.pending);
  }

  /** The view takes the replies that are on their way, one after another. */
  function TakeReplies(served: string, s: State): State
    decreases |s.host.sent| - s.got
  {
    if s.got < |s.host.sent| then TakeReplies(served, Step(served, s, ViewTakes)) else s
  }

  lemma {:induction false} TakingIsPlaying(served: string, s: State)
    requires Reachable(served, s) && s.got <= |s.host.sent|
    ensures var n := TakeReplies(served, s);
            Reachable(served, n) && n.host == s.host && n.view.posted == s.view.posted && n.view.next == s.view.next
            && n.forgotten == s.forgotten && n.got == |n.host.sent|
    decreases |s.host.sent| - s.got
  {
    if s.got < |s.host.sent| {
      ReachesOn(served, s, ViewTakes);
      TakingIsPlaying(served, Step(served, s, ViewTakes));
    }
  }

  lemma ReachesOn(served: string, s: State, a: Action)
    requires Reachable(served, s) && Enabled(s, a)
    ensures Reachable(served, Step(served, s, a))
  {
    var actions :| Play(served, START, actions) == Some(s);
    PlayOneMore(served, START, actions, a);
    assert Play(served, START, actions + [a]) == Some(Step(served, s, a));
  }

  lemma {:induction false} PlayOneMore(served: string, s: State, actions: seq<Action>, a: Action)
    requires Play(served, s, actions).Some? && Enabled(Play(served, s, actions).value, a)
    ensures Play(served, s, actions + [a]) == Some(Step(served, Play(served, s, actions).value, a))
    decreases |actions|
  {
    if actions == [] {
      assert ([] + [a])[1..] == [];
      assert Play(served, Step(served, s, a), []) == Some(Step(served, s, a));
    } else {
      assert (actions + [a])[1..] == actions[1..] + [a];
      PlayOneMore(served, Step(served, s, actions[0]), actions[1..], a);
    }
  }

  /** So once the host has answered everything, its replies settle all that waits as they arrive, the channel open or closed. */
  lemma ArrivingRepliesSettleEverything(served: string, s: State)
    requires Reachable(served, s) && s.got <= |s.host.sent| && s.host.taken == |s.view.posted|
    requires forall k :: 0 <= k < |s.view.posted| && s.view.posted[k].request.Send? ==> k in s.host.answers
    ensures var n := TakeReplies(served, s);
            && n.view.pending == []
            && forall id :: 1 <= id < s.view.next && id !in s.forgotten ==> SettledIn(n.view.settled, id)
  {
    TakingIsPlaying(served, s);
    AnsweredHostsSettleEverything(served, TakeReplies(served, s));
  }

  predicate Ascending(ids: seq<nat>, below: nat) {
    && (forall i, j :: 0 <= i < j < |ids| ==> ids[i] < ids[j])
    && (forall i :: 0 <= i < |ids| ==> ids[i] < below)
  }

  lemma {:induction false} WithoutStaysAscending(ids: seq<nat>, id: nat, below: nat)
    requires Ascending(ids, below)
    ensures Ascending(Without(ids, id), below) && forall x :: x in Without(ids, id) ==> x in ids
    decreases |ids|
  {
    if ids != [] {
      var rest := Without(ids[1..], id);
      assert ids == [ids[0]] + ids[1..];
      WithoutStaysAscending(ids[1..], id, below);
      forall j | 0 <= j < |rest| ensures ids[0] < rest[j] {
        assert rest[j] in ids[1..];
      }
    }
  }

  /** What waits is kept in the order it was asked, so a close fails it in that order. */
  lemma {:induction false} PendingStaysInOrder(served: string, s: State, actions: seq<Action>)
    requires Ascending(s.view.pending, s.view.next) && Play(served, s, actions).Some?
    ensures Ascending(Play(served, s, actions).value.view.pending, Play(served, s, actions).value.view.next)
    decreases |actions|
  {
    if actions != [] {
      var a := actions[0];
      if a.ViewTakes? && Enabled(s, a) { WithoutStaysAscending(s.view.pending, s.host.sent[s.got].id, s.view.next); }
      PendingStaysInOrder(served, Step(served, s, a), actions[1..]);
    }
  }

  lemma NoElements(s: seq<nat>)
    ensures s == [] || s[0] in s
  {
  }

  lemma NothingIsOwed(s: State, id: nat)
    requires s.host.taken == |s.view.posted| && s.got == |s.host.sent| && 1 <= id <= |s.view.posted|
    requires forall k :: 0 <= k < |s.view.posted| && s.view.posted[k].request.Send? ==> k in s.host.answers
    ensures !Owed(s, id)
  {
  }

  /** After the close every request asked before or since has settled, unless an unregister had dropped it. */
  lemma ClosingSettlesEverything(served: string, s: State)
    requires Reachable(served, s) && s.view.closed
    ensures s.view.pending == []
    ensures forall id :: 1 <= id < s.view.next ==> (SettledIn(s.view.settled, id) <==> id !in s.forgotten)
  {
    ReachableInv(served, s);
    forall id | 1 <= id < s.view.next ensures SettledIn(s.view.settled, id) <==> id !in s.forgotten {
      assert id in s.view.pending || SettledIn(s.view.settled, id) || id in s.forgotten;
    }
  }

  // ---------------------------------------------------------------------------------------------
  // What a close answers

  /** The closed failure for each id from `from` up to `to`. */
  function ClosedFrom(from: nat, to: nat): (r: seq<Reply>)
    requires from <= to
    ensures |r| == to - from && forall i :: 0 <= i < |r| ==> r[i] == Reply(from + i, Closed)
  {
    seq(to - from, i requires 0 <= i < to - from => Reply(from + i, Closed))
  }

  predicate NoneClosed(v: View) {
    !v.closed ==> forall i :: 0 <= i < |v.settled| ==> v.settled[i].answer != Closed
  }

  lemma StepKeepsNoneClosed(served: string, s: State, a: Action)
    requires HostInv(served, s) && NoneClosed(s.view) && Enabled(s, a)
    ensures NoneClosed(Step(served, s, a).view)
  {
    if a.ViewTakes? { assert Justified(served, s.view, s.host, s.host.sent[s.got]); }
  }

  lemma {:induction false} PlayKeepsNoneClosed(served: string, s: State, actions: seq<Action>)
    requires Inv(served, s) && NoneClosed(s.view) && Play(served, s, actions).Some?
    ensures NoneClosed(Play(served, s, actions).value.view)
    decreases |actions|
  {
    if actions != [] {
      StepKeepsInv(served, s, actions[0]);
      StepKeepsNoneClosed(served, s, actions[0]);
      PlayKeepsNoneClosed(served, Step(served, s, actions[0]), actions[1..]);
    }
  }

  lemma ClosedStep(served: string, s: State, a: Action)
    requires s.view.closed && s.view.pending == [] && Enabled(s, a)
    ensures var t := Step(served, s, a);
            && t.view.closed && t.view.pending == [] && s.view.next <= t.view.next
            && t.view.settled == s.view.settled + ClosedFrom(s.view.next, t.view.next)
  {
  }

  lemma ClosedFromSplit(settled: seq<Reply>, a: nat, b: nat, c: nat)
    requires a <= b <= c
    ensures settled + ClosedFrom(a, c) == (settled + ClosedFrom(a, b)) + ClosedFrom(b, c)
  {
  }

  lemma {:induction false} AfterTheClose(served: string, s: State, rest: seq<Action>)
    requires s.view.closed && s.view.pending == [] && Play(served, s, rest).Some?
    ensures var t := Play(served, s, rest).value;
            && t.view.closed && t.view.pending == [] && s.view.next <= t.view.next
            && t.view.settled == s.view.settled + ClosedFrom(s.view.next, t.view.next)
    decreases |rest|
  {
    if rest != [] {
      var n := Step(served, s, rest[0]);
      ClosedStep(served, s, rest[0]);
      AfterTheClose(served, n, rest[1..]);
      ClosedFromSplit(s.view.settled, s.view.next, n.view.next, Play(served, n, rest[1..]).value.view.next);
    }
  }

  /**
   When the channel closes, every outstanding request settles with the closed failure there and then, in order, and so
   does every later one as it is asked; nothing else settles any more, and no other request ever gets that failure.
   */
  lemma TheCloseFailsWhatIsOpenAndWhatFollows(served: string, s: State, rest: seq<Action>)
    requires Reachable(served, s) && !s.view.closed && Play(served, Step(served, s, Closes), rest).Some?
    ensures var t := Play(served, Step(served, s, Closes), rest).value;
            && t.view.pending == [] && s.view.next <= t.view.next
            && t.view.settled == s.view.settled + AllClosed(s.view.pending) + ClosedFrom(s.view.next, t.view.next)
            && forall id: nat :: Reply(id, Closed) in t.view.settled <==> id in s.view.pending || s.view.next <= id < t.view.next
  {
    var actions :| Play(served, START, actions) == Some(s);
    PlayKeepsNoneClosed(served, START, actions);
    AfterTheClose(served, Step(served, s, Closes), rest);
    var t := Play(served, Step(served, s, Closes), rest).value;
    ClosedRepliesOf(s.view.settled, s.view.pending, s.view.next, t.view.next);
  }

  lemma ClosedRepliesOf(settled: seq<Reply>, pending: seq<nat>, from: nat, to: nat)
    requires from <= to && forall i :: 0 <= i < |settled| ==> settled[i].answer != Closed
    ensures forall id: nat :: Reply(id, Closed) in settled + AllClosed(pending) + ClosedFrom(from, to) <==> id in pending || from <= id < to
  {
    var all := settled + AllClosed(pending) + ClosedFrom(from, to);
    forall id: nat ensures Reply(id, Closed) in all <==> id in pending || from <= id < to {
      if id in pending {
        var i :| 0 <= i < |pending| && pending[i] == id;
        assert all[|settled| + i] == Reply(id, Closed);
      }
      if from <= id < to { assert all[|settled| + |pending| + (id - from)] == Reply(id, Closed); }
      if Reply(id, Closed) in all {
        var k :| 0 <= k < |all| && all[k] == Reply(id, Closed);
        assert k >= |settled|;
        if k < |settled| + |pending| { assert all[k] == Reply(pending[k - |settled|], Closed); }
      }
    }
  }

  /** An unregister right after a request leaves the request's id forgotten: pending no more, and not settled. */
  lemma AnUnregisterForgets(served: string, name: string)
    ensures var asked := Step(served, START, Asks(Register(name)));
            var s := Step(served, asked, Unregisters);
            && Reachable(served, s) && asked.view.pending == [1]
            && s.forgotten == {1} && s.view.pending == [] && s.view.settled == [] && s.view.next == 2
  {
    var asked := Step(served, START, Asks(Register(name)));
    var s := Step(served, asked, Unregisters);
    var actions := [Asks(Register(name)), Unregisters];
    assert actions[1..] == [Unregisters] && actions[1..][1..] == [];
    assert Play(served, asked, [Unregisters]) == Play(served, s, []);
    assert Play(served, START, actions) == Some(s);
  }

  /** What an unregister drops never settles. */
  lemma ForgottenNeverSettles(served: string, s: State, id: nat)
    requires Reachable(served, s) && id in s.forgotten
    ensures !SettledIn(s.view.settled, id) && id !in s.view.pending
  {
    ReachableInv(served, s);
  }
}
