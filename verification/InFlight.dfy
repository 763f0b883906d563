/**
 Keyed calls that can be cancelled: every call under a key joins one set, and a cancel takes the whole set away.

 `Ledger` is the plain account of every call; the registry keeps only sets of running calls, told apart by identity.
 */
module InFlight {
  datatype Run = Run(key: string, cancelled: bool, settled: bool)

  type Ledger = map<nat, Run>

  predicate Live(l: Ledger, id: nat, key: string) {
    id in l && l[id].key == key && !l[id].cancelled && !l[id].settled
  }

  predicate InFlightIn(l: Ledger, key: string) {
    exists id :: id in l && Live(l, id, key)
  }

  function Started(l: Ledger, id: nat, key: string): Ledger {
    l[id := Run(key, false, false)]
  }

  function Settled(l: Ledger, id: nat): Ledger
    requires id in l
  {
    l[id := l[id].(settled := true)]
  }

  function Cancelled(l: Ledger, key: string): Ledger {
    map id | id in l :: if Live(l, id, key) then l[id].(cancelled := true) else l[id]
  }

  // ---------------------------------------------------------------------------------------------
  // Histories of starts, settles and cancels

  datatype Action = Start(id: nat, key: string) | Settle(id: nat) | Cancel(key: string)

  /** A call starts once and settles at most once, after it started. */
  predicate Legal(h: seq<Action>) {
    h != [] ==>
      var front := h[..|h| - 1];
      Legal(front) &&
      match h[|h| - 1]
      case Start(id, _) => id !in LedgerOf(front)
      case Settle(id) => id in LedgerOf(front) && !LedgerOf(front)[id].settled
      case Cancel(_) => true
  }

  function LedgerOf(h: seq<Action>): Ledger {
    if h == [] then map[]
    else
      var l := LedgerOf(h[..|h| - 1]);
      match h[|h| - 1]
      case Start(id, key) => Started(l, id, key)
      case Settle(id) => if id in l then Settled(l, id) else l
      case Cancel(key) => Cancelled(l, key)
  }

  predicate StartedAt(h: seq<Action>, i: nat, id: nat, key: string) {
    i < |h| && h[i] == Start(id, key)
  }

  predicate SettledBefore(h: seq<Action>, id: nat, j: nat) {
    exists k :: 0 <= k < j && k < |h| && h[k] == Settle(id)
  }

  /** A cancel of its key fell after the call started and before it settled. */
  ghost predicate CancelBetween(h: seq<Action>, id: nat, key: string) {
    exists i, j :: CancelFell(h, i, j, id, key)
  }

  predicate CancelFell(h: seq<Action>, i: nat, j: nat, id: nat, key: string) {
    i < j < |h| && StartedAt(h, i, id, key) && h[j] == Cancel(key) && !SettledBefore(h, id, j)
  }

  lemma SettledBeforeFront(h: seq<Action>, id: nat, j: nat)
    requires h != [] && j <= |h| - 1
    ensures SettledBefore(h, id, j) <==> SettledBefore(h[..|h| - 1], id, j)
  {
    var front := h[..|h| - 1];
    if SettledBefore(h, id, j) {
      var k :| 0 <= k < j && k < |h| && h[k] == Settle(id);
      assert front[k] == Settle(id);
    }
  }

  lemma CancelFellFront(h: seq<Action>, id: nat, key: string)
    requires h != []
    ensures CancelBetween(h, id, key) <==>
            CancelBetween(h[..|h| - 1], id, key) ||
            (h[|h| - 1] == Cancel(key) && !SettledBefore(h, id, |h| - 1) && EverStarted(h[..|h| - 1], id, key))
  {
    var n := |h| - 1;
    var front := h[..n];
    if CancelBetween(front, id, key) {
      var i: nat, j: nat :| CancelFell(front, i, j, id, key);
      SettledBeforeFront(h, id, j);
      assert CancelFell(h, i, j, id, key);
    }
    if h[n] == Cancel(key) && !SettledBefore(h, id, n) && EverStarted(front, id, key) {
      var i: nat :| StartedAt(front, i, id, key);
      assert CancelFell(h, i, n, id, key);
    }
    if CancelBetween(h, id, key) {
      var i: nat, j: nat :| CancelFell(h, i, j, id, key);
      assert StartedAt(front, i, id, key);
      if j < n {
        SettledBeforeFront(h, id, j);
        assert CancelFell(front, i, j, id, key);
      }
    }
  }

  ghost predicate EverStarted(h: seq<Action>, id: nat, key: string) {
    exists i :: StartedAt(h, i, id, key)
  }

  lemma EverStartedFront(h: seq<Action>, id: nat, key: string)
    requires h != []
    ensures EverStarted(h, id, key) <==> EverStarted(h[..|h| - 1], id, key) || h[|h| - 1] == Start(id, key)
  {
    var n := |h| - 1;
    if EverStarted(h[..n], id, key) {
      var i: nat :| StartedAt(h[..n], i, id, key);
      assert StartedAt(h, i, id, key);
    }
    if h[n] == Start(id, key) { assert StartedAt(h, n, id, key); }
    if EverStarted(h, id, key) {
      var i: nat :| StartedAt(h, i, id, key);
      if i < n { assert StartedAt(h[..n], i, id, key); }
    }
  }

  lemma SettledBeforeNext(h: seq<Action>, id: nat)
    requires h != []
    ensures SettledBefore(h, id, |h|) <==> SettledBefore(h[..|h| - 1], id, |h| - 1) || h[|h| - 1] == Settle(id)
  {
    var n := |h| - 1;
    SettledBeforeFront(h, id, n);
    if h[n] == Settle(id) { assert SettledBefore(h, id, |h|); }
    if SettledBefore(h, id, n) {
      var k :| 0 <= k < n && h[k] == Settle(id);
    }
  }

  lemma {:induction false} UnstartedNeverSettled(h: seq<Action>, id: nat)
    requires Legal(h) && id !in LedgerOf(h)
    ensures !SettledBefore(h, id, |h|) && forall key :: !EverStarted(h, id, key) && !CancelBetween(h, id, key)
  {
    if h != [] {
      var front := h[..|h| - 1];
      UnstartedNeverSettled(front, id);
      SettledBeforeNext(h, id);
      forall key ensures !EverStarted(h, id, key) && !CancelBetween(h, id, key) {
        EverStartedFront(h, id, key);
        CancelFellFront(h, id, key);
      }
    }
  }

  /**
   For every interleaving: a call is cancelled exactly when a cancel of its key fell between its start and its
   settle, and settled exactly when it settled.
   */
  lemma {:induction false} CancelledExactlyBetween(h: seq<Action>, id: nat)
    requires Legal(h) && id in LedgerOf(h)
    ensures var run := LedgerOf(h)[id];
            && EverStarted(h, id, run.key)
            && (run.cancelled <==> CancelBetween(h, id, run.key))
            && (run.settled <==> SettledBefore(h, id, |h|))
  {
    var n := |h| - 1;
    var front := h[..n];
    var key := LedgerOf(h)[id].key;
    EverStartedFront(h, id, key);
    CancelFellFront(h, id, key);
    SettledBeforeNext(h, id);
    SettledBeforeFront(h, id, n);
    if id in LedgerOf(front) {
      CancelledExactlyBetween(front, id);
    } else {
      UnstartedNeverSettled(front, id);
    }
  }

  /** A key is in flight exactly when a call under it has started, not settled, and not been cancelled meanwhile. */
  lemma InFlightByHistory(h: seq<Action>, key: string)
    requires Legal(h)
    ensures InFlightIn(LedgerOf(h), key) <==>
            exists id :: EverStarted(h, id, key) && !SettledBefore(h, id, |h|) && !CancelBetween(h, id, key)
  {
    var l := LedgerOf(h);
    if InFlightIn(l, key) {
      var id :| id in l && Live(l, id, key);
      CancelledExactlyBetween(h, id);
    }
    if exists id :: EverStarted(h, id, key) && !SettledBefore(h, id, |h|) && !CancelBetween(h, id, key) {
      var id :| EverStarted(h, id, key) && !SettledBefore(h, id, |h|) && !CancelBetween(h, id, key);
      if id !in l { UnstartedNeverSettled(h, id); }
      CancelledExactlyBetween(h, id);
      OneKeyEach(h, id, key);
      assert Live(l, id, key);
    }
  }

  lemma {:induction false} OneKeyEach(h: seq<Action>, id: nat, key: string)
    requires Legal(h) && EverStarted(h, id, key)
    ensures id in LedgerOf(h) && LedgerOf(h)[id].key == key
  {
    var n := |h| - 1;
    EverStartedFront(h, id, key);
    if EverStarted(h[..n], id, key) {
      OneKeyEach(h[..n], id, key);
    }
  }

  // ---------------------------------------------------------------------------------------------
  // The registry

  /** A set of running calls, known by its identity. */
  class RunningSet {
    var members: set<nat>

    constructor ()
      ensures members == {}
    {
      members := {};
    }
  }

  /** The registry's maps: each key's set, the set each call's own closure keeps, and the members of every set. */
  datatype Sets = Sets(calls: map<string, RunningSet>, homes: map<nat, RunningSet>, members: map<RunningSet, set<nat>>)

  predicate Known(s: Sets, l: Ledger) {
    s.homes.Keys == l.Keys && (forall k :: k in s.calls ==> s.calls[k] in s.members)
    && (forall id :: id in s.homes ==> s.homes[id] in s.members)
  }

  /** A key's set holds live calls of that key, and it is theirs. */
  predicate CallsAreLive(s: Sets, l: Ledger)
    requires Known(s, l)
  {
    forall k :: k in s.calls ==>
      s.members[s.calls[k]] != {} &&
      forall m :: m in s.members[s.calls[k]] ==> m in s.homes && s.homes[m] == s.calls[k] && Live(l, m, k)
  }

  /** A live call's set is its key's. */
  predicate LiveAreCalls(s: Sets, l: Ledger)
    requires Known(s, l)
  {
    forall id :: id in l && Live(l, id, l[id].key) ==> l[id].key in s.calls && s.homes[id] == s.calls[l[id].key]
  }

  /** A set's members are its own unsettled calls, cancelled ones included. */
  predicate HomesAreRunning(s: Sets, l: Ledger)
    requires Known(s, l)
  {
    forall id :: id in s.homes ==>
      (l[id].settled <==> id !in s.members[s.homes[id]]) &&
      forall m :: m in s.members[s.homes[id]] ==> m in s.homes && s.homes[m] == s.homes[id]
  }

  predicate Agree(s: Sets, l: Ledger) {
    Known(s, l) && CallsAreLive(s, l) && LiveAreCalls(s, l) && HomesAreRunning(s, l)
  }

  function MembersOf(s: Sets, r: RunningSet): set<nat> {
    if r in s.members then s.members[r] else {}
  }

  function Joined(s: Sets, id: nat, key: string, r: RunningSet): Sets {
    Sets(s.calls[key := r], s.homes[id := r], s.members[r := MembersOf(s, r) + {id}])
  }

  function Left(s: Sets, id: nat, key: string): Sets
    requires id in s.homes && s.homes[id] in s.members
  {
    var home := s.homes[id];
    var members := s.members[home := s.members[home] - {id}];
    if members[home] == {} && key in s.calls && s.calls[key] == home then Sets(s.calls - {key}, s.homes, members)
    else s.(members := members)
  }

  /** The set a new call joins: its key's, or one no call has. */
  predicate Joinable(s: Sets, key: string, r: RunningSet) {
    if key in s.calls then r == s.calls[key] else r !in s.members
  }

  lemma JoiningAgrees(s: Sets, l: Ledger, id: nat, key: string, r: RunningSet)
    requires Agree(s, l) && id !in l && Joinable(s, key, r)
    ensures Agree(Joined(s, id, key, r), Started(l, id, key))
  {
    var t, m := Joined(s, id, key, r), Started(l, id, key);
    forall k | k in t.calls ensures t.members[t.calls[k]] != {} &&
      forall x :: x in t.members[t.calls[k]] ==> x in t.homes && t.homes[x] == t.calls[k] && Live(m, x, k) {
      JoinedKey(s, l, id, key, r, k);
    }
    forall i | i in t.homes ensures (m[i].settled <==> i !in t.members[t.homes[i]]) &&
      forall x :: x in t.members[t.homes[i]] ==> x in t.homes && t.homes[x] == t.homes[i] {
      JoinedHome(s, l, id, key, r, i);
    }
    forall i | i in m && Live(m, i, m[i].key) ensures m[i].key in t.calls && t.homes[i] == t.calls[m[i].key] {
      JoinedLive(s, l, id, key, r, i);
    }
  }

  lemma JoinedKey(s: Sets, l: Ledger, id: nat, key: string, r: RunningSet, k: string)
    requires Agree(s, l) && id !in l && Joinable(s, key, r) && (k in s.calls || k == key)
    ensures var t, m := Joined(s, id, key, r), Started(l, id, key);
            t.members[t.calls[k]] != {} &&
            forall x :: x in t.members[t.calls[k]] ==> x in t.homes && t.homes[x] == t.calls[k] && Live(m, x, k)
  {
    var t := Joined(s, id, key, r);
    if k == key {
      assert id in t.members[r];
    } else {
      OneKeyPerSet(s, l, key, k);
      assert t.members[t.calls[k]] == s.members[s.calls[k]];
    }
  }

  lemma JoinedLive(s: Sets, l: Ledger, id: nat, key: string, r: RunningSet, i: nat)
    requires Agree(s, l) && id !in l && Joinable(s, key, r) && i in Started(l, id, key)
    requires Live(Started(l, id, key), i, Started(l, id, key)[i].key)
    ensures var t, k := Joined(s, id, key, r), Started(l, id, key)[i].key; k in t.calls && t.homes[i] == t.calls[k]
  {
    if i != id { assert Live(l, i, l[i].key); }
  }

  lemma OneKeyPerSet(s: Sets, l: Ledger, a: string, b: string)
    requires Agree(s, l)
    ensures a in s.calls && b in s.calls && s.calls[a] == s.calls[b] ==> a == b
  {
    if a in s.calls && b in s.calls && s.calls[a] == s.calls[b] {
      var x :| x in s.members[s.calls[a]];
      assert Live(l, x, a) && Live(l, x, b);
    }
  }

  lemma JoinedHome(s: Sets, l: Ledger, id: nat, key: string, r: RunningSet, i: nat)
    requires Agree(s, l) && id !in l && Joinable(s, key, r) && (i in s.homes || i == id)
    ensures var t, m := Joined(s, id, key, r), Started(l, id, key);
            (m[i].settled <==> i !in t.members[t.homes[i]]) &&
            forall x :: x in t.members[t.homes[i]] ==> x in t.homes && t.homes[x] == t.homes[i]
  {
    var t := Joined(s, id, key, r);
    if key in s.calls {
      assert forall x :: x in s.members[r] ==> x in s.homes && s.homes[x] == r;
    }
  }

  lemma LeavingAgreesAt(s: Sets, l: Ledger, id: nat, t: Sets)
    requires Agree(s, l) && id in l && !l[id].settled && t == Left(s, id, l[id].key)
    ensures Agree(t, Settled(l, id)) && t.members.Keys == s.members.Keys
  {
    LeavingAgrees(s, l, id);
  }

  lemma LeavingAgrees(s: Sets, l: Ledger, id: nat)
    requires Agree(s, l) && id in l && !l[id].settled
    ensures Agree(Left(s, id, l[id].key), Settled(l, id))
  {
    var t, m := Left(s, id, l[id].key), Settled(l, id);
    forall k | k in t.calls ensures t.members[t.calls[k]] != {} &&
      forall x :: x in t.members[t.calls[k]] ==> x in t.homes && t.homes[x] == t.calls[k] && Live(m, x, k) {
      LeftKey(s, l, id, k);
    }
    forall i | i in m && Live(m, i, m[i].key) ensures m[i].key in t.calls && t.homes[i] == t.calls[m[i].key] {
      LeftLive(s, l, id, i);
    }
    forall i | i in t.homes ensures (m[i].settled <==> i !in t.members[t.homes[i]]) &&
      forall x :: x in t.members[t.homes[i]] ==> x in t.homes && t.homes[x] == t.homes[i] {
      LeftHome(s, l, id, i);
    }
  }

  lemma LeftLive(s: Sets, l: Ledger, id: nat, i: nat)
    requires Agree(s, l) && id in l && !l[id].settled && i in l && i != id && Live(l, i, l[i].key)
    ensures var t := Left(s, id, l[id].key); l[i].key in t.calls && t.homes[i] == t.calls[l[i].key]
  {
    assert i in s.members[s.homes[i]];
    if s.homes[i] == s.homes[id] {
      assert i in s.members[s.homes[id]] - {id};
    }
  }

  lemma LeftKey(s: Sets, l: Ledger, id: nat, k: string)
    requires Agree(s, l) && id in l && !l[id].settled && k in Left(s, id, l[id].key).calls
    ensures var t, m := Left(s, id, l[id].key), Settled(l, id);
            t.members[t.calls[k]] != {} &&
            forall x :: x in t.members[t.calls[k]] ==> x in t.homes && t.homes[x] == t.calls[k] && Live(m, x, k)
  {
    var key := l[id].key;
    if s.calls[k] == s.homes[id] {
      assert id in s.members[s.homes[id]];
      assert Live(l, id, k);
    }
  }

  lemma LeftHome(s: Sets, l: Ledger, id: nat, i: nat)
    requires Agree(s, l) && id in l && !l[id].settled && i in s.homes
    ensures var t, m := Left(s, id, l[id].key), Settled(l, id);
            (m[i].settled <==> i !in t.members[t.homes[i]]) &&
            forall x :: x in t.members[t.homes[i]] ==> x in t.homes && t.homes[x] == t.homes[i]
  {
  }

  lemma CancellingAgrees(s: Sets, l: Ledger, key: string)
    requires Agree(s, l)
    ensures Agree(s.(calls := s.calls - {key}), Cancelled(l, key))
  {
    var t, m := s.(calls := s.calls - {key}), Cancelled(l, key);
    forall k | k in t.calls ensures forall x :: x in t.members[t.calls[k]] ==> Live(m, x, k) {
      assert forall x :: x in s.members[s.calls[k]] ==> Live(l, x, k);
    }
    forall i | i in m && Live(m, i, m[i].key) ensures m[i].key in t.calls && t.homes[i] == t.calls[m[i].key] {
      assert Live(l, i, l[i].key) && l[i].key != key;
    }
  }

  /** A key has a set exactly when a call under it is in flight, and the set's members are those calls. */
  lemma ASetPerKeyInFlight(s: Sets, l: Ledger, key: string)
    requires Agree(s, l)
    ensures key in s.calls <==> InFlightIn(l, key)
    ensures key in s.calls ==> s.members[s.calls[key]] != {}
    ensures forall id :: id in l && Live(l, id, key) <==> key in s.calls && id in s.members[s.calls[key]]
  {
    if key in s.calls {
      var x :| x in s.members[s.calls[key]];
      assert Live(l, x, key);
    }
    forall id | id in l && Live(l, id, key) ensures key in s.calls && id in s.members[s.calls[key]] {
      assert Live(l, id, l[id].key);
    }
  }

  /** A cancelled call that settles late leaves every key's set as it is, a newer call's under its own key included. */
  lemma LateSettlesTouchNoKey(s: Sets, l: Ledger, id: nat, key: string)
    requires Agree(s, l) && id in l && !l[id].settled && l[id].cancelled
    ensures var t := Left(s, id, l[id].key);
            t.calls == s.calls && (key in s.calls ==> t.members[t.calls[key]] == s.members[s.calls[key]])
  {
    assert id in s.members[s.homes[id]];
    assert forall k :: k in s.calls ==> id !in s.members[s.calls[k]];
  }

  /** The aborted signals are the cancelled calls'. */
  predicate Marks(l: Ledger, next: nat, aborted: set<nat>) {
    && (forall id :: id in l ==> id < next && (id in aborted <==> l[id].cancelled))
    && (forall id :: id in aborted ==> id in l)
  }

  function KeyMembers(s: Sets, key: string): set<nat> {
    if key in s.calls then MembersOf(s, s.calls[key]) else {}
  }

  function WithoutKey(s: Sets, key: string): Sets {
    s.(calls := s.calls - {key})
  }

  /** Taking a key's set away cancels exactly its live calls. */
  lemma CancelsTheKey(s: Sets, l: Ledger, next: nat, aborted: set<nat>, key: string)
    requires Agree(s, l) && Marks(l, next, aborted)
    ensures var dropped := KeyMembers(s, key);
            && (forall id :: id in dropped <==> id in l && Live(l, id, key))
            && (dropped != {} <==> InFlightIn(l, key))
            && Agree(WithoutKey(s, key), Cancelled(l, key)) && Marks(Cancelled(l, key), next, aborted + dropped)
  {
    ASetPerKeyInFlight(s, l, key);
    CancellingAgrees(s, l, key);
    CancellingKeepsMarks(l, next, aborted, key, KeyMembers(s, key));
  }

  lemma SettlingKeepsMarks(l: Ledger, next: nat, aborted: set<nat>, id: nat)
    requires Marks(l, next, aborted) && id in l
    ensures Marks(Settled(l, id), next, aborted)
  {
  }

  lemma CancellingKeepsMarks(l: Ledger, next: nat, aborted: set<nat>, key: string, live: set<nat>)
    requires Marks(l, next, aborted)
    requires forall id :: id in live <==> id in l && Live(l, id, key)
    ensures Marks(Cancelled(l, key), next, aborted + live)
  {
  }

  class InFlightCalls {
    var calls: map<string, RunningSet>
    var next: nat
    var aborted: set<nat>
    /** The set each call's own closure keeps. */
    var homes: map<nat, RunningSet>
    ghost var ledger: Ledger

    /** The members of every set made so far. */
    ghost var members: map<RunningSet, set<nat>>

    ghost function Abstract(): Sets
      reads this
    {
      Sets(calls, homes, members)
    }

    ghost predicate Mirrored()
      reads this, members.Keys
    {
      forall r :: r in members ==> r.members == members[r]
    }

    ghost predicate Numbered()
      reads this
    {
      Marks(ledger, next, aborted)
    }

    ghost predicate Valid()
      reads this, members.Keys
    {
      Numbered() && Mirrored() && Agree(Abstract(), ledger)
    }

    constructor ()
      ensures Valid() && ledger == map[] && members == map[]
    {
      calls, next, aborted, homes, ledger, members := map[], 0, {}, map[], map[], map[];
    }

    /** Whether a call under `key` is still running. */
    method Query(key: string) returns (r: bool)
      requires Valid()
      ensures r == InFlightIn(ledger, key)
    {
      ASetPerKeyInFlight(Abstract(), ledger, key);
      r := key in calls && |calls[key].members| > 0;
    }

    /** The key's set, or a new one. */
    method SetFor(key: string) returns (running: RunningSet)
      requires Valid()
      ensures Joinable(Abstract(), key, running) && running.members == MembersOf(Abstract(), running)
      ensures running in members || fresh(running)
    {
      if key in calls { running := calls[key]; } else { running := new RunningSet(); }
    }

    method Begin(key: string) returns (id: nat)
      requires Valid()
      modifies this, members.Keys
      ensures id !in old(ledger) && ledger == Started(old(ledger), id, key)
      ensures Valid() && fresh(members.Keys - old(members.Keys))
    {
      id := next;
      var running := SetFor(key);
      JoiningAgrees(Abstract(), ledger, id, key, running);
      Join(id, key, running);
    }

    method Join(id: nat, key: string, running: RunningSet)
      requires Numbered() && Mirrored() && id == next && running.members == MembersOf(Abstract(), running)
      modifies this, running
      ensures Numbered() && Mirrored() && Abstract() == Joined(old(Abstract()), id, key, running)
      ensures ledger == Started(old(ledger), id, key)
    {
      next := next + 1;
      running.members := running.members + {id};
      calls := calls[key := running];
      homes := homes[id := running];
      members := members[running := running.members];
      ledger := Started(ledger, id, key);
    }

    method Leave(id: nat, key: string)
      requires Mirrored() && id in homes && homes[id] in members
      modifies `calls, `members, homes[id]
      ensures Mirrored() && Abstract() == Left(old(Abstract()), id, key)
    {
      var running := homes[id];
      running.members := running.members - {id};
      members := members[running := running.members];
      if running.members == {} && key in calls && calls[key] == running {
        calls := calls - {key};
      }
    }

    method LeaveSettled(id: nat, key: string)
      requires Numbered() && Mirrored() && Agree(Abstract(), ledger)
      requires id in ledger && !ledger[id].settled && ledger[id].key == key
      modifies `calls, `members, `ledger, members.Keys
      ensures ledger == Settled(old(ledger), id)
      ensures Numbered() && Mirrored() && Agree(Abstract(), ledger) && members.Keys == old(members.Keys)
    {
      ghost var was, l := Abstract(), ledger;
      Leave(id, key);
      ledger := Settled(l, id);
      LeavingAgreesAt(was, l, id, Abstract());
      SettlingKeepsMarks(l, next, aborted, id);
    }

    /** The work of call `id`, run under `key`, settles: it reports cancelled when its signal was aborted by then. */
    method Finish(id: nat, key: string) returns (cancelled: bool)
      requires Valid() && id in ledger && !ledger[id].settled && ledger[id].key == key
      modifies this, members.Keys
      ensures cancelled == old(ledger)[id].cancelled
      ensures ledger == Settled(old(ledger), id)
      ensures Valid() && members.Keys == old(members.Keys)
    {
      cancelled := id in aborted;
      LeaveSettled(id, key);
    }

    /** Every call under the key that is still running has its signal aborted; the answer is whether there was one. */
    method CancelAll(key: string) returns (any: bool)
      requires Valid()
      modifies this
      ensures any == InFlightIn(old(ledger), key)
      ensures ledger == Cancelled(old(ledger), key)
      ensures forall id :: id in aborted <==> id in old(aborted) || (id in old(ledger) && Live(old(ledger), id, key))
      ensures Valid() && members == old(members)
    {
      CancelsTheKey(Abstract(), ledger, next, aborted, key);
      any := TakeAway(key);
    }

    method TakeAway(key: string) returns (any: bool)
      requires Mirrored() && (key in calls ==> calls[key] in members && members[calls[key]] != {})
      modifies this
      ensures Mirrored() && members == old(members) && next == old(next)
      ensures Abstract() == WithoutKey(old(Abstract()), key) && ledger == Cancelled(old(ledger), key)
      ensures aborted == old(aborted) + KeyMembers(old(Abstract()), key) && any == (KeyMembers(old(Abstract()), key) != {})
    {
      ledger := Cancelled(ledger, key);
      var dropped := Drop(key);
      aborted := aborted + dropped;
      any := dropped != {};
    }

    /** Take the key's set away: its members are the calls to abort. */
    method Drop(key: string) returns (dropped: set<nat>)
      requires Mirrored() && (key in calls ==> calls[key] in members && members[calls[key]] != {})
      modifies `calls
      ensures dropped == KeyMembers(old(Abstract()), key) && Abstract() == WithoutKey(old(Abstract()), key)
    {
      if key !in calls || calls[key].members == {} {
        dropped := {};
        assert calls - {key} == calls;
        return;
      }
      dropped := calls[key].members;
      calls := calls - {key};
    }
  }
}
