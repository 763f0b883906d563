/**
 Values held once for whichever instance takes them: `holdDerived` and `takeDerived` over one shared store.

 Both look before they write, and other instances act in between.  A conditional delete says whether it removed a
 row, and a take whose delete removed none gives nothing.
 */
module OneUseSecrets {
  import opened Wrappers
  import opened CredentialRows

  /** A held value: sealed under `key` and good until `expiresAt`. */
  datatype Held<V> = Held(value: V, key: Key, expiresAt: int)

  /** A hold that reached the store; writes are numbered in the order they did. */
  datatype Write<V> = Write(identity: Identity, held: Held<V>)

  datatype Hold<V> =
    | Checked(identity: Identity, held: Held<V>, present: bool)  // `getById` answered
    | Stored                                                       // `update` or `create` answered

  /** A take that found a row knows the write it looked at. */
  datatype Take<V> =
    | Looked(identity: Identity, keys: set<Key>, now: int, write: nat)  // `getById` found a row
    | Missed                                                            // no row, or the delete did not land
    | Consumed(identity: Identity, keys: set<Key>, now: int, write: nat, result: Option<V>)

  /** `rows` names the write each row holds; `returned` records, per identity, the takes that gave a value. */
  datatype Shared<V> = Shared(
    rows: map<Identity, nat>,
    holds: seq<Hold<V>>,
    takes: seq<Take<V>>,
    writes: seq<Write<V>>,
    returned: seq<Identity>)

  datatype Action<V> =
    | BeginHold(identity: Identity, held: Held<V>)
    | WriteHold(hold: nat)
    | BeginTake(identity: Identity, keys: set<Key>, now: int)
    | DeleteTake(take: nat)

  function Empty<V>(): Shared<V> {
    Shared(map[], [], [], [], [])
  }

  predicate Enabled<V>(s: Shared<V>, a: Action<V>) {
    match a
    case BeginHold(_, _) => true
    case WriteHold(h) => h < |s.holds| && s.holds[h].Checked?
    case BeginTake(_, _, _) => true
    case DeleteTake(t) => t < |s.takes| && s.takes[t].Looked?
  }

  /** What a take reads in the row it looked at: nothing once expired, nothing without its key. */
  function ValueOf<V>(held: Held<V>, keys: set<Key>, now: int): Option<V> {
    if held.expiresAt <= now || held.key !in keys then None else Some(held.value)
  }

  /** Each row and each take under way is of a write to its own slot. */
  predicate Formed<V>(s: Shared<V>) {
    && (forall i :: i in s.rows ==> s.rows[i] < |s.writes| && s.writes[s.rows[i]].identity == i)
    && (forall t :: 0 <= t < |s.takes| && !s.takes[t].Missed? ==>
          s.takes[t].write < |s.writes| && s.writes[s.takes[t].write].identity == s.takes[t].identity)
  }

  /** A hold whose look found a row updates it; an update finds nothing once another instance took the row. */
  predicate Lands<V>(s: Shared<V>, h: nat)
    requires h < |s.holds| && s.holds[h].Checked?
  {
    s.holds[h].present ==> s.holds[h].identity in s.rows
  }

  /** `conditional`: a delete tells whether it removed the row. */
  function Step<V>(s: Shared<V>, a: Action<V>, conditional: bool): Shared<V>
    requires Formed(s) && Enabled(s, a)
  {
    match a
    case BeginHold(identity, held) => s.(holds := s.holds + [Checked(identity, held, identity in s.rows)])
    case WriteHold(h) =>
      var Checked(identity, held, _) := s.holds[h];
      var done := s.(holds := s.holds[h := Stored]);
      if Lands(s, h) then done.(rows := s.rows[identity := |s.writes|], writes := s.writes + [Write(identity, held)])
      else done
    case BeginTake(identity, keys, now) =>
      s.(takes := s.takes + [if identity in s.rows then Looked(identity, keys, now, s.rows[identity]) else Missed])
    case DeleteTake(t) =>
      var take := s.takes[t];
      if conditional && take.identity !in s.rows then s.(takes := s.takes[t := Missed])
      else
        var result := ValueOf(s.writes[take.write].held, take.keys, take.now);
        s.(rows := s.rows - {take.identity},
           takes := s.takes[t := Consumed(take.identity, take.keys, take.now, take.write, result)],
           returned := if result.Some? then s.returned + [take.identity] else s.returned)
  }

  lemma StepStaysFormed<V>(s: Shared<V>, a: Action<V>, conditional: bool)
    requires Formed(s) && Enabled(s, a)
    ensures Formed(Step(s, a, conditional))
  {
  }

  function After<V>(s: Shared<V>, a: Action<V>, conditional: bool): (n: Shared<V>)
    requires Formed(s)
    ensures Formed(n)
  {
    if Enabled(s, a) then StepStaysFormed(s, a, conditional); Step(s, a, conditional) else s
  }

  function Play<V>(s: Shared<V>, actions: seq<Action<V>>, conditional: bool): (n: Shared<V>)
    requires Formed(s)
    ensures Formed(n)
    decreases |actions|
  {
    if actions == [] then s else Play(After(s, actions[0], conditional), actions[1..], conditional)
  }

  /**
   A take is over with its delete: it gives the value it read exactly when the delete was not refused, a key it holds
   opens the value and the value has not expired; whatever it gives, the row is gone.
   */
  lemma ATakeEndsWithItsDelete<V>(s: Shared<V>, t: nat, conditional: bool)
    requires Formed(s) && Enabled(s, DeleteTake(t))
    ensures var n := After(s, DeleteTake(t), conditional);
            var take, held := s.takes[t], s.writes[s.takes[t].write].held;
            && |n.takes| == |s.takes| && !n.takes[t].Looked? && take.identity !in n.rows
            && (n.takes[t].Missed? <==> conditional && take.identity !in s.rows)
            && (n.takes[t].Consumed? ==>
                  n.takes[t].result == if held.key in take.keys && take.now < held.expiresAt then Some(held.value) else None)
            && n.returned == (if n.takes[t].Consumed? && n.takes[t].result.Some? then s.returned + [take.identity] else s.returned)
            && forall i :: i != take.identity ==> (i in n.rows <==> i in s.rows)
  {
  }

  /** The slots written, once for each write. */
  function Slots<V>(writes: seq<Write<V>>): (slots: seq<Identity>)
    ensures |slots| == |writes| && forall w :: 0 <= w < |writes| ==> slots[w] == writes[w].identity
  {
    seq(|writes|, w requires 0 <= w < |writes| => writes[w].identity)
  }

  /** What was given out, and what still can be, was put in. */
  ghost predicate SlotOk<V>(s: Shared<V>, i: Identity) {
    multiset(s.returned)[i] + (if i in s.rows then 1 else 0) <= multiset(Slots(s.writes))[i]
  }

  /** A value that was given is the one its write holds, and was unexpired and readable when it was asked for. */
  ghost predicate TakeOk<V>(s: Shared<V>, t: Take<V>) {
    t.Consumed? ==>
      t.write < |s.writes| && t.result == ValueOf(s.writes[t.write].held, t.keys, t.now)
  }

  ghost predicate Inv<V>(s: Shared<V>) {
    && (forall i: Identity :: SlotOk(s, i))
    && (forall t :: 0 <= t < |s.takes| ==> TakeOk(s, s.takes[t]))
  }

  lemma SlotStaysOk<V>(s: Shared<V>, a: Action<V>, i: Identity)
    requires Formed(s) && SlotOk(s, i) && Enabled(s, a)
    ensures SlotOk(Step(s, a, true), i)
  {
    match a {
      case WriteHold(h) =>
        var w := Write(s.holds[h].identity, s.holds[h].held);
        assert Slots(s.writes + [w]) == Slots(s.writes) + [w.identity];
        assert multiset(Slots(s.writes) + [w.identity]) == multiset(Slots(s.writes)) + multiset{w.identity};
      case DeleteTake(t) => assert multiset(s.returned + [s.takes[t].identity]) == multiset(s.returned) + multiset{s.takes[t].identity};
      case _ =>
    }
  }

  lemma StepKeepsInv<V>(s: Shared<V>, a: Action<V>)
    requires Formed(s) && Inv(s) && Enabled(s, a)
    ensures Inv(Step(s, a, true))
  {
    forall i ensures SlotOk(Step(s, a, true), i) { SlotStaysOk(s, a, i); }
    var n := Step(s, a, true);
    forall t | 0 <= t < |n.takes| ensures TakeOk(n, n.takes[t]) {
      if t < |s.takes| { assert TakeOk(s, s.takes[t]); }
    }
  }

  lemma {:induction false} PlayKeepsInv<V>(s: Shared<V>, actions: seq<Action<V>>)
    requires Formed(s) && Inv(s)
    ensures Inv(Play(s, actions, true))
    decreases |actions|
  {
    if actions != [] {
      if Enabled(s, actions[0]) { StepKeepsInv(s, actions[0]); }
      PlayKeepsInv(After(s, actions[0], true), actions[1..]);
    }
  }

  /** Over any interleaving of instances, the takes that return a value never outnumber the holds of that slot. */
  lemma TakesNeverOutnumberHolds<V>(actions: seq<Action<V>>, identity: Identity)
    ensures var s := Play(Empty<V>(), actions, true);
            multiset(s.returned)[identity] <= multiset(Slots(s.writes))[identity]
  {
    PlayKeepsInv(Empty<V>(), actions);
    assert SlotOk(Play(Empty<V>(), actions, true), identity);
  }

  /** A value a take returns was held for that very slot, under a key the take has, and had not expired when it asked. */
  lemma NoExpiredValueIsReturned<V>(actions: seq<Action<V>>, t: nat)
    requires var s := Play(Empty<V>(), actions, true);
             t < |s.takes| && s.takes[t].Consumed? && s.takes[t].result.Some?
    ensures var s := Play(Empty<V>(), actions, true);
            && s.takes[t].write < |s.writes| && s.writes[s.takes[t].write].identity == s.takes[t].identity
            && var held := s.writes[s.takes[t].write].held;
            s.takes[t].now < held.expiresAt && held.key in s.takes[t].keys && s.takes[t].result == Some(held.value)
  {
    PlayKeepsInv(Empty<V>(), actions);
    var s := Play(Empty<V>(), actions, true);
    assert TakeOk(s, s.takes[t]);
  }

  /** One action that is enabled, in front of others. */
  lemma PlayCons<V>(s: Shared<V>, a: Action<V>, rest: seq<Action<V>>, conditional: bool, n: Shared<V>)
    requires Formed(s) && Enabled(s, a) && Step(s, a, conditional) == n
    ensures Formed(n) && Play(s, [a] + rest, conditional) == Play(n, rest, conditional)
  {
    StepStaysFormed(s, a, conditional);
    assert ([a] + rest)[1..] == rest;
  }

  /** A slot is held once, and two instances look at it before either deletes. */
  function TwoLook<V>(identity: Identity, held: Held<V>, now: int, rest: seq<Action<V>>): seq<Action<V>> {
    [BeginHold(identity, held)] + ([WriteHold(0)] +
    ([BeginTake(identity, {held.key}, now)] + ([BeginTake(identity, {held.key}, now)] + rest)))
  }

  function BothLooked<V>(identity: Identity, held: Held<V>, now: int): Shared<V> {
    var looked := Looked(identity, {held.key}, now, 0);
    Shared(map[identity := 0], [Stored], [looked, looked], [Write(identity, held)], [])
  }

  lemma TwoLookIs<V>(identity: Identity, held: Held<V>, now: int, rest: seq<Action<V>>, conditional: bool)
    ensures Formed(BothLooked(identity, held, now))
    ensures Play(Empty<V>(), TwoLook(identity, held, now, rest), conditional) == Play(BothLooked(identity, held, now), rest, conditional)
  {
    var look: Action<V> := BeginTake(identity, {held.key}, now);
    var looked: Take<V> := Looked(identity, {held.key}, now, 0);
    var s1 := Empty<V>().(holds := [Checked(identity, held, false)]);
    var s2 := Shared(map[identity := 0], [Stored], [], [Write(identity, held)], []);
    var s3 := s2.(takes := [looked]);
    PlayCons(Empty<V>(), BeginHold(identity, held), [WriteHold(0)] + ([look] + ([look] + rest)), conditional, s1);
    PlayCons(s1, WriteHold(0), [look] + ([look] + rest), conditional, s2);
    PlayCons(s2, look, [look] + rest, conditional, s3);
    PlayCons(s3, look, rest, conditional, BothLooked(identity, held, now));
  }

  /** Without a conditional delete two instances that both looked before either deleted both get the value of one hold. */
  lemma UnconditionalDeleteGivesTwice<V>(identity: Identity, held: Held<V>, now: int)
    requires now < held.expiresAt
    ensures var s := Play(Empty<V>(), TwoLook(identity, held, now, [DeleteTake(0)] + ([DeleteTake(1)] + [])), false);
            s.writes == [Write(identity, held)] && s.returned == [identity, identity]
  {
    var s4 := BothLooked(identity, held, now);
    TwoLookIs(identity, held, now, [DeleteTake(0)] + ([DeleteTake(1)] + []), false);
    var gone := Consumed(identity, {held.key}, now, 0, Some(held.value));
    var s5 := Shared(map[], [Stored], [gone, s4.takes[1]], s4.writes, [identity]);
    var s6 := Shared(map[], [Stored], [gone, gone], s4.writes, [identity, identity]);
    PlayCons(s4, DeleteTake(0), [DeleteTake(1)] + [], false, s5);
    PlayCons(s5, DeleteTake(1), [], false, s6);
  }

  // ---------------------------------------------------------------------------------------------
  // One hold, one value

  predicate Gave<V>(t: Take<V>, i: Identity) {
    t.Consumed? && t.identity == i && t.result.Some?
  }

  function GivenTo<V>(takes: seq<Take<V>>, i: Identity): nat {
    if takes == [] then 0
    else GivenTo(takes[..|takes| - 1], i) + if Gave(takes[|takes| - 1], i) then 1 else 0
  }

  lemma {:induction false} GivenUpdate<V>(takes: seq<Take<V>>, k: nat, t: Take<V>, i: Identity)
    requires k < |takes|
    ensures GivenTo(takes[k := t], i) + (if Gave(takes[k], i) then 1 else 0) == GivenTo(takes, i) + if Gave(t, i) then 1 else 0
    decreases |takes|
  {
    var n := |takes| - 1;
    if k < n {
      GivenUpdate(takes[..n], k, t, i);
      assert takes[k := t][..n] == takes[..n][k := t];
    } else {
      assert takes[k := t][..n] == takes[..n];
    }
  }

  lemma GivenAppend<V>(takes: seq<Take<V>>, t: Take<V>, i: Identity)
    ensures GivenTo(takes + [t], i) == GivenTo(takes, i) + if Gave(t, i) then 1 else 0
  {
    assert (takes + [t])[..|takes|] == takes;
  }

  lemma StepCountsTakes<V>(s: Shared<V>, a: Action<V>, i: Identity)
    requires Formed(s) && GivenTo(s.takes, i) == multiset(s.returned)[i] && Enabled(s, a)
    ensures var n := Step(s, a, true); GivenTo(n.takes, i) == multiset(n.returned)[i]
  {
    match a {
      case BeginTake(identity, keys, now) =>
        GivenAppend(s.takes, if identity in s.rows then Looked(identity, keys, now, s.rows[identity]) else Missed, i);
      case DeleteTake(t) =>
        var n := Step(s, a, true);
        GivenUpdate(s.takes, t, n.takes[t], i);
        assert n.takes == s.takes[t := n.takes[t]];
        assert multiset(s.returned + [s.takes[t].identity]) == multiset(s.returned) + multiset{s.takes[t].identity};
      case _ =>
    }
  }

  lemma {:induction false} PlayCountsTakes<V>(s: Shared<V>, actions: seq<Action<V>>, i: Identity)
    requires Formed(s) && GivenTo(s.takes, i) == multiset(s.returned)[i]
    ensures var n := Play(s, actions, true); GivenTo(n.takes, i) == multiset(n.returned)[i]
    decreases |actions|
  {
    if actions != [] {
      if Enabled(s, actions[0]) { StepCountsTakes(s, actions[0], i); }
      PlayCountsTakes(After(s, actions[0], true), actions[1..], i);
    }
  }

  lemma {:induction false} TwoAreCounted<V>(takes: seq<Take<V>>, t: nat, u: nat, i: Identity)
    requires t < u < |takes| && Gave(takes[t], i) && Gave(takes[u], i)
    ensures GivenTo(takes, i) >= 2
    decreases |takes|
  {
    var n := |takes| - 1;
    if u < n { TwoAreCounted(takes[..n], t, u, i); } else { OneIsCounted(takes[..n], t, i); }
  }

  lemma {:induction false} OneIsCounted<V>(takes: seq<Take<V>>, t: nat, i: Identity)
    requires t < |takes| && Gave(takes[t], i)
    ensures GivenTo(takes, i) >= 1
    decreases |takes|
  {
    var n := |takes| - 1;
    if t < n { OneIsCounted(takes[..n], t, i); }
  }

  /** A slot held once is given once: of all the takes by all the instances, at most one returns its value. */
  lemma OneHoldIsGivenOnce<V>(actions: seq<Action<V>>, identity: Identity, t: nat, u: nat)
    requires var s := Play(Empty<V>(), actions, true);
             multiset(Slots(s.writes))[identity] <= 1 && t < u < |s.takes| && Gave(s.takes[t], identity)
    ensures !Gave(Play(Empty<V>(), actions, true).takes[u], identity)
  {
    var s := Play(Empty<V>(), actions, true);
    TakesNeverOutnumberHolds(actions, identity);
    PlayCountsTakes(Empty<V>(), actions, identity);
    if Gave(s.takes[u], identity) { TwoAreCounted(s.takes, t, u, identity); }
  }

  // ---------------------------------------------------------------------------------------------
  // Slots held again: when each write's value is given at most once

  predicate GaveWrite<V>(t: Take<V>, w: nat) {
    t.Consumed? && t.write == w && t.result.Some?
  }

  ghost predicate Given<V>(s: Shared<V>, w: nat) {
    exists t :: 0 <= t < |s.takes| && GaveWrite(s.takes[t], w)
  }

  /** No write's value was given to two takes. */
  ghost predicate OnceEach<V>(s: Shared<V>) {
    forall t, u, w: nat :: 0 <= t < u < |s.takes| && GaveWrite(s.takes[t], w) ==> !GaveWrite(s.takes[u], w)
  }

  /** A take under way that would give, did its delete land, a value that was given already. */
  ghost predicate Stale<V>(s: Shared<V>, t: nat)
    requires Formed(s)
  {
    t < |s.takes| && s.takes[t].Looked? && Given(s, s.takes[t].write)
    && ValueOf(s.writes[s.takes[t].write].held, s.takes[t].keys, s.takes[t].now).Some?
  }

  /** A hold that puts a row under a take's delete after the value that take looked at was given to another. */
  ghost predicate Risky<V>(s: Shared<V>, a: Action<V>)
    requires Formed(s)
  {
    a.WriteHold? && Enabled(s, a) && Lands(s, a.hold) &&
    exists t: nat :: Stale(s, t) && s.takes[t].identity == s.holds[a.hold].identity
  }

  ghost predicate RiskFree<V>(s: Shared<V>, actions: seq<Action<V>>)
    requires Formed(s)
    decreases |actions|
  {
    actions == [] || (!Risky(s, actions[0]) && RiskFree(After(s, actions[0], true), actions[1..]))
  }

  /** What keeps deletes safe: no row is under a stale take, and no row's own value was given. */
  ghost predicate Safe<V>(s: Shared<V>)
    requires Formed(s)
  {
    && OnceEach(s)
    && (forall t: nat :: Stale(s, t) ==> s.takes[t].identity !in s.rows)
    && (forall i :: i in s.rows ==> !Given(s, s.rows[i]))
  }

  lemma HoldsGiveNothing<V>(s: Shared<V>, a: Action<V>)
    requires Formed(s) && Enabled(s, a) && !a.DeleteTake?
    ensures var n := Step(s, a, true); OnceEach(s) ==> OnceEach(n)
    ensures var n := Step(s, a, true); forall w: nat :: Given(n, w) <==> Given(s, w)
  {
    var n := Step(s, a, true);
    forall w: nat ensures Given(n, w) <==> Given(s, w) {
      if Given(s, w) {
        var t :| 0 <= t < |s.takes| && GaveWrite(s.takes[t], w);
        assert GaveWrite(n.takes[t], w);
      }
      if Given(n, w) {
        var t :| 0 <= t < |n.takes| && GaveWrite(n.takes[t], w);
        assert t < |s.takes| && GaveWrite(s.takes[t], w);
      }
    }
  }

  lemma QuietStepIsSafe<V>(s: Shared<V>, a: Action<V>)
    requires Formed(s) && Safe(s) && Enabled(s, a) && !a.DeleteTake? && !Risky(s, a)
    ensures var n := After(s, a, true); Safe(n)
  {
    var n := After(s, a, true);
    HoldsGiveNothing(s, a);
    forall t: nat | Stale(n, t) ensures n.takes[t].identity !in n.rows {
      if t < |s.takes| { assert Stale(s, t); }
    }
    forall i | i in n.rows ensures !Given(n, n.rows[i]) {
      if n.rows[i] == |s.writes| {
        forall t | 0 <= t < |s.takes| ensures !GaveWrite(s.takes[t], |s.writes|) {}
      } else {
        assert i in s.rows && n.rows[i] == s.rows[i];
      }
    }
  }

  lemma DeleteGives<V>(s: Shared<V>, t: nat, w: nat)
    requires Formed(s) && Enabled(s, DeleteTake(t))
    ensures var n := Step(s, DeleteTake(t), true); Given(n, w) <==> Given(s, w) || GaveWrite(n.takes[t], w)
  {
    var n := Step(s, DeleteTake(t), true);
    if Given(s, w) {
      var u :| 0 <= u < |s.takes| && GaveWrite(s.takes[u], w);
      assert n.takes[u] == s.takes[u];
    }
    if GaveWrite(n.takes[t], w) { assert Given(n, w); }
    if Given(n, w) {
      var u :| 0 <= u < |n.takes| && GaveWrite(n.takes[u], w);
      if u != t { assert GaveWrite(s.takes[u], w); }
    }
  }

  lemma LandingTakesUngiven<V>(s: Shared<V>, t: nat)
    requires Formed(s) && Safe(s) && Enabled(s, DeleteTake(t)) && s.takes[t].identity in s.rows
    ensures ValueOf(s.writes[s.takes[t].write].held, s.takes[t].keys, s.takes[t].now).Some? ==> !Given(s, s.takes[t].write)
  {
    assert Stale(s, t) <==> Given(s, s.takes[t].write) &&
                            ValueOf(s.writes[s.takes[t].write].held, s.takes[t].keys, s.takes[t].now).Some?;
  }

  lemma DeleteGivesOnce<V>(s: Shared<V>, t: nat)
    requires Formed(s) && Safe(s) && Enabled(s, DeleteTake(t))
    ensures OnceEach(Step(s, DeleteTake(t), true))
  {
    var n := Step(s, DeleteTake(t), true);
    var mine := s.takes[t].write;
    if GaveWrite(n.takes[t], mine) {
      LandingTakesUngiven(s, t);
      forall u | 0 <= u < |s.takes| && u != t ensures !GaveWrite(n.takes[u], mine) {
        assert n.takes[u] == s.takes[u];
      }
    }
    forall u, v, w: nat | 0 <= u < v < |n.takes| && GaveWrite(n.takes[u], w) ensures !GaveWrite(n.takes[v], w) {
      if u != t && v != t { assert GaveWrite(s.takes[u], w); }
    }
  }

  lemma DeleteIsSafe<V>(s: Shared<V>, t: nat)
    requires Formed(s) && Safe(s) && Enabled(s, DeleteTake(t))
    ensures Safe(After(s, DeleteTake(t), true))
  {
    var n := After(s, DeleteTake(t), true);
    DeleteGivesOnce(s, t);
    var mine, slot := s.takes[t].write, s.takes[t].identity;
    forall u: nat | Stale(n, u) ensures n.takes[u].identity !in n.rows {
      DeleteGives(s, t, n.takes[u].write);
      if GaveWrite(n.takes[t], n.takes[u].write) {
        assert n.takes[u].write == mine && n.takes[u].identity == slot;
      } else {
        assert Stale(s, u);
      }
    }
    forall i | i in n.rows ensures !Given(n, n.rows[i]) {
      DeleteGives(s, t, n.rows[i]);
    }
  }

  lemma StepIsSafe<V>(s: Shared<V>, a: Action<V>)
    requires Formed(s) && Safe(s) && !Risky(s, a)
    ensures Safe(After(s, a, true))
  {
    if Enabled(s, a) {
      if a.DeleteTake? { DeleteIsSafe(s, a.take); } else { QuietStepIsSafe(s, a); }
    }
  }

  /** After a risky hold the stale take's own delete, next, gives its value a second time. */
  lemma RiskyHoldsDouble<V>(s: Shared<V>, a: Action<V>) returns (t: nat)
    requires Formed(s) && Risky(s, a)
    ensures !OnceEach(After(After(s, a, true), DeleteTake(t), true))
  {
    t :| Stale(s, t) && s.takes[t].identity == s.holds[a.hold].identity;
    var w := s.takes[t].write;
    var u :| 0 <= u < |s.takes| && GaveWrite(s.takes[u], w);
    var n := After(s, a, true);
    var m := After(n, DeleteTake(t), true);
    assert n.takes == s.takes && m.takes == s.takes[t := m.takes[t]];
    assert GaveWrite(m.takes[t], w) && GaveWrite(m.takes[u], w);
    if t < u { assert !OnceEach(m); } else { assert !OnceEach(m); }
  }

  lemma {:induction false} RiskFreeIsSafe<V>(s: Shared<V>, actions: seq<Action<V>>)
    requires Formed(s) && Safe(s) && RiskFree(s, actions)
    ensures Safe(Play(s, actions, true))
    decreases |actions|
  {
    if actions != [] {
      StepIsSafe(s, actions[0]);
      RiskFreeIsSafe(After(s, actions[0], true), actions[1..]);
    }
  }

  lemma {:induction false} RiskFreePrefix<V>(s: Shared<V>, actions: seq<Action<V>>, k: nat)
    requires Formed(s) && RiskFree(s, actions) && k <= |actions|
    ensures RiskFree(s, actions[..k])
    decreases k
  {
    if k > 0 {
      RiskFreePrefix(After(s, actions[0], true), actions[1..], k - 1);
      assert actions[..k][1..] == actions[1..][..k - 1];
    }
  }

  lemma {:induction false} PlayInParts<V>(s: Shared<V>, a: seq<Action<V>>, b: seq<Action<V>>)
    requires Formed(s)
    ensures Play(s, a + b, true) == Play(Play(s, a, true), b, true)
    decreases |a|
  {
    if a == [] {
      assert a + b == b;
    } else {
      assert (a + b)[1..] == a[1..] + b;
      PlayInParts(After(s, a[0], true), a[1..], b);
    }
  }

  lemma PlayLast<V>(s: Shared<V>, actions: seq<Action<V>>, a: Action<V>)
    requires Formed(s)
    ensures Play(s, actions + [a], true) == After(Play(s, actions, true), a, true)
  {
    PlayInParts(s, actions, [a]);
    var n := Play(s, actions, true);
    assert Play(After(n, a, true), [a][1..], true) == After(n, a, true);
  }

  /** A run with a risky hold has a point from which one more delete gives a value twice. */
  lemma {:induction false} RiskyRunsDouble<V>(s: Shared<V>, actions: seq<Action<V>>) returns (k: nat, t: nat)
    requires Formed(s) && !RiskFree(s, actions)
    ensures k <= |actions| && !OnceEach(Play(s, actions[..k] + [DeleteTake(t)], true))
    decreases |actions|
  {
    var n := After(s, actions[0], true);
    if Risky(s, actions[0]) {
      k := 1;
      t := RiskyHoldsDouble(s, actions[0]);
      PlayLast(s, actions[..1], DeleteTake(t));
      assert Play(s, actions[..1], true) == Play(n, actions[..1][1..], true);
    } else {
      var j: nat;
      j, t := RiskyRunsDouble(n, actions[1..]);
      k := j + 1;
      assert (actions[..k] + [DeleteTake(t)])[1..] == actions[1..][..j] + [DeleteTake(t)];
    }
  }

  /**
   Over all runs with a conditional delete: each write's value is given at most once, whatever delete comes next,
   exactly when no hold put a row into its slot while a take that had looked at an already given value was on its way.
   */
  lemma EachWriteOnceExactlyWhenRiskFree<V>(actions: seq<Action<V>>)
    ensures RiskFree(Empty<V>(), actions) <==>
            forall k: nat, t: nat :: k <= |actions| ==> OnceEach(Play(Empty<V>(), actions[..k] + [DeleteTake(t)], true))
  {
    var s := Empty<V>();
    if RiskFree(s, actions) {
      forall k: nat, t: nat | k <= |actions| ensures OnceEach(Play(s, actions[..k] + [DeleteTake(t)], true)) {
        RiskFreePrefix(s, actions, k);
        RiskFreeIsSafe(s, actions[..k]);
        PlayLast(s, actions[..k], DeleteTake(t));
        StepIsSafe(Play(s, actions[..k], true), DeleteTake(t));
      }
    } else {
      var k, t := RiskyRunsDouble(s, actions);
    }
  }

  /** A hold that lands in a slot some take has looked at and not yet deleted. */
  ghost predicate Disturbs<V>(s: Shared<V>, a: Action<V>)
    requires Formed(s)
  {
    a.WriteHold? && Enabled(s, a) && Lands(s, a.hold) &&
    exists t :: 0 <= t < |s.takes| && s.takes[t].Looked? && s.takes[t].identity == s.holds[a.hold].identity
  }

  ghost predicate Undisturbed<V>(s: Shared<V>, actions: seq<Action<V>>)
    requires Formed(s)
    decreases |actions|
  {
    actions == [] || (!Disturbs(s, actions[0]) && Undisturbed(After(s, actions[0], true), actions[1..]))
  }

  /** So slots held again one take after another are safe: no hold between a take's look and its delete. */
  lemma {:induction false} UndisturbedTakesAreSafe<V>(s: Shared<V>, actions: seq<Action<V>>)
    requires Formed(s) && Safe(s) && Undisturbed(s, actions)
    ensures RiskFree(s, actions) && OnceEach(Play(s, actions, true))
    decreases |actions|
  {
    if actions != [] {
      assert !Risky(s, actions[0]);
      StepIsSafe(s, actions[0]);
      UndisturbedTakesAreSafe(After(s, actions[0], true), actions[1..]);
    }
  }

  /**
   The failing run: a slot is held again while a second take that looked at the first value is still on its way.  Its
   delete lands on the second row, so the first value is given twice and the second is lost.
   */
  lemma AReplacedValueIsGivenTwice<V>(identity: Identity, first: Held<V>, second: Held<V>, now: int)
    requires now < first.expiresAt
    ensures var rest := [DeleteTake(0)] + ([BeginHold(identity, second)] + ([WriteHold(1)] + ([DeleteTake(1)] + [])));
            var s := Play(Empty<V>(), TwoLook(identity, first, now, rest), true);
            && s.rows == map[] && s.writes == [Write(identity, first), Write(identity, second)]
            && s.returned == [identity, identity] && |s.takes| == 2 && GaveWrite(s.takes[0], 0) && GaveWrite(s.takes[1], 0)
  {
    var s4 := BothLooked(identity, first, now);
    var again: seq<Action<V>> := [BeginHold(identity, second)] + ([WriteHold(1)] + ([DeleteTake(1)] + []));
    TwoLookIs(identity, first, now, [DeleteTake(0)] + again, true);
    var gone := Consumed(identity, {first.key}, now, 0, Some(first.value));
    var s5 := Shared(map[], [Stored], [gone, s4.takes[1]], s4.writes, [identity]);
    PlayCons(s4, DeleteTake(0), again, true, s5);
    HeldAgainAndTaken(identity, first, second, now, s5);
  }

  lemma HeldAgainAndTaken<V>(identity: Identity, first: Held<V>, second: Held<V>, now: int, s5: Shared<V>)
    requires now < first.expiresAt
    requires var gone := Consumed(identity, {first.key}, now, 0, Some(first.value));
             s5 == Shared(map[], [Stored], [gone, Looked(identity, {first.key}, now, 0)], [Write(identity, first)], [identity])
    ensures var gone := Consumed(identity, {first.key}, now, 0, Some(first.value));
            Play(s5, [BeginHold(identity, second)] + ([WriteHold(1)] + ([DeleteTake(1)] + [])), true) ==
            Shared(map[], [Stored, Stored], [gone, gone], [Write(identity, first), Write(identity, second)], [identity, identity])
  {
    var gone := Consumed(identity, {first.key}, now, 0, Some(first.value));
    var both := [Write(identity, first), Write(identity, second)];
    var last: seq<Action<V>> := [DeleteTake(1)] + [];
    var write: seq<Action<V>> := [WriteHold(1)] + last;
    var s6 := s5.(holds := [Stored, Checked(identity, second, false)]);
    var s7 := s5.(rows := map[identity := 1], holds := [Stored, Stored], writes := both);
    var s8 := Shared(map[], [Stored, Stored], [gone, gone], both, [identity, identity]);
    PlayCons(s5, BeginHold(identity, second), write, true, s6);
    PlayCons(s6, WriteHold(1), last, true, s7);
    PlayCons(s7, DeleteTake(1), [], true, s8);
  }
}
