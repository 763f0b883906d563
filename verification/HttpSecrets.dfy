/**
 The two tiers of in-process secrets, and the OAuth grants kept in them.

 A minted value lives in this process; a held one goes to the shared store where the host has one.
 Every operation takes the clock it reads as a parameter.
 */
module HttpSecrets {
  import opened Wrappers
  import opened CredentialRows
  import OneUse = OneUseSecrets

  datatype Entry<V> = Entry(value: V, expiresAt: int)

  /** `shared` is the store's one-use rows; absent, the host shares none. */
  datatype Tiers<V> = Tiers(minted: map<Identity, Entry<V>>, shared: Option<map<Identity, Entry<V>>>)

  function Mint<V>(t: Tiers<V>, name: Identity, value: V, ttl: int, now: int): Tiers<V> {
    if ttl <= 0 then t.(minted := t.minted - {name})
    else t.(minted := t.minted[name := Entry(value, now + ttl)])
  }

  /** A minted value that is still good, else whatever the host resolves (`None` here); an expired one is dropped. */
  function Get<V>(t: Tiers<V>, name: Identity, now: int): (Option<V>, Tiers<V>) {
    if name !in t.minted then (None, t)
    else if t.minted[name].expiresAt > now then (Some(t.minted[name].value), t)
    else (None, t.(minted := t.minted - {name}))
  }

  function Hold<V>(t: Tiers<V>, name: Identity, value: V, ttl: int, now: int): Tiers<V> {
    if t.shared.None? then Mint(t, name, value, ttl, now)
    else
      Tiers(t.minted - {name},
            if ttl > 0 then Some(t.shared.value[name := Entry(value, now + ttl)]) else t.shared)
  }

  function Take<V>(t: Tiers<V>, name: Identity, now: int): (Option<V>, Tiers<V>) {
    var fromStore := if t.shared.Some? && name in t.shared.value && t.shared.value[name].expiresAt > now
                     then Some(t.shared.value[name].value) else None;
    var s := if t.shared.Some? then t.(shared := Some(t.shared.value - {name})) else t;
    if fromStore.Some? then (fromStore, s)
    else if name !in s.minted then (None, s)
    else (if s.minted[name].expiresAt > now then Some(s.minted[name].value) else None, s.(minted := s.minted - {name}))
  }

  function Forget<V>(t: Tiers<V>, name: Identity): Tiers<V> {
    t.(minted := t.minted - {name})
  }

  // ---------------------------------------------------------------------------------------------
  // One use

  /** How many takes of `name` could still give a value. */
  function Copies<V>(t: Tiers<V>, name: Identity): nat {
    (if name in t.minted then 1 else 0) + (if t.shared.Some? && name in t.shared.value then 1 else 0)
  }

  datatype Op<V> =
    | DoMint(name: Identity, value: V, ttl: int, now: int)
    | DoHold(name: Identity, value: V, ttl: int, now: int)
    | DoGet(name: Identity, now: int)
    | DoTake(name: Identity, now: int)
    | DoForget(name: Identity)

  function Apply<V>(t: Tiers<V>, op: Op<V>): Tiers<V> {
    match op
    case DoMint(name, value, ttl, now) => Mint(t, name, value, ttl, now)
    case DoHold(name, value, ttl, now) => Hold(t, name, value, ttl, now)
    case DoGet(name, now) => Get(t, name, now).1
    case DoTake(name, now) => Take(t, name, now).1
    case DoForget(name) => Forget(t, name)
  }

  /** The values the takes of `name` give, in order. */
  function Given<V>(t: Tiers<V>, ops: seq<Op<V>>, name: Identity): seq<V>
    decreases |ops|
  {
    if ops == [] then []
    else
      (if ops[0].DoTake? && ops[0].name == name && Take(t, name, ops[0].now).0.Some?
       then [Take(t, name, ops[0].now).0.value] else [])
      + Given(Apply(t, ops[0]), ops[1..], name)
  }

  function Puts<V>(ops: seq<Op<V>>, name: Identity): nat
    decreases |ops|
  {
    if ops == [] then 0
    else (if (ops[0].DoMint? || ops[0].DoHold?) && ops[0].name == name then 1 else 0) + Puts(ops[1..], name)
  }

  /** However the operations are ordered and timed, takes give no more values than were put and left. */
  lemma {:induction false} TakesGiveNoMoreThanPut<V>(t: Tiers<V>, ops: seq<Op<V>>, name: Identity)
    ensures |Given(t, ops, name)| <= Copies(t, name) + Puts(ops, name)
    decreases |ops|
  {
    if ops != [] {
      TakesGiveNoMoreThanPut(Apply(t, ops[0]), ops[1..], name);
    }
  }

  function Run<V>(t: Tiers<V>, ops: seq<Op<V>>): Tiers<V>
    decreases |ops|
  {
    if ops == [] then t else Run(Apply(t, ops[0]), ops[1..])
  }

  /** What the operations leave alone: other names, and this one but for looks at it before `expiry`. */
  predicate Elsewhere<V>(ops: seq<Op<V>>, name: Identity, expiry: int) {
    forall i :: 0 <= i < |ops| ==> ops[i].name != name || (ops[i].DoGet? && ops[i].now < expiry)
  }

  /** The name's copies in both tiers. */
  function At<V>(t: Tiers<V>, name: Identity): (Option<Entry<V>>, Option<Entry<V>>) {
    (if name in t.minted then Some(t.minted[name]) else None,
     if t.shared.Some? && name in t.shared.value then Some(t.shared.value[name]) else None)
  }

  lemma {:induction false} LeftAlone<V>(t: Tiers<V>, ops: seq<Op<V>>, name: Identity, expiry: int)
    requires Elsewhere(ops, name, expiry) && (name in t.minted ==> t.minted[name].expiresAt == expiry)
    ensures At(Run(t, ops), name) == At(t, name) && (Run(t, ops).shared.Some? <==> t.shared.Some?)
    decreases |ops|
  {
    if ops != [] {
      assert ops[0].name != name || (ops[0].DoGet? && ops[0].now < expiry);
      assert At(Apply(t, ops[0]), name) == At(t, name);
      LeftAlone(Apply(t, ops[0]), ops[1..], name, expiry);
    }
  }

  /** A minted value is answered until its expiry, and not from then on, whatever is done meanwhile with other names. */
  lemma MintedValuesAreAnswered<V>(t: Tiers<V>, name: Identity, value: V, ttl: int, now: int, ops: seq<Op<V>>, later: int)
    requires Elsewhere(ops, name, now + ttl)
    ensures Get(Run(t, [DoMint(name, value, ttl, now)] + ops), name, later).0 ==
            if ttl > 0 && later < now + ttl then Some(value) else None
  {
    assert ([DoMint(name, value, ttl, now)] + ops)[1..] == ops;
    LeftAlone(Mint(t, name, value, ttl, now), ops, name, now + ttl);
  }

  /** A held value is given to the first take before its expiry, in either tier, and to no later one. */
  lemma HeldValuesAreTaken<V>(
      t: Tiers<V>, name: Identity, value: V, ttl: int, now: int, ops: seq<Op<V>>, later: int, last: int)
    requires Elsewhere(ops, name, now + ttl) && Copies(t, name) == 0
    ensures var held := Run(t, [DoHold(name, value, ttl, now)] + ops); var (taken, rest) := Take(held, name, later);
            && taken == (if ttl > 0 && later < now + ttl then Some(value) else None)
            && rest == Apply(held, DoTake(name, later))
            && Take(rest, name, last).0.None? && Get(rest, name, last).0.None?
  {
    assert ([DoHold(name, value, ttl, now)] + ops)[1..] == ops;
    LeftAlone(Hold(t, name, value, ttl, now), ops, name, now + ttl);
  }

  /** Looking at a value drops it only once it has expired: no answer given later changes. */
  lemma LooksChangeNoLaterAnswer<V>(t: Tiers<V>, name: Identity, now: int, other: Identity, later: int)
    requires now <= later
    ensures var n := Apply(t, DoGet(name, now));
            && Get(n, other, later).0 == Get(t, other, later).0 && Take(n, other, later).0 == Take(t, other, later).0
            && (name in n.minted <==> Get(t, name, now).0.Some?)
  {
  }

  /** What is forgotten is not answered, and no other name is touched. */
  lemma ForgettingTakesOneName<V>(t: Tiers<V>, name: Identity, other: Identity, now: int)
    ensures var n := Apply(t, DoForget(name));
            && Get(n, name, now).0.None? && n.shared == t.shared && (other != name ==> At(n, other) == At(t, other))
  {
  }

  // ---------------------------------------------------------------------------------------------
  // Pending OAuth grants

  /** The pending grants outlive their own expiry by this much, so that a late state answers `Expired`. */
  const PENDING_GRACE_MS := 3_600_000

  datatype Pending<G> = Pending(grant: G, expiresAt: int)

  datatype Taken<G> = Missing | Expired | Granted(grant: G)

  /** `pendingName` is injective. */
  function PendingName(state: string): Identity {
    Identity("oauth:grant:" + state, None)
  }

  function PendingPut<G>(t: Tiers<Pending<G>>, state: string, grant: G, ttl: int, now: int): Tiers<Pending<G>> {
    Hold(t, PendingName(state), Pending(grant, now + ttl), ttl + PENDING_GRACE_MS, now)
  }

  /** `takenAt` is the secrets' clock, `now` the port's, read after it. */
  function PendingTake<G>(t: Tiers<Pending<G>>, state: string, takenAt: int, now: int): (Taken<G>, Tiers<Pending<G>>) {
    var (text, rest) := Take(t, PendingName(state), takenAt);
    if text.None? then (Missing, rest)
    else if text.value.expiresAt < now then (Expired, rest)
    else (Granted(text.value.grant), rest)
  }

  lemma PendingNamesAreDistinct(a: string, b: string)
    ensures PendingName(a) == PendingName(b) ==> a == b
  {
    var prefix := "oauth:grant:";
    if PendingName(a) == PendingName(b) {
      assert (prefix + a)[|prefix|..] == a && (prefix + b)[|prefix|..] == b;
    }
  }

  /**
   Until the secrets' clock passes its grace a fresh state answers its grant, up to its inclusive expiry by the port's
   clock, and `Expired` after; from then on `Missing`.
   */
  lemma FreshStateAnswers<G>(t: Tiers<Pending<G>>, state: string, grant: G, ttl: int, now: int, takenAt: int, later: int)
    requires Copies(t, PendingName(state)) == 0
    ensures var answer := PendingTake(PendingPut(t, state, grant, ttl, now), state, takenAt, later).0;
            var kept := 0 < ttl + PENDING_GRACE_MS && takenAt < now + ttl + PENDING_GRACE_MS;
            && (answer == Granted(grant) <==> kept && later <= now + ttl)
            && (answer == Expired <==> kept && now + ttl < later)
            && (answer == Missing <==> !kept)
  {
  }

  /** The answers of every `pendingTake` of `state` in a run, each with the port's clock. */
  function Answers<G>(t: Tiers<Pending<G>>, ops: seq<Op<Pending<G>>>, state: string): seq<Taken<G>>
    decreases |ops|
  {
    if ops == [] then []
    else
      (if ops[0].DoTake? && ops[0].name == PendingName(state) then [PendingTake(t, state, ops[0].now, ops[0].now).0] else [])
      + Answers(Apply(t, ops[0]), ops[1..], state)
  }

  function Grants<G>(answers: seq<Taken<G>>): nat {
    if answers == [] then 0 else (if answers[0].Granted? then 1 else 0) + Grants(answers[1..])
  }

  lemma {:induction false} GrantsComeFromTakes<G>(t: Tiers<Pending<G>>, ops: seq<Op<Pending<G>>>, state: string)
    ensures Grants(Answers(t, ops, state)) <= |Given(t, ops, PendingName(state))|
    decreases |ops|
  {
    if ops != [] {
      GrantsComeFromTakes(Apply(t, ops[0]), ops[1..], state);
      var rest := Answers(Apply(t, ops[0]), ops[1..], state);
      if ops[0].DoTake? && ops[0].name == PendingName(state) {
        assert ([PendingTake(t, state, ops[0].now, ops[0].now).0] + rest)[1..] == rest;
      } else {
        assert [] + rest == rest;
      }
    }
  }

  /** A state put once is granted at most once, whatever else the process does with its secrets. */
  lemma StateIsGrantedAtMostOnce<G>(t: Tiers<Pending<G>>, state: string, grant: G, ttl: int, now: int, ops: seq<Op<Pending<G>>>)
    requires Copies(t, PendingName(state)) == 0 && Puts(ops, PendingName(state)) == 0
    ensures Grants(Answers(PendingPut(t, state, grant, ttl, now), ops, state)) <= 1
  {
    var p := PendingPut(t, state, grant, ttl, now);
    GrantsComeFromTakes(p, ops, state);
    TakesGiveNoMoreThanPut(p, ops, PendingName(state));
  }

  /** What a take of a shared pending grant answers; `now` is the port's clock, read after it. */
  function SharedAnswer<G>(t: OneUse.Take<Pending<G>>, now: int): Taken<G>
    requires t.Consumed?
  {
    if t.result.None? then Missing
    else if t.result.value.expiresAt < now then Expired
    else Granted(t.result.value.grant)
  }

  /** A take that gave a value answers the grant written, up to its inclusive expiry, and `Expired` after. */
  lemma SharedAnswersFollowTheWrite<G>(actions: seq<OneUse.Action<Pending<G>>>, t: nat, now: int)
    requires var s := OneUse.Play(OneUse.Empty<Pending<G>>(), actions, true);
             t < |s.takes| && s.takes[t].Consumed? && s.takes[t].result.Some?
    ensures var s := OneUse.Play(OneUse.Empty<Pending<G>>(), actions, true);
            && s.takes[t].write < |s.writes|
            && var pending := s.writes[s.takes[t].write].held.value;
            SharedAnswer(s.takes[t], now) == if now <= pending.expiresAt then Granted(pending.grant) else Expired
  {
    OneUse.NoExpiredValueIsReturned(actions, t);
  }

  /**
   Across instances that share a store, a state put once is granted at most once, and up to its inclusive expiry:
   whatever the interleaving and the clocks, no two takes of it both answer its grant.
   */
  lemma SharedStateIsGrantedAtMostOnce<G>(actions: seq<OneUse.Action<Pending<G>>>, state: string, t: nat, u: nat, now: int, later: int)
    requires var s := OneUse.Play(OneUse.Empty<Pending<G>>(), actions, true);
             && multiset(OneUse.Slots(s.writes))[PendingName(state)] <= 1 && t < |s.takes| && u < |s.takes| && t != u
             && s.takes[t].Consumed? && s.takes[u].Consumed?
             && s.takes[t].identity == PendingName(state) == s.takes[u].identity
    ensures var s := OneUse.Play(OneUse.Empty<Pending<G>>(), actions, true);
            && (SharedAnswer(s.takes[t], now).Granted? ==> SharedAnswer(s.takes[u], later) == Missing)
            && s.takes[t].write < |s.writes|
            && (SharedAnswer(s.takes[t], now).Granted? ==> now <= s.writes[s.takes[t].write].held.value.expiresAt)
  {
    var s := OneUse.Play(OneUse.Empty<Pending<G>>(), actions, true);
    if s.takes[t].result.Some? { SharedAnswersFollowTheWrite(actions, t, now); }
    if SharedAnswer(s.takes[t], now).Granted? {
      OneUse.NoExpiredValueIsReturned(actions, t);
      if t < u {
        OneUse.OneHoldIsGivenOnce(actions, PendingName(state), t, u);
      } else if OneUse.Gave(s.takes[u], PendingName(state)) {
        OneUse.OneHoldIsGivenOnce(actions, PendingName(state), u, t);
      }
    }
  }

  // ---------------------------------------------------------------------------------------------
  // The secrets the host keeps

  class Secrets<V> {
    var minted: map<Identity, Entry<V>>
    var shared: Option<map<Identity, Entry<V>>>

    ghost function View(): Tiers<V>
      reads this
    {
      Tiers(minted, shared)
    }

    constructor (sharing: bool)
      ensures View() == Tiers(map[], if sharing then Some(map[]) else None)
    {
      minted, shared := map[], if sharing then Some(map[]) else None;
    }

    method SetMinted(name: Identity, value: V, ttl: int, now: int)
      modifies this
      ensures View() == Mint(old(View()), name, value, ttl, now)
    {
      if ttl <= 0 {
        minted := minted - {name};
      } else {
        minted := minted[name := Entry(value, now + ttl)];
      }
    }

    method GetMinted(name: Identity, now: int) returns (value: Option<V>)
      modifies this
      ensures (value, View()) == Get(old(View()), name, now)
    {
      if name in minted {
        if minted[name].expiresAt > now { return Some(minted[name].value); }
        minted := minted - {name};
      }
      value := None;
    }

    method HoldOnce(name: Identity, value: V, ttl: int, now: int)
      modifies this
      ensures View() == Hold(old(View()), name, value, ttl, now)
    {
      if shared.Some? {
        minted := minted - {name};
        if ttl > 0 { shared := Some(shared.value[name := Entry(value, now + ttl)]); }
        return;
      }
      SetMinted(name, value, ttl, now);
    }

    method TakeOnce(name: Identity, now: int) returns (value: Option<V>)
      modifies this
      ensures (value, View()) == Take(old(View()), name, now)
    {
      if shared.Some? {
        value := None;
        if name in shared.value {
          var row := shared.value[name];
          if row.expiresAt > now { value := Some(row.value); }
        }
        shared := Some(shared.value - {name});
        if value.Some? { return; }
      }
      if name !in minted { return None; }
      var held := minted[name];
      minted := minted - {name};
      value := if held.expiresAt > now then Some(held.value) else None;
    }
  }
}
