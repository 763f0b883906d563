/**
 The registration epoch of the orbital server: app swaps run one after another, and a lookup that
 misses in the middle of a swap waits for it.

 Every mutation joins the epoch chain with a gate of its own.  A bracket opened inside another
 bracket's callback releases its gate at once and runs directly; all others wait for the epoch they
 found and keep their gate closed until they end, whether or not they failed.
 */
module RegistrationGate {
  import opened PromiseChain

  datatype Kind = Bracket | Nested(parent: nat) | Register | Marker

  datatype Stage = Queued | Running | Ended

  datatype Mutation = Mutation(kind: Kind, stage: Stage)

  /** A lookup that missed: `epoch` is the number of gates in the epoch it awaits. */
  datatype Lookup = Lookup(epoch: nat, resumed: bool)

  datatype Registry = Registry(chain: Chain, mutations: seq<Mutation>, depth: nat, lookups: seq<Lookup>)

  datatype Action =
    | OpenBracket                    // `withRegistrationMutation`, outside any bracket's callback
    | OpenNested(parent: nat)        // `withRegistrationMutation`, inside the callback of `parent`
    | RegisterApp                    // `register`
    | StampMarker                    // `unregisterAll`
    | Start(mutation: nat)           // the body begins
    | End(mutation: nat, failed: bool)
    | Miss                           // a lookup misses and reads the epoch
    | Resume(lookup: nat)            // the awaited epoch settled, the lookup reads the map again
    | Microtask

  const Closed := Registry(Empty, [], 0, [])

  predicate IsBracket(k: Kind) {
    k.Bracket? || k.Nested?
  }

  /** The brackets that have not ended, what `registrationMutationDepth` counts. */
  function OpenBrackets(mutations: seq<Mutation>): (n: nat)
  {
    if mutations == [] then 0
    else
      var m := mutations[|mutations| - 1];
      OpenBrackets(mutations[..|mutations| - 1]) + if IsBracket(m.kind) && m.stage != Ended then 1 else 0
  }

  predicate Enabled(r: Registry, a: Action) {
    match a
    case OpenBracket => true
    case OpenNested(p) => p < |r.mutations| && r.mutations[p].stage == Running && IsBracket(r.mutations[p].kind)
    case RegisterApp => true
    case StampMarker => true
    case Start(m) =>
      && m < |r.mutations| && r.mutations[m].stage == Queued
      && (r.mutations[m].kind.Nested? || r.chain.Ready(m))
    case End(m, _) => m < |r.mutations| && r.mutations[m].stage == Running
    case Miss => true
    case Resume(l) => l < |r.lookups| && !r.lookups[l].resumed && r.chain.Ready(r.lookups[l].epoch)
    case Microtask => r.chain.CanSettle()
  }

  function Join(r: Registry, kind: Kind, stage: Stage): Registry {
    r.(chain := r.chain.Join(), mutations := r.mutations + [Mutation(kind, stage)])
  }

  function Step(r: Registry, a: Action): Registry
    requires Enabled(r, a) && |r.mutations| == |r.chain.closed|
  {
    match a
    case OpenBracket => Join(r, Bracket, Queued).(depth := r.depth + 1)
    case OpenNested(p) => Join(r, Nested(p), Queued).(depth := r.depth + 1)
    // inside a bracket the registration runs in the callback and the epoch is left alone
    case RegisterApp => if r.depth > 0 then r else Join(r, Register, Queued)
    case StampMarker =>
      if r.depth > 0 then r
      else var j := Join(r, Marker, Ended); j.(chain := j.chain.Close(|r.mutations|))
    case Start(m) =>
      r.(mutations := r.mutations[m := r.mutations[m].(stage := Running)],
         chain := if r.mutations[m].kind.Nested? then r.chain.Close(m) else r.chain)
    case End(m, _) =>
      r.(mutations := r.mutations[m := r.mutations[m].(stage := Ended)],
         chain := r.chain.Close(m),
         depth := if IsBracket(r.mutations[m].kind) && r.depth > 0 then r.depth - 1 else r.depth)
    case Miss => r.(lookups := r.lookups + [Lookup(|r.mutations|, false)])
    case Resume(l) => r.(lookups := r.lookups[l := r.lookups[l].(resumed := true)])
    case Microtask => r.(chain := r.chain.SettleNext())
  }

  // ---------------------------------------------------------------------------------------------

  ghost predicate MutationOk(r: Registry, m: nat)
    requires m < |r.mutations| == |r.chain.closed|
  {
    var Mutation(kind, stage) := r.mutations[m];
    // a gate is closed exactly when its mutation is over, or nested and begun
    && (r.chain.closed[m] <==> stage == Ended || (kind.Nested? && stage == Running))
    // a body that is not nested began only after the whole epoch before it
    && (stage != Queued && !kind.Nested? && !kind.Marker? ==> r.chain.Ready(m))
    && (kind.Nested? ==> kind.parent < m)
  }

  ghost predicate Inv(r: Registry) {
    && r.chain.Valid()
    && |r.mutations| == |r.chain.closed|
    && (forall m :: 0 <= m < |r.mutations| ==> MutationOk(r, m))
    && (forall l :: 0 <= l < |r.lookups| ==> r.lookups[l].epoch <= |r.mutations|)
    && (forall l :: 0 <= l < |r.lookups| && r.lookups[l].resumed ==> r.chain.Ready(r.lookups[l].epoch))
    && r.depth == OpenBrackets(r.mutations)
  }

  lemma {:induction false} OpenBracketsUpdate(mutations: seq<Mutation>, m: nat, s: Mutation)
    requires m < |mutations| && s.kind == mutations[m].kind
    ensures OpenBrackets(mutations[m := s]) ==
            OpenBrackets(mutations)
              - (if IsBracket(s.kind) && mutations[m].stage != Ended then 1 else 0)
              + (if IsBracket(s.kind) && s.stage != Ended then 1 else 0)
    decreases |mutations|
  {
    var n := |mutations| - 1;
    if m == n {
      assert mutations[m := s][..n] == mutations[..n];
    } else {
      assert mutations[m := s][..n] == mutations[..n][m := s];
      OpenBracketsUpdate(mutations[..n], m, s);
    }
  }

  lemma OpenBracketsJoin(mutations: seq<Mutation>, s: Mutation)
    ensures OpenBrackets(mutations + [s]) == OpenBrackets(mutations) + if IsBracket(s.kind) && s.stage != Ended then 1 else 0
  {
    assert (mutations + [s])[..|mutations|] == mutations;
  }

  lemma DepthCountsOpenBrackets(r: Registry, a: Action)
    requires Inv(r) && Enabled(r, a)
    ensures Step(r, a).depth == OpenBrackets(Step(r, a).mutations)
  {
    match a {
      case Start(m) => OpenBracketsUpdate(r.mutations, m, r.mutations[m].(stage := Running));
      case End(m, _) => OpenBracketsUpdate(r.mutations, m, r.mutations[m].(stage := Ended));
      case OpenBracket => OpenBracketsJoin(r.mutations, Mutation(Bracket, Queued));
      case OpenNested(p) => OpenBracketsJoin(r.mutations, Mutation(Nested(p), Queued));
      case RegisterApp => OpenBracketsJoin(r.mutations, Mutation(Register, Queued));
      case StampMarker => OpenBracketsJoin(r.mutations, Mutation(Marker, Ended));
      case _ =>
    }
  }

  lemma StepKeepsInv(r: Registry, a: Action)
    requires Inv(r) && Enabled(r, a)
    ensures Inv(Step(r, a))
  {
    DepthCountsOpenBrackets(r, a);
    var n := Step(r, a);
    forall m | 0 <= m < |n.mutations| ensures MutationOk(n, m) {
      if m < |r.mutations| { assert MutationOk(r, m); }
    }
  }

  function Play(r: Registry, actions: seq<Action>): (n: Registry)
    requires Inv(r)
    ensures Inv(n)
    decreases |actions|
  {
    if actions == [] then r
    else if Enabled(r, actions[0]) then StepKeepsInv(r, actions[0]); Play(Step(r, actions[0]), actions[1..])
    else Play(r, actions[1..])
  }

  /** Over every interleaving, no two mutations that are not nested run at once. */
  lemma OutermostMutationsNeverOverlap(actions: seq<Action>, m: nat, n: nat)
    requires var r := Play(Closed, actions);
             && m < n < |r.mutations|
             && r.mutations[m].stage == Running && !r.mutations[m].kind.Nested?
             && !r.mutations[n].kind.Nested? && !r.mutations[n].kind.Marker?
    ensures Play(Closed, actions).mutations[n].stage == Queued
  {
    var r := Play(Closed, actions);
    assert MutationOk(r, m) && MutationOk(r, n);
  }

  /** A bracket opened inside a running bracket begins at once, whatever the epoch. */
  lemma NestedBracketsRunAtOnce(actions: seq<Action>, p: nat)
    requires Enabled(Play(Closed, actions), OpenNested(p))
    ensures var r := Play(Closed, actions); var n := Step(r, OpenNested(p));
            && Enabled(n, Start(|r.mutations|)) && Inv(Step(n, Start(|r.mutations|)))
            && Step(n, Start(|r.mutations|)).mutations == r.mutations + [Mutation(Nested(p), Running)]
  {
    var r := Play(Closed, actions);
    StepKeepsInv(r, OpenNested(p));
    StepKeepsInv(Step(r, OpenNested(p)), Start(|r.mutations|));
  }

  /** A registration the bracket's callback makes leaves the epoch as it is, so the callback never waits for its own gate. */
  lemma RegisteringInsideABracketNeverWaits(actions: seq<Action>, p: nat)
    requires var r := Play(Closed, actions);
             p < |r.mutations| && IsBracket(r.mutations[p].kind) && r.mutations[p].stage == Running
    ensures var r := Play(Closed, actions); Step(r, RegisterApp) == r && Step(r, StampMarker) == r
  {
    var r := Play(Closed, actions);
    OpenBracketCounts(r.mutations, p);
  }

  lemma {:induction false} OpenBracketCounts(mutations: seq<Mutation>, p: nat)
    requires p < |mutations| && IsBracket(mutations[p].kind) && mutations[p].stage != Ended
    ensures OpenBrackets(mutations) > 0
    decreases |mutations|
  {
    if p < |mutations| - 1 {
      OpenBracketCounts(mutations[..|mutations| - 1], p);
    }
  }

  /** What goes on keeps every mutation's kind, every ended one ended, and every lookup's epoch. */
  ghost predicate GoesOn(r: Registry, n: Registry) {
    && |r.mutations| <= |n.mutations| && |r.lookups| <= |n.lookups|
    && (forall m :: 0 <= m < |r.mutations| ==>
          n.mutations[m].kind == r.mutations[m].kind && (r.mutations[m].stage == Ended ==> n.mutations[m].stage == Ended))
    && (forall l :: 0 <= l < |r.lookups| ==> n.lookups[l].epoch == r.lookups[l].epoch)
  }

  lemma {:induction false} PlayGoesOn(r: Registry, actions: seq<Action>)
    requires Inv(r)
    ensures GoesOn(r, Play(r, actions))
    decreases |actions|
  {
    if actions != [] {
      if Enabled(r, actions[0]) {
        StepKeepsInv(r, actions[0]);
        PlayGoesOn(Step(r, actions[0]), actions[1..]);
      } else {
        PlayGoesOn(r, actions[1..]);
      }
    }
  }

  /**
   A lookup that missed reads the map again only once every mutation it could have raced with is over:
   every outermost bracket, registration and clearing that had joined the epoch when it missed.
   */
  lemma LookupsResumeAfterTheSwap(before: seq<Action>, more: seq<Action>, m: nat)
    requires var r := Play(Closed, before); m < |r.mutations| && !r.mutations[m].kind.Nested?
    ensures var r := Play(Closed, before); var q := Play(r, [Miss] + more);
            && |r.lookups| < |q.lookups| && m < |q.mutations|
            && (q.lookups[|r.lookups|].resumed ==> q.mutations[m].stage == Ended)
  {
    var r := Play(Closed, before);
    var missed, l := Step(r, Miss), |r.lookups|;
    StepKeepsInv(r, Miss);
    assert ([Miss] + more)[1..] == more;
    var q := Play(r, [Miss] + more);
    PlayGoesOn(missed, more);
    assert q.lookups[l].epoch == |r.mutations|;
    assert MutationOk(q, m);
    if q.lookups[l].resumed {
      ReadyMeansEarlierClosed(q.chain, q.lookups[l].epoch);
    }
  }

  /** Ending, failed or not, lets the epoch pass the mutation's gate. */
  lemma EndingOpensTheGate(r: Registry, m: nat, failed: bool)
    requires Inv(r) && Enabled(r, End(m, failed))
    ensures Step(r, End(m, failed)).chain.closed[m] && Step(r, End(m, failed)).mutations[m].stage == Ended
    ensures Step(r, End(m, failed)) == Step(r, End(m, !failed))
  {
  }

  /** An outermost bracket begins only once every outermost mutation that had joined before it is over. */
  lemma BracketsWaitForAllBefore(before: seq<Action>, more: seq<Action>, m: nat)
    requires m < |Play(Closed, before).mutations| && !Play(Closed, before).mutations[m].kind.Nested?
    ensures var r := Play(Closed, before); var q := Play(r, [OpenBracket] + more); var k := |r.mutations|;
            && k < |q.mutations| && q.mutations[k].kind == Bracket
            && (q.mutations[k].stage != Queued ==> q.mutations[m].stage == Ended)
  {
    var r := Play(Closed, before);
    var n, k := Step(r, OpenBracket), |r.mutations|;
    StepKeepsInv(r, OpenBracket);
    assert ([OpenBracket] + more)[1..] == more;
    var q := Play(r, [OpenBracket] + more);
    PlayGoesOn(n, more);
    assert n.mutations[m].kind == r.mutations[m].kind;
    assert MutationOk(q, m) && MutationOk(q, k);
    if q.mutations[k].stage != Queued {
      ReadyMeansEarlierClosed(q.chain, k);
    }
  }

  /** Nothing is queued, nothing runs and no lookup waits. */
  predicate Over(r: Registry) {
    && (forall m :: 0 <= m < |r.mutations| ==> r.mutations[m].stage == Ended)
    && (forall l :: 0 <= l < |r.lookups| ==> r.lookups[l].resumed)
  }

  predicate IsProgress(a: Action) {
    a.Microtask? || a.Start? || a.End? || a.Resume?
  }

  /** Deadlock-freedom: until all is over, a microtask, a waiting body, a running body or a waiting lookup can go on. */
  lemma NeverStuck(r: Registry) returns (a: Action)
    requires Inv(r) && !Over(r)
    ensures Enabled(r, a) && IsProgress(a)
  {
    var s := r.chain.settled;
    if s < |r.mutations| {
      assert MutationOk(r, s);
      assert r.chain.closed[s] ==> r.chain.CanSettle();
      a := if r.chain.closed[s] then Microtask else if r.mutations[s].stage == Queued then Start(s) else End(s, false);
    } else if m :| 0 <= m < |r.mutations| && r.mutations[m].stage != Ended {
      a := if r.mutations[m].stage == Queued then Start(m) else End(m, false);
    } else {
      var l :| 0 <= l < |r.lookups| && !r.lookups[l].resumed;
      a := Resume(l);
    }
  }

  /** How much a body has left to do. */
  function Left(stage: Stage): nat {
    match stage
    case Queued => 2
    case Running => 1
    case Ended => 0
  }

  function LeftOf(mutations: seq<Mutation>): nat {
    if mutations == [] then 0 else LeftOf(mutations[..|mutations| - 1]) + Left(mutations[|mutations| - 1].stage)
  }

  function Unresumed(lookups: seq<Lookup>): nat {
    if lookups == [] then 0
    else Unresumed(lookups[..|lookups| - 1]) + if lookups[|lookups| - 1].resumed then 0 else 1
  }

  /** What is left altogether: links to settle, bodies to begin and end, lookups to read again. */
  function Outstanding(r: Registry): int {
    |r.chain.closed| - r.chain.settled + LeftOf(r.mutations) + Unresumed(r.lookups)
  }

  lemma {:induction false} LeftOfUpdate(mutations: seq<Mutation>, m: nat, s: Mutation)
    requires m < |mutations|
    ensures LeftOf(mutations[m := s]) == LeftOf(mutations) - Left(mutations[m].stage) + Left(s.stage)
    decreases |mutations|
  {
    var n := |mutations| - 1;
    if m == n {
      assert mutations[m := s][..n] == mutations[..n];
    } else {
      assert mutations[m := s][..n] == mutations[..n][m := s];
      LeftOfUpdate(mutations[..n], m, s);
    }
  }

  lemma {:induction false} UnresumedUpdate(lookups: seq<Lookup>, l: nat, s: Lookup)
    requires l < |lookups| && !lookups[l].resumed && s.resumed
    ensures Unresumed(lookups[l := s]) == Unresumed(lookups) - 1
    decreases |lookups|
  {
    var n := |lookups| - 1;
    if l == n {
      assert lookups[l := s][..n] == lookups[..n];
    } else {
      assert lookups[l := s][..n] == lookups[..n][l := s];
      UnresumedUpdate(lookups[..n], l, s);
    }
  }

  /** A link, a body that begins or ends and a lookup that reads again each leave one thing less to do. */
  lemma GoingOnLeavesLess(r: Registry, a: Action)
    requires Inv(r) && Enabled(r, a) && IsProgress(a)
    ensures Outstanding(Step(r, a)) == Outstanding(r) - 1
  {
    match a {
      case Start(m) => LeftOfUpdate(r.mutations, m, r.mutations[m].(stage := Running));
      case End(m, _) => LeftOfUpdate(r.mutations, m, r.mutations[m].(stage := Ended));
      case Resume(l) => UnresumedUpdate(r.lookups, l, r.lookups[l].(resumed := true));
      case _ =>
    }
  }

  /** So from every reachable state, with nothing new asked for, all comes to an end. */
  lemma {:induction false} AllComesToAnEnd(r: Registry) returns (more: seq<Action>)
    requires Inv(r)
    ensures Over(Play(r, more)) && forall i :: 0 <= i < |more| ==> IsProgress(more[i])
    decreases Outstanding(r)
  {
    if Over(r) {
      more := [];
    } else {
      var a := NeverStuck(r);
      StepKeepsInv(r, a);
      GoingOnLeavesLess(r, a);
      var rest := AllComesToAnEnd(Step(r, a));
      more := [a] + rest;
      assert more[1..] == rest;
    }
  }

  /** With no bracket open a registration or a clearing joins the epoch, behind every outermost mutation that is not over. */
  lemma RegisteringOutsideJoins(actions: seq<Action>, m: nat)
    requires var r := Play(Closed, actions);
             m < |r.mutations| && !r.mutations[m].kind.Nested? && r.mutations[m].stage != Ended && OpenBrackets(r.mutations) == 0
    ensures var r := Play(Closed, actions); var n := Step(r, RegisterApp);
            && n.mutations == r.mutations + [Mutation(Register, Queued)] && !Enabled(n, Start(|r.mutations|))
            && |Step(r, StampMarker).mutations| == |r.mutations| + 1
            && !Step(r, StampMarker).chain.Ready(|r.mutations| + 1)
  {
    var r := Play(Closed, actions);
    assert MutationOk(r, m);
    assert !r.chain.closed[m];
  }

  // ---------------------------------------------------------------------------------------------
  // The gate the runtime keeps

  class RegistrationEpoch {
    var epoch: Chain
    var depth: nat
    ghost var mutations: seq<Mutation>
    ghost var lookups: seq<Lookup>

    ghost predicate Valid()
      reads this
    {
      Inv(View())
    }

    ghost function View(): Registry
      reads this
    {
      Registry(epoch, mutations, depth, lookups)
    }

    constructor ()
      ensures Valid() && View() == Closed
    {
      epoch, depth, mutations, lookups := Empty, 0, [], [];
    }

    /** `withRegistrationMutation` publishes its gate before anything is awaited. */
    method OpenBracket(ghost parent: nat, nested: bool) returns (gate: nat)
      requires Valid() && (nested ==> Enabled(View(), OpenNested(parent)))
      modifies this
      ensures Valid() && gate == |old(mutations)|
      ensures View() == Step(old(View()), if nested then OpenNested(parent) else Action.OpenBracket)
    {
      StepKeepsInv(View(), if nested then OpenNested(parent) else Action.OpenBracket);
      gate := |epoch.closed|;
      epoch, depth := epoch.Join(), depth + 1;
      mutations := mutations + [Mutation(if nested then Nested(parent) else Bracket, Queued)];
    }

    /** The callback begins: at once when nested, its gate released, else after the epoch before it. */
    method Begin(gate: nat, nested: bool)
      requires Valid() && Enabled(View(), Start(gate)) && nested == mutations[gate].kind.Nested?
      modifies this
      ensures Valid() && View() == Step(old(View()), Start(gate))
    {
      StepKeepsInv(View(), Start(gate));
      mutations := mutations[gate := mutations[gate].(stage := Running)];
      if nested { epoch := epoch.Close(gate); }
    }

    /** The callback, or the registration, is over. */
    method Finish(gate: nat, ghost failed: bool, bracket: bool)
      requires Valid() && Enabled(View(), End(gate, failed)) && bracket == IsBracket(mutations[gate].kind)
      modifies this
      ensures Valid() && View() == Step(old(View()), End(gate, failed))
    {
      StepKeepsInv(View(), End(gate, failed));
      OpenBracketsUpdate(mutations, gate, mutations[gate].(stage := Ended));
      if bracket { depth := depth - 1; }
      epoch := epoch.Close(gate);
      mutations := mutations[gate := mutations[gate].(stage := Ended)];
    }

    /** `register`: `direct` when it runs in the open bracket's callback. */
    method Register() returns (direct: bool, gate: nat)
      requires Valid()
      modifies this
      ensures Valid() && View() == Step(old(View()), RegisterApp)
      ensures direct == (old(depth) > 0) && (!direct ==> gate == |old(mutations)|)
    {
      StepKeepsInv(View(), RegisterApp);
      direct, gate := depth > 0, |epoch.closed|;
      if !direct {
        epoch, mutations := epoch.Join(), mutations + [Mutation(Kind.Register, Queued)];
      }
    }

    /** `unregisterAll` stamps a marker that settles with the epoch before it. */
    method Stamp()
      requires Valid()
      modifies this
      ensures Valid() && View() == Step(old(View()), StampMarker)
    {
      StepKeepsInv(View(), StampMarker);
      if depth == 0 {
        epoch, mutations := epoch.Join().Close(|epoch.closed|), mutations + [Mutation(Marker, Ended)];
      }
    }

    /** The epoch a missed lookup awaits. */
    method ReadEpoch() returns (gates: nat)
      requires Valid()
      modifies this`lookups
      ensures Valid() && gates == |epoch.closed| && View() == Step(old(View()), Miss)
    {
      StepKeepsInv(View(), Miss);
      gates := |epoch.closed|;
      lookups := lookups + [Lookup(gates, false)];
    }
  }
}
