/**
 When a tab applies a frame a second time: the key remembers one boot, so a stream of another boot it once applied
 frames of is not held to them.
 */
module PushRepeats {
  import opened Wrappers
  import opened PushResume
  import opened PushStreams

  predicate Remembers(s: State, boot: string) {
    s.seen.Some? && s.seen.value.boot == boot
  }

  /** `n` is above everything applied of the boot. */
  predicate Fresh(applied: seq<Applied>, boot: string, n: nat) {
    forall i :: 0 <= i < |applied| && applied[i].frame.boot == boot ==> applied[i].frame.n < n
  }

  /** Boot by boot, the applied frames only go forward. */
  predicate Forward(applied: seq<Applied>) {
    forall i, j :: 0 <= i < j < |applied| && applied[i].frame.boot == applied[j].frame.boot ==> applied[i].frame.n < applied[j].frame.n
  }

  predicate NoneTwice(applied: seq<Applied>) {
    forall i, j :: 0 <= i < j < |applied| ==> applied[i].frame != applied[j].frame
  }

  lemma ForwardRepeatsNothing(applied: seq<Applied>)
    requires Forward(applied)
    ensures NoneTwice(applied)
  {
  }

  /** A stream of a boot that is not the remembered one sends a readable frame at or below one applied there. */
  predicate FallsBack(log: Log, s: State, a: Action) {
    a.Deliver? && a.channel in s.streams &&
    var stream := s.streams[a.channel];
    log(stream.boot, stream.next) && !Remembers(s, stream.boot) && !Fresh(s.applied, stream.boot, stream.next)
  }

  predicate NeverFallsBack(log: Log, s: State, actions: seq<Action>)
    decreases |actions|
  {
    actions == [] ||
    (Enabled(s, actions[0]) && !FallsBack(log, s, actions[0]) && NeverFallsBack(log, Step(log, s, actions[0]), actions[1..]))
  }

  /** The remembered frame is the highest applied of its boot. */
  lemma RememberedIsHighest(s: State)
    requires SeenIsLast(s) && Forward(s.applied) && s.seen.Some?
    ensures Fresh(s.applied, s.seen.value.boot, s.seen.value.n + 1)
  {
  }

  lemma ForwardMore(applied: seq<Applied>, a: Applied)
    requires Forward(applied)
    ensures Forward(applied + [a]) <==> Fresh(applied, a.frame.boot, a.frame.n)
  {
    var more := applied + [a];
    if Forward(more) {
      forall i | 0 <= i < |applied| && applied[i].frame.boot == a.frame.boot ensures applied[i].frame.n < a.frame.n {
        assert more[i] == applied[i] && more[|applied|] == a;
      }
    }
  }

  lemma SentForward(log: Log, s: State, c: nat)
    requires SeenIsLast(s) && Forward(s.applied) && c in s.streams
    ensures Forward(Sent(log, s, c).applied) <==> !FallsBack(log, s, Deliver(c))
  {
    var stream := s.streams[c];
    ForwardMore(s.applied, Applied(c, FrameNumber(stream.boot, stream.next)));
    if s.seen.Some? { RememberedIsHighest(s); }
  }

  lemma StepForward(log: Log, s: State, a: Action)
    requires Inv(s) && Forward(s.applied) && Enabled(s, a)
    ensures Forward(Step(log, s, a).applied) <==> !FallsBack(log, s, a)
  {
    if a.Deliver? {
      DeliverStep(log, s, a.channel);
      SentForward(log, s, a.channel);
    }
  }

  lemma StepGrows(log: Log, s: State, a: Action)
    requires BootsAreNamed(s) && Enabled(s, a)
    ensures s.applied <= Step(log, s, a).applied && BootsAreNamed(Step(log, s, a))
  {
    if a.Deliver? {
      DeliverStep(log, s, a.channel);
      NamedStay(log, s, a.channel);
    }
  }

  lemma {:induction false} PlayGrows(log: Log, s: State, actions: seq<Action>)
    requires BootsAreNamed(s) && Play(log, s, actions).Some?
    ensures s.applied <= Play(log, s, actions).value.applied
    decreases |actions|
  {
    if actions != [] {
      StepGrows(log, s, actions[0]);
      PlayGrows(log, Step(log, s, actions[0]), actions[1..]);
    }
  }

  /**
   Over all runs, however many channels share the key: boot by boot the applied frames only go forward, so that none
   is applied twice, exactly when no stream of an earlier boot falls back behind what was applied there.
   */
  lemma {:induction false} ForwardExactlyWhenNoneFallsBack(log: Log, s: State, actions: seq<Action>)
    requires Inv(s) && Forward(s.applied) && Play(log, s, actions).Some?
    ensures Forward(Play(log, s, actions).value.applied) <==> NeverFallsBack(log, s, actions)
    ensures NeverFallsBack(log, s, actions) ==> NoneTwice(Play(log, s, actions).value.applied)
    decreases |actions|
  {
    if actions != [] {
      var n := Step(log, s, actions[0]);
      StepKeepsInv(log, s, actions[0]);
      StepForward(log, s, actions[0]);
      if Forward(n.applied) {
        ForwardExactlyWhenNoneFallsBack(log, n, actions[1..]);
      } else {
        PlayGrows(log, n, actions[1..]);
        BackwardStays(n.applied, Play(log, n, actions[1..]).value.applied);
      }
    } else {
      ForwardRepeatsNothing(s.applied);
    }
  }

  lemma BackwardStays(applied: seq<Applied>, more: seq<Applied>)
    requires !Forward(applied) && applied <= more
    ensures !Forward(more)
  {
    var i, j :| 0 <= i < j < |applied| && applied[i].frame.boot == applied[j].frame.boot && applied[i].frame.n >= applied[j].frame.n;
    assert more[i] == applied[i] && more[j] == applied[j];
  }

  // ---------------------------------------------------------------------------------------------
  // The guard on opening a stream

  /** A stream may open on the remembered boot, or above everything applied of its boot. */
  predicate Guarded(s: State, boot: string, next: nat) {
    Remembers(s, boot) || Fresh(s.applied, boot, next)
  }

  predicate Ahead(s: State, c: nat)
    requires c in s.streams
  {
    Guarded(s, s.streams[c].boot, s.streams[c].next)
  }

  lemma SentStaysAhead(log: Log, s: State, c: nat)
    requires SeenIsLast(s) && Forward(s.applied) && c in s.streams && Ahead(s, c)
    ensures var t := Sent(log, s, c); SeenIsLast(t) && Forward(t.applied) && Ahead(t, c)
  {
    SentForward(log, s, c);
  }

  lemma {:induction false} SentManyStaysForward(log: Log, s: State, c: nat, n: nat)
    requires SeenIsLast(s) && Forward(s.applied) && c in s.streams && Ahead(s, c)
    ensures Forward(SentMany(log, s, c, n).applied)
    decreases n
  {
    if n > 0 {
      SentStaysAhead(log, s, c);
      SentManyStaysForward(log, Sent(log, s, c), c, n - 1);
    }
  }

  predicate RepeatsAfter(log: Log, s: State, c: nat, boot: string, next: nat, n: nat) {
    var t := Play(log, s, [Open(c, boot, next)] + Times(Deliver(c), n));
    t.Some? && !NoneTwice(t.value.applied)
  }

  lemma OpenedThenSent(log: Log, s: State, c: nat, boot: string, next: nat, n: nat)
    requires BootsAreNamed(s) && Enabled(s, Open(c, boot, next))
    ensures var t := s.(streams := s.streams[c := Stream(boot, next, s.seen)]);
            BootsAreNamed(t) && Play(log, s, [Open(c, boot, next)] + Times(Deliver(c), n)) == Some(SentMany(log, t, c, n))
  {
    var t := s.(streams := s.streams[c := Stream(boot, next, s.seen)]);
    PlayFirst(log, s, Open(c, boot, next), Times(Deliver(c), n));
    SentManyIs(log, t, c, n);
  }

  lemma BelowTheTopRepeats(log: Log, s: State, c: nat, boot: string, next: nat) returns (n: nat)
    requires Inv(s) && AllReadable(log, s.applied) && Enabled(s, Open(c, boot, next)) && !Guarded(s, boot, next)
    ensures RepeatsAfter(log, s, c, boot, next, n)
  {
    var i :| 0 <= i < |s.applied| && s.applied[i].frame.boot == boot && s.applied[i].frame.n >= next;
    var m := s.applied[i].frame.n;
    var k: nat := m - next;
    n := k + 1;
    OpenedThenSent(log, s, c, boot, next, n);
    var t := s.(streams := s.streams[c := Stream(boot, next, s.seen)]);
    var before := SentThrough(log, t, c, m, k);
    var after := SentMany(log, t, c, n);
    assert after.applied[i] == s.applied[i] && after.applied[|before.applied|].frame == s.applied[i].frame;
  }

  /**
   A stream that opens can come to apply a frame a second time exactly when it opens on a boot that is not the
   remembered one and at or below a frame applied there.
   */
  lemma RepeatsExactlyWhenUnguarded(log: Log, s: State, c: nat, boot: string, next: nat)
    requires Inv(s) && Forward(s.applied) && AllReadable(log, s.applied) && Enabled(s, Open(c, boot, next))
    ensures (exists n: nat :: RepeatsAfter(log, s, c, boot, next, n)) <==> !Guarded(s, boot, next)
  {
    if Guarded(s, boot, next) {
      var t := s.(streams := s.streams[c := Stream(boot, next, s.seen)]);
      forall n: nat ensures !RepeatsAfter(log, s, c, boot, next, n) {
        OpenedThenSent(log, s, c, boot, next, n);
        SentManyStaysForward(log, t, c, n);
        ForwardRepeatsNothing(SentMany(log, t, c, n).applied);
      }
    } else {
      var n := BelowTheTopRepeats(log, s, c, boot, next);
    }
  }

  /** One stream at a time, each opened within the guard. */
  predicate GuardedRun(log: Log, s: State, actions: seq<Action>)
    decreases |actions|
  {
    actions == [] ||
    (Enabled(s, actions[0])
     && (actions[0].Open? ==> s.streams == map[] && Guarded(s, actions[0].boot, actions[0].next))
     && GuardedRun(log, Step(log, s, actions[0]), actions[1..]))
  }

  ghost predicate AllAhead(s: State) {
    Inv(s) && Forward(s.applied) && forall c :: c in s.streams ==> s.streams.Keys == {c} && Ahead(s, c)
  }

  lemma GuardedStep(log: Log, s: State, a: Action)
    requires AllAhead(s) && Enabled(s, a) && (a.Open? ==> s.streams == map[] && Guarded(s, a.boot, a.next))
    ensures AllAhead(Step(log, s, a))
  {
    StepKeepsInv(log, s, a);
    if a.Deliver? {
      DeliverStep(log, s, a.channel);
      SentStaysAhead(log, s, a.channel);
    }
  }

  /** So a whole run in which every stream opens alone and within the guard applies no frame twice. */
  lemma {:induction false} GuardedRunsRepeatNothing(log: Log, s: State, actions: seq<Action>)
    requires AllAhead(s) && GuardedRun(log, s, actions)
    ensures Play(log, s, actions).Some? && NoneTwice(Play(log, s, actions).value.applied)
    decreases |actions|
  {
    if actions == [] {
      ForwardRepeatsNothing(s.applied);
    } else {
      GuardedStep(log, s, actions[0]);
      GuardedRunsRepeatNothing(log, Step(log, s, actions[0]), actions[1..]);
    }
  }
}
