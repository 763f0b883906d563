/**
 Several streams under one resume key: when a channel goes without frames, and when a frame is applied twice.

 Both turn on what the key remembers, which is one frame of one boot.
 */
module PushStreams {
  import opened Wrappers
  import opened PushResume

  // ---------------------------------------------------------------------------------------------
  // Repeated deliveries

  function Times(a: Action, n: nat): seq<Action> {
    seq(n, i requires 0 <= i < n => a)
  }

  /** The state after the stream of channel `c` has sent `n` frames. */
  function SentMany(log: Log, s: State, c: nat, n: nat): (t: State)
    requires c in s.streams
    ensures t.streams.Keys == s.streams.Keys
    decreases n
  {
    if n == 0 then s else SentMany(log, Sent(log, s, c), c, n - 1)
  }

  lemma NamedStay(log: Log, s: State, c: nat)
    requires BootsAreNamed(s) && c in s.streams
    ensures BootsAreNamed(Sent(log, s, c))
  {
  }

  lemma {:induction false} SentManyIs(log: Log, s: State, c: nat, n: nat)
    requires BootsAreNamed(s) && c in s.streams
    ensures Play(log, s, Times(Deliver(c), n)) == Some(SentMany(log, s, c, n)) && BootsAreNamed(SentMany(log, s, c, n))
    decreases n
  {
    if n > 0 {
      assert Times(Deliver(c), n)[1..] == Times(Deliver(c), n - 1);
      DeliverStep(log, s, c);
      NamedStay(log, s, c);
      SentManyIs(log, Sent(log, s, c), c, n - 1);
    }
  }

  /** Sending moves only that stream, and only adds to what was applied. */
  lemma {:induction false} SentManyMoves(log: Log, s: State, c: nat, n: nat)
    requires c in s.streams
    ensures var t := SentMany(log, s, c, n);
            t.streams == s.streams[c := s.streams[c].(next := s.streams[c].next + n)] && s.applied <= t.applied
    decreases n
  {
    if n == 0 {
      assert s.streams[c := s.streams[c]] == s.streams;
    } else {
      SentManyMoves(log, Sent(log, s, c), c, n - 1);
    }
  }

  /** The key remembers nothing of the boot at or above `top`. */
  predicate Below(seen: Option<FrameNumber>, boot: string, top: nat) {
    seen.Some? && seen.value.boot == boot ==> seen.value.n < top
  }

  lemma {:induction false} SentManyStaysBelow(log: Log, s: State, c: nat, n: nat, top: nat)
    requires c in s.streams && s.streams[c].next + n <= top && Below(s.seen, s.streams[c].boot, top)
    ensures Below(SentMany(log, s, c, n).seen, s.streams[c].boot, top)
    decreases n
  {
    if n > 0 { SentManyStaysBelow(log, Sent(log, s, c), c, n - 1, top); }
  }

  /** A stream behind a remembered frame of its boot is sent nothing but frames that are dropped. */
  lemma {:induction false} SentManyBehind(log: Log, s: State, c: nat, n: nat)
    requires c in s.streams && s.seen.Some? && s.seen.value.boot == s.streams[c].boot
    requires s.streams[c].next + n <= s.seen.value.n + 1
    ensures SentMany(log, s, c, n).seen == s.seen && SentMany(log, s, c, n).applied == s.applied
    decreases n
  {
    if n > 0 { SentManyBehind(log, Sent(log, s, c), c, n - 1); }
  }

  lemma {:induction false} SentManyLast(log: Log, s: State, c: nat, n: nat)
    requires c in s.streams
    ensures SentMany(log, s, c, n + 1) == Sent(log, SentMany(log, s, c, n), c)
    decreases n
  {
    if n > 0 { SentManyLast(log, Sent(log, s, c), c, n - 1); }
  }

  /** A readable frame above what is remembered of its boot is applied when its turn comes. */
  lemma SentThrough(log: Log, s: State, c: nat, m: nat, n: nat) returns (before: State)
    requires c in s.streams && s.streams[c].next + n == m && log(s.streams[c].boot, m) && Below(s.seen, s.streams[c].boot, m)
    ensures var f := FrameNumber(s.streams[c].boot, m);
            var after := SentMany(log, s, c, n + 1);
            after.seen == Some(f) && after.applied == before.applied + [Applied(c, f)] && s.applied <= before.applied
  {
    before := SentMany(log, s, c, n);
    SentManyMoves(log, s, c, n);
    SentManyStaysBelow(log, s, c, n, m);
    SentManyLast(log, s, c, n);
  }

  // ---------------------------------------------------------------------------------------------
  // Streams that starve

  /** The next frame of the stream is readable and would be dropped, though its channel opened without it. */
  predicate Starves(log: Log, s: State, c: nat) {
    c in s.streams &&
    var stream := s.streams[c];
    && log(stream.boot, stream.next)
    && s.seen.Some? && s.seen.value.boot == stream.boot && stream.next <= s.seen.value.n
    && !(stream.since.Some? && stream.since.value.boot == stream.boot && stream.next <= stream.since.value.n)
  }

  /** The stream is up with all that was applied since it opened. */
  predicate Caught(s: State, c: nat)
    requires c in s.streams
  {
    var stream := s.streams[c];
    s.seen.Some? && s.seen.value.boot == stream.boot ==> s.seen == stream.since || s.seen.value.n < stream.next
  }

  predicate AllCaught(s: State) {
    BootsAreNamed(s) && forall c :: c in s.streams ==> Caught(s, c)
  }

  lemma LoneStepKeepsUp(log: Log, s: State, a: Action, c: nat)
    requires AllCaught(s) && s.streams.Keys <= {c} && Enabled(s, a) && a.channel == c
    ensures AllCaught(Step(log, s, a)) && Step(log, s, a).streams.Keys <= {c}
  {
    if a.Deliver? { DeliverStep(log, s, c); }
  }

  lemma {:induction false} LoneRunKeepsUp(log: Log, s: State, actions: seq<Action>, c: nat)
    requires AllCaught(s) && s.streams.Keys <= {c} && OneAtATime(log, s, actions)
    ensures Play(log, s, actions).Some? && AllCaught(Play(log, s, actions).value)
    decreases |actions|
  {
    if actions != [] {
      var d := actions[0].channel;
      LoneStepKeepsUp(log, s, actions[0], d);
      LoneRunKeepsUp(log, Step(log, s, actions[0]), actions[1..], d);
    }
  }

  /** With one stream of the key open at a time, channels taking turns included, no stream is ever starved. */
  lemma OneStreamAtATimeStarvesNobody(log: Log, actions: seq<Action>, c: nat)
    requires OneAtATime(log, Start, actions)
    ensures Play(log, Start, actions).Some? && !Starves(log, Play(log, Start, actions).value, c)
  {
    LoneRunKeepsUp(log, Start, actions, 0);
  }

  /** The boot never stops having readable frames. */
  ghost predicate Endless(log: Log, boot: string) {
    forall n: nat :: ReadableFrom(log, boot, n)
  }

  ghost predicate ReadableFrom(log: Log, boot: string, n: nat) {
    exists m: nat :: NextReadable(log, boot, n, m)
  }

  predicate NextReadable(log: Log, boot: string, n: nat, m: nat) {
    n <= m && log(boot, m)
  }

  /** The run keeps to these channels: they may reconnect, but no other opens. */
  predicate KeepsTo(channels: set<nat>, actions: seq<Action>) {
    forall i :: 0 <= i < |actions| ==> actions[i].channel in channels
  }

  /** What one channel does to another's stream: it reconnects to the same boot and runs ahead to frame `m`. */
  function RunAhead(s: State, c: nat, d: nat, m: nat): seq<Action>
    requires d in s.streams && s.streams[d].next <= m
  {
    [Drop(c)] + ([Open(c, s.streams[d].boot, 0)] + (Times(Deliver(c), m + 1) + Times(Deliver(d), m - s.streams[d].next)))
  }

  lemma PlayFirst(log: Log, s: State, a: Action, rest: seq<Action>)
    requires Enabled(s, a)
    ensures Play(log, s, [a] + rest) == Play(log, Step(log, s, a), rest)
  {
    assert ([a] + rest)[1..] == rest;
  }

  lemma Reconnected(log: Log, s: State, c: nat, boot: string)
    requires BootsAreNamed(s) && c in s.streams && boot != ""
    ensures var t := Step(log, s, Drop(c));
            Enabled(s, Drop(c)) && Enabled(t, Open(c, boot, 0)) &&
            Step(log, t, Open(c, boot, 0)) == s.(streams := s.streams[c := Stream(boot, 0, s.seen)])
  {
    ResumedFromTheRemembered(s.seen, boot, 0);
    assert (s.streams - {c})[c := Stream(boot, 0, s.seen)] == s.streams[c := Stream(boot, 0, s.seen)];
  }

  lemma RunsThrough(log: Log, s: State, c: nat, d: nat, m: nat, n: nat) returns (u: State)
    requires BootsAreNamed(s) && c in s.streams && d in s.streams && c != d
    requires s.streams[c].next + n == m
    requires log(s.streams[c].boot, m) && Below(s.seen, s.streams[c].boot, m)
    ensures u == SentMany(log, s, c, n + 1) && BootsAreNamed(u)
    ensures u.seen == Some(FrameNumber(s.streams[c].boot, m)) && d in u.streams && u.streams[d] == s.streams[d]
  {
    var up := n + 1;
    u := SentMany(log, s, c, up);
    var before := SentThrough(log, s, c, m, n);
    SentManyMoves(log, s, c, up);
    SentManyIs(log, s, c, up);
  }

  lemma ComesUp(log: Log, u: State, d: nat, m: nat, n: nat) returns (t: State)
    requires BootsAreNamed(u) && d in u.streams && u.streams[d].next + n == m && u.seen == Some(FrameNumber(u.streams[d].boot, m))
    ensures t == SentMany(log, u, d, n)
    ensures t.seen == u.seen && d in t.streams && t.streams[d] == u.streams[d].(next := m)
  {
    t := SentMany(log, u, d, n);
    SentManyBehind(log, u, d, n);
    SentManyMoves(log, u, d, n);
  }

  /** One stream runs through frame `m` and another of its boot comes up to it. */
  lemma ComesUpBehind(log: Log, s: State, c: nat, d: nat, m: nat, n: nat, k: nat) returns (t: State)
    requires BootsAreNamed(s) && c in s.streams && d in s.streams && c != d && s.streams[c].boot == s.streams[d].boot
    requires s.streams[c].next + n == m && s.streams[d].next + k == m
    requires log(s.streams[d].boot, m) && Below(s.seen, s.streams[d].boot, m)
    ensures Play(log, s, Times(Deliver(c), n + 1) + Times(Deliver(d), k)) == Some(t)
    ensures d in t.streams && t.streams[d] == s.streams[d].(next := m) && t.seen == Some(FrameNumber(s.streams[d].boot, m))
  {
    PlayTwice(log, s, c, n + 1, d, k);
    var u := RunsThrough(log, s, c, d, m, n);
    t := ComesUp(log, u, d, m, k);
  }

  lemma PlayTwice(log: Log, s: State, c: nat, n: nat, d: nat, m: nat)
    requires BootsAreNamed(s) && c in s.streams && d in s.streams
    ensures var u := SentMany(log, s, c, n);
            Play(log, s, Times(Deliver(c), n) + Times(Deliver(d), m)) == Some(SentMany(log, u, d, m))
  {
    SentManyIs(log, s, c, n);
    PlayInParts(log, s, Times(Deliver(c), n), Times(Deliver(d), m));
    SentManyIs(log, SentMany(log, s, c, n), d, m);
  }

  /** After it, the other stream's frame `m` is dropped though its channel never had it. */
  lemma RunningAheadStarves(log: Log, s: State, c: nat, d: nat, m: nat)
    requires BootsAreNamed(s) && c in s.streams && d in s.streams && c != d
    requires s.streams[d].next <= m && log(s.streams[d].boot, m)
    requires Below(s.seen, s.streams[d].boot, m) && Below(s.streams[d].since, s.streams[d].boot, m)
    ensures Play(log, s, RunAhead(s, c, d, m)).Some? && Starves(log, Play(log, s, RunAhead(s, c, d, m)).value, d)
  {
    var stream := s.streams[d];
    var both := Times(Deliver(c), m + 1) + Times(Deliver(d), m - stream.next);
    var joined := s.(streams := s.streams[c := Stream(stream.boot, 0, s.seen)]);
    Reconnected(log, s, c, stream.boot);
    PlayFirst(log, s, Drop(c), [Open(c, stream.boot, 0)] + both);
    PlayFirst(log, Step(log, s, Drop(c)), Open(c, stream.boot, 0), both);
    var t := ComesUpBehind(log, joined, c, d, m, m, m - stream.next);
    assert Play(log, s, RunAhead(s, c, d, m)) == Some(t);
  }

  /** Two streams of one key can always be brought to starve one of them. */
  lemma TwoStreamsCanStarve(log: Log, s: State, c: nat, d: nat) returns (rest: seq<Action>)
    requires BootsAreNamed(s) && c in s.streams && d in s.streams && c != d && Endless(log, s.streams[d].boot)
    ensures KeepsTo(s.streams.Keys, rest) && Play(log, s, rest).Some? && Starves(log, Play(log, s, rest).value, d)
  {
    var stream := s.streams[d];
    var high := stream.next + (if s.seen.Some? then s.seen.value.n + 1 else 0) + if stream.since.Some? then stream.since.value.n + 1 else 0;
    assert ReadableFrom(log, stream.boot, high);
    var m: nat :| NextReadable(log, stream.boot, high, m);
    RunningAheadStarves(log, s, c, d, m);
    rest := RunAhead(s, c, d, m);
  }

  lemma {:induction false} LoneChannelRuns(log: Log, s: State, rest: seq<Action>, c: nat)
    requires s.streams.Keys <= {c} && KeepsTo({c}, rest) && Play(log, s, rest).Some?
    ensures OneAtATime(log, s, rest)
  {
    OneChannelIsOneAtATime(log, s, rest, c);
  }

  ghost predicate CanStarve(log: Log, s: State) {
    exists rest, d :: StarvesAfter(log, s, rest, d)
  }

  ghost predicate StarvesAfter(log: Log, s: State, rest: seq<Action>, d: nat) {
    KeepsTo(s.streams.Keys, rest) && Play(log, s, rest).Some? && Starves(log, Play(log, s, rest).value, d)
  }

  predicate Shared(s: State) {
    exists c, d :: c in s.streams && d in s.streams && c != d
  }

  /**
   The key's open channels, all up with what was applied, can come to starve one another exactly when there is more
   than one of them.
   */
  lemma StarvesExactlyWhenShared(log: Log, s: State)
    requires AllCaught(s) && forall c :: c in s.streams ==> Endless(log, s.streams[c].boot)
    ensures CanStarve(log, s) <==> Shared(s)
  {
    if Shared(s) {
      var c, d :| c in s.streams && d in s.streams && c != d;
      var rest := TwoStreamsCanStarve(log, s, c, d);
      assert StarvesAfter(log, s, rest, d);
    } else {
      forall rest, d ensures !StarvesAfter(log, s, rest, d) {
        LoneNeverStarves(log, s, rest, d);
      }
    }
  }

  lemma LoneNeverStarves(log: Log, s: State, rest: seq<Action>, d: nat)
    requires AllCaught(s) && !Shared(s)
    ensures !StarvesAfter(log, s, rest, d)
  {
    if KeepsTo(s.streams.Keys, rest) && Play(log, s, rest).Some? {
      var c := LoneKey(s);
      if rest == [] {
        assert Play(log, s, rest) == Some(s);
      } else {
        assert rest[0].channel in s.streams;
        LoneChannelRuns(log, s, rest, c);
        LoneRunKeepsUp(log, s, rest, c);
      }
    }
  }

  lemma LoneKey(s: State) returns (c: nat)
    requires !Shared(s)
    ensures s.streams.Keys <= {c}
  {
    if d: nat :| d in s.streams {
      c := d;
    } else {
      c := 0;
    }
  }
}
