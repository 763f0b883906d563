/**
 The push stream a tab reopens: numbered frames, resumed after the last one applied.

 A frame's id is `<server boot>-<n>`.  The tab remembers the last frame it applied, sends it as `since`
 when a channel reopens, and drops what it has already applied.  The server's part is one assumption:
 a stream opened with `since` of its own boot starts at or before the frame after it, and sends on in order.
 */
module PushResume {
  import opened Decimals
  import opened Wrappers

  // ---------------------------------------------------------------------------------------------
  // Frame ids

  datatype FrameNumber = FrameNumber(boot: string, n: nat)

  function LastDash(s: string): (at: int)
    ensures -1 <= at < |s|
    ensures at >= 0 ==> s[at] == '-'
    ensures forall i :: at < i < |s| ==> s[i] != '-'
  {
    if s == [] then -1
    else if s[|s| - 1] == '-' then |s| - 1
    else LastDash(s[..|s| - 1])
  }

  function ParseFrameNumber(id: string): Option<FrameNumber> {
    var dash := LastDash(id);
    if dash <= 0 then None
    else
      match NumberOf(id[dash + 1..])
      case None => None
      case Some(n) => Some(FrameNumber(id[..dash], n))
  }

  function Render(f: FrameNumber): string {
    f.boot + "-" + Decimal(f.n)
  }

  /** What `since` carries is read back whole, dashes in the boot included; only an empty boot is not. */
  lemma RenderedFramesParse(f: FrameNumber)
    ensures ParseFrameNumber(Render(f)) == if f.boot == "" then None else Some(f)
  {
    var id, tail := Render(f), Decimal(f.n);
    DecimalReads(f.n);
    assert forall i :: |f.boot| < i < |id| ==> id[i] == tail[i - |f.boot| - 1];
    assert id[|f.boot|] == '-';
    assert LastDash(id) == |f.boot|;
    assert id[|f.boot| + 1..] == tail && id[..|f.boot|] == f.boot;
  }

  lemma DashesAreNoDigits(id: string, dash: nat, at: int)
    requires dash <= at < |id| && id[at] == '-'
    ensures AllDigits(id[dash + 1..]) ==> dash == at
  {
    if dash < at {
      assert id[dash + 1..][at - dash - 1] == '-';
    }
  }

  /** Among decimal spellings nothing else parses: an id is its boot, a dash and digits; no digits at all number it zero. */
  lemma ParsedFramesAreSpelled(id: string)
    ensures ParseFrameNumber(id).Some? <==>
            exists dash :: 0 < dash < |id| && id[dash] == '-' && AllDigits(id[dash + 1..])
    ensures ParseFrameNumber(id).Some? ==>
              var f := ParseFrameNumber(id).value;
              |f.boot| < |id| && AllDigits(id[|f.boot| + 1..]) && id == f.boot + "-" + id[|f.boot| + 1..]
              && f.n == ValueOf(id[|f.boot| + 1..])
  {
    var at := LastDash(id);
    forall dash | 0 < dash < |id| && id[dash] == '-' && AllDigits(id[dash + 1..]) ensures dash == at {
      assert dash <= at;
      DashesAreNoDigits(id, dash, at);
    }
    if at > 0 {
      assert id == id[..at] + "-" + id[at + 1..];
    }
  }

  // ---------------------------------------------------------------------------------------------
  // One message

  /** The last frame after a message, and whether its subscribers are handed it. */
  function Receive(seen: Option<FrameNumber>, keyed: bool, id: string, readable: bool): (Option<FrameNumber>, bool) {
    if !readable then (seen, false)
    else
      match ParseFrameNumber(id)
      case None => (seen, true)
      case Some(f) =>
        if !keyed then (seen, true)
        else if seen.Some? && seen.value.boot == f.boot && f.n <= seen.value.n then (seen, false)
        else (Some(f), true)
  }

  lemma ReceiveFrame(seen: Option<FrameNumber>, f: FrameNumber, readable: bool)
    requires f.boot != ""
    ensures Receive(seen, true, Render(f), readable) ==
            if !readable || (seen.Some? && seen.value.boot == f.boot && f.n <= seen.value.n) then (seen, false)
            else (Some(f), true)
  {
    RenderedFramesParse(f);
  }

  /** Whether what is remembered covers the frame. */
  predicate Covers(seen: Option<FrameNumber>, boot: string, n: nat) {
    seen.Some? && seen.value.boot == boot && n <= seen.value.n
  }

  /**
   A readable message is handed on unless the key remembers its frame or a later one of its boot, so one without a
   number, or on a channel without a key, always is; only a numbered one handed on under a key is remembered.
   */
  lemma HandedUnlessCovered(seen: Option<FrameNumber>, keyed: bool, id: string, readable: bool)
    ensures var (now, handed) := Receive(seen, keyed, id, readable);
            var f := ParseFrameNumber(id);
            && (handed <==> readable && !(keyed && f.Some? && Covers(seen, f.value.boot, f.value.n)))
            && now == if handed && keyed && f.Some? then f else seen
  {
  }

  // ---------------------------------------------------------------------------------------------
  // Channels under one resume key

  /**
   An open stream: the server boot behind it, the number of the frame it sends next, and the frame its key remembered
   when it was opened.
   */
  datatype Stream = Stream(boot: string, next: nat, since: Option<FrameNumber>)

  datatype Applied = Applied(channel: nat, frame: FrameNumber)

  datatype State = State(seen: Option<FrameNumber>, streams: map<nat, Stream>, applied: seq<Applied>)

  datatype Action = Open(channel: nat, boot: string, next: nat) | Deliver(channel: nat) | Drop(channel: nat)

  /** Which frames of each boot are readable JSON. */
  type Log = (string, nat) -> bool

  const Start := State(None, map[], [])

  /** What the address of a stream opened now carries. */
  function SinceOf(seen: Option<FrameNumber>): Option<string> {
    if seen.Some? then Some(Render(seen.value)) else None
  }

  /** The server's part: a stream resumed on the boot its address names starts no later than the frame after. */
  predicate ResumedBy(since: Option<string>, boot: string, next: nat) {
    since.Some? ==>
      var f := ParseFrameNumber(since.value);
      f.Some? && f.value.boot == boot ==> next <= f.value.n + 1
  }

  /** What the address says is what was remembered. */
  lemma ResumedFromTheRemembered(seen: Option<FrameNumber>, boot: string, next: nat)
    requires seen.Some? ==> seen.value.boot != ""
    ensures ResumedBy(SinceOf(seen), boot, next) <==> (seen.Some? && seen.value.boot == boot ==> next <= seen.value.n + 1)
  {
    if seen.Some? { RenderedFramesParse(seen.value); }
  }

  predicate Enabled(s: State, a: Action) {
    match a
    case Open(c, boot, next) => c !in s.streams && boot != "" && ResumedBy(SinceOf(s.seen), boot, next)
    case Deliver(c) => c in s.streams
    case Drop(c) => c in s.streams
  }

  function Step(log: Log, s: State, a: Action): State
    requires Enabled(s, a)
  {
    match a
    case Open(c, boot, next) => s.(streams := s.streams[c := Stream(boot, next, s.seen)])
    case Drop(c) => s.(streams := s.streams - {c})
    case Deliver(c) =>
      var stream := s.streams[c];
      var f := FrameNumber(stream.boot, stream.next);
      var (seen, hand) := Receive(s.seen, true, Render(f), log(f.boot, f.n));
      State(seen, s.streams[c := stream.(next := stream.next + 1)],
            if hand then s.applied + [Applied(c, f)] else s.applied)
  }

  function Play(log: Log, s: State, actions: seq<Action>): Option<State>
    decreases |actions|
  {
    if actions == [] then Some(s)
    else if Enabled(s, actions[0]) then Play(log, Step(log, s, actions[0]), actions[1..])
    else None
  }

  predicate SameBoot(applied: seq<Applied>, i: nat)
    requires i + 1 < |applied|
  {
    applied[i].frame.boot == applied[i + 1].frame.boot
  }

  /** `b` is the next readable frame of the boot after `a`. */
  ghost predicate Follows(log: Log, a: FrameNumber, b: FrameNumber) {
    a.boot == b.boot && a.n < b.n && forall k: nat :: a.n < k < b.n ==> !log(a.boot, k)
  }

  predicate BootsAreNamed(s: State) {
    (forall c :: c in s.streams ==> s.streams[c].boot != "") && (s.seen.Some? ==> s.seen.value.boot != "")
  }

  predicate SeenIsLast(s: State) {
    if s.applied == [] then s.seen.None? else s.seen == Some(s.applied[|s.applied| - 1].frame)
  }

  predicate Increasing(applied: seq<Applied>) {
    forall i: nat :: i + 1 < |applied| && SameBoot(applied, i) ==> applied[i].frame.n < applied[i + 1].frame.n
  }

  predicate Inv(s: State) {
    BootsAreNamed(s) && SeenIsLast(s) && Increasing(s.applied)
  }

  /** One frame sent, told by numbers alone. */
  function Sent(log: Log, s: State, c: nat): State
    requires c in s.streams
  {
    var stream := s.streams[c];
    var f := FrameNumber(stream.boot, stream.next);
    var on := s.streams[c := stream.(next := stream.next + 1)];
    if log(f.boot, f.n) && !Covers(s.seen, f.boot, f.n) then State(Some(f), on, s.applied + [Applied(c, f)])
    else s.(streams := on)
  }

  lemma DeliverStep(log: Log, s: State, c: nat)
    requires BootsAreNamed(s) && c in s.streams
    ensures Step(log, s, Deliver(c)) == Sent(log, s, c)
  {
    var stream := s.streams[c];
    ReceiveFrame(s.seen, FrameNumber(stream.boot, stream.next), log(stream.boot, stream.next));
  }

  lemma SentKeepsInv(log: Log, s: State, c: nat)
    requires Inv(s) && c in s.streams
    ensures Inv(Sent(log, s, c))
  {
  }

  lemma StepKeepsInv(log: Log, s: State, a: Action)
    requires Inv(s) && Enabled(s, a)
    ensures Inv(Step(log, s, a))
  {
    if a.Deliver? {
      DeliverStep(log, s, a.channel);
      SentKeepsInv(log, s, a.channel);
    }
  }

  lemma {:induction false} PlayKeepsInv(log: Log, s: State, actions: seq<Action>)
    requires Inv(s) && Play(log, s, actions).Some?
    ensures Inv(Play(log, s, actions).value)
    decreases |actions|
  {
    if actions != [] {
      StepKeepsInv(log, s, actions[0]);
      PlayKeepsInv(log, Step(log, s, actions[0]), actions[1..]);
    }
  }

  /**
   However many channels share the key and however often they reopen: between two changes of boot the applied
   frames only go forward, so none is applied twice.
   */
  lemma NoFrameIsAppliedTwice(log: Log, actions: seq<Action>, i: nat, j: nat)
    requires Play(log, Start, actions).Some?
    requires i < j < |Play(log, Start, actions).value.applied|
    requires forall k: nat :: i <= k < j ==> SameBoot(Play(log, Start, actions).value.applied, k)
    ensures var applied := Play(log, Start, actions).value.applied;
            applied[i].frame.boot == applied[j].frame.boot && applied[i].frame.n < applied[j].frame.n
  {
    PlayKeepsInv(log, Start, actions);
    Climbs(Play(log, Start, actions).value.applied, i, j);
  }

  lemma {:induction false} Climbs(applied: seq<Applied>, i: nat, j: nat)
    requires Increasing(applied) && i < j < |applied|
    requires forall k: nat :: i <= k < j ==> SameBoot(applied, k)
    ensures applied[i].frame.boot == applied[j].frame.boot && applied[i].frame.n < applied[j].frame.n
    decreases j - i
  {
    assert SameBoot(applied, j - 1);
    if i < j - 1 { Climbs(applied, i, j - 1); }
  }

  // ---------------------------------------------------------------------------------------------
  // One stream at a time: nothing readable is skipped

  /** Every stream opens while no other stream of the key is open, on whatever channel. */
  predicate OneAtATime(log: Log, s: State, actions: seq<Action>)
    decreases |actions|
  {
    actions == [] ||
    (Enabled(s, actions[0]) && (actions[0].Open? ==> s.streams == map[]) && OneAtATime(log, Step(log, s, actions[0]), actions[1..]))
  }

  predicate OnlyChannel(c: nat, actions: seq<Action>) {
    forall i :: 0 <= i < |actions| ==> actions[i].channel == c
  }

  /** One channel's streams are never open together, however often it reopens. */
  lemma {:induction false} OneChannelIsOneAtATime(log: Log, s: State, actions: seq<Action>, c: nat)
    requires s.streams.Keys <= {c} && OnlyChannel(c, actions) && Play(log, s, actions).Some?
    ensures OneAtATime(log, s, actions)
    decreases |actions|
  {
    if actions != [] {
      OneChannelIsOneAtATime(log, Step(log, s, actions[0]), actions[1..], c);
    }
  }

  /** Every frame the stream has passed beyond the last applied one was unreadable. */
  ghost predicate NothingPassed(log: Log, s: State, c: nat) {
    c in s.streams && s.seen.Some? && s.seen.value.boot == s.streams[c].boot ==>
      forall k: nat :: s.seen.value.n < k < s.streams[c].next ==> !log(s.seen.value.boot, k)
  }

  ghost predicate Gapless(log: Log, applied: seq<Applied>) {
    forall i: nat :: i + 1 < |applied| && SameBoot(applied, i) ==> Follows(log, applied[i].frame, applied[i + 1].frame)
  }

  predicate AllReadable(log: Log, applied: seq<Applied>) {
    forall i :: 0 <= i < |applied| ==> log(applied[i].frame.boot, applied[i].frame.n)
  }

  ghost predicate AloneInv(log: Log, s: State, c: nat) {
    && Inv(s) && s.streams.Keys <= {c}
    && NothingPassed(log, s, c) && Gapless(log, s.applied) && AllReadable(log, s.applied)
  }

  lemma AloneStep(log: Log, s: State, a: Action, c: nat)
    requires AloneInv(log, s, c) && Enabled(s, a) && a.channel == c
    ensures AloneInv(log, Step(log, s, a), c)
  {
    StepKeepsInv(log, s, a);
    match a {
      case Deliver(_) =>
        DeliverStep(log, s, c);
        AloneDeliver(log, s, c);
      case Open(_, boot, next) => ResumedFromTheRemembered(s.seen, boot, next);
      case Drop(_) =>
    }
  }

  lemma AloneDeliver(log: Log, s: State, c: nat)
    requires AloneInv(log, s, c) && c in s.streams
    ensures var t := Step(log, s, Deliver(c));
            NothingPassed(log, t, c) && Gapless(log, t.applied) && AllReadable(log, t.applied)
  {
    DeliverStep(log, s, c);
    var stream := s.streams[c];
    var f := FrameNumber(stream.boot, stream.next);
    var t := Step(log, s, Deliver(c));
    assert t.streams[c] == stream.(next := stream.next + 1);
    PassedOne(log, s.seen, f, t.seen);
    if t.applied != s.applied {
      ExtendGapless(log, s.applied, Applied(c, f));
    }
  }

  /** One frame sent: what lies between the last applied frame and the next to send stays unreadable. */
  lemma PassedOne(log: Log, seen: Option<FrameNumber>, f: FrameNumber, now: Option<FrameNumber>)
    requires seen.Some? && seen.value.boot == f.boot ==> forall k: nat :: seen.value.n < k < f.n ==> !log(f.boot, k)
    requires now == if log(f.boot, f.n) && !(seen.Some? && seen.value.boot == f.boot && f.n <= seen.value.n) then Some(f) else seen
    ensures now.Some? && now.value.boot == f.boot ==> forall k: nat :: now.value.n < k < f.n + 1 ==> !log(f.boot, k)
  {
  }

  lemma ExtendGapless(log: Log, applied: seq<Applied>, a: Applied)
    requires Gapless(log, applied)
    requires applied != [] && applied[|applied| - 1].frame.boot == a.frame.boot ==>
               Follows(log, applied[|applied| - 1].frame, a.frame)
    ensures Gapless(log, applied + [a])
  {
    var t := applied + [a];
    forall i: nat | i + 1 < |t| && SameBoot(t, i) ensures Follows(log, t[i].frame, t[i + 1].frame) {
      if i + 1 < |applied| {
        assert SameBoot(applied, i);
      }
    }
  }

  /** Nothing is open between two channels' streams, so the key passes from one to the next. */
  lemma {:induction false} PlayAlone(log: Log, s: State, actions: seq<Action>, c: nat)
    requires AloneInv(log, s, c) && OneAtATime(log, s, actions)
    ensures Play(log, s, actions).Some?
    ensures exists d :: AloneInv(log, Play(log, s, actions).value, d)
    decreases |actions|
  {
    if actions != [] {
      var d := actions[0].channel;
      assert AloneInv(log, s, d);
      AloneStep(log, s, actions[0], d);
      PlayAlone(log, Step(log, s, actions[0]), actions[1..], d);
    } else {
      assert AloneInv(log, s, c);
    }
  }

  /**
   One stream at a time, any number of reconnects, of channels the key passes between and of restarts of the server:
   an applied frame is followed by the boot's next readable frame, or by a frame of another boot.
   */
  lemma ReconnectsSkipNothing(log: Log, actions: seq<Action>)
    requires OneAtATime(log, Start, actions)
    ensures Play(log, Start, actions).Some?
    ensures Gapless(log, Play(log, Start, actions).value.applied)
    ensures AllReadable(log, Play(log, Start, actions).value.applied)
  {
    assert AloneInv(log, Start, 0);
    PlayAlone(log, Start, actions, 0);
  }

  predicate OneBoot(applied: seq<Applied>, boot: string) {
    forall i :: 0 <= i < |applied| ==> applied[i].frame.boot == boot
  }

  predicate Holds(applied: seq<Applied>, n: nat) {
    exists i :: 0 <= i < |applied| && applied[i].frame.n == n
  }

  predicate Contiguous(applied: seq<Applied>) {
    forall i :: 0 <= i < |applied| ==> applied[i].frame.n == applied[0].frame.n + i
  }

  /** On one boot, the applied frames are exactly the readable ones of a stretch of the log. */
  lemma {:induction false} AppliedAreTheReadable(log: Log, applied: seq<Applied>, boot: string, k: nat)
    requires applied != [] && OneBoot(applied, boot) && Gapless(log, applied) && AllReadable(log, applied)
    ensures Holds(applied, k) <==> applied[0].frame.n <= k <= applied[|applied| - 1].frame.n && log(boot, k)
    decreases |applied|
  {
    var n := |applied| - 1;
    var last := applied[n].frame;
    assert Holds(applied, last.n);
    if n > 0 {
      var front := applied[..n];
      assert SameBoot(applied, n - 1);
      assert Follows(log, front[n - 1].frame, last);
      GaplessFront(log, applied);
      AppliedAreTheReadable(log, front, boot, k);
      FrontIsBelow(log, front, boot);
      HoldsLast(applied, k);
    }
  }

  lemma HoldsLast(applied: seq<Applied>, k: nat)
    requires applied != []
    ensures Holds(applied, k) <==> Holds(applied[..|applied| - 1], k) || applied[|applied| - 1].frame.n == k
  {
    var front := applied[..|applied| - 1];
    if Holds(front, k) {
      var i :| 0 <= i < |front| && front[i].frame.n == k;
      assert applied[i].frame.n == k;
    }
    forall i | 0 <= i < |applied| && applied[i].frame.n == k ensures Holds(front, k) || i == |applied| - 1 {
      if i < |front| { assert front[i].frame.n == k; }
    }
  }

  lemma GaplessFront(log: Log, applied: seq<Applied>)
    requires applied != [] && Gapless(log, applied)
    ensures Gapless(log, applied[..|applied| - 1])
  {
    var front := applied[..|applied| - 1];
    forall i: nat | i + 1 < |front| && SameBoot(front, i) ensures Follows(log, front[i].frame, front[i + 1].frame) {
      assert SameBoot(applied, i);
    }
  }

  lemma {:induction false} FrontIsBelow(log: Log, applied: seq<Applied>, boot: string)
    requires applied != [] && OneBoot(applied, boot) && Gapless(log, applied)
    ensures applied[0].frame.n + |applied| - 1 <= applied[|applied| - 1].frame.n
    decreases |applied|
  {
    var n := |applied| - 1;
    if n > 0 {
      GaplessFront(log, applied);
      FrontIsBelow(log, applied[..n], boot);
      assert SameBoot(applied, n - 1);
    }
  }

  /**
   For one boot and one stream at a time the applied frames are a contiguous run of the log exactly when no frame of
   that stretch was unreadable: such a frame is dropped before its number is looked at, and never asked for again.
   */
  lemma ContiguousWhenAllReadable(log: Log, actions: seq<Action>, boot: string)
    requires OneAtATime(log, Start, actions)
    requires Play(log, Start, actions).Some?
    requires var applied := Play(log, Start, actions).value.applied; applied != [] && OneBoot(applied, boot)
    ensures var applied := Play(log, Start, actions).value.applied;
            Contiguous(applied) <==>
            forall k: nat :: applied[0].frame.n <= k <= applied[|applied| - 1].frame.n ==> log(boot, k)
  {
    ReconnectsSkipNothing(log, actions);
    var applied := Play(log, Start, actions).value.applied;
    var lo, hi := applied[0].frame.n, applied[|applied| - 1].frame.n;
    if Contiguous(applied) {
      forall k: nat | lo <= k <= hi ensures log(boot, k) {
        assert applied[k - lo].frame.n == k;
      }
    }
    if forall k: nat :: lo <= k <= hi ==> log(boot, k) {
      NoGapIsContiguous(log, applied, boot);
    }
  }

  lemma {:induction false} NoGapIsContiguous(log: Log, applied: seq<Applied>, boot: string)
    requires applied != [] && OneBoot(applied, boot) && Gapless(log, applied)
    requires forall k: nat :: applied[0].frame.n <= k <= applied[|applied| - 1].frame.n ==> log(boot, k)
    ensures Contiguous(applied)
    decreases |applied|
  {
    var n := |applied| - 1;
    if n > 0 {
      var front := applied[..n];
      assert SameBoot(applied, n - 1);
      var a, b := applied[n - 1].frame, applied[n].frame;
      assert Follows(log, a, b);
      GaplessFront(log, applied);
      FrontIsBelow(log, front, boot);
      assert front[n - 1].frame == a;
      NoGapIsContiguous(log, front, boot);
      assert log(boot, a.n + 1);
      forall i | 0 <= i < |applied| ensures applied[i].frame.n == applied[0].frame.n + i {
        if i < n { assert front[i] == applied[i]; } else { assert front[n - 1].frame.n == front[0].frame.n + (n - 1); }
      }
    }
  }

  /** Two channels under one key do not each get the stream: what one has applied, the other drops. */
  lemma SharedKeyStarvesAChannel(boot: string)
    requires boot != ""
    ensures var log: Log := (b, n) => true;
            var actions := [Open(0, boot, 1), Open(1, boot, 1), Deliver(0), Deliver(1)];
            Play(log, Start, actions).Some? &&
            Play(log, Start, actions).value.applied == [Applied(0, FrameNumber(boot, 1))] &&
            1 in Play(log, Start, actions).value.streams && Play(log, Start, actions).value.streams[1].next == 2
  {
    var log: Log := (b, n) => true;
    var s1 := Step(log, Start, Open(0, boot, 1));
    var s2 := Step(log, s1, Open(1, boot, 1));
    DeliverStep(log, s2, 0);
    var s3 := Step(log, s2, Deliver(0));
    DeliverStep(log, s3, 1);
    var s4 := Step(log, s3, Deliver(1));
    var actions := [Open(0, boot, 1), Open(1, boot, 1), Deliver(0), Deliver(1)];
    assert actions[1..] == [Open(1, boot, 1), Deliver(0), Deliver(1)];
    assert actions[1..][1..] == [Deliver(0), Deliver(1)];
    assert actions[1..][1..][1..] == [Deliver(1)];
    assert Play(log, s4, []) == Some(s4);
    assert Play(log, s3, [Deliver(1)]) == Some(s4);
    assert Play(log, s2, [Deliver(0), Deliver(1)]) == Some(s4);
    assert Play(log, s1, actions[1..]) == Some(s4);
  }

  function Visit(boot: string): seq<Action> {
    [Open(0, boot, 1), Deliver(0), Drop(0)]
  }

  function ThereAndBack(one: string, two: string): seq<Action> {
    Visit(one) + (Visit(two) + [Open(0, one, 1), Deliver(0)])
  }

  /** The boot last seen is the only one remembered: a stream that goes back to an earlier boot may repeat frames. */
  lemma ReturningToABootRepeats(log: Log, one: string, two: string)
    requires one != "" && two != "" && one != two && log(one, 1) && log(two, 1)
    ensures var a, b := Applied(0, FrameNumber(one, 1)), Applied(0, FrameNumber(two, 1));
            Play(log, Start, ThereAndBack(one, two)) == Some(State(Some(a.frame), map[0 := Stream(one, 2, Some(b.frame))], [a, b, a]))
  {
    var a, b := Applied(0, FrameNumber(one, 1)), Applied(0, FrameNumber(two, 1));
    var s1 := State(Some(a.frame), map[], [a]);
    OpenDeliverDrop(log, Start, one);
    assert [] + [a] == [a];
    PlayInParts(log, Start, Visit(one), Visit(two) + [Open(0, one, 1), Deliver(0)]);
    ThenBack(log, one, two, a, b, s1);
  }

  lemma ThenBack(log: Log, one: string, two: string, a: Applied, b: Applied, s: State)
    requires one != "" && two != "" && one != two && log(one, 1) && log(two, 1)
    requires a == Applied(0, FrameNumber(one, 1)) && b == Applied(0, FrameNumber(two, 1))
    requires s == State(Some(a.frame), map[], [a])
    ensures Play(log, s, Visit(two) + [Open(0, one, 1), Deliver(0)]) ==
            Some(State(Some(a.frame), map[0 := Stream(one, 2, Some(b.frame))], [a, b, a]))
  {
    OpenDeliverDrop(log, s, two);
    assert [a] + [b] == [a, b] && [a, b] + [a] == [a, b, a];
    var t := State(Some(b.frame), map[], [a, b]);
    OpenDeliver(log, t, one);
    PlayInParts(log, s, Visit(two), [Open(0, one, 1), Deliver(0)]);
  }

  lemma OpenDeliver(log: Log, s: State, boot: string)
    requires s.streams == map[] && boot != "" && log(boot, 1)
    requires s.seen.Some? ==> s.seen.value.boot != boot && s.seen.value.boot != ""
    ensures Play(log, s, [Open(0, boot, 1), Deliver(0)]) ==
            Some(State(Some(FrameNumber(boot, 1)), map[0 := Stream(boot, 2, s.seen)], s.applied + [Applied(0, FrameNumber(boot, 1))]))
  {
    var visit := [Open(0, boot, 1), Deliver(0)];
    var s1 := Step(log, s, visit[0]);
    DeliverStep(log, s1, 0);
    var s2 := Step(log, s1, visit[1]);
    assert visit[1..] == [Deliver(0)] && visit[1..][1..] == [];
    assert Play(log, s2, []) == Some(s2);
    assert Play(log, s1, visit[1..]) == Some(s2);
    assert s2.streams == map[0 := Stream(boot, 2, s.seen)];
  }

  lemma OpenDeliverDrop(log: Log, s: State, boot: string)
    requires s.streams == map[] && boot != "" && log(boot, 1)
    requires s.seen.Some? ==> s.seen.value.boot != boot && s.seen.value.boot != ""
    ensures Play(log, s, Visit(boot)) ==
            Some(State(Some(FrameNumber(boot, 1)), map[], s.applied + [Applied(0, FrameNumber(boot, 1))]))
  {
    var visit := [Open(0, boot, 1), Deliver(0)];
    OpenDeliver(log, s, boot);
    var t := Play(log, s, visit).value;
    PlayInParts(log, s, visit, [Drop(0)]);
    assert visit + [Drop(0)] == Visit(boot);
    assert Play(log, Step(log, t, Drop(0)), []) == Some(Step(log, t, Drop(0)));
    assert t.streams - {0} == map[];
  }

  /** Three frames sent, the second unreadable: the first and the third are applied, and the second never is. */
  lemma AnUnreadableFrameLeavesAGap(log: Log, boot: string)
    requires boot != "" && log(boot, 1) && !log(boot, 2) && log(boot, 3)
    ensures var a, b := Applied(0, FrameNumber(boot, 1)), Applied(0, FrameNumber(boot, 3));
            && Play(log, Start, [Open(0, boot, 1), Deliver(0)] + [Deliver(0), Deliver(0)]) ==
               Some(State(Some(b.frame), map[0 := Stream(boot, 4, None)], [a, b]))
            && !Contiguous([a, b])
  {
    var a, b := Applied(0, FrameNumber(boot, 1)), Applied(0, FrameNumber(boot, 3));
    var s := State(Some(a.frame), map[0 := Stream(boot, 2, None)], [a]);
    OpenDeliver(log, Start, boot);
    assert [] + [a] == [a];
    SkipAndSend(log, s, boot, a, b);
    PlayInParts(log, Start, [Open(0, boot, 1), Deliver(0)], [Deliver(0), Deliver(0)]);
    assert [a, b][1].frame.n == 3;
  }

  lemma SkipAndSend(log: Log, s: State, boot: string, a: Applied, b: Applied)
    requires boot != "" && !log(boot, 2) && log(boot, 3)
    requires a == Applied(0, FrameNumber(boot, 1)) && b == Applied(0, FrameNumber(boot, 3))
    requires s == State(Some(a.frame), map[0 := Stream(boot, 2, None)], [a])
    ensures Play(log, s, [Deliver(0), Deliver(0)]) == Some(State(Some(b.frame), map[0 := Stream(boot, 4, None)], [a, b]))
  {
    DeliverStep(log, s, 0);
    var t := Step(log, s, Deliver(0));
    assert t == State(Some(a.frame), map[0 := Stream(boot, 3, None)], [a]);
    DeliverStep(log, t, 0);
    var u := Step(log, t, Deliver(0));
    assert [a] + [b] == [a, b];
    assert u == State(Some(b.frame), map[0 := Stream(boot, 4, None)], [a, b]);
    assert Play(log, u, []) == Some(u);
    assert [Deliver(0), Deliver(0)][1..] == [Deliver(0)];
    assert Play(log, t, [Deliver(0)]) == Some(u);
  }

  lemma {:induction false} PlayInParts(log: Log, s: State, a: seq<Action>, b: seq<Action>)
    requires Play(log, s, a).Some?
    ensures Play(log, s, a + b) == Play(log, Play(log, s, a).value, b)
    decreases |a|
  {
    if a == [] {
      assert a + b == b;
    } else {
      assert (a + b)[1..] == a[1..] + b;
      PlayInParts(log, Step(log, s, a[0]), a[1..], b);
    }
  }

  // ---------------------------------------------------------------------------------------------
  // The shared channel

  datatype Handed = Handed(subscriber: nat, envelope: string)

  function HandAll(subscribers: seq<nat>, envelope: string): seq<Handed> {
    seq(|subscribers|, i requires 0 <= i < |subscribers| => Handed(subscribers[i], envelope))
  }

  /** One shared channel with its key's remembered frame; `handed` is every call made to a subscriber. */
  class PushChannel {
    const keyed: bool
    var lastFrame: Option<FrameNumber>
    var subscribers: seq<nat>
    var closed: bool
    ghost var handed: seq<Handed>

    /** A remembered frame has a boot's name. */
    ghost predicate Named()
      reads `lastFrame
    {
      lastFrame.Some? ==> lastFrame.value.boot != ""
    }

    constructor (keyed: bool, first: nat)
      ensures this.keyed == keyed && lastFrame.None? && subscribers == [first] && !closed && handed == []
    {
      this.keyed := keyed;
      lastFrame := None;
      subscribers := [first];
      closed := false;
      handed := [];
    }

    /** The address a reopened stream is given reads back as the remembered frame, and binds the server by it alone. */
    method Since() returns (since: Option<string>)
      requires Named()
      ensures since.Some? <==> keyed && lastFrame.Some?
      ensures since.Some? ==> ParseFrameNumber(since.value) == lastFrame
      ensures keyed ==> forall boot, next: nat ::
                ResumedBy(since, boot, next) <==> (lastFrame.Some? && lastFrame.value.boot == boot ==> next <= lastFrame.value.n + 1)
    {
      since := if keyed && lastFrame.Some? then Some(Render(lastFrame.value)) else None;
      if since.Some? { RenderedFramesParse(lastFrame.value); }
    }

    /** A message; `parsed` is none when its data is not JSON. */
    method OnMessage(id: string, parsed: Option<string>)
      requires Named()
      modifies `lastFrame, `handed
      ensures Named()
      ensures lastFrame == Receive(old(lastFrame), keyed, id, parsed.Some?).0
      ensures handed == old(handed) +
                        if Receive(old(lastFrame), keyed, id, parsed.Some?).1 then HandAll(subscribers, parsed.value) else []
    {
      if parsed.None? { return; }
      var number := ParseFrameNumber(id);
      if number.Some? && keyed {
        var seen := lastFrame;
        if seen.Some? && seen.value.boot == number.value.boot && number.value.n <= seen.value.n { return; }
        lastFrame := number;
      }
      for i := 0 to |subscribers|
        invariant handed == old(handed) + HandAll(subscribers, parsed.value)[..i]
      {
        handed := handed + [Handed(subscribers[i], parsed.value)];
      }
    }

    /** The last subscriber to leave closes the channel; it never reopens. */
    method Unsubscribe(id: nat)
      requires forall i, j :: 0 <= i < j < |subscribers| ==> subscribers[i] != subscribers[j]
      modifies `subscribers, `closed
      ensures forall s :: s in subscribers <==> s in old(subscribers) && s != id
      ensures forall i, j :: 0 <= i < j < |subscribers| ==> subscribers[i] != subscribers[j]
      ensures closed == (old(closed) || subscribers == [])
    {
      var i := 0;
      while i < |subscribers| && subscribers[i] != id
        invariant 0 <= i <= |subscribers|
        invariant forall j :: 0 <= j < i ==> subscribers[j] != id
      {
        i := i + 1;
      }
      if i < |subscribers| { subscribers := subscribers[..i] + subscribers[i + 1..]; }
      if subscribers == [] { closed := true; }
    }
  }
}
