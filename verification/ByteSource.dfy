/**
 Bytes a stream delivers, held until a read asks for them; a buffer above the high-water mark pauses
 the stream.  Reads are served one at a time, in the order they were asked for.
 */
module ByteSource {
  import opened Wrappers

  type Bytes = seq<bv8>

  datatype Request = Request(want: nat, timeout: Option<int>)

  datatype Outcome = Data(data: Bytes) | Timeout | Failure

  datatype Answer = Answer(request: Request, outcome: Outcome)

  /** The read under way: its deadline, and whether it sleeps until the stream or the clock wakes it. */
  datatype Reader = Waiting | Reading(deadline: Option<int>, parked: bool)

  /** `delivered`, `calls` and `answers` record the run: every byte that came in, every read asked and answered. */
  datatype Source = Source(
    chunks: seq<Bytes>, held: int, highWater: nat, paused: bool, ended: bool, failed: bool,
    queue: seq<Request>, reader: Reader,
    delivered: Bytes, calls: seq<Request>, answers: seq<Answer>)

  datatype Action =
    | Deliver(chunk: Bytes)  // the stream hands over a chunk
    | Finish                 // `end` or `close`
    | Break                  // `error`
    | Call(request: Request) // a read is asked for
    | Begin(now: int)        // its turn comes
    | Poll(now: int)         // one round of its loop

  function Fresh(highWater: nat): Source {
    Source([], 0, highWater, false, false, false, [], Waiting, [], [], [])
  }

  function Flatten(chunks: seq<Bytes>): Bytes {
    if chunks == [] then [] else chunks[0] + Flatten(chunks[1..])
  }

  /** The chunks without their first `n` bytes. */
  function Drop(chunks: seq<Bytes>, n: nat): seq<Bytes> {
    if n == 0 || chunks == [] then chunks
    else if |chunks[0]| <= n then Drop(chunks[1..], n - |chunks[0]|)
    else [chunks[0][n..]] + chunks[1..]
  }

  function Min(a: nat, b: nat): nat {
    if a <= b then a else b
  }

  function Wake(r: Reader): Reader {
    if r.Reading? then r.(parked := false) else r
  }

  predicate Enabled(s: Source, a: Action) {
    match a
    case Begin(_) => s.queue != [] && s.reader.Waiting?
    case Poll(_) => s.queue != [] && s.reader.Reading?
    case _ => true
  }

  function Reply(s: Source, outcome: Outcome): Source
    requires s.queue != []
  {
    s.(queue := s.queue[1..], reader := Waiting, answers := s.answers + [Answer(s.queue[0], outcome)])
  }

  function Step(s: Source, a: Action): Source
    requires Enabled(s, a)
  {
    match a
    case Deliver(chunk) =>
      s.(chunks := s.chunks + [chunk], held := s.held + |chunk|, paused := s.paused || s.held + |chunk| > s.highWater,
         reader := Wake(s.reader), delivered := s.delivered + chunk)
    case Finish => s.(ended := true, reader := Wake(s.reader))
    case Break => s.(failed := true, reader := Wake(s.reader))
    case Call(request) => s.(queue := s.queue + [request], calls := s.calls + [request])
    case Begin(now) =>
      var timeout := s.queue[0].timeout;
      s.(reader := Reading(if timeout.Some? then Some(now + timeout.value) else None, false))
    case Poll(now) =>
      var want := s.queue[0].want;
      if want == 0 then Reply(s, Data([]))
      else if s.held > 0 then
        var n := Min(want, |Flatten(s.chunks)|);
        var left := s.held - n;
        Reply(s.(chunks := Drop(s.chunks, want), held := left, paused := s.paused && left > s.highWater),
              Data(Flatten(s.chunks)[..n]))
      else if s.failed then Reply(s, Failure)
      else if s.ended then Reply(s, Data([]))
      else if s.reader.deadline.Some? && s.reader.deadline.value <= now then Reply(s, Timeout)
      else s.(reader := s.reader.(parked := true))
  }

  // ---------------------------------------------------------------------------------------------

  lemma {:induction false} FlattenAppend(chunks: seq<Bytes>, chunk: Bytes)
    ensures Flatten(chunks + [chunk]) == Flatten(chunks) + chunk
    decreases |chunks|
  {
    if chunks == [] {
      assert chunks + [chunk] == [chunk];
    } else {
      FlattenAppend(chunks[1..], chunk);
      assert (chunks + [chunk])[1..] == chunks[1..] + [chunk];
    }
  }

  lemma DropPast(first: Bytes, rest: Bytes, n: nat)
    requires |first| <= n <= |first| + |rest|
    ensures (first + rest)[n..] == rest[n - |first|..]
  {
  }

  lemma DropWithin(first: Bytes, rest: Bytes, n: nat)
    requires n <= |first|
    ensures (first + rest)[n..] == first[n..] + rest
  {
  }

  lemma {:induction false} FlattenDrop(chunks: seq<Bytes>, n: nat)
    ensures Flatten(Drop(chunks, n)) == Flatten(chunks)[Min(n, |Flatten(chunks)|)..]
    decreases |chunks|
  {
    if n > 0 && chunks != [] {
      var first, later := chunks[0], chunks[1..];
      var rest := Flatten(later);
      if |first| <= n {
        var left: nat := n - |first|;
        FlattenDrop(later, left);
        DropPast(first, rest, Min(n, |first + rest|));
      } else {
        DropWithin(first, rest, n);
        assert ([first[n..]] + later)[1..] == later;
      }
    }
  }

  /** What the reads handed out, in the order they were answered. */
  function Handed(answers: seq<Answer>): Bytes {
    if answers == [] then []
    else
      var last := answers[|answers| - 1].outcome;
      Handed(answers[..|answers| - 1]) + if last.Data? then last.data else []
  }

  function Requests(answers: seq<Answer>): (r: seq<Request>)
    ensures |r| == |answers|
  {
    seq(|answers|, i requires 0 <= i < |answers| => answers[i].request)
  }

  /** Each answer is one its request allows. */
  ghost predicate AnswerOk(a: Answer) {
    && (a.outcome.Data? ==> |a.outcome.data| <= a.request.want)
    && (a.outcome.Timeout? ==> a.request.timeout.Some?)
  }

  ghost predicate Inv(s: Source) {
    && s.held == |Flatten(s.chunks)|
    && (s.paused <==> s.held > s.highWater)
    // conservation
    && s.delivered == Handed(s.answers) + Flatten(s.chunks)
    // reads are answered in call order
    && s.calls == Requests(s.answers) + s.queue
    && (forall i :: 0 <= i < |s.answers| ==> AnswerOk(s.answers[i]))
    && (s.reader.Reading? ==> s.queue != [])
    && (s.reader.Reading? && s.reader.deadline.Some? ==> s.queue[0].timeout.Some?)
    // a sleeping read has nothing to take
    && (s.reader.Reading? && s.reader.parked ==> s.held == 0 && !s.failed && !s.ended)
  }

  lemma ReplyKeepsOrder(s: Source, outcome: Outcome)
    requires s.queue != [] && s.calls == Requests(s.answers) + s.queue
    ensures var r := Reply(s, outcome);
            && r.calls == Requests(r.answers) + r.queue
            && Handed(r.answers) == Handed(s.answers) + if outcome.Data? then outcome.data else []
  {
    var r := Reply(s, outcome);
    assert r.answers[..|r.answers| - 1] == s.answers;
    assert Requests(r.answers) == Requests(s.answers) + [s.queue[0]];
  }

  lemma ReplyKeepsInv(s: Source, outcome: Outcome)
    requires Inv(s) && s.queue != [] && s.reader.Reading? && AnswerOk(Answer(s.queue[0], outcome))
    requires outcome.Data? ==> outcome.data == []
    ensures Inv(Reply(s, outcome))
  {
    ReplyKeepsOrder(s, outcome);
    assert Handed(s.answers) + [] == Handed(s.answers);
  }

  lemma DataKeepsInv(s: Source, now: int)
    requires Inv(s) && Enabled(s, Poll(now)) && s.queue[0].want > 0 && s.held > 0
    ensures Inv(Step(s, Poll(now)))
  {
    var want := s.queue[0].want;
    var all := Flatten(s.chunks);
    var n := Min(want, |all|);
    FlattenDrop(s.chunks, want);
    var t := s.(chunks := Drop(s.chunks, want), held := s.held - n, paused := s.paused && s.held - n > s.highWater);
    ReplyKeepsOrder(t, Data(all[..n]));
    SplitAt(Handed(s.answers), all, n);
  }

  lemma SplitAt(front: Bytes, all: Bytes, n: nat)
    requires n <= |all|
    ensures front + all == (front + all[..n]) + all[n..]
  {
  }

  lemma PollKeepsInv(s: Source, now: int)
    requires Inv(s) && Enabled(s, Poll(now))
    ensures Inv(Step(s, Poll(now)))
  {
    if s.queue[0].want == 0 {
      ReplyKeepsInv(s, Data([]));
    } else if s.held > 0 {
      DataKeepsInv(s, now);
    } else if s.failed {
      ReplyKeepsInv(s, Failure);
    } else if s.ended {
      ReplyKeepsInv(s, Data([]));
    } else if s.reader.deadline.Some? && s.reader.deadline.value <= now {
      ReplyKeepsInv(s, Timeout);
    }
  }

  lemma StepKeepsInv(s: Source, a: Action)
    requires Inv(s) && Enabled(s, a)
    ensures Inv(Step(s, a))
  {
    match a {
      case Deliver(chunk) => FlattenAppend(s.chunks, chunk);
      case Poll(now) => PollKeepsInv(s, now);
      case _ =>
    }
  }

  function After(s: Source, a: Action): (n: Source)
    requires Inv(s)
    ensures Inv(n)
  {
    if Enabled(s, a) then StepKeepsInv(s, a); Step(s, a) else s
  }

  function Play(s: Source, actions: seq<Action>): (n: Source)
    requires Inv(s)
    ensures Inv(n)
    decreases |actions|
  {
    if actions == [] then s else Play(After(s, actions[0]), actions[1..])
  }

  /** The bytes of the chunks a run delivers. */
  function DeliveredBy(actions: seq<Action>): Bytes {
    if actions == [] then [] else (if actions[0].Deliver? then actions[0].chunk else []) + DeliveredBy(actions[1..])
  }

  /** The reads a run asks for. */
  function CalledBy(actions: seq<Action>): seq<Request> {
    if actions == [] then [] else (if actions[0].Call? then [actions[0].request] else []) + CalledBy(actions[1..])
  }

  lemma StepIsRecorded(s: Source, a: Action)
    requires Enabled(s, a)
    ensures Step(s, a).delivered == s.delivered + DeliveredBy([a]) && Step(s, a).calls == s.calls + CalledBy([a])
  {
  }

  lemma Onward<T>(s: seq<T>, more: seq<T>, rest: seq<T>)
    ensures (s + more) + rest == s + (more + rest)
  {
  }

  lemma DeliveredFirst(actions: seq<Action>)
    requires actions != []
    ensures DeliveredBy(actions) == DeliveredBy([actions[0]]) + DeliveredBy(actions[1..])
    ensures CalledBy(actions) == CalledBy([actions[0]]) + CalledBy(actions[1..])
  {
  }

  lemma {:induction false} RunsAreRecorded(s: Source, actions: seq<Action>)
    requires Inv(s)
    ensures Play(s, actions).delivered == s.delivered + DeliveredBy(actions)
    ensures Play(s, actions).calls == s.calls + CalledBy(actions)
    decreases |actions|
  {
    if actions != [] {
      var a, rest := actions[0], actions[1..];
      if Enabled(s, a) { StepIsRecorded(s, a); }
      DeliveredFirst(actions);
      Onward(s.delivered, DeliveredBy([a]), DeliveredBy(rest));
      Onward(s.calls, CalledBy([a]), CalledBy(rest));
      RunsAreRecorded(After(s, a), rest);
    }
  }

  /**
   What the reads handed out, in call order, then what is held, is what the stream delivered; the reads answered, then
   those still queued, are the reads asked for.
   */
  lemma BytesAreConserved(highWater: nat, actions: seq<Action>)
    ensures var s := Play(Fresh(highWater), actions);
            && Handed(s.answers) + Flatten(s.chunks) == DeliveredBy(actions)
            && Requests(s.answers) + s.queue == CalledBy(actions)
  {
    RunsAreRecorded(Fresh(highWater), actions);
  }

  /** Once the stream is over, a read whose turn comes is answered in one round. */
  function Turn(s: Source, now: int): (n: Source)
    requires Inv(s) && s.ended && s.queue != []
    ensures Inv(n) && n.ended && |n.queue| < |s.queue| && n.calls == s.calls
  {
    var begun := After(s, Begin(now));
    assert begun.ended && begun.queue == s.queue && begun.calls == s.calls;
    After(begun, Poll(now))
  }

  function Served(s: Source, now: int): Source
    requires Inv(s) && s.ended
    decreases |s.queue|
  {
    if s.queue == [] then s else Served(Turn(s, now), now)
  }

  /** So the queued reads are all answered, in the order asked for. */
  lemma {:induction false} QueuedReadsAreServed(s: Source, now: int)
    requires Inv(s) && s.ended
    ensures var n := Served(s, now); n.queue == [] && Requests(n.answers) == s.calls
    decreases |s.queue|
  {
    if s.queue != [] { QueuedReadsAreServed(Turn(s, now), now); }
  }

  /** The stream is paused exactly while more than the high-water mark is held. */
  lemma PausedExactlyAboveTheMark(highWater: nat, actions: seq<Action>)
    ensures var s := Play(Fresh(highWater), actions);
            s.held == |Flatten(s.chunks)| && (s.paused <==> |Flatten(s.chunks)| > s.highWater)
  {
    assert Inv(Play(Fresh(highWater), actions));
  }

  /**
   A poll, a sleeping read's timer included, that times out or fails takes nothing and happens only over an empty
   buffer; over held bytes a read that wants some is given some.
   */
  lemma OnlyDataConsumes(highWater: nat, actions: seq<Action>, now: int)
    requires Enabled(Play(Fresh(highWater), actions), Poll(now))
    ensures var s := Play(Fresh(highWater), actions); var n := Step(s, Poll(now));
            && (n.answers != s.answers && !n.answers[|s.answers|].outcome.Data? ==> n.chunks == s.chunks && Flatten(s.chunks) == [])
            && (n.answers == s.answers ==> n.chunks == s.chunks)
            && (Flatten(s.chunks) != [] && s.queue[0].want > 0 ==>
                  n.answers[|s.answers|].outcome.Data? && n.answers[|s.answers|].outcome.data != [])
  {
    assert Inv(Play(Fresh(highWater), actions));
  }

  lemma EndStep(s: Source, a: Action)
    requires Inv(s)
    ensures After(s, a).failed <==> s.failed || a == Break
    ensures After(s, a).ended <==> s.ended || a == Finish
  {
  }

  lemma {:induction false} EndsAreRemembered(s: Source, actions: seq<Action>)
    requires Inv(s)
    ensures Play(s, actions).failed <==> s.failed || Break in actions
    ensures Play(s, actions).ended <==> s.ended || Finish in actions
    decreases |actions|
  {
    if actions != [] {
      var a, rest := actions[0], actions[1..];
      assert actions == [a] + rest;
      EndStep(s, a);
      EndsAreRemembered(After(s, a), rest);
    }
  }

  /** When the read that came to its turn last did so. */
  function BeganAt(s: Source, actions: seq<Action>): Option<int>
    requires Inv(s)
    decreases |actions|
  {
    if actions == [] then None
    else
      var later := BeganAt(After(s, actions[0]), actions[1..]);
      if later.None? && actions[0].Begin? && Enabled(s, actions[0]) then Some(actions[0].now) else later
  }

  /** The read under way came to its turn at `began`. */
  predicate Began(s: Source, began: Option<int>) {
    s.reader.Reading? ==>
      && s.queue != [] && began.Some?
      && var timeout := s.queue[0].timeout;
      s.reader.deadline == if timeout.Some? then Some(began.value + timeout.value) else None
  }

  lemma BeganStep(s: Source, a: Action, since: Option<int>)
    requires Inv(s) && Began(s, since)
    ensures Began(After(s, a), if a.Begin? && Enabled(s, a) then Some(a.now) else since)
  {
  }

  lemma {:induction false} DeadlinesCountFromTheTurn(s: Source, actions: seq<Action>, since: Option<int>)
    requires Inv(s) && Began(s, since)
    ensures Began(Play(s, actions), if BeganAt(s, actions).Some? then BeganAt(s, actions) else since)
    decreases |actions|
  {
    if actions != [] {
      var a := actions[0];
      BeganStep(s, a, since);
      DeadlinesCountFromTheTurn(After(s, a), actions[1..], if a.Begin? && Enabled(s, a) then Some(a.now) else since);
    }
  }

  /** What a poll answers; `None` while it goes on waiting. */
  function Answered(s: Source, now: int): Option<Outcome>
    requires Enabled(s, Poll(now))
  {
    var n := Step(s, Poll(now));
    if |n.answers| > |s.answers| then Some(n.answers[|s.answers|].outcome) else None
  }

  /** Over held bytes a read is given as many as it wants and there are, the first ones; a read of nothing gets nothing. */
  lemma HeldBytesAreGiven(highWater: nat, actions: seq<Action>, now: int)
    requires Enabled(Play(Fresh(highWater), actions), Poll(now))
    ensures var s := Play(Fresh(highWater), actions);
            var want, held := s.queue[0].want, Flatten(s.chunks);
            && (want == 0 ==> Answered(s, now) == Some(Data([])))
            && (want > 0 && held != [] ==> Answered(s, now) == Some(Data(held[..Min(want, |held|)])))
  {
    assert Inv(Play(Fresh(highWater), actions));
  }

  lemma EmptyBuffersAnswer(s: Source, now: int)
    requires Inv(s) && Enabled(s, Poll(now)) && s.queue[0].want > 0 && Flatten(s.chunks) == []
    ensures var late := s.reader.deadline.Some? && s.reader.deadline.value <= now;
            && (Answered(s, now) == Some(Failure) <==> s.failed)
            && (Answered(s, now) == Some(Data([])) <==> s.ended && !s.failed)
            && (Answered(s, now) == Some(Timeout) <==> !s.ended && !s.failed && late)
            && (Answered(s, now).None? <==> !s.ended && !s.failed && !late)
            && (Answered(s, now).None? ==> Step(s, Poll(now)) == s.(reader := s.reader.(parked := true)))
  {
  }

  /**
   Over an empty buffer a read that wants some fails exactly when the stream broke, is told the end exactly when it
   ended unbroken, and times out exactly when neither happened and its timeout has passed since its turn came.  Else
   it is put to sleep.
   */
  lemma AnEmptyBufferAnswers(highWater: nat, actions: seq<Action>, now: int)
    requires var s := Play(Fresh(highWater), actions);
             Enabled(s, Poll(now)) && s.queue[0].want > 0 && Flatten(s.chunks) == []
    ensures var s := Play(Fresh(highWater), actions);
            var began, timeout := BeganAt(Fresh(highWater), actions), s.queue[0].timeout;
            && began.Some?
            && (Answered(s, now) == Some(Failure) <==> Break in actions)
            && (Answered(s, now) == Some(Data([])) <==> Finish in actions && Break !in actions)
            && (Answered(s, now) == Some(Timeout) <==>
                  Finish !in actions && Break !in actions && timeout.Some? && began.value + timeout.value <= now)
            && (Answered(s, now).None? <==>
                  Finish !in actions && Break !in actions && (timeout.Some? ==> now < began.value + timeout.value))
            && (Answered(s, now).None? ==> Step(s, Poll(now)) == s.(reader := s.reader.(parked := true)))
  {
    EndsAreRemembered(Fresh(highWater), actions);
    DeadlinesCountFromTheTurn(Fresh(highWater), actions, None);
    EmptyBuffersAnswer(Play(Fresh(highWater), actions), now);
  }

  /** A sleeping read is never left asleep over bytes, an end or a failure. */
  lemma NoReadSleepsOverData(highWater: nat, actions: seq<Action>)
    ensures var s := Play(Fresh(highWater), actions);
            s.reader.Reading? && s.reader.parked ==> Flatten(s.chunks) == [] && !s.ended && !s.failed
  {
    assert Inv(Play(Fresh(highWater), actions));
  }

  /** The first bytes wanted: the whole first chunk and some of the rest, or part of the first chunk. */
  lemma FrontOf(chunks: seq<Bytes>, need: nat)
    requires chunks != []
    ensures var head, rest := chunks[0], Flatten(chunks[1..]);
            Flatten(chunks)[..Min(need, |Flatten(chunks)|)] ==
            if |head| <= need then head + rest[..Min(need - |head|, |rest|)] else head[..need]
  {
  }

  // ---------------------------------------------------------------------------------------------
  // The buffer

  class ByteBuffer {
    const highWater: nat
    var chunks: seq<Bytes>
    var held: int
    var ended: bool
    var failed: bool
    var paused: bool
    var queue: seq<Request>
    var reader: Reader
    ghost var delivered: Bytes
    ghost var calls: seq<Request>
    ghost var answers: seq<Answer>

    ghost predicate Valid()
      reads this
    {
      Inv(View())
    }

    ghost function View(): Source
      reads this
    {
      Source(chunks, held, highWater, paused, ended, failed, queue, reader, delivered, calls, answers)
    }

    constructor (highWater: nat)
      ensures Valid() && View() == Fresh(highWater)
    {
      this.highWater := highWater;
      chunks, held, ended, failed, paused, queue, reader := [], 0, false, false, false, [], Waiting;
      delivered, calls, answers := [], [], [];
    }

    method OnData(chunk: Bytes)
      requires Valid()
      modifies this
      ensures Valid() && View() == Step(old(View()), Deliver(chunk))
    {
      StepKeepsInv(View(), Deliver(chunk));
      chunks, held, delivered := chunks + [chunk], held + |chunk|, delivered + chunk;
      if held > highWater { paused := true; }
      reader := Wake(reader);
    }

    method OnEnd()
      requires Valid()
      modifies this
      ensures Valid() && View() == Step(old(View()), Finish)
    {
      StepKeepsInv(View(), Finish);
      ended, reader := true, Wake(reader);
    }

    method OnError()
      requires Valid()
      modifies this
      ensures Valid() && View() == Step(old(View()), Break)
    {
      StepKeepsInv(View(), Break);
      failed, reader := true, Wake(reader);
    }

    method Take(request: Request)
      requires Valid()
      modifies this
      ensures Valid() && View() == Step(old(View()), Call(request))
    {
      StepKeepsInv(View(), Call(request));
      queue, calls := queue + [request], calls + [request];
    }

    method StartNext(now: int)
      requires Valid() && Enabled(View(), Begin(now))
      modifies this
      ensures Valid() && View() == Step(old(View()), Begin(now))
    {
      StepKeepsInv(View(), Begin(now));
      var timeout := queue[0].timeout;
      reader := Reading(if timeout.Some? then Some(now + timeout.value) else None, false);
    }

    /** At most `want` bytes off the front of the chunks. */
    method Slice(want: nat) returns (taken: Bytes)
      requires held == |Flatten(chunks)|
      modifies this`chunks, this`held, this`paused
      ensures taken == Flatten(old(chunks))[..Min(want, |Flatten(old(chunks))|)]
      ensures chunks == Drop(old(chunks), want) && held == old(held) - |taken|
      ensures paused == (old(paused) && held > highWater)
    {
      taken := [];
      var need := want;
      while need > 0 && |chunks| > 0
        invariant 0 <= need <= want && taken + Flatten(chunks)[..Min(need, |Flatten(chunks)|)] ==
                    Flatten(old(chunks))[..Min(want, |Flatten(old(chunks))|)]
        invariant Drop(chunks, need) == Drop(old(chunks), want)
        invariant held == old(held) && paused == old(paused)
        decreases need, |chunks|
      {
        var head := chunks[0];
        FrontOf(chunks, need);
        if |head| <= need {
          assert taken + (head + Flatten(chunks[1..])[..Min(need - |head|, |Flatten(chunks[1..])|)]) ==
                 (taken + head) + Flatten(chunks[1..])[..Min(need - |head|, |Flatten(chunks[1..])|)];
          taken := taken + head;
          need := need - |head|;
          chunks := chunks[1..];
        } else {
          taken := taken + head[..need];
          chunks := [head[need..]] + chunks[1..];
          need := 0;
        }
      }
      held := held - |taken|;
      if held <= highWater { paused := false; }
    }

    /** One round of the read's loop; `answer` is its outcome, `None` while it goes on waiting. */
    method PollOnce(now: int) returns (answer: Option<Outcome>)
      requires Valid() && Enabled(View(), Poll(now))
      modifies this
      ensures Valid() && View() == Step(old(View()), Poll(now))
      ensures answer == if |answers| == |old(answers)| then None else Some(answers[|old(answers)|].outcome)
    {
      StepKeepsInv(View(), Poll(now));
      answer := PollRound(now);
    }

    method PollRound(now: int) returns (answer: Option<Outcome>)
      requires held == |Flatten(chunks)| && Enabled(View(), Poll(now))
      modifies this
      ensures View() == Step(old(View()), Poll(now))
      ensures answer == if |answers| == |old(answers)| then None else Some(answers[|old(answers)|].outcome)
    {
      var Request(want, _) := queue[0];
      if want == 0 {
        answer := Some(Data([]));
      } else if held > 0 {
        var taken := Slice(want);
        answer := Some(Data(taken));
      } else if failed {
        answer := Some(Failure);
      } else if ended {
        answer := Some(Data([]));
      } else if reader.deadline.Some? && reader.deadline.value <= now {
        answer := Some(Timeout);
      } else {
        reader := reader.(parked := true);
        return None;
      }
      answers := answers + [Answer(queue[0], answer.value)];
      queue, reader := queue[1..], Waiting;
    }
  }

  // ---------------------------------------------------------------------------------------------
  // Reading a file

  const CHUNK: nat := 1_048_576

  /**
   The loop of `readLater` on a file: the system may return fewer bytes than asked, `short(n)` of the
   `n`-th read, but none only at the end of the file.
   */
  method ReadFile(content: Bytes, position: nat, count: nat, short: nat -> nat) returns (data: Bytes, newPosition: nat)
    requires forall n :: short(n) > 0
    ensures data == if position >= |content| then [] else content[position..Min(position + count, |content|)]
    ensures newPosition == position + |data|
    ensures data == [] <==> count == 0 || position >= |content|
  {
    data, newPosition := [], position;
    var turn := 0;
    while |data| < count
      invariant newPosition == position + |data| && |data| <= count
      invariant position < |content| ==> newPosition <= |content| && data == content[position..newPosition]
      invariant position >= |content| ==> data == []
      decreases count - |data|
    {
      var asked := Min(CHUNK, count - |data|);
      var available := if newPosition < |content| then |content| - newPosition else 0;
      var read := Min(Min(asked, short(turn)), available);
      if read == 0 { break; }
      data := data + content[newPosition..newPosition + read];
      newPosition, turn := newPosition + read, turn + 1;
    }
  }
}
