/**
 The row array kept under one `chrome.storage` key: every change reads the whole array, works on it and
 writes the whole array back, so changes are chained one after another.
 */
module ChromeRows {
  import opened Wrappers
  import opened CredentialRows

  datatype Change =
    | AddRow(data: Row, id: string)
    | MergeRow(id: string, data: Row)
    | DropRow(id: string)

  function Apply(rows: seq<Row>, change: Change): seq<Row> {
    match change
    case AddRow(data, id) => Create(rows, data, id)
    case MergeRow(id, data) => Update(rows, id, data)
    case DropRow(id) => Delete(rows, id)
  }

  /** A change touches no row but those of its id. */
  lemma {:induction false} ChangesTouchOneId(rows: seq<Row>, change: Change)
    ensures change.AddRow? ==> Apply(rows, change) == rows + [change.data.(id := Text(change.id))]
    ensures change.MergeRow? ==> |Apply(rows, change)| == |rows| && forall i :: 0 <= i < |rows| ==>
              Apply(rows, change)[i] == if rows[i].id == Text(change.id) then Merge(rows[i], change.data, change.id) else rows[i]
    ensures change.DropRow? ==> forall r :: r in Apply(rows, change) <==> r in rows && r.id != Text(change.id)
    decreases |rows|
  {
    if change.DropRow? && rows != [] {
      var n := |rows| - 1;
      assert rows == rows[..n] + [rows[n]];
      ChangesTouchOneId(rows[..n], change);
    }
  }

  function ApplyAll(rows: seq<Row>, changes: seq<Change>): seq<Row> {
    if changes == [] then rows
    else Apply(ApplyAll(rows, changes[..|changes| - 1]), changes[|changes| - 1])
  }

  /**
   `queue`: the changes chained and not yet over, the first of them under way.  `snapshot`: what it read.
   `submitted`: every change ever chained; `outcomes`: of those that are over, whether each one's write went through.
   */
  datatype Storage = Storage(
    rows: seq<Row>, queue: seq<Change>, snapshot: Option<seq<Row>>, submitted: seq<Change>, outcomes: seq<bool>)

  datatype Action = Submit(change: Change) | ReadAll | WriteAll | Fail

  function Opened(rows: seq<Row>): Storage {
    Storage(rows, [], None, [], [])
  }

  predicate Enabled(s: Storage, a: Action) {
    match a
    case Submit(_) => true
    case ReadAll => s.queue != [] && s.snapshot.None?
    case WriteAll => s.queue != [] && s.snapshot.Some?
    case Fail => s.queue != []
  }

  function Step(s: Storage, a: Action): Storage
    requires Enabled(s, a)
  {
    match a
    case Submit(change) => s.(queue := s.queue + [change], submitted := s.submitted + [change])
    case ReadAll => s.(snapshot := Some(s.rows))
    case WriteAll =>
      Storage(Apply(s.snapshot.value, s.queue[0]), s.queue[1..], None, s.submitted, s.outcomes + [true])
    // a failed change writes nothing and lets the next one run
    case Fail => s.(queue := s.queue[1..], snapshot := None, outcomes := s.outcomes + [false])
  }

  function Play(s: Storage, actions: seq<Action>): Storage
    decreases |actions|
  {
    if actions == [] then s else Play(if Enabled(s, actions[0]) then Step(s, actions[0]) else s, actions[1..])
  }

  /** The changes that did not fail, in order. */
  function Unfailed(changes: seq<Change>, outcomes: seq<bool>): seq<Change>
    requires |outcomes| <= |changes|
  {
    if outcomes == [] then []
    else
      var n := |outcomes| - 1;
      Unfailed(changes, outcomes[..n]) + if outcomes[n] then [changes[n]] else []
  }

  ghost predicate Serial(rows: seq<Row>, s: Storage) {
    && |s.outcomes| <= |s.submitted|
    && s.queue == s.submitted[|s.outcomes|..]
    && s.rows == ApplyAll(rows, Unfailed(s.submitted, s.outcomes))
    && (s.snapshot.Some? ==> s.snapshot.value == s.rows)
  }

  lemma {:induction false} UnfailedMore(changes: seq<Change>, outcomes: seq<bool>, change: Change)
    requires |outcomes| <= |changes|
    ensures Unfailed(changes + [change], outcomes) == Unfailed(changes, outcomes)
    decreases |outcomes|
  {
    if outcomes != [] { UnfailedMore(changes, outcomes[..|outcomes| - 1], change); }
  }

  lemma StepIsSerial(rows: seq<Row>, s: Storage, a: Action)
    requires Serial(rows, s) && Enabled(s, a)
    ensures Serial(rows, Step(s, a))
  {
    match a {
      case Submit(change) => UnfailedMore(s.submitted, s.outcomes, change);
      case ReadAll =>
      case WriteAll =>
        var n := Step(s, a);
        assert n.outcomes[..|s.outcomes|] == s.outcomes;
        var was, now := Unfailed(s.submitted, s.outcomes), Unfailed(n.submitted, n.outcomes);
        assert now[..|now| - 1] == was && now[|now| - 1] == s.queue[0];
      case Fail =>
        assert Step(s, a).outcomes[..|s.outcomes|] == s.outcomes;
        assert Unfailed(s.submitted, s.outcomes) + [] == Unfailed(s.submitted, s.outcomes);
    }
  }

  lemma {:induction false} PlayIsSerial(rows: seq<Row>, s: Storage, actions: seq<Action>)
    requires Serial(rows, s)
    ensures Serial(rows, Play(s, actions))
    decreases |actions|
  {
    if actions != [] {
      var n := if Enabled(s, actions[0]) then Step(s, actions[0]) else s;
      if Enabled(s, actions[0]) { StepIsSerial(rows, s, actions[0]); }
      PlayIsSerial(rows, n, actions[1..]);
    }
  }

  /**
   Whatever the interleaving, no update is lost: the array is every submitted change that is over and did not fail,
   applied in the order of submission, and what is not over is still queued.
   */
  lemma NoUpdateIsLost(rows: seq<Row>, actions: seq<Action>)
    ensures var s := Play(Opened(rows), actions);
            && |s.outcomes| <= |s.submitted| && s.queue == s.submitted[|s.outcomes|..]
            && s.rows == ApplyAll(rows, Unfailed(s.submitted, s.outcomes))
  {
    PlayIsSerial(rows, Opened(rows), actions);
  }

  /** Each queued change reads and writes in its turn, and none fails. */
  function Drain(s: Storage): Storage
    requires s.snapshot.Some? ==> s.queue != []
    decreases |s.queue|
  {
    if s.queue == [] then s
    else
      var read := if s.snapshot.None? then Step(s, ReadAll) else s;
      Drain(Step(read, WriteAll))
  }

  /** So the chain goes on: what is queued lands, in order, on what landed before it. */
  lemma {:induction false} QueuedChangesLand(rows: seq<Row>, s: Storage)
    requires Serial(rows, s) && (s.snapshot.Some? ==> s.queue != [])
    ensures var n := Drain(s);
            && n.queue == [] && n.submitted == s.submitted && |n.outcomes| == |n.submitted|
            && n.rows == ApplyAll(s.rows, s.queue)
    decreases |s.queue|
  {
    if s.queue != [] {
      var read := if s.snapshot.None? then Step(s, ReadAll) else s;
      StepIsSerial(rows, read, WriteAll);
      var n := Step(read, WriteAll);
      QueuedChangesLand(rows, n);
      ApplyFirst(s.rows, s.queue);
    }
  }

  lemma {:induction false} ApplyFirst(rows: seq<Row>, changes: seq<Change>)
    requires changes != []
    ensures ApplyAll(rows, changes) == ApplyAll(Apply(rows, changes[0]), changes[1..])
    decreases |changes|
  {
    var n := |changes| - 1;
    if n == 0 {
      assert changes[..0] == [] && changes[1..] == [];
    } else {
      ApplyFirst(rows, changes[..n]);
      assert changes[1..][..n - 1] == changes[..n][1..];
    }
  }

  /** A change that fails is over, leaves the rows as they are, and those after it land all the same. */
  lemma FailuresStopNobody(rows: seq<Row>, s: Storage)
    requires Serial(rows, s) && s.queue != []
    ensures var n := Play(s, [Fail]);
            && n.rows == s.rows && n.queue == s.queue[1..] && n.outcomes == s.outcomes + [false] && n.snapshot.None?
            && Drain(n).rows == ApplyAll(s.rows, s.queue[1..])
  {
    StepIsSerial(rows, s, Fail);
    assert Play(s, [Fail]) == Step(s, Fail);
    QueuedChangesLand(rows, Step(s, Fail));
  }

  /** The changes a run submits. */
  function SubmittedBy(actions: seq<Action>): seq<Change> {
    if actions == [] then []
    else (if actions[0].Submit? then [actions[0].change] else []) + SubmittedBy(actions[1..])
  }

  lemma {:induction false} EverySubmissionIsChained(s: Storage, actions: seq<Action>)
    ensures Play(s, actions).submitted == s.submitted + SubmittedBy(actions)
    decreases |actions|
  {
    if actions != [] {
      var n := if Enabled(s, actions[0]) then Step(s, actions[0]) else s;
      EverySubmissionIsChained(n, actions[1..]);
    }
  }
}
