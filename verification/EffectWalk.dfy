/**
 The walk that decides whether an expression calls an effect, against the runs of an evaluator.

 `CallsEffect` is the walk.  `Shape` says how the evaluator takes an expression apart, `Possible` which
 runs it admits: a branch whose condition is statically false is never taken, binding positions are
 never calls, a closure's body runs any number of times, and conditions have no effects of their own.
 The walk is exact: it answers true precisely when some run reaches a matching call.
 */
module EffectWalk {
  import opened Wrappers

  datatype SExpr =
    | Text(text: string)
    | Literal
    | List(items: seq<SExpr>)
    | Record(values: seq<SExpr>)

  datatype Call = Call(operator: string, args: seq<SExpr>)

  // ---------------------------------------------------------------------------------------------
  // The walk

  predicate HeadIs(items: seq<SExpr>, words: set<string>) {
    items != [] && items[0].Text? && items[0].text in words
  }

  predicate CallsEffect(e: SExpr, isFalse: SExpr -> bool, matches: Call -> bool)
    decreases e
  {
    match e
    case Record(values) => exists i :: 0 <= i < |values| && CallsEffect(values[i], isFalse, matches)
    case List(items) =>
      if HeadIs(items, {"if"}) && |items| >= 3 then
        (!isFalse(items[1]) && CallsEffect(items[2], isFalse, matches))
        || (|items| > 3 && CallsEffect(items[3], isFalse, matches))
      else if HeadIs(items, {"when"}) && |items| >= 3 then
        !isFalse(items[1]) && exists i :: 2 <= i < |items| && CallsEffect(items[i], isFalse, matches)
      else if HeadIs(items, {"let"}) && |items| >= 2 then
        (match items[1]
         case List(pairs) =>
           exists i :: 0 <= i < |pairs| &&
             (match pairs[i]
              case List(pair) => exists j :: 1 <= j < |pair| && CallsEffect(pair[j], isFalse, matches)
              case _ => CallsEffect(pairs[i], isFalse, matches))
         case _ => CallsEffect(items[1], isFalse, matches))
        || exists i :: 2 <= i < |items| && CallsEffect(items[i], isFalse, matches)
      else if HeadIs(items, {"fn", "lambda"}) && |items| >= 3 then
        exists i :: 2 <= i < |items| && CallsEffect(items[i], isFalse, matches)
      else
        (items != [] && items[0].Text? && matches(Call(items[0].text, items[1..])))
        || exists i :: 0 <= i < |items| && CallsEffect(items[i], isFalse, matches)
    case _ => false
  }

  // ---------------------------------------------------------------------------------------------
  // The evaluator

  /** How an expression is evaluated: nothing to do, a choice, a closure's body, or parts in order and then a call. */
  datatype Shape =
    | Atom
    | Branch(condition: SExpr, yes: seq<SExpr>, no: seq<SExpr>)
    | Closure(body: seq<SExpr>)
    | Sequence(parts: seq<SExpr>, call: Option<Call>)

  /** The value part of one `let` binding: a pair's name is no value. */
  function BoundBy(pair: SExpr): seq<SExpr> {
    match pair
    case List(items) => if items == [] then [] else items[1..]
    case _ => [pair]
  }

  function BoundValues(pairs: seq<SExpr>): seq<SExpr> {
    if pairs == [] then [] else BoundBy(pairs[0]) + BoundValues(pairs[1..])
  }

  function ShapeOf(e: SExpr): Shape {
    match e
    case Record(values) => Sequence(values, None)
    case List(items) =>
      if HeadIs(items, {"if"}) && |items| >= 3 then Branch(items[1], [items[2]], if |items| > 3 then [items[3]] else [])
      else if HeadIs(items, {"when"}) && |items| >= 3 then Branch(items[1], items[2..], [])
      else if HeadIs(items, {"let"}) && |items| >= 2 then
        Sequence((match items[1] case List(pairs) => BoundValues(pairs) case _ => [items[1]]) + items[2..], None)
      else if HeadIs(items, {"fn", "lambda"}) && |items| >= 3 then Closure(items[2..])
      else Sequence(items, if items != [] && items[0].Text? then Some(Call(items[0].text, items[1..])) else None)
    case _ => Atom
  }

  function Size(e: SExpr): nat {
    match e
    case List(items) => 1 + SizeAll(items)
    case Record(values) => 1 + SizeAll(values)
    case _ => 1
  }

  function SizeAll(es: seq<SExpr>): nat {
    if es == [] then 0 else Size(es[0]) + SizeAll(es[1..])
  }

  lemma {:induction false} SizeOfParts(es: seq<SExpr>)
    ensures forall i :: 0 <= i < |es| ==> Size(es[i]) <= SizeAll(es)
    ensures forall k :: 0 <= k <= |es| ==> SizeAll(es[k..]) <= SizeAll(es)
  {
    if es != [] {
      SizeOfParts(es[1..]);
      forall k | 0 <= k <= |es| ensures SizeAll(es[k..]) <= SizeAll(es) {
        if k > 0 { assert es[k..] == es[1..][k - 1..]; }
      }
    }
  }

  lemma {:induction false} SizeAppend(a: seq<SExpr>, b: seq<SExpr>)
    ensures SizeAll(a + b) == SizeAll(a) + SizeAll(b)
    decreases |a|
  {
    if a == [] {
      assert a + b == b;
    } else {
      SizeAppend(a[1..], b);
      assert (a + b)[1..] == a[1..] + b;
    }
  }

  lemma {:induction false} SizeOfBoundValues(pairs: seq<SExpr>)
    ensures SizeAll(BoundValues(pairs)) <= SizeAll(pairs)
    decreases |pairs|
  {
    if pairs != [] {
      SizeOfBoundValues(pairs[1..]);
      SizeAppend(BoundBy(pairs[0]), BoundValues(pairs[1..]));
      if pairs[0].List? { SizeOfParts(pairs[0].items); }
    }
  }

  lemma {:induction false} BoundIsSmaller(bound: SExpr)
    ensures SizeAll(match bound case List(pairs) => BoundValues(pairs) case _ => [bound]) <= Size(bound)
  {
    if bound.List? {
      SizeOfBoundValues(bound.items);
    } else {
      assert SizeAll([bound]) == Size(bound) + SizeAll([]);
    }
  }

  lemma {:induction false} LetIsSmaller(items: seq<SExpr>)
    requires |items| >= 2
    ensures SizeAll((match items[1] case List(pairs) => BoundValues(pairs) case _ => [items[1]]) + items[2..]) <= SizeAll(items)
  {
    var bound := match items[1] case List(pairs) => BoundValues(pairs) case _ => [items[1]];
    var rest := items[1..];
    BoundIsSmaller(items[1]);
    SizeAppend(bound, items[2..]);
    assert rest[1..] == items[2..];
    assert SizeAll(rest) == Size(items[1]) + SizeAll(items[2..]);
  }

  /** Everything an expression evaluates is smaller than the expression. */
  lemma {:induction false} ShapeIsSmaller(e: SExpr)
    ensures match ShapeOf(e)
            case Atom => true
            case Branch(_, yes, no) => SizeAll(yes) < Size(e) && SizeAll(no) < Size(e)
            case Closure(body) => SizeAll(body) < Size(e)
            case Sequence(parts, _) => SizeAll(parts) < Size(e)
  {
    match e {
      case List(items) =>
        SizeOfParts(items);
        if |items| >= 2 { LetIsSmaller(items); }
        assert forall i :: 0 <= i < |items| ==> SizeAll([items[i]]) == Size(items[i]);
      case _ =>
    }
  }

  // ---------------------------------------------------------------------------------------------
  // The walk by shape

  ghost predicate AnyCalls(es: seq<SExpr>, isFalse: SExpr -> bool, matches: Call -> bool) {
    exists i :: 0 <= i < |es| && CallsEffect(es[i], isFalse, matches)
  }

  lemma {:induction false} AnyCallsBound(pairs: seq<SExpr>, isFalse: SExpr -> bool, matches: Call -> bool)
    ensures AnyCalls(BoundValues(pairs), isFalse, matches) <==>
            exists i :: 0 <= i < |pairs| && AnyCalls(BoundBy(pairs[i]), isFalse, matches)
    decreases |pairs|
  {
    if pairs != [] {
      AnyCallsBound(pairs[1..], isFalse, matches);
      AnyCallsAppend(BoundBy(pairs[0]), BoundValues(pairs[1..]), isFalse, matches);
      assert pairs == [pairs[0]] + pairs[1..];
    }
  }

  lemma AnyCallsAppend(a: seq<SExpr>, b: seq<SExpr>, isFalse: SExpr -> bool, matches: Call -> bool)
    ensures AnyCalls(a + b, isFalse, matches) <==> AnyCalls(a, isFalse, matches) || AnyCalls(b, isFalse, matches)
  {
    forall i | 0 <= i < |a| ensures (a + b)[i] == a[i] {}
    forall i | 0 <= i < |b| ensures (a + b)[|a| + i] == b[i] {}
  }

  lemma AnyCallsFrom(items: seq<SExpr>, k: nat, isFalse: SExpr -> bool, matches: Call -> bool)
    requires k <= |items|
    ensures AnyCalls(items[k..], isFalse, matches) <==> exists i :: k <= i < |items| && CallsEffect(items[i], isFalse, matches)
  {
    forall i | k <= i < |items| ensures items[k..][i - k] == items[i] {}
  }

  lemma BoundByCalls(pair: SExpr, isFalse: SExpr -> bool, matches: Call -> bool)
    ensures AnyCalls(BoundBy(pair), isFalse, matches) <==>
            match pair
            case List(items) => exists j :: 1 <= j < |items| && CallsEffect(items[j], isFalse, matches)
            case _ => CallsEffect(pair, isFalse, matches)
  {
    match pair {
      case List(items) => if items != [] { AnyCallsFrom(items, 1, isFalse, matches); }
      case _ => assert [pair][0] == pair;
    }
  }

  /** The walk follows the shape: it looks into everything evaluated, except a branch that is statically false. */
  lemma {:induction false} WalkByShape(e: SExpr, isFalse: SExpr -> bool, matches: Call -> bool)
    ensures CallsEffect(e, isFalse, matches) <==>
            match ShapeOf(e)
            case Atom => false
            case Branch(condition, yes, no) =>
              (!isFalse(condition) && AnyCalls(yes, isFalse, matches)) || AnyCalls(no, isFalse, matches)
            case Closure(body) => AnyCalls(body, isFalse, matches)
            case Sequence(parts, call) => (call.Some? && matches(call.value)) || AnyCalls(parts, isFalse, matches)
  {
    match e {
      case List(items) =>
        if HeadIs(items, {"if"}) && |items| >= 3 {
          assert [items[2]][0] == items[2];
          if |items| > 3 { assert [items[3]][0] == items[3]; }
        } else if HeadIs(items, {"when"}) && |items| >= 3 {
          AnyCallsFrom(items, 2, isFalse, matches);
        } else if HeadIs(items, {"let"}) && |items| >= 2 {
          LetByShape(items, isFalse, matches);
        } else if HeadIs(items, {"fn", "lambda"}) && |items| >= 3 {
          AnyCallsFrom(items, 2, isFalse, matches);
        }
      case _ =>
    }
  }

  lemma LetByShape(items: seq<SExpr>, isFalse: SExpr -> bool, matches: Call -> bool)
    requires HeadIs(items, {"let"}) && |items| >= 2
    ensures CallsEffect(List(items), isFalse, matches) <==> AnyCalls(ShapeOf(List(items)).parts, isFalse, matches)
  {
    var bound := match items[1] case List(pairs) => BoundValues(pairs) case _ => [items[1]];
    AnyCallsAppend(bound, items[2..], isFalse, matches);
    AnyCallsFrom(items, 2, isFalse, matches);
    match items[1] {
      case List(pairs) =>
        AnyCallsBound(pairs, isFalse, matches);
        forall i | 0 <= i < |pairs|
          ensures AnyCalls(BoundBy(pairs[i]), isFalse, matches) <==>
                  match pairs[i]
                  case List(pair) => exists j :: 1 <= j < |pair| && CallsEffect(pair[j], isFalse, matches)
                  case _ => CallsEffect(pairs[i], isFalse, matches)
        {
          BoundByCalls(pairs[i], isFalse, matches);
        }
      case _ => assert [items[1]][0] == items[1];
    }
  }

  // ---------------------------------------------------------------------------------------------
  // Runs

  /** One run of an evaluator: the choice taken at a branch, the invocations of a closure. */
  datatype Run =
    | Leaf
    | Each(parts: seq<Run>)
    | Then(parts: seq<Run>)
    | Else(parts: seq<Run>)
    | Invoked(times: seq<Run>)

  /** The runs the evaluator admits. */
  ghost predicate Possible(e: SExpr, r: Run, isFalse: SExpr -> bool)
    decreases r
  {
    match ShapeOf(e)
    case Atom => r == Leaf
    case Branch(condition, yes, no) =>
      (r.Then? && !isFalse(condition) && |r.parts| == |yes| && forall i :: 0 <= i < |yes| ==> Possible(yes[i], r.parts[i], isFalse))
      || (r.Else? && |r.parts| == |no| && forall i :: 0 <= i < |no| ==> Possible(no[i], r.parts[i], isFalse))
    case Closure(body) =>
      r.Invoked? && forall t :: 0 <= t < |r.times| ==>
        r.times[t].Each? && |r.times[t].parts| == |body| &&
        forall i :: 0 <= i < |body| ==> Possible(body[i], r.times[t].parts[i], isFalse)
    case Sequence(parts, _) =>
      r.Each? && |r.parts| == |parts| && forall i :: 0 <= i < |parts| ==> Possible(parts[i], r.parts[i], isFalse)
  }

  /** The calls a run makes. */
  ghost function Calls(e: SExpr, r: Run, isFalse: SExpr -> bool): iset<Call>
    requires Possible(e, r, isFalse)
    decreases r
  {
    match ShapeOf(e)
    case Atom => iset{}
    case Branch(_, yes, no) =>
      if r.Then? then iset i, c | 0 <= i < |yes| && c in Calls(yes[i], r.parts[i], isFalse) :: c
      else iset i, c | 0 <= i < |no| && c in Calls(no[i], r.parts[i], isFalse) :: c
    case Closure(body) =>
      iset t, i, c | 0 <= t < |r.times| && 0 <= i < |body| && c in Calls(body[i], r.times[t].parts[i], isFalse) :: c
    case Sequence(parts, call) =>
      (iset i, c | 0 <= i < |parts| && c in Calls(parts[i], r.parts[i], isFalse) :: c)
      + (if call.Some? then iset{call.value} else iset{})
  }

  ghost predicate Reaches(e: SExpr, r: Run, isFalse: SExpr -> bool, matches: Call -> bool) {
    Possible(e, r, isFalse) && exists c :: c in Calls(e, r, isFalse) && matches(c)
  }

  /** `part` is one of the expressions that evaluating `e` evaluates. */
  predicate Evaluates(e: SExpr, part: SExpr, isFalse: SExpr -> bool) {
    match ShapeOf(e)
    case Atom => false
    case Branch(condition, yes, no) => (!isFalse(condition) && part in yes) || part in no
    case Closure(body) => part in body
    case Sequence(parts, _) => part in parts
  }

  predicate CallsItself(e: SExpr, c: Call) {
    ShapeOf(e).Sequence? && ShapeOf(e).call == Some(c)
  }

  /** A call a run makes is the expression's own or made by a smaller run of a part it evaluates. */
  lemma {:induction false} MadeByAPart(e: SExpr, r: Run, isFalse: SExpr -> bool, c: Call) returns (part: SExpr, run: Run)
    requires Possible(e, r, isFalse) && c in Calls(e, r, isFalse) && !CallsItself(e, c)
    ensures run < r && Possible(part, run, isFalse) && c in Calls(part, run, isFalse) && Evaluates(e, part, isFalse)
  {
    match ShapeOf(e) {
      case Atom => part, run := e, r;
      case Branch(_, yes, no) =>
        if r.Then? {
          var i :| 0 <= i < |yes| && c in Calls(yes[i], r.parts[i], isFalse);
          part, run := yes[i], r.parts[i];
        } else {
          var i :| 0 <= i < |no| && c in Calls(no[i], r.parts[i], isFalse);
          part, run := no[i], r.parts[i];
        }
      case Closure(body) =>
        var t, i :| 0 <= t < |r.times| && 0 <= i < |body| && c in Calls(body[i], r.times[t].parts[i], isFalse);
        part, run := body[i], r.times[t].parts[i];
      case Sequence(parts, _) =>
        var i :| 0 <= i < |parts| && c in Calls(parts[i], r.parts[i], isFalse);
        part, run := parts[i], r.parts[i];
    }
  }

  lemma {:induction false} WalkFindsInParts(e: SExpr, part: SExpr, isFalse: SExpr -> bool, matches: Call -> bool)
    requires Evaluates(e, part, isFalse) && CallsEffect(part, isFalse, matches)
    ensures CallsEffect(e, isFalse, matches)
  {
    WalkByShape(e, isFalse, matches);
  }

  /** A run reaches a matching call only if the walk finds one. */
  lemma {:induction false} WalkIsSound(e: SExpr, r: Run, isFalse: SExpr -> bool, matches: Call -> bool)
    requires Reaches(e, r, isFalse, matches)
    ensures CallsEffect(e, isFalse, matches)
    decreases r
  {
    var c :| c in Calls(e, r, isFalse) && matches(c);
    if CallsItself(e, c) {
      WalkByShape(e, isFalse, matches);
    } else {
      var part, run := MadeByAPart(e, r, isFalse, c);
      WalkIsSound(part, run, isFalse, matches);
      WalkFindsInParts(e, part, isFalse, matches);
    }
  }

  /** Some run of an expression: every branch's condition false, no closure invoked. */
  lemma {:induction false} SomeRun(e: SExpr, isFalse: SExpr -> bool) returns (r: Run)
    ensures Possible(e, r, isFalse)
    decreases Size(e), 1, 0
  {
    ShapeIsSmaller(e);
    match ShapeOf(e) {
      case Atom => r := Leaf;
      case Branch(_, _, no) =>
        var runs := SomeRuns(no, isFalse);
        r := Else(runs);
      case Closure(_) => r := Invoked([]);
      case Sequence(parts, _) =>
        var runs := SomeRuns(parts, isFalse);
        r := Each(runs);
    }
  }

  lemma {:induction false} SomeRuns(es: seq<SExpr>, isFalse: SExpr -> bool) returns (runs: seq<Run>)
    ensures |runs| == |es| && forall i :: 0 <= i < |es| ==> Possible(es[i], runs[i], isFalse)
    decreases SizeAll(es), 2, |es|
  {
    if es == [] {
      runs := [];
    } else {
      var first := SomeRun(es[0], isFalse);
      var rest := SomeRuns(es[1..], isFalse);
      runs := [first] + rest;
    }
  }

  /** Whatever the walk finds, some run reaches. */
  lemma {:induction false} WalkIsComplete(e: SExpr, isFalse: SExpr -> bool, matches: Call -> bool) returns (r: Run)
    requires CallsEffect(e, isFalse, matches)
    ensures Reaches(e, r, isFalse, matches)
    decreases Size(e), 0
  {
    WalkByShape(e, isFalse, matches);
    ShapeIsSmaller(e);
    match ShapeOf(e) {
      case Branch(condition, yes, no) =>
        if !isFalse(condition) && AnyCalls(yes, isFalse, matches) {
          var runs, i, c := SomeRunsReach(yes, isFalse, matches);
          r := Then(runs);
          assert c in Calls(e, r, isFalse);
        } else {
          var runs, i, c := SomeRunsReach(no, isFalse, matches);
          r := Else(runs);
          assert c in Calls(e, r, isFalse);
        }
      case Closure(body) =>
        var runs, i, c := SomeRunsReach(body, isFalse, matches);
        r := Invoked([Each(runs)]);
        assert c in Calls(body[i], r.times[0].parts[i], isFalse);
        assert c in Calls(e, r, isFalse);
      case Sequence(parts, call) =>
        if call.Some? && matches(call.value) {
          var runs := SomeRuns(parts, isFalse);
          r := Each(runs);
          assert call.value in Calls(e, r, isFalse);
        } else {
          var runs, i, c := SomeRunsReach(parts, isFalse, matches);
          r := Each(runs);
          assert c in Calls(e, r, isFalse);
        }
    }
  }

  lemma {:induction false} SomeRunsReach(es: seq<SExpr>, isFalse: SExpr -> bool, matches: Call -> bool)
    returns (runs: seq<Run>, i: nat, c: Call)
    requires AnyCalls(es, isFalse, matches)
    ensures |runs| == |es| && forall k :: 0 <= k < |es| ==> Possible(es[k], runs[k], isFalse)
    ensures i < |es| && c in Calls(es[i], runs[i], isFalse) && matches(c)
    decreases SizeAll(es), 1
  {
    i :| i < |es| && CallsEffect(es[i], isFalse, matches);
    SizeOfParts(es);
    var r := WalkIsComplete(es[i], isFalse, matches);
    runs := SomeRuns(es, isFalse);
    runs := runs[i := r];
    c :| c in Calls(es[i], r, isFalse) && matches(c);
  }

  /** The walk answers true precisely when some run reaches a matching call. */
  lemma WalkIsExact(e: SExpr, isFalse: SExpr -> bool, matches: Call -> bool)
    ensures CallsEffect(e, isFalse, matches) <==> exists r :: Reaches(e, r, isFalse, matches)
  {
    if CallsEffect(e, isFalse, matches) {
      var r := WalkIsComplete(e, isFalse, matches);
    }
    if r :| Reaches(e, r, isFalse, matches) {
      WalkIsSound(e, r, isFalse, matches);
    }
  }

  /** The verdict distributes over the disjunction of predicates. */
  lemma WalkDistributes(e: SExpr, isFalse: SExpr -> bool, p: Call -> bool, q: Call -> bool)
    ensures CallsEffect(e, isFalse, c => p(c) || q(c)) <==> CallsEffect(e, isFalse, p) || CallsEffect(e, isFalse, q)
  {
    var both := (c: Call) => p(c) || q(c);
    WalkIsExact(e, isFalse, both);
    WalkIsExact(e, isFalse, p);
    WalkIsExact(e, isFalse, q);
    if r :| Reaches(e, r, isFalse, both) {
      var c :| c in Calls(e, r, isFalse) && both(c);
      assert Reaches(e, r, isFalse, p) || Reaches(e, r, isFalse, q);
    }
    if r :| Reaches(e, r, isFalse, p) {
      var c :| c in Calls(e, r, isFalse) && p(c);
      assert both(c);
      assert Reaches(e, r, isFalse, both);
    }
    if r :| Reaches(e, r, isFalse, q) {
      var c :| c in Calls(e, r, isFalse) && q(c);
      assert both(c);
      assert Reaches(e, r, isFalse, both);
    }
  }
}
