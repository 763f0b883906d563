/**
 Merging the responses of a mount batch's legs into the one response the batch returns.

 `MergeMountResponses` computes each field over the whole list, as the router does.  `Combine` merges
 two responses; merging a list is folding it, so a list may be merged in parts.
 */
module MountMerge {
  import opened Wrappers

  type Row = string
  type Item = string

  /** The fields of an event response; `transitions` is one the merge does not carry. */
  datatype Response = Response(
    success: bool, transitioned: bool, states: map<string, string>, emittedEvents: seq<Item>,
    data: Option<map<string, seq<Row>>>, entityByTrait: Option<map<string, string>>,
    clientEffects: Option<seq<Item>>, clientEffectsByTrait: Option<seq<Item>>, effectResults: Option<seq<Item>>,
    rejections: Option<seq<Item>>, cascadeTruncated: Option<seq<Item>>,
    guardFailed: Option<string>, error: Option<string>, transitions: Option<seq<Item>>)

  // ---------------------------------------------------------------------------------------------
  // The fields over a list

  /** `concat`: present when some response has the list. */
  function Concat(lists: seq<Option<seq<Item>>>): Option<seq<Item>> {
    if exists i :: 0 <= i < |lists| && lists[i].Some? then Some(FlatMap(lists)) else None
  }

  function FlatMap(lists: seq<Option<seq<Item>>>): seq<Item> {
    if lists == [] then [] else (if lists[0].Some? then lists[0].value else []) + FlatMap(lists[1..])
  }

  function RowsOf(data: map<string, seq<Row>>, entity: string): seq<Row> {
    if entity in data then data[entity] else []
  }

  /** One response's rows added to those gathered so far, entity by entity. */
  function AddRows(data: map<string, seq<Row>>, more: map<string, seq<Row>>): map<string, seq<Row>> {
    map e | e in data.Keys + more.Keys :: RowsOf(data, e) + RowsOf(more, e)
  }

  function GatherRows(data: seq<Option<map<string, seq<Row>>>>): map<string, seq<Row>> {
    if data == [] then map[]
    else
      var n := |data| - 1;
      if data[n].Some? then AddRows(GatherRows(data[..n]), data[n].value) else GatherRows(data[..n])
  }

  /** The merged rows, present when some response has any. */
  function RowsField(data: seq<Option<map<string, seq<Row>>>>): Option<map<string, seq<Row>>> {
    if exists i :: 0 <= i < |data| && data[i].Some? then Some(GatherRows(data)) else None
  }

  function AssignAll(maps: seq<Option<map<string, string>>>): map<string, string> {
    if maps == [] then map[]
    else
      var n := |maps| - 1;
      AssignAll(maps[..n]) + if maps[n].Some? then maps[n].value else map[]
  }

  function MapsField(maps: seq<Option<map<string, string>>>): Option<map<string, string>> {
    if exists i :: 0 <= i < |maps| && maps[i].Some? then Some(AssignAll(maps)) else None
  }

  function Defined(errors: seq<Option<string>>): seq<string> {
    if errors == [] then [] else (if errors[0].Some? then [errors[0].value] else []) + Defined(errors[1..])
  }

  /** `errors.join('; ')`. */
  function JoinErrors(errors: seq<string>): string {
    if errors == [] then "" else if |errors| == 1 then errors[0] else errors[0] + "; " + JoinErrors(errors[1..])
  }

  function ErrorField(errors: seq<Option<string>>): Option<string> {
    if Defined(errors) == [] then None else Some(JoinErrors(Defined(errors)))
  }

  function FirstDefined(values: seq<Option<string>>): Option<string> {
    if values == [] then None else if values[0].Some? then values[0] else FirstDefined(values[1..])
  }

  function Pick<T>(rs: seq<Response>, f: Response -> T): (p: seq<T>)
    ensures |p| == |rs| && forall i :: 0 <= i < |rs| ==> p[i] == f(rs[i])
  {
    seq(|rs|, i requires 0 <= i < |rs| => f(rs[i]))
  }

  predicate Every(flags: seq<bool>) {
    forall i :: 0 <= i < |flags| ==> flags[i]
  }

  predicate Any(flags: seq<bool>) {
    exists i :: 0 <= i < |flags| && flags[i]
  }

  function MergeMountResponses(rs: seq<Response>): Response {
    Response(
      Every(Pick(rs, (r: Response) => r.success)),
      Any(Pick(rs, (r: Response) => r.transitioned)),
      AssignAll(Pick(rs, (r: Response) => Some(r.states))),
      FlatMap(Pick(rs, (r: Response) => Some(r.emittedEvents))),
      RowsField(Pick(rs, (r: Response) => r.data)),
      MapsField(Pick(rs, (r: Response) => r.entityByTrait)),
      Concat(Pick(rs, (r: Response) => r.clientEffects)),
      Concat(Pick(rs, (r: Response) => r.clientEffectsByTrait)),
      Concat(Pick(rs, (r: Response) => r.effectResults)),
      Concat(Pick(rs, (r: Response) => r.rejections)),
      Concat(Pick(rs, (r: Response) => r.cascadeTruncated)),
      FirstDefined(Pick(rs, (r: Response) => r.guardFailed)),
      ErrorField(Pick(rs, (r: Response) => r.error)),
      None)
  }

  // ---------------------------------------------------------------------------------------------
  // Two responses

  function AppendLists(a: Option<seq<Item>>, b: Option<seq<Item>>): Option<seq<Item>> {
    match (a, b)
    case (Some(x), Some(y)) => Some(x + y)
    case (None, y) => y
    case (x, None) => x
  }

  function AppendRows(a: Option<map<string, seq<Row>>>, b: Option<map<string, seq<Row>>>): Option<map<string, seq<Row>>> {
    match (a, b)
    case (Some(x), Some(y)) => Some(AddRows(x, y))
    case (None, y) => y
    case (x, None) => x
  }

  function AppendMaps(a: Option<map<string, string>>, b: Option<map<string, string>>): Option<map<string, string>> {
    match (a, b)
    case (Some(x), Some(y)) => Some(x + y)
    case (None, y) => y
    case (x, None) => x
  }

  function AppendErrors(a: Option<string>, b: Option<string>): Option<string> {
    match (a, b)
    case (Some(x), Some(y)) => Some(x + "; " + y)
    case (None, y) => y
    case (x, None) => x
  }

  function Combine(a: Response, b: Response): Response {
    Response(
      a.success && b.success, a.transitioned || b.transitioned,
      a.states + b.states, a.emittedEvents + b.emittedEvents,
      AppendRows(a.data, b.data), AppendMaps(a.entityByTrait, b.entityByTrait),
      AppendLists(a.clientEffects, b.clientEffects), AppendLists(a.clientEffectsByTrait, b.clientEffectsByTrait),
      AppendLists(a.effectResults, b.effectResults), AppendLists(a.rejections, b.rejections),
      AppendLists(a.cascadeTruncated, b.cascadeTruncated),
      if a.guardFailed.Some? then a.guardFailed else b.guardFailed,
      AppendErrors(a.error, b.error), None)
  }

  const Nothing := Response(true, false, map[], [], None, None, None, None, None, None, None, None, None, None)

  lemma RowsAdd(a: map<string, seq<Row>>, b: map<string, seq<Row>>, e: string)
    ensures RowsOf(AddRows(a, b), e) == RowsOf(a, e) + RowsOf(b, e)
    ensures e in AddRows(a, b) <==> e in a || e in b
  {
  }

  lemma RowsAddThrice(a: map<string, seq<Row>>, b: map<string, seq<Row>>, c: map<string, seq<Row>>, e: string)
    ensures RowsOf(AddRows(AddRows(a, b), c), e) == RowsOf(a, e) + RowsOf(b, e) + RowsOf(c, e)
    ensures e in AddRows(AddRows(a, b), c) <==> e in a || e in b || e in c
  {
    var ab := AddRows(a, b);
    RowsAdd(ab, c, e);
    RowsAdd(a, b, e);
  }

  lemma RowsAddAfter(a: map<string, seq<Row>>, b: map<string, seq<Row>>, c: map<string, seq<Row>>, e: string)
    ensures RowsOf(AddRows(a, AddRows(b, c)), e) == RowsOf(a, e) + (RowsOf(b, e) + RowsOf(c, e))
    ensures e in AddRows(a, AddRows(b, c)) <==> e in a || e in b || e in c
  {
    var bc := AddRows(b, c);
    RowsAdd(a, bc, e);
    RowsAdd(b, c, e);
  }

  lemma ConcatAssociative<T>(x: seq<T>, y: seq<T>, z: seq<T>)
    ensures (x + y) + z == x + (y + z)
  {
  }

  lemma SameRows(l: map<string, seq<Row>>, r: map<string, seq<Row>>)
    requires forall e :: (e in l <==> e in r) && RowsOf(l, e) == RowsOf(r, e)
    ensures l == r
  {
    forall e | e in l ensures l[e] == r[e] {
      assert RowsOf(l, e) == RowsOf(r, e);
    }
  }

  lemma AddRowsAssociative(a: map<string, seq<Row>>, b: map<string, seq<Row>>, c: map<string, seq<Row>>)
    ensures AddRows(AddRows(a, b), c) == AddRows(a, AddRows(b, c))
  {
    var l, r := AddRows(AddRows(a, b), c), AddRows(a, AddRows(b, c));
    forall e ensures (e in l <==> e in r) && RowsOf(l, e) == RowsOf(r, e) {
      RowsAddThrice(a, b, c, e);
      RowsAddAfter(a, b, c, e);
      ConcatAssociative(RowsOf(a, e), RowsOf(b, e), RowsOf(c, e));
    }
    SameRows(l, r);
  }

  lemma AppendListsAssociative(a: Option<seq<Item>>, b: Option<seq<Item>>, c: Option<seq<Item>>)
    ensures AppendLists(AppendLists(a, b), c) == AppendLists(a, AppendLists(b, c))
  {
    if a.Some? && b.Some? && c.Some? {
      assert (a.value + b.value) + c.value == a.value + (b.value + c.value);
    }
  }

  lemma AppendErrorsAssociative(a: Option<string>, b: Option<string>, c: Option<string>)
    ensures AppendErrors(AppendErrors(a, b), c) == AppendErrors(a, AppendErrors(b, c))
  {
    if a.Some? && b.Some? && c.Some? {
      assert (a.value + "; " + b.value) + "; " + c.value == a.value + "; " + (b.value + "; " + c.value);
    }
  }

  lemma AppendMapsAssociative(a: Option<map<string, string>>, b: Option<map<string, string>>, c: Option<map<string, string>>)
    ensures AppendMaps(AppendMaps(a, b), c) == AppendMaps(a, AppendMaps(b, c))
  {
    if a.Some? && b.Some? && c.Some? {
      assert (a.value + b.value) + c.value == a.value + (b.value + c.value);
    }
  }

  lemma CombineIsAssociative(a: Response, b: Response, c: Response)
    ensures Combine(Combine(a, b), c) == Combine(a, Combine(b, c))
  {
    if a.data.Some? && b.data.Some? && c.data.Some? {
      AddRowsAssociative(a.data.value, b.data.value, c.data.value);
    }
    AppendMapsAssociative(a.entityByTrait, b.entityByTrait, c.entityByTrait);
    AppendMapsAssociative(Some(a.states), Some(b.states), Some(c.states));
    AppendListsAssociative(Some(a.emittedEvents), Some(b.emittedEvents), Some(c.emittedEvents));
    AppendListsAssociative(a.clientEffects, b.clientEffects, c.clientEffects);
    AppendListsAssociative(a.clientEffectsByTrait, b.clientEffectsByTrait, c.clientEffectsByTrait);
    AppendListsAssociative(a.effectResults, b.effectResults, c.effectResults);
    AppendListsAssociative(a.rejections, b.rejections, c.rejections);
    AppendListsAssociative(a.cascadeTruncated, b.cascadeTruncated, c.cascadeTruncated);
    AppendErrorsAssociative(a.error, b.error, c.error);
  }

  lemma NothingIsNeutral(a: Response)
    ensures Combine(Nothing, a) == a.(transitions := None) && Combine(a, Nothing) == a.(transitions := None)
  {
  }

  // ---------------------------------------------------------------------------------------------
  // A list is merged by folding it

  lemma {:induction false} FlatMapAppend(lists: seq<Option<seq<Item>>>, last: Option<seq<Item>>)
    ensures FlatMap(lists + [last]) == FlatMap(lists) + if last.Some? then last.value else []
    decreases |lists|
  {
    if lists == [] {
      assert lists + [last] == [last];
    } else {
      FlatMapAppend(lists[1..], last);
      assert (lists + [last])[1..] == lists[1..] + [last];
    }
  }

  lemma {:induction false} NoLists(lists: seq<Option<seq<Item>>>)
    requires forall i :: 0 <= i < |lists| ==> lists[i].None?
    ensures FlatMap(lists) == []
  {
    if lists != [] {
      NoLists(lists[1..]);
    }
  }

  lemma ConcatAppend(lists: seq<Option<seq<Item>>>, last: Option<seq<Item>>)
    ensures Concat(lists + [last]) == AppendLists(Concat(lists), last)
  {
    FlatMapAppend(lists, last);
    SomeAppend(lists, last);
    if !(exists i :: 0 <= i < |lists| && lists[i].Some?) {
      NoLists(lists);
      if last.Some? { assert [] + last.value == last.value; }
    } else if last.None? {
      assert FlatMap(lists) + [] == FlatMap(lists);
    }
  }

  lemma SomeAppend<T>(s: seq<Option<T>>, last: Option<T>)
    ensures (exists i :: 0 <= i < |s + [last]| && (s + [last])[i].Some?) <==> (exists i :: 0 <= i < |s| && s[i].Some?) || last.Some?
  {
    assert (s + [last])[|s|] == last;
    assert forall i :: 0 <= i < |s| ==> (s + [last])[i] == s[i];
  }

  lemma {:induction false} DefinedAppend(errors: seq<Option<string>>, last: Option<string>)
    ensures Defined(errors + [last]) == Defined(errors) + if last.Some? then [last.value] else []
    decreases |errors|
  {
    if errors == [] {
      assert errors + [last] == [last];
    } else {
      DefinedAppend(errors[1..], last);
      var more := errors + [last];
      assert more[0] == errors[0] && more[1..] == errors[1..] + [last];
      ConcatAssociative(if errors[0].Some? then [errors[0].value] else [], Defined(errors[1..]),
                        if last.Some? then [last.value] else []);
    }
  }

  lemma {:induction false} JoinAppend(errors: seq<string>, last: string)
    requires errors != []
    ensures JoinErrors(errors + [last]) == JoinErrors(errors) + "; " + last
    decreases |errors|
  {
    assert (errors + [last])[1..] == errors[1..] + [last];
    if |errors| == 1 {
      assert errors[1..] + [last] == [last];
    } else {
      JoinAppend(errors[1..], last);
      assert errors[0] + "; " + (JoinErrors(errors[1..]) + "; " + last) == errors[0] + "; " + JoinErrors(errors[1..]) + "; " + last;
    }
  }

  lemma {:induction false} FirstAppend(values: seq<Option<string>>, last: Option<string>)
    ensures FirstDefined(values + [last]) == if FirstDefined(values).Some? then FirstDefined(values) else last
    decreases |values|
  {
    if values == [] {
      assert values + [last] == [last];
    } else {
      FirstAppend(values[1..], last);
      assert (values + [last])[1..] == values[1..] + [last];
    }
  }

  lemma GatherAppend(data: seq<Option<map<string, seq<Row>>>>, last: Option<map<string, seq<Row>>>)
    ensures RowsField(data + [last]) == AppendRows(RowsField(data), last)
  {
    assert (data + [last])[..|data|] == data;
    SomeAppend(data, last);
    if !(exists i :: 0 <= i < |data| && data[i].Some?) {
      NoRows(data);
      if last.Some? { NoRowsFirst(last.value); }
    }
  }

  lemma NoRowsFirst(rows: map<string, seq<Row>>)
    ensures AddRows(map[], rows) == rows
  {
    forall e ensures (e in AddRows(map[], rows) <==> e in rows) && RowsOf(AddRows(map[], rows), e) == RowsOf(rows, e) {
      RowsAdd(map[], rows, e);
    }
    SameRows(AddRows(map[], rows), rows);
  }

  lemma {:induction false} NoRows(data: seq<Option<map<string, seq<Row>>>>)
    requires forall i :: 0 <= i < |data| ==> data[i].None?
    ensures GatherRows(data) == map[]
    decreases |data|
  {
    if data != [] {
      NoRows(data[..|data| - 1]);
    }
  }

  lemma {:induction false} NoMaps(maps: seq<Option<map<string, string>>>)
    requires forall i :: 0 <= i < |maps| ==> maps[i].None?
    ensures AssignAll(maps) == map[]
    decreases |maps|
  {
    if maps != [] {
      NoMaps(maps[..|maps| - 1]);
    }
  }

  lemma AssignAppend(maps: seq<Option<map<string, string>>>, last: Option<map<string, string>>)
    ensures AssignAll(maps + [last]) == AssignAll(maps) + if last.Some? then last.value else map[]
    ensures MapsField(maps + [last]) == AppendMaps(MapsField(maps), last)
  {
    assert (maps + [last])[..|maps|] == maps;
    SomeAppend(maps, last);
    if !(exists i :: 0 <= i < |maps| && maps[i].Some?) {
      NoMaps(maps);
      if last.Some? { assert map[] + last.value == last.value; }
    } else if last.None? {
      assert AssignAll(maps) + map[] == AssignAll(maps);
    }
  }

  lemma ErrorAppend(errors: seq<Option<string>>, last: Option<string>)
    ensures ErrorField(errors + [last]) == AppendErrors(ErrorField(errors), last)
  {
    DefinedAppend(errors, last);
    var d := Defined(errors);
    if last.None? {
      assert d + [] == d;
    } else if d == [] {
      assert d + [last.value] == [last.value];
    } else {
      JoinAppend(d, last.value);
    }
  }

  lemma FlagsAppend(flags: seq<bool>, last: bool)
    ensures Every(flags + [last]) == (Every(flags) && last)
    ensures Any(flags + [last]) == (Any(flags) || last)
  {
    assert (flags + [last])[|flags|] == last;
    assert forall i :: 0 <= i < |flags| ==> (flags + [last])[i] == flags[i];
  }

  lemma PickAppend<T>(rs: seq<Response>, r: Response, f: Response -> T)
    ensures Pick(rs + [r], f) == Pick(rs, f) + [f(r)]
  {
  }

  /** Each field of a merge with one more response is the field of the merge, combined with the response's. */
  lemma MergeLast(rs: seq<Response>, r: Response)
    ensures MergeMountResponses(rs + [r]) == Combine(MergeMountResponses(rs), r)
  {
    FlagsLast(rs, r);
    MapsLast(rs, r);
    ListsLast(rs, r);
    ErrorsLast(rs, r);
  }

  lemma FlagsLast(rs: seq<Response>, r: Response)
    ensures MergeMountResponses(rs + [r]).success == (MergeMountResponses(rs).success && r.success)
    ensures MergeMountResponses(rs + [r]).transitioned == (MergeMountResponses(rs).transitioned || r.transitioned)
  {
    var success := (x: Response) => x.success;
    PickAppend(rs, r, success);
    FlagsAppend(Pick(rs, success), r.success);
    var transitioned := (x: Response) => x.transitioned;
    PickAppend(rs, r, transitioned);
    FlagsAppend(Pick(rs, transitioned), r.transitioned);
  }

  lemma MapsLast(rs: seq<Response>, r: Response)
    ensures var n, m := MergeMountResponses(rs + [r]), MergeMountResponses(rs);
            && n.states == m.states + r.states
            && n.entityByTrait == AppendMaps(m.entityByTrait, r.entityByTrait)
            && n.data == AppendRows(m.data, r.data)
  {
    var states := (x: Response) => Some(x.states);
    PickAppend(rs, r, states);
    AssignAppend(Pick(rs, states), states(r));
    var byTrait := (x: Response) => x.entityByTrait;
    PickAppend(rs, r, byTrait);
    AssignAppend(Pick(rs, byTrait), byTrait(r));
    var data := (x: Response) => x.data;
    PickAppend(rs, r, data);
    GatherAppend(Pick(rs, data), data(r));
  }

  lemma ListLast(rs: seq<Response>, r: Response, f: Response -> Option<seq<Item>>)
    ensures Concat(Pick(rs + [r], f)) == AppendLists(Concat(Pick(rs, f)), f(r))
  {
    PickAppend(rs, r, f);
    ConcatAppend(Pick(rs, f), f(r));
  }

  lemma ListsLast(rs: seq<Response>, r: Response)
    ensures var n, m := MergeMountResponses(rs + [r]), MergeMountResponses(rs);
            && n.emittedEvents == m.emittedEvents + r.emittedEvents
            && n.clientEffects == AppendLists(m.clientEffects, r.clientEffects)
            && n.clientEffectsByTrait == AppendLists(m.clientEffectsByTrait, r.clientEffectsByTrait)
            && n.effectResults == AppendLists(m.effectResults, r.effectResults)
            && n.rejections == AppendLists(m.rejections, r.rejections)
            && n.cascadeTruncated == AppendLists(m.cascadeTruncated, r.cascadeTruncated)
  {
    var emitted := (x: Response) => Some(x.emittedEvents);
    PickAppend(rs, r, emitted);
    FlatMapAppend(Pick(rs, emitted), emitted(r));
    ListLast(rs, r, (x: Response) => x.clientEffects);
    ListLast(rs, r, (x: Response) => x.clientEffectsByTrait);
    ListLast(rs, r, (x: Response) => x.effectResults);
    ListLast(rs, r, (x: Response) => x.rejections);
    ListLast(rs, r, (x: Response) => x.cascadeTruncated);
  }

  lemma ErrorsLast(rs: seq<Response>, r: Response)
    ensures var n, m := MergeMountResponses(rs + [r]), MergeMountResponses(rs);
            && n.guardFailed == (if m.guardFailed.Some? then m.guardFailed else r.guardFailed)
            && n.error == AppendErrors(m.error, r.error)
  {
    var guard := (x: Response) => x.guardFailed;
    PickAppend(rs, r, guard);
    FirstAppend(Pick(rs, guard), guard(r));
    var error := (x: Response) => x.error;
    PickAppend(rs, r, error);
    ErrorAppend(Pick(rs, error), error(r));
  }

  /** Merging is a homomorphism: a list merged in two parts merges to the same response. */
  lemma {:induction false} MergeInParts(xs: seq<Response>, ys: seq<Response>)
    ensures MergeMountResponses(xs + ys) == Combine(MergeMountResponses(xs), MergeMountResponses(ys))
    decreases |ys|
  {
    if ys == [] {
      assert xs + ys == xs;
      NothingIsNeutral(MergeMountResponses(xs));
    } else {
      var n := |ys| - 1;
      assert xs + ys == (xs + ys[..n]) + [ys[n]] && ys == ys[..n] + [ys[n]];
      MergeLast(xs + ys[..n], ys[n]);
      MergeLast(ys[..n], ys[n]);
      MergeInParts(xs, ys[..n]);
      CombineIsAssociative(MergeMountResponses(xs), MergeMountResponses(ys[..n]), ys[n]);
    }
  }

  /** Merging the two halves' merges gives the merge of the whole. */
  lemma MergeOfMerges(xs: seq<Response>, ys: seq<Response>)
    ensures MergeMountResponses([MergeMountResponses(xs), MergeMountResponses(ys)]) == MergeMountResponses(xs + ys)
  {
    var a, b := MergeMountResponses(xs), MergeMountResponses(ys);
    MergeInParts(xs, ys);
    assert [a, b] == [a] + [b] && [a] == [] + [a];
    MergeLast([a], b);
    MergeLast([], a);
    NothingIsNeutral(a);
  }

  /** One response alone keeps everything but its transitions, which no merge carries. */
  lemma MergeDropsTransitions(r: Response, rs: seq<Response>)
    ensures MergeMountResponses([r]) == r.(transitions := None)
    ensures MergeMountResponses(rs).transitions.None?
  {
    assert [r] == [] + [r];
    MergeLast([], r);
    NothingIsNeutral(r);
  }

  function RowsIn(data: Option<map<string, seq<Row>>>, entity: string): seq<Row> {
    if data.Some? then RowsOf(data.value, entity) else []
  }

  lemma RowsAppend(a: Option<map<string, seq<Row>>>, b: Option<map<string, seq<Row>>>, entity: string)
    ensures RowsIn(AppendRows(a, b), entity) == RowsIn(a, entity) + RowsIn(b, entity)
  {
    if a.Some? && b.Some? { RowsAdd(a.value, b.value, entity); }
  }

  /** No row is lost: an entity's merged rows are every response's rows for it, in order. */
  lemma {:induction false} NoRowIsLost(rs: seq<Response>, entity: string)
    ensures RowsIn(MergeMountResponses(rs).data, entity) == AllRows(rs, entity)
    decreases |rs|
  {
    if rs != [] {
      var n := |rs| - 1;
      assert rs == rs[..n] + [rs[n]];
      MergeLast(rs[..n], rs[n]);
      NoRowIsLost(rs[..n], entity);
      RowsAppend(MergeMountResponses(rs[..n]).data, rs[n].data, entity);
    }
  }

  function AllRows(rs: seq<Response>, entity: string): seq<Row> {
    if rs == [] then []
    else
      var n := |rs| - 1;
      AllRows(rs[..n], entity) + RowsIn(rs[n].data, entity)
  }

  // ---------------------------------------------------------------------------------------------
  // The row-gathering loops

  /** The inner loop: one response's entries, in whatever order they are listed. */
  method AddEntries(data: map<string, seq<Row>>, more: map<string, seq<Row>>) returns (r: map<string, seq<Row>>)
    ensures r == AddRows(data, more)
  {
    r := data;
    var left := more.Keys;
    while left != {}
      invariant left <= more.Keys
      invariant r.Keys == data.Keys + (more.Keys - left)
      invariant forall e :: e in r ==> r[e] == RowsOf(data, e) + if e in left then [] else RowsOf(more, e)
    {
      var e :| e in left;
      r := r[e := RowsOf(r, e) + more[e]];
      left := left - {e};
    }
  }

  method GatherData(responses: seq<Response>) returns (data: map<string, seq<Row>>)
    ensures data == GatherRows(Pick(responses, (r: Response) => r.data))
  {
    data := map[];
    var field := (r: Response) => r.data;
    assert Pick(responses[..0], field) == [];
    for i := 0 to |responses|
      invariant data == GatherRows(Pick(responses[..i], field))
    {
      assert responses[..i + 1] == responses[..i] + [responses[i]];
      PickAppend(responses[..i], responses[i], field);
      assert Pick(responses[..i + 1], field)[..i] == Pick(responses[..i], field);
      if responses[i].data.Some? {
        data := AddEntries(data, responses[i].data.value);
      }
    }
    assert responses[..|responses|] == responses;
  }
}
