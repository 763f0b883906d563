/**
 The path algorithms of the Node os host: lexical normalisation, and the resolution of a path
 component by component that follows symbolic links within a budget.
 */
module RealPath {
  import opened Wrappers

  const MAX_LINKS := 40

  // ---------------------------------------------------------------------------------------------
  // Paths as strings

  /** `path.split('/')`. */
  function Split(path: string): (parts: seq<string>)
    ensures parts != []
    ensures forall i :: 0 <= i < |parts| ==> '/' !in parts[i]
  {
    if path == "" then [""]
    else
      var rest := Split(path[1..]);
      if path[0] == '/' then [""] + rest else [[path[0]] + rest[0]] + rest[1..]
  }

  /** `parts.join('/')`. */
  function Join(parts: seq<string>): string {
    if parts == [] then "" else if |parts| == 1 then parts[0] else parts[0] + "/" + Join(parts[1..])
  }

  /** The absolute path of a list of names. */
  function Render(names: seq<string>): string {
    "/" + Join(names)
  }

  /** A component a directory entry can have. */
  predicate IsName(part: string) {
    part != "" && part != "." && part != ".." && '/' !in part
  }

  ghost predicate AllNames(parts: seq<string>) {
    forall i :: 0 <= i < |parts| ==> IsName(parts[i])
  }

  predicate Skipped(part: string) {
    part == "" || part == "."
  }

  function Kept(parts: seq<string>): (kept: seq<string>)
    ensures forall i :: 0 <= i < |kept| ==> !Skipped(kept[i]) && kept[i] in parts
  {
    if parts == [] then []
    else (if Skipped(parts[0]) then [] else [parts[0]]) + Kept(parts[1..])
  }

  /** `components`: the parts without the empty ones and the dots. */
  function Components(path: string): (parts: seq<string>)
    ensures forall i :: 0 <= i < |parts| ==> parts[i] == ".." || IsName(parts[i])
  {
    Kept(Split(path))
  }

  lemma {:induction false} SplitName(part: string)
    requires '/' !in part
    ensures Split(part) == [part]
  {
    if part != "" {
      SplitName(part[1..]);
      assert part[0] in part && [part[0]] + part[1..] == part;
    }
  }

  lemma {:induction false} SplitJoined(part: string, rest: string)
    requires '/' !in part
    ensures Split(part + "/" + rest) == [part] + Split(rest)
  {
    if part == "" {
      assert (part + "/" + rest)[1..] == rest;
    } else {
      SplitJoined(part[1..], rest);
      var whole := part + "/" + rest;
      assert whole[1..] == part[1..] + "/" + rest;
      assert whole[0] == part[0] && part[0] in part && [part[0]] + part[1..] == part;
    }
  }

  lemma {:induction false} SplitOfJoin(parts: seq<string>)
    requires parts != [] && forall i :: 0 <= i < |parts| ==> '/' !in parts[i]
    ensures Split(Join(parts)) == parts
    decreases |parts|
  {
    if |parts| == 1 {
      SplitName(parts[0]);
    } else {
      SplitOfJoin(parts[1..]);
      SplitJoined(parts[0], Join(parts[1..]));
    }
  }

  lemma {:induction false} KeptNames(names: seq<string>)
    requires forall i :: 0 <= i < |names| ==> !Skipped(names[i])
    ensures Kept(names) == names
    decreases |names|
  {
    if names != [] {
      KeptNames(names[1..]);
    }
  }

  /** Rendering a list of names and taking its components apart again are inverse. */
  lemma ComponentsOfRender(names: seq<string>)
    requires AllNames(names)
    ensures Components(Render(names)) == names
    ensures Split(Render(names)) == [""] + (if names == [] then [""] else names)
  {
    assert Render(names)[1..] == Join(names);
    if names == [] {
      assert Split("") == [""];
      assert Kept(["", ""][1..]) == [];
    } else {
      SplitOfJoin(names);
      KeptNames(names);
      assert ([""] + names)[1..] == names;
    }
  }

  // ---------------------------------------------------------------------------------------------
  // Lexical normalisation

  /** Drop dots, collapse `..` against what was kept; `None` when a `..` climbs above the root. */
  function Collapse(kept: seq<string>, parts: seq<string>): Option<seq<string>>
    decreases |parts|
  {
    if parts == [] then Some(kept)
    else if Skipped(parts[0]) then Collapse(kept, parts[1..])
    else if parts[0] == ".." then
      if kept == [] then None else Collapse(kept[..|kept| - 1], parts[1..])
    else Collapse(kept + [parts[0]], parts[1..])
  }

  function Normal(path: string): Option<string> {
    match Collapse([], Split(path))
    case None => None
    case Some(names) => Some(Render(names))
  }

  /** `lexical`. */
  method Lexical(path: string) returns (normal: Option<string>)
    ensures normal == Normal(path)
  {
    var kept: seq<string> := [];
    var parts := Split(path);
    for i := 0 to |parts|
      invariant Collapse([], parts) == Collapse(kept, parts[i..])
    {
      assert parts[i..][1..] == parts[i + 1..];
      if parts[i] == "" || parts[i] == "." { continue; }
      if parts[i] == ".." {
        if |kept| == 0 { return None; }
        kept := kept[..|kept| - 1];
        continue;
      }
      kept := kept + [parts[i]];
    }
    normal := Some(Render(kept));
  }

  lemma {:induction false} CollapseGivesNames(kept: seq<string>, parts: seq<string>)
    requires AllNames(kept) && forall i :: 0 <= i < |parts| ==> '/' !in parts[i]
    ensures Collapse(kept, parts).Some? ==> AllNames(Collapse(kept, parts).value)
    decreases |parts|
  {
    if parts != [] {
      if Skipped(parts[0]) {
        CollapseGivesNames(kept, parts[1..]);
      } else if parts[0] == ".." {
        if kept != [] { CollapseGivesNames(kept[..|kept| - 1], parts[1..]); }
      } else {
        CollapseGivesNames(kept + [parts[0]], parts[1..]);
      }
    }
  }

  lemma {:induction false} CollapseNames(kept: seq<string>, names: seq<string>)
    requires AllNames(names)
    ensures Collapse(kept, names) == Some(kept + names)
    decreases |names|
  {
    if names == [] {
      assert kept + names == kept;
    } else {
      CollapseNames(kept + [names[0]], names[1..]);
      assert kept + [names[0]] + names[1..] == kept + names;
    }
  }

  /** Collapsing only looks at the components: the parts that are skipped change nothing. */
  lemma {:induction false} CollapseKept(kept: seq<string>, parts: seq<string>)
    ensures Collapse(kept, Kept(parts)) == Collapse(kept, parts)
    decreases |parts|
  {
    if parts != [] {
      if Skipped(parts[0]) {
        assert Kept(parts) == Kept(parts[1..]);
        CollapseKept(kept, parts[1..]);
      } else {
        assert Kept(parts) == [parts[0]] + Kept(parts[1..]);
        if parts[0] == ".." {
          if kept != [] { CollapseKept(kept[..|kept| - 1], parts[1..]); }
        } else {
          CollapseKept(kept + [parts[0]], parts[1..]);
        }
      }
    }
  }

  /** How often the parts go up. */
  function Ups(parts: seq<string>): nat {
    if parts == [] then 0 else (if parts[0] == ".." then 1 else 0) + Ups(parts[1..])
  }

  /** How many names the parts hold. */
  function NameCount(parts: seq<string>): nat {
    if parts == [] then 0 else (if Skipped(parts[0]) || parts[0] == ".." then 0 else 1) + NameCount(parts[1..])
  }

  /** From `depth` directories down, the first `k` parts go up past the root: more `..` than names have come by. */
  predicate ClimbsBy(depth: nat, parts: seq<string>, k: nat)
    requires k <= |parts|
  {
    Ups(parts[..k]) > depth + NameCount(parts[..k])
  }

  ghost predicate Climbs(depth: nat, parts: seq<string>) {
    exists k: nat :: k <= |parts| && ClimbsBy(depth, parts, k)
  }

  lemma FirstPart(depth: nat, parts: seq<string>, k: nat)
    requires 0 < k <= |parts|
    ensures var part, rest := parts[0], parts[1..];
            && Ups(parts[..k]) == (if part == ".." then 1 else 0) + Ups(rest[..k - 1])
            && NameCount(parts[..k]) == (if Skipped(part) || part == ".." then 0 else 1) + NameCount(rest[..k - 1])
  {
    assert parts[..k][1..] == parts[1..][..k - 1];
  }

  lemma ClimbsOn(depth: nat, next: nat, parts: seq<string>)
    requires parts != []
    requires next == if Skipped(parts[0]) then depth else if parts[0] != ".." then depth + 1 else if depth == 0 then 0 else depth - 1
    ensures Climbs(depth, parts) <==> (parts[0] == ".." && depth == 0) || Climbs(next, parts[1..])
  {
    var rest := parts[1..];
    if k: nat :| k <= |parts| && ClimbsBy(depth, parts, k) {
      assert k > 0;
      FirstPart(depth, parts, k);
      assert (parts[0] == ".." && depth == 0) || ClimbsBy(next, rest, k - 1);
    }
    if parts[0] == ".." && depth == 0 {
      FirstPart(depth, parts, 1);
      assert ClimbsBy(depth, parts, 1);
    } else if j: nat :| j <= |rest| && ClimbsBy(next, rest, j) {
      FirstPart(depth, parts, j + 1);
      assert ClimbsBy(depth, parts, j + 1);
    }
  }

  lemma {:induction false} CollapseFailsOnClimbs(kept: seq<string>, parts: seq<string>)
    ensures Collapse(kept, parts).None? <==> Climbs(|kept|, parts)
    decreases |parts|
  {
    if parts == [] {
      assert !Climbs(|kept|, parts) by {
        forall k: nat | k <= |parts| ensures !ClimbsBy(|kept|, parts, k) {}
      }
    } else if Skipped(parts[0]) {
      ClimbsOn(|kept|, |kept|, parts);
      CollapseFailsOnClimbs(kept, parts[1..]);
    } else if parts[0] != ".." {
      ClimbsOn(|kept|, |kept| + 1, parts);
      CollapseFailsOnClimbs(kept + [parts[0]], parts[1..]);
    } else if kept != [] {
      ClimbsOn(|kept|, |kept| - 1, parts);
      CollapseFailsOnClimbs(kept[..|kept| - 1], parts[1..]);
    } else {
      ClimbsOn(0, 0, parts);
    }
  }

  /** A path has no normal form exactly when somewhere along it more `..` than names have come by. */
  lemma NormalFailsExactlyOnClimbs(path: string)
    ensures Normal(path).None? <==> Climbs(0, Split(path))
  {
    CollapseFailsOnClimbs([], Split(path));
  }

  lemma NormalOfRender(names: seq<string>)
    requires AllNames(names)
    ensures Normal(Render(names)) == Some(Render(names))
  {
    ComponentsOfRender(names);
    CollapseKept([], Split(Render(names)));
    CollapseNames([], names);
    assert [] + names == names;
  }

  /** A normal path is its own normal form. */
  lemma NormalIsIdempotent(path: string)
    requires Normal(path).Some?
    ensures Normal(Normal(path).value) == Normal(path)
  {
    CollapseGivesNames([], Split(path));
    NormalOfRender(Collapse([], Split(path)).value);
  }

  // ---------------------------------------------------------------------------------------------
  // Resolution

  /** What `lstat` and `readlink` answer for one path of a fixed file system. */
  datatype Entry = Absent | Plain | Link(target: string) | Failing(code: string)

  datatype Error = TooManyLinks | LstatFailed(code: string)

  function JoinPath(directory: string, part: string): string {
    if directory == "/" then "/" + part else directory + "/" + part
  }

  /** `path.lastIndexOf('/')`. */
  function LastSlash(path: string): (cut: int)
    ensures -1 <= cut < |path|
    ensures cut >= 0 ==> path[cut] == '/'
    ensures forall i :: cut < i < |path| ==> path[i] != '/'
  {
    if path == "" then -1
    else if path[|path| - 1] == '/' then |path| - 1
    else LastSlash(path[..|path| - 1])
  }

  function ParentOf(path: string): string {
    var cut := LastSlash(path);
    if cut <= 0 then "/" else path[..cut]
  }

  function Parent(names: seq<string>): seq<string> {
    if names == [] then [] else names[..|names| - 1]
  }

  lemma {:induction false} JoinAppend(names: seq<string>, part: string)
    requires names != []
    ensures Join(names + [part]) == Join(names) + "/" + part
    decreases |names|
  {
    if |names| == 1 {
      assert (names + [part])[1..] == [part];
    } else {
      JoinAppend(names[1..], part);
      assert (names + [part])[1..] == names[1..] + [part];
    }
  }

  lemma RenderAppend(names: seq<string>, part: string)
    requires AllNames(names)
    ensures JoinPath(Render(names), part) == Render(names + [part])
  {
    if names == [] {
      assert names + [part] == [part];
    } else {
      JoinAppend(names, part);
      assert Render(names)[1] == names[0][0];
    }
  }

  lemma ParentOfRender(names: seq<string>)
    requires AllNames(names)
    ensures ParentOf(Render(names)) == Render(Parent(names))
  {
    if names != [] {
      var up := Parent(names);
      var last := names[|names| - 1];
      assert names == up + [last];
      RenderAppend(up, last);
      var whole := Render(names);
      var cut := LastSlash(whole);
      var expected := |whole| - |last| - 1;
      assert whole[expected] == '/' && whole[expected + 1..] == last;
      assert forall i :: expected < i < |whole| ==> whole[i] == last[i - expected - 1];
      assert cut == expected;
      assert up != [] ==> whole[..cut] == Render(up);
    }
  }

  /**
   The resolution of what is left in `queue` from the directory `current`, with `budget` links still to
   be followed: at the end of the budget one more link is an error.
   */
  function Follow(lstat: string -> Entry, queue: seq<string>, current: seq<string>, budget: nat, followLast: bool)
    : (r: Result<seq<string>, Error>)
    decreases budget, |queue|
  {
    if queue == [] then Ok(current)
    else if queue[0] == ".." then Follow(lstat, queue[1..], Parent(current), budget, followLast)
    else
      var next := current + [queue[0]];
      match lstat(Render(next))
      case Failing(code) => Err(LstatFailed(code))
      case Link(target) =>
        if !followLast && |queue| == 1 then Follow(lstat, queue[1..], next, budget, followLast)
        else if budget == 0 then Err(TooManyLinks)
        else Follow(lstat, Components(target) + queue[1..], if "/" <= target then [] else current, budget - 1, followLast)
      case _ => Follow(lstat, queue[1..], next, budget, followLast)
  }

  function Answered(answer: Result<seq<string>, Error>): Result<string, Error> {
    match answer
    case Ok(names) => Ok(Render(names))
    case Err(error) => Err(error)
  }

  function Resolve(lstat: string -> Entry, path: string, followLast: bool): Result<string, Error> {
    Answered(Follow(lstat, Components(path), [], MAX_LINKS, followLast))
  }

  lemma NamesStay(names: seq<string>, part: string)
    requires AllNames(names) && IsName(part)
    ensures AllNames(names + [part])
  {
  }

  /** One name more: what the resolution does with the entry there. */
  lemma FollowName(lstat: string -> Entry, queue: seq<string>, current: seq<string>, budget: nat, followLast: bool)
    requires queue != [] && queue[0] != ".."
    ensures Follow(lstat, queue, current, budget, followLast) ==
            var next := current + [queue[0]];
            match lstat(Render(next))
            case Failing(code) => Err(LstatFailed(code))
            case Link(target) =>
              if !followLast && |queue| == 1 then Follow(lstat, queue[1..], next, budget, followLast)
              else if budget == 0 then Err(TooManyLinks)
              else Follow(lstat, Components(target) + queue[1..], if "/" <= target then [] else current, budget - 1, followLast)
            case _ => Follow(lstat, queue[1..], next, budget, followLast)
  {
  }

  ghost predicate QueueOk(queue: seq<string>) {
    forall i :: 0 <= i < |queue| ==> queue[i] == ".." || IsName(queue[i])
  }

  /**
   Where the loop stands: at a rendered directory, `links` links followed, from where the rest of the queue resolves to `answer`.
   */
  ghost predicate At(
      lstat: string -> Entry, queue: seq<string>, current: string, names: seq<string>, links: int, followLast: bool,
      answer: Result<seq<string>, Error>)
  {
    && AllNames(names) && current == Render(names) && QueueOk(queue) && 0 <= links <= MAX_LINKS
    && Follow(lstat, queue, names, MAX_LINKS - links, followLast) == answer
  }

  lemma AtStart(lstat: string -> Entry, path: string, followLast: bool, answer: Result<seq<string>, Error>)
    requires answer == Follow(lstat, Components(path), [], MAX_LINKS, followLast)
    ensures At(lstat, Components(path), "/", [], 0, followLast, answer)
    ensures Resolve(lstat, path, followLast) == Answered(answer)
  {
  }

  lemma AtParent(
      lstat: string -> Entry, queue: seq<string>, current: string, names: seq<string>, links: int, followLast: bool,
      answer: Result<seq<string>, Error>)
    requires At(lstat, queue, current, names, links, followLast, answer) && queue != [] && queue[0] == ".."
    ensures At(lstat, queue[1..], ParentOf(current), Parent(names), links, followLast, answer)
  {
    ParentOfRender(names);
  }

  lemma AtName(
      lstat: string -> Entry, queue: seq<string>, current: string, names: seq<string>, links: int, followLast: bool,
      answer: Result<seq<string>, Error>)
    requires At(lstat, queue, current, names, links, followLast, answer) && queue != [] && queue[0] != ".."
    ensures var next := JoinPath(current, queue[0]);
            && (lstat(next).Failing? ==> answer == Err(LstatFailed(lstat(next).code)))
            && (!lstat(next).Failing? && !(lstat(next).Link? && (followLast || |queue| > 1)) ==>
                  At(lstat, queue[1..], next, names + [queue[0]], links, followLast, answer))
  {
    RenderAppend(names, queue[0]);
    NamesStay(names, queue[0]);
    FollowName(lstat, queue, names, MAX_LINKS - links, followLast);
  }

  lemma AtLink(
      lstat: string -> Entry, queue: seq<string>, current: string, names: seq<string>, links: int, followLast: bool,
      answer: Result<seq<string>, Error>, target: string)
    requires At(lstat, queue, current, names, links, followLast, answer) && queue != [] && queue[0] != ".."
    requires lstat(JoinPath(current, queue[0])) == Link(target) && (followLast || |queue| > 1)
    ensures links == MAX_LINKS ==> answer == Err(TooManyLinks)
    ensures links < MAX_LINKS ==>
              At(lstat, Components(target) + queue[1..], if "/" <= target then "/" else current,
                 if "/" <= target then [] else names, links + 1, followLast, answer)
  {
    RenderAppend(names, queue[0]);
    FollowName(lstat, queue, names, MAX_LINKS - links, followLast);
  }

  lemma AtEnd(
      lstat: string -> Entry, current: string, names: seq<string>, links: int, followLast: bool,
      answer: Result<seq<string>, Error>)
    requires At(lstat, [], current, names, links, followLast, answer)
    ensures Answered(answer) == Ok(current)
  {
  }

  /** `resolveReal`: it ends on every file system, cyclic links included, since each link uses up the budget. */
  method ResolveReal(lstat: string -> Entry, path: string, followLast: bool) returns (resolved: Result<string, Error>)
    ensures resolved == Resolve(lstat, path, followLast)
  {
    var queue := Components(path);
    var current := "/";
    var links := 0;
    ghost var names: seq<string> := [];
    ghost var answer := Follow(lstat, queue, names, MAX_LINKS, followLast);
    AtStart(lstat, path, followLast, answer);
    while |queue| > 0
      invariant At(lstat, queue, current, names, links, followLast, answer)
      decreases MAX_LINKS - links, |queue|
    {
      var part := queue[0];
      if part == ".." {
        AtParent(lstat, queue, current, names, links, followLast, answer);
        queue, current, names := queue[1..], ParentOf(current), Parent(names);
      } else {
        var next := JoinPath(current, part);
        var entry := lstat(next);
        AtName(lstat, queue, current, names, links, followLast, answer);
        if entry.Failing? {
          return Err(LstatFailed(entry.code));
        } else if entry.Link? && (followLast || |queue| > 1) {
          AtLink(lstat, queue, current, names, links, followLast, answer, entry.target);
          links := links + 1;
          if links > MAX_LINKS { return Err(TooManyLinks); }
          if "/" <= entry.target { current, names := "/", []; }
          queue := Components(entry.target) + queue[1..];
        } else {
          queue, current, names := queue[1..], next, names + [part];
        }
      }
    }
    AtEnd(lstat, current, names, links, followLast, answer);
    resolved := Ok(current);
  }

  // ---------------------------------------------------------------------------------------------
  // What a resolved path is

  /** Every prefix of the names was looked at, and none is a link; the last may be when it is not followed. */
  ghost predicate LinkFree(lstat: string -> Entry, names: seq<string>) {
    forall n :: 0 < n <= |names| ==> !lstat(Render(names[..n])).Link? && !lstat(Render(names[..n])).Failing?
  }

  lemma LinkFreeAppend(lstat: string -> Entry, names: seq<string>, part: string)
    requires LinkFree(lstat, names)
    requires !lstat(Render(names + [part])).Link? && !lstat(Render(names + [part])).Failing?
    ensures LinkFree(lstat, names + [part])
  {
    var all := names + [part];
    forall n | 0 < n <= |all| ensures !lstat(Render(all[..n])).Link? && !lstat(Render(all[..n])).Failing? {
      assert n <= |names| ==> all[..n] == names[..n];
      assert n == |all| ==> all[..n] == all;
    }
  }

  lemma LinkFreeParent(lstat: string -> Entry, names: seq<string>)
    requires LinkFree(lstat, names)
    ensures LinkFree(lstat, Parent(names))
  {
    var up := Parent(names);
    forall n | 0 < n <= |up| ensures !lstat(Render(up[..n])).Link? && !lstat(Render(up[..n])).Failing? {
      assert up[..n] == names[..n];
    }
  }

  lemma {:induction false} FollowedPathIsLinkFree(lstat: string -> Entry, queue: seq<string>, current: seq<string>, budget: nat)
    requires LinkFree(lstat, current) && AllNames(current) && QueueOk(queue)
    ensures var r := Follow(lstat, queue, current, budget, true);
            r.Ok? ==> LinkFree(lstat, r.value) && AllNames(r.value)
    decreases budget, |queue|
  {
    if queue != [] {
      if queue[0] == ".." {
        LinkFreeParent(lstat, current);
        FollowedPathIsLinkFree(lstat, queue[1..], Parent(current), budget);
      } else {
        var next := current + [queue[0]];
        FollowName(lstat, queue, current, budget, true);
        match lstat(Render(next)) {
          case Failing(_) =>
          case Link(target) =>
            if budget > 0 {
              FollowedPathIsLinkFree(lstat, Components(target) + queue[1..], if "/" <= target then [] else current, budget - 1);
            }
          case _ =>
            LinkFreeAppend(lstat, current, queue[0]);
            FollowedPathIsLinkFree(lstat, queue[1..], next, budget);
        }
      }
    }
  }

  /** Following a link-free path changes nothing, whatever the budget. */
  lemma {:induction false} LinkFreePathStays(lstat: string -> Entry, done: seq<string>, left: seq<string>, budget: nat, followLast: bool)
    requires LinkFree(lstat, done + left) && AllNames(left)
    ensures Follow(lstat, left, done, budget, followLast) == Ok(done + left)
    decreases |left|
  {
    if left == [] {
      assert done + left == done;
    } else {
      assert (done + left)[..|done| + 1] == done + [left[0]];
      assert done + [left[0]] + left[1..] == done + left;
      LinkFreePathStays(lstat, done + [left[0]], left[1..], budget, followLast);
    }
  }

  /** With the last link followed, no prefix of the result is a link. */
  lemma ResolvedPathHasNoLink(lstat: string -> Entry, path: string)
    requires Resolve(lstat, path, true).Ok?
    ensures exists names :: AllNames(names) && Resolve(lstat, path, true).value == Render(names) && LinkFree(lstat, names)
  {
    FollowedPathIsLinkFree(lstat, Components(path), [], MAX_LINKS);
    var names := Follow(lstat, Components(path), [], MAX_LINKS, true).value;
    assert Resolve(lstat, path, true).value == Render(names);
  }

  /** Resolving the result again changes nothing. */
  lemma ResolvingIsIdempotent(lstat: string -> Entry, path: string, followLast: bool)
    requires Resolve(lstat, path, true).Ok?
    ensures Resolve(lstat, Resolve(lstat, path, true).value, followLast) == Resolve(lstat, path, true)
  {
    FollowedPathIsLinkFree(lstat, Components(path), [], MAX_LINKS);
    var names := Follow(lstat, Components(path), [], MAX_LINKS, true).value;
    ComponentsOfRender(names);
    assert [] + names == names;
    LinkFreePathStays(lstat, [], names, MAX_LINKS, followLast);
  }

  lemma {:induction false} NoLinksCollapse(lstat: string -> Entry, queue: seq<string>, current: seq<string>, budget: nat, followLast: bool)
    requires forall p :: !lstat(p).Link?
    requires QueueOk(queue)
    ensures var r := Follow(lstat, queue, current, budget, followLast); var c := Collapse(current, queue);
            r.Ok? && c.Some? ==> r.value == c.value
    decreases |queue|
  {
    if queue != [] {
      if queue[0] == ".." {
        NoLinksCollapse(lstat, queue[1..], Parent(current), budget, followLast);
      } else {
        NoLinksCollapse(lstat, queue[1..], current + [queue[0]], budget, followLast);
      }
    }
  }

  /** Without links a path that has a normal form resolves to it, unless a lookup fails. */
  lemma WithoutLinksResolvingIsNormalising(lstat: string -> Entry, path: string, followLast: bool)
    requires forall p :: !lstat(p).Link?
    requires Normal(path).Some? && Resolve(lstat, path, followLast).Ok?
    ensures Resolve(lstat, path, followLast).value == Normal(path).value
    ensures Resolve(lstat, Normal(path).value, followLast).Ok? ==>
              Resolve(lstat, Normal(path).value, followLast).value == Normal(path).value
  {
    CollapseKept([], Split(path));
    NoLinksCollapse(lstat, Components(path), [], MAX_LINKS, followLast);
    NormalIsIdempotent(path);
    CollapseKept([], Split(Normal(path).value));
    NoLinksCollapse(lstat, Components(Normal(path).value), [], MAX_LINKS, followLast);
  }

  /** A larger budget never changes an answer, it only turns `TooManyLinks` into one. */
  lemma {:induction false} BudgetOnlyLimits(
      lstat: string -> Entry, queue: seq<string>, current: seq<string>, budget: nat, more: nat, followLast: bool)
    requires budget <= more
    ensures Follow(lstat, queue, current, budget, followLast) != Err(TooManyLinks) ==>
              Follow(lstat, queue, current, more, followLast) == Follow(lstat, queue, current, budget, followLast)
    decreases budget, |queue|
  {
    if queue != [] {
      if queue[0] == ".." {
        BudgetOnlyLimits(lstat, queue[1..], Parent(current), budget, more, followLast);
      } else {
        var next := current + [queue[0]];
        match lstat(Render(next)) {
          case Failing(_) =>
          case Link(target) =>
            if !followLast && |queue| == 1 {
              BudgetOnlyLimits(lstat, queue[1..], next, budget, more, followLast);
            } else if budget > 0 {
              BudgetOnlyLimits(lstat, Components(target) + queue[1..], if "/" <= target then [] else current,
                               budget - 1, more - 1, followLast);
            }
          case _ => BudgetOnlyLimits(lstat, queue[1..], next, budget, more, followLast);
        }
      }
    }
  }

  /** A link-free prefix is walked without using the budget. */
  lemma {:induction false} FollowPrefix(
      lstat: string -> Entry, done: seq<string>, names: seq<string>, rest: seq<string>, budget: nat, followLast: bool)
    requires AllNames(names) && LinkFree(lstat, done + names)
    ensures Follow(lstat, names + rest, done, budget, followLast) == Follow(lstat, rest, done + names, budget, followLast)
    decreases |names|
  {
    if names == [] {
      assert names + rest == rest && done + names == done;
    } else {
      assert (names + rest)[1..] == names[1..] + rest;
      assert (done + names)[..|done| + 1] == done + [names[0]];
      assert done + [names[0]] + names[1..] == done + names;
      FollowPrefix(lstat, done + [names[0]], names[1..], rest, budget, followLast);
    }
  }

  /** Where the target of a link at `path` starts from. */
  function Origin(path: seq<string>, target: string): seq<string> {
    if "/" <= target then [] else Parent(path)
  }

  /** A link in a link-free directory that leads, absolutely or from its own directory, to one of `paths`. */
  ghost predicate LeadsTo(lstat: string -> Entry, path: seq<string>, paths: set<seq<string>>) {
    && path != [] && AllNames(path) && LinkFree(lstat, Parent(path))
    && var entry := lstat(Render(path));
    entry.Link? && Origin(path, entry.target) + Components(entry.target) in paths
  }

  /** Links each of which leads to one of them. */
  ghost predicate Circular(lstat: string -> Entry, paths: set<seq<string>>) {
    forall path {:trigger LeadsTo(lstat, path, paths)} :: path in paths ==> LeadsTo(lstat, path, paths)
  }

  /** The last name is what makes the path a link: the walk gets to its directory for free. */
  lemma ReachLink(lstat: string -> Entry, start: seq<string>, rest: seq<string>, budget: nat)
    requires rest != [] && AllNames(start + rest) && LinkFree(lstat, Parent(start + rest))
    ensures var path := start + rest;
            Follow(lstat, rest, start, budget, true) == Follow(lstat, [path[|path| - 1]], Parent(path), budget, true)
  {
    var path, front := start + rest, rest[..|rest| - 1];
    assert start + front == Parent(path);
    assert front + [path[|path| - 1]] == rest;
    assert AllNames(front) by {
      forall i | 0 <= i < |front| ensures IsName(front[i]) { assert front[i] == path[|start| + i]; }
    }
    FollowPrefix(lstat, start, front, [path[|path| - 1]], budget, true);
  }

  lemma TakeLink(lstat: string -> Entry, path: seq<string>, budget: nat, target: string)
    requires path != [] && AllNames(path) && lstat(Render(path)) == Link(target)
    ensures Follow(lstat, [path[|path| - 1]], Parent(path), budget, true) ==
            if budget == 0 then Err(TooManyLinks) else Follow(lstat, Components(target), Origin(path, target), budget - 1, true)
  {
    var last := path[|path| - 1];
    assert Parent(path) + [last] == path;
    FollowName(lstat, [last], Parent(path), budget, true);
    assert Components(target) + [last][1..] == Components(target);
  }

  lemma DirectoriesAreNoLinks(lstat: string -> Entry, names: seq<string>, paths: set<seq<string>>)
    requires LinkFree(lstat, names)
    ensures !LeadsTo(lstat, names, paths)
  {
    if names != [] {
      assert names[..|names|] == names;
    }
  }

  /** A link leads somewhere: its directory, which is link-free, is none of the links. */
  lemma TargetsAreNamed(lstat: string -> Entry, paths: set<seq<string>>, path: seq<string>, target: string)
    requires Circular(lstat, paths) && path in paths && lstat(Render(path)) == Link(target)
    ensures Components(target) != [] && Origin(path, target) + Components(target) in paths
  {
    assert LeadsTo(lstat, path, paths);
    assert LinkFree(lstat, []);
    DirectoriesAreNoLinks(lstat, Origin(path, target), paths);
    assert Origin(path, target) + [] == Origin(path, target);
  }

  /** One link further round the circle. */
  lemma OneLinkFurther(lstat: string -> Entry, paths: set<seq<string>>, start: seq<string>, rest: seq<string>, budget: nat)
      returns (origin: seq<string>, next: seq<string>)
    requires Circular(lstat, paths) && rest != [] && start + rest in paths
    ensures next != [] && origin + next in paths
    ensures Follow(lstat, rest, start, budget, true) ==
            if budget == 0 then Err(TooManyLinks) else Follow(lstat, next, origin, budget - 1, true)
  {
    var path := start + rest;
    assert LeadsTo(lstat, path, paths);
    var target := lstat(Render(path)).target;
    origin, next := Origin(path, target), Components(target);
    ReachLink(lstat, start, rest, budget);
    TakeLink(lstat, path, budget, target);
    TargetsAreNamed(lstat, paths, path, target);
  }

  /** Links that lead round in a circle, of whatever length, exhaust every budget. */
  lemma {:induction false} CircularLinksNeverResolve(
      lstat: string -> Entry, paths: set<seq<string>>, start: seq<string>, rest: seq<string>, budget: nat)
    requires Circular(lstat, paths) && rest != [] && start + rest in paths
    ensures Follow(lstat, rest, start, budget, true) == Err(TooManyLinks)
    decreases budget
  {
    var origin, next := OneLinkFurther(lstat, paths, start, rest, budget);
    if budget > 0 {
      var less: nat := budget - 1;
      CircularLinksNeverResolve(lstat, paths, origin, next, less);
    }
  }

  /** A link to its own path is the shortest such circle. */
  lemma SelfLinkNeverResolves(lstat: string -> Entry, names: seq<string>, part: string, budget: nat)
    requires AllNames(names) && IsName(part) && LinkFree(lstat, names)
    requires lstat(Render(names + [part])) == Link(Render(names + [part]))
    ensures Follow(lstat, [part], names, budget, true) == Err(TooManyLinks)
  {
    SelfLinkIsCircular(lstat, names, part);
    CircularLinksNeverResolve(lstat, {names + [part]}, names, [part], budget);
  }

  lemma SelfLinkIsCircular(lstat: string -> Entry, names: seq<string>, part: string)
    requires AllNames(names) && IsName(part) && LinkFree(lstat, names)
    requires lstat(Render(names + [part])) == Link(Render(names + [part]))
    ensures Circular(lstat, {names + [part]})
  {
    NamesStay(names, part);
    ComponentsOfRender(names + [part]);
    assert Parent(names + [part]) == names;
    assert [] + (names + [part]) == names + [part];
    assert LeadsTo(lstat, names + [part], {names + [part]});
  }

  /** With the last link left alone, everything before the last name is link-free. */
  lemma {:induction false} UnfollowedPathIsNearlyLinkFree(
      lstat: string -> Entry, queue: seq<string>, current: seq<string>, budget: nat)
    requires LinkFree(lstat, current) && AllNames(current) && QueueOk(queue)
    ensures var r := Follow(lstat, queue, current, budget, false);
            r.Ok? ==> LinkFree(lstat, Parent(r.value)) && AllNames(r.value) && (r.value != [] ==> !lstat(Render(r.value)).Failing?)
    decreases budget, |queue|
  {
    if queue == [] {
      LinkFreeParent(lstat, current);
      assert current[..|current|] == current;
    } else if queue[0] == ".." {
      LinkFreeParent(lstat, current);
      UnfollowedPathIsNearlyLinkFree(lstat, queue[1..], Parent(current), budget);
    } else {
      var next := current + [queue[0]];
      FollowName(lstat, queue, current, budget, false);
      match lstat(Render(next)) {
        case Failing(_) =>
        case Link(target) =>
          if |queue| == 1 {
            assert Parent(next) == current;
          } else if budget > 0 {
            UnfollowedPathIsNearlyLinkFree(lstat, Components(target) + queue[1..], if "/" <= target then [] else current, budget - 1);
          }
        case _ =>
          LinkFreeAppend(lstat, current, queue[0]);
          UnfollowedPathIsNearlyLinkFree(lstat, queue[1..], next, budget);
      }
    }
  }

  lemma NearlyLinkFreeStays(lstat: string -> Entry, names: seq<string>, budget: nat)
    requires AllNames(names) && LinkFree(lstat, Parent(names)) && (names != [] ==> !lstat(Render(names)).Failing?)
    ensures Follow(lstat, names, [], budget, false) == Ok(names)
  {
    if names != [] {
      var front, last := Parent(names), names[|names| - 1];
      assert front + [last] == names && [] + front == front;
      FollowPrefix(lstat, [], front, [last], budget, false);
      FollowName(lstat, [last], front, budget, false);
    }
  }

  /** Leaving the last link alone twice is leaving it alone once. */
  lemma UnfollowedResolvingIsIdempotent(lstat: string -> Entry, path: string)
    requires Resolve(lstat, path, false).Ok?
    ensures Resolve(lstat, Resolve(lstat, path, false).value, false) == Resolve(lstat, path, false)
  {
    UnfollowedPathIsNearlyLinkFree(lstat, Components(path), [], MAX_LINKS);
    var names := Follow(lstat, Components(path), [], MAX_LINKS, false).value;
    ComponentsOfRender(names);
    NearlyLinkFreeStays(lstat, names, MAX_LINKS);
  }
}
