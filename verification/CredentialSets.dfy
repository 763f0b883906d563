/**
 Sets of one credential store that overlap: each looks its identity up, later its row lands, and last its entry is
 indexed, with steps of other sets in between.
 */
module CredentialSets {
  import opened Wrappers
  import opened CredentialRows
  import opened CredentialStore

  datatype Call = Call(service: string, identity: Identity, value: string, account: Option<string>, draw: Draw)

  /** A set under way: the entry it found, and once its row has landed the entry it will index. */
  datatype Pending = Pending(call: Call, existing: Option<Stored>, written: Option<Stored>)

  datatype State = State(keys: Keys, rows: seq<Row>, index: Index, pending: map<nat, Pending>)

  datatype Action =
    | Look(n: nat, call: Call)   // the sealed value is there: the entry is looked up and the adapter called
    | Land(n: nat, id: string)   // the adapter writes the row, a new one under `id`
    | Keep(n: nat)               // the adapter has answered: the entry is indexed

  function Entry(index: Index, identity: Identity): Option<Stored> {
    if identity in index then Some(index[identity]) else None
  }

  function FreshWarm(s: State): Index {
    IndexOf(s.keys, s.rows)
  }

  predicate Unused(rows: seq<Row>, id: string) {
    id != "" && forall i :: 0 <= i < |rows| ==> rows[i].id != Text(id)
  }

  /** A set that fails changes nothing, so only those that succeed and name their row are followed. */
  predicate Fine(call: Call) {
    && call.service != "" && call.identity.name != "" && call.draw.Valid()
    && call.identity.principal != Some("") && call.account != Some("")
  }

  predicate Enabled(s: State, a: Action) {
    match a
    case Look(n, call) => n !in s.pending && Fine(call) && s.keys.current.Some?
    case Land(n, id) =>
      n in s.pending && s.pending[n].written.None? && Unused(s.rows, id) && s.keys.current.Some?
    case Keep(n) => n in s.pending && s.pending[n].written.Some?
  }

  function DataOf(key: Key, call: Call): Row {
    RowData(key, call.service, call.identity, call.value, call.account, call.draw)
  }

  function RowId(existing: Option<Stored>, id: string): string {
    if existing.Some? then existing.value.id else id
  }

  function Written(call: Call, existing: Option<Stored>, id: string): Stored {
    Stored(RowId(existing, id), call.service, call.identity.name, call.value, Last4(call.value), call.draw.at,
           if call.account.None? && existing.Some? then existing.value.account else call.account, call.identity.principal)
  }

  function Landed(keys: Keys, rows: seq<Row>, call: Call, existing: Option<Stored>, id: string): seq<Row>
    requires keys.current.Some?
  {
    var data := DataOf(keys.current.value, call);
    if existing.Some? then Update(rows, existing.value.id, data) else Create(rows, data, id)
  }

  function Step(s: State, a: Action): State
    requires Enabled(s, a)
  {
    match a
    case Look(n, call) => s.(pending := s.pending[n := Pending(call, Entry(s.index, call.identity), None)])
    case Land(n, id) =>
      var p := s.pending[n];
      s.(rows := Landed(s.keys, s.rows, p.call, p.existing, id),
         pending := s.pending[n := p.(written := Some(Written(p.call, p.existing, id)))])
    case Keep(n) =>
      var p := s.pending[n];
      s.(index := s.index[p.call.identity := p.written.value], pending := s.pending - {n})
  }

  function After(s: State, a: Action): State {
    if Enabled(s, a) then Step(s, a) else s
  }

  function Play(s: State, actions: seq<Action>): State
    decreases |actions|
  {
    if actions == [] then s else Play(After(s, actions[0]), actions[1..])
  }

  /** Look, land and keep, one after another, are the store's `set`. */
  lemma AloneItIsTheSet(s: State, n: nat, call: Call, id: string)
    requires Enabled(s, Look(n, call)) && Unused(s.rows, id)
    ensures var t := After(After(After(s, Look(n, call)), Land(n, id)), Keep(n));
            var (r, w) := SetCredential(Store(s.keys, s.rows, s.index, true), call.service, call.identity, call.value, call.account,
                                        call.draw, id);
            r.Ok? && t.rows == w.rows && t.index == w.index && t.pending == s.pending
  {
  }

  // ---------------------------------------------------------------------------------------------
  // Sets kept apart

  predicate IsPending(pending: map<nat, Pending>, identity: Identity) {
    exists n :: n in pending && pending[n].call.identity == identity
  }

  /** No set of the identity is under way when one begins. */
  predicate Apart(s: State, a: Action) {
    a.Look? && Enabled(s, a) ==> !IsPending(s.pending, a.call.identity)
  }

  predicate KeptApart(s: State, actions: seq<Action>)
    decreases |actions|
  {
    actions == [] || (Apart(s, actions[0]) && KeptApart(After(s, actions[0]), actions[1..]))
  }

  /** The rows: readable ones are distinct, and the ids too. */
  ghost predicate RowsOk(keys: Keys, rows: seq<Row>) {
    keys.Valid() && keys.current.Some? && DistinctIds(rows) && DistinctReadable(keys, rows)
  }

  /** A set under way found what the index still has; once landed, it is what a warm reads. */
  ghost predicate PendingOk(p: Pending, warm: Index, index: Index) {
    && Fine(p.call) && p.existing == Entry(index, p.call.identity)
    && Entry(warm, p.call.identity) == (if p.written.Some? then p.written else p.existing)
    && (p.written.Some? ==> Says(p.written.value, p.call) && (p.existing.Some? ==> p.written.value.id == p.existing.value.id))
  }

  /** The entry tells of this call. */
  predicate Says(s: Stored, call: Call) {
    KeyOf(s) == call.identity && s.service == call.service && s.value == call.value && s.updatedAt == call.draw.at
  }

  /** `warm`, what a fresh warm would build, and the index agree but for the sets under way, one an identity at most. */
  ghost predicate Agree(warm: Index, index: Index, pending: map<nat, Pending>) {
    && (forall n :: n in pending ==> PendingOk(pending[n], warm, index))
    && (forall n, m :: n in pending && m in pending && n != m ==> pending[n].call.identity != pending[m].call.identity)
    && (forall identity :: !IsPending(pending, identity) ==> Entry(index, identity) == Entry(warm, identity))
  }

  ghost predicate Inv(s: State) {
    RowsOk(s.keys, s.rows) && Agree(FreshWarm(s), s.index, s.pending)
  }

  /** Some identity with no set under way is not indexed as a fresh warm would index it. */
  ghost predicate Drifted(s: State) {
    exists identity :: !IsPending(s.pending, identity) && Entry(s.index, identity) != Entry(FreshWarm(s), identity)
  }

  /** A row that lands over what its set found is what a warm then reads, and the only change. */
  lemma LandingReads(keys: Keys, rows: seq<Row>, call: Call, existing: Option<Stored>, id: string)
    requires RowsOk(keys, rows) && Fine(call) && existing == Entry(IndexOf(keys, rows), call.identity) && Unused(rows, id)
    ensures var landed := Landed(keys, rows, call, existing, id);
            RowsOk(keys, landed) && IndexOf(keys, landed) == IndexOf(keys, rows)[call.identity := Written(call, existing, id)]
  {
    var store := Store(keys, rows, IndexOf(keys, rows), true);
    SetKeepsSynced(store, call.service, call.identity, call.value, call.account, call.draw, id);
  }

  lemma BegunAgrees(warm: Index, index: Index, pending: map<nat, Pending>, n: nat, call: Call)
    requires Agree(warm, index, pending) && n !in pending && Fine(call) && !IsPending(pending, call.identity)
    ensures Agree(warm, index, pending[n := Pending(call, Entry(index, call.identity), None)])
  {
    var next := pending[n := Pending(call, Entry(index, call.identity), None)];
    assert next[n].call.identity == call.identity;
    forall identity | !IsPending(next, identity) ensures !IsPending(pending, identity) {
      forall m | m in pending ensures pending[m].call.identity != identity { assert next[m] == pending[m]; }
    }
  }

  lemma LandedPendings(warm: Index, index: Index, pending: map<nat, Pending>, n: nat, entry: Stored)
    requires Agree(warm, index, pending) && n in pending && pending[n].written.None? && Says(entry, pending[n].call)
    requires pending[n].existing.Some? ==> entry.id == pending[n].existing.value.id
    ensures var next := pending[n := pending[n].(written := Some(entry))];
            forall m :: m in next ==> PendingOk(next[m], warm[pending[n].call.identity := entry], index)
  {
    var next := pending[n := pending[n].(written := Some(entry))];
    forall m | m in next ensures PendingOk(next[m], warm[pending[n].call.identity := entry], index) {
      assert PendingOk(pending[m], warm, index);
    }
  }

  lemma LandedAgrees(warm: Index, index: Index, pending: map<nat, Pending>, n: nat, entry: Stored)
    requires Agree(warm, index, pending) && n in pending && pending[n].written.None? && Says(entry, pending[n].call)
    requires pending[n].existing.Some? ==> entry.id == pending[n].existing.value.id
    ensures Agree(warm[pending[n].call.identity := entry], index, pending[n := pending[n].(written := Some(entry))])
  {
    var p, next := pending[n], pending[n := pending[n].(written := Some(entry))];
    LandedPendings(warm, index, pending, n, entry);
    forall identity | !IsPending(next, identity) ensures !IsPending(pending, identity) && identity != p.call.identity {
      assert next[n].call == p.call;
      forall m | m in pending ensures pending[m].call.identity != identity { assert next[m].call == pending[m].call; }
    }
  }

  lemma KeptAgrees(warm: Index, index: Index, pending: map<nat, Pending>, n: nat)
    requires Agree(warm, index, pending) && n in pending && pending[n].written.Some?
    ensures Agree(warm, index[pending[n].call.identity := pending[n].written.value], pending - {n})
  {
    var p, next := pending[n], pending - {n};
    var kept := index[p.call.identity := p.written.value];
    forall identity | !IsPending(next, identity) ensures Entry(kept, identity) == Entry(warm, identity) {
      if identity != p.call.identity {
        forall m | m in pending ensures pending[m].call.identity != identity { if m != n { assert next[m] == pending[m]; } }
      }
    }
  }

  lemma ApartKeepsInv(s: State, a: Action)
    requires Inv(s) && Apart(s, a)
    ensures Inv(After(s, a))
  {
    if Enabled(s, a) {
      match a {
        case Look(n, call) => BegunAgrees(FreshWarm(s), s.index, s.pending, n, call);
        case Land(n, id) =>
          var p := s.pending[n];
          LandingReads(s.keys, s.rows, p.call, p.existing, id);
          LandedAgrees(FreshWarm(s), s.index, s.pending, n, Written(p.call, p.existing, id));
        case Keep(n) => KeptAgrees(FreshWarm(s), s.index, s.pending, n);
      }
    }
  }

  /** Sets of different identities may overlap as they like. */
  lemma {:induction false} SetsKeptApartStayRight(s: State, actions: seq<Action>)
    requires Inv(s) && KeptApart(s, actions)
    ensures Inv(Play(s, actions)) && !Drifted(Play(s, actions))
    ensures var t := Play(s, actions); t.pending == map[] ==> Synced(Store(t.keys, t.rows, t.index, true))
    decreases |actions|
  {
    if actions == [] {
      if s.pending == map[] { InvIsSynced(s); }
    } else {
      ApartKeepsInv(s, actions[0]);
      SetsKeptApartStayRight(After(s, actions[0]), actions[1..]);
    }
  }

  lemma InvIsSynced(s: State)
    requires Inv(s) && s.pending == map[]
    ensures Synced(Store(s.keys, s.rows, s.index, true))
  {
    forall identity ensures Entry(s.index, identity) == Entry(FreshWarm(s), identity) { assert !IsPending(s.pending, identity); }
    assert s.index == FreshWarm(s) by { SameEntriesSameIndex(s.index, FreshWarm(s)); }
  }

  lemma SameEntriesSameIndex(a: Index, b: Index)
    requires forall identity :: Entry(a, identity) == Entry(b, identity)
    ensures a == b
  {
    forall identity ensures identity in a <==> identity in b { assert Entry(a, identity) == Entry(b, identity); }
    forall identity | identity in a ensures a[identity] == b[identity] { assert Entry(a, identity) == Entry(b, identity); }
  }

  // ---------------------------------------------------------------------------------------------
  // Sets that overlap

  /** The two write different rows. */
  predicate Differ(a: Call, b: Call) {
    a.service != b.service || a.value != b.value || a.draw.at != b.draw.at
  }

  /** A landed set of an identity and one that began before it was indexed: both found the same entry. */
  ghost predicate Overlapped(s: State, n: nat, m: nat) {
    && RowsOk(s.keys, s.rows) && n in s.pending && m in s.pending && n != m
    && var p, q := s.pending[n], s.pending[m];
    && p.call.identity == q.call.identity && p.existing == q.existing && Fine(q.call) && Differ(p.call, q.call)
    && p.written.Some? && q.written.None? && Says(p.written.value, p.call)
    && Entry(FreshWarm(s), p.call.identity) == p.written
    && (p.existing.Some? ==> p.written.value.id == p.existing.value.id)
    && forall k :: k in s.pending && k != n && k != m ==> s.pending[k].call.identity != p.call.identity
  }

  lemma {:induction false} AnUnusedId(rows: seq<Row>) returns (id: string)
    ensures Unused(rows, id) && forall i :: 0 <= i < |rows| && rows[i].id.Text? ==> |rows[i].id.text| < |id|
    decreases |rows|
  {
    if rows == [] {
      id := "a";
    } else {
      id := AnUnusedId(rows[1..]);
      if rows[0].id.Text? { id := id + rows[0].id.text; }
      forall i | 0 <= i < |rows| && rows[i].id.Text? ensures |rows[i].id.text| < |id| {
        if i > 0 { assert rows[1..][i - 1] == rows[i]; }
      }
    }
  }

  /** A second row lands, over the first or beside it, and a warm reads the identity from it. */
  lemma LandsOver(keys: Keys, rows: seq<Row>, call: Call, was: Stored, existing: Option<Stored>, id: string)
    requires RowsOk(keys, rows) && Fine(call) && Unused(rows, id) && Entry(IndexOf(keys, rows), call.identity) == Some(was)
    requires existing.Some? ==> existing.value.id == was.id
    ensures var read := Entry(IndexOf(keys, Landed(keys, rows, call, existing, id)), call.identity);
            read.Some? && Says(read.value, call)
  {
    var identity := call.identity;
    var data := DataOf(keys.current.value, call);
    if existing.Some? {
      var k := IndexedRow(keys, rows, identity);
      UpdateAt(rows, k, was.id, data);
      WrittenRowReads(keys, rows[k], call.service, identity, call.value, call.account, call.draw, was.id);
      var r := Merge(rows[k], data, was.id);
      WarmRewritten(keys, rows, k, r, Read(keys, r).value);
    } else {
      WrittenRowReads(keys, Blank, call.service, identity, call.value, call.account, call.draw, id);
      assert Merge(Blank, data, id) == data.(id := Text(id));
      IndexOfMore(keys, rows, data.(id := Text(id)));
    }
  }

  function Overtake(n: nat, m: nat, id: string): seq<Action> {
    [Land(m, id)] + ([Keep(m)] + ([Keep(n)] + []))
  }

  lemma PlayMore(s: State, a: Action, rest: seq<Action>)
    ensures Play(s, [a] + rest) == Play(After(s, a), rest)
    ensures KeptApart(s, [a] + rest) <==> Apart(s, a) && KeptApart(After(s, a), rest)
  {
    assert ([a] + rest)[1..] == rest;
  }

  /** The second set lands and is indexed, and the first is indexed last. */
  lemma OvertakingIs(s: State, n: nat, m: nat, id: string)
    requires Overlapped(s, n, m) && Unused(s.rows, id)
    ensures KeptApart(s, Overtake(n, m, id))
    ensures Play(s, Overtake(n, m, id)) == After(After(After(s, Land(m, id)), Keep(m)), Keep(n))
  {
    PlayMore(s, Land(m, id), [Keep(m)] + ([Keep(n)] + []));
    var t := After(s, Land(m, id));
    PlayMore(t, Keep(m), [Keep(n)] + []);
    PlayMore(After(t, Keep(m)), Keep(n), []);
  }

  lemma OvertakingLeaves(s: State, n: nat, m: nat, id: string)
    requires Overlapped(s, n, m) && Unused(s.rows, id)
    ensures var p, q := s.pending[n], s.pending[m];
            var v := After(After(After(s, Land(m, id)), Keep(m)), Keep(n));
            && v.rows == Landed(s.keys, s.rows, q.call, q.existing, id) && v.keys == s.keys
            && Entry(v.index, p.call.identity) == p.written && v.pending == s.pending - {m} - {n}
  {
    var t := After(s, Land(m, id));
    assert t.pending[n] == s.pending[n] && t.pending[m].written.Some?;
    var u := After(t, Keep(m));
    assert u.pending[n] == s.pending[n];
  }

  lemma OvertakingDrifts(s: State, n: nat, m: nat, id: string)
    requires Overlapped(s, n, m) && Unused(s.rows, id)
    ensures Drifted(After(After(After(s, Land(m, id)), Keep(m)), Keep(n)))
  {
    var p, q := s.pending[n], s.pending[m];
    var v := After(After(After(s, Land(m, id)), Keep(m)), Keep(n));
    OvertakingLeaves(s, n, m, id);
    LandsOver(s.keys, s.rows, q.call, p.written.value, q.existing, id);
    assert !IsPending(v.pending, p.call.identity);
    assert Entry(v.index, p.call.identity) != Entry(FreshWarm(v), p.call.identity);
  }

  /** The set under way lands, if it has not. */
  lemma TheFirstLands(s: State, n: nat, m: nat, call: Call) returns (rest: seq<Action>)
    requires Inv(s) && Enabled(s, Look(m, call)) && n in s.pending
    requires s.pending[n].call.identity == call.identity && Differ(s.pending[n].call, call)
    ensures var t := After(s, Look(m, call)); KeptApart(t, rest) && Overlapped(Play(t, rest), n, m)
  {
    var t := After(s, Look(m, call));
    var p := s.pending[n];
    if p.written.Some? {
      rest := [];
    } else {
      var id := AnUnusedId(s.rows);
      LandingReads(s.keys, s.rows, p.call, p.existing, id);
      rest := [Land(n, id)] + [];
      PlayMore(t, Land(n, id), []);
      FirstLandsOverlapped(s, n, m, call, id);
    }
  }

  lemma LookThenLand(s: State, n: nat, m: nat, call: Call, id: string)
    requires Enabled(s, Look(m, call)) && Enabled(s, Land(n, id))
    ensures var p := s.pending[n];
            var q := Pending(call, Entry(s.index, call.identity), None);
            After(After(s, Look(m, call)), Land(n, id)) ==
            State(s.keys, Landed(s.keys, s.rows, p.call, p.existing, id), s.index,
                  s.pending[m := q][n := p.(written := Some(Written(p.call, p.existing, id)))])
  {
  }

  lemma FirstLandsOverlapped(s: State, n: nat, m: nat, call: Call, id: string)
    requires Inv(s) && Enabled(s, Look(m, call)) && n in s.pending && Unused(s.rows, id) && s.pending[n].written.None?
    requires s.pending[n].call.identity == call.identity && Differ(s.pending[n].call, call)
    ensures Overlapped(After(After(s, Look(m, call)), Land(n, id)), n, m)
  {
    var p := s.pending[n];
    assert PendingOk(p, FreshWarm(s), s.index);
    LandingReads(s.keys, s.rows, p.call, p.existing, id);
    LookThenLand(s, n, m, call, id);
  }

  lemma {:induction false} InParts(s: State, a: seq<Action>, b: seq<Action>)
    ensures Play(s, a + b) == Play(Play(s, a), b)
    ensures KeptApart(s, a + b) <==> KeptApart(s, a) && KeptApart(Play(s, a), b)
    decreases |a|
  {
    if a == [] {
      assert a + b == b;
    } else {
      assert (a + b)[1..] == a[1..] + b;
      InParts(After(s, a[0]), a[1..], b);
    }
  }

  /** A continuation, no further sets overlapping, that leaves an identity indexed as a warm would not. */
  ghost predicate Drifts(s: State, rest: seq<Action>) {
    KeptApart(s, rest) && Drifted(Play(s, rest))
  }

  /** A set that begins while another of its identity is under way: the index may end wrong with both over. */
  lemma AnOverlapDrifts(s: State, a: Action) returns (rest: seq<Action>)
    requires Inv(s) && !Apart(s, a) && Differs(s, a)
    ensures Drifts(After(s, a), rest)
  {
    var n :| n in s.pending && s.pending[n].call.identity == a.call.identity;
    var first := TheFirstLands(s, n, a.n, a.call);
    var t := Play(After(s, a), first);
    var id := AnUnusedId(t.rows);
    OvertakingIs(t, n, a.n, id);
    OvertakingDrifts(t, n, a.n, id);
    rest := first + Overtake(n, a.n, id);
    InParts(After(s, a), first, Overtake(n, a.n, id));
  }

  /** A set writes another row than those of its identity under way. */
  predicate Differs(s: State, a: Action) {
    a.Look? && Enabled(s, a) ==>
      forall n :: n in s.pending && s.pending[n].call.identity == a.call.identity ==> Differ(s.pending[n].call, a.call)
  }

  predicate AllDiffer(s: State, actions: seq<Action>)
    decreases |actions|
  {
    actions == [] || (Differs(s, actions[0]) && AllDiffer(After(s, actions[0]), actions[1..]))
  }

  lemma DriftsLater(s: State, a: Action, before: seq<Action>, rest: seq<Action>)
    requires Drifts(Play(After(s, a), before), rest)
    ensures Drifts(Play(s, [a] + before), rest)
  {
    PlayMore(s, a, before);
  }

  lemma {:induction false} OverlapsDrift(s: State, actions: seq<Action>) returns (before: seq<Action>, rest: seq<Action>)
    requires Inv(s) && !KeptApart(s, actions) && AllDiffer(s, actions)
    ensures before <= actions && Drifts(Play(s, before), rest)
    decreases |actions|
  {
    var a := actions[0];
    if Apart(s, a) {
      ApartKeepsInv(s, a);
      before, rest := OverlapsDrift(After(s, a), actions[1..]);
    } else {
      before := [];
      rest := AnOverlapDrifts(s, a);
    }
    DriftsLater(s, a, before, rest);
    before := [a] + before;
  }

  ghost predicate DriftsFrom(s: State, actions: seq<Action>, before: seq<Action>, rest: seq<Action>) {
    before <= actions && Drifts(Play(s, before), rest)
  }

  /** Somewhere along the run the index can come to differ from what a fresh warm would build. */
  ghost predicate CanDrift(s: State, actions: seq<Action>) {
    exists before, rest :: DriftsFrom(s, actions, before, rest)
  }

  lemma ApartNeverDrifts(s: State, actions: seq<Action>, before: seq<Action>, rest: seq<Action>)
    requires Inv(s) && KeptApart(s, actions)
    ensures !DriftsFrom(s, actions, before, rest)
  {
    if before <= actions {
      assert actions == before + actions[|before|..];
      InParts(s, before, actions[|before|..]);
      SetsKeptApartStayRight(s, before);
      if KeptApart(Play(s, before), rest) { SetsKeptApartStayRight(Play(s, before), rest); }
    }
  }

  /**
   Over any run of sets that write different rows: the index stays what a fresh warm would build, for every identity
   with no set under way, exactly when no set begins while another of its identity is under way.
   */
  lemma IndexStaysRightExactlyWhenApart(s: State, actions: seq<Action>)
    requires Inv(s) && AllDiffer(s, actions)
    ensures KeptApart(s, actions) <==> !CanDrift(s, actions)
  {
    if KeptApart(s, actions) {
      if CanDrift(s, actions) {
        var before, rest :| DriftsFrom(s, actions, before, rest);
        ApartNeverDrifts(s, actions, before, rest);
      }
    } else {
      var before, rest := OverlapsDrift(s, actions);
      assert DriftsFrom(s, actions, before, rest);
    }
  }
}
