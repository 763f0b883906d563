/**
 The credential store: an in-memory index over encrypted rows, and the rotation that moves every
 readable row under the current master key.
 */
module CredentialStore {
  import opened Wrappers
  import opened CredentialRows

  /** The master key, and the previous one of a rotation window; no current key leaves the store disabled. */
  datatype Keys = Keys(current: Option<Key>, previous: Option<Key>) {
    /** Fingerprints are non-empty and tell the two held keys apart. */
    ghost predicate Valid() {
      && (current.Some? ==> current.value.fingerprint != "")
      && (previous.Some? ==> previous.value.fingerprint != "")
      && (current.Some? && previous.Some? && current.value.fingerprint == previous.value.fingerprint ==> current == previous)
    }
  }

  /** The store once the previous key is retired. */
  function CurrentOnly(keys: Keys): Keys {
    Keys(keys.current, None)
  }

  datatype Stored = Stored(
    id: string, service: string, envVar: string, value: string, last4: string, updatedAt: int,
    account: Option<string>, principal: Option<string>)

  type Index = map<Identity, Stored>

  predicate WellFormed(row: Row) {
    && NonEmpty(row.id) && NonEmpty(row.service) && NonEmpty(row.envVar)
    && IsString(row.ciphertext) && NonEmpty(row.iv) && NonEmpty(row.authTag)
    && (row.principal.Absent? || NonEmpty(row.principal))
  }

  function TextOf(c: Cell): Option<string> {
    if NonEmpty(c) then Some(c.text) else None
  }

  function IdentityOf(row: Row): Identity
    requires WellFormed(row)
  {
    Identity(row.envVar.text, TextOf(row.principal))
  }

  function Last4(value: string): string {
    if |value| <= 4 then value else value[|value| - 4..]
  }

  /** The keys a row's stamp admits, the current one first. */
  function Candidates(keys: Keys, keyId: Option<string>): seq<Key> {
    (if keys.current.Some? && (keyId.None? || keyId.value == keys.current.value.fingerprint) then [keys.current.value] else [])
    + (if keys.previous.Some? && (keyId.None? || keyId.value == keys.previous.value.fingerprint) then [keys.previous.value] else [])
  }

  /** The first candidate that opens the row. */
  function TryKeys(candidates: seq<Key>, row: Row, identity: Identity): Option<string> {
    if candidates == [] then None
    else
      var plain := Decrypt(candidates[0], row.ciphertext, row.iv, row.authTag, identity);
      if plain.Some? then plain else TryKeys(candidates[1..], row, identity)
  }

  function DecryptRow(keys: Keys, row: Row, keyId: Option<string>, identity: Identity): Option<string> {
    TryKeys(Candidates(keys, keyId), row, identity)
  }

  /** Whether the row holds a box sealed for this identity, its iv and tag in place. */
  predicate Intact(row: Row, identity: Identity) {
    && row.ciphertext.Sealed? && row.ciphertext.aad == AdditionalData(identity)
    && row.iv == Text(row.ciphertext.iv) && row.authTag == Text(row.ciphertext.tag)
  }

  /** A row opens exactly when it is intact and its key is a candidate, and then to what was sealed. */
  lemma {:induction false} TryKeysOpens(candidates: seq<Key>, row: Row, identity: Identity)
    ensures TryKeys(candidates, row, identity) ==
            if Intact(row, identity) && row.ciphertext.key in candidates then Some(row.ciphertext.plain) else None
  {
    if candidates != [] {
      TryKeysOpens(candidates[1..], row, identity);
      assert candidates == [candidates[0]] + candidates[1..];
    }
  }

  /** What `warm` reads in a row: `None` for a malformed or unreadable one. */
  function Read(keys: Keys, row: Row): Option<Stored> {
    if keys.current.None? || !WellFormed(row) then None
    else
      match DecryptRow(keys, row, TextOf(row.keyId), IdentityOf(row))
      case None => None
      case Some(value) =>
        Some(Stored(row.id.text, row.service.text, row.envVar.text, value, Last4(value),
                    if row.updatedAt.Number? then row.updatedAt.number else 0,
                    TextOf(row.account), TextOf(row.principal)))
  }

  /** The index a fresh `warm` builds: later rows shadow earlier ones of the same identity. */
  function IndexOf(keys: Keys, rows: seq<Row>): Index {
    if rows == [] then map[]
    else
      var n := |rows| - 1;
      match Read(keys, rows[n])
      case None => IndexOf(keys, rows[..n])
      case Some(s) => IndexOf(keys, rows[..n])[Identity(s.envVar, s.principal) := s]
  }

  function Resolve(index: Index, identity: Identity): Option<string> {
    if identity in index then Some(index[identity].value) else None
  }

  // ---------------------------------------------------------------------------------------------
  // Rotation

  datatype Outcome = Rotated | AlreadyCurrent | Unreadable

  datatype Report = Report(rotated: nat, alreadyCurrent: nat, unreadable: nat)

  function Classify(keys: Keys, row: Row): Outcome
    requires keys.current.Some?
  {
    if Read(keys, row).None? then Unreadable
    else if TextOf(row.keyId) == Some(keys.current.value.fingerprint) then AlreadyCurrent
    else if TextOf(row.keyId).None? && DecryptRow(keys, row, Some(keys.current.value.fingerprint), IdentityOf(row)).Some?
    then AlreadyCurrent
    else Rotated
  }

  /** What rotation writes into a row of that outcome, `None` when it writes nothing. */
  function Rewrite(keys: Keys, row: Row, draw: Draw): Option<Row>
    requires keys.current.Some?
  {
    match Classify(keys, row)
    case Unreadable => None
    case AlreadyCurrent =>
      if TextOf(row.keyId).None? then Some(row.(keyId := Text(keys.current.value.fingerprint))) else None
    case Rotated =>
      var s := Read(keys, row).value;
      Some(Blank.(service := row.service, envVar := row.envVar,
                  ciphertext := Encrypt(keys.current.value, s.value, IdentityOf(row), draw),
                  iv := Text(draw.iv), authTag := Text(draw.tag),
                  keyId := Text(keys.current.value.fingerprint), updatedAt := Number(draw.at),
                  principal := row.principal))
  }

  function RotateRow(keys: Keys, row: Row, draw: Draw): Row
    requires keys.current.Some?
  {
    match Rewrite(keys, row, draw)
    case None => row
    case Some(data) => if row.id.Text? then Merge(row, data, row.id.text) else row
  }

  function RotateRows(keys: Keys, rows: seq<Row>, draws: seq<Draw>): (rotated: seq<Row>)
    requires keys.current.Some? && |draws| == |rows|
    ensures |rotated| == |rows|
  {
    seq(|rows|, i requires 0 <= i < |rows| => RotateRow(keys, rows[i], draws[i]))
  }

  function Tally(c: Report, outcome: Outcome): Report {
    match outcome
    case Rotated => c.(rotated := c.rotated + 1)
    case AlreadyCurrent => c.(alreadyCurrent := c.alreadyCurrent + 1)
    case Unreadable => c.(unreadable := c.unreadable + 1)
  }

  function Count(keys: Keys, rows: seq<Row>): (r: Report)
    requires keys.current.Some?
    ensures r.rotated + r.alreadyCurrent + r.unreadable == |rows|
  {
    if rows == [] then Report(0, 0, 0)
    else Tally(Count(keys, rows[..|rows| - 1]), Classify(keys, rows[|rows| - 1]))
  }

  /** Two readings of a row that agree on everything but when it was written. */
  predicate SameCredential(a: Option<Stored>, b: Option<Stored>) {
    match (a, b)
    case (None, None) => true
    case (Some(s), Some(t)) => s.(updatedAt := 0) == t.(updatedAt := 0)
    case _ => false
  }

  lemma ReadOpens(keys: Keys, row: Row)
    requires keys.current.Some? && WellFormed(row)
    ensures var keyId := TextOf(row.keyId);
            Read(keys, row).Some? <==> Intact(row, IdentityOf(row)) && row.ciphertext.key in Candidates(keys, keyId)
    ensures Read(keys, row).Some? ==> Read(keys, row).value.value == row.ciphertext.plain
    ensures forall keyId :: DecryptRow(keys, row, keyId, IdentityOf(row)).Some? <==>
              Intact(row, IdentityOf(row)) && row.ciphertext.key in Candidates(keys, keyId)
  {
    forall keyId ensures DecryptRow(keys, row, keyId, IdentityOf(row)) ==
                         if Intact(row, IdentityOf(row)) && row.ciphertext.key in Candidates(keys, keyId)
                         then Some(row.ciphertext.plain) else None
    {
      TryKeysOpens(Candidates(keys, keyId), row, IdentityOf(row));
    }
  }

  /** A row some held key reads, and that key is not the current one. */
  ghost predicate UnderAnotherKey(keys: Keys, row: Row)
    requires keys.current.Some?
  {
    Read(keys, row).Some? && row.ciphertext.Sealed? && row.ciphertext.key != keys.current.value
  }

  lemma ClassesSayTheKey(keys: Keys, row: Row)
    requires keys.Valid() && keys.current.Some?
    ensures Read(keys, row).Some? ==> row.ciphertext.Sealed?
    ensures Classify(keys, row).Unreadable? <==> Read(keys, row).None?
    ensures Classify(keys, row).Rotated? <==> UnderAnotherKey(keys, row)
  {
    if Read(keys, row).Some? { ReadOpens(keys, row); }
  }

  /** What a warm reads: exactly the rows with every field in place whose box a held key sealed for their own identity. */
  lemma ReadableExactlyWhen(keys: Keys, row: Row)
    requires keys.Valid() && keys.current.Some?
    ensures Read(keys, row).Some? <==>
            && NonEmpty(row.id) && NonEmpty(row.service) && NonEmpty(row.envVar) && NonEmpty(row.iv) && NonEmpty(row.authTag)
            && (row.principal.Absent? || NonEmpty(row.principal))
            && row.ciphertext.Sealed? && row.iv == Text(row.ciphertext.iv) && row.authTag == Text(row.ciphertext.tag)
            && row.ciphertext.aad == (if NonEmpty(row.principal) then Some(Identity(row.envVar.text, Some(row.principal.text))) else None)
            && HeldUnder(keys, row.ciphertext.key, TextOf(row.keyId))
  {
    if WellFormed(row) { ReadOpens(keys, row); }
  }

  /** And it reads every field as the row has it. */
  lemma ReadingsKeepTheFields(keys: Keys, row: Row)
    requires keys.Valid() && keys.current.Some?
    ensures Read(keys, row).Some? ==>
            var s := Read(keys, row).value;
            && Text(s.id) == row.id && Text(s.service) == row.service && Text(s.envVar) == row.envVar
            && row.ciphertext.Sealed? && s.value == row.ciphertext.plain
            && s.updatedAt == (if row.updatedAt.Number? then row.updatedAt.number else 0)
            && |s.last4| <= |s.value| && s.value[|s.value| - |s.last4|..] == s.last4
            && |s.last4| == (if |s.value| < 4 then |s.value| else 4)
            && (s.account.Some? <==> NonEmpty(row.account)) && (s.account.Some? ==> Text(s.account.value) == row.account)
            && (s.principal.Some? <==> NonEmpty(row.principal)) && (s.principal.Some? ==> Text(s.principal.value) == row.principal)
  {
    if WellFormed(row) { ReadOpens(keys, row); }
  }

  /** The key is one the store holds, and the row's stamp, if it has one, is that key's. */
  predicate HeldUnder(keys: Keys, key: Key, stamp: Option<string>) {
    (keys.current == Some(key) || keys.previous == Some(key)) && (stamp.Some? ==> stamp.value == key.fingerprint)
  }

  /** `r` holds what `row` holds, sealed under the current key and stamped with its fingerprint. */
  ghost predicate SealedAnew(keys: Keys, row: Row, r: Row)
    requires keys.current.Some?
  {
    && WellFormed(row) && WellFormed(r) && IdentityOf(r) == IdentityOf(row)
    && Intact(r, IdentityOf(r)) && row.ciphertext.Sealed?
    && r.ciphertext.key == keys.current.value && r.ciphertext.plain == row.ciphertext.plain
    && TextOf(r.keyId) == Some(keys.current.value.fingerprint)
    && r.id == row.id && r.service == row.service && r.account == row.account
  }

  lemma RotationSealsAnew(keys: Keys, row: Row, draw: Draw)
    requires keys.Valid() && keys.current.Some? && draw.Valid()
    ensures Read(keys, row).Some? ==> SealedAnew(keys, row, RotateRow(keys, row, draw))
    ensures Read(keys, row).None? ==> RotateRow(keys, row, draw) == row
    ensures var r := RotateRow(keys, row, draw);
            if UnderAnotherKey(keys, row) then r.updatedAt == Number(draw.at) && r.ciphertext != row.ciphertext
            else r.updatedAt == row.updatedAt && r.ciphertext == row.ciphertext
  {
    ClassesSayTheKey(keys, row);
    if Read(keys, row).Some? {
      ReadOpens(keys, row);
      var r := RotateRow(keys, row, draw);
      match Classify(keys, row) {
        case AlreadyCurrent =>
          assert row.ciphertext.key == keys.current.value;
          assert r == row.(keyId := Text(keys.current.value.fingerprint));
        case Rotated => assert SealedAnew(keys, row, r);
      }
    }
  }

  lemma SealedAnewReads(keys: Keys, row: Row, r: Row)
    requires keys.Valid() && keys.current.Some? && SealedAnew(keys, row, r) && Read(keys, row).Some?
    ensures SameCredential(Read(keys, row), Read(CurrentOnly(keys), r)) && SameCredential(Read(keys, row), Read(keys, r))
    ensures Classify(keys, r) == AlreadyCurrent && Classify(CurrentOnly(keys), r) == AlreadyCurrent
  {
    ReadOpens(keys, row);
    ReadOpens(keys, r);
    ReadOpens(CurrentOnly(keys), r);
  }

  /** Fewer keys read no more rows. */
  lemma UnreadableStays(keys: Keys, row: Row)
    requires keys.current.Some? && Read(keys, row).None?
    ensures Read(CurrentOnly(keys), row).None?
  {
    if WellFormed(row) {
      ReadOpens(keys, row);
      ReadOpens(CurrentOnly(keys), row);
    }
  }

  /** A rotated row reads the same under the current key alone as it read before under both keys. */
  lemma RotatedRowReadsTheSame(keys: Keys, row: Row, draw: Draw)
    requires keys.Valid() && keys.current.Some? && draw.Valid()
    ensures SameCredential(Read(keys, row), Read(CurrentOnly(keys), RotateRow(keys, row, draw)))
    ensures SameCredential(Read(keys, row), Read(keys, RotateRow(keys, row, draw)))
  {
    RotationSealsAnew(keys, row, draw);
    if Read(keys, row).Some? {
      SealedAnewReads(keys, row, RotateRow(keys, row, draw));
    } else {
      UnreadableStays(keys, row);
    }
  }

  /** Rotating a rotated row again leaves it as it is, with or without the previous key. */
  lemma RotatedRowIsCurrent(keys: Keys, row: Row, draw: Draw, again: Draw)
    requires keys.Valid() && keys.current.Some? && draw.Valid()
    ensures var r := RotateRow(keys, row, draw);
            && RotateRow(keys, r, again) == r && RotateRow(CurrentOnly(keys), r, again) == r
            && Classify(keys, r) == Classify(CurrentOnly(keys), r)
            && Classify(keys, r) == if Classify(keys, row) == Unreadable then Unreadable else AlreadyCurrent
  {
    RotationSealsAnew(keys, row, draw);
    if Read(keys, row).Some? {
      SealedAnewReads(keys, row, RotateRow(keys, row, draw));
    } else {
      UnreadableStays(keys, row);
    }
  }

  ghost function Resealed(keys: Keys, rows: seq<Row>): set<nat>
    requires keys.current.Some?
  {
    set i: nat | i < |rows| && UnderAnotherKey(keys, rows[i])
  }

  ghost function Unread(keys: Keys, rows: seq<Row>): set<nat> {
    set i: nat | i < |rows| && Read(keys, rows[i]).None?
  }

  lemma OneIndexMore(more: set<nat>, less: set<nat>, n: nat)
    requires n !in less && (more == less || more == less + {n})
    ensures |more| == |less| + (if n in more then 1 else 0)
  {
  }

  lemma OneResealedMore(keys: Keys, rows: seq<Row>, row: Row)
    requires keys.current.Some?
    ensures |Resealed(keys, rows + [row])| == |Resealed(keys, rows)| + (if UnderAnotherKey(keys, row) then 1 else 0)
  {
    var all := rows + [row];
    forall i: nat | i < |rows| ensures all[i] == rows[i] {}
    assert Resealed(keys, all) == Resealed(keys, rows) + (if UnderAnotherKey(keys, row) then {|rows|} else {});
    OneIndexMore(Resealed(keys, all), Resealed(keys, rows), |rows|);
  }

  lemma OneUnreadMore(keys: Keys, rows: seq<Row>, row: Row)
    ensures |Unread(keys, rows + [row])| == |Unread(keys, rows)| + (if Read(keys, row).None? then 1 else 0)
  {
    var all := rows + [row];
    forall i: nat | i < |rows| ensures all[i] == rows[i] {}
    assert Unread(keys, all) == Unread(keys, rows) + (if Read(keys, row).None? then {|rows|} else {});
    OneIndexMore(Unread(keys, all), Unread(keys, rows), |rows|);
  }

  /**
   The report counts what it says: as rotated the rows read under another key than the current one, as unreadable
   those no held key reads, and as already current the rest.
   */
  lemma {:induction false} TheReportCountsRows(keys: Keys, rows: seq<Row>)
    requires keys.Valid() && keys.current.Some?
    ensures Count(keys, rows).rotated == |Resealed(keys, rows)|
    ensures Count(keys, rows).unreadable == |Unread(keys, rows)|
    ensures Count(keys, rows).alreadyCurrent == |rows| - |Resealed(keys, rows)| - |Unread(keys, rows)|
    decreases |rows|
  {
    if rows != [] {
      var n := |rows| - 1;
      TheReportCountsRows(keys, rows[..n]);
      ClassesSayTheKey(keys, rows[n]);
      OneResealedMore(keys, rows[..n], rows[n]);
      OneUnreadMore(keys, rows[..n], rows[n]);
      assert rows[..n] + [rows[n]] == rows;
    }
  }

  ghost predicate ValidDraws(rows: seq<Row>, draws: seq<Draw>) {
    |draws| == |rows| && forall i :: 0 <= i < |draws| ==> draws[i].Valid()
  }

  predicate SameEntry(a: Index, b: Index, identity: Identity) {
    (identity in a <==> identity in b) && (identity in a ==> SameCredential(Some(a[identity]), Some(b[identity])))
  }

  function Put(index: Index, s: Option<Stored>): Index {
    if s.None? then index else index[Identity(s.value.envVar, s.value.principal) := s.value]
  }

  lemma SameEntryStays(a: Index, b: Index, s: Option<Stored>, t: Option<Stored>, identity: Identity)
    requires SameEntry(a, b, identity) && SameCredential(s, t)
    ensures SameEntry(Put(a, s), Put(b, t), identity)
  {
  }

  /**
   After a rotation the current key alone resolves every identity to the value, label and row it had
   under both keys, and nothing else.
   */
  lemma {:induction false} RotationKeepsEveryValue(keys: Keys, rows: seq<Row>, draws: seq<Draw>, identity: Identity)
    requires keys.Valid() && keys.current.Some? && ValidDraws(rows, draws)
    ensures var before := IndexOf(keys, rows); var after := IndexOf(CurrentOnly(keys), RotateRows(keys, rows, draws));
            SameEntry(before, after, identity)
    ensures Resolve(IndexOf(keys, rows), identity) == Resolve(IndexOf(CurrentOnly(keys), RotateRows(keys, rows, draws)), identity)
    decreases |rows|
  {
    if rows != [] {
      var n := |rows| - 1;
      var rotated := RotateRows(keys, rows, draws);
      RotationKeepsEveryValue(keys, rows[..n], draws[..n], identity);
      assert rotated[..n] == RotateRows(keys, rows[..n], draws[..n]);
      RotatedRowReadsTheSame(keys, rows[n], draws[n]);
      SameEntryStays(IndexOf(keys, rows[..n]), IndexOf(CurrentOnly(keys), rotated[..n]),
                     Read(keys, rows[n]), Read(CurrentOnly(keys), rotated[n]), identity);
    }
  }

  /** Rows no held key reads, malformed ones included, are never written. */
  lemma RotationLeavesUnreadableRows(keys: Keys, rows: seq<Row>, draws: seq<Draw>, i: nat)
    requires keys.Valid() && keys.current.Some? && ValidDraws(rows, draws) && i < |rows| && Read(keys, rows[i]).None?
    ensures RotateRows(keys, rows, draws)[i] == rows[i]
  {
    RotationSealsAnew(keys, rows[i], draws[i]);
  }

  /** A second rotation writes nothing, whether or not the previous key is still held. */
  lemma SecondRotationWritesNothing(keys: Keys, rows: seq<Row>, draws: seq<Draw>, again: seq<Draw>)
    requires keys.Valid() && keys.current.Some? && ValidDraws(rows, draws) && |again| == |rows|
    ensures var r := RotateRows(keys, rows, draws);
            RotateRows(keys, r, again) == r && RotateRows(CurrentOnly(keys), r, again) == r
  {
    var r := RotateRows(keys, rows, draws);
    forall i | 0 <= i < |rows|
      ensures RotateRow(keys, r[i], again[i]) == r[i] && RotateRow(CurrentOnly(keys), r[i], again[i]) == r[i]
    {
      RotatedRowIsCurrent(keys, rows[i], draws[i], again[i]);
    }
  }

  /** `r` counts as current, or stays unreadable, with or without the previous key. */
  predicate CountsAsCurrent(keys: Keys, row: Row, r: Row)
    requires keys.current.Some?
  {
    && Classify(keys, r) == (if Classify(keys, row) == Unreadable then Unreadable else AlreadyCurrent)
    && Classify(CurrentOnly(keys), r) == Classify(keys, r)
  }

  function TallyAll(outcomes: seq<Outcome>): Report {
    if outcomes == [] then Report(0, 0, 0)
    else Tally(TallyAll(outcomes[..|outcomes| - 1]), outcomes[|outcomes| - 1])
  }

  function Classes(keys: Keys, rows: seq<Row>): (classes: seq<Outcome>)
    requires keys.current.Some?
    ensures |classes| == |rows| && forall i :: 0 <= i < |rows| ==> classes[i] == Classify(keys, rows[i])
  {
    seq(|rows|, i requires 0 <= i < |rows| => Classify(keys, rows[i]))
  }

  lemma {:induction false} CountIsTally(keys: Keys, rows: seq<Row>)
    requires keys.current.Some?
    ensures Count(keys, rows) == TallyAll(Classes(keys, rows))
    decreases |rows|
  {
    if rows != [] {
      var n := |rows| - 1;
      CountIsTally(keys, rows[..n]);
      assert Classes(keys, rows)[..n] == Classes(keys, rows[..n]);
    }
  }

  function Again(outcome: Outcome): Outcome {
    if outcome == Unreadable then Unreadable else AlreadyCurrent
  }

  lemma {:induction false} TalliesAgain(first: seq<Outcome>, second: seq<Outcome>)
    requires |first| == |second| && forall i :: 0 <= i < |first| ==> second[i] == Again(first[i])
    ensures var f := TallyAll(first); TallyAll(second) == Report(0, f.rotated + f.alreadyCurrent, f.unreadable)
    decreases |first|
  {
    if first != [] {
      var n := |first| - 1;
      TalliesAgain(first[..n], second[..n]);
    }
  }

  /** And it reports none rotated. */
  lemma SecondRotationRotatesNone(keys: Keys, rows: seq<Row>, draws: seq<Draw>)
    requires keys.Valid() && keys.current.Some? && ValidDraws(rows, draws)
    ensures var r := RotateRows(keys, rows, draws); var first := Count(keys, rows);
            && Count(keys, r) == Report(0, first.rotated + first.alreadyCurrent, first.unreadable)
            && Count(CurrentOnly(keys), r) == Count(keys, r)
  {
    var r := RotateRows(keys, rows, draws);
    forall i | 0 <= i < |rows| ensures CountsAsCurrent(keys, rows[i], r[i]) {
      RotatedRowIsCurrent(keys, rows[i], draws[i], draws[i]);
    }
    TalliesAgain(Classes(keys, rows), Classes(keys, r));
    assert Classes(CurrentOnly(keys), r) == Classes(keys, r);
    CountIsTally(keys, rows);
    CountIsTally(keys, r);
    CountIsTally(CurrentOnly(keys), r);
  }

  lemma CountMore(keys: Keys, rows: seq<Row>, row: Row)
    requires keys.current.Some?
    ensures Count(keys, rows + [row]) == Tally(Count(keys, rows), Classify(keys, row))
  {
    assert (rows + [row])[..|rows|] == rows;
  }

  // ---------------------------------------------------------------------------------------------
  // The index against the rows

  function KeyOf(s: Stored): Identity {
    Identity(s.envVar, s.principal)
  }

  /** The identity a row is read under, if it is read at all. */
  function ReadAs(keys: Keys, row: Row): Option<Identity> {
    if Read(keys, row).Some? then Some(KeyOf(Read(keys, row).value)) else None
  }

  /** Readable rows have distinct identities. */
  ghost predicate DistinctReadable(keys: Keys, rows: seq<Row>) {
    forall i, j :: 0 <= i < j < |rows| && ReadAs(keys, rows[i]).Some? ==> ReadAs(keys, rows[i]) != ReadAs(keys, rows[j])
  }

  /** No row from `from` on is read under `identity`. */
  ghost predicate NoneFrom(keys: Keys, rows: seq<Row>, from: nat, identity: Identity) {
    forall j :: from <= j < |rows| ==> ReadAs(keys, rows[j]) != Some(identity)
  }

  /** An indexed credential is the reading of the last row of its identity. */
  lemma {:induction false} IndexedRow(keys: Keys, rows: seq<Row>, identity: Identity) returns (k: nat)
    requires identity in IndexOf(keys, rows)
    ensures k < |rows| && Read(keys, rows[k]) == Some(IndexOf(keys, rows)[identity]) && KeyOf(IndexOf(keys, rows)[identity]) == identity
    ensures NoneFrom(keys, rows, k + 1, identity)
    decreases |rows|
  {
    var n := |rows| - 1;
    var s := Read(keys, rows[n]);
    var front := rows[..n];
    assert rows == front + [rows[n]];
    IndexOfMore(keys, front, rows[n]);
    if s.Some? && KeyOf(s.value) == identity {
      k := n;
    } else {
      k := IndexedRow(keys, front, identity);
      assert forall j :: k < j < n ==> rows[j] == front[j];
    }
  }

  lemma {:induction false} NotIndexed(keys: Keys, rows: seq<Row>, identity: Identity)
    ensures identity !in IndexOf(keys, rows) <==> NoneFrom(keys, rows, 0, identity)
    decreases |rows|
  {
    if rows != [] {
      var n := |rows| - 1;
      NotIndexed(keys, rows[..n], identity);
      assert rows == rows[..n] + [rows[n]];
    }
  }

  lemma IndexOfMore(keys: Keys, rows: seq<Row>, row: Row)
    ensures IndexOf(keys, rows + [row]) == Put(IndexOf(keys, rows), Read(keys, row))
  {
    assert (rows + [row])[..|rows|] == rows;
  }

  /** The index built from what each row reads as. */
  function Build(readings: seq<Option<Stored>>): Index {
    if readings == [] then map[]
    else Put(Build(readings[..|readings| - 1]), readings[|readings| - 1])
  }

  function Readings(keys: Keys, rows: seq<Row>): (readings: seq<Option<Stored>>)
    ensures |readings| == |rows| && forall i :: 0 <= i < |rows| ==> readings[i] == Read(keys, rows[i])
  {
    seq(|rows|, i requires 0 <= i < |rows| => Read(keys, rows[i]))
  }

  lemma {:induction false} IndexIsBuilt(keys: Keys, rows: seq<Row>)
    ensures IndexOf(keys, rows) == Build(Readings(keys, rows))
    decreases |rows|
  {
    if rows != [] {
      var n := |rows| - 1;
      IndexIsBuilt(keys, rows[..n]);
      assert rows == rows[..n] + [rows[n]];
      IndexOfMore(keys, rows[..n], rows[n]);
      assert Readings(keys, rows)[..n] == Readings(keys, rows[..n]);
    }
  }

  lemma BuildMore(readings: seq<Option<Stored>>, s: Option<Stored>)
    ensures Build(readings + [s]) == Put(Build(readings), s)
  {
    assert (readings + [s])[..|readings|] == readings;
  }

  predicate NoneAre(readings: seq<Option<Stored>>, identity: Identity) {
    forall j :: 0 <= j < |readings| && readings[j].Some? ==> KeyOf(readings[j].value) != identity
  }

  lemma {:induction false} NotBuilt(readings: seq<Option<Stored>>, identity: Identity)
    requires NoneAre(readings, identity)
    ensures identity !in Build(readings)
    decreases |readings|
  {
    if readings != [] { NotBuilt(readings[..|readings| - 1], identity); }
  }

  lemma EntryDropped(index: Index, s: Stored)
    requires KeyOf(s) !in index
    ensures Put(index, Some(s)) - {KeyOf(s)} == index
  {
  }

  lemma OtherEntryKept(index: Index, identity: Identity, s: Option<Stored>)
    requires s.Some? ==> KeyOf(s.value) != identity
    ensures Put(index - {identity}, s) == Put(index, s) - {identity}
  {
  }

  lemma EntriesCommute(index: Index, s: Stored, t: Option<Stored>)
    requires t.Some? ==> KeyOf(t.value) != KeyOf(s)
    ensures Put(index[KeyOf(s) := s], t) == Put(index, t)[KeyOf(s) := s]
  {
  }

  lemma LastOf<T>(before: seq<T>, after: seq<T>)
    requires after != []
    ensures before + after == (before + after[..|after| - 1]) + [after[|after| - 1]]
  {
  }

  /** Dropping the only reading of an identity, wherever it is, drops its entry. */
  lemma {:induction false} WithoutReading(before: seq<Option<Stored>>, s: Stored, after: seq<Option<Stored>>)
    requires NoneAre(before, KeyOf(s)) && NoneAre(after, KeyOf(s))
    ensures Build(before + after) == Build((before + [Some(s)]) + after) - {KeyOf(s)}
    decreases |after|
  {
    var full := before + [Some(s)];
    if after == [] {
      assert before + after == before && full + after == full;
      BuildMore(before, Some(s));
      NotBuilt(before, KeyOf(s));
      EntryDropped(Build(before), s);
    } else {
      var front, last := after[..|after| - 1], after[|after| - 1];
      WithoutReading(before, s, front);
      LastOf(before, after);
      LastOf(full, after);
      BuildMore(before + front, last);
      BuildMore(full + front, last);
      OtherEntryKept(Build(full + front), KeyOf(s), last);
    }
  }

  /** Replacing the last reading of an identity, by one of that identity, updates its entry and no other. */
  lemma {:induction false} ReplacedReading(before: seq<Option<Stored>>, was: Stored, s: Stored, after: seq<Option<Stored>>)
    requires KeyOf(was) == KeyOf(s) && NoneAre(after, KeyOf(s))
    ensures Build((before + [Some(s)]) + after) == Build((before + [Some(was)]) + after)[KeyOf(s) := s]
    decreases |after|
  {
    var old1, new1 := before + [Some(was)], before + [Some(s)];
    if after == [] {
      assert old1 + after == old1 && new1 + after == new1;
      BuildMore(before, Some(was));
      BuildMore(before, Some(s));
      assert Build(before)[KeyOf(s) := was][KeyOf(s) := s] == Build(before)[KeyOf(s) := s];
    } else {
      var front, last := after[..|after| - 1], after[|after| - 1];
      ReplacedReading(before, was, s, front);
      LastOf(old1, after);
      LastOf(new1, after);
      BuildMore(old1 + front, last);
      BuildMore(new1 + front, last);
      EntriesCommute(Build(old1 + front), s, last);
    }
  }

  lemma ReadingsFrom(keys: Keys, rows: seq<Row>, from: nat, identity: Identity)
    requires from <= |rows| && NoneFrom(keys, rows, from, identity)
    ensures NoneAre(Readings(keys, rows)[from..], identity)
  {
    forall j | 0 <= j < |rows| - from && Readings(keys, rows)[from..][j].Some?
      ensures KeyOf(Readings(keys, rows)[from..][j].value) != identity
    {
      assert ReadAs(keys, rows[from + j]) != Some(identity);
    }
  }

  lemma ReadingsBefore(keys: Keys, rows: seq<Row>, k: nat, identity: Identity)
    requires k <= |rows| && NoneFrom(keys, rows[..k], 0, identity)
    ensures NoneAre(Readings(keys, rows)[..k], identity)
  {
    forall j | 0 <= j < k && Readings(keys, rows)[..k][j].Some? ensures KeyOf(Readings(keys, rows)[..k][j].value) != identity {
      assert ReadAs(keys, rows[..k][j]) != Some(identity);
    }
  }

  lemma Around<T>(s: seq<T>, k: nat)
    requires k < |s|
    ensures s == (s[..k] + [s[k]]) + s[k + 1..]
  {
  }

  lemma ReadingsWith(keys: Keys, rows: seq<Row>, k: nat, r: Row)
    requires k < |rows|
    ensures var readings := Readings(keys, rows);
            Readings(keys, rows[k := r]) == (readings[..k] + [Read(keys, r)]) + readings[k + 1..]
  {
  }

  lemma ReadingsWithout(keys: Keys, rows: seq<Row>, k: nat)
    requires k < |rows|
    ensures var readings := Readings(keys, rows);
            Readings(keys, rows[..k] + rows[k + 1..]) == readings[..k] + readings[k + 1..]
  {
  }

  /** Rewriting the last row of an identity, for that identity, updates its entry and no other. */
  lemma WarmRewritten(keys: Keys, rows: seq<Row>, k: nat, r: Row, s: Stored)
    requires k < |rows| && Read(keys, rows[k]).Some? && Read(keys, r) == Some(s)
    requires KeyOf(Read(keys, rows[k]).value) == KeyOf(s) && NoneFrom(keys, rows, k + 1, KeyOf(s))
    ensures IndexOf(keys, rows[k := r]) == IndexOf(keys, rows)[KeyOf(s) := s]
  {
    var readings, was := Readings(keys, rows), Read(keys, rows[k]).value;
    IndexIsBuilt(keys, rows);
    IndexIsBuilt(keys, rows[k := r]);
    ReadingsFrom(keys, rows, k + 1, KeyOf(s));
    var before, after := readings[..k], readings[k + 1..];
    ReplacedReading(before, was, s, after);
    Around(readings, k);
    ReadingsWith(keys, rows, k, r);
  }

  /** Dropping the last row of an identity drops its entry, provided no earlier row has the identity too. */
  lemma WarmWithout(keys: Keys, rows: seq<Row>, k: nat, identity: Identity)
    requires k < |rows| && Read(keys, rows[k]).Some? && KeyOf(Read(keys, rows[k]).value) == identity
    requires NoneFrom(keys, rows, k + 1, identity) && NoneFrom(keys, rows[..k], 0, identity)
    ensures IndexOf(keys, rows[..k] + rows[k + 1..]) == IndexOf(keys, rows) - {identity}
  {
    var readings, s := Readings(keys, rows), Read(keys, rows[k]).value;
    IndexIsBuilt(keys, rows);
    IndexIsBuilt(keys, rows[..k] + rows[k + 1..]);
    ReadingsFrom(keys, rows, k + 1, identity);
    ReadingsBefore(keys, rows, k, identity);
    var before, after := readings[..k], readings[k + 1..];
    WithoutReading(before, s, after);
    Around(readings, k);
    ReadingsWithout(keys, rows, k);
  }

  // ---------------------------------------------------------------------------------------------
  // The store's operations

  datatype Error = EmptyPrincipal | EmptyAccount | NoMasterKey

  datatype Store = Store(keys: Keys, rows: seq<Row>, index: Index, warmed: bool)

  function Warmed(s: Store): Store {
    s.(index := IndexOf(s.keys, s.rows), warmed := true)
  }

  /** The fields `set` writes; a field left out keeps what the row has. */
  function RowData(key: Key, service: string, identity: Identity, value: string, account: Option<string>, draw: Draw): Row {
    Blank.(service := Text(service), envVar := Text(identity.name),
           ciphertext := Encrypt(key, value, identity, draw), iv := Text(draw.iv), authTag := Text(draw.tag),
           keyId := Text(key.fingerprint), updatedAt := Number(draw.at),
           principal := if identity.principal.Some? then Text(identity.principal.value) else Absent,
           account := if account.Some? then Text(account.value) else Absent)
  }

  /** `id` is the id the adapter gives a new row. */
  function SetCredential(s: Store, service: string, identity: Identity, value: string, account: Option<string>, draw: Draw, id: string)
    : (Result<Stored, Error>, Store)
  {
    if identity.principal == Some("") then (Err(EmptyPrincipal), s)
    else if account == Some("") then (Err(EmptyAccount), s)
    else
      var w := if s.warmed then s else Warmed(s);
      if s.keys.current.None? then (Err(NoMasterKey), w)
      else
        var data := RowData(s.keys.current.value, service, identity, value, account, draw);
        var existing := if identity in w.index then Some(w.index[identity]) else None;
        var rowId := if existing.Some? then existing.value.id else id;
        var kept := if account.None? && existing.Some? then existing.value.account else account;
        var entry := Stored(rowId, service, identity.name, value, Last4(value), draw.at, kept, identity.principal);
        (Ok(entry),
         w.(rows := if existing.Some? then Update(w.rows, rowId, data) else Create(w.rows, data, id),
            index := w.index[identity := entry]))
  }

  function RemoveCredential(s: Store, identity: Identity): (bool, Store) {
    var w := if s.warmed then s else Warmed(s);
    if identity !in w.index then (false, w)
    else (true, w.(rows := Delete(w.rows, w.index[identity].id), index := w.index - {identity}))
  }

  function RotateStore(s: Store, draws: seq<Draw>): (Result<Report, Error>, Store)
    requires |draws| == |s.rows|
  {
    if s.keys.current.None? then (Err(NoMasterKey), s)
    else (Ok(Count(s.keys, s.rows)), Warmed(s.(rows := RotateRows(s.keys, s.rows, draws))))
  }

  /** The index is what a fresh `warm` would build, and readable rows have distinct identities. */
  ghost predicate Synced(s: Store) {
    && s.keys.Valid() && DistinctIds(s.rows) && DistinctReadable(s.keys, s.rows)
    && s.index == (if s.warmed then IndexOf(s.keys, s.rows) else map[])
  }

  /** The row `set` writes reads back as the entry it indexes. */
  lemma WrittenRowReads(
      keys: Keys, row: Row, service: string, identity: Identity, value: string, account: Option<string>, draw: Draw, id: string)
    requires keys.Valid() && keys.current.Some? && draw.Valid() && service != "" && identity.name != "" && id != ""
    requires identity.principal != Some("") && account != Some("")
    requires row == Blank || (WellFormed(row) && IdentityOf(row) == identity)
    ensures var r := Merge(row, RowData(keys.current.value, service, identity, value, account, draw), id);
            Read(keys, r) == Some(Stored(id, service, identity.name, value, Last4(value), draw.at,
                                         if account.Some? then account else TextOf(row.account), identity.principal))
  {
    var r := Merge(row, RowData(keys.current.value, service, identity, value, account, draw), id);
    assert WellFormed(r) && IdentityOf(r) == identity && Intact(r, identity);
    ReadOpens(keys, r);
  }

  lemma RewrittenKeepsDistinct(keys: Keys, rows: seq<Row>, k: nat, r: Row)
    requires DistinctReadable(keys, rows) && k < |rows| && ReadAs(keys, r) == ReadAs(keys, rows[k])
    ensures DistinctReadable(keys, rows[k := r])
  {
  }

  /** A `set` of an indexed identity. */
  lemma ReplaceKeepsSynced(s: Store, service: string, identity: Identity, value: string, account: Option<string>, draw: Draw, id: string)
    requires Synced(s) && s.warmed && identity in s.index && draw.Valid() && service != "" && identity.name != ""
    ensures Synced(SetCredential(s, service, identity, value, account, draw, id).1)
  {
    var n := SetCredential(s, service, identity, value, account, draw, id);
    if n.0.Ok? {
      var data := RowData(s.keys.current.value, service, identity, value, account, draw);
      var existing := s.index[identity];
      var k := IndexedRow(s.keys, s.rows, identity);
      var r := Merge(s.rows[k], data, existing.id);
      UpdateAt(s.rows, k, existing.id, data);
      WrittenRowReads(s.keys, s.rows[k], service, identity, value, account, draw, existing.id);
      WarmRewritten(s.keys, s.rows, k, r, n.0.value);
      RewrittenKeepsDistinct(s.keys, s.rows, k, r);
      assert n.1.rows == s.rows[k := r];
    }
  }

  lemma AddedKeepsDistinct(keys: Keys, rows: seq<Row>, r: Row, identity: Identity)
    requires DistinctReadable(keys, rows) && NoneFrom(keys, rows, 0, identity) && ReadAs(keys, r) == Some(identity)
    ensures DistinctReadable(keys, rows + [r])
  {
  }

  lemma AddedStaysSynced(s: Store, r: Row, entry: Stored)
    requires Synced(s) && s.warmed && KeyOf(entry) !in s.index && Read(s.keys, r) == Some(entry)
    requires forall i :: 0 <= i < |s.rows| ==> s.rows[i].id != r.id
    ensures Synced(s.(rows := s.rows + [r], index := s.index[KeyOf(entry) := entry]))
  {
    NotIndexed(s.keys, s.rows, KeyOf(entry));
    AddedKeepsDistinct(s.keys, s.rows, r, KeyOf(entry));
    IndexOfMore(s.keys, s.rows, r);
  }

  /** A `set` of a new identity. */
  lemma AddKeepsSynced(s: Store, service: string, identity: Identity, value: string, account: Option<string>, draw: Draw, id: string)
    requires Synced(s) && s.warmed && identity !in s.index && draw.Valid() && service != "" && identity.name != ""
    requires id != "" && forall i :: 0 <= i < |s.rows| ==> s.rows[i].id != Text(id)
    ensures Synced(SetCredential(s, service, identity, value, account, draw, id).1)
  {
    var n := SetCredential(s, service, identity, value, account, draw, id);
    if n.0.Ok? {
      var data := RowData(s.keys.current.value, service, identity, value, account, draw);
      WrittenRowReads(s.keys, Blank, service, identity, value, account, draw, id);
      var r := data.(id := Text(id));
      assert r == Merge(Blank, data, id);
      AddedStaysSynced(s, r, n.0.value);
    }
  }

  lemma NamedSetKeepsSynced(s: Store, service: string, identity: Identity, value: string, account: Option<string>, draw: Draw, id: string)
    requires Synced(s) && draw.Valid() && service != "" && identity.name != ""
    requires id != "" && forall i :: 0 <= i < |s.rows| ==> s.rows[i].id != Text(id)
    ensures Synced(SetCredential(s, service, identity, value, account, draw, id).1)
  {
    var w := if s.warmed then s else Warmed(s);
    if identity in w.index {
      ReplaceKeepsSynced(w, service, identity, value, account, draw, id);
    } else {
      AddKeepsSynced(w, service, identity, value, account, draw, id);
    }
  }

  /** A row with an empty service or name is written and indexed, but no warm reads it. */
  lemma UnnamedIsUnread(
      keys: Keys, row: Row, service: string, identity: Identity, value: string, account: Option<string>, draw: Draw, id: string)
    requires keys.current.Some? && (service == "" || identity.name == "")
    ensures Read(keys, Merge(row, RowData(keys.current.value, service, identity, value, account, draw), id)).None?
  {
  }

  lemma UnnamedSetBreaksSynced(
      s: Store, service: string, identity: Identity, value: string, account: Option<string>, draw: Draw, id: string)
    requires Synced(s) && s.warmed && (service == "" || identity.name == "")
    requires SetCredential(s, service, identity, value, account, draw, id).0.Ok?
    ensures !Synced(SetCredential(s, service, identity, value, account, draw, id).1)
  {
    var n := SetCredential(s, service, identity, value, account, draw, id).1;
    var data := RowData(s.keys.current.value, service, identity, value, account, draw);
    if identity in s.index {
      var k := IndexedRow(s.keys, s.rows, identity);
      UpdateAt(s.rows, k, s.index[identity].id, data);
      UnnamedIsUnread(s.keys, s.rows[k], service, identity, value, account, draw, s.index[identity].id);
      OnlyOneReads(s.keys, s.rows, k, identity, n.rows[k]);
    } else {
      assert data.(id := Text(id)) == Merge(Blank, data, id);
      UnnamedIsUnread(s.keys, Blank, service, identity, value, account, draw, id);
      NotIndexed(s.keys, s.rows, identity);
    }
    assert NoneFrom(s.keys, n.rows, 0, identity);
    NotIndexed(s.keys, n.rows, identity);
  }

  lemma OnlyOneReads(keys: Keys, rows: seq<Row>, k: nat, identity: Identity, r: Row)
    requires DistinctReadable(keys, rows) && k < |rows| && ReadAs(keys, rows[k]) == Some(identity) && Read(keys, r).None?
    ensures NoneFrom(keys, rows[k := r], 0, identity)
  {
  }

  /** A `set` that succeeds leaves the index a fresh warm would build exactly when it names a service and a variable. */
  lemma SetKeepsSynced(s: Store, service: string, identity: Identity, value: string, account: Option<string>, draw: Draw, id: string)
    requires Synced(s) && draw.Valid()
    requires id != "" && forall i :: 0 <= i < |s.rows| ==> s.rows[i].id != Text(id)
    ensures var (r, n) := SetCredential(s, service, identity, value, account, draw, id);
            Synced(n) <==> r.Err? || (service != "" && identity.name != "")
  {
    var w := if s.warmed then s else Warmed(s);
    if service != "" && identity.name != "" {
      NamedSetKeepsSynced(s, service, identity, value, account, draw, id);
    } else if SetCredential(s, service, identity, value, account, draw, id).0.Ok? {
      UnnamedSetBreaksSynced(w, service, identity, value, account, draw, id);
    }
  }

  /** A `set` fails for an empty principal, else for an empty account, else without a key, and a failed one writes no row. */
  lemma SetsFailInOrder(s: Store, service: string, identity: Identity, value: string, account: Option<string>, draw: Draw, id: string)
    ensures var (r, n) := SetCredential(s, service, identity, value, account, draw, id);
            && (r == Err(EmptyPrincipal) <==> identity.principal == Some(""))
            && (r == Err(EmptyAccount) <==> account == Some("") && identity.principal != Some(""))
            && (r == Err(NoMasterKey) <==> s.keys.current.None? && account != Some("") && identity.principal != Some(""))
            && (r.Err? ==> n.rows == s.rows && r.error in {EmptyPrincipal, EmptyAccount, NoMasterKey})
  {
  }

  /**
   Rotation writes from the rows it listed at its start.  A `set` that lands on a row after the listing and before
   rotation reaches that row survives exactly when the listed row was stamped with the current key; on any other
   readable row rotation puts the value it had listed back.
   */
  lemma ASetDuringRotationSurvivesOnlyOnCurrentRows(
      keys: Keys, listed: Row, service: string, value: string, account: Option<string>, draw: Draw, stale: Draw)
    requires keys.Valid() && keys.current.Some? && draw.Valid() && stale.Valid() && service != "" && account != Some("")
    requires Read(keys, listed).Some?
    ensures var id, key := listed.id.text, keys.current.value;
            var landed := Merge(listed, RowData(key, service, IdentityOf(listed), value, account, draw), id);
            var written := Rewrite(keys, listed, stale);
            var left := Read(keys, if written.Some? then Merge(landed, written.value, id) else landed);
            left.Some? && left.value.value ==
            if TextOf(listed.keyId) == Some(key.fingerprint) then value else Read(keys, listed).value.value
  {
    var id, key := listed.id.text, keys.current.value;
    var identity := IdentityOf(listed);
    var landed := Merge(listed, RowData(key, service, identity, value, account, draw), id);
    WrittenRowReads(keys, listed, service, identity, value, account, draw, id);
    RewritesUnlessStamped(keys, listed, stale);
    var written := Rewrite(keys, listed, stale);
    if written.Some? {
      PutBackReads(keys, listed, landed, stale);
    }
  }

  lemma RewritesUnlessStamped(keys: Keys, row: Row, draw: Draw)
    requires keys.current.Some? && Read(keys, row).Some?
    ensures Rewrite(keys, row, draw).None? <==> TextOf(row.keyId) == Some(keys.current.value.fingerprint)
  {
  }

  /** What rotation writes over a row that changed since it was listed reads as the listed value. */
  lemma PutBackReads(keys: Keys, listed: Row, landed: Row, stale: Draw)
    requires keys.Valid() && keys.current.Some? && stale.Valid()
    requires Read(keys, listed).Some? && WellFormed(landed) && landed.principal == listed.principal
    requires Rewrite(keys, listed, stale).Some?
    ensures var left := Read(keys, Merge(landed, Rewrite(keys, listed, stale).value, listed.id.text));
            left.Some? && left.value.value == Read(keys, listed).value.value
  {
    var left := Merge(landed, Rewrite(keys, listed, stale).value, listed.id.text);
    ReadOpens(keys, listed);
    ReadOpens(keys, left);
    assert WellFormed(left) && IdentityOf(left) == IdentityOf(listed);
  }

  lemma RemovedKeepsDistinct(keys: Keys, rows: seq<Row>, k: nat)
    requires DistinctReadable(keys, rows) && k < |rows|
    ensures DistinctReadable(keys, rows[..k] + rows[k + 1..])
  {
  }

  lemma RemovalStaysSynced(s: Store, identity: Identity)
    requires Synced(s)
    ensures var (removed, n) := RemoveCredential(s, identity);
            && Synced(n) && n.keys == s.keys && n.warmed && identity !in n.index
            && (removed <==> identity in IndexOf(s.keys, s.rows))
  {
    var w := if s.warmed then s else Warmed(s);
    if identity in w.index {
      var k := IndexedRow(s.keys, s.rows, identity);
      DeleteAt(s.rows, k, w.index[identity].id);
      RemovedKeepsDistinct(s.keys, s.rows, k);
      WarmWithout(s.keys, s.rows, k, identity);
    }
  }

  /** A removal says whether a row of the identity was there to read, warmed before or not, and leaves none. */
  lemma RemoveKeepsSynced(s: Store, identity: Identity)
    requires Synced(s)
    ensures Synced(RemoveCredential(s, identity).1)
    ensures RemoveCredential(s, identity).0 <==> !NoneFrom(s.keys, s.rows, 0, identity)
    ensures NoneFrom(s.keys, RemoveCredential(s, identity).1.rows, 0, identity)
  {
    RemovalStaysSynced(s, identity);
    NotIndexed(s.keys, s.rows, identity);
    NotIndexed(s.keys, RemoveCredential(s, identity).1.rows, identity);
  }

  /** A rotation without a master key fails and changes nothing; else it rewrites every row it can read and counts them. */
  lemma RotationRewritesTheTable(s: Store, draws: seq<Draw>)
    requires s.keys.Valid() && ValidDraws(s.rows, draws)
    ensures var (r, n) := RotateStore(s, draws);
            && n.keys == s.keys && |n.rows| == |s.rows|
            && (s.keys.current.None? <==> r.Err?) && (r.Err? ==> n == s)
            && (r.Ok? ==>
                  && r.value.rotated == |Resealed(s.keys, s.rows)| && r.value.unreadable == |Unread(s.keys, s.rows)|
                  && Resealed(s.keys, n.rows) == {} && Unread(s.keys, n.rows) == Unread(s.keys, s.rows)
                  && forall i :: 0 <= i < |s.rows| ==>
                       if Read(s.keys, s.rows[i]).Some? then SealedAnew(s.keys, s.rows[i], n.rows[i]) else n.rows[i] == s.rows[i])
  {
    if s.keys.current.Some? {
      TheReportCountsRows(s.keys, s.rows);
      var n := RotateStore(s, draws).1;
      forall i | 0 <= i < |s.rows|
        ensures if Read(s.keys, s.rows[i]).Some? then SealedAnew(s.keys, s.rows[i], n.rows[i]) else n.rows[i] == s.rows[i]
        ensures !UnderAnotherKey(s.keys, n.rows[i]) && (Read(s.keys, n.rows[i]).None? <==> Read(s.keys, s.rows[i]).None?)
      {
        RotationSealsAnew(s.keys, s.rows[i], draws[i]);
        RotatedRowReadsTheSame(s.keys, s.rows[i], draws[i]);
      }
    }
  }

  lemma RotateKeepsSynced(s: Store, draws: seq<Draw>)
    requires Synced(s) && ValidDraws(s.rows, draws)
    ensures Synced(RotateStore(s, draws).1)
  {
    if s.keys.current.Some? {
      forall i | 0 <= i < |s.rows|
        ensures SameCredential(Read(s.keys, s.rows[i]), Read(s.keys, RotateRows(s.keys, s.rows, draws)[i]))
        ensures RotateRow(s.keys, s.rows[i], draws[i]).id == s.rows[i].id
      {
        RotatedRowReadsTheSame(s.keys, s.rows[i], draws[i]);
      }
    }
  }

  datatype Op =
    | DoWarm
    | DoSet(service: string, identity: Identity, value: string, account: Option<string>, draw: Draw, id: string)
    | DoRemove(identity: Identity)
    | DoRotate(draws: seq<Draw>)

  /** The adapter and the cipher hand out what they promise. */
  ghost predicate Allowed(s: Store, op: Op) {
    match op
    case DoSet(_, _, _, _, draw, id) =>
      && draw.Valid() && id != "" && forall i :: 0 <= i < |s.rows| ==> s.rows[i].id != Text(id)
    case DoRotate(draws) => ValidDraws(s.rows, draws)
    case _ => true
  }

  ghost function Apply(s: Store, op: Op): Store
    requires Allowed(s, op)
  {
    match op
    case DoWarm => Warmed(s)
    case DoSet(service, identity, value, account, draw, id) => SetCredential(s, service, identity, value, account, draw, id).1
    case DoRemove(identity) => RemoveCredential(s, identity).1
    case DoRotate(draws) => RotateStore(s, draws).1
  }

  ghost function Run(s: Store, ops: seq<Op>): Store
    decreases |ops|
  {
    if ops == [] then s
    else Run(if Allowed(s, ops[0]) then Apply(s, ops[0]) else s, ops[1..])
  }

  /** A `set` names its service and its variable. */
  predicate Named(op: Op) {
    op.DoSet? ==> op.service != "" && op.identity.name != ""
  }

  /** Any sequence of operations leaves the index as a fresh `warm` would build it, and the identities distinct. */
  lemma {:induction false} IndexAgreesWithRows(s: Store, ops: seq<Op>)
    requires Synced(s) && forall i :: 0 <= i < |ops| ==> Named(ops[i])
    ensures Synced(Run(s, ops))
    decreases |ops|
  {
    if ops != [] {
      var op := ops[0];
      if Allowed(s, op) {
        match op {
          case DoWarm =>
          case DoSet(service, identity, value, account, draw, id) => SetKeepsSynced(s, service, identity, value, account, draw, id);
          case DoRemove(identity) => RemoveKeepsSynced(s, identity);
          case DoRotate(draws) => RotateKeepsSynced(s, draws);
        }
        IndexAgreesWithRows(Apply(s, op), ops[1..]);
      } else {
        IndexAgreesWithRows(s, ops[1..]);
      }
    }
  }

  /** Distinct identities are needed: removal leaves the index right exactly when no other row has the identity. */
  lemma RemoveNeedsDistinctIdentities(s: Store, identity: Identity)
    requires s.keys.Valid() && DistinctIds(s.rows) && s.warmed && s.index == IndexOf(s.keys, s.rows) && identity in s.index
    ensures var n := RemoveCredential(s, identity).1;
            n.index == IndexOf(s.keys, n.rows) <==>
            (forall i, j :: 0 <= i < j < |s.rows| && ReadAs(s.keys, s.rows[i]) == Some(identity) ==>
                              ReadAs(s.keys, s.rows[j]) != Some(identity))
  {
    var n := RemoveCredential(s, identity).1;
    var k := IndexedRow(s.keys, s.rows, identity);
    DeleteAt(s.rows, k, s.index[identity].id);
    if NoneFrom(s.keys, s.rows[..k], 0, identity) {
      WarmWithout(s.keys, s.rows, k, identity);
    } else {
      var i :| 0 <= i < k && ReadAs(s.keys, s.rows[..k][i]) == Some(identity);
      assert n.rows[i] == s.rows[i];
      NotIndexed(s.keys, n.rows, identity);
      assert identity in IndexOf(s.keys, n.rows);
    }
  }

  /**
   Two instances that warmed before either stored an identity leave two rows of it.  A store warmed over both rows
   then removes the later one only: its index has the identity no longer, and a fresh warm still resolves it.
   */
  lemma TwoInstancesLeaveADuplicate(
      keys: Keys, service: string, identity: Identity, one: string, two: string, d: Draw, e: Draw, id: string, other: string)
    requires keys.Valid() && keys.current.Some? && d.Valid() && e.Valid() && service != "" && identity.name != ""
    requires identity.principal != Some("") && id != "" && other != "" && id != other
    ensures var empty := Store(keys, [], map[], true);
            var first := SetCredential(empty, service, identity, one, None, d, id).1;
            var second := SetCredential(empty.(rows := first.rows), service, identity, two, None, e, other).1;
            var both := Warmed(Store(keys, second.rows, map[], false));
            var (removed, n) := RemoveCredential(both, identity);
            && Resolve(both.index, identity) == Some(two) && removed && identity !in n.index
            && Resolve(IndexOf(keys, n.rows), identity) == Some(one)
  {
    var key := keys.current.value;
    var r := RowData(key, service, identity, one, None, d).(id := Text(id));
    var q := RowData(key, service, identity, two, None, e).(id := Text(other));
    WrittenRowReads(keys, Blank, service, identity, one, None, d, id);
    WrittenRowReads(keys, Blank, service, identity, two, None, e, other);
    assert r == Merge(Blank, RowData(key, service, identity, one, None, d), id);
    assert q == Merge(Blank, RowData(key, service, identity, two, None, e), other);
    assert [] + [r] == [r] && [r] + [q] == [r, q];
    RemovingOneOfTwo(keys, r, q, Read(keys, r).value, Read(keys, q).value);
  }

  lemma RemovingOneOfTwo(keys: Keys, r: Row, q: Row, a: Stored, b: Stored)
    requires Read(keys, r) == Some(a) && Read(keys, q) == Some(b) && KeyOf(a) == KeyOf(b)
    requires q.id == Text(b.id) && r.id.Text? && r.id != q.id
    ensures var both := Warmed(Store(keys, [r, q], map[], false));
            && KeyOf(b) in both.index && both.index[KeyOf(b)] == b
            && RemoveCredential(both, KeyOf(b)).1.rows == [r] && IndexOf(keys, [r]) == map[KeyOf(a) := a]
  {
    TwoRowsIndexed(keys, r, q);
    DeleteAt([r, q], 1, b.id);
    assert [r, q][..1] + [r, q][2..] == [r];
  }

  lemma TwoRowsIndexed(keys: Keys, r: Row, q: Row)
    ensures IndexOf(keys, [r]) == Put(map[], Read(keys, r)) && IndexOf(keys, [r, q]) == Put(Put(map[], Read(keys, r)), Read(keys, q))
  {
    IndexOfMore(keys, [], r);
    IndexOfMore(keys, [r], q);
    assert [] + [r] == [r] && [r] + [q] == [r, q];
  }

  // ---------------------------------------------------------------------------------------------
  // The store the host keeps

  /** The adapter: the row array the operations rewrite. */
  class RowTable {
    var rows: seq<Row>

    constructor (rows: seq<Row>)
      ensures this.rows == rows
    {
      this.rows := rows;
    }

    method CreateRow(data: Row, id: string)
      modifies this
      ensures rows == Create(old(rows), data, id)
    {
      rows := Create(rows, data, id);
    }

    method UpdateRow(id: string, data: Row)
      modifies this
      ensures rows == Update(old(rows), id, data)
    {
      rows := Update(rows, id, data);
    }

    method DeleteRow(id: string)
      modifies this
      ensures rows == Delete(old(rows), id)
    {
      rows := Delete(rows, id);
    }
  }

  class Credentials {
    const adapter: RowTable
    const keys: Keys
    var byIdentity: Index
    var warmed: bool

    ghost function View(): Store
      reads this, adapter
    {
      Store(keys, adapter.rows, byIdentity, warmed)
    }

    constructor (adapter: RowTable, keys: Keys)
      ensures this.adapter == adapter && View() == Store(keys, adapter.rows, map[], false)
    {
      this.adapter, this.keys, byIdentity, warmed := adapter, keys, map[], false;
    }

    /** Decrypt every row into the index; the answer is how many credentials resolve. */
    method Warm() returns (resolvable: nat)
      modifies this
      ensures View() == Warmed(old(View())) && resolvable == |byIdentity|
    {
      byIdentity, warmed := map[], true;
      var rows := adapter.rows;
      for i := 0 to |rows|
        invariant warmed && byIdentity == IndexOf(keys, rows[..i])
      {
        assert rows[..i + 1][..i] == rows[..i];
        var read := Read(keys, rows[i]);
        if read.Some? {
          byIdentity := byIdentity[KeyOf(read.value) := read.value];
        }
      }
      assert rows[..|rows|] == rows;
      resolvable := |byIdentity|;
    }

    method Set(service: string, identity: Identity, value: string, account: Option<string>, draw: Draw, id: string)
      returns (r: Result<Stored, Error>)
      modifies this, adapter
      ensures (r, View()) == SetCredential(old(View()), service, identity, value, account, draw, id)
    {
      if identity.principal == Some("") { return Err(EmptyPrincipal); }
      if account == Some("") { return Err(EmptyAccount); }
      if !warmed { var _ := Warm(); }
      if keys.current.None? { return Err(NoMasterKey); }
      var data := RowData(keys.current.value, service, identity, value, account, draw);
      var rowId, kept := id, account;
      if identity in byIdentity {
        rowId := byIdentity[identity].id;
        if account.None? { kept := byIdentity[identity].account; }
        adapter.UpdateRow(rowId, data);
      } else {
        adapter.CreateRow(data, id);
      }
      var entry := Stored(rowId, service, identity.name, value, Last4(value), draw.at, kept, identity.principal);
      byIdentity := byIdentity[identity := entry];
      r := Ok(entry);
    }

    method Remove(identity: Identity) returns (removed: bool)
      modifies this, adapter
      ensures (removed, View()) == RemoveCredential(old(View()), identity)
    {
      if !warmed { var _ := Warm(); }
      if identity !in byIdentity { return false; }
      adapter.DeleteRow(byIdentity[identity].id);
      byIdentity := byIdentity - {identity};
      removed := true;
    }

    /** One row of a rotation, the `k`-th of the table. */
    method RotateOne(row: Row, draw: Draw, key: Key, ghost k: nat) returns (outcome: Outcome)
      requires keys.current == Some(key) && DistinctIds(adapter.rows) && k < |adapter.rows| && adapter.rows[k] == row
      modifies adapter
      ensures outcome == Classify(keys, row) && adapter.rows == old(adapter.rows)[k := RotateRow(keys, row, draw)]
    {
      if !WellFormed(row) { return Unreadable; }
      var keyId := TextOf(row.keyId);
      var value := DecryptRow(keys, row, keyId, IdentityOf(row));
      if value.None? { return Unreadable; }
      if keyId == Some(key.fingerprint) { return AlreadyCurrent; }
      if keyId.None? && DecryptRow(keys, row, Some(key.fingerprint), IdentityOf(row)).Some? {
        UpdateAt(adapter.rows, k, row.id.text, row.(keyId := Text(key.fingerprint)));
        adapter.UpdateRow(row.id.text, row.(keyId := Text(key.fingerprint)));
        return AlreadyCurrent;
      }
      var data := Blank.(service := row.service, envVar := row.envVar,
                         ciphertext := Encrypt(key, value.value, IdentityOf(row), draw),
                         iv := Text(draw.iv), authTag := Text(draw.tag),
                         keyId := Text(key.fingerprint), updatedAt := Number(draw.at),
                         principal := row.principal);
      UpdateAt(adapter.rows, k, row.id.text, data);
      adapter.UpdateRow(row.id.text, data);
      outcome := Rotated;
    }

    /** Row `i` of the rows as they were listed, the ones before it done. */
    method RotateNext(rows: seq<Row>, draws: seq<Draw>, key: Key, i: nat) returns (outcome: Outcome)
      requires keys.current == Some(key) && |draws| == |rows| && i < |rows| && DistinctIds(rows)
      requires adapter.rows == PartlyRotated(keys, rows, draws, i)
      modifies adapter
      ensures adapter.rows == PartlyRotated(keys, rows, draws, i + 1)
      ensures Count(keys, rows[..i + 1]) == Tally(Count(keys, rows[..i]), outcome)
    {
      RotationGoesOn(keys, rows, draws, i);
      outcome := RotateOne(rows[i], draws[i], key, i);
    }

    /** The loop over the rows as they were listed. */
    method RotateAll(rows: seq<Row>, draws: seq<Draw>, key: Key) returns (report: Report)
      requires keys.current == Some(key) && adapter.rows == rows && DistinctIds(rows) && |draws| == |rows|
      modifies adapter
      ensures adapter.rows == RotateRows(keys, rows, draws) && report == Count(keys, rows)
    {
      var rotated, alreadyCurrent, unreadable := 0, 0, 0;
      RotationStarts(keys, rows, draws);
      for i := 0 to |rows|
        invariant adapter.rows == PartlyRotated(keys, rows, draws, i)
        invariant Report(rotated, alreadyCurrent, unreadable) == Count(keys, rows[..i])
      {
        var outcome := RotateNext(rows, draws, key, i);
        match outcome {
          case Rotated => rotated := rotated + 1;
          case AlreadyCurrent => alreadyCurrent := alreadyCurrent + 1;
          case Unreadable => unreadable := unreadable + 1;
        }
      }
      report := Report(rotated, alreadyCurrent, unreadable);
    }

    method Rotate(draws: seq<Draw>) returns (r: Result<Report, Error>)
      requires DistinctIds(adapter.rows) && |draws| == |adapter.rows|
      modifies this, adapter
      ensures (r, View()) == RotateStore(old(View()), draws)
    {
      if keys.current.None? { return Err(NoMasterKey); }
      var report := RotateAll(adapter.rows, draws, keys.current.value);
      var _ := Warm();
      r := Ok(report);
    }
  }

  /** The rows when the first `i` have been rotated. */
  ghost function PartlyRotated(keys: Keys, rows: seq<Row>, draws: seq<Draw>, i: nat): seq<Row>
    requires keys.current.Some? && |draws| == |rows| && i <= |rows|
  {
    RotateRows(keys, rows, draws)[..i] + rows[i..]
  }

  lemma RotationStarts(keys: Keys, rows: seq<Row>, draws: seq<Draw>)
    requires keys.current.Some? && |draws| == |rows|
    ensures PartlyRotated(keys, rows, draws, 0) == rows
    ensures PartlyRotated(keys, rows, draws, |rows|) == RotateRows(keys, rows, draws) && rows[..|rows|] == rows
  {
  }

  lemma RotationGoesOn(keys: Keys, rows: seq<Row>, draws: seq<Draw>, i: nat)
    requires keys.current.Some? && |draws| == |rows| && i < |rows| && DistinctIds(rows)
    ensures var before := PartlyRotated(keys, rows, draws, i);
            && |before| == |rows| && DistinctIds(before) && before[i] == rows[i]
            && before[i := RotateRow(keys, rows[i], draws[i])] == PartlyRotated(keys, rows, draws, i + 1)
    ensures Count(keys, rows[..i + 1]) == Tally(Count(keys, rows[..i]), Classify(keys, rows[i]))
  {
    assert rows[..i + 1][..i] == rows[..i];
    assert rows[..i + 1] == rows[..i] + [rows[i]];
    CountMore(keys, rows[..i], rows[i]);
    var before := PartlyRotated(keys, rows, draws, i);
    forall j | 0 <= j < |rows| ensures before[j].id == rows[j].id {
      if j < i { assert before[j] == RotateRow(keys, rows[j], draws[j]); }
    }
  }
}
