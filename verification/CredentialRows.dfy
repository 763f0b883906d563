/**
 The stored credential rows: their fields, the ideal cipher that seals their values, and the adapter
 operations on the row array (`chromeCredentialRows`).
 */
module CredentialRows {
  import opened Wrappers

  /** A 256-bit master key and the fingerprint rows are stamped with. */
  datatype Key = Key(secret: string, fingerprint: string)

  /** What a credential is stored for; `credentialStorageKey` is injective, so the identity is its own key. */
  datatype Identity = Identity(name: string, principal: Option<string>)

  /**
   A field of a persisted row (`account` is the row's `label`).  `Sealed` is the text an encryption produced: under an ideal cipher all
   that can be done with it is to open it with the right key, identity, iv and tag.
   */
  datatype Cell =
    | Absent
    | Text(text: string)
    | Number(number: int)
    | Sealed(key: Key, aad: Option<Identity>, plain: string, iv: string, tag: string)
    | Other

  datatype Row = Row(
    id: Cell, service: Cell, envVar: Cell, ciphertext: Cell, iv: Cell, authTag: Cell,
    principal: Cell, keyId: Cell, updatedAt: Cell, account: Cell)

  const Blank := Row(Absent, Absent, Absent, Absent, Absent, Absent, Absent, Absent, Absent, Absent)

  predicate NonEmpty(c: Cell) {
    c.Text? && c.text != ""
  }

  predicate IsString(c: Cell) {
    c.Text? || c.Sealed?
  }

  /** The iv and tag of one encryption, and the clock when its row is written. */
  datatype Draw = Draw(iv: string, tag: string, at: int) {
    predicate Valid() {
      iv != "" && tag != ""
    }
  }

  /** Only an identity with a principal is authenticated along with the value. */
  function AdditionalData(identity: Identity): Option<Identity> {
    if identity.principal.Some? then Some(identity) else None
  }

  function Encrypt(key: Key, plain: string, identity: Identity, draw: Draw): Cell {
    Sealed(key, AdditionalData(identity), plain, draw.iv, draw.tag)
  }

  function Decrypt(key: Key, ciphertext: Cell, iv: Cell, tag: Cell, identity: Identity): Option<string> {
    if ciphertext.Sealed? && ciphertext.key == key && ciphertext.aad == AdditionalData(identity)
       && iv == Text(ciphertext.iv) && tag == Text(ciphertext.tag)
    then Some(ciphertext.plain) else None
  }

  // ---------------------------------------------------------------------------------------------
  // The adapter's operations on the row array

  function Field(kept: Cell, data: Cell): Cell {
    if data.Absent? then kept else data
  }

  /** `{ ...row, ...data, id }`: an update keeps every field the data does not carry. */
  function Merge(row: Row, data: Row, id: string): Row {
    Row(Text(id), Field(row.service, data.service), Field(row.envVar, data.envVar),
        Field(row.ciphertext, data.ciphertext), Field(row.iv, data.iv), Field(row.authTag, data.authTag),
        Field(row.principal, data.principal), Field(row.keyId, data.keyId),
        Field(row.updatedAt, data.updatedAt), Field(row.account, data.account))
  }

  function Create(rows: seq<Row>, data: Row, id: string): seq<Row> {
    rows + [data.(id := Text(id))]
  }

  function Update(rows: seq<Row>, id: string, data: Row): (updated: seq<Row>)
    ensures |updated| == |rows|
  {
    seq(|rows|, i requires 0 <= i < |rows| => if rows[i].id == Text(id) then Merge(rows[i], data, id) else rows[i])
  }

  function Delete(rows: seq<Row>, id: string): seq<Row> {
    if rows == [] then []
    else
      var n := |rows| - 1;
      Delete(rows[..n], id) + if rows[n].id == Text(id) then [] else [rows[n]]
  }

  ghost predicate DistinctIds(rows: seq<Row>) {
    forall i, j :: 0 <= i < j < |rows| && rows[i].id.Text? ==> rows[i].id != rows[j].id
  }

  /** With distinct ids an update changes exactly the row of that id. */
  lemma UpdateAt(rows: seq<Row>, k: nat, id: string, data: Row)
    requires DistinctIds(rows) && k < |rows| && rows[k].id == Text(id)
    ensures Update(rows, id, data) == rows[k := Merge(rows[k], data, id)]
    ensures DistinctIds(Update(rows, id, data))
  {
  }

  lemma {:induction false} DeleteAbsent(rows: seq<Row>, id: string)
    requires forall i :: 0 <= i < |rows| ==> rows[i].id != Text(id)
    ensures Delete(rows, id) == rows
    decreases |rows|
  {
    if rows != [] {
      DeleteAbsent(rows[..|rows| - 1], id);
    }
  }

  lemma {:induction false} DeleteAt(rows: seq<Row>, k: nat, id: string)
    requires DistinctIds(rows) && k < |rows| && rows[k].id == Text(id)
    ensures Delete(rows, id) == rows[..k] + rows[k + 1..]
    ensures DistinctIds(Delete(rows, id))
    decreases |rows|
  {
    var n := |rows| - 1;
    if k == n {
      DeleteAbsent(rows[..n], id);
    } else {
      DeleteAt(rows[..n], k, id);
      assert rows[..n][..k] == rows[..k] && rows[..n][k + 1..] + [rows[n]] == rows[k + 1..];
    }
  }
}
