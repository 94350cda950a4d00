/**
 * The SQLite database at `db_path`, as the values its two tables hold
 * (ones-core/src/application.rs:147-157, :214-235, :264-282): `app_info`
 * keyed by descriptor id, and `resource` in row-id order with its
 * AUTOINCREMENT counter.
 */
module Store {
  import opened Wrappers
  import opened Types

  const MaxRowId: int := 0x7FFF_FFFF_FFFF_FFFF

  /** SQLite's storage class of a stored value (only the two the code can write). */
  datatype StorageClass = Text | Blob

  /** One `app_info` column value: its storage class and the JSON it holds. */
  datatype Cell = Cell(storage: StorageClass, json: Json)

  /**
   * The database file's contents. `lastId` is the `sqlite_sequence` entry of
   * the `resource` table: the largest row id ever handed out (0 if none).
   */
  datatype Database = Database(appInfo: map<string, Cell>, resource: seq<Resource>, lastId: nat)

  function Empty(): Database
  {
    Database(map[], [], 0)
  }

  /** `Connection::open` plus `CREATE TABLE IF NOT EXISTS`: an absent file becomes an empty database. */
  function Open(db: Option<Database>): (d: Database)
    ensures db.None? ==> d == Empty()
    ensures db.Some? ==> d == db.value
  {
    if db.Some? then db.value else Empty()
  }

  predicate IdsIncreasing(rows: seq<Resource>)
  {
    forall i, j :: 0 <= i < j < |rows| ==> rows[i].id < rows[j].id
  }

  /** What AUTOINCREMENT guarantees of the `resource` table. */
  predicate WellFormed(d: Database)
  {
    d.lastId <= MaxRowId &&
    (forall i :: 0 <= i < |d.resource| ==> 0 < d.resource[i].id <= d.lastId) &&
    IdsIncreasing(d.resource)
  }

  // ---------------------------------------------------------------- app_info

  /** rusqlite's typed column read: a column converts only from its own storage class. */
  function ReadColumn(c: Cell, asClass: StorageClass): (r: Result<Json>)
    ensures r.Ok? <==> c.storage == asClass
    ensures r.Ok? ==> r.value == c.json
    ensures r.Err? ==> r.error == SqliteError
  {
    if c.storage == asClass then Ok(c.json) else Err(SqliteError)
  }

  /** What `INSERT OR REPLACE ... VALUES (?, serde_json::to_vec(&data))` stores: a BLOB. */
  function StoredDescriptor(info: AppInfo): Cell
  {
    Cell(Blob, ToJson(info))
  }

  /** `SELECT app_info ... WHERE id = ?` read as `asClass`, then decoded as a descriptor. */
  function ReadCached(table: map<string, Cell>, id: string, asClass: StorageClass): Result<Option<AppInfo>>
  {
    if id !in table then Ok(None)
    else
      match ReadColumn(table[id], asClass)
      case Err(e) => Err(e)
      case Ok(j) =>
        match FromJson(j)
        case Err(e) => Err(e)
        case Ok(info) => Ok(Some(info))
  }

  /** The cache read as written at application.rs:159-174: the column is read as a `String` (TEXT). */
  function CachedAppInfoAsWritten(table: map<string, Cell>, id: string): (r: Result<Option<AppInfo>>)
    ensures r == Ok(None) <==> id !in table
    ensures id in table && table[id].storage == Blob ==> r == Err(SqliteError)
  {
    ReadCached(table, id, Text)
  }

  /** The cache read with the column read as the bytes it was stored as; the model uses this one. */
  function CachedAppInfo(table: map<string, Cell>, id: string): (r: Result<Option<AppInfo>>)
    ensures r == Ok(None) <==> id !in table
    ensures forall info :: r == Ok(Some(info)) <==> id in table && table[id] == StoredDescriptor(info)
  {
    ReadCached(table, id, Blob)
  }

  /** The as-written read cannot return any descriptor the code itself stored. */
  lemma AsWrittenReadOfStoredFails(table: map<string, Cell>, id: string, info: AppInfo)
    ensures CachedAppInfoAsWritten(table[id := StoredDescriptor(info)], id) == Err(SqliteError)
  {
  }

  /** The corrected read returns exactly the descriptor stored for `id`. */
  lemma ReadOfStoredDescriptor(table: map<string, Cell>, id: string, info: AppInfo)
    ensures CachedAppInfo(table[id := StoredDescriptor(info)], id) == Ok(Some(info))
  {
  }

  // ---------------------------------------------------------------- resource

  /** The first row `SELECT * ... WHERE url = ?1` yields (a scan in row-id order). */
  function FirstByUrl(rows: seq<Resource>, url: string): (r: Option<nat>)
    ensures r.Some? ==> r.value < |rows| && rows[r.value].url == url
    ensures r.Some? ==> forall k :: 0 <= k < r.value ==> rows[k].url != url
    ensures r.None? ==> forall k :: 0 <= k < |rows| ==> rows[k].url != url
  {
    if rows == [] then None
    else if rows[0].url == url then Some(0)
    else
      match FirstByUrl(rows[1..], url)
      case None => None
      case Some(i) => Some(i + 1)
  }

  predicate NoRowFor(rows: seq<Resource>, url: string)
  {
    forall k :: 0 <= k < |rows| ==> rows[k].url != url
  }

  /** A row appended for a url no earlier row has is the first row for it, and claiming it undoes the append. */
  lemma ClaimAppended(rows: seq<Resource>, r: Resource, url: string)
    requires NoRowFor(rows, url) && r.url == url
    ensures FirstByUrl(rows + [r], url) == Some(|rows|)
    ensures Claim(rows + [r], url) == rows
  {
    var s := rows + [r];
    assert s[|rows|].url == url;
    assert forall k :: 0 <= k < |rows| ==> s[k] == rows[k];
    assert s[..|rows|] + s[|rows| + 1..] == rows;
  }

  /** `DELETE FROM resource WHERE id = ?1`. */
  function DeleteById(rows: seq<Resource>, id: int): (r: seq<Resource>)
    ensures |r| <= |rows|
    ensures forall k :: 0 <= k < |r| ==> r[k].id != id && r[k] in rows
  {
    if rows == [] then []
    else (if rows[0].id == id then [] else [rows[0]]) + DeleteById(rows[1..], id)
  }

  /** The rows left once the first row for `url` is claimed. */
  function Claim(rows: seq<Resource>, url: string): seq<Resource>
  {
    match FirstByUrl(rows, url)
    case None => rows
    case Some(i) => rows[..i] + rows[i + 1..]
  }

  lemma {:induction false} DeleteAbsent(rows: seq<Resource>, id: int)
    requires forall k :: 0 <= k < |rows| ==> rows[k].id != id
    ensures DeleteById(rows, id) == rows
  {
    if rows != [] {
      DeleteAbsent(rows[1..], id);
    }
  }

  lemma TailIdsIncreasing(rows: seq<Resource>)
    requires IdsIncreasing(rows) && rows != []
    ensures IdsIncreasing(rows[1..])
    ensures forall k :: 0 <= k < |rows[1..]| ==> rows[0].id < rows[1..][k].id
  {
    var rest := rows[1..];
    forall a, b | 0 <= a < b < |rest|
      ensures rest[a].id < rest[b].id
    {
      assert rest[a] == rows[a + 1] && rest[b] == rows[b + 1];
    }
    forall k | 0 <= k < |rest|
      ensures rows[0].id < rest[k].id
    {
      assert rest[k] == rows[k + 1];
    }
  }

  /** With unique ids, deleting a row's id removes exactly that row. */
  lemma {:induction false} DeleteAt(rows: seq<Resource>, i: nat)
    requires IdsIncreasing(rows)
    requires i < |rows|
    ensures DeleteById(rows, rows[i].id) == rows[..i] + rows[i + 1..]
  {
    var rest := rows[1..];
    TailIdsIncreasing(rows);
    if i == 0 {
      DeleteAbsent(rest, rows[0].id);
      assert rows[..0] + rows[1..] == rest;
    } else {
      assert rest[i - 1] == rows[i];
      DeleteAt(rest, i - 1);
      assert rows[..i] == [rows[0]] + rest[..i - 1];
      assert rows[i + 1..] == rest[i..];
    }
  }

  /** Removing one row keeps the ids increasing and every id one AUTOINCREMENT gave out. */
  lemma RemoveAtWellFormed(d: Database, i: nat)
    requires WellFormed(d)
    requires i < |d.resource|
    ensures WellFormed(d.(resource := d.resource[..i] + d.resource[i + 1..]))
  {
    var rows := d.resource;
    var r := rows[..i] + rows[i + 1..];
    forall a, b | 0 <= a < b < |r|
      ensures r[a].id < r[b].id
    {
      var a' := if a < i then a else a + 1;
      var b' := if b < i then b else b + 1;
      assert r[a] == rows[a'] && r[b] == rows[b'];
    }
    forall a | 0 <= a < |r|
      ensures 0 < r[a].id <= d.lastId
    {
      assert r[a] == rows[if a < i then a else a + 1];
    }
  }

  /** The `DELETE` of the claimed row leaves `Claim`, and a well-formed table. */
  lemma ClaimIsDelete(d: Database, url: string)
    requires WellFormed(d)
    requires FirstByUrl(d.resource, url).Some?
    ensures var i := FirstByUrl(d.resource, url).value;
      DeleteById(d.resource, d.resource[i].id) == Claim(d.resource, url) &&
      WellFormed(d.(resource := Claim(d.resource, url)))
  {
    var i := FirstByUrl(d.resource, url).value;
    DeleteAt(d.resource, i);
    RemoveAtWellFormed(d, i);
  }

  /**
   * `INSERT INTO resource ...` on an AUTOINCREMENT table: the new row takes
   * the id after the largest ever used, which `last_insert_rowid` reports;
   * once the largest row id has been used the insert fails (SQLITE_FULL).
   */
  function Insert(d: Database, url: string, path: string, hashCode: string, cacheCtrl: string): (r: Result<Database>)
    ensures r.Err? <==> d.lastId >= MaxRowId
    ensures r.Err? ==> r.error == SqliteError
    ensures r.Ok? ==> r.value.appInfo == d.appInfo
    ensures r.Ok? && WellFormed(d) ==> WellFormed(r.value)
    ensures r.Ok? ==> r.value.lastId == d.lastId + 1
    ensures r.Ok? ==> r.value.resource == d.resource + [Resource(r.value.lastId, url, path, hashCode, cacheCtrl)]
  {
    if d.lastId >= MaxRowId then Err(SqliteError)
    else
      var id := d.lastId + 1;
      Ok(Database(d.appInfo, d.resource + [Resource(id, url, path, hashCode, cacheCtrl)], id))
  }
}
