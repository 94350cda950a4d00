/**
 * The two lookups of `Context` (ones-core/src/application.rs:142-298) as
 * functions of the state they act on, and the properties they have.
 * `Application.Context` runs them step by step and is proved to agree.
 */
module Resolver {
  import opened Wrappers
  import opened Types
  import opened Digest
  import opened Paths
  import opened Store
  import opened Fetch

  /**
   * What the lookups read and change: the database file (absent, or its
   * tables), the files by path, and whether the cache directory exists.
   */
  datatype World = World(db: Option<Database>, files: map<string, seq<byte>>, cacheDirExists: bool)

  /** A lookup's result and the state it leaves. */
  datatype Outcome<T> = Outcome(result: Result<T>, world: World)

  function AppTable(w: World): map<string, Cell>
  {
    Open(w.db).appInfo
  }

  function Rows(w: World): seq<Resource>
  {
    Open(w.db).resource
  }

  function LastId(w: World): int
  {
    Open(w.db).lastId
  }

  // ---------------------------------------------------------------- descriptors

  /** The replies after which `get_app_info` answers from the cache. */
  predicate IsFallback(reply: DescriptorReply)
  {
    reply.Reply? && (!IsSuccess(reply.status) || (reply.body.Decoded? && reply.body.response.code != 0))
  }

  /**
   * `get_app_info(server, id)` when `GET {server}/appinfo/{id}` gives `reply`
   * and a cached cell is read as `asClass`. It changes only `app_info`.
   */
  function DescriptorLookupAs(w: World, id: string, reply: DescriptorReply, asClass: StorageClass): (o: Outcome<Option<AppInfo>>)
    ensures o.world.db.Some? && Rows(o.world) == Rows(w) && LastId(o.world) == LastId(w)
    ensures o.world.files == w.files && o.world.cacheDirExists == w.cacheDirExists
  {
    var d := Open(w.db);
    var created := w.(db := Some(d));
    match reply
    case NoReply => Outcome(Err(ReqwestError), created)
    case Reply(status, body) =>
      if !IsSuccess(status) then Outcome(ReadCached(d.appInfo, id, asClass), created)
      else
        match body
        case Malformed => Outcome(Err(ReqwestError), created)
        case Decoded(res) =>
          if res.code == 0 then
            Outcome(Ok(Some(res.data)), w.(db := Some(d.(appInfo := d.appInfo[id := StoredDescriptor(res.data)]))))
          else Outcome(ReadCached(d.appInfo, id, asClass), created)
  }

  /** The lookup as written: the cached cell is read as TEXT. */
  function DescriptorLookupAsWritten(w: World, id: string, reply: DescriptorReply): Outcome<Option<AppInfo>>
  {
    DescriptorLookupAs(w, id, reply, Text)
  }

  /** The lookup the model uses: the cached cell is read as the BLOB it was stored as. */
  function DescriptorLookup(w: World, id: string, reply: DescriptorReply): Outcome<Option<AppInfo>>
  {
    DescriptorLookupAs(w, id, reply, Blob)
  }

  /** A success status with code 0 returns the data and upserts it under `id`, and only there. */
  lemma DescriptorSuccess(w: World, id: string, status: int, data: AppInfo)
    requires IsSuccess(status)
    ensures var o := DescriptorLookup(w, id, Reply(status, Decoded(ApiResponse(0, data))));
      o.result == Ok(Some(data)) &&
      o.world.db.Some? && AppTable(o.world) == AppTable(w)[id := StoredDescriptor(data)] &&
      CachedAppInfo(AppTable(o.world), id) == Ok(Some(data)) &&
      (forall k :: k != id ==> (k in AppTable(o.world) <==> k in AppTable(w))) &&
      Rows(o.world) == Rows(w) && LastId(o.world) == LastId(w) &&
      o.world.files == w.files && o.world.cacheDirExists == w.cacheDirExists
  {
    ReadOfStoredDescriptor(AppTable(w), id, data);
  }

  /**
   * A non-success status, or code != 0, answers from the cache: the stored
   * descriptor, or `None` when there is none; the tables are unchanged.
   */
  lemma DescriptorFallback(w: World, id: string, reply: DescriptorReply)
    requires IsFallback(reply)
    ensures var o := DescriptorLookup(w, id, reply);
      o.result == CachedAppInfo(AppTable(w), id) &&
      (id !in AppTable(w) ==> o.result == Ok(None)) &&
      (forall info :: id in AppTable(w) && AppTable(w)[id] == StoredDescriptor(info) ==> o.result == Ok(Some(info))) &&
      o.world == w.(db := Some(Open(w.db)))
  {
  }

  /** A failed `send()` and an undecodable body are errors, not fallbacks; the tables are unchanged. */
  lemma DescriptorErrors(w: World, id: string, reply: DescriptorReply)
    requires reply.NoReply? || (reply.Reply? && IsSuccess(reply.status) && reply.body.Malformed?)
    ensures var o := DescriptorLookup(w, id, reply);
      o.result == Err(ReqwestError) && o.world == w.(db := Some(Open(w.db)))
  {
  }

  /** After a successful fetch of `data`, any later fallback reply for `id` yields `data` again. */
  lemma DescriptorServedAfterSuccess(w: World, id: string, status: int, data: AppInfo, later: DescriptorReply)
    requires IsSuccess(status)
    requires IsFallback(later)
    ensures var w1 := DescriptorLookup(w, id, Reply(status, Decoded(ApiResponse(0, data)))).world;
      DescriptorLookup(w1, id, later).result == Ok(Some(data))
  {
    DescriptorSuccess(w, id, status, data);
  }

  /** With the server unreachable, even a freshly cached descriptor is not served. */
  lemma DescriptorOfflineIsError(w: World, id: string, status: int, data: AppInfo)
    requires IsSuccess(status)
    ensures var w1 := DescriptorLookup(w, id, Reply(status, Decoded(ApiResponse(0, data)))).world;
      id in AppTable(w1) && DescriptorLookup(w1, id, NoReply).result == Err(ReqwestError)
  {
  }

  /**
   * As written, a fallback after a successful fetch fails with `SqliteError`
   * instead of returning `data`; with the corrected read it returns `data`.
   * Both versions store the same table.
   */
  lemma AsWrittenFallbackFails(w: World, id: string, status: int, data: AppInfo, later: DescriptorReply)
    requires IsSuccess(status)
    requires IsFallback(later)
    ensures var w1 := DescriptorLookupAsWritten(w, id, Reply(status, Decoded(ApiResponse(0, data)))).world;
      w1 == DescriptorLookup(w, id, Reply(status, Decoded(ApiResponse(0, data)))).world &&
      DescriptorLookupAsWritten(w1, id, later).result == Err(SqliteError) &&
      DescriptorLookup(w1, id, later).result == Ok(Some(data))
  {
    DescriptorServedAfterSuccess(w, id, status, data, later);
    AsWrittenReadOfStoredFails(AppTable(w), id, data);
  }

  // ---------------------------------------------------------------- resources

  /** The check at application.rs:250-253: the file exists, the cache is enabled and its digest matches. */
  predicate CacheHit(md5: Md5, files: map<string, seq<byte>>, row: Resource, disableCache: bool)
  {
    row.path in files && !disableCache && Md5Hex(md5, files[row.path]) == row.hashCode
  }

  /** Whether `get_resource` will download: no row for `url`, or its first row fails the check. */
  predicate NeedsDownload(md5: Md5, w: World, url: string, disableCache: bool)
  {
    match FirstByUrl(Rows(w), url)
    case None => true
    case Some(i) => !CacheHit(md5, w.files, Rows(w)[i], disableCache)
  }

  /** Download into the cache directory, hash the new file and insert a fresh row for it. */
  function Record(md5: Md5, cacheDir: string, w: World, d: Database, url: string, uuid: string, reply: DownloadReply): (o: Outcome<Option<string>>)
    ensures o.world.db.Some? && o.world.db.value.appInfo == d.appInfo && o.world.cacheDirExists == w.cacheDirExists
    ensures o.result.Ok? ==> o.result == Ok(Some(JoinPath(cacheDir, uuid)))
  {
    var f := Download(cacheDir, w.files, url, uuid, reply);
    match f.result
    case Err(e) => Outcome(Err(e), w.(db := Some(d), files := f.files))
    case Ok(name) =>
      var path := JoinPath(cacheDir, name);
      match Insert(d, url, path, Md5Hex(md5, f.files[path]), "")
      case Err(e) => Outcome(Err(e), w.(db := Some(d), files := f.files))
      case Ok(d') => Outcome(Ok(Some(path)), w.(db := Some(d'), files := f.files))
  }

  /**
   * `get_resource(url, disable_cache)` when the fresh file name is `uuid` and
   * fetching `url` would give `reply`.
   */
  function ResourceLookup(md5: Md5, cacheDir: string, w: World, url: string, disableCache: bool, uuid: string, reply: DownloadReply): (o: Outcome<Option<string>>)
    ensures o.world.db.Some? && AppTable(o.world) == AppTable(w) && o.world.cacheDirExists
    ensures o.result.Ok? ==> o.result.value.Some?
  {
    var d := Open(w.db);
    var w1 := w.(cacheDirExists := true);
    match FirstByUrl(d.resource, url)
    case None => Record(md5, cacheDir, w1, d, url, uuid, reply)
    case Some(i) =>
      var row := d.resource[i];
      var claimed := d.(resource := DeleteById(d.resource, row.id));
      if CacheHit(md5, w.files, row, disableCache) then Outcome(Ok(Some(row.path)), w1.(db := Some(claimed)))
      else Record(md5, cacheDir, w1, claimed, url, uuid, reply)
  }

  /** What `Record` does, case by case. */
  lemma RecordOutcome(md5: Md5, cacheDir: string, w: World, d: Database, url: string, uuid: string, reply: DownloadReply)
    requires WellFormed(d)
    ensures var o := Record(md5, cacheDir, w, d, url, uuid, reply);
      var f := Download(cacheDir, w.files, url, uuid, reply);
      var path := JoinPath(cacheDir, uuid);
      o.world.files == f.files && o.world.cacheDirExists == w.cacheDirExists &&
      o.world.db.Some? && WellFormed(o.world.db.value) && o.world.db.value.appInfo == d.appInfo &&
      (f.result.Ok? && d.lastId < MaxRowId ==>
         o.result == Ok(Some(path)) && o.world.db.value.lastId == d.lastId + 1 &&
         o.world.db.value.resource == d.resource + [Resource(d.lastId + 1, url, path, Md5Hex(md5, reply.payload.bytes), "")]) &&
      (!(f.result.Ok? && d.lastId < MaxRowId) ==> o.result.Err? && o.world.db == Some(d)) &&
      (f.result.Err? ==> o.result == Err(f.result.error)) &&
      (f.result.Ok? && d.lastId == MaxRowId ==> o.result == Err(SqliteError))
  {
  }

  /**
   * `ResourceLookup` in two cases: a hit answers with the claimed row's path,
   * anything else is `Record` on the claimed rows. The `DELETE` removes
   * exactly the first row for `url`.
   */
  lemma LookupNormalForm(md5: Md5, cacheDir: string, w: World, url: string, disableCache: bool, uuid: string, reply: DownloadReply)
    returns (claimed: Database)
    requires WellFormed(Open(w.db))
    ensures WellFormed(claimed) && claimed == Open(w.db).(resource := Claim(Rows(w), url))
    ensures ResourceLookup(md5, cacheDir, w, url, disableCache, uuid, reply) ==
      if NeedsDownload(md5, w, url, disableCache) then Record(md5, cacheDir, w.(cacheDirExists := true), claimed, url, uuid, reply)
      else Outcome(Ok(Some(Rows(w)[FirstByUrl(Rows(w), url).value].path)), w.(cacheDirExists := true, db := Some(claimed)))
  {
    claimed := Open(w.db).(resource := Claim(Rows(w), url));
    if FirstByUrl(Rows(w), url).Some? {
      ClaimIsDelete(Open(w.db), url);
    }
  }

  /** A lookup keeps the `resource` table well formed and never touches `app_info`. */
  lemma ResourceLookupWellFormed(md5: Md5, cacheDir: string, w: World, url: string, disableCache: bool, uuid: string, reply: DownloadReply)
    requires WellFormed(Open(w.db))
    ensures var o := ResourceLookup(md5, cacheDir, w, url, disableCache, uuid, reply);
      o.world.db.Some? && WellFormed(Open(o.world.db)) && AppTable(o.world) == AppTable(w) && o.world.cacheDirExists
  {
    var claimed := LookupNormalForm(md5, cacheDir, w, url, disableCache, uuid, reply);
    RecordOutcome(md5, cacheDir, w.(cacheDirExists := true), claimed, url, uuid, reply);
  }

  /**
   * The first row for `url` is removed whatever the outcome; every other row
   * keeps its place, and at most one new row is appended after them.
   */
  lemma FirstRowAlwaysRemoved(md5: Md5, cacheDir: string, w: World, url: string, disableCache: bool, uuid: string, reply: DownloadReply, i: nat)
    requires WellFormed(Open(w.db))
    requires FirstByUrl(Rows(w), url) == Some(i)
    ensures var o := ResourceLookup(md5, cacheDir, w, url, disableCache, uuid, reply);
      var kept := Rows(w)[..i] + Rows(w)[i + 1..];
      Rows(o.world) == kept ||
      (|Rows(o.world)| == |kept| + 1 && Rows(o.world)[..|kept|] == kept &&
       Rows(o.world)[|kept|].id == LastId(w) + 1 && Rows(o.world)[|kept|].url == url)
  {
    var claimed := LookupNormalForm(md5, cacheDir, w, url, disableCache, uuid, reply);
    RecordOutcome(md5, cacheDir, w.(cacheDirExists := true), claimed, url, uuid, reply);
    var o := ResourceLookup(md5, cacheDir, w, url, disableCache, uuid, reply);
    if |Rows(o.world)| != |claimed.resource| {
      assert Rows(o.world)[..|claimed.resource|] == claimed.resource;
    }
  }

  /**
   * A first row that passes the check is the answer: its path is returned,
   * nothing is downloaded (the reply plays no part), no row is inserted, and
   * the claimed row is not put back.
   */
  lemma CacheHitServed(md5: Md5, cacheDir: string, w: World, url: string, uuid: string, reply: DownloadReply, uuid': string, reply': DownloadReply, i: nat)
    requires WellFormed(Open(w.db))
    requires FirstByUrl(Rows(w), url) == Some(i)
    requires CacheHit(md5, w.files, Rows(w)[i], false)
    ensures var o := ResourceLookup(md5, cacheDir, w, url, false, uuid, reply);
      o.result == Ok(Some(Rows(w)[i].path)) &&
      Rows(o.world) == Rows(w)[..i] + Rows(w)[i + 1..] && LastId(o.world) == LastId(w) &&
      o.world.files == w.files &&
      o == ResourceLookup(md5, cacheDir, w, url, false, uuid', reply')
  {
    var claimed := LookupNormalForm(md5, cacheDir, w, url, false, uuid, reply);
    var claimed' := LookupNormalForm(md5, cacheDir, w, url, false, uuid', reply');
  }

  /**
   * When a download is due and succeeds, its file is returned and exactly one
   * row is appended: the next id, the url, the new path, the digest of the
   * downloaded bytes and an empty cache control.
   */
  lemma DownloadRecordsRow(md5: Md5, cacheDir: string, w: World, url: string, disableCache: bool, uuid: string, status: int, bytes: seq<byte>)
    requires WellFormed(Open(w.db))
    requires NeedsDownload(md5, w, url, disableCache)
    requires IsSuccess(status)
    requires LastId(w) < MaxRowId
    ensures var o := ResourceLookup(md5, cacheDir, w, url, disableCache, uuid, Response(status, Bytes(bytes)));
      var path := JoinPath(cacheDir, uuid);
      o.result == Ok(Some(path)) &&
      Rows(o.world) == Claim(Rows(w), url) + [Resource(LastId(w) + 1, url, path, Md5Hex(md5, bytes), "")] &&
      LastId(o.world) == LastId(w) + 1 &&
      o.world.files == w.files[path := bytes]
  {
    var claimed := LookupNormalForm(md5, cacheDir, w, url, disableCache, uuid, Response(status, Bytes(bytes)));
    RecordOutcome(md5, cacheDir, w.(cacheDirExists := true), claimed, url, uuid, Response(status, Bytes(bytes)));
  }

  /** `disable_cache` downloads even when a valid row exists. */
  lemma ForcedDownload(md5: Md5, cacheDir: string, w: World, url: string, uuid: string, status: int, bytes: seq<byte>)
    requires WellFormed(Open(w.db))
    requires IsSuccess(status)
    requires LastId(w) < MaxRowId
    ensures var o := ResourceLookup(md5, cacheDir, w, url, true, uuid, Response(status, Bytes(bytes)));
      o.result == Ok(Some(JoinPath(cacheDir, uuid))) &&
      Rows(o.world) == Claim(Rows(w), url) + [Resource(LastId(w) + 1, url, JoinPath(cacheDir, uuid), Md5Hex(md5, bytes), "")]
  {
    DownloadRecordsRow(md5, cacheDir, w, url, true, uuid, status, bytes);
  }

  /**
   * When a download is due and fails (bad url, no response, non-success
   * status, unreadable body) or no row id is left, the call is an error and
   * no row is inserted; the claimed row stays deleted and, once the url has
   * parsed, the new file is left behind.
   */
  lemma DownloadFailureRecordsNothing(md5: Md5, cacheDir: string, w: World, url: string, disableCache: bool, uuid: string, reply: DownloadReply)
    requires WellFormed(Open(w.db))
    requires NeedsDownload(md5, w, url, disableCache)
    requires !(reply.Response? && IsSuccess(reply.status) && reply.payload.Bytes?) || LastId(w) == MaxRowId
    ensures var o := ResourceLookup(md5, cacheDir, w, url, disableCache, uuid, reply);
      var path := JoinPath(cacheDir, uuid);
      o.result.Err? &&
      Rows(o.world) == Claim(Rows(w), url) && LastId(o.world) == LastId(w) &&
      (reply.BadUrl? ==> o.result == Err(UrlParseError) && o.world.files == w.files) &&
      (reply.NoResponse? ==> o.result == Err(ReqwestError) && o.world.files == w.files[path := []]) &&
      (reply.Response? && !IsSuccess(reply.status) ==>
         o.result == Err(FileDownloadFail(url)) && o.world.files == w.files[path := []]) &&
      (reply.Response? && IsSuccess(reply.status) && reply.payload.Bytes? ==>
         o.result == Err(SqliteError) && o.world.files == w.files[path := reply.payload.bytes])
  {
    var claimed := LookupNormalForm(md5, cacheDir, w, url, disableCache, uuid, reply);
    RecordOutcome(md5, cacheDir, w.(cacheDirExists := true), claimed, url, uuid, reply);
  }

  /** After a download for a url with no other row, the new row is the first (and only) one for it. */
  lemma DownloadedRowIsFirst(md5: Md5, cacheDir: string, w: World, url: string, disableCache: bool, uuid: string, status: int, bytes: seq<byte>)
    returns (o1: Outcome<Option<string>>, row: Resource)
    requires WellFormed(Open(w.db))
    requires NeedsDownload(md5, w, url, disableCache)
    requires NoRowFor(Claim(Rows(w), url), url)
    requires IsSuccess(status)
    requires LastId(w) < MaxRowId
    ensures o1 == ResourceLookup(md5, cacheDir, w, url, disableCache, uuid, Response(status, Bytes(bytes)))
    ensures row == Resource(LastId(w) + 1, url, JoinPath(cacheDir, uuid), Md5Hex(md5, bytes), "")
    ensures o1.result == Ok(Some(row.path)) && o1.world.files == w.files[row.path := bytes]
    ensures WellFormed(Open(o1.world.db)) && LastId(o1.world) == LastId(w) + 1
    ensures Rows(o1.world) == Claim(Rows(w), url) + [row]
    ensures FirstByUrl(Rows(o1.world), url) == Some(|Claim(Rows(w), url)|)
    ensures Claim(Rows(o1.world), url) == Claim(Rows(w), url)
  {
    row := Resource(LastId(w) + 1, url, JoinPath(cacheDir, uuid), Md5Hex(md5, bytes), "");
    o1 := ResourceLookup(md5, cacheDir, w, url, disableCache, uuid, Response(status, Bytes(bytes)));
    DownloadRecordsRow(md5, cacheDir, w, url, disableCache, uuid, status, bytes);
    ResourceLookupWellFormed(md5, cacheDir, w, url, disableCache, uuid, Response(status, Bytes(bytes)));
    ClaimAppended(Claim(Rows(w), url), row, url);
  }

  /**
   * With no other row for `url`, a downloaded resource is served from the
   * cache on the next lookup, whatever the network does; that lookup deletes
   * the row and does not reinsert it, so the lookup after it downloads again.
   */
  lemma SecondLookupHitsCache(md5: Md5, cacheDir: string, w: World, url: string, disableCache: bool, uuid: string, status: int, bytes: seq<byte>, uuid2: string, reply2: DownloadReply)
    requires WellFormed(Open(w.db))
    requires NeedsDownload(md5, w, url, disableCache)
    requires NoRowFor(Claim(Rows(w), url), url)
    requires IsSuccess(status)
    requires LastId(w) < MaxRowId
    ensures var o1 := ResourceLookup(md5, cacheDir, w, url, disableCache, uuid, Response(status, Bytes(bytes)));
      var o2 := ResourceLookup(md5, cacheDir, o1.world, url, false, uuid2, reply2);
      o2.result == o1.result && o2.world.files == o1.world.files &&
      Rows(o2.world) == Claim(Rows(w), url) &&
      NeedsDownload(md5, o2.world, url, false)
  {
    var o1, row := DownloadedRowIsFirst(md5, cacheDir, w, url, disableCache, uuid, status, bytes);
    var n := |Claim(Rows(w), url)|;
    assert CacheHit(md5, o1.world.files, Rows(o1.world)[n], false);
    CacheHitServed(md5, cacheDir, o1.world, url, uuid2, reply2, uuid2, reply2, n);
  }

  /** A first row whose file no longer matches its digest is replaced by a fresh download. */
  lemma MismatchRefetched(md5: Md5, cacheDir: string, w: World, url: string, n: nat, uuid: string, status: int, bytes: seq<byte>)
    requires WellFormed(Open(w.db))
    requires FirstByUrl(Rows(w), url) == Some(n)
    requires Rows(w)[n].path in w.files && Md5Hex(md5, w.files[Rows(w)[n].path]) != Rows(w)[n].hashCode
    requires IsSuccess(status)
    requires LastId(w) < MaxRowId
    ensures var o := ResourceLookup(md5, cacheDir, w, url, false, uuid, Response(status, Bytes(bytes)));
      var path := JoinPath(cacheDir, uuid);
      o.result == Ok(Some(path)) &&
      Rows(o.world) == Claim(Rows(w), url) + [Resource(LastId(w) + 1, url, path, Md5Hex(md5, bytes), "")]
  {
    DownloadRecordsRow(md5, cacheDir, w, url, false, uuid, status, bytes);
  }

  /**
   * If a downloaded file's bytes change so that their digest differs, the
   * next lookup notices, downloads again and replaces the old row by a new one.
   */
  lemma TamperedFileRefetched(md5: Md5, cacheDir: string, w: World, url: string, disableCache: bool, uuid: string, status: int, bytes: seq<byte>, tampered: seq<byte>, uuid2: string, status2: int, bytes2: seq<byte>)
    requires WellFormed(Open(w.db))
    requires NeedsDownload(md5, w, url, disableCache)
    requires NoRowFor(Claim(Rows(w), url), url)
    requires IsSuccess(status) && IsSuccess(status2)
    requires LastId(w) + 1 < MaxRowId
    requires md5(tampered) != md5(bytes)
    ensures var o1 := ResourceLookup(md5, cacheDir, w, url, disableCache, uuid, Response(status, Bytes(bytes)));
      var w2 := o1.world.(files := o1.world.files[JoinPath(cacheDir, uuid) := tampered]);
      var o2 := ResourceLookup(md5, cacheDir, w2, url, false, uuid2, Response(status2, Bytes(bytes2)));
      o2.result == Ok(Some(JoinPath(cacheDir, uuid2))) &&
      Rows(o2.world) == Claim(Rows(w), url) + [Resource(LastId(w) + 2, url, JoinPath(cacheDir, uuid2), Md5Hex(md5, bytes2), "")]
  {
    var o1, row := DownloadedRowIsFirst(md5, cacheDir, w, url, disableCache, uuid, status, bytes);
    var w2 := o1.world.(files := o1.world.files[row.path := tampered]);
    DigestCompare(md5, tampered, bytes);
    MismatchRefetched(md5, cacheDir, w2, url, |Claim(Rows(w), url)|, uuid2, status2, bytes2);
  }

  /**
   * With no database file (after `desotry`), a lookup starts from empty
   * tables without error: a fallback reply gives no descriptor, and a
   * download becomes row 1.
   */
  lemma LookupsAfterDestroy(md5: Md5, cacheDir: string, w: World, id: string, reply: DescriptorReply, url: string, disableCache: bool, uuid: string, status: int, bytes: seq<byte>)
    requires w.db.None?
    requires IsFallback(reply)
    requires IsSuccess(status)
    ensures DescriptorLookup(w, id, reply).result == Ok(None)
    ensures var o := ResourceLookup(md5, cacheDir, w, url, disableCache, uuid, Response(status, Bytes(bytes)));
      o.result == Ok(Some(JoinPath(cacheDir, uuid))) &&
      Rows(o.world) == [Resource(1, url, JoinPath(cacheDir, uuid), Md5Hex(md5, bytes), "")]
  {
  }
}
