/**
 * `Context` of ones-core/src/application.rs:122-311 as a class. Besides the
 * two paths it carries, the object holds the state its methods act on: the
 * database file at `dbPath` (absent or its tables), the files by path, and
 * whether the cache directory exists. Each method is proved to do what the
 * matching function of `Resolver` says.
 */
module Application {
  import opened Wrappers
  import opened Types
  import opened Digest
  import opened Paths
  import opened Store
  import opened Fetch
  import opened Resolver

  /** The capacity of a default `BufReader` (8 KiB). */
  const BufCapacity: nat := 8192

  class Context {
    const dbPath: string
    const cacheDir: string
    /** The MD5 function the hash codes are computed with. */
    const md5: Md5

    var db: Option<Database>
    var files: map<string, seq<byte>>
    var cacheDirExists: bool

    predicate Valid()
      reads this
    {
      db.Some? ==> WellFormed(db.value)
    }

    function State(): World
      reads this
    {
      World(db, files, cacheDirExists)
    }

    /** `Context::new(db_path, cache_dir)`, over the database and files as they are. */
    constructor (dbPath: string, cacheDir: string, md5: Md5, db: Option<Database>, files: map<string, seq<byte>>, cacheDirExists: bool)
      requires db.Some? ==> WellFormed(db.value)
      ensures Valid()
      ensures this.dbPath == dbPath && this.cacheDir == cacheDir && this.md5 == md5
      ensures State() == World(db, files, cacheDirExists)
    {
      this.dbPath := dbPath;
      this.cacheDir := cacheDir;
      this.md5 := md5;
      this.db := db;
      this.files := files;
      this.cacheDirExists := cacheDirExists;
    }

    /** `is_db_exist`: whether the file at `db_path` exists. */
    predicate IsDbExist()
      reads this
    {
      db.Some?
    }

    /**
     * `get_app_info(server, id)`, where `reply` is what `GET {server}/appinfo/{id}`
     * gets back.
     */
    method GetAppInfo(server: string, id: string, reply: DescriptorReply) returns (r: Result<Option<AppInfo>>)
      requires Valid()
      modifies this`db
      ensures Valid()
      ensures Outcome(r, State()) == DescriptorLookup(old(State()), id, reply)
    {
      var d := Open(db);
      db := Some(d);
      match reply {
        case NoReply =>
          r := Err(ReqwestError);
        case Reply(status, body) =>
          if IsSuccess(status) {
            match body {
              case Malformed =>
                r := Err(ReqwestError);
              case Decoded(apiRes) =>
                if apiRes.code == 0 {
                  db := Some(d.(appInfo := d.appInfo[id := StoredDescriptor(apiRes.data)]));
                  r := Ok(Some(apiRes.data));
                } else {
                  r := CachedAppInfo(d.appInfo, id);
                }
            }
          } else {
            r := CachedAppInfo(d.appInfo, id);
          }
      }
    }

    /** `get_app_info_str`: the descriptor `get_app_info` finds, as JSON text. */
    method GetAppInfoStr(server: string, id: string, reply: DescriptorReply) returns (r: Result<Option<Json>>)
      requires Valid()
      modifies this`db
      ensures Valid()
      ensures var o := DescriptorLookup(old(State()), id, reply);
        State() == o.world &&
        (o.result.Err? ==> r == Err(o.result.error)) &&
        (o.result == Ok(None) ==> r == Ok(None)) &&
        (forall info :: o.result == Ok(Some(info)) ==> r == Ok(Some(ToJson(info))))
    {
      var info := GetAppInfo(server, id, reply);
      match info {
        case Err(e) => r := Err(e);
        case Ok(None) => r := Ok(None);
        case Ok(Some(i)) => r := Ok(Some(ToJson(i)));
      }
    }

    /**
     * `md5_file(path)`: the file is read through a buffer, each chunk fed to
     * the hasher, until a read returns nothing.
     */
    method Md5File(path: string) returns (r: Result<string>)
      ensures path in files ==> r == Ok(Md5Hex(md5, files[path]))
      ensures path !in files ==> r == Err(IOError)
    {
      if path !in files {
        return Err(IOError);
      }
      var content := files[path];
      var hasher := Hasher([]);
      var consumed := 0;
      while true
        invariant 0 <= consumed <= |content|
        invariant hasher.absorbed == content[..consumed]
        decreases |content| - consumed
      {
        var end := if consumed + BufCapacity < |content| then consumed + BufCapacity else |content|;
        var buffer := content[consumed..end];
        hasher := hasher.Update(buffer);
        var length := |buffer|;
        if length == 0 {
          break;
        }
        consumed := consumed + length;
      }
      assert hasher.absorbed == content;
      r := Ok(Hex(hasher.Finalize(md5)));
    }

    /** `download(raw_url, folder)`, with `uuid` as the fresh file name. */
    method Download(rawUrl: string, folder: string, uuid: string, reply: DownloadReply) returns (r: Result<string>)
      modifies this`files
      ensures Fetched(r, files) == Fetch.Download(folder, old(files), rawUrl, uuid, reply)
    {
      if reply.BadUrl? {
        return Err(UrlParseError);
      }
      var fileName := uuid;
      var filePath := JoinPath(folder, fileName);
      files := files[filePath := []];
      match reply {
        case NoResponse =>
          r := Err(ReqwestError);
        case Response(status, payload) =>
          if !IsSuccess(status) {
            return Err(FileDownloadFail(rawUrl));
          }
          match payload {
            case ReadFailed =>
              r := Err(ReqwestError);
            case Bytes(buf) =>
              files := files[filePath := buf];
              r := Ok(fileName);
          }
      }
    }

    /**
     * `get_resource(url, disable_cache)`, where `uuid` is the name a download
     * would use and `reply` what fetching `url` would give.
     */
    method GetResource(url: string, disableCache: bool, uuid: string, reply: DownloadReply) returns (r: Result<Option<string>>)
      requires Valid()
      modifies this
      ensures Valid()
      ensures Outcome(r, State()) == ResourceLookup(md5, cacheDir, old(State()), url, disableCache, uuid, reply)
    {
      ghost var w0 := State();
      ghost var claimed := LookupNormalForm(md5, cacheDir, w0, url, disableCache, uuid, reply);
      if !cacheDirExists {
        cacheDirExists := true;
      }
      var d := Open(db);
      db := Some(d);

      var resource := ClaimFirst(url, disableCache);
      if resource.None? {
        r := RecordDownload(db.value, url, uuid, reply);
        return;
      }
      r := Ok(Some(resource.value.path));
    }

    /**
     * The `SELECT` of `get_resource` and what follows it: the first row for
     * `url` is checked and deleted, and returned when it passes the check.
     */
    method ClaimFirst(url: string, disableCache: bool) returns (resource: Option<Resource>)
      requires db.Some? && WellFormed(db.value)
      modifies this`db
      ensures Valid()
      ensures db == Some(old(db.value).(resource := Claim(old(db.value).resource, url)))
      ensures resource.None? <==> NeedsDownload(md5, old(State()), url, disableCache)
      ensures resource.Some? ==> resource.value == old(db.value).resource[FirstByUrl(old(db.value).resource, url).value]
    {
      var d := db.value;
      resource := None;
      var first := FirstByUrl(d.resource, url);
      if first.Some? {
        var row := d.resource[first.value];
        if row.path in files && !disableCache {
          // md5_file cannot fail here: the file exists
          var fileHash := Md5File(row.path);
          if fileHash == Ok(row.hashCode) {
            resource := Some(row);
          }
        }
        ClaimIsDelete(d, url);
        db := Some(d.(resource := DeleteById(d.resource, row.id)));
      }
    }

    /**
     * The `resource.is_none()` branch of `get_resource`: download `url` into
     * the cache directory, hash the new file and insert a row for it into `d`.
     */
    method RecordDownload(d: Database, url: string, uuid: string, reply: DownloadReply) returns (r: Result<Option<string>>)
      requires WellFormed(d)
      modifies this`db, this`files
      ensures Valid()
      ensures Outcome(r, State()) == Record(md5, cacheDir, old(State()), d, url, uuid, reply)
    {
      db := Some(d);
      var fileName := Download(url, cacheDir, uuid, reply);
      if fileName.Err? {
        return Err(fileName.error);
      }
      var filePath := JoinPath(cacheDir, fileName.value);
      var hashCode := Md5File(filePath);
      assert hashCode.Ok?;  // the file was just written
      var inserted := Insert(d, url, filePath, hashCode.value, "");
      if inserted.Err? {
        return Err(inserted.error);
      }
      db := Some(inserted.value);
      var resource := Resource(inserted.value.lastId, url, filePath, hashCode.value, "");
      r := Ok(Some(resource.path));
    }

    /** `desotry`: delete the database file if it exists; cached files stay. */
    method Destroy()
      requires Valid()
      modifies this`db
      ensures Valid()
      ensures State() == old(State()).(db := None)
      ensures !IsDbExist()
    {
      if IsDbExist() {
        db := None;
      }
    }
  }
}
