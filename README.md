# ones-core cache logic in Dafny

This project models the cache and fetch decisions of `Context` in
`ones-core/src/application.rs`. It then proves what those decisions guarantee.

`Context` has three operations. All of them share one SQLite database file and one cache directory:

- **Descriptor lookup** (`get_app_info`, `get_app_info_str`). The network is asked first.
  A success status with `code == 0` upserts the descriptor under its id and returns it.
  A non-success status, or a non-zero code, answers from the cached descriptor, which may be absent.
  A failed request and an undecodable body are errors.
- **Resource lookup** (`get_resource`). The first row for the url is claimed: it is deleted whatever happens next.
  It is served only when the cache is enabled, its file exists, and the file's MD5 matches the stored `hash_code`.
  In every other case the url is downloaded to a new UUID-named file. That file is hashed and recorded as a new row with an empty `cache_ctrl`.
- **Reset** (`desotry`, spelled that way in the source). It deletes the database file if it exists.

Layout, leaves first:

- `wrappers.dfy`: `Option`.
- `types.dfy`: the descriptor types, the `MetaValueType` tag mapping, `Resource`, the error variants in use, and JSON as an abstract round trip.
- `digest.dfy`: the lowercase hex rendering of a digest and its inverse, the streaming hasher, and the UTF-8 bytes of a `&str`.
  The MD5 function itself is a parameter (`Md5`).
- `paths.dfy`: Unix `Path::join`.
- `store.dfy`: the two tables as values, with these operations:
  - `Open` creates the file;
  - `CachedAppInfoAsWritten` is the cached read as written, as TEXT; `CachedAppInfo` is the corrected read, as BLOB (see "Findings");
  - `FirstByUrl`, `DeleteById` and `Insert` cover the resource table. `Insert` follows AUTOINCREMENT, including its exhaustion.
- `fetch.dfy`: HTTP replies as data, and `Download`. `Download` creates the file before the request and fills it only on success.
- `resolver.dfy`:
  - `World` is the database, the files and the cache-directory flag;
  - `DescriptorLookup` and `ResourceLookup` are the two lookups as functions;
    `DescriptorLookupAsWritten` is the descriptor lookup with the read as written;
  - every property is a lemma about these functions.
- `context.dfy`: `Context` as a class whose fields are that state.
  Its methods follow the source step by step: the mutable `resource` local, the `md5_file` read loop, and the `download` steps.
  The one exception is `GetAppInfo`'s fallback, which reads the cached cell as the BLOB it was stored as, where application.rs:164 reads TEXT (see "Findings").
  Each method is proved equal to a function of the model:
  - `GetAppInfo` and `GetAppInfoStr` to `Resolver.DescriptorLookup`;
  - `GetResource` to `Resolver.ResourceLookup`. It runs in two steps: `ClaimFirst` (application.rs:231-268) and `RecordDownload` (application.rs:270-294), which is proved equal to `Resolver.Record`;
  - `Md5File` to `Digest.Md5Hex` of the file;
  - `Download` to `Fetch.Download`;
  - `Destroy` states its new state directly: the old one with no database file.

What the model takes as given:

- **The network.** The answer to a request is a parameter: `DescriptorReply` or `DownloadReply`.
- **The MD5 function.** It is the `md5` constant of a `Context`.
- **The fresh file name.** The `uuid` parameter stands for `Uuid::new_v4`.
- **The environment before the first call.** The database and the files are passed to the constructor.

Points where the code behaves differently from what a reader might expect, modelled as the code does:

- **A failed `send()` is an error, not a cache fallback.** The `?` at
  application.rs:179 propagates it, so an offline lookup never serves the cache (`Resolver.DescriptorOfflineIsError`).
- **An undecodable descriptor body is a `reqwest::Error`** (`ReqwestError`), not a JSON parse error.
  `Response::json` wraps serde's failure. This includes an envelope whose `data` is not a full descriptor, such as `{code: 1, data: null}`.
- **Only the first row for a url is checked and deleted.** Other rows for the same url stay untouched,
  so "no live row ever fails validation" holds only for the rows this code inserts, and only when they are written.
- **A validated hit is deleted and not reinserted.** The next lookup then downloads again (`Resolver.SecondLookupHitsCache`).
  The model keeps this as written. The comment at application.rs:263 calls the `DELETE` a cleanup for a row whose hash does not match or whose path is gone.
  Yet the `DELETE` runs unconditionally, and the test at application.rs:510-516 expects the lookup after a hit to download again.

## Model

| member | source | states |
|---|---|---|
| `Types.FromTag` | ones-core/src/application.rs:75-84 | reading a tag is the inverse of `Tag`: it gives `Some(t)` exactly when the string is `t`'s serialized name ("0", "1", "2") |
| `Types.ToJson` | ones-core/src/application.rs:137 | serializing a descriptor and reading it back gives the same descriptor |
| `Types.FromJson` | ones-core/src/application.rs:169 | decoding fails, with `SerdeJsonError`, exactly on a text that is not a descriptor |
| `Digest.DigitValue` | ones-core/src/application.rs:358 | a lowercase hex digit decodes to exactly the value that renders as it, and a decoded value always renders as the character |
| `Digest.Hex` | ones-core/src/application.rs:338 | `{:x}` of a digest: two lowercase hex digits per byte |
| `Digest.Unhex` | ones-core/src/application.rs:358 | a parse of hex text yields half as many bytes as characters |
| `Digest.UnhexHex` | ones-core/src/application.rs:358 | the hex rendering of any bytes parses back to those bytes |
| `Digest.HexInjective` | ones-core/src/application.rs:253 | two renderings are equal exactly when the bytes are |
| `Digest.Md5Hex` | ones-core/src/application.rs:358 | a hash code is 32 lowercase hex digits |
| `Digest.DigestCompare` | ones-core/src/application.rs:252-253 | comparing hash-code strings, as the source does, is comparing MD5 digests |
| `Digest.Utf8Char` | ones-core/src/application.rs:337 | one character takes 1 to 4 bytes, and 1 exactly when it is ASCII |
| `Digest.Utf8` | ones-core/src/application.rs:337 | a string's bytes number between its length and four times it, and equal its characters when all are ASCII |
| `Digest.Md5Str` | ones-core/src/application.rs:335-339 | `md5(&str)` is 32 hex digits, and is the hash code a file holding the string's bytes gets; nothing in the source calls `md5` |
| `Paths.JoinPath` | ones-core/src/application.rs:272 | the joined path ends with the name, begins with the directory unless the name is absolute, and is the name when it is |
| `Paths.JoinPathInjective` | ones-core/src/application.rs:317-319 | in one directory, distinct relative names give distinct paths |
| `Store.Open` | ones-core/src/application.rs:147-157 | opening an absent database file gives empty tables; an existing one is kept as it is |
| `Store.ReadColumn` | ones-core/src/application.rs:164 | a typed column read succeeds exactly when the value's storage class is the requested one, and otherwise fails with `SqliteError` |
| `Store.CachedAppInfo` | ones-core/src/application.rs:159-174 | the corrected cached read: `None` exactly when the id has no row, and a descriptor exactly when that descriptor was stored under the id |
| `Store.CachedAppInfoAsWritten` | ones-core/src/application.rs:159-174 | the read as written: `None` exactly when the id has no row, and `SqliteError` on every BLOB cell |
| `Store.AsWrittenReadOfStoredFails` | ones-core/src/application.rs:164 | the read as written, as TEXT, fails on every descriptor the success path stores |
| `Store.ReadOfStoredDescriptor` | ones-core/src/application.rs:187-192 | the corrected read returns the descriptor the upsert stored |
| `Store.FirstByUrl` | ones-core/src/application.rs:231-239 | the index found has the url and no earlier row has it; `None` exactly when no row has it |
| `Store.ClaimAppended` | ones-core/src/application.rs:239 | a row appended for a url no earlier row has is the first for it, and claiming it leaves the earlier rows |
| `Store.DeleteById` | ones-core/src/application.rs:264-267 | `DELETE ... WHERE id` keeps only rows of the table whose id differs |
| `Store.DeleteAbsent` | ones-core/src/application.rs:264-267 | deleting an id no row has changes nothing |
| `Store.DeleteAt` | ones-core/src/application.rs:264-267 | with AUTOINCREMENT ids, deleting a row's id removes exactly that row and keeps the rest in order |
| `Store.TailIdsIncreasing` | ones-core/src/application.rs:220 | later rows carry larger AUTOINCREMENT ids than the first |
| `Store.RemoveAtWellFormed` | ones-core/src/application.rs:264-267 | removing a row keeps the ids increasing and within the sequence |
| `Store.ClaimIsDelete` | ones-core/src/application.rs:239-267 | the `DELETE` of the first matching row's id is the removal of that row, and leaves a well-formed table |
| `Store.Insert` | ones-core/src/application.rs:276-289 | the new row is appended with the next AUTOINCREMENT id, the one `last_insert_rowid` reports; exhausted ids make it `SqliteError`; the table stays well formed |
| `Fetch.Download` | ones-core/src/application.rs:313-333 | a bad url fails first and touches no file; otherwise the file is created empty before the request and gets the body only on a success status; errors are `UrlParseError`, `ReqwestError` or `FileDownloadFail(url)` |
| `Resolver.DescriptorLookupAs` | ones-core/src/application.rs:142-202 | `get_app_info` with the cached cell read as a given storage class: it always creates the database, and changes neither the resource table, the files nor the cache directory |
| `Resolver.DescriptorSuccess` | ones-core/src/application.rs:181-194 | a success status with code 0 returns `Some(data)`, upserts it under the id and reads back as it; other ids, the resource table and the files are unchanged |
| `Resolver.DescriptorFallback` | ones-core/src/application.rs:196-200 | a non-success status or a non-zero code returns the cached entry (`None` if there is none) and leaves the tables unchanged |
| `Resolver.DescriptorErrors` | ones-core/src/application.rs:179-182 | a failed `send()` and an undecodable body are `ReqwestError`, not fallbacks, and leave the tables unchanged |
| `Resolver.DescriptorServedAfterSuccess` | ones-core/src/application.rs:187-200 | after a code-0 fetch of a descriptor, a later fallback reply for the same id returns that descriptor |
| `Resolver.DescriptorOfflineIsError` | ones-core/src/application.rs:179 | even with the descriptor just cached, a failed request is an error |
| `Resolver.AsWrittenFallbackFails` | ones-core/src/application.rs:159-200 | `get_app_info` as written: after a code-0 fetch, any later fallback for the id is `Err(SqliteError)`; with the corrected read it returns the data, and both versions store the same table |
| `Resolver.Record` | ones-core/src/application.rs:270-294 | download, hash and insert: `app_info` and the directory are untouched, and a success returns the new file's path |
| `Resolver.ResourceLookup` | ones-core/src/application.rs:204-298 | `get_resource`: `app_info` is untouched, the database and the cache directory exist afterwards, and a success always carries a path, so the `unwrap` at :297 cannot panic |
| `Resolver.RecordOutcome` | ones-core/src/application.rs:270-294 | a download that succeeds appends exactly one row (next id, url, new path, digest of the bytes, empty cache control) and returns its path; any failure is an error and leaves the rows as they were |
| `Resolver.LookupNormalForm` | ones-core/src/application.rs:237-270 | a lookup serves the claimed row when it passes the check, and otherwise downloads; either way the first row for the url is gone |
| `Resolver.ResourceLookupWellFormed` | ones-core/src/application.rs:209-294 | a resource lookup keeps the resource table well formed, leaves `app_info` alone, creates the database and the cache directory |
| `Resolver.FirstRowAlwaysRemoved` | ones-core/src/application.rs:239-267 | the first row for the url is removed whatever the outcome; the other rows keep their order, with at most one new row for the url appended |
| `Resolver.CacheHitServed` | ones-core/src/application.rs:250-262 | a hit returns the row's path, changes no file, inserts no row, does not put the row back, and is the same whatever the network reply and file name |
| `Resolver.DownloadRecordsRow` | ones-core/src/application.rs:270-294 | when a download is due and succeeds, the new file's path is returned, the file holds the bytes, and exactly the row with the next id, the url, that path, the digest and `""` is appended |
| `Resolver.ForcedDownload` | ones-core/src/application.rs:250 | with `disable_cache` a download happens even if a valid row exists |
| `Resolver.DownloadFailureRecordsNothing` | ones-core/src/application.rs:316-326 | a failed download is an error of the matching variant and inserts no row; the claimed row stays deleted; after the url parses the empty file is left behind |
| `Resolver.DownloadedRowIsFirst` | ones-core/src/application.rs:276-294 | after a download for a url with no other row, the new row is the first one for it |
| `Resolver.SecondLookupHitsCache` | ones-core/src/application.rs:239-270 | a downloaded resource is served from the cache on the next lookup whatever the network does; that lookup drops its row, so the lookup after it downloads again |
| `Resolver.MismatchRefetched` | ones-core/src/application.rs:252-253 | a first row whose file's digest no longer matches is replaced by a fresh download |
| `Resolver.TamperedFileRefetched` | ones-core/src/application.rs:250-294 | after a downloaded file's bytes change digest, the next lookup downloads again and the table ends with one new row, two ids later |
| `Resolver.LookupsAfterDestroy` | ones-core/src/application.rs:300-305 | with the database file deleted, a fallback reply gives `Ok(None)` and a download becomes row 1 |
| `Application.Context.constructor` | ones-core/src/application.rs:128-133 | the context keeps the two paths as given, over the database, files and cache directory it finds |
| `Application.Context.GetAppInfo` | ones-core/src/application.rs:142-202 | result and new database are those of `DescriptorLookup`; files and the directory are untouched |
| `Application.Context.GetAppInfoStr` | ones-core/src/application.rs:135-140 | the descriptor lookup's result with the descriptor as its JSON text |
| `Application.Context.Md5File` | ones-core/src/application.rs:341-359 | feeding the file to the hasher chunk by chunk gives the hash code of the whole file; a missing file is `IOError` |
| `Application.Context.Download` | ones-core/src/application.rs:313-333 | changes only the files, as `Fetch.Download` says |
| `Application.Context.GetResource` | ones-core/src/application.rs:204-298 | result and new state are those of `ResourceLookup`; the table stays well formed |
| `Application.Context.ClaimFirst` | ones-core/src/application.rs:231-268 | the first row for the url is deleted and nothing else changes; a row is returned exactly when the lookup needs no download, and it is that first row |
| `Application.Context.RecordDownload` | ones-core/src/application.rs:270-294 | result and new state are those of `Resolver.Record`, with the table kept well formed |
| `Application.Context.Destroy` | ones-core/src/application.rs:300-310 | afterwards `is_db_exist` is false, and nothing else has changed, so a second call changes nothing |

## Findings

| source | as written | input that shows it | evidently intended | confidence | as-written member | corrected member |
|---|---|---|---|---|---|---|
| ones-core/src/application.rs:164 | The descriptor is stored with `serde_json::to_vec` (:192), which binds a `Vec<u8>` and so stores a BLOB. It is read back with `row.get::<usize, String>(0)`, and rusqlite converts only TEXT to `String`, so the read is `InvalidColumnType`, which becomes `SqliteError`. | `get_app_info` with a 200 reply and code 0, then the same id with a 500 reply: the result is `Err(SqliteError)`, not the descriptor (`DescriptorLookupAsWritten`) | The fallback returns the descriptor stored earlier, read as the bytes it was stored as | high, not executed; it rests on rusqlite's documented conversion rules | `Resolver.AsWrittenFallbackFails` (about `Resolver.DescriptorLookupAsWritten`, which reads with `Store.CachedAppInfoAsWritten`) | `Store.CachedAppInfo`, proved by `Resolver.DescriptorServedAfterSuccess` |

The lookups in `Resolver` and `Application` use the corrected read.

## Left out

- The HTTP transport.
  - A reply is a parameter, so the request url (`{server}/appinfo/{id}`, the parsed resource url) is not modelled, and `server` plays no part.
  - `Url::parse` appears only as the `BadUrl` reply.
- Database engine faults. A failed `Connection::open`, `execute`, `prepare` or column read would be an `SqliteError`.
  Only two are modelled: the TEXT/BLOB mismatch and AUTOINCREMENT exhaustion.
- File system faults.
  - `create_dir_all`, `File::create`, `write_all` and `remove_file` always succeed in the model.
  - `IOError` arises only from `md5_file` on a missing path.
  - Paths name files only; a directory at a row's path is not modelled.
- The JSON encoding. A text is represented by the descriptor it encodes, or as not a descriptor.
  `to_vec` and `to_string` cannot fail for these types and are modelled as total.
- The MD5 algorithm. It is a parameter. The hasher is modelled by the bytes it has absorbed: feeding chunks then finalising is MD5 of their concatenation.
- UUID generation. It is the `uuid` parameter, with no freshness assumption: `File::create` on an existing path truncates it, as modelled.
- SQLite row order. `SELECT ... WHERE url = ?1` has no `ORDER BY`. The model takes rows in row-id order, which is what a scan of this table yields.
- Application.Context.Md5File: each `fill_buf` is taken to return a full buffer (8 KiB or the rest of the file). A shorter read splits the input differently and yields the same digest.
- Concurrency between callers, `println!` logging, `Backtrace`, and the unused `MutexError`, `OkOrError` and `FilePathToStrError` variants.
- Non-UTF-8 paths (`to_string_lossy`).
- `md5(&str)` (application.rs:335-339) is modelled as `Digest.Md5Str`, but nothing in the source calls it.
- The FFI shim `ones-ios/src/lib.rs` and its header. It only marshals C strings around `Context`, and its `free_context` is `todo!()`.
- The `#[cfg(test)]` module. It needs a mock HTTP server.
