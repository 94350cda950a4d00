/**
 * The content fetcher (ones-core/src/application.rs:176-182, :313-333). The
 * HTTP transport is not modelled: what a request gets back is a parameter.
 */
module Fetch {
  import opened Types
  import opened Paths

  /** `StatusCode::is_success`: a 2xx status. */
  predicate IsSuccess(status: int)
  {
    200 <= status <= 299
  }

  /** What `res.json::<ApiResponse<AppInfo>>()` makes of a response body. */
  datatype Body = Decoded(response: ApiResponse<AppInfo>) | Malformed

  /** The outcome of `GET {server}/appinfo/{id}`: `send()` failed, or a status and a body. */
  datatype DescriptorReply = NoReply | Reply(status: int, body: Body)

  /** What `copy_to` reads of a response body. */
  datatype Payload = Bytes(bytes: seq<byte>) | ReadFailed

  /**
   * The outcome of fetching a resource: `Url::parse` rejected the url, `send()`
   * failed, or a status and a body.
   */
  datatype DownloadReply = BadUrl | NoResponse | Response(status: int, payload: Payload)

  /** A download's result and the file system it leaves. */
  datatype Fetched = Fetched(result: Result<string>, files: map<string, seq<byte>>)

  /**
   * `download(raw_url, folder)` with `uuid` as the name `Uuid::new_v4` gives:
   * once the url parses, the file is created (empty) before the request goes
   * out, and it receives the body only when the status is a success.
   */
  function Download(folder: string, files: map<string, seq<byte>>, rawUrl: string, uuid: string, reply: DownloadReply): (f: Fetched)
    ensures f.result.Ok? <==> reply.Response? && IsSuccess(reply.status) && reply.payload.Bytes?
    ensures f.result.Ok? ==> f.result.value == uuid && f.files == files[JoinPath(folder, uuid) := reply.payload.bytes]
    ensures reply.BadUrl? ==> f == Fetched(Err(UrlParseError), files)
    ensures reply.Response? && !IsSuccess(reply.status) ==> f.result == Err(FileDownloadFail(rawUrl))
    ensures !reply.BadUrl? && f.result.Err? ==> f.files == files[JoinPath(folder, uuid) := []]
    ensures (reply.NoResponse? || (reply.Response? && IsSuccess(reply.status) && reply.payload.ReadFailed?)) ==>
              f.result == Err(ReqwestError)
  {
    if reply.BadUrl? then Fetched(Err(UrlParseError), files)
    else
      var path := JoinPath(folder, uuid);
      var created := files[path := []];
      match reply
      case NoResponse => Fetched(Err(ReqwestError), created)
      case Response(status, payload) =>
        if !IsSuccess(status) then Fetched(Err(FileDownloadFail(rawUrl)), created)
        else
          match payload
          case ReadFailed => Fetched(Err(ReqwestError), created)
          case Bytes(bytes) => Fetched(Ok(uuid), created[path := bytes])
  }
}
