/**
 * The data types of ones-core/src/application.rs: the application descriptor
 * and its parts, the server's response envelope, the resource record, and the
 * error variants the cache logic actually produces.
 */
module Types {
  import opened Wrappers

  type byte = x: int | 0 <= x < 0x100
  type i32 = x: int | -0x8000_0000 <= x < 0x8000_0000
  type i64 = x: int | -0x8000_0000_0000_0000 <= x < 0x8000_0000_0000_0000

  /** The type tag of a metadata value; on the wire it is the string "0", "1" or "2". */
  datatype MetaValueType = TypeNumber | TypeString | TypeBool

  /** The serialized name of a tag (the `serde(rename)` attributes). */
  function Tag(t: MetaValueType): string
  {
    match t
    case TypeNumber => "0"
    case TypeString => "1"
    case TypeBool => "2"
  }

  /** Reading a tag back: the inverse of `Tag`, rejecting every other string. */
  function FromTag(s: string): (r: Option<MetaValueType>)
    ensures forall t: MetaValueType :: r == Some(t) <==> Tag(t) == s
  {
    if s == "0" then Some(TypeNumber)
    else if s == "1" then Some(TypeString)
    else if s == "2" then Some(TypeBool)
    else None
  }

  datatype MetaValue = MetaValue(content: string, valueType: MetaValueType, description: string)

  /** One script of the entry module; `isAsync` is the `async` flag. */
  datatype Source = Source(src: string, isAsync: bool)

  /** The module a descriptor boots. */
  datatype ModuleInfo = ModuleInfo(
    appId: string,
    id: string,
    version: string,
    os: string,
    agent: string,
    script: seq<Source>,
    ttf: string)

  /** The application descriptor. */
  datatype AppInfo = AppInfo(
    appId: string,
    version: i32,
    force: bool,
    os: string,
    useAppStore: bool,
    appUri: string,
    metaInfo: map<string, MetaValue>,
    entry: ModuleInfo)

  /** The envelope `{code, data}` the descriptor server answers with. */
  datatype ApiResponse<T> = ApiResponse(code: i32, data: T)

  /** One row of the `resource` table. */
  datatype Resource = Resource(id: i64, url: string, path: string, hashCode: string, cacheCtrl: string)

  /** The variants of `ApplicationError` that the modelled operations return. */
  datatype AppError =
    | IOError
    | SqliteError
    | ReqwestError
    | SerdeJsonError
    | UrlParseError
    | FileDownloadFail(url: string)

  datatype Result<T> = Ok(value: T) | Err(error: AppError)

  /**
   * A JSON text as serde writes and reads it. The character-level encoding is
   * not modelled: a text either encodes a descriptor or is one serde rejects.
   */
  datatype Json = Encodes(info: AppInfo) | NotAppInfo

  /** `serde_json::to_string` / `to_vec` of a descriptor. */
  function ToJson(info: AppInfo): (j: Json)
    ensures FromJson(j) == Ok(info)
  {
    Encodes(info)
  }

  /** `serde_json::from_str::<AppInfo>`: fails on a text that is not a descriptor. */
  function FromJson(j: Json): (r: Result<AppInfo>)
    ensures r.Err? <==> j.NotAppInfo?
    ensures r.Err? ==> r.error == SerdeJsonError
  {
    match j
    case Encodes(info) => Ok(info)
    case NotAppInfo => Err(SerdeJsonError)
  }
}
