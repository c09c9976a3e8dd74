/** Values shared by every part of the on-demand loaders: the configuration
    table, the process environment, HTTP requests and responses, the local
    filesystem and the Python exceptions that can leave a node. */
module Types {

  datatype Option<+T> = None | Some(value: T)

  type Byte = bv8

  /** One `{"name": ..., "url": ...}` record of the configuration table. */
  datatype Entry = Entry(name: string, url: string)

  /** The configuration table: category key (`"loras"`, ...) to its records, in file order. */
  type Config = map<string, seq<Entry>>

  /** The process environment (`os.environ`). */
  type Env = map<string, string>

  /** HTTP header fields. A response's fields are keyed by lower-case name,
      since the response's header dictionary is case-insensitive; the extra
      fields of a request keep the spelling the routine gives them. */
  type Headers = map<string, string>

  /** Local files by path: `os.path.exists` is membership. */
  type FileSystem = map<string, seq<Byte>>

  /** The artifact categories, one per node. */
  datatype Category = Lora | Unet | Checkpoint {
    /** The configuration key that holds this category's records. */
    function Key(): string {
      match this
      case Lora => "loras"
      case Unet => "diffusion_models"
      case Checkpoint => "checkpoints"
    }

    /** The sub-directory of the models directory its files land in. */
    function Folder(): string {
      match this
      case Lora => "loras"
      case Unet => "diffusion_models"
      case Checkpoint => "checkpoints"
    }
  }

  /** A streaming GET: the URL and the optional extra header fields. */
  datatype Request = Request(url: string, headers: Option<Headers>)

  /** What the server answers to a request. `Refused` stands for every
      failure of the request call itself (no connection, bad URL). In a
      `Response`, `body` is the decoded entity body, and `fault == Some(k)`
      means that the body stream raises after delivering `k` chunks. */
  datatype Response =
    | Refused
    | Response(status: int, headers: Headers, body: seq<Byte>, fault: Option<nat>)

  /** Exceptions that escape a node instead of being turned into its fallback. */
  datatype Error =
    | KeyError(key: string)   // the category key is missing from the configuration
    | RequestFailed           // the GET itself raised (no connection, bad URL, ...)
    | HttpError(status: int)  // raise_for_status on a 4xx/5xx answer
    | TypeError               // os.path.join(dir, None): no file name was found
    | LoaderFailure(reason: string)  // raised by the host's loader

  /** The outcome of calling a Python function: a value, or an exception. */
  datatype Call<+T> = Returns(value: T) | Raises(error: Error)

  /** Python truthiness of an optional string: `None` and `""` are false. */
  predicate Truthy(s: Option<string>) {
    s.Some? && s.value != ""
  }

  /** `os.environ.get(name)`. */
  function EnvGet(env: Env, name: string): Option<string> {
    if name in env then Some(env[name]) else None
  }
}
