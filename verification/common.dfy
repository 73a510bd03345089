/** Vocabulary shared by every revision of the Gist plugin: results and the
    exceptions the plugin raises, values stored in the editor's settings,
    the gist records the Gist API returns, JSON request and response bodies,
    and the two host objects whose state the plugin changes in place (a
    settings store and an editor view). */
module Common {

  datatype Option<+T> = None | Some(value: T)

  /** Exceptions raised or met by the plugin (exceptions.py declares the first
      two; the others are the Python built-ins the code lets escape or catches). */
  datatype Error =
    | MissingCredentials
    | SimpleHttpError(code: int, response: Body)
    | IndexError
    | KeyError
    | AttributeError
    | TypeError
    | ValueError
    | CalledProcessError(returncode: int)
    | EnvironmentError(strerror: string)

  datatype Result<+T> = Ok(value: T) | Err(error: Error)

  /** JSON as produced by json.loads and consumed by json.dumps. */
  datatype Json =
    | JNull
    | JBool(b: bool)
    | JNum(n: int)
    | JStr(s: string)
    | JArray(items: seq<Json>)
    | JObject(fields: map<string, Json>)

  /** An HTTP response body: the JSON it decodes to, or a body that does not
      decode (invalid UTF-8 or invalid JSON). */
  datatype Body = Parsed(json: Json) | Unparsable

  /** A value held in the editor's settings (sublime.Settings). */
  datatype Value = Null | Bool(b: bool) | Int(n: int) | Str(s: string) | List(items: seq<string>)

  /** The settings file seen as a string-keyed map. */
  type Settings = map<string, Value>

  /** settings.get(key): None when the key is absent. */
  function Get(s: Settings, key: string): Value
  {
    if key in s then s[key] else Null
  }

  /** Python truthiness of a settings value. */
  predicate Truthy(v: Value)
  {
    match v
    case Null => false
    case Bool(b) => b
    case Int(n) => n != 0
    case Str(t) => t != []
    case List(xs) => xs != []
  }

  /** A setting the plugin only uses as text; any non-text value counts as missing. */
  function Text(s: Settings, key: string): Option<string>
  {
    if key in s && s[key].Str? then Some(s[key].s) else None
  }

  /** A text setting that is set and non-empty (truthy). */
  function NonEmptyText(s: Settings, key: string): Option<string>
  {
    match Text(s, key)
    case Some(t) => if t != [] then Some(t) else None
    case None => None
  }

  /** A setting used as an integer; Python's bool is an int (False = 0, True = 1). */
  function AsInt(v: Value): Option<int>
  {
    match v
    case Int(n) => Some(n)
    case Bool(b) => Some(if b then 1 else 0)
    case _ => None
  }

  /** token_auth_string: the `token` setting, or MissingCredentials when it
      is falsy (absent, null or empty). */
  function TokenAuthString(s: Settings): (r: Result<Value>)
    ensures r.Err? <==> !Truthy(Get(s, "token"))
    ensures r.Err? ==> r.error == MissingCredentials
    ensures r.Ok? ==> r.value == Get(s, "token") && Truthy(r.value)
  {
    if Truthy(Get(s, "token")) then Ok(Get(s, "token")) else Err(MissingCredentials)
  }

  /** Python truthiness of a decoded JSON value. */
  predicate JsonTruthy(j: Json)
  {
    match j
    case JNull => false
    case JBool(b) => b
    case JNum(n) => n != 0
    case JStr(t) => t != []
    case JArray(xs) => xs != []
    case JObject(fs) => fs != map[]
  }

  /** One entry of a gist's `files` mapping. `mediaType` is the MIME type
      ('text/plain'); `language` is None when absent or null. */
  datatype GistFile = GistFile(name: string, content: string, mediaType: string,
                               language: Option<string>, rawUrl: string)

  /** A gist record. `files` keeps the mapping's iteration order; `owner` and
      `user` are the login of the corresponding account object (None when the
      object is missing); `extension` is the key helpers.py adds for sorting. */
  datatype Gist = Gist(description: Option<string>, htmlUrl: string, url: string,
                       owner: Option<string>, user: Option<string>,
                       files: seq<GistFile>, extension: Option<string>)

  /** `xs` is `ys` with some elements left out, the rest in the same order. */
  predicate IsSubsequence<T(==)>(xs: seq<T>, ys: seq<T>)
    decreases |ys|
  {
    xs == []
    || (ys != [] && ((xs[|xs| - 1] == ys[|ys| - 1] && IsSubsequence(xs[..|xs| - 1], ys[..|ys| - 1]))
                     || IsSubsequence(xs, ys[..|ys| - 1])))
  }

  /** A quick-panel row: the Python list [title] or [title, second]. */
  datatype Label = Label(title: string, second: Option<string>)

  /** The editor's settings object, updated in place by `set`. */
  class SettingsStore {
    var values: Settings

    constructor (initial: Settings)
      ensures values == initial
    {
      values := initial;
    }

    method Set(key: string, v: Value)
      modifies this
      ensures values == old(values)[key := v]
    {
      values := values[key := v];
    }
  }

  /** An editor view: its own settings map, its file name, its tab name and
      its status-bar entries. */
  class View {
    var settings: Settings
    var fileName: Option<string>
    var name: string
    var status: map<string, string>

    constructor (fileName: Option<string>, settings: Settings)
      ensures this.fileName == fileName && this.settings == settings
      ensures name == [] && status == map[]
    {
      this.fileName := fileName;
      this.settings := settings;
      name := [];
      status := map[];
    }
  }
}
