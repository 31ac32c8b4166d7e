/** The module's entry point: a factory that builds an unversioned api from
    a configuration and adds `v` (the same api at a given version) and
    `ping`, plus the process-wide `concurrency` and `cacheTTL` settings,
    which live in the static state of the promise-based request. */
module Connector {
  import opened Js
  import opened ApiClient
  import RequestCore

  /** The configuration object; `None` is a field that is absent or
      `undefined`. */
  datatype Config = Config(url: Option<string>, dataKey: Option<string>, errorKey: Option<string>, meta: Option<bool>)

  /** The default `{}` of a call without configuration. */
  const NoConfig: Config := Config(None, None, None, None)

  /** `createApi(version)`. */
  function CreateApi(config: Config, version: Option<int>): (r: Result<Api, Exception>)
    ensures r.Err? <==> config.url.None? || config.url.value == ""
    ensures r.Err? ==> r.error == NoUrl
    ensures r.Ok? ==> r.value.url == config.url.value && r.value.version == version
    ensures r.Ok? ==> r.value.dataKey == config.dataKey.GetOr("data") && r.value.errorKey == config.errorKey.GetOr("error")
    ensures r.Ok? ==> r.value.meta == config.meta.GetOr(true)
  {
    NewApi(config.url, version, config.dataKey, config.errorKey, config.meta)
  }

  /** The object the factory returns: the unversioned api, whose `v` and
      `ping` close over the configuration. */
  datatype Client = Client(config: Config, api: Api)

  /** `fn(config)`: throws `No url specified.` without a usable url;
      otherwise the api has no version and the configured url, keys and
      meta, defaulted as the Api constructor does. */
  function Connect(config: Config): (r: Result<Client, Exception>)
    ensures r.Err? <==> config.url.None? || config.url.value == ""
    ensures r.Err? ==> r.error == NoUrl
    ensures r.Ok? ==> r.value.config == config
    ensures r.Ok? ==> r.value.api == Api(config.url.value, None, config.dataKey.GetOr("data"),
                                         config.errorKey.GetOr("error"), config.meta.GetOr(true))
  {
    match CreateApi(config, None)
    case Err(e) => Err(e)
    case Ok(api) => Ok(Client(config, api))
  }

  /** `v(version)`: a new api built from the same configuration. */
  function V(c: Client, version: Option<int>): (r: Result<Api, Exception>)
    ensures r.Err? <==> c.config.url.None? || c.config.url.value == ""
    ensures r.Ok? ==> r.value.version == version && r.value.url == c.config.url.value
  {
    CreateApi(c.config, version)
  }

  /** Called without configuration the factory throws. */
  lemma ConnectWithoutConfig()
    ensures Connect(NoConfig) == Err(NoUrl)
  {
  }

  /** `v(n)` differs from the client's own api in the version alone, and
      version 0 is kept as a version. */
  lemma VersionedApi(config: Config, version: Option<int>)
    requires Connect(config).Ok?
    ensures V(Connect(config).value, version) == Ok(Connect(config).value.api.(version := version))
    ensures version == Some(0) ==> V(Connect(config).value, version).value.version == Some(0)
  {
  }

  /** `ping(cb)`: `get('/ping', cb)` on a freshly created unversioned api. */
  method Ping(c: Client, cb: Arg) returns (r: Result<Transmission, Exception>)
    requires Connect(c.config) == Ok(c)
    modifies if cb.Ref? then {cb.obj} else {}
    ensures RequestEffect(c.api, "get", "/ping", cb, Val(Undefined), Val(Undefined), r)
    ensures cb.Fn? ==> r.Ok? && r.value.url == c.api.url + "/ping" && r.value.callback == Caller(cb.id)
    ensures cb.Val? && !cb.v.Obj? ==> r == Err(TypeError)
  {
    var api := CreateApi(c.config, None).value;
    r := api.Get("/ping", cb, Val(Undefined), Val(Undefined));
  }

  /** The `concurrency` setter; the getter reads the same static. */
  method SetConcurrency(s: RequestCore.Statics, value: Value)
    modifies s`concurrency
    ensures Concurrency(s) == value
  {
    s.concurrency := value;
  }

  /** The getter applies no default: it yields the static as last set. */
  function Concurrency(s: RequestCore.Statics): (v: Value)
    reads s
    ensures v == s.concurrency
  {
    s.concurrency
  }

  /** The `cacheTTL` setter; the getter reads the same static. */
  method SetCacheTTL(s: RequestCore.Statics, value: Value)
    modifies s`cacheTTL
    ensures CacheTTL(s) == value
  {
    s.cacheTTL := value;
  }

  /** The getter applies no default: it yields the static as last set. */
  function CacheTTL(s: RequestCore.Statics): (v: Value)
    reads s
    ensures v == s.cacheTTL
  {
    s.cacheTTL
  }
}
