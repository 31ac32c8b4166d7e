/** The callback-style API client: argument shuffling, endpoint and URL
    building, routing of the parameters to the query string or the body, and
    the dispatch of the response envelope to the caller's callback. The HTTP
    call itself is the boundary: a request ends in the `Transmission` handed
    to the transport, and the transport's answer comes back to `Dispatch`. */
module ApiClient {
  import opened Js

  /** The error the constructor throws for a missing or empty url. */
  const NoUrl: Exception := Error("No url specified.", None)

  /** An argument in a position that may hold a callback: a function
      (identified by `id`), an object the caller keeps a reference to, or a
      value nobody else can reach (an object literal, a primitive,
      `undefined` for an omitted argument). */
  datatype Arg = Fn(id: nat) | Ref(obj: JsObject) | Val(v: Value)

  /** The callback a request ends up calling: the caller's function, or the
      no-op put in place of anything that is not a function. */
  datatype Callback = Caller(id: nat) | NoOp

  /** The arguments after the shuffling. */
  datatype Arguments = Arguments(params: Arg, headers: Arg, callback: Callback)

  /** What is handed to the transport: the method, the URL, the query
      string, the body, the headers and the callback to run on the answer. */
  datatype Transmission = Transmission(
    httpMethod: string, url: string, qs: Arg, body: Arg, headers: Arg, callback: Callback)

  /** What the transport callback does with the caller's callback. */
  datatype Invocation = NotCalled | Called(args: seq<Value>) | Threw(e: Exception)

  /** The empty object literal `{}`. */
  const EmptyObject: Arg := Val(Obj(map[], {}))

  /** `endpoint.indexOf('/') === 0`. */
  predicate StartsWithSlash(s: string)
  {
    |s| > 0 && s[0] == '/'
  }

  /** The prefixing of a missing leading slash. */
  function NormalizeEndpoint(endpoint: string): (r: string)
    ensures StartsWithSlash(r)
    ensures StartsWithSlash(endpoint) ==> r == endpoint
    ensures !StartsWithSlash(endpoint) ==> r == "/" + endpoint
  {
    if StartsWithSlash(endpoint) then endpoint else "/" + endpoint
  }

  /** Normalising an endpoint twice is normalising it once. */
  lemma NormalizeEndpointIdempotent(endpoint: string)
    ensures NormalizeEndpoint(NormalizeEndpoint(endpoint)) == NormalizeEndpoint(endpoint)
  {
  }

  /** The path segment a version adds: none without a version, `/` and the
      number otherwise, zero included. */
  function VersionSegment(version: Option<int>): (s: string)
    ensures version.None? <==> s == ""
  {
    if version.Some? then "/" + IntToString(version.value) else ""
  }

  /** `_meta ? undefined : ''`, the `nometa` flag sent with every request. */
  function NoMeta(meta: bool): (v: Value)
    ensures meta <==> v == Undefined
    ensures !meta ==> v == Str("")
  {
    if meta then Undefined else Str("")
  }

  datatype Api = Api(url: string, version: Option<int>, dataKey: string, errorKey: string, meta: bool)
  {
    /** The URL of a request: the base, the version segment, then the
        endpoint. */
    function Url(endpoint: string): (r: string)
      ensures |r| >= |url| + |endpoint| && r[..|url|] == url && r[|r| - |endpoint|..] == endpoint
      ensures version.None? ==> r == url + endpoint
      ensures version.Some? ==> r == url + "/" + IntToString(version.value) + endpoint
    {
      url + VersionSegment(version) + endpoint
    }

    /** The transport callback of `request`: a transport error goes to the
        callback alone; then a truthy error key is passed with `null` data,
        and takes precedence over the data key; then a truthy data key is
        passed with a `null` error; when neither key is truthy nothing is
        called. Reading a key of a missing body throws. */
    function Dispatch(err: Value, body: Value): (inv: Invocation)
      ensures Truthy(err) ==> inv == Called([err])
      ensures inv.Threw? <==> !Truthy(err) && Nullish(body)
      ensures inv.Threw? ==> inv.e == TypeError
      ensures inv.NotCalled? <==>
        !Truthy(err) && !Nullish(body)
        && !Truthy(Js.Get(body, errorKey).value) && !Truthy(Js.Get(body, dataKey).value)
      ensures inv.Called? && !Truthy(err) ==>
        |inv.args| == 3 && inv.args[2] == Js.Get(body, "_meta").value
        && (Truthy(inv.args[0]) != Truthy(inv.args[1]))
      ensures !Truthy(err) && !Nullish(body) && Truthy(Js.Get(body, errorKey).value) ==>
        inv == Called([Js.Get(body, errorKey).value, Null, Js.Get(body, "_meta").value])
      ensures (!Truthy(err) && !Nullish(body) && !Truthy(Js.Get(body, errorKey).value)
               && Truthy(Js.Get(body, dataKey).value)) ==>
        inv == Called([Null, Js.Get(body, dataKey).value, Js.Get(body, "_meta").value])
    {
      if Truthy(err) then Called([err])
      else
        match Js.Get(body, errorKey)
        case Err(e) => Threw(e)
        case Ok(error) =>
          if Truthy(error) then Called([error, Null, Js.Get(body, "_meta").value])
          else
            var data := Js.Get(body, dataKey).value;
            if Truthy(data) then Called([Null, data, Js.Get(body, "_meta").value])
            else NotCalled
    }

    /** `request(method, endpoint, params, headers, cb)`. */
    method Request(httpMethod: string, endpoint: string, params: Arg, headers: Arg, cb: Arg)
      returns (r: Result<Transmission, Exception>)
      modifies if params.Ref? then {params.obj} else {}
      ensures RequestEffect(this, httpMethod, endpoint, params, headers, cb, r)
    {
      var args := NormalizeArguments(params, headers, cb);
      var path := NormalizeEndpoint(endpoint);
      var target := Url(path);
      var nometa := NoMeta(meta);
      if httpMethod == "get" {
        match args.params {
          case Ref(o) =>
            o.props := o.props["nometa" := nometa];
            r := Ok(Transmission(httpMethod, target, args.params, Val(Undefined), args.headers, args.callback));
          case Val(v) =>
            if v.Obj? {
              var sent := Val(Obj(v.props["nometa" := nometa], v.hidden));
              r := Ok(Transmission(httpMethod, target, sent, Val(Undefined), args.headers, args.callback));
            } else {
              r := Err(TypeError);
            }
          case Fn(_) =>
            assert false;
        }
      } else {
        var qs := Val(Obj(map["nometa" := nometa], {}));
        r := Ok(Transmission(httpMethod, target, qs, args.params, args.headers, args.callback));
      }
    }

    /** `get`, `post`, `put` and `delete` are `request` with their own
        method name. */
    method Get(endpoint: string, params: Arg, headers: Arg, cb: Arg) returns (r: Result<Transmission, Exception>)
      modifies if params.Ref? then {params.obj} else {}
      ensures RequestEffect(this, "get", endpoint, params, headers, cb, r)
    {
      r := Request("get", endpoint, params, headers, cb);
    }

    method Post(endpoint: string, params: Arg, headers: Arg, cb: Arg) returns (r: Result<Transmission, Exception>)
      modifies if params.Ref? then {params.obj} else {}
      ensures RequestEffect(this, "post", endpoint, params, headers, cb, r)
    {
      r := Request("post", endpoint, params, headers, cb);
    }

    method Put(endpoint: string, params: Arg, headers: Arg, cb: Arg) returns (r: Result<Transmission, Exception>)
      modifies if params.Ref? then {params.obj} else {}
      ensures RequestEffect(this, "put", endpoint, params, headers, cb, r)
    {
      r := Request("put", endpoint, params, headers, cb);
    }

    method Delete(endpoint: string, params: Arg, headers: Arg, cb: Arg) returns (r: Result<Transmission, Exception>)
      modifies if params.Ref? then {params.obj} else {}
      ensures RequestEffect(this, "delete", endpoint, params, headers, cb, r)
    {
      r := Request("delete", endpoint, params, headers, cb);
    }
  }

  /** `new Api(url, version, dataKey, errorKey, meta)`, where `None` is an
      omitted or `undefined` argument (and, for the version, also `null`).
      A missing or empty url throws; otherwise the fields are the arguments,
      with the defaults no version, `data`, `error` and meta on. */
  function NewApi(url: Option<string>, version: Option<int>, dataKey: Option<string>,
                  errorKey: Option<string>, meta: Option<bool>): (r: Result<Api, Exception>)
    ensures r.Err? <==> url.None? || url.value == ""
    ensures r.Err? ==> r.error == NoUrl
    ensures r.Ok? ==> r.value.url == url.value && r.value.version == version
    ensures r.Ok? ==> r.value.dataKey == dataKey.GetOr("data") && r.value.errorKey == errorKey.GetOr("error")
    ensures r.Ok? ==> r.value.meta == meta.GetOr(true)
  {
    if url.None? || url.value == "" then Err(NoUrl)
    else Ok(Api(url.value, version, dataKey.GetOr("data"), errorKey.GetOr("error"), meta.GetOr(true)))
  }

  /** The shuffling of the optional arguments: a function in the `params`
      position is the callback and both params and headers become `{}`; a
      function in the `headers` position is the callback and headers become
      `{}`; a callback position holding no function gets the no-op. */
  function Normalized(params: Arg, headers: Arg, cb: Arg): (a: Arguments)
    ensures params.Fn? ==> a == Arguments(EmptyObject, EmptyObject, Caller(params.id))
    ensures !params.Fn? && headers.Fn? ==> a == Arguments(params, EmptyObject, Caller(headers.id))
    ensures !params.Fn? && !headers.Fn? ==>
      a == Arguments(params, headers, if cb.Fn? then Caller(cb.id) else NoOp)
    ensures !a.params.Fn? && !a.headers.Fn?
  {
    if params.Fn? then Arguments(EmptyObject, EmptyObject, Caller(params.id))
    else if headers.Fn? then Arguments(params, EmptyObject, Caller(headers.id))
    else Arguments(params, headers, if cb.Fn? then Caller(cb.id) else NoOp)
  }

  /** The shuffling as the source does it, reassigning one argument after
      the other. */
  method NormalizeArguments(params: Arg, headers: Arg, cb: Arg) returns (a: Arguments)
    ensures a == Normalized(params, headers, cb)
  {
    var p, h, c := params, headers, cb;
    if p.Fn? {
      c := p;
      p := EmptyObject;
      h := EmptyObject;
    }
    if h.Fn? {
      c := h;
      h := EmptyObject;
    }
    var callback := if c.Fn? then Caller(c.id) else NoOp;
    a := Arguments(p, h, callback);
  }

  /** The effect of `request`: the shuffled callback and headers and the
      URL are sent; for `get` the parameters go to the query string after
      `nometa` is written into them (into the caller's own object when it
      holds a reference, and a primitive there throws); for any other method
      they go to the body and the query string holds only `nometa`. Nothing
      but the `nometa` key of the caller's params changes. */
  twostate predicate RequestEffect(api: Api, httpMethod: string, endpoint: string, params: Arg, headers: Arg, cb: Arg,
                                   new r: Result<Transmission, Exception>)
    reads if params.Ref? then {params.obj} else {}
  {
    var a := Normalized(params, headers, cb);
    var url := api.Url(NormalizeEndpoint(endpoint));
    var nometa := NoMeta(api.meta);
    if httpMethod == "get" then
      match a.params
      case Ref(o) =>
        && o.props == old(o.props)["nometa" := nometa]
        && r == Ok(Transmission(httpMethod, url, a.params, Val(Undefined), a.headers, a.callback))
      case Val(v) =>
        && (params.Ref? ==> unchanged(params.obj))
        && (if v.Obj?
            then r == Ok(Transmission(httpMethod, url, Val(Obj(v.props["nometa" := nometa], v.hidden)), Val(Undefined), a.headers, a.callback))
            else r == Err(TypeError))
      case Fn(_) => false
    else
      && (params.Ref? ==> unchanged(params.obj))
      && r == Ok(Transmission(httpMethod, url, Val(Obj(map["nometa" := nometa], {})), a.params, a.headers, a.callback))
  }

  /** Without a version the URL is the base followed by the endpoint; a
      version puts `/` and its number in between, and version 0 counts as a
      version. */
  lemma UrlLayout(api: Api, endpoint: string)
    ensures api.version.None? ==> api.Url(endpoint) == api.url + endpoint
    ensures api.version.Some? ==> api.Url(endpoint) == api.url + "/" + IntToString(api.version.value) + endpoint
    ensures api.version == Some(0) ==> api.Url(endpoint) == api.url + "/0" + endpoint
  {
    assert IntToString(0) == [DigitChar(0)];
  }

  /** Two clients on the same base URL but with different versions never
      build the same URL for an endpoint. */
  lemma {:induction false} VersionsGiveDistinctUrls(a: Api, b: Api, endpoint: string)
    requires a.url == b.url && a.version != b.version
    ensures a.Url(endpoint) != b.Url(endpoint)
  {
    var sa, sb := VersionSegment(a.version), VersionSegment(b.version);
    if a.Url(endpoint) == b.Url(endpoint) {
      assert |sa| == |sb|;
      assert sa == a.Url(endpoint)[|a.url|..|a.url| + |sa|];
      assert sb == b.Url(endpoint)[|b.url|..|b.url| + |sb|];
      assert a.version.Some? && b.version.Some?;
      assert IntToString(a.version.value) == sa[1..];
      assert IntToString(b.version.value) == sb[1..];
      IntToStringInjective(a.version.value, b.version.value);
    }
  }

  /** The envelope's error key wins over its data key. */
  lemma ErrorKeyBeatsDataKey(api: Api, body: Value, error: Value, data: Value)
    requires body.Obj? && api.errorKey in body.props && api.dataKey in body.props
    requires body.props[api.errorKey] == error && body.props[api.dataKey] == data
    requires Truthy(error) && Truthy(data)
    ensures api.Dispatch(Null, body) == Called([error, Null, Js.Get(body, "_meta").value])
  {
  }

  /** A callback placed in the `params` position is the one called on the
      answer, whatever the later positions hold. */
  lemma CallbackInParamsPosition(id: nat, headers: Arg, cb: Arg)
    ensures Normalized(Fn(id), headers, cb) == Arguments(EmptyObject, EmptyObject, Caller(id))
  {
  }
}
