/** The fluent request builder: a method and an endpoint, three lazily
    created maps (params, headers, route arguments), and `execute`, which
    checks that a method and an endpoint are set and then calls the api. */
module Builders {
  import opened Js
  import opened ApiClient

  const NoMethod: Exception := Error("Method is not defined", Some("no_method_defined"))
  const NoEndpoint: Exception := Error("Endpoint is not defined", Some("no_endpoint_defined"))

  /** The four method names the setters store. */
  predicate IsVerb(m: string)
  {
    m == "get" || m == "put" || m == "post" || m == "delete"
  }

  /** `if (!m) m = {}; m[key] = value;`: the map is created when missing,
      then one key is set and every other key keeps its value. */
  method PutKey(m: JsObject?, key: string, value: Value) returns (r: JsObject)
    modifies m
    ensures KeySet(m, r, key, value)
  {
    if m == null {
      r := new JsObject(map[]);
    } else {
      r := m;
    }
    r.props := r.props[key := value];
  }

  /** `m'` is `m` with `key` set to `value`, or a new map holding only that
      key when `m` was missing. */
  twostate predicate KeySet(m: JsObject?, new m': JsObject, key: string, value: Value)
    reads m'
  {
    if m == null then fresh(m') && m'.props == map[key := value]
    else m' == m && m'.props == old(m.props)[key := value]
  }

  /** A map that is not the one written to keeps its contents. Two fields
      of a builder can hold the same object (after `setParams(o)` and
      `setHeaders(o)`, say); then a write through one is seen through the
      other. */
  twostate predicate Untouched(o: JsObject?, new written: JsObject?)
    reads o
  {
    o == null || o == written || o.props == old(o.props)
  }

  /** How a builder field reaches the api: `null` or a shared object. */
  function ArgOf(o: JsObject?): (a: Arg)
    ensures o == null ==> a == Val(Null)
    ensures o != null ==> a == Ref(o)
  {
    if o == null then Val(Null) else Ref(o)
  }

  class Builder {
    const api: Api
    var httpMethod: Option<string>
    var endpoint: Option<string>
    var params: JsObject?
    var headers: JsObject?
    var args: JsObject?

    /** Only the four setters store a method. */
    ghost predicate Valid()
      reads this
    {
      httpMethod.Some? ==> IsVerb(httpMethod.value)
    }

    constructor (api: Api)
      ensures Valid() && this.api == api
      ensures httpMethod == None && endpoint == None
      ensures params == null && headers == null && args == null
    {
      this.api := api;
      httpMethod, endpoint := None, None;
      params, headers, args := null, null, null;
    }

    /** `_setEndpoint(endpoint, method)`: both are overwritten together. An
        endpoint of `None` stands for `undefined` or `null`. */
    method SetEndpoint(endpoint: Option<string>, httpMethod: string)
      modifies this`httpMethod, this`endpoint
      ensures this.httpMethod == Some(httpMethod) && this.endpoint == endpoint
    {
      this.httpMethod := Some(httpMethod);
      this.endpoint := endpoint;
    }

    method Get(endpoint: Option<string>) returns (b: Builder)
      modifies this`httpMethod, this`endpoint
      ensures Valid() && b == this
      ensures httpMethod == Some("get") && this.endpoint == endpoint
    {
      SetEndpoint(endpoint, "get");
      b := this;
    }

    method Put(endpoint: Option<string>) returns (b: Builder)
      modifies this`httpMethod, this`endpoint
      ensures Valid() && b == this
      ensures httpMethod == Some("put") && this.endpoint == endpoint
    {
      SetEndpoint(endpoint, "put");
      b := this;
    }

    method Post(endpoint: Option<string>) returns (b: Builder)
      modifies this`httpMethod, this`endpoint
      ensures Valid() && b == this
      ensures httpMethod == Some("post") && this.endpoint == endpoint
    {
      SetEndpoint(endpoint, "post");
      b := this;
    }

    method Delete(endpoint: Option<string>) returns (b: Builder)
      modifies this`httpMethod, this`endpoint
      ensures Valid() && b == this
      ensures httpMethod == Some("delete") && this.endpoint == endpoint
    {
      SetEndpoint(endpoint, "delete");
      b := this;
    }

    method AddParam(key: string, value: Value) returns (b: Builder)
      modifies this`params, params
      ensures b == this && params != null && KeySet(old(params), params, key, value)
      ensures Untouched(headers, params) && Untouched(args, params)
    {
      params := PutKey(params, key, value);
      b := this;
    }

    method AddHeader(key: string, value: Value) returns (b: Builder)
      modifies this`headers, headers
      ensures b == this && headers != null && KeySet(old(headers), headers, key, value)
      ensures Untouched(params, headers) && Untouched(args, headers)
    {
      headers := PutKey(headers, key, value);
      b := this;
    }

    /** `sign(key, token)` is `addHeader(key, token)`. */
    method Sign(key: string, token: Value) returns (b: Builder)
      modifies this`headers, headers
      ensures b == this && headers != null && KeySet(old(headers), headers, key, token)
      ensures Untouched(params, headers) && Untouched(args, headers)
    {
      b := AddHeader(key, token);
    }

    method AddArgument(key: string, value: Value) returns (b: Builder)
      modifies this`args, args
      ensures b == this && args != null && KeySet(old(args), args, key, value)
      ensures Untouched(params, args) && Untouched(headers, args)
    {
      args := PutKey(args, key, value);
      b := this;
    }

    /** The whole-map setters keep the caller's object itself. */
    method SetParams(p: JsObject?) returns (b: Builder)
      modifies this`params
      ensures b == this && params == p
    {
      params := p;
      b := this;
    }

    method SetHeaders(h: JsObject?) returns (b: Builder)
      modifies this`headers
      ensures b == this && headers == h
    {
      headers := h;
      b := this;
    }

    method SetArguments(a: JsObject?) returns (b: Builder)
      modifies this`args
      ensures b == this && args == a
    {
      args := a;
      b := this;
    }

    /** `_getEndpoint()`: the stored endpoint, or the route template filled
        from the arguments when there are any (`reverse` stands for the
        route library's `reverse`). */
    function ResolvedEndpoint(reverse: (string, map<string, Value>) -> string): (e: string)
      reads this, args
      requires endpoint.Some?
      ensures args == null ==> e == endpoint.value
    {
      if args == null then endpoint.value else reverse(endpoint.value, args.props)
    }

    /** `execute()`: no method throws `no_method_defined`; then a missing or
        empty endpoint throws `no_endpoint_defined`; otherwise the api method
        of that name is called with the endpoint, the params and the headers,
        and no callback. */
    method Execute(reverse: (string, map<string, Value>) -> string) returns (r: Result<Transmission, Exception>)
      requires Valid()
      modifies params
      ensures httpMethod.None? ==> r == Err(NoMethod)
      ensures httpMethod.Some? && (endpoint.None? || endpoint.value == "") ==> r == Err(NoEndpoint)
      ensures r == Err(NoMethod) || r == Err(NoEndpoint) ==> Untouched(params, null)
      ensures httpMethod.Some? && endpoint.Some? && endpoint.value != "" ==>
        RequestEffect(api, httpMethod.value, old(ResolvedEndpoint(reverse)), ArgOf(params), ArgOf(headers), Val(Undefined), r)
    {
      if httpMethod.None? {
        r := Err(NoMethod);
        return;
      }
      if endpoint.None? || endpoint.value == "" {
        r := Err(NoEndpoint);
        return;
      }
      var e := ResolvedEndpoint(reverse);
      var p, h := ArgOf(params), ArgOf(headers);
      var verb := httpMethod.value;
      if verb == "get" {
        r := api.Get(e, p, h, Val(Undefined));
      } else if verb == "put" {
        r := api.Put(e, p, h, Val(Undefined));
      } else if verb == "post" {
        r := api.Post(e, p, h, Val(Undefined));
      } else {
        r := api.Delete(e, p, h, Val(Undefined));
      }
    }
  }
}
