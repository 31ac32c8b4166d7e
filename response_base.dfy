/** The response record shared by successes and failures: a status code, a
    payload and metadata, fixed at construction and only read afterwards. In
    the source the three are defined once as non-writable properties; here
    they are the fields of an immutable datatype. */
module ResponseBase {
  import opened Js

  /** The names of the three own properties the constructor defines. None
      of them can be redefined afterwards. */
  const InternalKeys: set<string> := {"_code", "_data", "_meta"}

  /** The three getters of the class. */
  datatype Getter = StatusCodeGetter | MetaGetter | DataGetter

  function GetterName(g: Getter): (name: string)
    ensures name !in InternalKeys
  {
    match g
    case StatusCodeGetter => "statusCode"
    case MetaGetter => "meta"
    case DataGetter => "data"
  }

  datatype Response = Response(code: int, payload: Value, meta: Value)
  {
    /** What reading a getter yields: the status code, the meta, or a copy
        of the payload's enumerable own properties. */
    function Read(g: Getter): (v: Value)
      ensures g.StatusCodeGetter? ==> v == Num(code)
      ensures g.MetaGetter? ==> v == meta
      ensures g.DataGetter? ==> v.Obj? && v.props == DataView() && v.hidden == {}
    {
      match g
      case StatusCodeGetter => Num(code)
      case MetaGetter => meta
      case DataGetter => Obj(DataView(), {})
    }

    /** The `data` getter: a new object holding a shallow copy of the
        payload's own enumerable properties (`{ ...payload }`). */
    function DataView(): (m: map<string, Value>)
      ensures Nullish(payload) ==> m == map[]
      ensures payload.Obj? ==> m.Keys == payload.props.Keys - payload.hidden
      ensures forall k :: k in m && payload.Obj? ==> m[k] == payload.props[k]
    {
      OwnEnumerable(payload)
    }

    /** Reading `data` allocates an object of its own, so a caller that
        writes to the copy never reaches the stored payload. */
    method Data() returns (o: JsObject)
      ensures fresh(o)
      ensures o.props == DataView()
    {
      o := new JsObject(OwnEnumerable(payload));
    }
  }

  /** `new Response(statusCode, data, meta)`, where an omitted argument is
      `undefined`: an omitted or `undefined` payload becomes `null`, an
      omitted meta stays `undefined`, and the status code and meta are kept
      as given. */
  function NewResponse(statusCode: int, data: Value, meta: Value): (r: Response)
    ensures r.code == statusCode
    ensures r.meta == meta
    ensures data != Undefined ==> r.payload == data
    ensures data == Undefined ==> r.payload == Null
    ensures r.payload != Undefined
  {
    Response(statusCode, Default(data, Null), meta)
  }

  /** A response built with neither payload nor meta has a `null` payload,
      `undefined` meta and an empty `data` copy. */
  lemma OmittedArguments(statusCode: int)
    ensures NewResponse(statusCode, Undefined, Undefined).payload == Null
    ensures NewResponse(statusCode, Undefined, Undefined).meta == Undefined
    ensures NewResponse(statusCode, Undefined, Undefined).DataView() == map[]
  {
  }

  /** The `data` copy of a string payload has one entry per character,
      named by its index. */
  lemma {:induction false} StringDataView(r: Response, i: nat)
    requires r.payload.Str? && i < |r.payload.s|
    ensures NatToString(i) in r.DataView()
    ensures r.DataView()[NatToString(i)] == Str([r.payload.s[i]])
  {
    IndexPropsAt(r.payload.s, i);
  }

  /** Conversely, every key of that copy names an index of the string. */
  lemma StringDataViewKeys(r: Response, k: string)
    requires r.payload.Str? && k in r.DataView()
    ensures exists i :: 0 <= i < |r.payload.s| && k == NatToString(i)
  {
    IndexPropsKeys(r.payload.s, k);
  }
}
