/** A successful response: the base record plus, as enumerable own
    properties of the response itself, a copy of each own enumerable property
    of a truthy payload. The base record's `_code`, `_data` and `_meta` are
    own properties that can be neither reconfigured nor rewritten, so a
    payload key with one of these names makes the copy throw. */
module DataResponses {
  import opened Js
  import opened ResponseBase

  datatype DataResponse = DataResponse(base: Response, own: map<string, Value>)
  {
    /** `isEmpty()`: the stored payload is `null`, and then the `data` copy
        is empty. */
    predicate IsEmpty(): (b: bool)
      ensures b <==> base.payload.Null?
      ensures b ==> base.DataView() == map[]
    {
      base.payload == Null
    }

    /** Calling `isEmpty()` on the response. A copied payload key `isEmpty`
        is an own property that shadows the method; it holds data, not a
        function, so the call throws. */
    function CallIsEmpty(): (r: Result<bool, Exception>)
      ensures r.Err? <==> "isEmpty" in own
      ensures r.Err? ==> r.error == TypeError
      ensures r.Ok? ==> r.value == IsEmpty()
    {
      if "isEmpty" in own then Err(TypeError) else Ok(IsEmpty())
    }

    /** Reading one of the base class's getters on the response. A copied
        payload key of the same name is an own property and shadows it. */
    function Read(g: Getter): (v: Value)
      ensures GetterName(g) in own ==> v == own[GetterName(g)]
      ensures GetterName(g) !in own ==> v == base.Read(g)
    {
      if GetterName(g) in own then own[GetterName(g)] else base.Read(g)
    }
  }

  /** A payload whose copy runs into one of the base record's own
      properties: it is truthy and has an enumerable own key `_code`,
      `_data` or `_meta`. */
  predicate Collides(data: Value)
  {
    Truthy(data) && OwnEnumerable(data).Keys * InternalKeys != {}
  }

  /** What `new DataResponse(statusCode, data, meta)` does. It throws a
      `TypeError` exactly when the payload collides with the base record's
      own properties; otherwise the base record is built from the same
      arguments and the properties the response exposes are exactly those
      its `data` getter copies (a falsy payload has none to copy either). */
  function NewDataResponse(statusCode: int, data: Value, meta: Value): (r: Result<DataResponse, Exception>)
    ensures r.Err? <==> Collides(data)
    ensures r.Err? ==> r.error == TypeError
    ensures r.Ok? ==> r.value.base == NewResponse(statusCode, data, meta)
    ensures r.Ok? ==> r.value.own == r.value.base.DataView()
  {
    var base := NewResponse(statusCode, data, meta);
    if !Truthy(base.payload) then Ok(DataResponse(base, map[]))
    else if OwnEnumerable(base.payload).Keys * InternalKeys != {} then Err(TypeError)
    else Ok(DataResponse(base, OwnEnumerable(base.payload)))
  }

  /** The constructor itself: when the payload is truthy it defines one
      property per key of the payload, one key at a time, and throws at the
      first key that names one of the base record's own properties. */
  method ConstructDataResponse(statusCode: int, data: Value, meta: Value) returns (r: Result<DataResponse, Exception>)
    ensures r == NewDataResponse(statusCode, data, meta)
  {
    var base := NewResponse(statusCode, data, meta);
    var own: map<string, Value> := map[];
    if Truthy(base.payload) {
      var source := OwnEnumerable(base.payload);
      var keys := source.Keys;
      while keys != {}
        invariant keys <= source.Keys
        invariant own.Keys == source.Keys - keys
        invariant own.Keys * InternalKeys == {}
        invariant forall k :: k in own ==> own[k] == source[k]
        decreases keys
      {
        var k :| k in keys;
        if k in InternalKeys {
          assert k in source.Keys * InternalKeys;
          return Err(TypeError);
        }
        own := own[k := source[k]];
        keys := keys - {k};
      }
      assert own == source;
    }
    r := Ok(DataResponse(base, own));
  }

  /** `isEmpty()` holds exactly when the payload was omitted, `undefined` or
      `null`. */
  lemma IsEmptyIffNoPayload(statusCode: int, data: Value, meta: Value)
    ensures NewDataResponse(statusCode, data, meta).Ok? ==>
      (NewDataResponse(statusCode, data, meta).value.IsEmpty() <==> Nullish(data))
    ensures Nullish(data) ==> NewDataResponse(statusCode, data, meta).Ok?
  {
  }

  /** A response built without a payload is empty, exposes no property and
      answers `isEmpty()` with `true`. */
  lemma NoPayloadNoKeys(statusCode: int, meta: Value)
    ensures NewDataResponse(statusCode, Undefined, meta).Ok?
    ensures NewDataResponse(statusCode, Undefined, meta).value.IsEmpty()
    ensures NewDataResponse(statusCode, Undefined, meta).value.own == map[]
    ensures NewDataResponse(statusCode, Undefined, meta).value.CallIsEmpty() == Ok(true)
  {
  }

  /** An object payload without a key `_code`, `_data` or `_meta` yields a
      response whose exposed properties are the payload's enumerable own
      properties, each with the payload's value; with such a key the
      construction throws. */
  lemma ObjectPayloadKeys(statusCode: int, data: Value, meta: Value)
    requires data.Obj?
    ensures NewDataResponse(statusCode, data, meta).Err? <==> (data.props.Keys - data.hidden) * InternalKeys != {}
    ensures NewDataResponse(statusCode, data, meta).Ok? ==>
      NewDataResponse(statusCode, data, meta).value.own.Keys == data.props.Keys - data.hidden
    ensures NewDataResponse(statusCode, data, meta).Ok? ==>
      forall k :: k in NewDataResponse(statusCode, data, meta).value.own ==>
        NewDataResponse(statusCode, data, meta).value.own[k] == data.props[k]
  {
  }

  /** A payload holding an enumerable `_meta`, `_data` or `_code` makes
      the constructor throw, whatever its value. */
  lemma InternalKeyThrows(statusCode: int, key: string, value: Value, meta: Value)
    requires key in InternalKeys
    ensures NewDataResponse(statusCode, Obj(map[key := value], {}), meta) == Err(TypeError)
  {
    assert key in OwnEnumerable(Obj(map[key := value], {})).Keys * InternalKeys;
  }

  /** A payload key `statusCode`, `meta` or `data` shadows the getter of
      that name, and a payload key `isEmpty` makes `isEmpty()` throw;
      without such a key the getters give the base record's values. */
  lemma PayloadKeysShadow(statusCode: int, data: Value, meta: Value, g: Getter)
    requires data.Obj? && NewDataResponse(statusCode, data, meta).Ok?
    ensures GetterName(g) in data.props && GetterName(g) !in data.hidden ==>
      NewDataResponse(statusCode, data, meta).value.Read(g) == data.props[GetterName(g)]
    ensures GetterName(g) !in data.props ==>
      NewDataResponse(statusCode, data, meta).value.Read(g) == NewResponse(statusCode, data, meta).Read(g)
    ensures ("isEmpty" in data.props && "isEmpty" !in data.hidden) <==>
      NewDataResponse(statusCode, data, meta).value.CallIsEmpty() == Err(TypeError)
  {
  }
}
