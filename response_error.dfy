/** A failed response: the base record plus `message` and `code`, read once
    from the payload at construction. */
module ErrorResponses {
  import opened Js
  import opened ResponseBase

  datatype ErrorResponse = ErrorResponse(base: Response, message: Value, code: Value)
  {
    /** The enumerable own properties of the response: the two class fields
        `message` and `code`, and nothing else of the payload. */
    function Enumerable(): (m: map<string, Value>)
      ensures m.Keys == {"message", "code"}
    {
      map["message" := message, "code" := code]
    }
  }

  /** `new ErrorResponse(statusCode, error, meta)`. The base record is built
      first; reading `message` and `code` from a `null` payload (an omitted,
      `undefined` or `null` error) throws a `TypeError`. */
  function NewErrorResponse(statusCode: int, error: Value, meta: Value): (r: Result<ErrorResponse, Exception>)
    ensures r.Err? <==> Nullish(error)
    ensures r.Err? ==> r.error == TypeError
    ensures r.Ok? ==> r.value.base == NewResponse(statusCode, error, meta)
    ensures r.Ok? ==> Get(error, "message") == Ok(r.value.message)
    ensures r.Ok? ==> Get(error, "code") == Ok(r.value.code)
  {
    var base := NewResponse(statusCode, error, meta);
    match Get(base.payload, "message")
    case Err(e) => Err(e)
    case Ok(message) =>
      match Get(base.payload, "code")
      case Err(e) => Err(e)
      case Ok(code) => Ok(ErrorResponse(base, message, code))
  }

  /** A payload with a message and a code yields a response with exactly
      these two enumerable properties, whatever else the payload holds. */
  lemma MessageAndCode(statusCode: int, message: string, code: string, extra: map<string, Value>, meta: Value)
    requires "message" !in extra && "code" !in extra
    ensures var payload := Obj(extra["message" := Str(message)]["code" := Str(code)], {});
      && NewErrorResponse(statusCode, payload, meta).Ok?
      && NewErrorResponse(statusCode, payload, meta).value.Enumerable()
         == map["message" := Str(message), "code" := Str(code)]
  {
  }

  /** The status code, the meta and the copying `data` getter are those of
      the base record built from the same arguments. */
  lemma InheritsBase(statusCode: int, error: Value, meta: Value)
    requires !Nullish(error)
    ensures NewErrorResponse(statusCode, error, meta).Ok?
    ensures NewErrorResponse(statusCode, error, meta).value.base.code == statusCode
    ensures NewErrorResponse(statusCode, error, meta).value.base.meta == meta
    ensures NewErrorResponse(statusCode, error, meta).value.base.DataView() == OwnEnumerable(error)
  {
  }
}
