# resting-squirrel-connector, modelled in Dafny

This project models the core of resting-squirrel-connector, a JavaScript
client for REST APIs whose responses come in an envelope with `data`, `error`
and `_meta` keys. The model and its proofs cover:

- **The callback client (`Api`).** It shuffles optional arguments, so a
  callback may stand in the params or headers position. It adds a missing
  leading `/` to the endpoint and builds `base[/version]/endpoint`. For
  `get` it writes the `nometa` flag into the caller's params and sends them
  as the query string; for other methods the params go in the body. It then
  passes the envelope's error, or else its data, to the callback.
- **The promise request (`Request`).** A process-wide counter admits a
  request only while fewer than 50 are in flight; a refused request retries
  after 100 ms. The counter goes down once when the transport answers. The
  answer is then sorted into a resolved `DataResponse` or a rejected
  `ErrorResponse`.
- **The fluent `Builder`.** It holds a method and an endpoint plus three
  lazily created maps: params, headers and route arguments. `execute` checks
  that a method and an endpoint are set, then calls the api.
- **The response records.** `Response` keeps a status code, a payload and
  metadata, with defaults for omitted arguments and a copying `data` getter.
  `DataResponse` exposes the payload's own keys and `isEmpty`.
  `ErrorResponse` exposes `message` and `code`.
- **The factory** (`fn`, `v`, `ping`) and the `concurrency` and `cacheTTL`
  settings.

Three behaviours that read like slips are modelled as written:

- `get` with params that are not an object throws a `TypeError` when it
  writes `nometa` (src/api.js:124).
- A builder that never set params passes `null` to the api. So
  `builder.get(e).execute()` throws in the same way.
- The base response defines `_code`, `_data` and `_meta` as own properties
  that can be neither reconfigured nor rewritten. A `DataResponse` then
  copies every payload key onto itself as an enumerable property. So a
  payload key with one of these three names throws a `TypeError`
  (src/response/data.js:8). A promise request whose body has no truthy
  error key and whose data has such a key therefore never settles.
  - A payload key `statusCode`, `meta` or `data` shadows the getter of
    that name.
  - A payload key `isEmpty` makes `isEmpty()` throw.

How the model represents things:

- **Values.** JavaScript values are the datatype `Js.Value`. An argument
  position that may hold a callback is the datatype `ApiClient.Arg`. It
  holds either a function, an object the caller keeps a reference to (the
  class `Js.JsObject`), or a value nobody else can reach.
- **What an object records.** For each object the model records which own
  properties are not enumerable. This matters because `Object.keys` and
  object spread see only enumerable properties, and an `Error`'s `message`
  is not one.
- **Mutable state.** The source changes three kinds of state in place:
  - the caller's params object (by `get`);
  - the builder's fields and maps;
  - the static `_count`, `concurrency` and `cacheTTL` of `Request`.

  All three are modelled as classes with `modifies` frames. Dafny has no
  static fields, so the statics are one object, `RequestCore.Statics`, that
  is passed explicitly.
- **Admission, budgeted.** A ghost multiset of admissions is kept in step
  with the counter. A request occurs in it once for each call of `execute`
  that got through and has not finished. `Execute` may be called at any
  time, even again while an earlier call of the same request is in flight.
  `Complete` may be called only for an admission that is still open. So the
  decrement happens exactly once per admission.
- **Admission, as a state machine.** The pure functions `Admit`, `Release`
  and `Run` describe the same counter. They are used to prove the
  [0, 50] bound for every interleaving of events.

Two settings do less than their names suggest:

- The admission bound is the literal 50 in `execute`, not the `concurrency`
  setting. That setting defaults to 200, and nothing but its own getter reads it;
  `execute` does not.
- The source has no response cache and no request deduplication.
  `cacheTTL` is stored and returned, and that is all.

## Model

| member | source | states |
|---|---|---|
| `ResponseBase.NewResponse` | src/response/base.js:15-29 | the status code and meta are kept as given; an omitted or `undefined` payload becomes `null`, so the stored payload is never `undefined` |
| `ResponseBase.Response.DataView` | src/response/base.js:11-13 | the `data` getter yields the payload's enumerable own properties with their values; a `null` payload yields `{}` |
| `ResponseBase.Response.Data` | src/response/base.js:11-13 | every read of `data` returns a newly allocated object holding that copy, so writing to it cannot reach the stored payload |
| `ResponseBase.OmittedArguments` | src/response/base.js:15 | without payload and meta the payload is `null`, meta is `undefined` and the `data` copy is empty |
| `ResponseBase.StringDataView` | src/response/base.js:11-13 | spreading a string payload gives one entry per index, keyed by the index in decimal, holding the one-character string there |
| `ResponseBase.StringDataViewKeys` | src/response/base.js:11-13 | every key of a string payload's copy names an index of the string |
| `ResponseBase.GetterName` | src/response/base.js:3-13 | the three getters are `statusCode`, `meta` and `data`, none of them one of the internal names `_code`, `_data`, `_meta` |
| `ResponseBase.Response.Read` | src/response/base.js:3-13 | `statusCode` yields the code, `meta` the meta, and `data` an object holding the payload's enumerable own properties |
| `DataResponses.NewDataResponse` | src/response/data.js:5-10 | construction throws a `TypeError` exactly when the payload is truthy and has an enumerable own key `_code`, `_data` or `_meta`; otherwise the base record is built from the same arguments and the properties the response exposes are exactly those its `data` getter copies |
| `DataResponses.ConstructDataResponse` | src/response/data.js:5-10 | the key-by-key copying loop of the constructor, which throws at the first key naming an internal property, builds exactly that result |
| `DataResponses.IsEmptyIffNoPayload` | src/response/data.js:12-14 | a nullish payload never throws, and `isEmpty()` holds if and only if the payload was omitted, `undefined` or `null` |
| `DataResponses.DataResponse.IsEmpty` | src/response/data.js:12-14 | `isEmpty()` is true exactly when the stored payload is `null`, and then the `data` copy is empty |
| `DataResponses.DataResponse.CallIsEmpty` | src/response/data.js:8-14 | calling `isEmpty()` throws a `TypeError` exactly when a copied payload key `isEmpty` shadows the method; otherwise it answers as `isEmpty` |
| `DataResponses.DataResponse.Read` | src/response/data.js:8 | a getter read yields the copied payload property of that name when there is one, and the base record's value otherwise |
| `DataResponses.NoPayloadNoKeys` | src/response/data.js:5-14 | a response built without payload is constructed, is empty, exposes no property and answers `isEmpty()` with `true` |
| `DataResponses.ObjectPayloadKeys` | src/response/data.js:7-9 | an object payload throws exactly when one of its enumerable own keys is `_code`, `_data` or `_meta`; otherwise the exposed keys are its enumerable own keys, each with the payload's value |
| `DataResponses.InternalKeyThrows` | src/response/data.js:8 | a payload holding `_code`, `_data` or `_meta` makes construction throw a `TypeError`, whatever the value |
| `DataResponses.PayloadKeysShadow` | src/response/data.js:8 | a payload key `statusCode`, `meta` or `data` shadows that getter, a payload without it leaves the base value, and a payload key `isEmpty` is exactly what makes `isEmpty()` throw |
| `ErrorResponses.NewErrorResponse` | src/response/error.js:8-12 | construction throws a `TypeError` exactly when the payload is omitted, `undefined` or `null`; otherwise `message` and `code` are the payload's `message` and `code` and the base record is built from the same arguments |
| `ErrorResponses.ErrorResponse.Enumerable` | src/response/error.js:5-6 | the enumerable own properties are exactly `message` and `code` |
| `ErrorResponses.MessageAndCode` | src/response/error.js:5-11 | a payload with a message and a code yields exactly those two properties, whatever other keys it has |
| `ErrorResponses.InheritsBase` | src/response/error.js:9 | status code, meta and the copying `data` getter are those of the base record |
| `RequestCore.Admit` | src/request.js:34-40 | a request is admitted if and only if the counter is below 50; admission adds one to the counter and one admission of that request, leaving every other admission as it was; refusal changes nothing |
| `RequestCore.Release` | src/request.js:57 | the transport callback lowers the counter by one and closes one admission of the request; every other admission stays open |
| `RequestCore.AdmitKeepsInvariant` | src/request.js:34-35 | admitting any request, even one with a call still in flight, keeps the counter equal to the number of open admissions and within [0, 50] |
| `RequestCore.ReleaseKeepsInvariant` | src/request.js:57 | completing an open admission keeps the counter equal to the number of open admissions and within [0, 50] |
| `RequestCore.CounterStaysBounded` | src/request.js:33-57 | under any interleaving of admission attempts (repeated calls included) and one completion per open admission, the counter lies in [0, 50] after every event |
| `RequestCore.BurstAdmitsUpToLimit` | src/request.js:33-45 | a burst of attempts, with none finishing, admits as many as fit under 50 and refuses the rest |
| `RequestCore.Classify` | src/request.js:56-84 | the corrected callback throws a `TypeError` only when it resolves with data that has an enumerable `_code`, `_data` or `_meta`; it rejects if and only if there is a transport error, no response, an empty body without status 204, or a truthy error key; a rejection carries 500 for the first two cases and the response's status otherwise |
| `RequestCore.ClassifyAsWritten` | src/request.js:56-84 | the callback as written throws a `TypeError`, and never settles, exactly on an empty body without 204 and a nullish `err`, or, when the body has no truthy error key, on data that has an enumerable `_code`, `_data` or `_meta` |
| `RequestCore.TransportErrorRejects` | src/request.js:58-61 | a transport error rejects with status 500 and the error as payload |
| `RequestCore.MissingResponseRejects` | src/request.js:62-65 | a missing response rejects with status 500 and the message `Unknown error` |
| `RequestCore.EmptyBodyWith204Resolves` | src/request.js:67-74 | an empty body with status 204 resolves to a response that is empty, has `undefined` meta and exposes no key |
| `RequestCore.ErrorKeyWins` | src/request.js:75-82 | a truthy error key rejects with the response's status, that error and the body's meta, whatever the data key holds |
| `RequestCore.BodyWithoutErrorResolves` | src/request.js:75-83 | otherwise a non-empty body is passed to `new DataResponse` with the data key's value and the meta, even when the data key is absent; it resolves exactly when that data does not collide with the internal names, and the result is empty exactly when the data is nullish |
| `RequestCore.InternalDataKeyThrows` | src/request.js:83 | for a body that holds only the data key, data holding `_code`, `_data` or `_meta` makes the callback throw, as written and corrected alike; a truthy error key would reject first |
| `RequestCore.EmptyBodyErrorThrowsAsWritten` | src/request.js:67-74 | as written, an empty body with a status other than 204 and `err` null makes the callback throw a `TypeError`, so the promise never settles; the corrected classification rejects |
| `RequestCore.ClassifyAgreesAsWritten` | src/request.js:56-84 | outside that one case the two throw on the same outcomes; on an empty body without 204 and a falsy but not nullish `err` both reject; on every other outcome they give the same settlement |
| `RequestCore.Statics.constructor` | src/request.js:9-11 | the counter starts at 0 with nothing in flight, `concurrency` at 200 and `cacheTTL` undefined |
| `RequestCore.Request.constructor` | src/request.js:23-31 | the fields are the arguments, with the keys defaulting to `data` and `error` |
| `RequestCore.Request.Execute` | src/request.js:33-45 | one pass of `execute`, on any request, is the check-and-increment `Admit`: admitted below 50 (counted once more, unlocked), otherwise locked with a retry after 100 ms; the counter stays within [0, 50] |
| `RequestCore.Request.Complete` | src/request.js:56-84 | the callback lowers the counter once, closes one admission of the request and settles as the corrected `Classify` says, which is the settlement as written on every outcome but an empty body without 204 |
| `ApiClient.NewApi` | src/api.js:41-50 | a missing or empty url throws `No url specified.`; otherwise the fields are the arguments, defaulting to no version, `data`, `error` and meta on |
| `ApiClient.Normalized` | src/api.js:105-116 | a function as params makes it the callback and both params and headers `{}`; a function as headers makes it the callback and headers `{}`; no function leaves the no-op; no function remains in the params or headers position |
| `ApiClient.NormalizeArguments` | src/api.js:105-116 | the step-by-step reassignment of the arguments computes exactly that shuffling |
| `ApiClient.CallbackInParamsPosition` | src/api.js:105-109 | a callback passed as params is the one called, whatever the headers and callback positions hold, and params and headers become `{}` |
| `ApiClient.NormalizeEndpoint` | src/api.js:117-119 | the result starts with `/`; an endpoint already starting with `/` is kept, any other gets `/` prefixed |
| `ApiClient.NormalizeEndpointIdempotent` | src/api.js:117-119 | normalising twice equals normalising once |
| `ApiClient.VersionSegment` | src/api.js:120 | the URL gets a version segment if and only if a version is set |
| `ApiClient.Api.Url` | src/api.js:120 | the URL starts with the base and ends with the endpoint; between them is nothing without a version, and `/` with the version in decimal with one |
| `ApiClient.UrlLayout` | src/api.js:120 | the URL is base and endpoint without a version, base, `/`, the version in decimal and endpoint with one; version 0 gives `base/0/...` |
| `ApiClient.VersionsGiveDistinctUrls` | src/api.js:120 | two clients on one base URL with different versions never build the same URL for an endpoint |
| `ApiClient.NoMeta` | src/api.js:124-126 | `nometa` is `undefined` exactly when meta is on, and `''` when it is off |
| `ApiClient.Api.Dispatch` | src/api.js:135-149 | a transport error calls the callback with the error alone; reading a key of a missing body throws; a truthy error key calls it with that error, `null` and the body's `_meta`; otherwise a truthy data key calls it with `null`, that data and the `_meta`; when neither is truthy nothing is called |
| `ApiClient.ErrorKeyBeatsDataKey` | src/api.js:141-148 | with both keys truthy the callback gets the error, `null` and the meta |
| `ApiClient.Api.Request` | src/api.js:104-150 | sends the shuffled callback and headers and the built URL; for `get` writes `nometa` into the params (into the caller's own object when shared; a primitive throws a `TypeError`) and sends them as the query string; otherwise sends them as the body with a query string of `nometa` alone; nothing else of the caller's params changes |
| `ApiClient.Api.Get` | src/api.js:59-61 | is `request` with `get` |
| `ApiClient.Api.Post` | src/api.js:70-72 | is `request` with `post` |
| `ApiClient.Api.Put` | src/api.js:81-83 | is `request` with `put` |
| `ApiClient.Api.Delete` | src/api.js:92-94 | is `request` with `delete` |
| `Builders.PutKey` | src/builder.js:60-66 | a missing map is created; then only the given key is set, all other keys keep their values |
| `Builders.ArgOf` | src/builder.js:33-37 | an unset map reaches the api as `null`, a set one as the shared object itself |
| `Builders.Builder.constructor` | src/builder.js:21-23 | a new builder has the given api and no method, endpoint or maps |
| `Builders.Builder.SetEndpoint` | src/builder.js:104-107 | method and endpoint are overwritten together |
| `Builders.Builder.Get` | src/builder.js:40-43 | sets method `get` and the endpoint, touches nothing else and returns the same builder |
| `Builders.Builder.Put` | src/builder.js:45-48 | sets method `put` and the endpoint, touches nothing else and returns the same builder |
| `Builders.Builder.Post` | src/builder.js:50-53 | sets method `post` and the endpoint, touches nothing else and returns the same builder |
| `Builders.Builder.Delete` | src/builder.js:55-58 | sets method `delete` and the endpoint, touches nothing else and returns the same builder |
| `Builders.Builder.AddParam` | src/builder.js:60-66 | creates the params map when missing and sets one key; the other maps keep their contents unless they are the same object |
| `Builders.Builder.Sign` | src/builder.js:68-71 | has the effect of `addHeader` with the key and the token |
| `Builders.Builder.AddHeader` | src/builder.js:73-79 | creates the headers map when missing and sets one key; the other maps keep their contents unless they are the same object |
| `Builders.Builder.AddArgument` | src/builder.js:81-87 | creates the arguments map when missing and sets one key; the other maps keep their contents unless they are the same object |
| `Builders.Builder.SetParams` | src/builder.js:89-92 | replaces the params map by the given object |
| `Builders.Builder.SetHeaders` | src/builder.js:94-97 | replaces the headers map by the given object |
| `Builders.Builder.SetArguments` | src/builder.js:99-102 | replaces the arguments map by the given object |
| `Builders.Builder.ResolvedEndpoint` | src/builder.js:109-111 | with no arguments set the endpoint passed on is exactly the stored one |
| `Builders.Builder.Execute` | src/builder.js:25-38 | without a method it throws `no_method_defined`; with a method but an empty or missing endpoint it throws `no_endpoint_defined`, and in both cases nothing changes; otherwise it has the effect of the api method of that name on the endpoint, the params and the headers, with no callback |
| `Connector.CreateApi` | src/index.js:26 | without a usable url it throws `No url specified.`; otherwise the api has the given version and the configured url, keys and meta, defaulted as in the constructor |
| `Connector.Connect` | src/index.js:22-28 | without a usable url the factory throws `No url specified.`; otherwise the api is unversioned with the configured url, keys and meta, defaulted as in the constructor |
| `Connector.ConnectWithoutConfig` | src/index.js:22-28 | calling the factory without configuration throws `No url specified.` |
| `Connector.V` | src/index.js:34 | `v(version)` builds an api on the configured url with exactly that version, and throws only without a usable url |
| `Connector.VersionedApi` | src/index.js:34 | `v(n)` is the client's api with version `n` and nothing else changed; version 0 stays a version |
| `Connector.Ping` | src/index.js:36 | is `get('/ping', cb)` on an unversioned api: with a callback it sends to `base/ping` and calls that callback; without one (a primitive in the params position) it throws a `TypeError` |
| `Connector.SetConcurrency` | src/index.js:42-45 | reading `concurrency` after setting it returns the set value |
| `Connector.Concurrency` | src/index.js:44 | the getter yields the static as last set, with no default applied |
| `Connector.SetCacheTTL` | src/index.js:46-49 | reading `cacheTTL` after setting it returns the set value |
| `Connector.CacheTTL` | src/index.js:48 | the getter yields the static as last set, with no default applied |

## Left out

- The HTTP transport of the `request` library (src/api.js:128-134, src/request.js:49-55). A request ends in the `Transmission` it would send. Its answer is an input: a `TransportResult` for the promise request, and `err`/`body` for `Dispatch`. The constant `gzip` and `json` flags are not represented.
- Timers and promises. The 100 ms wait is the `Retry(Timeout)` result of one `Execute` pass. The recursive retry is a new call of `Execute`. No fairness or scheduling is modelled, and each method runs as one atomic step.
- Response caching, request deduplication and TTL eviction. The source has none. `cacheTTL` is only stored and read back.
- The `concurrency` setting does not affect admission, in the model as in the source.
- The route library `RouteParser.reverse` is a function parameter of `Builders.Builder.Execute`. Its `false` result for an unmatched template is not modelled: the parameter always returns a string.
- Property reads of inherited properties, and of a string's `length` and indices, are not modelled. `Js.Get` returns `undefined` for those, where JavaScript would return a value.
- Numbers are unbounded integers printed in plain decimal. NaN, infinities and fractions are not modelled. A JavaScript number is a double: it is exact only up to 2^53, and a template literal prints it in exponent form from 10^21 on. So for a version of 10^21 the source builds `base/1e+21/...`, where `ApiClient.Api.Url`, `ApiClient.UrlLayout` and `ApiClient.VersionsGiveDistinctUrls` use 22 digits. Two versions too large to tell apart as doubles also give the same URL in the source.
- The `stack` property of `Error` objects is not modelled.
- Non-string endpoints passed to `request` are not modelled: the endpoint is a string. Most of them throw at `indexOf`, but an array such as `['a']` has `indexOf` and becomes `/a`.
- Explicit `null` for the api's `dataKey`, `errorKey` or `meta` is not modelled: these are options whose absence takes the default.
- Writing `nometa` into a received object whose existing `nometa` property is read-only is not modelled.
- Assigning to the api's fields from outside (done by the tests to switch meta off) is a new `Api` value here.
- The factory's extra arguments `apiKey`, `keepAlive` and `logWarning` are not modelled, because the Api constructor ignores them.
- The TypeScript declaration files are not modelled, because they declare types only.
- ResponseBase.StringDataView: JavaScript indexes a string by UTF-16 code unit, but a Dafny `char` is a Unicode scalar value. So for text outside the Basic Multilingual Plane the model gives one key per character where JavaScript gives two, one per surrogate.
- ResponseBase.StringDataViewKeys: the same UTF-16 gap. For text outside the Basic Multilingual Plane the copy has one key per character, while JavaScript has one per UTF-16 code unit.
- RequestCore.Request.Complete: settles by the corrected `Classify`. When the body is empty, the status is not 204 and `err` is `null` or `undefined`, the callback as written throws instead of rejecting (see Findings). With `err` set to `false`, `0` or `''`, the corrected version rejects with an `Unknown error` payload, while the code as written rejects with `err` itself as the payload.
- The `isEmpty` method as a value: reading `response.isEmpty` without calling it is not modelled, because values here hold no functions.
- ApiClient.Api.Dispatch: the callback's own behaviour, and exceptions thrown inside it, are not modelled.

## Findings

| source | as written | input that shows it | evidently intended | confidence | as-written member | corrected member |
|---|---|---|---|---|---|---|
| src/request.js:71 | An empty body with a status other than 204 calls `new ErrorResponse(statusCode, err)` while `err` is `null`. The base constructor keeps `null`, so src/response/error.js:10 reads `null.message` and throws a `TypeError` inside the transport callback. Neither `resolve` nor `reject` runs, and the promise never settles. | transport answers with `err` = `null`, status code 500 and an empty body | reject with an `ErrorResponse` that carries the status code. The corrected model uses an `Unknown error` payload, like the missing-response branch | not executed | `RequestCore.EmptyBodyErrorThrowsAsWritten` | `RequestCore.Classify` |
