/** The promise-based request: a process-wide admission counter that lets a
    request through only while fewer than 50 are in flight, and the
    classification of the transport's outcome into a resolved
    `DataResponse` or a rejected `ErrorResponse`. */
module RequestCore {
  import opened Js
  import opened ResponseBase
  import opened DataResponses
  import opened ErrorResponses

  /** The admission bound compared against the counter. It is a literal in
      `execute`; the static `concurrency` is never consulted. */
  const AdmissionLimit: int := 50

  /** Milliseconds a refused request waits before it tries again. */
  const Timeout: nat := 100

  /** The initial value of the static `concurrency`. */
  const DefaultConcurrency: int := 200

  // ---------------------------------------------------------------------
  // The admission counter as a state machine
  // ---------------------------------------------------------------------

  /** The counter together with the (ghost) multiset of admissions it
      counts: one occurrence of a request per call of `execute` that got
      through and whose transport callback has not yet run. */
  datatype Gate<T> = Gate(count: int, inFlight: multiset<T>)

  /** The counter tallies exactly the admitted, unfinished calls, and never
      leaves [0, AdmissionLimit]. */
  predicate GateInv<T>(g: Gate<T>)
  {
    g.count == |g.inFlight| && 0 <= g.count <= AdmissionLimit
  }

  /** One check-and-increment: admitted exactly when the counter is below
      the limit, adding one admission of `t` and no other; a refused request
      leaves the state as it was. */
  function Admit<T>(g: Gate<T>, t: T): (r: (Gate<T>, bool))
    ensures r.1 <==> g.count < AdmissionLimit
    ensures r.1 ==> r.0.count == g.count + 1 && r.0.inFlight[t] == g.inFlight[t] + 1
    ensures r.1 ==> r.0.inFlight - multiset{t} == g.inFlight
    ensures !r.1 ==> r.0 == g
  {
    if g.count < AdmissionLimit then (Gate(g.count + 1, g.inFlight + multiset{t}), true) else (g, false)
  }

  /** The decrement when the transport answers: one admission of the
      request is over, and every other admission stays open. */
  function Release<T>(g: Gate<T>, t: T): (r: Gate<T>)
    ensures r.count == g.count - 1
    ensures t in g.inFlight ==> r.inFlight[t] == g.inFlight[t] - 1
    ensures t in g.inFlight ==> r.inFlight + multiset{t} == g.inFlight
    ensures t !in g.inFlight ==> r.inFlight == g.inFlight
  {
    Gate(g.count - 1, g.inFlight - multiset{t})
  }

  lemma AdmitKeepsInvariant<T>(g: Gate<T>, t: T)
    requires GateInv(g)
    ensures GateInv(Admit(g, t).0)
  {
  }

  lemma ReleaseKeepsInvariant<T>(g: Gate<T>, t: T)
    requires GateInv(g) && t in g.inFlight
    ensures GateInv(Release(g, t))
  {
    assert g.inFlight == (g.inFlight - multiset{t}) + multiset{t};
  }

  /** What a request can do to the counter: try to get admitted, or finish. */
  datatype Event<T> = Attempt(who: T) | Finish(who: T)

  function Step<T>(g: Gate<T>, e: Event<T>): (g': Gate<T>)
  {
    match e
    case Attempt(t) => Admit(g, t).0
    case Finish(t) => Release(g, t)
  }

  function Run<T>(g: Gate<T>, trace: seq<Event<T>>): (g': Gate<T>)
    decreases |trace|
  {
    if trace == [] then g else Run(Step(g, trace[0]), trace[1..])
  }

  /** The order in which the source lets these events happen: any request
      may attempt admission at any time (again and again, even while an
      earlier call of it is in flight), and a transport callback, the only
      place that decrements, runs once per admission that has not finished. */
  predicate Disciplined<T>(g: Gate<T>, trace: seq<Event<T>>)
    decreases |trace|
  {
    trace == [] ||
    ((match trace[0]
      case Attempt(_) => true
      case Finish(t) => t in g.inFlight) && Disciplined(Step(g, trace[0]), trace[1..]))
  }

  /** Under any interleaving of attempts and completions, the counter stays
      within [0, AdmissionLimit] after every event. */
  lemma {:induction false} CounterStaysBounded<T>(g: Gate<T>, trace: seq<Event<T>>)
    requires GateInv(g) && Disciplined(g, trace)
    ensures forall i :: 0 <= i <= |trace| ==> GateInv(Run(g, trace[..i]))
    decreases |trace|
  {
    if trace != [] {
      var g' := Step(g, trace[0]);
      match trace[0] {
        case Attempt(t) => AdmitKeepsInvariant(g, t);
        case Finish(t) => ReleaseKeepsInvariant(g, t);
      }
      CounterStaysBounded(g', trace[1..]);
      forall i | 0 < i <= |trace|
        ensures GateInv(Run(g, trace[..i]))
      {
        assert trace[..i][0] == trace[0];
        assert trace[..i][1..] == trace[1..][..i - 1];
      }
      assert trace[..0] == [];
    }
  }

  function Attempts<T>(ids: seq<T>): (trace: seq<Event<T>>)
    ensures |trace| == |ids|
  {
    if ids == [] then [] else [Attempt(ids[0])] + Attempts(ids[1..])
  }

  /** A burst of attempts with nobody finishing admits as many as fit
      under the limit and refuses the rest. */
  lemma {:induction false} BurstAdmitsUpToLimit<T>(g: Gate<T>, ids: seq<T>)
    requires GateInv(g)
    ensures Disciplined(g, Attempts(ids))
    ensures Run(g, Attempts(ids)).count ==
      if g.count + |ids| <= AdmissionLimit then g.count + |ids| else AdmissionLimit
    decreases |ids|
  {
    if ids != [] {
      var g' := Admit(g, ids[0]).0;
      AdmitKeepsInvariant(g, ids[0]);
      assert Attempts(ids)[0] == Attempt(ids[0]);
      assert Attempts(ids)[1..] == Attempts(ids[1..]);
      BurstAdmitsUpToLimit(g', ids[1..]);
    }
  }

  // ---------------------------------------------------------------------
  // Classification of the transport outcome
  // ---------------------------------------------------------------------

  /** What the transport hands to its callback: an error (falsy when there is
      none), the response's status code when there is a response, and the
      decoded body. */
  datatype TransportResult = TransportResult(err: Value, response: Option<int>, body: Value)

  /** How the promise ends: resolved, rejected, or not at all because the
      callback threw before calling either. */
  datatype Settlement = Resolved(data: DataResponse) | Rejected(failure: ErrorResponse) | Thrown(e: Exception)

  function RejectWith(r: Result<ErrorResponse, Exception>): (s: Settlement)
    ensures r.Ok? ==> s == Rejected(r.value)
    ensures r.Err? ==> s == Thrown(r.error)
  {
    match r
    case Ok(failure) => Rejected(failure)
    case Err(e) => Thrown(e)
  }

  function ResolveWith(r: Result<DataResponse, Exception>): (s: Settlement)
    ensures r.Ok? ==> s == Resolved(r.value)
    ensures r.Err? ==> s == Thrown(r.error)
  {
    match r
    case Ok(data) => Resolved(data)
    case Err(e) => Thrown(e)
  }

  /** The callback gets past its first three checks: no transport error, a
      response and a truthy body. */
  predicate HasBody(t: TransportResult)
  {
    !Truthy(t.err) && t.response.Some? && Truthy(t.body)
  }

  /** The callback reaches the branch for an empty body with a status other
      than 204. */
  predicate EmptyNon204(t: TransportResult)
  {
    !Truthy(t.err) && t.response.Some? && t.response.value != 204 && !Truthy(t.body)
  }

  /** The decision tree of the transport callback, with the payload used for
      an empty body with a status other than 204 as a parameter. */
  function ClassifyWith(t: TransportResult, dataKey: string, errorKey: string, emptyBodyError: Value): (s: Settlement)
  {
    if Truthy(t.err) then RejectWith(NewErrorResponse(500, t.err, Undefined))
    else if t.response.None? then RejectWith(NewErrorResponse(500, ErrorObject("Unknown error"), Undefined))
    else if !Truthy(t.body) then
      if t.response.value == 204 then ResolveWith(NewDataResponse(204, Undefined, Undefined))
      else RejectWith(NewErrorResponse(t.response.value, emptyBodyError, Undefined))
    else
      var data := Get(t.body, dataKey).value;
      var error := Get(t.body, errorKey).value;
      var meta := Get(t.body, "_meta").value;
      if Truthy(error) then RejectWith(NewErrorResponse(t.response.value, error, meta))
      else ResolveWith(NewDataResponse(t.response.value, data, meta))
  }

  /** The callback as written: an empty body with a status other than 204
      builds the error response from `err`, which is falsy at that point.
      It throws a `TypeError`, and so never settles the promise, in two
      cases: that `err` is `null` or `undefined`, or the data to resolve
      with has a key that collides with the response's own properties. */
  function ClassifyAsWritten(t: TransportResult, dataKey: string, errorKey: string): (s: Settlement)
    ensures s.Thrown? <==>
      || (EmptyNon204(t) && Nullish(t.err))
      || (HasBody(t) && !Truthy(Get(t.body, errorKey).value) && Collides(Get(t.body, dataKey).value))
    ensures s.Thrown? ==> s.e == TypeError
  {
    ClassifyWith(t, dataKey, errorKey, t.err)
  }

  /** The callback with that branch building its error response from an
      `Unknown error` object, as the missing-response branch does. It then
      throws only on data that collides with the response's own properties;
      it rejects exactly on a transport error, a missing response, an empty
      body without 204, or a truthy error key, and resolves otherwise. */
  function Classify(t: TransportResult, dataKey: string, errorKey: string): (s: Settlement)
    ensures s.Thrown? <==>
      HasBody(t) && !Truthy(Get(t.body, errorKey).value) && Collides(Get(t.body, dataKey).value)
    ensures s.Thrown? ==> s.e == TypeError
    ensures s.Rejected? <==>
      || Truthy(t.err)
      || t.response.None?
      || (!Truthy(t.body) && t.response.value != 204)
      || (Truthy(t.body) && Get(t.body, errorKey).Ok? && Truthy(Get(t.body, errorKey).value))
    ensures s.Rejected? ==> s.failure.base.code == (if Truthy(t.err) || t.response.None? then 500 else t.response.value)
    ensures s.Resolved? ==> t.response.Some? && s.data.base.code == t.response.value
  {
    ClassifyWith(t, dataKey, errorKey, ErrorObject("Unknown error"))
  }

  /** A transport error rejects with status 500 and the error as payload. */
  lemma TransportErrorRejects(t: TransportResult, dataKey: string, errorKey: string)
    requires Truthy(t.err)
    ensures Classify(t, dataKey, errorKey).Rejected?
    ensures Classify(t, dataKey, errorKey).failure.base == NewResponse(500, t.err, Undefined)
  {
  }

  /** No response object rejects with status 500 and `Unknown error`. */
  lemma MissingResponseRejects(t: TransportResult, dataKey: string, errorKey: string)
    requires !Truthy(t.err) && t.response.None?
    ensures Classify(t, dataKey, errorKey).Rejected?
    ensures Classify(t, dataKey, errorKey).failure.base.code == 500
    ensures Classify(t, dataKey, errorKey).failure.message == Str("Unknown error")
  {
  }

  /** An empty body with status 204 resolves to an empty response without
      meta. */
  lemma EmptyBodyWith204Resolves(t: TransportResult, dataKey: string, errorKey: string)
    requires !Truthy(t.err) && t.response == Some(204) && !Truthy(t.body)
    ensures Classify(t, dataKey, errorKey).Resolved?
    ensures Classify(t, dataKey, errorKey).data.IsEmpty()
    ensures Classify(t, dataKey, errorKey).data.base.meta == Undefined
    ensures Classify(t, dataKey, errorKey).data.own == map[]
  {
  }

  /** A truthy error key rejects with the body's error and meta, whatever
      the data key holds. */
  lemma ErrorKeyWins(t: TransportResult, dataKey: string, errorKey: string)
    requires HasBody(t)
    requires Truthy(Get(t.body, errorKey).value)
    ensures Classify(t, dataKey, errorKey).Rejected?
    ensures Classify(t, dataKey, errorKey).failure.base ==
      NewResponse(t.response.value, Get(t.body, errorKey).value, Get(t.body, "_meta").value)
  {
  }

  /** Otherwise a non-empty body is handed to `new DataResponse`, even with
      no data key (the data then defaults to `null` and the response is
      empty). It resolves unless the data collides with the response's own
      properties, in which case the callback throws. */
  lemma BodyWithoutErrorResolves(t: TransportResult, dataKey: string, errorKey: string)
    requires HasBody(t)
    requires !Truthy(Get(t.body, errorKey).value)
    ensures Classify(t, dataKey, errorKey) ==
      ResolveWith(NewDataResponse(t.response.value, Get(t.body, dataKey).value, Get(t.body, "_meta").value))
    ensures Classify(t, dataKey, errorKey).Resolved? <==> !Collides(Get(t.body, dataKey).value)
    ensures Classify(t, dataKey, errorKey).Resolved? ==>
      (Classify(t, dataKey, errorKey).data.IsEmpty() <==> Nullish(Get(t.body, dataKey).value))
  {
  }

  /** Data holding an enumerable `_code`, `_data` or `_meta` makes the
      callback throw, as written and corrected alike. */
  lemma InternalDataKeyThrows(status: int, dataKey: string, errorKey: string, key: string, value: Value)
    requires dataKey != errorKey && key in InternalKeys
    ensures var t := TransportResult(Null, Some(status), Obj(map[dataKey := Obj(map[key := value], {})], {}));
      && ClassifyAsWritten(t, dataKey, errorKey) == Thrown(TypeError)
      && Classify(t, dataKey, errorKey) == Thrown(TypeError)
  {
    InternalKeyThrows(status, key, value, Undefined);
  }

  /** The callback as written throws a `TypeError` on an empty body with a
      status other than 204, as the request library reports it (`err` is
      `null`): `new ErrorResponse(statusCode, null)` reads `null.message`,
      so the promise neither resolves nor rejects. */
  lemma EmptyBodyErrorThrowsAsWritten(status: int, body: Value, dataKey: string, errorKey: string)
    requires status != 204 && !Truthy(body)
    ensures ClassifyAsWritten(TransportResult(Null, Some(status), body), dataKey, errorKey) == Thrown(TypeError)
    ensures Classify(TransportResult(Null, Some(status), body), dataKey, errorKey).Rejected?
  {
  }

  /** Everywhere else the corrected callback throws exactly when the one as
      written does; on an empty body without 204 both reject, and on every
      other outcome they agree. */
  lemma ClassifyAgreesAsWritten(t: TransportResult, dataKey: string, errorKey: string)
    requires !(EmptyNon204(t) && Nullish(t.err))
    ensures ClassifyAsWritten(t, dataKey, errorKey).Thrown? <==> Classify(t, dataKey, errorKey).Thrown?
    ensures EmptyNon204(t) ==>
      ClassifyAsWritten(t, dataKey, errorKey).Rejected? && Classify(t, dataKey, errorKey).Rejected?
    ensures !EmptyNon204(t) ==> ClassifyAsWritten(t, dataKey, errorKey) == Classify(t, dataKey, errorKey)
  {
  }

  // ---------------------------------------------------------------------
  // The class and its static state
  // ---------------------------------------------------------------------

  datatype Admission = Proceed | Retry(delay: nat)

  /** The static members of class `Request`, shared by every request of the
      process. `inFlight` is the ghost multiset of admissions the counter
      counts: a request occurs in it once per admitted, unfinished call. */
  class Statics {
    var count: int
    var concurrency: Value
    var cacheTTL: Value
    ghost var inFlight: multiset<Request>

    ghost function State(): Gate<Request>
      reads this
    {
      Gate(count, inFlight)
    }

    ghost predicate Valid()
      reads this
    {
      GateInv(State())
    }

    constructor ()
      ensures Valid() && count == 0 && inFlight == multiset{}
      ensures concurrency == Num(DefaultConcurrency) && cacheTTL == Undefined
    {
      count := 0;
      concurrency := Num(DefaultConcurrency);
      cacheTTL := Undefined;
      inFlight := multiset{};
    }
  }

  class Request {
    var url: string
    var httpMethod: string
    var qs: Value
    var body: Value
    var headers: Value
    var dataKey: string
    var errorKey: string
    var locked: bool

    /** `new Request(url, method, qs, body, headers, dataKey, errorKey)`;
        an omitted key takes its default. */
    constructor (url: string, httpMethod: string, qs: Value, body: Value, headers: Value,
                 dataKey: Option<string>, errorKey: Option<string>)
      ensures this.url == url && this.httpMethod == httpMethod
      ensures this.qs == qs && this.body == body && this.headers == headers
      ensures this.dataKey == (if dataKey.Some? then dataKey.value else "data")
      ensures this.errorKey == (if errorKey.Some? then errorKey.value else "error")
      ensures !locked
    {
      this.url := url;
      this.httpMethod := httpMethod;
      this.qs := qs;
      this.body := body;
      this.headers := headers;
      this.dataKey := if dataKey.Some? then dataKey.value else "data";
      this.errorKey := if errorKey.Some? then errorKey.value else "error";
      locked := false;
    }

    /** One pass of `execute`: admitted when the counter is below the limit
        (the counter goes up by one and the request goes to the transport),
        otherwise refused with the counter untouched and a retry after
        `Timeout` milliseconds. */
    method Execute(s: Statics) returns (step: Admission)
      requires s.Valid()
      modifies s`count, s`inFlight, this`locked
      ensures s.Valid()
      ensures (s.State(), step.Proceed?) == Admit(old(s.State()), this)
      ensures locked == !step.Proceed?
      ensures step.Retry? ==> step.delay == Timeout
    {
      if s.count < AdmissionLimit {
        s.count := s.count + 1;
        s.inFlight := s.inFlight + multiset{this};
        locked := false;
      } else {
        locked := true;
      }
      if !locked {
        step := Proceed;
      } else {
        step := Retry(Timeout);
      }
    }

    /** The transport callback: the counter goes down by one before any
        branch, and the outcome settles the promise. */
    method Complete(s: Statics, outcome: TransportResult) returns (settlement: Settlement)
      requires s.Valid() && this in s.inFlight
      modifies s`count, s`inFlight
      ensures s.Valid()
      ensures s.State() == Release(old(s.State()), this)
      ensures settlement == Classify(outcome, dataKey, errorKey)
      ensures !EmptyNon204(outcome) ==> settlement == ClassifyAsWritten(outcome, dataKey, errorKey)
    {
      ReleaseKeepsInvariant(s.State(), this);
      s.count := s.count - 1;
      s.inFlight := s.inFlight - multiset{this};
      settlement := Classify(outcome, dataKey, errorKey);
    }
  }
}
