/**
 * `HandleResponse`: the ordered chain of guards that turns the outcome of an
 * exchange into an error (or none) and fills the caller's target.
 */
module Responses {
  import opened Wire

  const InvalidJsonMessage: string := "Json response is not valid"
  const NotFoundMessage: string := "Cannot find resources"

  /** Which guard of the chain decides. */
  datatype Verdict =
    | TransportFailed  // a transport error: the response is never looked at
    | InvalidJson      // a status other than 204 with a body that is not JSON
    | NotFound         // status 404 with a JSON body
    | Confirmed        // the checks passed and there is no target to decode into
    | Decoding         // the checks passed and the body is decoded into the target

  /** The caller's target: nil, or a variable that `json.Unmarshal` fills. */
  datatype Target<T> = NilTarget | Into(unmarshal: Bytes -> Unmarshalled<T>)

  /** The error `HandleResponse` returns and what the caller's variable then holds. */
  datatype Handled<T> = Handled(target: T, err: Option<Error>)

  /** A response that gets past both status checks. */
  predicate PassesChecks(o: Outcome) {
    o.Received? && o.status != 404 && (o.status == 204 || o.validJson)
  }

  /**
   * The guard chain, stated per verdict: each verdict is given exactly by its
   * own condition. The order of the chain shows in `NotFound`, which needs a
   * JSON body because the JSON check comes first.
   */
  function Classify(o: Outcome, hasTarget: bool): (v: Verdict)
    ensures v == TransportFailed <==> o.TransportFailure?
    ensures v == InvalidJson <==> o.Received? && o.status != 204 && !o.validJson
    ensures v == NotFound <==> o.Received? && o.status == 404 && o.validJson
    ensures v == Confirmed <==> PassesChecks(o) && !hasTarget
    ensures v == Decoding <==> PassesChecks(o) && hasTarget
  {
    if o.TransportFailure? then TransportFailed
    else if o.status != 204 && !o.validJson then InvalidJson
    else if o.status == 404 then NotFound
    else if !hasTarget then Confirmed
    else Decoding
  }

  /**
   * `HandleResponse(err, resp, q)` where `zero` is what the caller's variable
   * holds beforehand. Only when the body is decoded does the variable change;
   * a decode failure is reported through `errors.Unwrap`, as is a transport error.
   */
  function HandleResponse<T>(o: Outcome, zero: T, q: Target<T>): (r: Handled<T>)
    ensures Classify(o, q.Into?) != Decoding ==> r.target == zero
    ensures o.TransportFailure? ==> r.err == Unwrap(o.failure)
    ensures Classify(o, q.Into?) == InvalidJson ==> r.err == Some(New(InvalidJsonMessage))
    ensures Classify(o, q.Into?) == NotFound ==> r.err == Some(New(NotFoundMessage))
    ensures Classify(o, q.Into?) == Confirmed ==> r.err == None
    ensures Classify(o, q.Into?) == Decoding ==>
              var u := q.unmarshal(o.body);
              r.target == u.target &&
              r.err == (if u.failure.Some? then Unwrap(u.failure.value) else None)
  {
    match Classify(o, q.Into?)
    case TransportFailed => Handled(zero, Unwrap(o.failure))
    case InvalidJson => Handled(zero, Some(New(InvalidJsonMessage)))
    case NotFound => Handled(zero, Some(New(NotFoundMessage)))
    case Confirmed => Handled(zero, None)
    case Decoding =>
      var u := q.unmarshal(o.body);
      Handled(u.target, if u.failure.Some? then Unwrap(u.failure.value) else None)
  }

  /** A 404 whose body is not JSON reports invalid JSON, not a missing resource. */
  lemma InvalidJsonBeatsNotFound<T>(body: Bytes, zero: T, q: Target<T>)
    ensures HandleResponse(Received(404, body, false), zero, q) == Handled(zero, Some(New(InvalidJsonMessage)))
  {
  }

  /** Status 204 is never rejected for its body: with a target it is decoded. */
  lemma NoContentSkipsJsonCheck<T>(body: Bytes, valid: bool, zero: T, decode: Bytes -> Unmarshalled<T>)
    ensures Classify(Received(204, body, valid), true) == Decoding
    ensures HandleResponse(Received(204, body, valid), zero, Into(decode)).target == decode(body).target
  {
  }

  /** Any status but 404, server errors included, is decoded like a success when the body is JSON. */
  lemma StatusIgnoredForJsonBodies<T>(status: int, body: Bytes, zero: T, q: Target<T>)
    requires status != 404
    ensures HandleResponse(Received(status, body, true), zero, q) == HandleResponse(Received(200, body, true), zero, q)
  {
  }

  /** A transport error decides alone: neither the target nor anything else changes the answer. */
  lemma TransportFailureShortCircuits<T>(e: Error, zero: T, q: Target<T>, q': Target<T>)
    ensures HandleResponse(TransportFailure(e), zero, q) == HandleResponse(TransportFailure(e), zero, q')
    ensures HandleResponse(TransportFailure(e), zero, q) == Handled(zero, e.cause)
  {
  }

  /**
   * A decode failure whose error wraps nothing (as the errors of Go's JSON
   * decoder do) is reported as no error at all.
   */
  lemma UnwrappedDecodeFailureIsSilent<T>(status: int, body: Bytes, zero: T, decode: Bytes -> Unmarshalled<T>, message: string)
    requires status != 404
    requires decode(body).failure == Some(New(message))
    ensures HandleResponse(Received(status, body, true), zero, Into(decode)) == Handled(decode(body).target, None)
  {
  }

  /**
   * The same chain returning the decode error as it is rather than its
   * wrapped cause: once the response has been taken in, a nil error means
   * exactly that it was confirmed or decoded without error. Every other step
   * is the chain as written.
   */
  function ReportingHandleResponse<T>(o: Outcome, zero: T, q: Target<T>): (r: Handled<T>)
    ensures r.err.None? <==>
              || Classify(o, q.Into?) == Confirmed
              || (Classify(o, q.Into?) == Decoding && q.unmarshal(o.body).failure.None?)
              || (Classify(o, q.Into?) == TransportFailed && o.failure.cause.None?)
    ensures Classify(o, q.Into?) == Decoding ==> r.err == q.unmarshal(o.body).failure
    ensures r.target == HandleResponse(o, zero, q).target
    ensures Classify(o, q.Into?) != Decoding ==> r == HandleResponse(o, zero, q)
  {
    match Classify(o, q.Into?)
    case TransportFailed => Handled(zero, Unwrap(o.failure))
    case InvalidJson => Handled(zero, Some(New(InvalidJsonMessage)))
    case NotFound => Handled(zero, Some(New(NotFoundMessage)))
    case Confirmed => Handled(zero, None)
    case Decoding =>
      var u := q.unmarshal(o.body);
      Handled(u.target, u.failure)
  }
}
