/**
 * The status table of `_submit_request`: every API call ends with one
 * HTTP exchange whose status string either names one of five exception
 * kinds or lets the raw body through.
 */
module Dispatch {

  /** The exception classes the library raises, one per mapped status. */
  datatype ErrorKind =
    | ParameterMissing    // ParameterMissingException, status 400
    | UserAuthentication  // UserAuthenticationException, status 401
    | Forbidden           // ForbiddenException, status 403
    | NotSupportedAction  // NotSupportedActionException, status 404
    | InternalError       // InternalErrorException, status 505

  /** A call either returns a value or raises one of the library's exceptions. */
  datatype Outcome<+T> = Ok(value: T) | Raised(kind: ErrorKind)

  /** What the transport hands back: the `status` entry of the response and its body. */
  datatype Response = Response(status: string, body: string)

  /** The `exceptions` dictionary, keyed by the status string. */
  const Exceptions: map<string, ErrorKind> :=
    map["400" := ParameterMissing, "401" := UserAuthentication, "403" := Forbidden,
        "404" := NotSupportedAction, "505" := InternalError]

  /** The status each kind is raised for: the table read backwards. */
  function StatusOf(k: ErrorKind): (s: string)
    ensures s in Exceptions && Exceptions[s] == k
  {
    match k
    case ParameterMissing => "400"
    case UserAuthentication => "401"
    case Forbidden => "403"
    case NotSupportedAction => "404"
    case InternalError => "505"
  }

  /**
   * `_submit_request` after the exchange: a status found in the table
   * raises its exception; every other status, 200 and 500 included,
   * returns the body as it came.
   */
  function Classify(status: string, body: string): (r: Outcome<string>)
    ensures r.Raised? ==> status == StatusOf(r.kind)
    ensures r.Ok? ==> r.value == body && forall k :: status != StatusOf(k)
  {
    if status in Exceptions then Raised(Exceptions[status]) else Ok(body)
  }

  /** Each kind is raised for its status, whatever the body. */
  lemma ClassifyRaisesAt(k: ErrorKind, body: string)
    ensures Classify(StatusOf(k), body) == Raised(k)
  {
  }

  /** A call raises `k` exactly when the status is `k`'s status. */
  lemma ClassifyRaisesIff(status: string, body: string, k: ErrorKind)
    ensures Classify(status, body) == Raised(k) <==> status == StatusOf(k)
  {
  }

  /** The five mapped statuses are the only ones that raise. */
  lemma ClassifyOkIff(status: string, body: string)
    ensures Classify(status, body) == Ok(body) <==> status !in {"400", "401", "403", "404", "505"}
  {
  }

  /** 200 and 500 both pass the body through: 500 is not in the table. */
  lemma ClassifyUnlisted(body: string)
    ensures Classify("200", body) == Ok(body)
    ensures Classify("500", body) == Ok(body)
  {
  }

  /**
   * The `try`/`except` of `authorize_with_token` around the account probe:
   * a normal return is `True`, `UserAuthenticationException` is `False`,
   * any other exception propagates.
   */
  function ProbeVerdict(probe: Outcome<string>): (r: Outcome<bool>)
    ensures r == Ok(true) <==> probe.Ok?
    ensures r == Ok(false) <==> probe == Raised(UserAuthentication)
    ensures r.Raised? <==> probe.Raised? && probe.kind != UserAuthentication
    ensures r.Raised? ==> r.kind == probe.kind
  {
    match probe
    case Ok(_) => Ok(true)
    case Raised(UserAuthentication) => Ok(false)
    case Raised(k) => Raised(k)
  }
}
