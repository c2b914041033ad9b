/**
  The values exchanged with the transport, the failures a client call can end
  in, and the status-code predicates of the response helper library the
  clients use (assumed definitions: that library is not part of this model).
 */
module Http {
  import opened Lang
  import opened Users

  datatype Method = Get | Post | Put

  /** A request relative to the client's base URI; only user bodies are ever sent. */
  datatype Request = Request(verb: Method, path: string, body: Option<User>)

  /** A completed response. `entity` is the body decoded as the type the
      operation asks for; `text` is the body read as a String. */
  datatype Response<T> = Response(status: int, entity: T, text: string)

  /** What a call returns, or the exception it throws with its message. */
  datatype Outcome<T> = Ok(value: T) | InvalidArgument(message: string) | IllegalState(message: string)

  /** The request the call built (None when a precondition failed first) and its outcome. */
  datatype Call<T> = Call(request: Option<Request>, outcome: Outcome<T>)

  /** KiwiResponses.successful: the 2xx family. */
  predicate Successful(status: int) {
    200 <= status <= 299
  }

  /** KiwiResponses.clientError: the 4xx family. */
  predicate ClientError(status: int) {
    400 <= status <= 499
  }

  /** KiwiResponses.ok */
  predicate IsOk(status: int) {
    status == 200
  }

  /** KiwiResponses.created */
  predicate IsCreated(status: int) {
    status == 201
  }

  /** The three buckets a status falls into. */
  datatype Bucket = Success | ClientFailure | Unknown

  /** A reference classification by hundreds digit, independent of the range
      predicates above: 2 is success, 4 is a client failure, anything else
      (1xx, 3xx, 5xx, out-of-range codes) is unknown. */
  function Classify(status: int): Bucket {
    if 100 <= status <= 999 then
      var hundreds := status / 100;
      if hundreds == 2 then Success else if hundreds == 4 then ClientFailure else Unknown
    else Unknown
  }

  /** The classification is total and its buckets are disjoint: every status
      is in exactly one, and it agrees with the range predicates. Informational
      (1xx) and redirect (3xx) statuses are not successes. */
  lemma ClassifyPartition(status: int)
    ensures Classify(status) == Success <==> Successful(status)
    ensures Classify(status) == ClientFailure <==> ClientError(status)
    ensures Classify(status) == Unknown <==> !Successful(status) && !ClientError(status)
    ensures !(Successful(status) && ClientError(status))
    ensures 100 <= status <= 199 || 300 <= status <= 399 ==> Classify(status) == Unknown
  {
  }
}
