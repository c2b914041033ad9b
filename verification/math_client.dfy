/** MathApiClient.add: GET /math/add/{a}/{b}, then a three-way status mapping. */
module MathClient {
  import opened Lang
  import opened Decimal
  import opened Http

  const InvalidArgumentsPrefix: string := "Invalid arguments: "
  const UnknownErrorPrefix: string := "Unknown error: "

  /** The path template /math/add/{a}/{b} with both operands substituted. */
  function AddPath(a: Int32, b: Int32): string {
    "/math/add/" + Show(a as int) + "/" + Show(b as int)
  }

  function AddRequest(a: Int32, b: Int32): (q: Request)
    ensures q.verb == Get && q.body == None
  {
    Request(Get, AddPath(a, b), None)
  }

  /** successful -> the integer body; clientError -> IllegalArgumentException;
      anything else -> IllegalStateException. */
  function AddOutcome(response: Response<Int32>): Outcome<Int32> {
    if Successful(response.status) then Ok(response.entity)
    else if ClientError(response.status) then InvalidArgument(InvalidArgumentsPrefix + response.text)
    else IllegalState(UnknownErrorPrefix + response.text)
  }

  /** add(a, b) against a server that answers the request with `response`. */
  function Add(a: Int32, b: Int32, response: Response<Int32>): (c: Call<Int32>)
    ensures c.request == Some(AddRequest(a, b))
    ensures c.outcome.Ok? <==> Successful(response.status)
    ensures c.outcome.Ok? ==> c.outcome.value == response.entity
    ensures c.outcome.InvalidArgument? <==> ClientError(response.status)
    ensures c.outcome.InvalidArgument? ==> c.outcome.message == InvalidArgumentsPrefix + response.text
    ensures c.outcome.IllegalState? <==> !Successful(response.status) && !ClientError(response.status)
    ensures c.outcome.IllegalState? ==> c.outcome.message == UnknownErrorPrefix + response.text
  {
    Call(Some(AddRequest(a, b)), AddOutcome(response))
  }

  /** The request names both operands: different operand pairs give different paths. */
  lemma AddPathDeterminesOperands(a: Int32, b: Int32, a': Int32, b': Int32)
    ensures AddRequest(a, b) == AddRequest(a', b') <==> a == a' && b == b'
  {
    if AddPath(a, b) == AddPath(a', b') {
      var pre := "/math/add/";
      assert AddPath(a, b) == pre + (Show(a as int) + ['/'] + Show(b as int));
      assert AddPath(a', b') == pre + (Show(a' as int) + ['/'] + Show(b' as int));
      CancelPrefix(pre, Show(a as int) + ['/'] + Show(b as int), Show(a' as int) + ['/'] + Show(b' as int));
      SlashNotShown(a as int);
      SlashNotShown(a' as int);
      SplitAtSeparator(Show(a as int), Show(b as int), Show(a' as int), Show(b' as int), '/');
      ShowInjective(a as int, a' as int);
      ShowInjective(b as int, b' as int);
    }
  }

  /** The outcome follows the bucket of the status: the if/else-if chain of the
      client agrees with the reference classification. */
  lemma AddFollowsClassification(a: Int32, b: Int32, response: Response<Int32>)
    ensures Add(a, b, response).outcome ==
      match Classify(response.status)
      case Success => Ok(response.entity)
      case ClientFailure => InvalidArgument(InvalidArgumentsPrefix + response.text)
      case Unknown => IllegalState(UnknownErrorPrefix + response.text)
  {
    ClassifyPartition(response.status);
  }

  /** The client does no arithmetic: the outcome is whatever the response says,
      for any operands, so an overflow only shows if the server reports it. */
  lemma AddNoLocalArithmetic(a: Int32, b: Int32, a': Int32, b': Int32, response: Response<Int32>)
    ensures Add(a, b, response).outcome == Add(a', b', response).outcome
  {
  }
}
