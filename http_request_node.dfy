/** The description line the editor shows on an HTTP Request node. */
module HttpRequestNode {
  import opened Wrappers
  import opened ExecutionTypes
  import opened HttpRequestExecutor

  function MethodName(m: Method): (s: string)
    ensures |s| >= 3
  {
    match m
    case GET => "GET"
    case PUT => "PUT"
    case POST => "POST"
    case PATCH => "PATCH"
    case DELETE => "DELETE"
  }

  const NotConfigured := "Not configured"

  /** "<method>:<endpoint>", or "Not configured" when no endpoint is set. */
  function Description(data: HttpRequestData): (d: string)
    ensures !IsConfigured(data) ==> d == NotConfigured
    ensures data.httpMethod.Some? && IsConfigured(data) ==>
      d == MethodName(data.httpMethod.value) + ":" + data.endPoint.value
    ensures data.httpMethod.None? && IsConfigured(data) ==> d == "GET:" + data.endPoint.value
    ensures d != ""
  {
    if IsConfigured(data) then MethodName(EffectiveMethod(data)) + ":" + data.endPoint.value
    else NotConfigured
  }

  /** The node describes itself as "Not configured" exactly when its executor
      fails for want of an endpoint; otherwise the description names the
      method and URL of the request the executor sends. */
  lemma {:induction false} DescriptionMatchesExecutor(p: ExecutorParams<HttpRequestData>, fetch: Fetch, parseJson: ParseJson)
    ensures Description(p.data) == NotConfigured <==>
      Execute(p, fetch, parseJson).result == Failure(NonRetriableError(NoEndpointMessage))
    ensures Execute(p, fetch, parseJson).requests != [] ==>
      var r := Execute(p, fetch, parseJson).requests[0];
      Description(p.data) == MethodName(r.httpMethod) + ":" + r.url
  {
    if IsConfigured(p.data) {
      var m := MethodName(EffectiveMethod(p.data));
      assert Description(p.data)[|m|] == ':' && !(':' in NotConfigured);
    }
  }
}
