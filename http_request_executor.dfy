/** The HTTP Request executor: checks that an endpoint is configured, then,
    inside one step, sends the request, reads the response as JSON or text by
    its content type, and stores it in the context under `httpResponse`. */
module HttpRequestExecutor {
  import opened Wrappers
  import opened ExecutionTypes
  import Strings

  const StepName := "http-request"
  const ResponseKey := "httpResponse"
  const NoEndpointMessage := "HTTP request node: No endpoint configured"
  const JsonMediaType := "application/json"

  /** The node's configuration; every field may be unset. */
  datatype HttpRequestData = HttpRequestData(endPoint: Option<string>, httpMethod: Option<Method>, body: Option<string>)

  /** What the network hands back: status line, the `content-type` header if
      present, and the raw body. */
  datatype HttpResponse = HttpResponse(status: int, statusText: string, contentType: Option<string>, body: string)

  /** The network call: a response, or the message of the error it threw. */
  type Fetch = Request -> Result<HttpResponse, string>

  /** `response.json()`: the parsed body, or the message of the error it threw. */
  type ParseJson = string -> Result<Value, string>

  /** `data.endPoint` is truthy: present and not the empty string. */
  predicate IsConfigured(data: HttpRequestData)
  {
    data.endPoint.Some? && data.endPoint.value != ""
  }

  /** The method sent: the configured one, or GET when unset. */
  function EffectiveMethod(data: HttpRequestData): (m: Method)
    ensures data.httpMethod.None? ==> m == GET
    ensures data.httpMethod.Some? ==> m == data.httpMethod.value
  {
    if data.httpMethod.Some? then data.httpMethod.value else GET
  }

  /** The methods whose requests carry the configured body. */
  predicate CarriesBody(m: Method)
  {
    m == POST || m == PUT || m == PATCH
  }

  /** The request for a configured node: no templating, no validation of the
      method or body. */
  function BuildRequest(data: HttpRequestData): (r: Request)
    requires IsConfigured(data)
    ensures r.url == data.endPoint.value
    ensures r.httpMethod == EffectiveMethod(data)
    ensures r.body.Some? ==> CarriesBody(r.httpMethod)
    ensures CarriesBody(r.httpMethod) ==> r.body == data.body
  {
    var m := EffectiveMethod(data);
    Request(data.endPoint.value, m, if CarriesBody(m) then data.body else None)
  }

  /** The response is read as JSON when a `content-type` header is present
      and mentions `application/json` (case-sensitively). */
  predicate IsJson(contentType: Option<string>)
  {
    contentType.Some? && Strings.Includes(contentType.value, JsonMediaType)
  }

  /** `IsJson` holds exactly when the header is present and the media type
      occurs in it at some position; an absent header means text. */
  lemma {:induction false} IsJsonIffMediaTypeOccurs(contentType: Option<string>)
    ensures IsJson(contentType) <==>
      contentType.Some? && exists i :: Strings.OccursAt(contentType.value, JsonMediaType, i)
  {
    if contentType.Some? {
      Strings.IncludesIffOccurs(contentType.value, JsonMediaType);
    }
  }

  /** The response's data: parsed JSON, or the body as text. */
  function ResponseData(response: HttpResponse, parseJson: ParseJson): (r: Result<Value, string>)
    ensures IsJson(response.contentType) ==> r == parseJson(response.body)
    ensures !IsJson(response.contentType) ==> r == Success(Str(response.body))
  {
    if IsJson(response.contentType) then parseJson(response.body) else Success(Str(response.body))
  }

  /** The record stored under `httpResponse`. */
  function ResponseRecord(response: HttpResponse, data: Value): (v: Value)
    ensures v.Object? && v.fields.Keys == {"status", "statusText", "data"}
    ensures v.fields["status"] == Num(response.status as real)
    ensures v.fields["statusText"] == Str(response.statusText)
    ensures v.fields["data"] == data
  {
    Object(map["status" := Num(response.status as real), "statusText" := Str(response.statusText), "data" := data])
  }

  /** `{...context, httpResponse: record}`: a new context; every other key
      keeps its value and a previous `httpResponse` is replaced. */
  function MergeResponse(context: Context, record: Value): (r: Context)
    ensures r.Keys == context.Keys + {ResponseKey}
    ensures r[ResponseKey] == record
    ensures forall k :: k in context && k != ResponseKey ==> r[k] == context[k]
  {
    context[ResponseKey := record]
  }

  /** The work of the `http-request` step. A failing network call or JSON
      parse throws a plain error. */
  function StepWork(data: HttpRequestData, context: Context, fetch: Fetch, parseJson: ParseJson): Result<Context, Error>
    requires IsConfigured(data)
  {
    match fetch(BuildRequest(data))
    case Failure(e) => Failure(PlainError(e))
    case Success(response) =>
      match ResponseData(response, parseJson)
      case Failure(e) => Failure(PlainError(e))
      case Success(v) => Success(MergeResponse(context, ResponseRecord(response, v)))
  }

  function Execute(p: ExecutorParams<HttpRequestData>, fetch: Fetch, parseJson: ParseJson): (o: Outcome)
    // a node without an endpoint fails for good before any step or request
    ensures !IsConfigured(p.data) ==>
      o.result == Failure(NonRetriableError(NoEndpointMessage)) && o.steps == [] && o.requests == []
    // otherwise exactly one step runs and exactly one request is sent
    ensures IsConfigured(p.data) ==>
      o.steps == [StepName] && o.requests == [BuildRequest(p.data)]
    // a network failure is a plain (retriable) error
    ensures IsConfigured(p.data) && fetch(BuildRequest(p.data)).Failure? ==>
      o.result == Failure(PlainError(fetch(BuildRequest(p.data)).error))
    // so is a body that cannot be parsed as the JSON its content type announces
    ensures IsConfigured(p.data) && fetch(BuildRequest(p.data)).Success? &&
            ResponseData(fetch(BuildRequest(p.data)).value, parseJson).Failure? ==>
      o.result == Failure(PlainError(ResponseData(fetch(BuildRequest(p.data)).value, parseJson).error))
    // a configured node whose request and decoding both succeed yields a context
    ensures IsConfigured(p.data) && fetch(BuildRequest(p.data)).Success? &&
            ResponseData(fetch(BuildRequest(p.data)).value, parseJson).Success? ==>
      o.result.Success?
    // on success the context gains exactly `httpResponse`, built from the response
    ensures o.result.Success? ==>
      && IsConfigured(p.data)
      && fetch(BuildRequest(p.data)).Success?
      && var response := fetch(BuildRequest(p.data)).value;
      && ResponseData(response, parseJson).Success?
      && o.result.value.Keys == p.context.Keys + {ResponseKey}
      && o.result.value[ResponseKey] == ResponseRecord(response, ResponseData(response, parseJson).value)
      && (forall k :: k in p.context && k != ResponseKey ==> o.result.value[k] == p.context[k])
  {
    if !IsConfigured(p.data) then
      Outcome(Failure(NonRetriableError(NoEndpointMessage)), [], [])
    else
      RunStep(StepName, StepWork(p.data, p.context, fetch, parseJson), [BuildRequest(p.data)])
  }

  /** The worked example of the executor's flow: a GET to a JSON endpoint
      from an empty context yields a context holding only `httpResponse`. */
  lemma {:induction false} JsonGetFromEmptyContext(fetch: Fetch, parseJson: ParseJson, user: Value)
    requires fetch(Request("https://jsonplaceholder.typicode.com/users/1", GET, None)) ==
      Success(HttpResponse(200, "OK", Some("application/json; charset=utf-8"), "{\"id\": 1}"))
    requires parseJson("{\"id\": 1}") == Success(user)
    ensures
      var data := HttpRequestData(Some("https://jsonplaceholder.typicode.com/users/1"), Some(GET), None);
      var o := Execute(ExecutorParams(data, "node-2", map[]), fetch, parseJson);
      && o.steps == [StepName]
      && o.requests == [Request("https://jsonplaceholder.typicode.com/users/1", GET, None)]
      && o.result == Success(map[ResponseKey := Object(map["status" := Num(200.0), "statusText" := Str("OK"), "data" := user])])
  {
    assert JsonMediaType <= "application/json; charset=utf-8";
  }

  /** A text content type, or none at all, means the body is kept as text. */
  lemma TextResponses(response: HttpResponse, parseJson: ParseJson)
    requires response.contentType == None || response.contentType == Some("text/plain")
    ensures ResponseData(response, parseJson) == Success(Str(response.body))
  {
  }

  /** The node id plays no part in what the executor does. */
  lemma IgnoresNodeId(p: ExecutorParams<HttpRequestData>, nodeId: string, fetch: Fetch, parseJson: ParseJson)
    ensures Execute(p.(nodeId := nodeId), fetch, parseJson) == Execute(p, fetch, parseJson)
  {
  }
}
