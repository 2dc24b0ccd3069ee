/** The node-executor contract: the workflow context, the parameters every
    executor receives, and what one invocation yields. */
module ExecutionTypes {
  import opened Wrappers

  /** A value stored in the workflow context (the source's `unknown`),
      restricted to what JSON can carry; numbers are reals. */
  datatype Value =
    | Null
    | Bool(b: bool)
    | Num(n: real)
    | Str(s: string)
    | List(items: seq<Value>)
    | Object(fields: map<string, Value>)

  /** The data flowing through a workflow: a string-keyed record. */
  type Context = map<string, Value>

  /** An executor failure: `NonRetriableError` stops the workflow at once,
      a plain `Error` is left to the step runner. */
  datatype Error = NonRetriableError(message: string) | PlainError(message: string)

  /** What an executor is called with. The step helper and the publish
      function are not values here: a step is modelled by `RunStep` and
      publishing is not modelled. */
  datatype ExecutorParams<D> = ExecutorParams(data: D, nodeId: string, context: Context)

  /** An HTTP request as handed to the network. */
  datatype Method = GET | PUT | POST | PATCH | DELETE
  datatype Request = Request(url: string, httpMethod: Method, body: Option<string>)

  /** One executor invocation: the new context or the error it threw, the
      names of the steps it ran, in order, and the requests it sent. */
  datatype Outcome = Outcome(result: Result<Context, Error>, steps: seq<string>, requests: seq<Request>)

  /** `step.run(name, work)`: the step's value is its work's result, and the
      step is recorded under its name. */
  function RunStep(name: string, work: Result<Context, Error>, requests: seq<Request>): (o: Outcome)
    ensures o.steps == [name] && o.result == work && o.requests == requests
  {
    Outcome(work, [name], requests)
  }
}
