/** The executor registry: a constant table from node type to executor and a
    lookup that throws on a type with no entry. Node types are the tags the
    database stores. */
module ExecutorRegistry {
  import opened Wrappers
  import opened ExecutionTypes

  /** The executors that exist. */
  datatype Executor = ManualTrigger | HttpRequest

  const MANUAL_TRIGGER := "MANUAL_TRIGGER"
  const HTTP_REQUEST := "HTTP_REQUEST"
  const INITIAL := "INITIAL"

  const Registry: map<string, Executor> :=
    map[MANUAL_TRIGGER := ManualTrigger, HTTP_REQUEST := HttpRequest, INITIAL := ManualTrigger]

  function NoExecutorMessage(nodeType: string): string
  {
    "No executor found for node type:" + nodeType
  }

  /** `getExecutor`: the registry's entry, or a plain error naming the type. */
  function GetExecutor(nodeType: string): (r: Result<Executor, Error>)
    ensures nodeType in Registry ==> r == Success(Registry[nodeType])
    ensures nodeType !in Registry ==> r == Failure(PlainError(NoExecutorMessage(nodeType)))
    ensures r.Success? <==> nodeType in {MANUAL_TRIGGER, HTTP_REQUEST, INITIAL}
  {
    if nodeType in Registry then Success(Registry[nodeType])
    else Failure(PlainError(NoExecutorMessage(nodeType)))
  }

  /** The three registered types resolve: MANUAL_TRIGGER and INITIAL to the
      pass-through trigger, HTTP_REQUEST to the HTTP executor. */
  lemma RegisteredTypes()
    ensures GetExecutor(MANUAL_TRIGGER) == Success(ManualTrigger)
    ensures GetExecutor(HTTP_REQUEST) == Success(HttpRequest)
    ensures GetExecutor(INITIAL) == Success(ManualTrigger)
  {
  }
}
