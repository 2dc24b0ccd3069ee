/** The manual-trigger executor: it runs one step that hands the incoming
    context back unchanged. */
module ManualTriggerExecutor {
  import opened Wrappers
  import opened ExecutionTypes

  const StepName := "mannual-trigger"

  /** The node's configuration: an arbitrary record, which is ignored. */
  type ManualTriggerData = map<string, Value>

  function Execute(p: ExecutorParams<ManualTriggerData>): (o: Outcome)
    ensures o.result == Success(p.context)
    ensures o.steps == [StepName] && o.requests == []
  {
    RunStep(StepName, Success(p.context), [])
  }

  /** The outcome depends on the context alone: node data and node id do
      not matter. */
  lemma IgnoresDataAndNodeId(p: ExecutorParams<ManualTriggerData>, q: ExecutorParams<ManualTriggerData>)
    requires p.context == q.context
    ensures Execute(p) == Execute(q)
  {
  }

  /** Running the trigger on its own output gives the same context again. */
  lemma Idempotent(p: ExecutorParams<ManualTriggerData>)
    ensures Execute(p).result.Success?
    ensures Execute(p.(context := Execute(p).result.value)).result == Execute(p).result
  {
  }
}
