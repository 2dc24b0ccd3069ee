# Workflow executors and editor rules of the n8n clone, in Dafny

This project models the execution side of a small workflow automation tool
(an n8n clone) and a handful of decision rules in its editor and list pages:

- the **node-executor contract**: a workflow context is a string-keyed record;
  an executor receives the node's data, its id and the context, runs its work
  inside named steps, and yields a new context or throws;
- the **HTTP Request executor**: it throws a non-retriable error when no
  endpoint is configured; otherwise, inside the single step `http-request`, it
  sends the request (method defaults to GET, a body only for POST, PUT and
  PATCH), reads the response as JSON or text by its `content-type`, and returns
  the incoming context extended with `httpResponse: {status, statusText, data}`;
- the **manual-trigger executor**, which hands the context back through the
  single step `mannual-trigger`;
- the **executor registry**, a constant table from node type to executor
  (MANUAL_TRIGGER and INITIAL to the trigger, HTTP_REQUEST to the HTTP
  executor) and a lookup that throws on a missing entry;
- the **node-status hook**, which holds a node's status (initially "initial")
  and on every batch of realtime messages adopts the status of the newest data
  message for that node on its channel and topic;
- **deleting a trigger node** on the canvas, which drops the node and every edge
  touching it;
- the **debounced search box** of the list pages, a state machine over the
  box's text, the URL parameters and one pending timer;
- the HTTP node's **description line**, the sidebar's **active-item** and
  **upgrade-item** rules, and the list header's **action-button** choice.

Modules: `Wrappers` (Option, Result), `Seqs` (order-preserving filter and its
facts), `Strings` (substring test, ASCII lower-casing), `ExecutionTypes`,
`HttpRequestExecutor`, `ManualTriggerExecutor`, `ExecutorRegistry`,
`HttpRequestNode`, `NodeStatus`, `BaseTriggerNode`, `EntitySearch`,
`AppSidebar`, `EntityComponent`.

The network call, `response.json()` and the step runner are not modelled
code: the network and the JSON parser are function parameters (`Fetch`,
`ParseJson`) that return a value or the message of the error they throw, and
`step.run(name, work)` is the result of `work`, recorded in the outcome's list
of step names. Every request the executor sends is recorded too, so "before any
request" can be stated. Timestamps are integers, and the debounce timer is an
explicit `Fire` event.

## Model

| member | source | states |
|---|---|---|
| ManualTriggerExecutor.Execute | src/features/trigger/components/manualTrigger/executor.ts:5-13 | the trigger yields exactly the context it was given, runs exactly one step, named "mannual-trigger", and sends no request |
| ManualTriggerExecutor.IgnoresDataAndNodeId | src/features/trigger/components/manualTrigger/executor.ts:5-10 | two invocations with the same context have the same outcome whatever their node data and node id |
| ManualTriggerExecutor.Idempotent | src/features/trigger/components/manualTrigger/executor.ts:10-12 | the trigger never fails, and running it on its own output gives the same context again |
| HttpRequestExecutor.EffectiveMethod | src/features/executions/components/httpRequest/executor.ts:24 | an unset method becomes GET; a set one is used as configured |
| HttpRequestExecutor.BuildRequest | src/features/executions/components/httpRequest/executor.ts:23-30 | the request goes to the configured endpoint with the effective method; it carries a body only for POST, PUT and PATCH, and for those it is the configured body (possibly absent); nothing is templated or validated |
| HttpRequestExecutor.IsJsonIffMediaTypeOccurs | src/features/executions/components/httpRequest/executor.ts:33-34 | the response is treated as JSON exactly when a content-type header is present and "application/json" occurs somewhere in it |
| HttpRequestExecutor.ResponseData | src/features/executions/components/httpRequest/executor.ts:33-36 | a JSON content type yields the parser's result (value or error); any other content type, or none, yields the raw body as text |
| HttpRequestExecutor.TextResponses | src/features/executions/components/httpRequest/executor.ts:33-36 | a missing header or a text/plain header keeps the body as text without consulting the JSON parser |
| HttpRequestExecutor.ResponseRecord | src/features/executions/components/httpRequest/executor.ts:40-44 | the stored record has exactly the fields status, statusText and data, taken from the response and its decoded body |
| HttpRequestExecutor.MergeResponse | src/features/executions/components/httpRequest/executor.ts:38-45 | the new context's keys are the old keys plus httpResponse; httpResponse holds the record, replacing any earlier one; every other key keeps its value |
| HttpRequestExecutor.Execute | src/features/executions/components/httpRequest/executor.ts:11-49 | a missing or empty endpoint throws the non-retriable "HTTP request node: No endpoint configured" with no step run and no request sent; otherwise exactly one step, "http-request", runs and exactly one request is sent; a network or JSON failure surfaces as a plain error; a configured node whose request and decoding both succeed always yields a context, and a success context gains exactly httpResponse, built from the response, and keeps every other key |
| HttpRequestExecutor.JsonGetFromEmptyContext | src/features/executions/components/httpRequest/executor.ts:86-177 | the worked example: a GET to a JSON endpoint from an empty context returns a context whose only key is httpResponse, holding status 200, "OK" and the parsed body |
| HttpRequestExecutor.IgnoresNodeId | src/features/executions/components/httpRequest/executor.ts:11-16 | the node id plays no part in the outcome |
| Strings.IncludesIffOccurs | src/features/executions/components/httpRequest/executor.ts:34 | the left-to-right scan behind `includes` answers true exactly when the searched text occurs at some position |
| ExecutorRegistry.GetExecutor | src/features/executions/lib/executorRegistory.tsx:13-19 | a registered type yields its registry entry unchanged; any other type throws a plain error "No executor found for node type:" followed by the type; the lookup succeeds exactly for MANUAL_TRIGGER, HTTP_REQUEST and INITIAL |
| ExecutorRegistry.RegisteredTypes | src/features/executions/lib/executorRegistory.tsx:6-11 | MANUAL_TRIGGER and INITIAL resolve to the manual trigger, HTTP_REQUEST to the HTTP executor |
| HttpRequestNode.Description | src/features/executions/components/httpRequest/node.tsx:21 | "Not configured" without an endpoint; otherwise the method (GET when unset), a colon and the endpoint; never empty |
| HttpRequestNode.DescriptionMatchesExecutor | src/features/executions/components/httpRequest/node.tsx:21 | the node reads "Not configured" exactly when its executor throws the no-endpoint error, and otherwise names the method and URL of the request the executor sends |
| NodeStatus.Matching | src/features/executions/hooks/use-node-status.ts:31-38 | only data messages on the hook's channel and topic and for its node are kept |
| NodeStatus.FirstNewest | src/features/executions/hooks/use-node-status.ts:39-46 | an empty list has no newest message; otherwise the chosen position holds the greatest timestamp and every earlier message is strictly older |
| NodeStatus.FirstNewestUnique | src/features/executions/hooks/use-node-status.ts:39-46 | at most one position satisfies that description, so the choice is determined |
| NodeStatus.SortNewestFirst | src/features/executions/hooks/use-node-status.ts:39-46 | the descending sort by timestamp is a permutation of the messages ordered newest first |
| NodeStatus.HeadOfSortIsFirstNewest | src/features/executions/hooks/use-node-status.ts:39-46 | the first element of the stable newest-first sort is the first newest message |
| NodeStatus.Selected | src/features/executions/hooks/use-node-status.ts:31-46 | no message is selected exactly when none in the batch matches; a selected one matches, comes from the batch and is at least as new as every matching message |
| NodeStatus.SelectedIsHeadOfSortedMatches | src/features/executions/hooks/use-node-status.ts:31-46 | the selected message is element 0 of the matching messages sorted newest first, as the hook computes it |
| NodeStatus.StatusAfter | src/features/executions/hooks/use-node-status.ts:26-50 | an absent or empty batch, or one with no matching message, leaves the status as it was; otherwise the status becomes the selected message's |
| NodeStatus.NonMatchingIgnored | src/features/executions/hooks/use-node-status.ts:32-38 | inserting a message the hook does not listen to anywhere in a batch changes neither the selection nor the resulting status |
| NodeStatus.MatchingSkipsNonMatching | src/features/executions/hooks/use-node-status.ts:32-38 | such a message never reaches the filtered list |
| NodeStatus.NodeStatusHook.constructor | src/features/executions/hooks/use-node-status.ts:19 | the status starts as "initial" |
| NodeStatus.NodeStatusHook.OnData | src/features/executions/hooks/use-node-status.ts:26-51 | each batch moves the stored status to the status determined by the batch and the previous status |
| BaseTriggerNode.Delete | src/features/trigger/components/baseTriggerNode.tsx:34-48 | no node with the id and no edge from or to it remains; every other node and every other edge is still there |
| BaseTriggerNode.DeleteKeepsOrder | src/features/trigger/components/baseTriggerNode.tsx:36-44 | the remaining nodes and edges are subsequences of the originals (relative order kept), each kept element as often as before and each removed one not at all |
| BaseTriggerNode.DeleteIdempotent | src/features/trigger/components/baseTriggerNode.tsx:34-48 | deleting the same id twice gives the same graph as deleting it once |
| BaseTriggerNode.DeleteAbsent | src/features/trigger/components/baseTriggerNode.tsx:36-44 | deleting an id that no node has and no edge touches leaves both lists unchanged |
| EntitySearch.ClearPush | src/hooks/use-entity-search.tsx:26-32 | an immediate push happens exactly when the box is empty and the URL still has a search; it clears the search, resets the page and keeps the other parameters |
| EntitySearch.TimerPush | src/hooks/use-entity-search.tsx:35-43 | the timer pushes exactly when the box differs from the URL's search; the push carries the box's text, resets the page and keeps the other parameters |
| EntitySearch.PushesSettle | src/hooks/use-entity-search.tsx:26-43 | once a push comes back as the new parameters, neither rule pushes again |
| EntitySearch.SearchBox.constructor | src/hooks/use-entity-search.tsx:23 | the box starts with the URL's search text, nothing pushed, a timer armed |
| EntitySearch.SearchBox.RunSearchEffect | src/hooks/use-entity-search.tsx:25-46 | the pending timer is replaced: either the clear is pushed at once and no timer remains, or a single new timer is armed |
| EntitySearch.SearchBox.OnSearchChange | src/hooks/use-entity-search.tsx:45-54 | typing sets the box and cancels the pending timer; clearing the box pushes at once, any other new text re-arms the timer; retyping the same text changes nothing |
| EntitySearch.SearchBox.Fire | src/hooks/use-entity-search.tsx:35-43 | a firing timer pushes the box's text if it differs from the URL's and nothing otherwise; no timer remains |
| EntitySearch.SearchBox.OnParamsChange | src/hooks/use-entity-search.tsx:25-50 | new parameters are stored; a changed search text is copied into the box; the only possible push is the clear decided from the box's previous text; afterwards a timer is pending exactly when the box holds no clear to push, so a delivery that pushes nothing re-arms it |
| EntitySearch.ExternalSearchWhileEmpty | src/hooks/use-entity-search.tsx:25-50 | with an empty box, parameters arriving with a search make the hook push a clear even though the box then shows the new search |
| EntitySearch.PageChangeWhileTyping | src/hooks/use-entity-search.tsx:25-50 | a page change that arrives while typed text is still unpushed re-arms the timer, and its firing pushes the typed text with the first page, undoing the page change |
| AppSidebar.IsActive | src/components/appSidebar.tsx:94-98 | the home url is active only on "/" itself; any other url is active exactly when the path starts with it |
| AppSidebar.PrefixIsNotSegmentAware | src/components/appSidebar.tsx:97 | "/workflowsX" activates the "/workflows" item, "/workflow" does not |
| AppSidebar.ListedItemsArePrefixMatched | src/components/appSidebar.tsx:30-51 | no listed item is the home url, so each is active exactly when its url is a prefix of the path |
| AppSidebar.AtMostOneActive | src/components/appSidebar.tsx:88-98 | for every path at most one listed item is highlighted |
| AppSidebar.ShowUpgrade | src/components/appSidebar.tsx:117 | the upgrade item shows exactly when the user is not known to have an active subscription and the query is not loading |
| AppSidebar.UpgradeHiddenFromSubscribersAndWhileLoading | src/components/appSidebar.tsx:117 | the upgrade item never shows while loading or to a subscriber |
| EntityComponent.RenderActionButton | src/components/entity-component.tsx:29-71 | a callback button exactly when onNew is given and no non-empty href; a link button exactly when a non-empty href is given and no onNew; no button otherwise; the callback button is disabled exactly when creating or disabled, shows "Creating..." exactly when creating and the label otherwise; the aria-labels are "Create new " or "Navigate to create " followed by the lower-cased label |
| EntityComponent.RenderHeader | src/components/entity-component.tsx:73-89 | the title is shown, the description paragraph only for a non-empty description, and the action button as chosen above |
| EntityComponent.AriaLabelIsLowerCase | src/components/entity-component.tsx:37-59 | after its fixed prefix an aria-label contains no upper-case letter |
| EntityComponent.WorkflowsHeader | src/features/workflows/components/workflows.tsx:73-80 | the workflows page gets a callback button "New Workflows" with aria-label "Create new new workflows", disabled while creating or when disabled |

## Left out

- The orchestrator (`src/inngest/functions.ts`) and the topological sort it
  calls: `src/inngest/utils` is not part of this model, and the orchestrator
  shown stops after sorting, with no executor loop, context threading or
  status publishing.
- Step checkpointing and retries, and what `NonRetriableError` means to the
  job runner: a step is its work's result, an error is a tagged failure.
- Status publishing and realtime channels and tokens: neither executor
  publishes anything, so the publish function is not a parameter.
- The network client's own behaviour (redirects, throwing on non-2xx
  statuses, timeouts) and JSON parsing: both are oracles passed in.
- Context values are restricted to JSON-like values; functions, dates and
  other JavaScript objects are not modelled. JSON numbers are reals, so
  floating-point rounding, NaN and infinities are not modelled.
- `Strings.ToLower`: lower-cases ASCII letters only; JavaScript's full Unicode
  case mapping is not modelled.
- `ExecutorRegistry.GetExecutor`: the registry is a plain table, so inherited
  object properties such as `toString`, which a JavaScript record lookup
  would find, are not modelled; the typed source never passes such a key.
- `NodeStatus.Message`: the status in a message is already one of the four
  statuses; the source casts an unchecked string. Dates are integers, so
  unparsable dates (NaN comparisons) are not modelled.
- `EntitySearch`: the debounce delay is not modelled (the timer is the `Fire`
  event), each parameters delivery is treated as a new object (the effect's
  dependency is object identity), and React's batching of renders is not
  modelled beyond running the two effects in declaration order.
  `PAGINATION.DEFAULT_PAGE` is defined in `src/config/constant.ts`, which is
  not part of this model; it is taken to be 1.
- `baseExecutionNode.tsx`'s delete handler is an empty function and is not
  modelled; React Flow's change application, rendering and layout, dialogs,
  persistence, the API, authentication and billing are outside the model.
- The HTTP executor validates only the endpoint, renders no templates, stores
  its result under the fixed key `httpResponse` and publishes no status; a
  missing registry entry throws a plain `Error`.
