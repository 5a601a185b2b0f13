# InvestIQ conversation workflow — a Dafny model

InvestIQ is a financial-assistant chat service. A LangGraph `StateGraph` drives each user
turn through its nodes:

- `formulate_query` adds the raw input to the history.
- `agent` calls the tool-capable chat model.
- `tools` runs the requested tools.
- `delete_messages` prunes tool results and empty AI messages.
- `summarize_conversation` condenses a long history into a summary and keeps only the last two
  messages.

The tools fetch stock data, single-stock indicators and news documents. A small exception
hierarchy supplies the user-facing error texts.

The model has six modules:

- `Wrappers` (wrappers.dfy) holds `Option` and `Result`.
- `Messages` (messages.dfy) holds chat messages and the message reducer `add_messages`. The
  framework provides the reducer, so the model treats it as an assumption. `Add` appends a message
  and gives an id-less message a fresh id. `RemoveMessage(id)` drops the message with that id.
  `Stored` says all ids are present and distinct.
- `GraphState` (graph_state.dfy) holds the state `input` / `messages` / `summary`. It also holds
  the update a node returns and how that update is merged.
- `Nodes` (nodes.dfy) holds the node and router functions, all pure. Every language-model call is
  a function-typed parameter.
- `Workflow` (workflow.dfy) covers the graph:
  - the imperative builder: a `StateGraph` class and `BuildWorkflow`, which makes the source's
    `add_node` / `add_edge` / `add_conditional_edges` calls;
  - the transition relation `Successors`;
  - a run of one user turn (`Run`, `Invoke`) over a `Graph`: the node functions, the routers, and the
    merge of updates into the state;
  - per-node obligations (`KeepsStored`, `NeverRaises`, `Prunes`, `Summarizes`,
    `AlwaysCallsTools`), proved once for the workflow's nodes. The run lemmas use them.
- `Tools` (tools.dfy) covers the tools:
  - `retrieve_stocks_data` and `retrieve_news_data` are methods with the source's loops;
  - the single-stock indicators and the metadata filter are functions.
- `FinanceErrors` (finance_errors.dfy) holds the exception classes, their default messages and
  their `chat_message`.

A few points where the model makes a choice:

- `formulate_query` returns a `formatted_query` key, but `GraphState` declares no such key, so the
  merge drops it. The model keeps the key on the update and `Apply` ignores it.
  `Nodes.FormulateAppendsInput` shows that the state after the node does not depend on the
  formulation model's answer.
- `should_use_tools` reads `messages[-1].tool_calls`. On an empty history that is an `IndexError`;
  on a non-AI last message it is an `AttributeError`. The model returns these as errors.
  `Workflow.TurnNeverFails` proves that neither can happen in a turn.
- The graph itself does not bound the agent/tools cycle. A run is therefore given `fuel` steps,
  which stands in for the framework's step limit. `Workflow.ToolLoopUnbounded` shows that a
  model that always requests a tool exhausts any budget.

## Model

| member | source | states |
|---|---|---|
| Messages.FreshId | app/graph/graph_state.py:9 | the id the reducer assigns to an id-less message is used by no message of the history |
| Messages.Without | app/graph/graph_state.py:9 | removal by id keeps exactly the messages whose id is not removed, and no more of them |
| Messages.ApplyEntry | app/graph/graph_state.py:9 | an added message is appended after the unchanged history, with its kind and content, under its own id or a new one; a removal keeps exactly the messages with another id |
| Messages.AddMessages | app/graph/graph_state.py:9 | the reducer adds at most one message per entry; an update of removals only never grows the history and introduces no message |
| Messages.Removals | app/graph/nodes.py:60-61 | one `RemoveMessage` per given message, in order, each with that message's id |
| Messages.ApplyRemovals | app/graph/graph_state.py:9 | merging the removal markers of a list of messages equals removing that list's ids |
| Messages.WithoutTwice | app/graph/graph_state.py:9 | two removals in sequence equal one removal of the union of ids |
| Messages.WithoutPrefix | app/graph/nodes.py:90-91 | in a stored history, removing the ids of a prefix leaves exactly the rest |
| Messages.StoredPreserved | app/graph/graph_state.py:9 | merging id-less additions and removals keeps all ids present and distinct |
| Messages.StoredWithout | app/graph/graph_state.py:9 | removal keeps a stored history stored |
| Messages.AppendOne | app/graph/graph_state.py:9 | adding one id-less message appends it under a fresh id |
| GraphState.ApplyNoUpdate | app/graph/graph_state.py:7-10 | merging an empty update leaves the state unchanged |
| Nodes.Prompt | app/graph/nodes.py:27-41 | the prompt is the instructions, then the summary note exactly when a summary exists, then the history unchanged |
| Nodes.CallModel | app/graph/nodes.py:24-44 | the agent's update holds exactly one id-less AI message: the model's answer to the prompt, with its tool calls |
| Nodes.CallModelAppendsReply | app/graph/nodes.py:43-44 | merged, the agent's answer is appended under a fresh id and the history stays stored |
| Nodes.ShouldUseTools | app/graph/nodes.py:47-52 | routes to "tools" iff the last message is an AI message with tool calls, to "delete_messages" iff it is one without; IndexError iff there is no message, AttributeError iff the last is not an AI message |
| Nodes.ToolNode | app/graph/nodes.py:13-22 | the tool node succeeds iff the last message is an AI message, and answers each of its tool calls, in order, with a Tool message for that call id |
| Nodes.Transients | app/graph/nodes.py:58-61 | selects exactly the tool messages and the AI messages with empty content |
| Nodes.Keep | app/graph/nodes.py:58-61 | selects exactly the messages that are not transient |
| Nodes.RemoveMessages | app/graph/nodes.py:55-64 | one removal marker per transient message, in history order, and nothing else |
| Nodes.PruneApplied | app/graph/nodes.py:55-64 | merged into a stored history, pruning leaves exactly the non-transient messages in order, none transient, still stored |
| Nodes.NothingToPrune | app/graph/nodes.py:55-64 | the pruning node returns the empty update exactly when no message is transient, and merging it then leaves the state unchanged |
| Nodes.ShouldSummarize | app/graph/nodes.py:100-107 | "summarize_conversation" iff more than four messages, otherwise END |
| Nodes.SummaryInstruction | app/graph/nodes.py:74-82 | the "extend" instruction framing the prior summary iff a summary exists, otherwise the "create" instruction |
| Nodes.AllButLastTwo | app/graph/nodes.py:90-91 | `messages[:-2]`: the prefix of all but the last two messages, empty for two or fewer |
| Nodes.LastTwo | app/graph/nodes.py:89-91 | the last two messages (all of them when fewer), completing `AllButLastTwo` to the whole history |
| Nodes.SummarizeConversation | app/graph/nodes.py:67-97 | the new summary is the summarizer's answer to the history plus the instruction; every message but the last two is marked for removal |
| Nodes.SummarizeApplied | app/graph/nodes.py:89-97 | merged into a stored history, summarization keeps exactly the last two messages and replaces the summary |
| Nodes.FormulateQuery | app/graph/nodes.py:110-139 | the standalone query is the raw input when there is no history, otherwise the model's answer; one Human message with the raw input is added; the summary is written back |
| Nodes.FormulateAppendsInput | app/graph/nodes.py:135-139 | merged, only the raw input is appended, and the state is the same whatever the formulation model answers |
| Workflow.NamesDistinct | app/graph/workflow.py:11-15 | different nodes are registered under different names |
| Workflow.Successors | app/graph/workflow.py:17-23 | no edge leads back to START; each node has at most two successors; only the pruning node leads to END; summarization and END have none |
| Workflow.StateGraph.constructor | app/graph/workflow.py:10 | a new builder has no node, edge or conditional edge |
| Workflow.StateGraph.AddNode | app/graph/workflow.py:11-15 | registers one name and changes nothing else |
| Workflow.StateGraph.AddEdge | app/graph/workflow.py:17-18 | adds one edge and changes nothing else |
| Workflow.StateGraph.AddConditionalEdges | app/graph/workflow.py:19-23 | records a node's router targets and changes nothing else |
| Workflow.BuildWorkflow | app/graph/workflow.py:10-23 | the builder ends with exactly the workflow's node names, edges and conditional edges |
| Workflow.BuiltGraphIsSuccessors | app/graph/workflow.py:10-23 | every node but START and END is registered; an edge or router target from a to b exists iff b is a successor of a |
| Workflow.Branch | app/graph/workflow.py:19-23 | a router's answer selects the target with that name, and fails iff no target has it |
| Workflow.Transition | app/graph/workflow.py:17-23 | only the agent (through its router), the tool node and the pruning node can fail; START and END leave the state as it is; no step enters START; END is reached only from the pruning node, summarization or END itself |
| Workflow.TransitionFollowsEdges | app/graph/workflow.py:17-23 | every step follows an edge; only the summarization node and END lead to the end without a router; the agent and the pruning node go where their routers' answers name |
| Workflow.Run | app/graph/workflow.py:25 | a run's trace starts with the node it was started on |
| Workflow.Invoke | app/streamlit_app.py:87 | a turn runs from START on the saved state with the new input, and a turn that does not raise ends holding that input |
| Workflow.RunKeepsInput | app/graph/graph_state.py:7-10 | when the merge never writes the input, a run that does not raise ends with the input it started with |
| Workflow.WorkflowKeepsStored | app/graph/workflow.py:11-14 | the workflow's formulation, agent and tool nodes keep the history stored |
| Workflow.WorkflowNeverRaises | app/graph/nodes.py:47-52 | the agent leaves an AI message last, `should_use_tools` then names one of its targets, the tool node then succeeds, `should_summarize` names one of its targets |
| Workflow.WorkflowAlwaysCallsTools | app/graph/workflow.py:19-21 | against a model that always requests a tool, every agent step asks for one and is routed to the tools |
| Workflow.WorkflowPrunes | app/graph/workflow.py:22-23 | pruning leaves a stored history with no transient message, and END is chosen only for at most four messages |
| Workflow.WorkflowSummarizes | app/graph/nodes.py:89-97 | summarizing a stored pruned history leaves at most two messages, still stored and pruned |
| Workflow.PathPrepend | app/graph/workflow.py:17-23 | a path preceded by a predecessor of its first node is a path |
| Workflow.RunFollowsEdges | app/graph/workflow.py:17-23 | every run of any graph visits a path of the transition relation |
| Workflow.TransitionNeverFails | app/graph/workflow.py:19-23 | under `NeverRaises`, every step succeeds and reaches the tool node only with an AI message last |
| Workflow.RunNeverFails | app/graph/workflow.py:19-23 | under `NeverRaises`, no run raises |
| Workflow.TransitionKeepsPruned | app/graph/workflow.py:22-23 | a step keeps the history stored, reaches summarization only pruned, and ends only pruned with at most four messages |
| Workflow.RunEndsPruned | app/graph/workflow.py:22-23 | a finished run leaves a stored pruned history of at most four messages |
| Workflow.RunEndsAfterPruning | app/graph/workflow.py:22-23 | a finished run's last node is the pruning or the summarization node |
| Workflow.RunNeverFinishes | app/graph/workflow.py:19-21 | when the agent always requests tools, a run from before the agent never finishes |
| Workflow.TurnFollowsGraph | app/graph/workflow.py:17-18 | a turn starts START, formulate_query, agent (given two steps) and follows the edges throughout |
| Workflow.TurnNeverFails | app/graph/nodes.py:47-52 | no turn raises an IndexError, an AttributeError, a tool-node error or an unknown route |
| Workflow.FinishedTurnIsPruned | app/graph/workflow.py:22-23 | a finished turn leaves no tool result and no empty AI message, at most four messages, and ends after pruning or summarizing |
| Workflow.ToolLoopUnbounded | app/graph/workflow.py:19-21 | against a model that always requests a tool, a turn never finishes, whatever the step budget |
| Tools.CodesDistinct | app/graph/tools.py:14 | the eleven periods have distinct provider codes and the default is "1mo" |
| Tools.EssentialInfo | app/graph/tools.py:37-48 | the projection has exactly the ten essential keys, each holding the provider's value or None |
| Tools.EssentialInfoHasTenKeys | app/graph/tools.py:37-48 | the projection has ten entries |
| Tools.Fetch | app/graph/tools.py:30-51 | one symbol: "Invalid stock symbol" iff the history is empty; "Error generating stock summary: <text>" iff the summarizer fails with that text; otherwise the summary and the essential info |
| Tools.FetchErrorsDistinct | app/graph/tools.py:33-34 | a per-symbol failure says "Invalid stock symbol" exactly when the history was empty |
| Tools.FetchSymbol | app/graph/tools.py:30-51 | the loop body computes exactly `Fetch` for its symbol |
| Tools.RetrieveStocksData | app/graph/tools.py:26-54 | "No stock symbols were found" iff no symbol, before any fetch; otherwise it fails with the first symbol's failure (empty history or failed summary), after fetching exactly the symbols up to it; on success the keys are the input symbols, each with its summary and essential info |
| Tools.Lowest | app/graph/tools.py:104 | the result is an element and at most every element |
| Tools.Highest | app/graph/tools.py:105 | the result is an element and at least every element |
| Tools.RetrieveStockIndicators | app/graph/tools.py:86-120 | "No stock symbol provided." iff the symbol is empty; "Invalid stock symbol: <symbol>" iff the history is empty; otherwise "bullish", "increasing", "positive" each iff its strict comparison holds, the second label otherwise |
| Tools.SupportAndResistance | app/graph/tools.py:104-105 | support is the lowest Low and resistance the highest High of the history |
| Tools.ClosesWithinRange | app/graph/tools.py:104-105 | on well-formed bars, support is at most resistance and every close lies between them |
| Tools.UndefinedGivesSecondLabel | app/graph/tools.py:103-109 | an undefined (NaN) average gives "bearish", "decreasing" or "negative" |
| Tools.NewsSearch | app/graph/tools.py:213-216 | the news query is a maximal-marginal-relevance search with k = 4 and fetch_k = 10 |
| Tools.WithoutEmbedding | app/graph/tools.py:224-225 | the metadata keys without "embedding", every other value unchanged |
| Tools.WithoutEmbeddingIdempotent | app/graph/tools.py:224-225 | filtering twice equals filtering once; metadata without an embedding is unchanged |
| Tools.RetrieveNewsData | app/graph/tools.py:208-239 | any retrieval failure gives []; otherwise one document per retrieved document, in order, same content, metadata without "embedding" |
| FinanceErrors.NewMissingStockSymbol | app/graph/errors/finance_exceptions.py:10-11 | the given message, or the default missing-symbol message |
| FinanceErrors.NewInsufficientStockSymbols | app/graph/errors/finance_exceptions.py:22-23 | the given message, or the default two-symbols message |
| FinanceErrors.NewInvalidStockSymbol | app/graph/errors/finance_exceptions.py:34-41 | the symbol is stored; a given message is kept; otherwise "Invalid stock symbol: <symbol>" iff the symbol is truthy, else "Invalid stock symbol provided." |
| FinanceErrors.ChatMessage | app/graph/errors/finance_exceptions.py:4-55 | a non-empty text for every error: each class's fixed text; for an invalid symbol that is truthy, the fixed lead-in, the symbol in bold, then the fixed closing; otherwise the symbol-less text |
| FinanceErrors.ChatIgnoresMessage | app/graph/errors/finance_exceptions.py:4-6 | the chat message never depends on the message text; the base error gives the fixed generic text |
| FinanceErrors.InvalidChatNamesSymbol | app/graph/errors/finance_exceptions.py:43-55 | a truthy symbol appears in bold in the chat message; otherwise the chat message is the fixed symbol-less text |
| FinanceErrors.InvalidChatIdentifiesSymbol | app/graph/errors/finance_exceptions.py:44-50 | two truthy symbols give the same chat message only if they are equal |
| FinanceErrors.InvalidMessageMatchesTool | app/graph/errors/finance_exceptions.py:36-37 | the default message for a non-empty symbol is the one the indicators tool raises for it |

## Left out

- Language models, chains and prompts (`chains.py`, `ChatGroq`) are function parameters whose answers the model does not interpret. `print` and `logging` calls are not modelled.
- `Messages`: the real `add_messages` reducer is framework code. It replaces a message that arrives with an existing id and raises on removing an unknown id; neither behaviour is modelled. Provider-assigned message ids are treated as absent, so the reducer assigns them.
- `Nodes.ToolNode`: the framework's tool node is modelled as one result message per tool call. The tool's own answer, or the error text it reports, is the `execute` parameter. Dispatching a call to the three tool functions below is not modelled.
- `Workflow.Run`: the fuel bound stands in for the framework's recursion limit. What the framework does when the limit is reached (an exception) is the `OutOfSteps` outcome.
- `Workflow.Invoke`: the `MemorySaver` checkpointer is the `saved` state passed in. Threads, streaming and the Streamlit front end are not modelled.
- Tools: the pandas numerics (SMA windows, `calculate_rsi`, `pct_change` means) are the `signals` parameter, with NaN as `None`.
- Tools: `summarize_stock_data` (rounding, standard deviation, date formatting) is the `summarize` parameter. It returns either a summary or the text of the exception it caught, which `Fetch` wraps as "Error generating stock summary: <text>".
- Tools: the market-data provider and the vector store are parameters. Network errors inside `retrieve_stocks_data` and `retreive_stock_indicators_for_single_stock` are not modelled.
- Tools.Lowest: NaN entries in the Low / High columns, which pandas skips, are not modelled. Bars hold plain reals.
- Tools.RetrieveStocksData: Python dict insertion order is not modelled, because the result is a map.
- FinanceErrors: a caller passing `message=None` explicitly to `MissingStockSymbolError` or `InsufficientStockSymbolsError` is not distinguished from omitting it.
- FinanceErrors: a symbol of a type other than string is not modelled.
- FinanceErrors: `str(e)` and the other `Exception` machinery are not modelled.
- The commented-out `extract_context` node is not part of this model.
