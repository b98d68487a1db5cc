# Agentic workflows: a verified model of the agent graph and the conversation manager

This project models the two parts of the agentic-workflows tutorial that carry
logic of their own, and proves what they promise.

- **The three-node agent workflow** (`src/example_3_agent_langgraph.py`),
  module `AgentGraph`. The shared `AgentState` record holds five strings. It is
  threaded through three nodes. The orchestrator classifies the query into
  `technical`, `greeting` or `general`. The analyzer writes an analysis and is
  reached only for technical queries. The responder writes the final answer.
  Each node is a pure function that returns a copy of the state with only its
  own fields replaced. The graph wiring is the function `Successor`:
  orchestrator to analyzer or responder by the routing label in `nextStep`,
  analyzer to responder, responder to the end. `Run` follows that wiring under
  a step limit, and `RunQuery` runs it from the state built for a query.
  The language model is a parameter `llm: Prompt -> string`. `Prompt` is a
  datatype that records which prompt template a node used and which values it
  embeds; the wording of the templates is not modelled.
- **The Python string operations the nodes apply to replies**
  (`str.strip()`, `str.lower()`), module `Text`, over ASCII.
- **`ConversationManager`** (`src/example_2_conversation.py`), module
  `Conversation`. It is a class whose `messages: seq<Message>` field is
  reassigned by its methods. The chat backend is a parameter
  `chat: (string, seq<Message>) -> string`, so the contracts can say which
  history the model was sent. The pure function `Converse` gives the history
  after any number of turns, and the lemmas about it give the length
  arithmetic and what clearing keeps.

What is proved, in short:

- A classification is always one of the three labels. It ignores letter case
  and surrounding whitespace, and any other reply becomes `general`.
- Each node changes only its own fields.
- The orchestrator routes to the analyzer exactly for technical queries.
- From any node and any state, a run ends within three node invocations, and
  the step limit does not change its outcome once it is at least three.
- A technical query visits orchestrator, analyzer, responder. Any other query
  visits orchestrator, responder. In that case `analysis` stays empty and the
  responder uses the prompt without analysis.
- The conversation history grows by a user and an assistant message per turn.
  The model is sent the history ending with the new user message. Clearing
  keeps exactly the system messages, in order, and is idempotent.

How a run ends:

- The run does not stop when a node writes `"end"` into `nextStep`. It stops
  because the responder's outgoing edge is a static edge to the end. Likewise
  the analyzer's `nextStep` is written but never read. Only the orchestrator's
  `nextStep` is routed on, through the label table `{"analyzer", "responder"}`.
- The code sets no step limit of its own; the graph library's default
  recursion limit (25) applies. `RunEndsWithinHeight` shows that any limit of
  at least 3 gives the same outcome.

## Model

| member | source | states |
|---|---|---|
| `Text.LStripSpec` | src/example_3_agent_langgraph.py:61 | What `lstrip()` returns is a suffix of its input, everything it drops is whitespace, and the result does not start with whitespace. |
| `Text.RStripSpec` | src/example_3_agent_langgraph.py:61 | What `rstrip()` returns is a prefix of its input, everything it drops is whitespace, and the result does not end with whitespace. |
| `Text.Strip` | src/example_3_agent_langgraph.py:61 | What `strip()` returns neither starts nor ends with whitespace. |
| `Text.StripIsSlice` | src/example_3_agent_langgraph.py:61 | What `strip()` returns is a slice of its input with only whitespace before and after it. |
| `Text.StripIgnoresPadding` | src/example_3_agent_langgraph.py:61 | Adding whitespace before and after a string does not change what `strip()` returns. |
| `Text.StripTrimmed` | src/example_3_agent_langgraph.py:108 | `strip()` leaves a string with no whitespace at either end unchanged, so stripping is idempotent. |
| `Text.LowerChar` | src/example_3_agent_langgraph.py:61 | A lowered character is never an upper-case letter and is whitespace exactly when the original is. |
| `Text.Lower` | src/example_3_agent_langgraph.py:61 | `lower()` keeps the length, lowers each character on its own, and leaves no upper-case letter. |
| `Text.LowerOfLower` | src/example_3_agent_langgraph.py:61 | A string without upper-case letters is its own lower-case form, so `lower()` is idempotent. |
| `Text.LStripSpacePrefix` | src/example_3_agent_langgraph.py:61 | `lstrip()` ignores a leading run of whitespace. |
| `Text.RStripSpaceSuffix` | src/example_3_agent_langgraph.py:61 | `rstrip()` ignores a trailing run of whitespace. |
| `Text.LStripAppend` | src/example_3_agent_langgraph.py:61 | When `lstrip()` of a string is non-empty, it commutes with appending text after the string. |
| `Text.LStripAllSpace` | src/example_3_agent_langgraph.py:61 | `lstrip()` of an all-whitespace string is empty. |
| `Text.LStripLower` | src/example_3_agent_langgraph.py:61 | `lstrip()` and `lower()` commute. |
| `Text.RStripLower` | src/example_3_agent_langgraph.py:61 | `rstrip()` and `lower()` commute. |
| `Text.StripLower` | src/example_3_agent_langgraph.py:61 | `strip()` and `lower()` commute, so stripping before or after lowering gives the same text. |
| `AgentGraph.Classify` | src/example_3_agent_langgraph.py:61-65 | The normalised classification is always `technical`, `greeting` or `general`. |
| `AgentGraph.ClassifyNormalForm` | src/example_3_agent_langgraph.py:61-65 | The category is the stripped, lower-cased reply when that is one of the three labels, and `general` for any other reply. |
| `AgentGraph.SameNormalFormSameCategory` | src/example_3_agent_langgraph.py:61-65 | Two replies with the same stripped, lower-cased form get the same category. |
| `AgentGraph.ClassifyIgnoresCaseAndPadding` | src/example_3_agent_langgraph.py:61 | Replies that differ only in letter case and surrounding whitespace get the same category. |
| `AgentGraph.LabelIsItsOwnCategory` | src/example_3_agent_langgraph.py:61-65 | Each of the three labels is classified as itself. |
| `AgentGraph.PaddedLabelInAnyCase` | src/example_3_agent_langgraph.py:61-65 | A label written in any letter case, with any whitespace around it, is recognised as that label. |
| `AgentGraph.PaddedCapitalisedTechnical` | src/example_3_agent_langgraph.py:61-65 | The reply `"  Technical\n"` is classified as `technical`. |
| `AgentGraph.UnrecognisedReplyIsGeneral` | src/example_3_agent_langgraph.py:63-65 | The reply `"maybe"` falls back to `general`. |
| `AgentGraph.ResponsePrompt` | src/example_3_agent_langgraph.py:129-144 | The response prompt embeds the analysis if and only if the analysis is non-empty, and always embeds the user's query. |
| `AgentGraph.OrchestratorNode` | src/example_3_agent_langgraph.py:38-83 | The orchestrator sets a valid category from the model's reply and requests the analyzer exactly when it is `technical`, the responder otherwise; the query, analysis and final response carry over unchanged. |
| `AgentGraph.AnalyzerNode` | src/example_3_agent_langgraph.py:86-117 | The analyzer stores the stripped reply to the analysis prompt and requests the responder; the query, category and final response carry over unchanged. |
| `AgentGraph.ResponderNode` | src/example_3_agent_langgraph.py:120-156 | The responder stores the stripped reply to the response prompt and writes `end`; the query, category and analysis carry over unchanged. |
| `AgentGraph.InitialState` | src/example_3_agent_langgraph.py:209-215 | The state built for a query holds the query; its analysis and final response are empty, its query type is not yet a category, and its `nextStep` is no routing label until the orchestrator writes one. |
| `AgentGraph.OrchestratorRouteHasTarget` | src/example_3_agent_langgraph.py:159-163 | Whatever the model replies, the label `route_after_orchestrator` returns after the orchestrator is a key of the routing table of lines 182-189; it selects the analyzer exactly for a technical query and the responder otherwise. |
| `AgentGraph.Successor` | src/example_3_agent_langgraph.py:159-195 | Every edge of the wiring leads to a node of lower height, so the graph has no cycle. Routing fails exactly when the orchestrator's `nextStep` is neither `analyzer` nor `responder`, and it then reports that label. |
| `AgentGraph.Run` | src/example_3_agent_langgraph.py:182-195 | A finished run makes no more node invocations than the start node's height or the step limit, and it never invokes the end marker. |
| `AgentGraph.RunQuery` | src/example_3_agent_langgraph.py:201-220 | For every model and every query, running the graph on the initial state finishes: it starts at the orchestrator, makes two or three node invocations, the last at the responder, and the final state keeps the query and carries the end marker. |
| `AgentGraph.RunEndsWithinHeight` | src/example_3_agent_langgraph.py:182-195 | From any node and any state, a run with a limit of at least the node's height (at most 3) succeeds, and its outcome is the same for every such limit. |
| `AgentGraph.RunFromResponder` | src/example_3_agent_langgraph.py:195 | A run from the responder invokes only the responder and ends with its state. |
| `AgentGraph.RunFromAnalyzer` | src/example_3_agent_langgraph.py:192-195 | A run from the analyzer invokes the analyzer and then the responder, and ends. |
| `AgentGraph.RunFromOrchestrator` | src/example_3_agent_langgraph.py:179-195 | From any state, a technical classification leads to orchestrator, analyzer, responder; any other goes to orchestrator, responder; both end there. |
| `AgentGraph.TechnicalRun` | src/example_3_agent_langgraph.py:201-220 | A query classified technical visits orchestrator, analyzer and responder in that order, with the prompts each sent, and the final state holds the query, `technical`, the stripped analysis, the stripped answer and `end`. |
| `AgentGraph.NonTechnicalRun` | src/example_3_agent_langgraph.py:201-220 | Any other query visits only orchestrator and responder; `analysis` stays empty and the responder uses the prompt without analysis. |
| `AgentGraph.FallbackSkipsAnalyzer` | src/example_3_agent_langgraph.py:60-75 | A reply that normalises to no label yields `general`, and the analyzer is never invoked. |
| `AgentGraph.ExampleTechnicalRun` | src/example_3_agent_langgraph.py:209-218 | With a model answering `technical`, then `ANALYSIS`, then `RESPONSE`, the final state has that analysis and that response. |
| `Conversation.InitialHistory` | src/example_2_conversation.py:30-37 | The starting history meets the manager's invariant (only the first message may be a system message), clearing it changes nothing, and it holds exactly one message, the system prompt, when a non-empty prompt is given, and none otherwise. |
| `Conversation.SystemMessages` | src/example_2_conversation.py:86 | The filter keeps every copy of every system message and no other message: each message occurs in the result as often as in the history when it is a system message, and not at all otherwise. The result is a subsequence of the history, so the order is kept. |
| `Conversation.SystemMessagesAppend` | src/example_2_conversation.py:86 | Filtering a concatenation is concatenating the filtered parts, so each message is kept or dropped by its own role and order is preserved. |
| `Conversation.SystemMessagesIdempotent` | src/example_2_conversation.py:84-87 | Filtering twice gives the same as filtering once, so clearing is idempotent. |
| `Conversation.Converse` | src/example_2_conversation.py:55-74 | Each turn adds exactly two messages, and the starting history stays a prefix of the result. |
| `Conversation.ConverseTurn` | src/example_2_conversation.py:55-74 | Turn `i` appends the user's `i`-th message to the history of the earlier turns, and then the model's reply to exactly that history, which ends with the new user message. |
| `Conversation.ConverseAppend` | src/example_2_conversation.py:55-74 | Sending two batches of messages one after the other is the same as sending them all at once. |
| `Conversation.ConverseKeepsSystemMessages` | src/example_2_conversation.py:84-87 | Turns add no system message, so after any conversation clearing leaves the system messages the history started with. |
| `Conversation.FreshConversation` | src/example_2_conversation.py:30-82 | From a fresh manager, `n` turns give `2n` messages, plus one when a system prompt was given: the history length that `get_history_length` reports. Clearing then leaves exactly the starting history. |
| `Conversation.ConversationManager.constructor` | src/example_2_conversation.py:21-37 | A new manager keeps the model name, and its history is the system message when the prompt is non-empty, empty otherwise. |
| `Conversation.ConversationManager.SendMessage` | src/example_2_conversation.py:43-78 | Appends the user message and then the reply, leaving the earlier history unchanged. The model is sent the history ending with the new user message. The returned text is the appended reply. The system-prompt-first invariant holds. |
| `Conversation.ConversationManager.ClearHistory` | src/example_2_conversation.py:84-88 | The new history is the old one's system messages in order, at most one of them. |
| `Conversation.TutorSession` | src/example_2_conversation.py:100-118 | A manager with a system prompt reports, through `get_history_length`, seven messages after three turns, and clearing would keep only the system prompt. |

## Left out

- Failures of the model backends (service down, timeouts, malformed replies) are not modelled. In the source they are uncaught exceptions that abort the run or the turn. A failed turn is not without trace: `send_message` appends the user message before it calls the chat backend, so the history keeps that unanswered user message and grows by one instead of two. Each model call is a total function parameter that always returns text.
- Unicode: `strip()` and `lower()` are modelled on ASCII only. Whitespace is code points 9–13 and 28–32. Case folding maps `A`–`Z` to `a`–`z`. Every other character is left as it is.
- The prompt wording is domain text. Prompts are the `Prompt` datatype, which records the template and the values it embeds.
- The graph library (`StateGraph`, `add_node`, `add_conditional_edges`, `add_edge`, `compile`, `invoke`) is not part of this model. Its effect for this graph is written out as `Successor`, `Run` and `RunQuery`. Graph construction and validation errors cannot arise for this constant wiring, so they are not modelled.
- The responder reads `query_type` with a default of `general` but never uses it. Every field is always present in the record, so the dictionary defaults of `state.get` never apply.
- The model name default (`llama3`) and the `temperature=0.7` setting are configuration. The model name is kept as a constructor argument and passed to the chat backend.
- All printing, the demo `main` functions and `src/example_1_simple_chat.py` are I/O with no logic of their own. Of the demos, only the message count of the tutor session is modelled, as `Conversation.TutorSession`.
- `Conversation.ConversationManager.SendMessage` and `ClearHistory` require the manager invariant `Valid()` (only the first message may be a system message). Every operation of the class establishes or keeps it, and the source has no other way to add a system message.
