# reg-agents workflow graphs in Dafny

This project models the question-routing core of reg-agents. An incoming
question is classified by a language model. A regulation question goes
through the regulation graph:
- extract the regulation text;
- ask whether the text names an actor;
- reformat it as FLINT frames, or reject it;
- assemble a response.

Any other question goes through the general graph, which answers in one call.
The router graph merges the chosen graph's response with the classification
label. A fourth, older linear graph (route -> analyze -> format) has no error
handling at all.

Every node is a call to a language-model agent. Each agent is modelled as an
abstract, fallible function `Agent = string -> Outcome`, where
`Outcome = Ok(text) | Fail(detail)`. `Fail` stands for the exception the call
raises, carrying its message. Once these functions are fixed, every run is
determined.

Each graph keeps its state in a dictionary that the nodes update in place. The
model has, for each of the three graphs in src/workflows/:
- a `Record` datatype: the dictionary's contents;
- one function per node, giving the contents after the node;
- `Apply` and `Next`: the wiring tables (`add_node`, `add_edge`,
  `add_conditional_edges`, entry and finish points);
- `Trace`: the run, with `TraceFollowsWiring` proving that it walks those tables from the entry to the finish;
- `Run`: the dictionary the run returns.

The dictionary is also a class with the same fields. Its node methods assign
the fields in place and are proved equal to the node functions. `Invoke`
runs the nodes in wiring order on a fresh dictionary and is proved equal to
`Run`.

The older graph of src/workflow.py (`build_graph`: route -> analyze -> format,
in a straight line) is modelled without wiring tables. Its nodes catch nothing,
so each node function returns `Returned(state)` or `Raised(message)`. `Flow` is
the whole run, stopping at the first exception. The class `Graph` holds the
node methods on a `State` object, and `ProcessMessageFlow` is proved equal to
`Flow`.

Modules:
- `LanguageModel` (language_model.dfy) holds the agent call and Python's
  truthiness of `str | None`. It also holds `str()` of None (an agent receives
  "None" when handed None) and `str.strip()`, which the classifier applies to
  its label.
- `RegulationWorkflow`, `GeneralWorkflow` and `RouterWorkflow` model
  src/workflows/.
- `Workflow` models src/workflow.py.

Behaviour kept as the code has it:
- The edge out of "identify" is evaluated even after an error.
- "no_actors" overwrites `error` unconditionally. So when the router starts a
  regulation run, an extraction or identification failure reaches the caller
  as the no-actors message, not as the failure text.
- The actor answer must be exactly `Yes`, untrimmed. The classifier's label is
  stripped.
- `error` is tested by truthiness: an empty string counts as unset.

Because the edge out of "identify" is taken even after an error, a run the
router starts (with `actor_analysis` None) never reports
`Regulation extraction failed: ...` or `Actor identification failed: ...` to
the caller: both end as the no-actors message.

## Model

| member | source | states |
|---|---|---|
| `LanguageModel.Truthy` | src/workflows/regulation_workflow.py:36 | `state.get("error")` is false for exactly two values: a missing/None error and the empty string |
| `LanguageModel.Str` | src/agents/actor_identification_agent.py:26 | a None argument is rendered into the prompt as the text "None"; a string as itself |
| `LanguageModel.TrimStart` | src/agents/router_agent.py:33 | removing leading whitespace never lengthens the string (its full characterisation is the next lemma) |
| `LanguageModel.TrimEnd` | src/agents/router_agent.py:33 | removing trailing whitespace never lengthens the string |
| `LanguageModel.Strip` | src/agents/router_agent.py:33 | `str.strip()` never lengthens the string; what it removes is pinned by the lemmas below |
| `LanguageModel.TrimStartRemovesLeadingSpace` | src/agents/router_agent.py:33 | the result is a suffix of the input, everything removed is whitespace, and it does not start with whitespace |
| `LanguageModel.TrimEndRemovesTrailingSpace` | src/agents/router_agent.py:33 | the result is a prefix of the input, everything removed is whitespace, and it does not end with whitespace |
| `LanguageModel.StripRemovesSurroundingSpace` | src/agents/router_agent.py:32-37 | the classifier's label has no surrounding whitespace and is no longer than the completion |
| `LanguageModel.StripPadded` | src/agents/router_agent.py:33 | stripping removes exactly the surrounding whitespace: padding a label on either side does not change it |
| `RegulationWorkflow.Initial` | src/workflows/router_workflow.py:60-67 | the sub-state the router invokes the regulation graph with holds the message as the question, no error and None for every result key |
| `RegulationWorkflow.Extract` | src/workflows/regulation_workflow.py:26-33 | only `regulation_text` and `error` can change; success stores the agent's text; failure sets `error` to "Regulation extraction failed: " + detail and leaves `regulation_text`; runs whatever `error` holds |
| `RegulationWorkflow.Identify` | src/workflows/regulation_workflow.py:35-44 | no-op when `error` is truthy; only `actor_analysis` and `error` can change; the agent sees str() of `regulation_text`; failure gives "Actor identification failed: " + detail |
| `RegulationWorkflow.FlintEligibility` | src/workflows/regulation_workflow.py:74-78 | the next node is "format" or "no_actors", and "format" exactly when `actor_analysis` is the exact string "Yes" (None and every other string give "no_actors") |
| `RegulationWorkflow.NoActors` | src/workflows/regulation_workflow.py:46-48 | `error` becomes the fixed no-actors message whatever it was; nothing else changes |
| `RegulationWorkflow.Format` | src/workflows/regulation_workflow.py:50-59 | no-op when `error` is truthy; only `flint_format` and `error` can change; failure gives "Flint formatting failed: " + detail and leaves `flint_format` |
| `RegulationWorkflow.Prepare` | src/workflows/regulation_workflow.py:61-72 | only `final_response` changes; with `error` set it is exactly `{"response": error}`; otherwise exactly the keys regulation, actor_analysis, response holding regulation_text, actor_analysis, flint_format |
| `RegulationWorkflow.Apply` | src/workflows/regulation_workflow.py:84-88 | the node registered under a name; no registered node rewrites `original_question` |
| `RegulationWorkflow.Next` | src/workflows/regulation_workflow.py:91-94 | every edge and the conditional edge lead to a registered node |
| `RegulationWorkflow.Trace` | src/workflows/regulation_workflow.py:83-100 | the compiled run executes exactly four nodes |
| `RegulationWorkflow.TraceFollowsWiring` | src/workflows/regulation_workflow.py:83-98 | a run starts at "extract", each node is the registered function of the previous state, each successor is the one the edges name, and it reaches "prepare" once, as its fourth and last node |
| `RegulationWorkflow.Run` | src/workflows/regulation_workflow.py:17-100 | `original_question` is never written; `final_response` is always set; with an error it is `{"response": error}`; without, it has the three keys and `actor_analysis` is "Yes" |
| `RegulationWorkflow.SuccessfulRun` | src/workflows/regulation_workflow.py:26-78 | a run ends without error exactly when it began without one, all three agents answered and the actor agent said exactly "Yes"; the response then holds the extracted text and the formatter's output on that text |
| `RegulationWorkflow.EarlyFailuresBecomeNoActors` | src/workflows/regulation_workflow.py:46-48 | from `actor_analysis` None, a failed extraction or identification ends with `error` and the response equal to the no-actors message |
| `RegulationWorkflow.OnlyExactYesIsFormatted` | src/workflows/regulation_workflow.py:76-77 | any actor answer other than exactly "Yes" takes the "no_actors" edge and ends in the no-actors response |
| `RegulationWorkflow.ErrorFreezesResults` | src/workflows/regulation_workflow.py:35-59 | once a node leaves `error` set, later nodes keep it set and change neither regulation_text, actor_analysis nor flint_format |
| `RegulationWorkflow.ThreeResponses` | src/workflows/regulation_workflow.py:60-72 | from the router's fresh sub-state the response is the three-key success, the no-actors message, or a formatting failure, and nothing else |
| `RegulationWorkflow.RegulationGraph.ExtractRegulation` | src/workflows/regulation_workflow.py:26-33 | assigns the dictionary in place as `Extract` says |
| `RegulationWorkflow.RegulationGraph.IdentifyActors` | src/workflows/regulation_workflow.py:35-44 | assigns the dictionary in place as `Identify` says |
| `RegulationWorkflow.RegulationGraph.HandleNoActors` | src/workflows/regulation_workflow.py:46-48 | assigns the dictionary in place as `NoActors` says |
| `RegulationWorkflow.RegulationGraph.FormatFlint` | src/workflows/regulation_workflow.py:50-59 | assigns the dictionary in place as `Format` says |
| `RegulationWorkflow.RegulationGraph.PrepareResponse` | src/workflows/regulation_workflow.py:61-72 | assigns the dictionary in place as `Prepare` says |
| `RegulationWorkflow.RegulationGraph.Invoke` | src/workflows/regulation_workflow.py:80-100 | running the nodes in wiring order on a fresh dictionary yields `Run` of the input |
| `GeneralWorkflow.Initial` | src/workflows/router_workflow.py:70-75 | the sub-state the router invokes the general graph with holds the message as the question, no error, and None for `analysis` and `final_response` |
| `GeneralWorkflow.Analyze` | src/workflows/general_workflow.py:33-41 | only `analysis` and `error` can change; success stores the answer and leaves `error`; failure gives "General analysis failed: " + detail and leaves `analysis` |
| `GeneralWorkflow.Prepare` | src/workflows/general_workflow.py:43-52 | only `final_response` changes; it has exactly the key "response", holding `error` when set and `analysis` otherwise |
| `GeneralWorkflow.Apply` | src/workflows/general_workflow.py:59-60 | the node registered under a name; no registered node rewrites `original_question` |
| `GeneralWorkflow.Next` | src/workflows/general_workflow.py:63 | the one edge leads to a registered node |
| `GeneralWorkflow.Trace` | src/workflows/general_workflow.py:58-69 | the compiled run executes exactly two nodes |
| `GeneralWorkflow.TraceFollowsWiring` | src/workflows/general_workflow.py:59-67 | a run is "analyze" then "prepare", each once, each the registered function of the previous state |
| `GeneralWorkflow.Run` | src/workflows/general_workflow.py:23-69 | `original_question` is never written and the response always has exactly one key, "response" |
| `GeneralWorkflow.AnswerOrFailure` | src/workflows/general_workflow.py:33-52 | from a fresh sub-state the response is `{"response": answer}` or `{"response": "General analysis failed: " + detail}` |
| `GeneralWorkflow.GeneralGraph.AnalyzeQuestion` | src/workflows/general_workflow.py:33-41 | assigns the dictionary in place as `Analyze` says |
| `GeneralWorkflow.GeneralGraph.PrepareResponse` | src/workflows/general_workflow.py:43-52 | assigns the dictionary in place as `Prepare` says |
| `GeneralWorkflow.GeneralGraph.Invoke` | src/workflows/general_workflow.py:56-69 | running the nodes in wiring order on a fresh dictionary yields `Run` of the input |
| `RouterWorkflow.Initial` | app.py:17-22 | the state the endpoint invokes the router with holds the message, no error, and None for `question_type` and `response` |
| `RouterWorkflow.Classify` | src/workflows/router_workflow.py:36-44 | only `question_type` and `error` can change; success records the stripped label; failure gives "Question classification failed: " + detail and leaves `question_type` |
| `RouterWorkflow.Merge` | src/workflows/router_workflow.py:77-80 | the merged response has the sub-graph's keys plus "classification"; the sub-graph's values win on a clash; the label is kept otherwise |
| `RouterWorkflow.Dispatch` | src/workflows/router_workflow.py:56-75 | the chosen sub-graph's response always has "response" and never "classification"; a general one has only "response" |
| `RouterWorkflow.Process` | src/workflows/router_workflow.py:46-85 | no-op when `error` is truthy; `message` and `question_type` are never written; a None `question_type` or an exception while dispatching sets "Request processing failed: " + detail and leaves `response`; otherwise `response` is the merge and `error` is untouched |
| `RouterWorkflow.Apply` | src/workflows/router_workflow.py:91-92 | the node registered under a name; no registered node rewrites `message` |
| `RouterWorkflow.Next` | src/workflows/router_workflow.py:95 | the one edge leads to a registered node |
| `RouterWorkflow.Trace` | src/workflows/router_workflow.py:90-101 | the compiled run executes exactly two nodes |
| `RouterWorkflow.TraceFollowsWiring` | src/workflows/router_workflow.py:91-99 | a run is "classify" then "process", each once, each the registered function of the previous state |
| `RouterWorkflow.Run` | src/workflows/router_workflow.py:25-101 | `message` is never modified; a failed classification ends with its error and `response` as it was |
| `RouterWorkflow.ClassifiedRun` | src/workflows/router_workflow.py:36-81 | from the endpoint's initial state, a classified message that dispatches cleanly ends with the label, the merged response and `error` None |
| `RouterWorkflow.LabelSelectsSubgraph` | src/workflows/router_workflow.py:56-80 | the regulation graph's response is merged exactly when the stripped label is "REGULATION_QUESTION"; any other label merges the general graph's; the label is under "classification" and the router's `error` stays None |
| `RouterWorkflow.PaddedLabelIsRegulation` | src/workflows/router_workflow.py:36-41 | a classifier completion of "REGULATION_QUESTION" padded with whitespace still yields that label |
| `RouterWorkflow.SubgraphFailureInResponse` | src/workflows/router_workflow.py:58-81 | a failed extraction or identification leaves the router's `error` None; the response is exactly `{"classification": "REGULATION_QUESTION", "response": <no-actors message>}` |
| `RouterWorkflow.GeneralResponseShape` | src/workflows/router_workflow.py:68-80 | a general question's response has exactly "classification" and "response", the latter the answer or the prefixed failure |
| `RouterWorkflow.RouterGraph.ClassifyQuestion` | src/workflows/router_workflow.py:36-44 | assigns the dictionary in place as `Classify` says |
| `RouterWorkflow.RouterGraph.ProcessRequest` | src/workflows/router_workflow.py:46-85 | builds and invokes the chosen sub-graph on a fresh sub-state and assigns the dictionary in place as `Process` says |
| `RouterWorkflow.RouterGraph.Invoke` | src/workflows/router_workflow.py:87-101 | running the nodes in wiring order on a fresh dictionary yields `Run` of the input |
| `Workflow.Initial` | src/workflow.py:104-110 | the state `process_message_flow` starts from: the message as the only (so the last) message, no "type" yet, an empty `current_response` and `analysis_result` |
| `Workflow.Route` | src/workflow.py:30-41 | only `question_type` changes, to `{"type": stripped label}` of the last message; an empty `messages` raises IndexError; a failing classifier call escapes |
| `Workflow.Analyze` | src/workflow.py:44-65 | only `current_response` changes; it has exactly "classification" (the type) and "analysis" (the regulation agent's answer exactly when the type is "REGULATION_QUESTION", the general agent's otherwise); a missing type raises KeyError; a failing agent call escapes |
| `Workflow.FormatResponse` | src/workflow.py:68-70 | "format" returns `current_response` as it is, unchanged |
| `Workflow.Flow` | src/workflow.py:68-112 | the run starts from a one-message state; a classifier or agent exception escapes unchanged; otherwise the result is the `current_response` dictionary, returned by "format" as it is |
| `Workflow.ReturnedShape` | src/workflow.py:60-63 | a run that returns has exactly the keys "classification" and "analysis", the former the stripped classifier answer |
| `Workflow.Graph.RouteQuestion` | src/workflow.py:30-41 | assigns the dictionary in place as `Route` says, or reports the escaping exception and assigns nothing |
| `Workflow.Graph.AnalyzeRequest` | src/workflow.py:44-65 | assigns the dictionary in place as `Analyze` says, or reports the escaping exception and assigns nothing |
| `Workflow.Graph.ProcessMessageFlow` | src/workflow.py:96-112 | running route, analyze and format on a fresh state yields `Flow` of the message |

## Left out

- The language-model client (src/base.py): environment variables, client construction and the network call. Each agent is a parameter `string -> Outcome`. The prompt templates in src/agents/ are part of that function and are not modelled separately. The regulation agent's fixed text is not hard-coded.
- The graph library (`StateGraph`, `Graph`, `compile`, `invoke`). Only the wiring each graph declares is modelled, as the tables `Apply` and `Next` and the walk `Trace`.
- The HTTP layer in app.py: Flask, CORS, host and port, and the envelope that wraps the router's `response` or `error`. `RouterWorkflow.Initial` is the state the endpoint builds.
- RouterWorkflow.Process: only two exceptions are modelled. One is the TypeError on a None `question_type`. The other is one exception message, `dispatchFault`, raised while building or invoking the chosen sub-graph (for instance an agent constructor failing on its environment). The fault is the same whichever sub-graph is chosen.
- Workflow.Route and Workflow.Analyze: of the possible exceptions, only the agent failures and the IndexError and KeyError of missing data are modelled. Python exception objects are represented by their message.
- Dictionary key order (Python dicts keep insertion order) is not modelled: responses are maps.
- `question_type` in the router is recorded as its label. The classifier always returns the one-key dictionary `{"type": label}`.
- The debug print in the regulation graph's `prepare_response`, and the module-level agent construction in src/workflow.py.
- The `analysis_result` key of src/workflow.py's state is carried but never written, as in the source.
- Idempotence of a run needs no lemma: every model function is deterministic in its inputs and the agents.
