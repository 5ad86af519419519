/**
 * The router graph (src/workflows/router_workflow.py): classify the question,
 * run the regulation graph or the general graph on a fresh sub-state, and
 * merge that graph's final response with the classification label.
 */
module RouterWorkflow {
  import opened LanguageModel
  import RegulationWorkflow
  import GeneralWorkflow

  /** The one label that selects the regulation graph; every other label selects the general graph. */
  const RegulationLabel := "REGULATION_QUESTION"
  const ClassificationFailed := "Question classification failed: "
  const ProcessingFailed := "Request processing failed: "
  /** The message of the TypeError raised by indexing a question_type that is None. */
  const NotSubscriptable := "'NoneType' object is not subscriptable"

  /**
   * The contents of a RouterState dictionary. `questionType` is the
   * classifier's `{"type": label}` dictionary, recorded as its label.
   */
  datatype Record = Record(
    message: string,
    questionType: Option<string>,
    response: Option<Dict>,
    error: Option<string>)

  /**
   * What a run depends on: the model call behind the classifier, the agents of
   * the two sub-graphs, and the message of an exception raised while building
   * or invoking the chosen sub-graph (None when nothing raises).
   */
  datatype Services = Services(
    classifier: Agent,
    regulation: RegulationWorkflow.Agents,
    general: Agent,
    dispatchFault: Option<string>)

  /** The state the HTTP endpoint starts the graph from. */
  function Initial(message: string): (r: Record)
    ensures r.message == message && !Truthy(r.error)
    ensures r.questionType == None && r.response == None
  {
    Record(message, None, None, None)
  }

  /**
   * Node "classify": the classifier's completion, stripped of surrounding
   * whitespace, becomes the label; a raising call sets `error` instead.
   */
  function Classify(r: Record, s: Services): (r': Record)
    ensures r'.(questionType := r.questionType, error := r.error) == r
    ensures var o := s.classifier(r.message);
      && (o.Ok? ==> r'.questionType == Some(Strip(o.text)) && r'.error == r.error)
      && (o.Fail? ==> r'.error == Some(ClassificationFailed + o.detail) && r'.questionType == r.questionType)
  {
    match s.classifier(r.message)
    case Ok(text) => r.(questionType := Some(Strip(text)))
    case Fail(detail) => r.(error := Some(ClassificationFailed + detail))
  }

  /**
   * `{"classification": label, **final}`: the sub-graph's keys are written
   * after the label, so a "classification" key of its own would win.
   */
  function Merge(category: string, final: Dict): (d: Dict)
    ensures d.Keys == final.Keys + {"classification"}
    ensures forall k :: k in final ==> d[k] == final[k]
    ensures "classification" !in final ==> d["classification"] == Some(category)
  {
    map["classification" := Some(category)] + final
  }

  /**
   * The final response of the sub-graph the label selects, run on a
   * sub-state holding only the message. Neither sub-graph answers with a
   * "classification" key, so the merge always keeps the label.
   */
  function Dispatch(category: string, message: string, s: Services): (final: Dict)
    ensures "response" in final && "classification" !in final
    ensures category != RegulationLabel ==> final.Keys == {"response"}
  {
    if category == RegulationLabel then
      RegulationWorkflow.Run(RegulationWorkflow.Initial(message), s.regulation).finalResponse.value
    else
      GeneralWorkflow.Run(GeneralWorkflow.Initial(message), s.general).finalResponse.value
  }

  /**
   * Node "process": a no-op once `error` is set. Otherwise any exception while
   * dispatching becomes `error` and leaves `response` as it was; a completed
   * dispatch sets `response` and leaves `error` alone, even when the
   * sub-graph itself failed.
   */
  function Process(r: Record, s: Services): (r': Record)
    ensures Truthy(r.error) ==> r' == r
    ensures r'.(response := r.response, error := r.error) == r
    ensures !Truthy(r.error) && r.questionType.None? ==>
      r'.error == Some(ProcessingFailed + NotSubscriptable) && r'.response == r.response
    ensures !Truthy(r.error) && r.questionType.Some? && s.dispatchFault.Some? ==>
      r'.error == Some(ProcessingFailed + s.dispatchFault.value) && r'.response == r.response
    ensures !Truthy(r.error) && r.questionType.Some? && s.dispatchFault.None? ==>
      r'.error == r.error && r'.response == Some(Merge(r.questionType.value, Dispatch(r.questionType.value, r.message, s)))
  {
    if Truthy(r.error) then r
    else if r.questionType.None? then r.(error := Some(ProcessingFailed + NotSubscriptable))
    else if s.dispatchFault.Some? then r.(error := Some(ProcessingFailed + s.dispatchFault.value))
    else
      var category := r.questionType.value;
      r.(response := Some(Merge(category, Dispatch(category, r.message, s))))
  }

  // The wiring of create_router_graph

  const Nodes: set<string> := {"classify", "process"}
  const Entry := "classify"
  const Finish := "process"

  /** The node registered under `node` (add_node). No node rewrites the message. */
  function Apply(node: string, r: Record, s: Services): (r': Record)
    requires node in Nodes
    ensures r'.message == r.message
  {
    if node == "classify" then Classify(r, s) else Process(r, s)
  }

  /** The single edge, classify -> process. */
  function Next(node: string): (next: string)
    requires node in Nodes - {Finish}
    ensures next in Nodes
  {
    "process"
  }

  /** One executed node and the dictionary it returned. */
  datatype Step = Step(node: string, after: Record)

  /** A run of the compiled graph: the nodes it executes, in order, with the state after each. */
  function Trace(r: Record, s: Services): (t: seq<Step>)
    ensures |t| == 2
  {
    var classified := Classify(r, s);
    [Step("classify", classified), Step("process", Process(classified, s))]
  }

  /** The run follows the wiring: entry to finish along the one edge, each node once. */
  lemma TraceFollowsWiring(r: Record, s: Services)
    ensures var t := Trace(r, s);
      && t[0].node == Entry && t[1].node == Finish && t[1].node == Next(t[0].node)
      && t[0].after == Apply(Entry, r, s)
      && t[1].after == Apply(Finish, t[0].after, s)
  {
  }

  /** The state the compiled graph returns. */
  function Run(r: Record, s: Services): (r': Record)
    ensures r'.message == r.message
    ensures var o := s.classifier(r.message);
      o.Fail? ==> r'.error == Some(ClassificationFailed + o.detail) && r'.response == r.response
  {
    Trace(r, s)[1].after
  }

  // Properties of a run started as the HTTP endpoint starts it

  /** A classified message that dispatches without raising: the label, the merged response, no error. */
  lemma ClassifiedRun(message: string, s: Services)
    requires s.classifier(message).Ok? && s.dispatchFault.None?
    ensures var category := Strip(s.classifier(message).text);
      Run(Initial(message), s) ==
        Record(message, Some(category), Some(Merge(category, Dispatch(category, message, s))), None)
  {
    var category := Strip(s.classifier(message).text);
    var classified := Classify(Initial(message), s);
    assert classified == Initial(message).(questionType := Some(category));
    assert Run(Initial(message), s) == Process(classified, s);
  }

  /**
   * The regulation graph answers exactly the questions labelled
   * "REGULATION_QUESTION" after stripping; any other label, expected or not,
   * goes to the general graph. Either way the label is recorded under
   * "classification" and the router's own `error` stays None.
   */
  lemma LabelSelectsSubgraph(message: string, s: Services)
    requires s.classifier(message).Ok? && s.dispatchFault.None?
    ensures var category := Strip(s.classifier(message).text);
      var r' := Run(Initial(message), s);
      && r'.error == None
      && r'.questionType == Some(category)
      && r'.response.Some?
      && r'.response.value["classification"] == Some(category)
      && (category == RegulationLabel ==>
            r'.response.value == Merge(category, RegulationWorkflow.Run(RegulationWorkflow.Initial(message), s.regulation).finalResponse.value))
      && (category != RegulationLabel ==>
            r'.response.value == Merge(category, GeneralWorkflow.Run(GeneralWorkflow.Initial(message), s.general).finalResponse.value))
  {
    ClassifiedRun(message, s);
  }

  /**
   * Whitespace the classifier puts around the label does not matter, unlike
   * the actor answer of the regulation graph, which must be exactly "Yes".
   */
  lemma PaddedLabelIsRegulation(message: string, s: Services, before: string, after: string)
    requires AllSpace(before) && AllSpace(after)
    requires s.classifier(message) == Ok(before + RegulationLabel + after)
    ensures Run(Initial(message), s).questionType == Some(RegulationLabel)
  {
    StripPadded(before, RegulationLabel, after);
  }

  /**
   * A failure inside the regulation graph never sets the router's `error`:
   * it arrives as the "response" entry of `response`, next to the label.
   * After a failed extraction or identification that entry is the
   * rejection message, not the failure text.
   */
  lemma SubgraphFailureInResponse(message: string, s: Services)
    requires s.classifier(message).Ok? && Strip(s.classifier(message).text) == RegulationLabel
    requires s.dispatchFault.None?
    requires var e := s.regulation.regulation(message);
      e.Fail? || s.regulation.actors(e.text).Fail?
    ensures Run(Initial(message), s).error == None
    ensures Run(Initial(message), s).response ==
      Some(map["classification" := Some(RegulationLabel), "response" := Some(RegulationWorkflow.NoActorsMessage)])
  {
    var rejected := map["response" := Some(RegulationWorkflow.NoActorsMessage)];
    var merged := map["classification" := Some(RegulationLabel), "response" := Some(RegulationWorkflow.NoActorsMessage)];
    assert Run(Initial(message), s) == Record(message, Some(RegulationLabel), Some(merged), None) by {
      assert Dispatch(RegulationLabel, message, s) == rejected by {
        RegulationWorkflow.EarlyFailuresBecomeNoActors(RegulationWorkflow.Initial(message), s.regulation);
      }
      assert Merge(RegulationLabel, rejected) == merged;
      ClassifiedRun(message, s);
    }
  }

  /**
   * A general question's response always has exactly the two keys
   * "classification" and "response", whether the agent answered or raised.
   */
  lemma GeneralResponseShape(message: string, s: Services)
    requires s.classifier(message).Ok? && Strip(s.classifier(message).text) != RegulationLabel
    requires s.dispatchFault.None?
    ensures var d := Run(Initial(message), s).response.value;
      && d.Keys == {"classification", "response"}
      && d["response"] == match s.general(message)
         case Ok(text) => Some(text)
         case Fail(detail) => Some(GeneralWorkflow.AnalysisFailed + detail)
  {
    var category := Strip(s.classifier(message).text);
    var final := GeneralWorkflow.Run(GeneralWorkflow.Initial(message), s.general).finalResponse.value;
    assert final == match s.general(message)
      case Ok(text) => map["response" := Some(text)]
      case Fail(detail) => map["response" := Some(GeneralWorkflow.AnalysisFailed + detail)]
    by {
      GeneralWorkflow.AnswerOrFailure(message, s.general);
    }
    assert Run(Initial(message), s).response == Some(Merge(category, final)) by {
      ClassifiedRun(message, s);
    }
  }

  /** A RouterState dictionary; the nodes assign its keys in place. */
  class RouterState {
    var message: string
    var questionType: Option<string>
    var response: Option<Dict>
    var error: Option<string>

    function Contents(): Record
      reads this
    {
      Record(message, questionType, response, error)
    }

    constructor (r: Record)
      ensures Contents() == r
    {
      message := r.message;
      questionType := r.questionType;
      response := r.response;
      error := r.error;
    }
  }

  /** What create_router_graph returns: the two nodes, closed over the services. */
  class RouterGraph {
    const services: Services

    constructor (services: Services)
      ensures this.services == services
    {
      this.services := services;
    }

    method ClassifyQuestion(state: RouterState)
      modifies state
      ensures state.Contents() == Classify(old(state.Contents()), services)
    {
      match services.classifier(state.message)
      case Ok(text) =>
        state.questionType := Some(Strip(text));
      case Fail(detail) =>
        state.error := Some(ClassificationFailed + detail);
    }

    method ProcessRequest(state: RouterState)
      modifies state
      ensures state.Contents() == Process(old(state.Contents()), services)
    {
      if Truthy(state.error) {
        return;
      }
      if state.questionType.None? {
        state.error := Some(ProcessingFailed + NotSubscriptable);
        return;
      }
      if services.dispatchFault.Some? {
        state.error := Some(ProcessingFailed + services.dispatchFault.value);
        return;
      }
      var category := state.questionType.value;
      var final: Dict;
      if category == RegulationLabel {
        var workflow := new RegulationWorkflow.RegulationGraph(services.regulation);
        var result := workflow.Invoke(RegulationWorkflow.Initial(state.message));
        final := result.finalResponse.value;
      } else {
        var workflow := new GeneralWorkflow.GeneralGraph(services.general);
        var result := workflow.Invoke(GeneralWorkflow.Initial(state.message));
        final := result.finalResponse.value;
      }
      state.response := Some(map["classification" := Some(category)] + final);
    }

    /** `invoke`: runs the wiring on a fresh dictionary holding `input` and returns it. */
    method Invoke(input: Record) returns (result: RouterState)
      ensures fresh(result)
      ensures result.Contents() == Run(input, services)
    {
      result := new RouterState(input);
      ClassifyQuestion(result);
      ProcessRequest(result);
    }
  }
}
