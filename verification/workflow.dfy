/**
 * The linear conversation graph (src/workflow.py): route -> analyze -> format.
 * It keeps no error field and catches nothing: an exception raised by any
 * agent call escapes from the run.
 */
module Workflow {
  import opened LanguageModel

  const RegulationLabel := "REGULATION_QUESTION"
  /** The message of the IndexError raised by `messages[-1]` on an empty list. */
  const IndexOutOfRange := "list index out of range"
  /** The message of the KeyError raised by reading "type" from a dictionary without it. */
  const MissingType := "'type'"

  /** The value of `current_response`: the empty string it starts as, or the dictionary "analyze" builds. */
  datatype Response = Text(text: string) | Fields(fields: map<string, string>)

  /** The contents of a State dictionary. */
  datatype Record = Record(
    messages: seq<string>,
    currentResponse: Response,
    questionType: map<string, string>,
    analysisResult: string)

  /** The three module-level agents. `classifier` is the model call behind RouterAgent. */
  datatype Agents = Agents(classifier: Agent, general: Agent, regulation: Agent)

  /** What a node or the whole run does: return a value, or let an exception escape with its message. */
  datatype Result<+T> = Returned(value: T) | Raised(detail: string)

  /** The state process_message_flow starts the graph from. */
  function Initial(message: string): (r: Record)
    ensures |r.messages| == 1 && r.messages[0] == message
    ensures "type" !in r.questionType && r.currentResponse == Text("") && r.analysisResult == ""
  {
    Record([message], Text(""), map[], "")
  }

  /**
   * Node "route": classifies the last message and stores the classifier's
   * `{"type": label}` dictionary in `question_type`; nothing else changes.
   */
  function Route(r: Record, agents: Agents): (out: Result<Record>)
    ensures |r.messages| == 0 ==> out == Raised(IndexOutOfRange)
    ensures out.Returned? ==> out.value.(questionType := r.questionType) == r
    ensures |r.messages| > 0 ==>
      var o := agents.classifier(r.messages[|r.messages| - 1]);
      && (o.Fail? ==> out == Raised(o.detail))
      && (o.Ok? ==> out.Returned? && out.value.questionType == map["type" := Strip(o.text)])
  {
    if |r.messages| == 0 then Raised(IndexOutOfRange)
    else match agents.classifier(r.messages[|r.messages| - 1])
      case Ok(text) => Returned(r.(questionType := map["type" := Strip(text)]))
      case Fail(detail) => Raised(detail)
  }

  /**
   * Node "analyze": asks the regulation agent when the type is exactly
   * "REGULATION_QUESTION" and the general agent otherwise, and stores the
   * answer with the type in `current_response`; nothing else changes.
   */
  function Analyze(r: Record, agents: Agents): (out: Result<Record>)
    ensures "type" !in r.questionType ==> out == Raised(MissingType)
    ensures "type" in r.questionType && |r.messages| == 0 ==> out == Raised(IndexOutOfRange)
    ensures out.Returned? ==> out.value.(currentResponse := r.currentResponse) == r
    ensures "type" in r.questionType && |r.messages| > 0 ==>
      var category := r.questionType["type"];
      var question := r.messages[|r.messages| - 1];
      var o := if category == RegulationLabel then agents.regulation(question) else agents.general(question);
      && (o.Fail? ==> out == Raised(o.detail))
      && (o.Ok? ==>
            && out.Returned? && out.value.currentResponse.Fields?
            && out.value.currentResponse.fields.Keys == {"classification", "analysis"}
            && out.value.currentResponse.fields["classification"] == category
            && out.value.currentResponse.fields["analysis"] == o.text)
  {
    if "type" !in r.questionType then Raised(MissingType)
    else if |r.messages| == 0 then Raised(IndexOutOfRange)
    else
      var category := r.questionType["type"];
      var question := r.messages[|r.messages| - 1];
      var outcome := if category == RegulationLabel then agents.regulation(question) else agents.general(question);
      match outcome
      case Ok(analysis) => Returned(r.(currentResponse := Fields(map["classification" := category, "analysis" := analysis])))
      case Fail(detail) => Raised(detail)
  }

  /** Node "format": the graph's output is `current_response`, read as it is. */
  function FormatResponse(r: Record): (out: Response)
    ensures out == r.currentResponse
  {
    r.currentResponse
  }

  /** process_message_flow: the three nodes in order, stopping at the first exception. */
  function Flow(message: string, agents: Agents): (out: Result<Response>)
    ensures var c := agents.classifier(message);
      c.Fail? ==> out == Raised(c.detail)
    ensures var c := agents.classifier(message);
      c.Ok? ==>
        var category := Strip(c.text);
        var o := if category == RegulationLabel then agents.regulation(message) else agents.general(message);
        && (o.Fail? ==> out == Raised(o.detail))
        && (o.Ok? ==> out == Returned(Fields(map["classification" := category, "analysis" := o.text])))
  {
    match Route(Initial(message), agents)
    case Raised(detail) => Raised(detail)
    case Returned(routed) =>
      match Analyze(routed, agents)
      case Raised(detail) => Raised(detail)
      case Returned(analyzed) => Returned(FormatResponse(analyzed))
  }

  /** A run that returns has exactly the two keys, and `classification` is the stripped classifier answer. */
  lemma ReturnedShape(message: string, agents: Agents)
    requires Flow(message, agents).Returned?
    ensures var f := Flow(message, agents).value;
      && f.Fields?
      && f.fields.Keys == {"classification", "analysis"}
      && agents.classifier(message).Ok?
      && f.fields["classification"] == Strip(agents.classifier(message).text)
  {
  }

  /** A State dictionary; "route" and "analyze" assign its keys in place. */
  class State {
    var messages: seq<string>
    var currentResponse: Response
    var questionType: map<string, string>
    var analysisResult: string

    function Contents(): Record
      reads this
    {
      Record(messages, currentResponse, questionType, analysisResult)
    }

    constructor (r: Record)
      ensures Contents() == r
    {
      messages := r.messages;
      currentResponse := r.currentResponse;
      questionType := r.questionType;
      analysisResult := r.analysisResult;
    }
  }

  /** The compiled graph of build_graph, over the module-level agents. */
  class Graph {
    const agents: Agents

    constructor (agents: Agents)
      ensures this.agents == agents
    {
      this.agents := agents;
    }

    /** route_question; `raised` is the message of an escaping exception, in which case nothing was assigned. */
    method RouteQuestion(state: State) returns (raised: Option<string>)
      modifies state
      ensures match Route(old(state.Contents()), agents)
        case Returned(r) => raised == None && state.Contents() == r
        case Raised(detail) => raised == Some(detail) && state.Contents() == old(state.Contents())
    {
      ghost var before := state.Contents();
      if |state.messages| == 0 {
        return Some(IndexOutOfRange);
      }
      var question := state.messages[|state.messages| - 1];
      match agents.classifier(question)
      case Fail(detail) =>
        raised := Some(detail);
      case Ok(text) =>
        var category := Strip(text);
        state.questionType := map["type" := category];
        assert state.Contents() == before.(questionType := map["type" := category]);
        raised := None;
    }

    /** analyze_request; `raised` is the message of an escaping exception, in which case nothing was assigned. */
    method AnalyzeRequest(state: State) returns (raised: Option<string>)
      modifies state
      ensures match Analyze(old(state.Contents()), agents)
        case Returned(r) => raised == None && state.Contents() == r
        case Raised(detail) => raised == Some(detail) && state.Contents() == old(state.Contents())
    {
      if "type" !in state.questionType {
        return Some(MissingType);
      }
      var category := state.questionType["type"];
      if |state.messages| == 0 {
        return Some(IndexOutOfRange);
      }
      var question := state.messages[|state.messages| - 1];
      var outcome := if category == RegulationLabel then agents.regulation(question) else agents.general(question);
      match outcome
      case Fail(detail) =>
        return Some(detail);
      case Ok(analysis) =>
        state.currentResponse := Fields(map["classification" := category, "analysis" := analysis]);
        return None;
    }

    /** process_message_flow: a fresh state holding the message, then route, analyze and format. */
    method ProcessMessageFlow(message: string) returns (out: Result<Response>)
      ensures out == Flow(message, agents)
    {
      var state := new State(Initial(message));
      var raised := RouteQuestion(state);
      if raised.Some? {
        return Raised(raised.value);
      }
      raised := AnalyzeRequest(state);
      if raised.Some? {
        return Raised(raised.value);
      }
      out := Returned(FormatResponse(state.Contents()));
    }
  }
}
