/**
 * The general graph (src/workflows/general_workflow.py): answer a
 * non-regulation question with one agent call and wrap the answer, or the
 * failure, in a one-key response.
 */
module GeneralWorkflow {
  import opened LanguageModel

  const AnalysisFailed := "General analysis failed: "

  /** The contents of a GeneralState dictionary. */
  datatype Record = Record(
    originalQuestion: string,
    analysis: Option<string>,
    finalResponse: Option<Dict>,
    error: Option<string>)

  /** The sub-state the router starts this graph from: the question, every other key None. */
  function Initial(question: string): (r: Record)
    ensures r.originalQuestion == question && !Truthy(r.error)
    ensures r.analysis == None && r.finalResponse == None
  {
    Record(question, None, None, None)
  }

  /** Node "analyze": always calls the general agent on the question. */
  function Analyze(r: Record, agent: Agent): (r': Record)
    ensures r'.(analysis := r.analysis, error := r.error) == r
    ensures var o := agent(r.originalQuestion);
      && (o.Ok? ==> r'.analysis == Some(o.text) && r'.error == r.error)
      && (o.Fail? ==> r'.error == Some(AnalysisFailed + o.detail) && r'.analysis == r.analysis)
  {
    match agent(r.originalQuestion)
    case Ok(text) => r.(analysis := Some(text))
    case Fail(detail) => r.(error := Some(AnalysisFailed + detail))
  }

  /** Node "prepare": the response has the single key "response", holding the error if set, else the answer. */
  function Prepare(r: Record): (r': Record)
    ensures r'.(finalResponse := r.finalResponse) == r
    ensures r'.finalResponse.Some? && r'.finalResponse.value.Keys == {"response"}
    ensures Truthy(r.error) ==> r'.finalResponse.value["response"] == r.error
    ensures !Truthy(r.error) ==> r'.finalResponse.value["response"] == r.analysis
  {
    if Truthy(r.error) then r.(finalResponse := Some(map["response" := r.error]))
    else r.(finalResponse := Some(map["response" := r.analysis]))
  }

  // The wiring of create_general_graph

  const Nodes: set<string> := {"analyze", "prepare"}
  const Entry := "analyze"
  const Finish := "prepare"

  /** The node registered under `node` (add_node). No node rewrites the question. */
  function Apply(node: string, r: Record, agent: Agent): (r': Record)
    requires node in Nodes
    ensures r'.originalQuestion == r.originalQuestion
  {
    if node == "analyze" then Analyze(r, agent) else Prepare(r)
  }

  /** The single edge, analyze -> prepare. */
  function Next(node: string): (next: string)
    requires node in Nodes - {Finish}
    ensures next in Nodes
  {
    "prepare"
  }

  /** One executed node and the dictionary it returned. */
  datatype Step = Step(node: string, after: Record)

  /** A run of the compiled graph: the nodes it executes, in order, with the state after each. */
  function Trace(r: Record, agent: Agent): (t: seq<Step>)
    ensures |t| == 2
  {
    var analyzed := Analyze(r, agent);
    [Step("analyze", analyzed), Step("prepare", Prepare(analyzed))]
  }

  /** The run follows the wiring: entry to finish along the one edge, each node once. */
  lemma TraceFollowsWiring(r: Record, agent: Agent)
    ensures var t := Trace(r, agent);
      && t[0].node == Entry && t[1].node == Finish && t[1].node == Next(t[0].node)
      && t[0].after == Apply(Entry, r, agent)
      && t[1].after == Apply(Finish, t[0].after, agent)
  {
  }

  /** The state the compiled graph returns. */
  function Run(r: Record, agent: Agent): (r': Record)
    ensures r'.originalQuestion == r.originalQuestion
    ensures r'.finalResponse.Some? && r'.finalResponse.value.Keys == {"response"}
  {
    Trace(r, agent)[1].after
  }

  /**
   * From the router's fresh sub-state, the response is the agent's answer
   * when it answers, and the prefixed failure message when it raises.
   */
  lemma AnswerOrFailure(question: string, agent: Agent)
    ensures var d := Run(Initial(question), agent).finalResponse.value;
      match agent(question)
      case Ok(text) => d == map["response" := Some(text)]
      case Fail(detail) => d == map["response" := Some(AnalysisFailed + detail)]
  {
  }

  /** A GeneralState dictionary; the nodes assign its keys in place. */
  class GeneralState {
    var originalQuestion: string
    var analysis: Option<string>
    var finalResponse: Option<Dict>
    var error: Option<string>

    function Contents(): Record
      reads this
    {
      Record(originalQuestion, analysis, finalResponse, error)
    }

    constructor (r: Record)
      ensures Contents() == r
    {
      originalQuestion := r.originalQuestion;
      analysis := r.analysis;
      finalResponse := r.finalResponse;
      error := r.error;
    }
  }

  /** What create_general_graph returns: the nodes, closed over the general agent. */
  class GeneralGraph {
    const agent: Agent

    constructor (agent: Agent)
      ensures this.agent == agent
    {
      this.agent := agent;
    }

    method AnalyzeQuestion(state: GeneralState)
      modifies state
      ensures state.Contents() == Analyze(old(state.Contents()), agent)
    {
      match agent(state.originalQuestion)
      case Ok(text) =>
        state.analysis := Some(text);
      case Fail(detail) =>
        state.error := Some(AnalysisFailed + detail);
    }

    method PrepareResponse(state: GeneralState)
      modifies state
      ensures state.Contents() == Prepare(old(state.Contents()))
    {
      if Truthy(state.error) {
        state.finalResponse := Some(map["response" := state.error]);
        return;
      }
      state.finalResponse := Some(map["response" := state.analysis]);
    }

    /** `invoke`: runs the wiring on a fresh dictionary holding `input` and returns it. */
    method Invoke(input: Record) returns (result: GeneralState)
      ensures fresh(result)
      ensures result.Contents() == Run(input, agent)
    {
      result := new GeneralState(input);
      AnalyzeQuestion(result);
      PrepareResponse(result);
    }
  }
}
