/**
 * The regulation graph (src/workflows/regulation_workflow.py): extract the
 * regulation text, ask whether it names an actor, then either reformat it as
 * FLINT frames or reject it, and assemble the final response.
 */
module RegulationWorkflow {
  import opened LanguageModel

  const ExtractionFailed := "Regulation extraction failed: "
  const IdentificationFailed := "Actor identification failed: "
  const FormattingFailed := "Flint formatting failed: "
  const NoActorsMessage := "Could not find actors for the regulations. Cannot proceed with the request."

  /** The only answer of the actor agent that lets a regulation be formatted; compared exactly, untrimmed. */
  const ActorFound := "Yes"

  /** The contents of a RegulationState dictionary. */
  datatype Record = Record(
    originalQuestion: string,
    regulationText: Option<string>,
    actorAnalysis: Option<string>,
    flintFormat: Option<string>,
    finalResponse: Option<Dict>,
    error: Option<string>)

  /** The three agents the graph is built with. */
  datatype Agents = Agents(regulation: Agent, actors: Agent, flint: Agent)

  /** The sub-state the router starts this graph from: the question, every other key None. */
  function Initial(question: string): (r: Record)
    ensures r.originalQuestion == question && !Truthy(r.error)
    ensures r.regulationText == None && r.actorAnalysis == None && r.flintFormat == None && r.finalResponse == None
  {
    Record(question, None, None, None, None, None)
  }

  // ---------------------------------------------------------------------------
  // The nodes, as functions of the dictionary's contents
  // ---------------------------------------------------------------------------

  /** Node "extract": always calls the regulation agent, whether or not `error` is set. */
  function Extract(r: Record, agents: Agents): (r': Record)
    ensures r'.(regulationText := r.regulationText, error := r.error) == r
    ensures var o := agents.regulation(r.originalQuestion);
      && (o.Ok? ==> r'.regulationText == Some(o.text) && r'.error == r.error)
      && (o.Fail? ==> r'.error == Some(ExtractionFailed + o.detail) && r'.regulationText == r.regulationText)
  {
    match agents.regulation(r.originalQuestion)
    case Ok(text) => r.(regulationText := Some(text))
    case Fail(detail) => r.(error := Some(ExtractionFailed + detail))
  }

  /** Node "identify": a no-op once `error` is set; otherwise stores the actor agent's raw answer. */
  function Identify(r: Record, agents: Agents): (r': Record)
    ensures Truthy(r.error) ==> r' == r
    ensures r'.(actorAnalysis := r.actorAnalysis, error := r.error) == r
    ensures var o := agents.actors(Str(r.regulationText));
      !Truthy(r.error) ==>
        && (o.Ok? ==> r'.actorAnalysis == Some(o.text) && r'.error == r.error)
        && (o.Fail? ==> r'.error == Some(IdentificationFailed + o.detail) && r'.actorAnalysis == r.actorAnalysis)
  {
    if Truthy(r.error) then r
    else match agents.actors(Str(r.regulationText))
      case Ok(text) => r.(actorAnalysis := Some(text))
      case Fail(detail) => r.(error := Some(IdentificationFailed + detail))
  }

  /**
   * The conditional edge out of "identify" (determine_flint_eligibility). It
   * does not look at `error`: it goes to "format" exactly when the actor
   * answer is the exact string "Yes", and to "no_actors" on anything else,
   * None included.
   */
  function FlintEligibility(r: Record): (next: string)
    ensures next == "format" || next == "no_actors"
    ensures next == "format" <==> r.actorAnalysis == Some(ActorFound)
  {
    if r.actorAnalysis != Some(ActorFound) then "no_actors" else "format"
  }

  /** Node "no_actors": overwrites `error` with the fixed rejection, whatever it held. */
  function NoActors(r: Record): (r': Record)
    ensures r'.error == Some(NoActorsMessage) && Truthy(r'.error)
    ensures r'.(error := r.error) == r
  {
    r.(error := Some(NoActorsMessage))
  }

  /** Node "format": a no-op once `error` is set; otherwise stores the FLINT agent's output. */
  function Format(r: Record, agents: Agents): (r': Record)
    ensures Truthy(r.error) ==> r' == r
    ensures r'.(flintFormat := r.flintFormat, error := r.error) == r
    ensures var o := agents.flint(Str(r.regulationText));
      !Truthy(r.error) ==>
        && (o.Ok? ==> r'.flintFormat == Some(o.text) && r'.error == r.error)
        && (o.Fail? ==> r'.error == Some(FormattingFailed + o.detail) && r'.flintFormat == r.flintFormat)
  {
    if Truthy(r.error) then r
    else match agents.flint(Str(r.regulationText))
      case Ok(text) => r.(flintFormat := Some(text))
      case Fail(detail) => r.(error := Some(FormattingFailed + detail))
  }

  /**
   * Node "prepare": with `error` set the response carries only the error;
   * otherwise it carries the regulation, the actor answer and the FLINT text.
   */
  function Prepare(r: Record): (r': Record)
    ensures r'.(finalResponse := r.finalResponse) == r
    ensures r'.finalResponse.Some?
    ensures Truthy(r.error) ==> r'.finalResponse.value == map["response" := r.error]
    ensures !Truthy(r.error) ==>
      var d := r'.finalResponse.value;
      && d.Keys == {"regulation", "actor_analysis", "response"}
      && d["regulation"] == r.regulationText
      && d["actor_analysis"] == r.actorAnalysis
      && d["response"] == r.flintFormat
  {
    if Truthy(r.error) then r.(finalResponse := Some(map["response" := r.error]))
    else r.(finalResponse := Some(map[
      "regulation" := r.regulationText,
      "actor_analysis" := r.actorAnalysis,
      "response" := r.flintFormat]))
  }

  // ---------------------------------------------------------------------------
  // The wiring of create_regulation_graph
  // ---------------------------------------------------------------------------

  const Nodes: set<string> := {"extract", "identify", "format", "prepare", "no_actors"}
  const Entry := "extract"
  const Finish := "prepare"

  /** The node registered under `node` (add_node). No node rewrites the question. */
  function Apply(node: string, r: Record, agents: Agents): (r': Record)
    requires node in Nodes
    ensures r'.originalQuestion == r.originalQuestion
  {
    if node == "extract" then Extract(r, agents)
    else if node == "identify" then Identify(r, agents)
    else if node == "format" then Format(r, agents)
    else if node == "no_actors" then NoActors(r)
    else Prepare(r)
  }

  /** The node that follows `node`, given the state it produced (add_edge, add_conditional_edges). */
  function Next(node: string, r: Record): (next: string)
    requires node in Nodes - {Finish}
    ensures next in Nodes
  {
    if node == "extract" then "identify"
    else if node == "identify" then FlintEligibility(r)
    else "prepare"
  }

  /** One executed node and the dictionary it returned. */
  datatype Step = Step(node: string, after: Record)

  /** A run of the compiled graph: the nodes it executes, in order, with the state after each. */
  function Trace(r: Record, agents: Agents): (t: seq<Step>)
    ensures |t| == 4
  {
    var extracted := Extract(r, agents);
    var identified := Identify(extracted, agents);
    var next := FlintEligibility(identified);
    var branched := if next == "format" then Format(identified, agents) else NoActors(identified);
    [Step("extract", extracted), Step("identify", identified), Step(next, branched), Step("prepare", Prepare(branched))]
  }

  /**
   * The run follows the wiring: it starts at the entry, each node is the
   * registered function applied to the previous state, each successor is the
   * one the edges name, and it stops at the finish node, which it reaches once.
   */
  lemma TraceFollowsWiring(r: Record, agents: Agents)
    ensures var t := Trace(r, agents);
      && t[0].node == Entry && t[|t| - 1].node == Finish
      && (forall i :: 0 <= i < |t| ==> t[i].node in Nodes)
      && (forall i :: 0 <= i < |t| ==> (t[i].node == Finish <==> i == |t| - 1))
      && t[0].after == Apply(Entry, r, agents)
      && (forall i :: 0 < i < |t| ==>
            t[i].node == Next(t[i - 1].node, t[i - 1].after) && t[i].after == Apply(t[i].node, t[i - 1].after, agents))
  {
    var t := Trace(r, agents);
    var branch := FlintEligibility(t[1].after);
    assert t[2].node == branch && (branch == "format" || branch == "no_actors");
    assert t[2].after == Apply(branch, t[1].after, agents);
  }

  /** The state the compiled graph returns. */
  function Run(r: Record, agents: Agents): (r': Record)
    ensures r'.originalQuestion == r.originalQuestion
    ensures r'.finalResponse.Some?
    ensures Truthy(r'.error) ==> r'.finalResponse.value == map["response" := r'.error]
    ensures !Truthy(r'.error) ==>
      var d := r'.finalResponse.value;
      && d.Keys == {"regulation", "actor_analysis", "response"}
      && d["regulation"] == r'.regulationText
      && d["actor_analysis"] == Some(ActorFound)
      && d["response"] == r'.flintFormat
  {
    Trace(r, agents)[3].after
  }

  // ---------------------------------------------------------------------------
  // Properties of a run
  // ---------------------------------------------------------------------------

  /**
   * A run ends without error exactly when the state came in without one, all
   * three agents answered, and the actor agent answered exactly "Yes"; the
   * response then holds the extracted regulation and the FLINT agent's
   * output on that very text.
   */
  lemma SuccessfulRun(r: Record, agents: Agents)
    ensures var r' := Run(r, agents);
      var e := agents.regulation(r.originalQuestion);
      !Truthy(r'.error) <==>
        && !Truthy(r.error)
        && e.Ok?
        && agents.actors(e.text) == Ok(ActorFound)
        && agents.flint(e.text).Ok?
    ensures var r' := Run(r, agents);
      var e := agents.regulation(r.originalQuestion);
      !Truthy(r'.error) ==>
        r'.finalResponse == Some(map[
          "regulation" := Some(e.text),
          "actor_analysis" := Some(ActorFound),
          "response" := Some(agents.flint(e.text).text)])
  {
  }

  /**
   * Started from a state whose actor answer is None (as the router starts
   * it), a failed extraction or a failed identification never reaches the
   * caller: the conditional edge still runs, sends the state to "no_actors",
   * and that node replaces the failure text with the rejection message.
   */
  lemma EarlyFailuresBecomeNoActors(r: Record, agents: Agents)
    requires r.actorAnalysis == None
    requires var e := agents.regulation(r.originalQuestion);
      e.Fail? || (!Truthy(r.error) && agents.actors(e.text).Fail?)
    ensures Run(r, agents).error == Some(NoActorsMessage)
    ensures Run(r, agents).finalResponse == Some(map["response" := Some(NoActorsMessage)])
  {
  }

  /** Any actor answer other than exactly "Yes" ("yes", "Yes\n", an explanation) ends in the rejection. */
  lemma OnlyExactYesIsFormatted(r: Record, agents: Agents)
    requires !Truthy(r.error)
    requires var e := agents.regulation(r.originalQuestion);
      e.Ok? && agents.actors(e.text).Ok? && agents.actors(e.text).text != ActorFound
    ensures Trace(r, agents)[2].node == "no_actors"
    ensures Run(r, agents).finalResponse == Some(map["response" := Some(NoActorsMessage)])
  {
  }

  /**
   * Once a node has left `error` set, no later node of the same run changes
   * the regulation text, the actor answer or the FLINT text, and the error
   * stays set.
   */
  lemma ErrorFreezesResults(r: Record, agents: Agents, i: nat, j: nat)
    requires i <= j < 4
    requires Truthy(Trace(r, agents)[i].after.error)
    ensures var t := Trace(r, agents);
      && Truthy(t[j].after.error)
      && t[j].after.regulationText == t[i].after.regulationText
      && t[j].after.actorAnalysis == t[i].after.actorAnalysis
      && t[j].after.flintFormat == t[i].after.flintFormat
  {
  }

  /**
   * From the router's fresh sub-state the caller sees one of three responses:
   * the regulation with its FLINT text, the rejection message, or a
   * formatting failure. Extraction and identification failures are lost.
   */
  lemma ThreeResponses(question: string, agents: Agents)
    ensures var d := Run(Initial(question), agents).finalResponse.value;
      || (d.Keys == {"regulation", "actor_analysis", "response"} && d["actor_analysis"] == Some(ActorFound))
      || d == map["response" := Some(NoActorsMessage)]
      || (exists detail :: d == map["response" := Some(FormattingFailed + detail)])
  {
    var r := Initial(question);
    var e := agents.regulation(question);
    if e.Ok? && agents.actors(e.text) == Ok(ActorFound) && agents.flint(e.text).Fail? {
      var detail := agents.flint(e.text).detail;
      assert Run(r, agents).finalResponse.value == map["response" := Some(FormattingFailed + detail)];
    }
  }

  // ---------------------------------------------------------------------------
  // The dictionary, updated in place, and the compiled graph
  // ---------------------------------------------------------------------------

  /** A RegulationState dictionary; the nodes assign its keys in place. */
  class RegulationState {
    var originalQuestion: string
    var regulationText: Option<string>
    var actorAnalysis: Option<string>
    var flintFormat: Option<string>
    var finalResponse: Option<Dict>
    var error: Option<string>

    function Contents(): Record
      reads this
    {
      Record(originalQuestion, regulationText, actorAnalysis, flintFormat, finalResponse, error)
    }

    constructor (r: Record)
      ensures Contents() == r
    {
      originalQuestion := r.originalQuestion;
      regulationText := r.regulationText;
      actorAnalysis := r.actorAnalysis;
      flintFormat := r.flintFormat;
      finalResponse := r.finalResponse;
      error := r.error;
    }
  }

  /** What create_regulation_graph returns: the nodes, closed over their agents. */
  class RegulationGraph {
    const agents: Agents

    constructor (agents: Agents)
      ensures this.agents == agents
    {
      this.agents := agents;
    }

    method ExtractRegulation(state: RegulationState)
      modifies state
      ensures state.Contents() == Extract(old(state.Contents()), agents)
    {
      match agents.regulation(state.originalQuestion)
      case Ok(text) =>
        state.regulationText := Some(text);
      case Fail(detail) =>
        state.error := Some(ExtractionFailed + detail);
    }

    method IdentifyActors(state: RegulationState)
      modifies state
      ensures state.Contents() == Identify(old(state.Contents()), agents)
    {
      if Truthy(state.error) {
        return;
      }
      match agents.actors(Str(state.regulationText))
      case Ok(text) =>
        state.actorAnalysis := Some(text);
      case Fail(detail) =>
        state.error := Some(IdentificationFailed + detail);
    }

    method HandleNoActors(state: RegulationState)
      modifies state
      ensures state.Contents() == NoActors(old(state.Contents()))
    {
      state.error := Some(NoActorsMessage);
    }

    method FormatFlint(state: RegulationState)
      modifies state
      ensures state.Contents() == Format(old(state.Contents()), agents)
    {
      if Truthy(state.error) {
        return;
      }
      match agents.flint(Str(state.regulationText))
      case Ok(text) =>
        state.flintFormat := Some(text);
      case Fail(detail) =>
        state.error := Some(FormattingFailed + detail);
    }

    method PrepareResponse(state: RegulationState)
      modifies state
      ensures state.Contents() == Prepare(old(state.Contents()))
    {
      if Truthy(state.error) {
        state.finalResponse := Some(map["response" := state.error]);
        return;
      }
      state.finalResponse := Some(map[
        "regulation" := state.regulationText,
        "actor_analysis" := state.actorAnalysis,
        "response" := state.flintFormat]);
    }

    /** `invoke`: runs the wiring on a fresh dictionary holding `input` and returns it. */
    method Invoke(input: Record) returns (result: RegulationState)
      ensures fresh(result)
      ensures result.Contents() == Run(input, agents)
    {
      result := new RegulationState(input);
      ExtractRegulation(result);
      IdentifyActors(result);
      if FlintEligibility(result.Contents()) == "format" {
        FormatFlint(result);
      } else {
        HandleNoActors(result);
      }
      PrepareResponse(result);
    }
  }
}
