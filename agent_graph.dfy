/**
 * The three-node agent workflow: an orchestrator classifies the user's query,
 * an analyzer (reached only for technical queries) writes an analysis, and a
 * responder writes the final answer. Each node is a pure function from the
 * shared state to a new state; the graph wiring is a transition function and
 * a run follows it from the entry node until the terminal marker.
 *
 * The language model is a parameter `llm`: any total function from a prompt
 * to the text of the reply.
 */
module AgentGraph {
  import opened Text

  /** The shared record every node receives in full and returns in full. */
  datatype AgentState = AgentState(
    userQuery: string,      // the user's question, set once by the caller
    queryType: string,      // classification label
    analysis: string,       // analyzer output, "" until the analyzer runs
    finalResponse: string,  // the run's answer
    nextStep: string        // routing request written by each node
  )

  const Technical := "technical"
  const Greeting := "greeting"
  const General := "general"

  const AnalyzerStep := "analyzer"
  const ResponderStep := "responder"
  const EndStep := "end"

  predicate IsLabel(s: string) {
    s == Technical || s == Greeting || s == General
  }

  /** The prompts the nodes send. Their wording is left abstract; each
      constructor records which template was used and what it embeds. */
  datatype Prompt =
    | ClassifyQuery(query: string)
    | AnalyseQuery(query: string)
    | RespondWithAnalysis(analysis: string, query: string)
    | RespondToQuery(query: string)

  /** The language model: the text of its reply to a prompt. */
  type Llm = Prompt -> string

  /** The initial state built for a query: every other field is empty, so
      there is no analysis to ground a response in yet, and no routing label
      is set until the orchestrator writes one. */
  function InitialState(query: string): (s: AgentState)
    ensures s.userQuery == query
    ensures s.analysis == "" && s.finalResponse == ""
    ensures !IsLabel(s.queryType)
    ensures s.nextStep != AnalyzerStep && s.nextStep != ResponderStep
  {
    AgentState(query, "", "", "", "")
  }

  /** Normalises a classification reply: strip, lower-case, and fall back to
      `general` for anything that is not one of the three labels. */
  function Classify(reply: string): (category: string)
    ensures IsLabel(category)
  {
    var normalised := Lower(Strip(reply));
    if IsLabel(normalised) then normalised else General
  }

  /** The category is the normalised reply when that is a label, and
      `general` otherwise. */
  lemma ClassifyNormalForm(reply: string)
    ensures IsLabel(Lower(Strip(reply))) ==> Classify(reply) == Lower(Strip(reply))
    ensures !IsLabel(Lower(Strip(reply))) ==> Classify(reply) == General
  {
  }

  /** Replies that differ only in letter case and surrounding whitespace are
      classified alike. */
  lemma {:induction false} ClassifyIgnoresCaseAndPadding(pre: string, a: string, b: string, post: string)
    requires AllSpace(pre) && AllSpace(post)
    requires Lower(a) == Lower(b)
    ensures Classify(pre + a + post) == Classify(b)
  {
    var x := pre + a + post;
    assert Lower(Strip(x)) == Lower(Strip(b)) by {
      StripIgnoresPadding(pre, a, post);
      StripLower(a);
      StripLower(b);
    }
    SameNormalFormSameCategory(x, b);
  }

  lemma SameNormalFormSameCategory(x: string, y: string)
    requires Lower(Strip(x)) == Lower(Strip(y))
    ensures Classify(x) == Classify(y)
  {
  }

  /** A label in any letter case, with any whitespace around it, is
      recognised as that label. */
  lemma PaddedLabelInAnyCase(pre: string, word: string, post: string, category: string)
    requires AllSpace(pre) && AllSpace(post)
    requires IsLabel(category) && Lower(word) == category
    ensures Classify(pre + word + post) == category
  {
    LowerOfLower(Lower(word));
    ClassifyIgnoresCaseAndPadding(pre, word, category, post);
    LabelIsItsOwnCategory(category);
  }

  lemma LabelIsItsOwnCategory(category: string)
    requires IsLabel(category)
    ensures Classify(category) == category
  {
    StripTrimmed(category);
    LowerOfLower(category);
  }

  /** The reply `"  Technical\n"` is classified as technical. */
  lemma PaddedCapitalisedTechnical(reply: string)
    requires reply == "  Technical\n"
    ensures Classify(reply) == Technical
  {
    var pre, word, post := reply[..2], reply[2..11], reply[11..];
    assert reply == pre + word + post;
    assert AllSpace(pre) && AllSpace(post);
    var lowered := Lower(word);
    assert LowerChar('T') == 't';
    forall i | 1 <= i < |word| ensures lowered[i] == Technical[i] {
      assert !IsUpper(word[i]);
    }
    assert lowered[0] == Technical[0];
    PaddedLabelInAnyCase(pre, word, post, Technical);
  }

  /** A reply outside the three labels, such as `"maybe"`, falls back to
      `general`. */
  lemma UnrecognisedReplyIsGeneral()
    ensures Classify("maybe") == General
  {
    StripTrimmed("maybe");
    LowerOfLower("maybe");
  }

  /** The responder grounds its prompt in the analysis exactly when the
      analysis is non-empty. */
  function ResponsePrompt(s: AgentState): (p: Prompt)
    ensures p.query == s.userQuery
    ensures p.RespondWithAnalysis? <==> s.analysis != ""
    ensures p.RespondWithAnalysis? ==> p.analysis == s.analysis
    ensures p.RespondWithAnalysis? || p.RespondToQuery?
  {
    if s.analysis != "" then RespondWithAnalysis(s.analysis, s.userQuery)
    else RespondToQuery(s.userQuery)
  }

  /** Orchestrator: classifies the query and requests the analyzer exactly for
      technical queries; only `queryType` and `nextStep` change. */
  function OrchestratorNode(llm: Llm, s: AgentState): (t: AgentState)
    ensures IsLabel(t.queryType)
    ensures t.queryType == Classify(llm(ClassifyQuery(s.userQuery)))
    ensures t.nextStep == AnalyzerStep <==> t.queryType == Technical
    ensures t.nextStep == AnalyzerStep || t.nextStep == ResponderStep
    ensures t.userQuery == s.userQuery && t.analysis == s.analysis
    ensures t.finalResponse == s.finalResponse
  {
    var queryType := Classify(llm(PromptOf(Orchestrator, s)));
    var nextStep := if queryType == Technical then AnalyzerStep else ResponderStep;
    s.(queryType := queryType, nextStep := nextStep)
  }

  /** Analyzer: stores the stripped analysis and requests the responder; only
      `analysis` and `nextStep` change. */
  function AnalyzerNode(llm: Llm, s: AgentState): (t: AgentState)
    ensures t.analysis == Strip(llm(AnalyseQuery(s.userQuery)))
    ensures IsTrimmed(t.analysis)
    ensures t.nextStep == ResponderStep
    ensures t.userQuery == s.userQuery && t.queryType == s.queryType
    ensures t.finalResponse == s.finalResponse
  {
    s.(analysis := Strip(llm(PromptOf(Analyzer, s))), nextStep := ResponderStep)
  }

  /** Responder: stores the stripped answer and marks the end; only
      `finalResponse` and `nextStep` change. */
  function ResponderNode(llm: Llm, s: AgentState): (t: AgentState)
    ensures t.finalResponse == Strip(llm(ResponsePrompt(s)))
    ensures IsTrimmed(t.finalResponse)
    ensures t.nextStep == EndStep
    ensures t.userQuery == s.userQuery && t.queryType == s.queryType
    ensures t.analysis == s.analysis
  {
    s.(finalResponse := Strip(llm(PromptOf(Responder, s))), nextStep := EndStep)
  }

  /** The graph's nodes and the terminal marker. */
  datatype NodeName = Orchestrator | Analyzer | Responder | End

  datatype RunError =
    | UnknownRoutingLabel(name: string)  // the routing function returned a label with no target
    | StepLimitExceeded                  // the run did not reach the end within its step limit

  datatype Result<T> = Ok(value: T) | Err(error: RunError)

  /** Routing after the orchestrator reads the state's `nextStep`. */
  function RouteAfterOrchestrator(s: AgentState): string {
    s.nextStep
  }

  /** The label-to-node table of the orchestrator's conditional edge. */
  const OrchestratorBranches: map<string, NodeName> :=
    map[AnalyzerStep := Analyzer, ResponderStep := Responder]

  /** Whatever the model replies, the label the orchestrator writes is a key
      of the routing table, and it selects the analyzer exactly for a
      technical query and the responder otherwise. */
  lemma OrchestratorRouteHasTarget(llm: Llm, s: AgentState)
    ensures
      var t := OrchestratorNode(llm, s);
      && RouteAfterOrchestrator(t) in OrchestratorBranches
      && (OrchestratorBranches[RouteAfterOrchestrator(t)] == Analyzer <==> t.queryType == Technical)
      && (OrchestratorBranches[RouteAfterOrchestrator(t)] == Responder <==> t.queryType != Technical)
  {
  }

  /** Longest number of node invocations from a node to the end: the wiring
      has no cycle because every edge lowers it. */
  function Height(n: NodeName): nat {
    match n
    case Orchestrator => 3
    case Analyzer => 2
    case Responder => 1
    case End => 0
  }

  /** The wiring: a conditional edge out of the orchestrator, and static edges
      analyzer -> responder and responder -> end. */
  function Successor(n: NodeName, s: AgentState): (r: Result<NodeName>)
    requires n != End
    ensures r.Ok? ==> Height(r.value) < Height(n)
    ensures r.Err? <==> n == Orchestrator && s.nextStep != AnalyzerStep && s.nextStep != ResponderStep
    ensures r.Err? ==> r.error == UnknownRoutingLabel(s.nextStep)
  {
    match n
    case Orchestrator =>
      var category := RouteAfterOrchestrator(s);
      if category in OrchestratorBranches then Ok(OrchestratorBranches[category])
      else Err(UnknownRoutingLabel(category))
    case Analyzer => Ok(Responder)
    case Responder => Ok(End)
  }

  /** Invokes one node on the state. */
  function Apply(llm: Llm, n: NodeName, s: AgentState): AgentState
    requires n != End
  {
    match n
    case Orchestrator => OrchestratorNode(llm, s)
    case Analyzer => AnalyzerNode(llm, s)
    case Responder => ResponderNode(llm, s)
  }

  /** The prompt a node sends to the model on the state it receives: each
      node asks the model with exactly this prompt, and a run records it. */
  function PromptOf(n: NodeName, s: AgentState): Prompt
    requires n != End
  {
    match n
    case Orchestrator => ClassifyQuery(s.userQuery)
    case Analyzer => AnalyseQuery(s.userQuery)
    case Responder => ResponsePrompt(s)
  }

  /** One node invocation of a run and the prompt it sent. */
  datatype Invocation = Invocation(node: NodeName, prompt: Prompt)

  /** A finished run: the invocations in order and the final state. */
  datatype Outcome = Outcome(calls: seq<Invocation>, final: AgentState)

  /** Runs the graph from node `n` on state `s`, allowing at most `limit`
      node invocations. */
  function Run(llm: Llm, n: NodeName, s: AgentState, limit: nat): (r: Result<Outcome>)
    ensures r.Ok? ==> |r.value.calls| <= Height(n) && |r.value.calls| <= limit
    ensures r.Ok? ==> forall c :: c in r.value.calls ==> c.node != End
    decreases limit
  {
    if n == End then Ok(Outcome([], s))
    else if limit == 0 then Err(StepLimitExceeded)
    else
      var t := Apply(llm, n, s);
      match Successor(n, t)
      case Err(e) => Err(e)
      case Ok(m) =>
        match Run(llm, m, t, limit - 1)
        case Err(e) => Err(e)
        case Ok(o) => Ok(Outcome([Invocation(n, PromptOf(n, s))] + o.calls, o.final))
  }

  /** The step limit of a run: the graph library's default recursion limit. */
  const RecursionLimit: nat := 25

  /** Runs a query through the graph from the orchestrator. Whatever the
      model replies, the run finishes: it starts at the orchestrator, makes
      two or three node invocations, ends at the responder, and the final
      state carries the query and the end marker. */
  function RunQuery(llm: Llm, query: string): (r: Result<Outcome>)
    ensures r.Ok?
    ensures 2 <= |r.value.calls| <= 3
    ensures r.value.calls[0].node == Orchestrator
    ensures r.value.calls[|r.value.calls| - 1].node == Responder
    ensures r.value.final.userQuery == query
    ensures r.value.final.nextStep == EndStep
  {
    RunFromOrchestrator(llm, InitialState(query), RecursionLimit);
    Run(llm, Orchestrator, InitialState(query), RecursionLimit)
  }

  /** From any node and any state, a run with a limit of at least the node's
      height (3 at most) succeeds, and its outcome does not depend on the
      limit: the graph has no cycle and every routing label the orchestrator
      writes has a target. */
  lemma {:induction false} RunEndsWithinHeight(llm: Llm, n: NodeName, s: AgentState, limit: nat)
    requires limit >= Height(n)
    ensures Run(llm, n, s, limit).Ok?
    ensures Run(llm, n, s, limit) == Run(llm, n, s, Height(n))
    decreases Height(n)
  {
    if n != End {
      var t := Apply(llm, n, s);
      if n == Orchestrator {
        assert t.nextStep == AnalyzerStep || t.nextStep == ResponderStep;
      }
      var m := Successor(n, t).value;
      RunEndsWithinHeight(llm, m, t, limit - 1);
      RunEndsWithinHeight(llm, m, t, Height(n) - 1);
    }
  }

  lemma RunFromResponder(llm: Llm, s: AgentState, limit: nat)
    requires limit >= 1
    ensures Run(llm, Responder, s, limit).Ok?
    ensures Run(llm, Responder, s, limit).value.calls == [Invocation(Responder, ResponsePrompt(s))]
    ensures Run(llm, Responder, s, limit).value.final == ResponderNode(llm, s)
  {
    var r := Run(llm, Responder, s, limit);
    assert Run(llm, End, ResponderNode(llm, s), limit - 1).Ok?;
    assert r.value.calls == [Invocation(Responder, ResponsePrompt(s))] + [];
  }

  lemma RunFromAnalyzer(llm: Llm, s: AgentState, limit: nat)
    requires limit >= 2
    ensures Run(llm, Analyzer, s, limit).Ok?
    ensures Run(llm, Analyzer, s, limit).value.calls
         == [Invocation(Analyzer, AnalyseQuery(s.userQuery)),
             Invocation(Responder, ResponsePrompt(AnalyzerNode(llm, s)))]
    ensures Run(llm, Analyzer, s, limit).value.final == ResponderNode(llm, AnalyzerNode(llm, s))
  {
    RunFromResponder(llm, AnalyzerNode(llm, s), limit - 1);
  }

  /** From any state, the orchestrator hands a technical query to the
      analyzer and then the responder, and any other query straight to the
      responder; the run then ends. */
  lemma RunFromOrchestrator(llm: Llm, s: AgentState, limit: nat)
    requires limit >= 3
    ensures
      var t := OrchestratorNode(llm, s);
      var r := Run(llm, Orchestrator, s, limit);
      && r.Ok?
      && (t.queryType == Technical ==>
            && r.value.calls == [Invocation(Orchestrator, ClassifyQuery(s.userQuery)),
                                 Invocation(Analyzer, AnalyseQuery(t.userQuery)),
                                 Invocation(Responder, ResponsePrompt(AnalyzerNode(llm, t)))]
            && r.value.final == ResponderNode(llm, AnalyzerNode(llm, t)))
      && (t.queryType != Technical ==>
            && r.value.calls == [Invocation(Orchestrator, ClassifyQuery(s.userQuery)),
                                 Invocation(Responder, ResponsePrompt(t))]
            && r.value.final == ResponderNode(llm, t))
  {
    var t := OrchestratorNode(llm, s);
    if t.queryType == Technical {
      RunFromAnalyzer(llm, t, limit - 1);
    } else {
      RunFromResponder(llm, t, limit - 1);
    }
  }

  /** A query the orchestrator classifies as technical visits the
      orchestrator, the analyzer and the responder, in that order, and ends;
      the responder grounds its prompt in the analysis unless that is empty. */
  lemma TechnicalRun(llm: Llm, query: string)
    requires Classify(llm(ClassifyQuery(query))) == Technical
    ensures
      var analysis := Strip(llm(AnalyseQuery(query)));
      var respond := if analysis != "" then RespondWithAnalysis(analysis, query)
                     else RespondToQuery(query);
      && RunQuery(llm, query).Ok?
      && RunQuery(llm, query).value.calls
           == [Invocation(Orchestrator, ClassifyQuery(query)),
               Invocation(Analyzer, AnalyseQuery(query)),
               Invocation(Responder, respond)]
      && RunQuery(llm, query).value.final
           == AgentState(query, Technical, analysis, Strip(llm(respond)), EndStep)
  {
    var s0 := InitialState(query);
    RunFromOrchestrator(llm, s0, RecursionLimit);
    var s1 := OrchestratorNode(llm, s0);
    assert s1 == AgentState(query, Technical, "", "", AnalyzerStep);
  }

  /** Any other classification visits only the orchestrator and the responder:
      the analyzer never runs, `analysis` stays empty and the responder uses
      the prompt without analysis. */
  lemma NonTechnicalRun(llm: Llm, query: string)
    requires Classify(llm(ClassifyQuery(query))) != Technical
    ensures
      var category := Classify(llm(ClassifyQuery(query)));
      && RunQuery(llm, query).Ok?
      && RunQuery(llm, query).value.calls
           == [Invocation(Orchestrator, ClassifyQuery(query)),
               Invocation(Responder, RespondToQuery(query))]
      && RunQuery(llm, query).value.final
           == AgentState(query, category, "", Strip(llm(RespondToQuery(query))), EndStep)
  {
    var s0 := InitialState(query);
    RunFromOrchestrator(llm, s0, RecursionLimit);
    var s1 := OrchestratorNode(llm, s0);
    assert s1 == AgentState(query, s1.queryType, "", "", ResponderStep);
  }

  /** A classification reply that normalises to none of the labels (such as
      `"maybe"`) sends the query straight to the responder with `queryType`
      set to `general`: the analyzer is never invoked. */
  lemma FallbackSkipsAnalyzer(llm: Llm, query: string)
    requires !IsLabel(Lower(Strip(llm(ClassifyQuery(query)))))
    ensures RunQuery(llm, query).Ok?
    ensures RunQuery(llm, query).value.final.queryType == General
    ensures forall c :: c in RunQuery(llm, query).value.calls ==> c.node != Analyzer
  {
    ClassifyNormalForm(llm(ClassifyQuery(query)));
    NonTechnicalRun(llm, query);
  }

  /** End to end: with a model that classifies as `technical`, analyses as
      `ANALYSIS` and responds `RESPONSE`, the run's final state carries both. */
  lemma ExampleTechnicalRun(llm: Llm)
    requires llm(ClassifyQuery("Explain async/await")) == "technical"
    requires llm(AnalyseQuery("Explain async/await")) == "ANALYSIS"
    requires llm(RespondWithAnalysis("ANALYSIS", "Explain async/await")) == "RESPONSE"
    ensures RunQuery(llm, "Explain async/await").Ok?
    ensures RunQuery(llm, "Explain async/await").value.final.analysis == "ANALYSIS"
    ensures RunQuery(llm, "Explain async/await").value.final.finalResponse == "RESPONSE"
  {
    var query := "Explain async/await";
    assert Classify(llm(ClassifyQuery(query))) == Technical by {
      StripTrimmed(Technical);
      LowerOfLower(Technical);
    }
    assert Strip("ANALYSIS") == "ANALYSIS" by {
      StripTrimmed("ANALYSIS");
    }
    assert Strip("RESPONSE") == "RESPONSE" by {
      StripTrimmed("RESPONSE");
    }
    TechnicalRun(llm, query);
  }
}
