/** The main RAG workflow: triage the query with the language model, then
    either answer that it is out of scope, or run the retrieval sub-graph and
    ask the language model for an answer from the retrieved context. The
    language model and the retrieval collaborators are parameters; the
    LangGraph runtime is the routing machine of `StateGraphs`. */
module MainWorkflow {
  import opened Documents
  import opened Text
  import opened StateGraphs
  import opened RetrievalWorkflow

  /** The system prompts of `prompt_templates`: the triage prompt and the
      answer-generation prompt. Their texts reach only the language model. */
  datatype SystemPrompt = TriageSystem | AnswerSystem

  /** The two labels the routing map knows. */
  const OutOfScopeLabel: string := "OUT_OF_SCOPE"
  const DataQuestionLabel: string := "DATA_QUESTION"

  /** The answer of `out_of_scope_node`. */
  const OutOfScopeAnswer: string := "Your query is out of scope."

  /** What asking one question yields: the state's answer, or the label the
      conditional edge after triage has no route for. */
  datatype Reply = Reply(text: string) | NoRouteFor(route: string)

  /** The answer `main.py` prints when the final state has none. */
  const NoAnswer: string := "[No answer returned]"

  /** The text every user prompt of the workflow starts with. */
  const PromptHead: string := "Evaluate user query: "

  /** `query_ai(system_prompt, user_prompt)` and the retrieval sub-graph's
      collaborators. */
  datatype Collaborators = Collaborators(askAi: (SystemPrompt, string) -> string, retrievers: Retrievers)

  /** `f"Evaluate user query: {query}"`: the query follows the fixed head
      unchanged, so it can be read back from the prompt. */
  function TriagePrompt(query: string): (p: string)
    ensures |p| == |PromptHead| + |query|
    ensures p[..|PromptHead|] == PromptHead && p[|PromptHead|..] == query
  {
    PromptHead + query
  }

  /** `f"Evaluate user query: {query} with context: {context}"`: the triage
      prompt of the same query, the fixed separator, then the context. */
  function AnswerPrompt(query: string, context: string): (p: string)
    ensures p == TriagePrompt(query) + " with context: " + context
    ensures p[..|PromptHead| + |query|] == TriagePrompt(query)
    ensures p[|p| - |context|..] == context
  {
    PromptHead + query + " with context: " + context
  }

  /** `"\n\n".join(doc.page_content for doc in docs)`. */
  function Context(docs: seq<Document>): string
  {
    Join("\n\n", PageContents(docs))
  }

  /** No documents give an empty context, one document gives its text. */
  lemma ContextSmall(docs: seq<Document>)
    ensures |docs| == 0 ==> Context(docs) == ""
    ensures |docs| == 1 ==> Context(docs) == docs[0].pageContent
  {
  }

  /** The context keeps the retrieval order: one more document appends a
      blank line and its text. */
  lemma ContextAppend(docs: seq<Document>, d: Document)
    requires |docs| > 0
    ensures Context(docs + [d]) == Context(docs) + "\n\n" + d.pageContent
  {
    assert PageContents(docs + [d]) == PageContents(docs) + [d.pageContent];
    JoinAppend("\n\n", PageContents(docs), d.pageContent);
  }

  /** The context holds every retrieved text and one blank line between
      neighbours, nothing more. */
  lemma ContextLength(docs: seq<Document>)
    requires |docs| > 0
    ensures |Context(docs)| == TotalLength(PageContents(docs)) + 2 * (|docs| - 1)
  {
    JoinLength("\n\n", PageContents(docs));
  }

  // ---------------------------------------------------------------------
  // The workflow graph
  // ---------------------------------------------------------------------

  /** The graph as built at module level by `add_node`, `set_entry_point`,
      `add_conditional_edges` and `add_edge`. */
  method BuildMainGraph() returns (g: Graph)
    ensures g == MainGraph()
  {
    var w := new StateGraph();
    w.AddNode("triage");
    w.AddNode("retrieval");
    w.AddNode("out_of_scope");
    w.AddNode("answer");
    w.SetEntryPoint("triage");
    w.AddConditionalEdges("triage", map[OutOfScopeLabel := Named("out_of_scope"), DataQuestionLabel := Named("retrieval")]);
    w.AddEdge(Named("retrieval"), Named("answer"));
    w.AddEdge(Named("out_of_scope"), End);
    w.AddEdge(Named("answer"), End);
    g := w.Compile();
  }

  function MainGraph(): Graph
  {
    Graph({"triage", "retrieval", "out_of_scope", "answer"},
          [(Start, Named("triage")),
           (Named("retrieval"), Named("answer")),
           (Named("out_of_scope"), End),
           (Named("answer"), End)],
          map[Named("triage") := map[OutOfScopeLabel := Named("out_of_scope"), DataQuestionLabel := Named("retrieval")]])
  }

  /** How many steps remain at most from each node of the workflow. */
  function MainRank(n: Node): nat
  {
    match n
    case Start => 4
    case End => 0
    case Named(x) => if x == "triage" then 3 else if x == "retrieval" then 2 else 1
  }

  /** The routing step at each node: only `triage` reads the label, and a
      label other than the two known ones has no route. */
  lemma MainGraphSteps(route: string)
    ensures Next(MainGraph(), Start, route) == Go(Named("triage"))
    ensures route == OutOfScopeLabel ==> Next(MainGraph(), Named("triage"), route) == Go(Named("out_of_scope"))
    ensures route == DataQuestionLabel ==> Next(MainGraph(), Named("triage"), route) == Go(Named("retrieval"))
    ensures route != OutOfScopeLabel && route != DataQuestionLabel ==>
      Next(MainGraph(), Named("triage"), route) == NoRoute(route)
    ensures Next(MainGraph(), Named("retrieval"), route) == Go(Named("answer"))
    ensures Next(MainGraph(), Named("out_of_scope"), route) == Go(End)
    ensures Next(MainGraph(), Named("answer"), route) == Go(End)
  {
    MainGraphNext(Start, route);
    MainGraphNext(Named("triage"), route);
    MainGraphNext(Named("retrieval"), route);
    MainGraphNext(Named("out_of_scope"), route);
    MainGraphNext(Named("answer"), route);
  }

  /** The routing of the workflow as a table: `START` leads to triage,
      triage routes on the label, retrieval leads to answer, `out_of_scope`
      and answer lead to `END`, and nothing leaves any other node. */
  function MainRouting(n: Node, route: string): Step
  {
    match n
    case Start => Go(Named("triage"))
    case End => DeadEnd
    case Named(x) =>
      if x == "triage" then
        if route == OutOfScopeLabel then Go(Named("out_of_scope"))
        else if route == DataQuestionLabel then Go(Named("retrieval"))
        else NoRoute(route)
      else if x == "retrieval" then Go(Named("answer"))
      else if x == "out_of_scope" || x == "answer" then Go(End)
      else DeadEnd
  }

  /** The compiled graph routes exactly as the table says. */
  lemma MainGraphNext(n: Node, route: string)
    ensures Next(MainGraph(), n, route) == MainRouting(n, route)
  {
    var e := MainGraph().edges;
    if n != Named("triage") {
      assert e[1..][1..][1..][1..] == [];
      assert FirstTarget(e[1..][1..][1..][1..], n) == None;
    }
  }

  /** The workflow graph has no cycle. */
  lemma MainGraphRanked()
    ensures Ranked(MainGraph(), MainRank)
  {
    forall n, l | n != End && Next(MainGraph(), n, l).Go?
      ensures MainRank(Next(MainGraph(), n, l).next) < MainRank(n)
    {
      MainGraphNext(n, l);
    }
  }

  /** The run of the workflow from `n` when triage returns `route`, read
      off the routing table. */
  function MainRunFrom(n: Node, route: string): Outcome
    decreases MainRank(n)
  {
    if n == End then Finished([])
    else
      match MainRouting(n, route)
      case Go(m) => Prepend(Executed(n), MainRunFrom(m, route))
      case NoRoute(l) => Unrouted(Executed(n), l)
      case DeadEnd => Stuck(Executed(n))
  }

  /** The run of the whole workflow, from `START`. */
  function MainRun(route: string): Outcome
  {
    MainRunFrom(Start, route)
  }

  /** The table's run is the run of the compiled graph. */
  lemma {:induction false} MainRunIsGraphRun(n: Node, route: string)
    ensures Ranked(MainGraph(), MainRank)
    ensures MainRunFrom(n, route) == Run(MainGraph(), MainRank, n, route)
    decreases MainRank(n)
  {
    MainGraphRanked();
    if n != End {
      MainGraphNext(n, route);
      match MainRouting(n, route)
      case Go(m) => MainRunIsGraphRun(m, route);
      case NoRoute(_) =>
      case DeadEnd =>
    }
  }

  /** The three ways a run of the workflow can go: `OUT_OF_SCOPE` runs triage
      then `out_of_scope`; `DATA_QUESTION` runs triage, retrieval and answer
      in that order; any other label stops after triage with no route. */
  lemma MainGraphRoutes(route: string)
    ensures route == OutOfScopeLabel ==> MainRun(route) == Finished(["triage", "out_of_scope"])
    ensures route == DataQuestionLabel ==> MainRun(route) == Finished(["triage", "retrieval", "answer"])
    ensures route != OutOfScopeLabel && route != DataQuestionLabel ==> MainRun(route) == Unrouted(["triage"], route)
  {
    MainRunIsGraphRun(Start, route);
    if route == OutOfScopeLabel {
      OutOfScopeRoute();
    } else if route == DataQuestionLabel {
      DataQuestionRoute();
    } else {
      UnknownRoute(route);
    }
  }

  lemma OutOfScopeRoute()
    requires Ranked(MainGraph(), MainRank)
    ensures Run(MainGraph(), MainRank, Start, OutOfScopeLabel) == Finished(["triage", "out_of_scope"])
  {
    MainGraphSteps(OutOfScopeLabel);
    RunPath2(MainGraph(), MainRank, OutOfScopeLabel, "triage", "out_of_scope");
  }

  lemma DataQuestionRoute()
    requires Ranked(MainGraph(), MainRank)
    ensures Run(MainGraph(), MainRank, Start, DataQuestionLabel) == Finished(["triage", "retrieval", "answer"])
  {
    MainGraphSteps(DataQuestionLabel);
    RunPath3(MainGraph(), MainRank, DataQuestionLabel, "triage", "retrieval", "answer");
  }

  lemma UnknownRoute(route: string)
    requires Ranked(MainGraph(), MainRank)
    requires route != OutOfScopeLabel && route != DataQuestionLabel
    ensures Run(MainGraph(), MainRank, Start, route) == Unrouted(["triage"], route)
  {
    var g := MainGraph();
    MainGraphSteps(route);
    RunEntry(g, MainRank, route, Named("triage"));
  }

  /** Every run that reaches `END` went through exactly one of `out_of_scope`
      and `answer`, and no node ran twice. */
  lemma ExactlyOneResponder(route: string)
    ensures MainRun(route).Finished? ==> ("out_of_scope" in MainRun(route).trace <==> "answer" !in MainRun(route).trace)
    ensures var t := MainRun(route).trace;
      forall i, j :: 0 <= i < j < |t| ==> t[i] != t[j]
  {
    MainGraphRoutes(route);
    MainRunIsGraphRun(Start, route);
    RunTraceDistinct(MainGraph(), MainRank, Start, route);
    var t := MainRun(route).trace;
    if route == OutOfScopeLabel {
      assert t[0] != "answer" && t[1] != "answer";
    } else if route == DataQuestionLabel {
      assert t[0] != "out_of_scope" && t[1] != "out_of_scope" && t[2] != "out_of_scope";
    }
  }

  // ---------------------------------------------------------------------
  // The workflow state and its nodes
  // ---------------------------------------------------------------------

  /** `InputState`: the keys the nodes pass along. `query_type` and `answer`
      are absent until a node writes them; `retrieved_documents` is empty
      until retrieval runs. */
  class QueryState {
    var query: string
    var queryType: Option<string>
    var retrievedDocuments: seq<Document>
    var answer: Option<string>

    /** `{"query": question}`, the state `main_rag_app.invoke` starts from. */
    constructor (query: string)
      ensures this.query == query && queryType == None && retrievedDocuments == [] && answer == None
    {
      this.query := query;
      queryType, retrievedDocuments, answer := None, [], None;
    }

    /** `triage_node`: the language model's reply, verbatim, becomes the
        query type; nothing else changes. */
    method Triage(askAi: (SystemPrompt, string) -> string)
      modifies this
      ensures queryType == Some(askAi(TriageSystem, TriagePrompt(query)))
      ensures query == old(query) && retrievedDocuments == old(retrievedDocuments) && answer == old(answer)
    {
      queryType := Some(askAi(TriageSystem, TriagePrompt(query)));
    }

    /** `out_of_scope_node`: the fixed answer. */
    method OutOfScope()
      modifies this
      ensures answer == Some(OutOfScopeAnswer)
      ensures query == old(query) && queryType == old(queryType) && retrievedDocuments == old(retrievedDocuments)
    {
      answer := Some(OutOfScopeAnswer);
    }

    /** `retrieval`: the sub-graph runs from the query and its
        `retrieved_documents` come back into this state. */
    method Retrieval(r: Retrievers)
      modifies this
      ensures PageContents(retrievedDocuments) == RetrievedTexts(r, query)
      ensures query == old(query) && queryType == old(queryType) && answer == old(answer)
    {
      var sub := new RetrievalState(query);
      var out := sub.Run(r);
      retrievedDocuments := out.retrievedDocuments;
    }

    /** `generate_answer_node`: the language model's reply to the query and
        the retrieved context. */
    method Answer(askAi: (SystemPrompt, string) -> string)
      modifies this
      ensures answer == Some(askAi(AnswerSystem, AnswerPrompt(query, Context(retrievedDocuments))))
      ensures query == old(query) && queryType == old(queryType) && retrievedDocuments == old(retrievedDocuments)
    {
      answer := Some(askAi(AnswerSystem, AnswerPrompt(query, Context(retrievedDocuments))));
    }

    /** The state once everything before `n` on the route has executed,
        starting from the query `q0`, the query type `t0`, the documents `d0`
        and the answer `a0`; `texts` are the texts the retrieval sub-graph
        yields for `q0`. */
    ghost predicate ReadyAt(n: Node, route: string, c: Collaborators, texts: seq<string>, q0: string,
                            t0: Option<string>, d0: seq<Document>, a0: Option<string>)
      reads this
    {
      && query == q0
      && if n == Start || n == Named("triage") then
           queryType == t0 && retrievedDocuments == d0 && answer == a0
         else if n == Named("retrieval") then
           route == DataQuestionLabel && Triaged(route, d0, a0)
         else if n == Named("out_of_scope") then
           route == OutOfScopeLabel && Triaged(route, d0, a0)
         else if n == Named("answer") then
           && route == DataQuestionLabel && queryType == Some(route) && answer == a0
           && PageContents(retrievedDocuments) == texts
         else n == End && AnsweredWith(route, c, texts, q0, d0)
    }

    /** Triage has run and nothing else has. */
    ghost predicate Triaged(route: string, d0: seq<Document>, a0: Option<string>)
      reads this
    {
      queryType == Some(route) && retrievedDocuments == d0 && answer == a0
    }

    /** The state at `END`, for each of the two routes, when retrieval
        yields `texts`. */
    ghost predicate AnsweredWith(route: string, c: Collaborators, texts: seq<string>, q0: string, d0: seq<Document>)
      reads this
    {
      && queryType == Some(route)
      && (route == OutOfScopeLabel ==> answer == Some(OutOfScopeAnswer) && retrievedDocuments == d0)
      && (route == DataQuestionLabel ==>
            && PageContents(retrievedDocuments) == texts
            && answer == Some(c.askAi(AnswerSystem, AnswerPrompt(q0, Join("\n\n", texts)))))
    }

    /** The state at `END`, for each of the two routes. */
    ghost predicate Answered(route: string, c: Collaborators, q0: string, d0: seq<Document>)
      reads this
    {
      AnsweredWith(route, c, RetrievedTexts(c.retrievers, q0), q0, d0)
    }

    /** Run the action bound to `n`, the step before the runtime routes on. */
    method Execute(n: Node, c: Collaborators, ghost route: string, ghost texts: seq<string>, ghost q0: string,
                   ghost t0: Option<string>, ghost d0: seq<Document>, ghost a0: Option<string>)
      requires route == c.askAi(TriageSystem, TriagePrompt(q0)) && texts == RetrievedTexts(c.retrievers, q0)
      requires ReadyAt(n, route, c, texts, q0, t0, d0, a0) && n != End
      modifies this
      ensures query == q0
      ensures n != Start ==> queryType == Some(route)
      ensures MainRouting(n, route).Go? ==> ReadyAt(MainRouting(n, route).next, route, c, texts, q0, t0, d0, a0)
      ensures !MainRouting(n, route).Go? ==> Triaged(route, d0, a0)
    {
      if n == Named("triage") {
        Triage(c.askAi);
      } else if n == Named("retrieval") {
        Retrieval(c.retrievers);
      } else if n == Named("out_of_scope") {
        OutOfScope();
      } else if n == Named("answer") {
        Answer(c.askAi);
      }
    }

    /** One superstep of the runtime at a node other than `END`: execute the
        node, then route on the compiled graph. The conditional edge's path
        function is `lambda s: s["query_type"]`. */
    method Advance(g: Graph, node: Node, c: Collaborators, ghost route: string, ghost texts: seq<string>,
                   ghost q0: string, ghost t0: Option<string>, ghost d0: seq<Document>, ghost a0: Option<string>)
      returns (step: Step)
      requires g == MainGraph()
      requires route == c.askAi(TriageSystem, TriagePrompt(q0)) && texts == RetrievedTexts(c.retrievers, q0)
      requires ReadyAt(node, route, c, texts, q0, t0, d0, a0) && node != End
      modifies this
      ensures step == MainRouting(node, route) && query == q0
      ensures step.Go? ==> ReadyAt(step.next, route, c, texts, q0, t0, d0, a0)
      ensures !step.Go? ==> Triaged(route, d0, a0)
    {
      Execute(node, c, route, texts, q0, t0, d0, a0);
      var key := if queryType.Some? then queryType.value else "";
      MainGraphNext(node, key);
      MainGraphNext(node, route);
      step := Next(g, node, key);
    }

    /** `main_rag_app.invoke`: follow the compiled graph from `START`,
        executing each node reached, until `END` or a label with no route.
        The outcome is the routing machine's run on the triage label. */
    method Invoke(c: Collaborators) returns (outcome: Outcome)
      modifies this
      ensures var route := c.askAi(TriageSystem, TriagePrompt(old(query)));
        && query == old(query) && outcome == MainRun(route)
        && (outcome.Finished? ==> Answered(route, c, old(query), old(retrievedDocuments)))
        && (!outcome.Finished? ==> Triaged(route, old(retrievedDocuments), old(answer)))
    {
      var g := BuildMainGraph();
      ghost var q0, t0, d0, a0 := query, queryType, retrievedDocuments, answer;
      ghost var route := c.askAi(TriageSystem, TriagePrompt(query));
      ghost var texts := RetrievedTexts(c.retrievers, query);
      var node := Start;
      var trace: seq<string> := [];
      while node != End
        invariant ReadyAt(node, route, c, texts, q0, t0, d0, a0)
        invariant MainRun(route) == Prepend(trace, MainRunFrom(node, route))
        decreases MainRank(node)
      {
        var step := Advance(g, node, c, route, texts, q0, t0, d0, a0);
        PrependTwice(trace, Executed(node), if step.Go? then MainRunFrom(step.next, route) else Finished([]));
        if !step.Go? {
          outcome := if step.NoRoute? then Unrouted(trace + Executed(node), step.route) else Stuck(trace + Executed(node));
          return;
        }
        trace, node := trace + Executed(node), step.next;
      }
      assert MainRunFrom(End, route) == Finished([]);
      assert trace + [] == trace;
      outcome := Finished(trace);
    }
  }

  /** What one question should yield: the fixed refusal for an out-of-scope
      query, the language model's answer from the retrieved context for a
      data question, and a routing error (the runtime raises) for any other
      triage reply. */
  function ExpectedReply(question: string, c: Collaborators): Reply
  {
    var route := c.askAi(TriageSystem, TriagePrompt(question));
    if route == OutOfScopeLabel then Reply(OutOfScopeAnswer)
    else if route == DataQuestionLabel then
      Reply(c.askAi(AnswerSystem, AnswerPrompt(question, Join("\n\n", RetrievedTexts(c.retrievers, question)))))
    else NoRouteFor(route)
  }

  /** `main_rag_app.invoke({"query": question})` followed by
      `result.get("answer", "[No answer returned]")`: running the graph on
      a fresh state gives the expected reply. */
  method AnswerQuestion(question: string, c: Collaborators) returns (reply: Reply)
    ensures reply == ExpectedReply(question, c)
  {
    var state := new QueryState(question);
    var outcome := state.Invoke(c);
    MainGraphRoutes(c.askAi(TriageSystem, TriagePrompt(question)));
    if outcome.Finished? {
      reply := Reply(if state.answer.Some? then state.answer.value else NoAnswer);
    } else {
      reply := NoRouteFor(if outcome.Unrouted? then outcome.route else "");
    }
  }
}
