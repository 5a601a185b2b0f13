/**
 * The workflow graph: which node follows which, and a run of one user turn
 * through it. The graph is built imperatively by `add_node` / `add_edge` calls
 * (`StateGraph` and `BuildWorkflow` below); the routing it produces is the fixed
 * relation `Successors`, and `Next` chooses among a node's successors.
 */
module Workflow {
  import opened Wrappers
  import opened Messages
  import opened GraphState
  import Nodes

  datatype Node = Start | FormulateQuery | Agent | Tools | DeleteMessages | SummarizeConversation | End

  /** The name a node is registered under (`Start` and `End` are the framework's START and END). */
  function Name(n: Node): string
  {
    match n
    case Start => "__start__"
    case FormulateQuery => "formulate_query"
    case Agent => "agent"
    case Tools => Nodes.ToolsRoute
    case DeleteMessages => Nodes.DeleteRoute
    case SummarizeConversation => Nodes.SummarizeRoute
    case End => Nodes.EndRoute
  }

  lemma NamesDistinct(a: Node, b: Node)
    ensures Name(a) == Name(b) ==> a == b
  {
  }

  /** The transition relation: the targets of a node's edges and conditional edges. */
  function Successors(n: Node): (r: set<Node>)
    ensures Start !in r && |r| <= 2
    ensures End in r <==> n == DeleteMessages
    ensures r == {} <==> n == SummarizeConversation || n == End
  {
    match n
    case Start => {FormulateQuery}
    case FormulateQuery => {Agent}
    case Agent => {Tools, DeleteMessages}
    case Tools => {Agent}
    case DeleteMessages => {End, SummarizeConversation}
    case SummarizeConversation => {}
    case End => {}
  }

  // ---------------------------------------------------------------------------
  // Building the graph
  // ---------------------------------------------------------------------------

  /** The graph builder: registered node names, plain edges, and for each node
      with a conditional edge the list of names its router may return. */
  class StateGraph {
    var nodes: set<string>
    var edges: set<(string, string)>
    var branches: map<string, seq<string>>

    constructor ()
      ensures nodes == {} && edges == {} && branches == map[]
    {
      nodes, edges, branches := {}, {}, map[];
    }

    method AddNode(name: string)
      modifies this
      ensures nodes == old(nodes) + {name}
      ensures edges == old(edges) && branches == old(branches)
    {
      nodes := nodes + {name};
    }

    method AddEdge(source: string, target: string)
      modifies this
      ensures edges == old(edges) + {(source, target)}
      ensures nodes == old(nodes) && branches == old(branches)
    {
      edges := edges + {(source, target)};
    }

    method AddConditionalEdges(source: string, pathMap: seq<string>)
      modifies this
      ensures branches == old(branches)[source := pathMap]
      ensures nodes == old(nodes) && edges == old(edges)
    {
      branches := branches[source := pathMap];
    }
  }

  /** The names registered by the workflow's `add_node` calls. */
  const NodeNames: set<string> :=
    {Name(FormulateQuery), Name(SummarizeConversation), Name(Agent), Name(Tools), Name(DeleteMessages)}

  /** The workflow's plain edges. */
  const Edges: set<(string, string)> :=
    {(Name(Start), Name(FormulateQuery)), (Name(FormulateQuery), Name(Agent)), (Name(Tools), Name(Agent))}

  /** The workflow's conditional edges, each with the names its router may return. */
  const Branches: map<string, seq<string>> :=
    map[Name(Agent) := [Name(Tools), Name(DeleteMessages)],
        Name(DeleteMessages) := [Name(End), Name(SummarizeConversation)]]

  /** The calls that build the workflow. */
  method BuildWorkflow() returns (g: StateGraph)
    ensures fresh(g)
    ensures g.nodes == NodeNames && g.edges == Edges && g.branches == Branches
  {
    g := new StateGraph();
    g.AddNode(Name(FormulateQuery));
    g.AddNode(Name(SummarizeConversation));
    g.AddNode(Name(Agent));
    g.AddNode(Name(Tools));
    g.AddNode(Name(DeleteMessages));
    g.AddEdge(Name(Start), Name(FormulateQuery));
    g.AddEdge(Name(FormulateQuery), Name(Agent));
    g.AddConditionalEdges(Name(Agent), [Name(Tools), Name(DeleteMessages)]);
    g.AddEdge(Name(Tools), Name(Agent));
    g.AddConditionalEdges(Name(DeleteMessages), [Name(End), Name(SummarizeConversation)]);
  }

  /** The graph the calls build is `Successors`: every node but START and END is
      registered, and an edge or a conditional target from `a` to `b` exists
      exactly when `b` is a successor of `a`. */
  lemma BuiltGraphIsSuccessors(a: Node, b: Node)
    ensures Name(a) in NodeNames <==> a != Start && a != End
    ensures b in Successors(a) <==>
              (Name(a), Name(b)) in Edges || (Name(a) in Branches && Name(b) in Branches[Name(a)])
  {
    NamesDistinct(a, b);
  }

  // ---------------------------------------------------------------------------
  // Routing and running
  // ---------------------------------------------------------------------------

  /** The node functions registered with the graph (`add_node(name, action)`),
      the routers of its two conditional edges, and the merge of a node's
      update into the state that the state schema declares. */
  datatype Graph = Graph(
    formulateQuery: State -> Update,
    agent: State -> Update,
    tools: State -> Result<Update, Nodes.NodeError>,
    deleteMessages: State -> Update,
    summarizeConversation: State -> Update,
    shouldUseTools: State -> Result<string, Nodes.NodeError>,
    shouldSummarize: State -> string,
    merge: (State, Update) -> State)

  /** The answers of everything outside the model: the formulation model, the
      tool-capable chat model, the tools, and the summarizer. */
  datatype Oracles = Oracles(
    formulate: (seq<Message>, string, string) -> string,
    model: seq<Message> -> Nodes.AIReply,
    execute: ToolCall -> string,
    summarize: seq<Message> -> string)

  /** The workflow's graph: the node functions of the conversation, with every
      outside answer taken from `o`. */
  function WorkflowGraph(o: Oracles): Graph
  {
    Graph(
      s => Nodes.FormulateQuery(s, o.formulate),
      s => Nodes.CallModel(s, o.model),
      s => Nodes.ToolNode(s, o.execute),
      s => Nodes.RemoveMessages(s),
      s => Nodes.SummarizeConversation(s, o.summarize),
      Nodes.ShouldUseTools,
      Nodes.ShouldSummarize,
      Apply)
  }

  /** The node a router's answer names among a conditional edge's targets. */
  function Branch(route: string, targets: seq<Node>): (r: Result<Node, Nodes.NodeError>)
    ensures r.Success? <==> exists i :: 0 <= i < |targets| && Name(targets[i]) == route
    ensures r.Success? ==> r.value in targets && Name(r.value) == route
    ensures r.Failure? ==> r.error == Nodes.UnknownRoute(route)
  {
    if targets == [] then Failure(Nodes.UnknownRoute(route))
    else if Name(targets[0]) == route then Success(targets[0])
    else Branch(route, targets[1..])
  }

  /** How a run of the graph ends, with the nodes it ran, in order. */
  datatype Outcome =
    | Finished(state: State, trace: seq<Node>)
    | Failed(error: Nodes.NodeError, trace: seq<Node>)
    | OutOfSteps(state: State, trace: seq<Node>)

  /** A run that starts with node `n` and continues as `r`. */
  function Prepend(n: Node, r: Outcome): (p: Outcome)
    ensures p.trace == [n] + r.trace
    ensures r.trace != [] ==> p.trace[|p.trace| - 1] == r.trace[|r.trace| - 1]
    ensures p.Finished? == r.Finished? && p.Failed? == r.Failed? && p.OutOfSteps? == r.OutOfSteps?
    ensures !p.Failed? ==> p.state == r.state
  {
    match r
    case Finished(t, tr) => Finished(t, [n] + tr)
    case Failed(e, tr) => Failed(e, [n] + tr)
    case OutOfSteps(t, tr) => OutOfSteps(t, [n] + tr)
  }

  /** One step of a run: node `n` runs, its update is merged, and the node's
      outgoing edge or router picks the next node. A node without outgoing
      edges ends the run, written here as a step to `End`. */
  function Transition(n: Node, s: State, g: Graph): (r: Result<(State, Node), Nodes.NodeError>)
    ensures r.Failure? ==> n == Agent || n == Tools || n == DeleteMessages
    ensures n == Start || n == End ==> r.Success? && r.value.0 == s
    ensures r.Success? ==> r.value.1 != Start
    ensures r.Success? && r.value.1 == End ==> n == DeleteMessages || n == SummarizeConversation || n == End
  {
    match n
    case Start => Success((s, FormulateQuery))
    case FormulateQuery => Success((g.merge(s, g.formulateQuery(s)), Agent))
    case Agent =>
      var t := g.merge(s, g.agent(s));
      (match g.shouldUseTools(t)
       case Failure(e) => Failure(e)
       case Success(route) =>
         match Branch(route, [Tools, DeleteMessages])
         case Failure(e) => Failure(e)
         case Success(m) => Success((t, m)))
    case Tools =>
      (match g.tools(s)
       case Failure(e) => Failure(e)
       case Success(u) => Success((g.merge(s, u), Agent)))
    case DeleteMessages =>
      var t := g.merge(s, g.deleteMessages(s));
      (match Branch(g.shouldSummarize(t), [End, SummarizeConversation])
       case Failure(e) => Failure(e)
       case Success(m) => Success((t, m)))
    case SummarizeConversation => Success((g.merge(s, g.summarizeConversation(s)), End))
    case End => Success((s, End))
  }

  /** Every step follows an edge of the graph. Apart from the pruning node,
      whose router may choose END, only the summarization node and END, which
      have no successors, lead to the end of the run. The agent and the pruning
      node go where their routers' answers name. */
  lemma TransitionFollowsEdges(n: Node, s: State, g: Graph)
    ensures var tr := Transition(n, s, g);
      && (tr.Success? && n != SummarizeConversation && n != End ==> tr.value.1 in Successors(n))
      && (n == SummarizeConversation ==> Successors(n) == {} && tr.Success? && tr.value.1 == End)
    ensures n == Agent ==>
              var t := g.merge(s, g.agent(s));
              && (Transition(n, s, g) == Success((t, Tools)) <==> g.shouldUseTools(t) == Success(Nodes.ToolsRoute))
              && (Transition(n, s, g) == Success((t, DeleteMessages)) <==> g.shouldUseTools(t) == Success(Nodes.DeleteRoute))
    ensures n == DeleteMessages ==>
              var t := g.merge(s, g.deleteMessages(s));
              && (Transition(n, s, g) == Success((t, End)) <==> g.shouldSummarize(t) == Nodes.EndRoute)
              && (Transition(n, s, g) == Success((t, SummarizeConversation)) <==> g.shouldSummarize(t) == Nodes.SummarizeRoute)
  {
  }

  /** Runs node `n` and its successors. The graph itself bounds nothing (tools and
      agent may alternate forever), so the run is given `fuel` steps; the
      framework's step limit plays that part in the system. */
  function Run(n: Node, s: State, g: Graph, fuel: nat): (r: Outcome)
    ensures |r.trace| > 0 && r.trace[0] == n
    decreases fuel
  {
    match Transition(n, s, g)
    case Failure(e) => Failed(e, [n])
    case Success(tm) =>
      if tm.1 == End then Finished(tm.0, [n])
      else if fuel == 0 then OutOfSteps(tm.0, [n])
      else Prepend(n, Run(tm.1, tm.0, g, fuel - 1))
  }

  /** One user turn: the new input is written into the saved state, then the
      workflow runs from START. */
  function Invoke(saved: State, input: string, o: Oracles, fuel: nat): (r: Outcome)
    ensures |r.trace| > 0 && r.trace[0] == Start
    ensures !r.Failed? ==> r.state.input == input
  {
    RunKeepsInput(Start, saved.(input := input), WorkflowGraph(o), fuel);
    Run(Start, saved.(input := input), WorkflowGraph(o), fuel)
  }

  /** A merge that never touches the input field. */
  ghost predicate KeepsInput(g: Graph)
  {
    forall s: State, u: Update {:trigger g.merge(s, u)} :: g.merge(s, u).input == s.input
  }

  /** No node rewrites the input: a run that does not raise ends with the input
      it started with. */
  lemma {:induction false} RunKeepsInput(n: Node, s: State, g: Graph, fuel: nat)
    requires KeepsInput(g)
    ensures var r := Run(n, s, g, fuel); !r.Failed? ==> r.state.input == s.input
    decreases fuel
  {
    var tr := Transition(n, s, g);
    if tr.Success? {
      assert tr.value.0.input == s.input;
      if tr.value.1 != End && fuel > 0 {
        RunKeepsInput(tr.value.1, tr.value.0, g, fuel - 1);
      }
    }
  }

  // ---------------------------------------------------------------------------
  // What the workflow's node functions guarantee
  // ---------------------------------------------------------------------------

  predicate LastIsAI(ms: seq<Message>)
  {
    ms != [] && Nodes.Last(ms).kind.AI?
  }

  /** No transient message (tool result, empty AI message) in a list. */
  predicate Pruned(ms: seq<Message>)
  {
    forall i :: 0 <= i < |ms| ==> !Nodes.Transient(ms[i])
  }

  /** Every node keeps the history in the reducer's form. */
  ghost predicate KeepsStored(g: Graph)
  {
    && (forall s: State {:trigger g.formulateQuery(s)} :: Stored(s.messages) ==> Stored(g.merge(s, g.formulateQuery(s)).messages))
    && (forall s: State {:trigger g.agent(s)} :: Stored(s.messages) ==> Stored(g.merge(s, g.agent(s)).messages))
    && (forall s: State {:trigger g.tools(s)} :: Stored(s.messages) && g.tools(s).Success? ==> Stored(g.merge(s, g.tools(s).value).messages))
  }

  /** The agent leaves an AI message last, its router then names one of its two
      targets, the tools run after an AI message, and the router after the
      pruning node names one of its two targets. */
  ghost predicate NeverRaises(g: Graph)
  {
    && (forall s: State {:trigger g.agent(s)} :: LastIsAI(g.merge(s, g.agent(s)).messages))
    && (forall s: State {:trigger g.shouldUseTools(s)} :: LastIsAI(s.messages) ==>
          g.shouldUseTools(s) == Success(Nodes.ToolsRoute) || g.shouldUseTools(s) == Success(Nodes.DeleteRoute))
    && (forall s: State {:trigger g.tools(s)} :: LastIsAI(s.messages) ==> g.tools(s).Success?)
    && (forall s: State {:trigger g.shouldSummarize(s)} ::
          g.shouldSummarize(s) == Nodes.EndRoute || g.shouldSummarize(s) == Nodes.SummarizeRoute)
  }

  /** The last message is an AI message that asks for at least one tool call. */
  predicate AsksForTools(ms: seq<Message>)
  {
    LastIsAI(ms) && Nodes.Last(ms).kind.toolCalls != []
  }

  /** The agent always asks for a tool, and its router then always picks the tool node. */
  ghost predicate AlwaysCallsTools(g: Graph)
  {
    && (forall s: State {:trigger g.agent(s)} :: AsksForTools(g.merge(s, g.agent(s)).messages))
    && (forall s: State {:trigger g.shouldUseTools(s)} ::
          AsksForTools(s.messages) ==> g.shouldUseTools(s) == Success(Nodes.ToolsRoute))
  }

  /** Pruning leaves a stored pruned history, and the run ends after it only
      when at most four messages are left. */
  ghost predicate Prunes(g: Graph)
  {
    && (forall s: State {:trigger g.deleteMessages(s)} :: Stored(s.messages) ==>
          Stored(g.merge(s, g.deleteMessages(s)).messages) && Pruned(g.merge(s, g.deleteMessages(s)).messages))
    && (forall s: State {:trigger g.shouldSummarize(s)} :: g.shouldSummarize(s) == Nodes.EndRoute ==> |s.messages| <= 4)
  }

  /** Summarizing a stored pruned history keeps at most two of its messages. */
  ghost predicate Summarizes(g: Graph)
  {
    forall s: State {:trigger g.summarizeConversation(s)} :: Stored(s.messages) && Pruned(s.messages) ==>
      && Stored(g.merge(s, g.summarizeConversation(s)).messages)
      && Pruned(g.merge(s, g.summarizeConversation(s)).messages)
      && |g.merge(s, g.summarizeConversation(s)).messages| <= 2
  }

  /** Every node function of the workflow keeps the history stored. */
  lemma WorkflowKeepsStored(o: Oracles)
    ensures KeepsStored(WorkflowGraph(o))
  {
    var g := WorkflowGraph(o);
    forall s: State | Stored(s.messages)
      ensures Stored(g.merge(s, g.formulateQuery(s)).messages)
    {
      Nodes.FormulateAppendsInput(s, o.formulate, o.formulate);
    }
    forall s: State | Stored(s.messages)
      ensures Stored(g.merge(s, g.agent(s)).messages)
    {
      Nodes.CallModelAppendsReply(s, o.model);
    }
    forall s: State | Stored(s.messages) && g.tools(s).Success?
      ensures Stored(g.merge(s, g.tools(s).value).messages)
    {
      var u := g.tools(s).value;
      assert Fresh(u.messages);
      StoredPreserved(s.messages, u.messages);
    }
  }

  /** The workflow's agent answers last, and its tool node serves that answer. */
  lemma WorkflowNeverRaises(o: Oracles)
    ensures NeverRaises(WorkflowGraph(o))
  {
    var g := WorkflowGraph(o);
    forall s: State
      ensures LastIsAI(g.merge(s, g.agent(s)).messages)
    {
      Nodes.CallModelAppendsReply(s, o.model);
    }
  }

  /** Against a model that always asks for a tool, the workflow's agent always
      asks for one, and `should_use_tools` then always routes to the tools. */
  lemma WorkflowAlwaysCallsTools(o: Oracles)
    requires forall p :: o.model(p).toolCalls != []
    ensures AlwaysCallsTools(WorkflowGraph(o))
  {
    var g := WorkflowGraph(o);
    forall s: State
      ensures AsksForTools(g.merge(s, g.agent(s)).messages)
    {
      Nodes.CallModelAppendsReply(s, o.model);
    }
  }

  /** The workflow's pruning node leaves no transient message, and
      `should_summarize` ends the run only on a short history. */
  lemma WorkflowPrunes(o: Oracles)
    ensures Prunes(WorkflowGraph(o))
  {
    var g := WorkflowGraph(o);
    forall s: State | Stored(s.messages)
      ensures Stored(g.merge(s, g.deleteMessages(s)).messages) && Pruned(g.merge(s, g.deleteMessages(s)).messages)
    {
      Nodes.PruneApplied(s);
    }
  }

  /** The workflow's summarization node keeps the last two messages. */
  lemma WorkflowSummarizes(o: Oracles)
    ensures Summarizes(WorkflowGraph(o))
  {
    var g := WorkflowGraph(o);
    forall s: State | Stored(s.messages) && Pruned(s.messages)
      ensures && Stored(g.merge(s, g.summarizeConversation(s)).messages)
              && Pruned(g.merge(s, g.summarizeConversation(s)).messages)
              && |g.merge(s, g.summarizeConversation(s)).messages| <= 2
    {
      Nodes.SummarizeApplied(s, o.summarize);
    }
  }

  // ---------------------------------------------------------------------------
  // Runs of any graph with these properties
  // ---------------------------------------------------------------------------

  /** Each node of `t` is followed by one of its successors. */
  predicate IsPath(t: seq<Node>)
  {
    forall i :: 0 <= i < |t| - 1 ==> t[i + 1] in Successors(t[i])
  }

  lemma PathPrepend(n: Node, t: seq<Node>)
    requires IsPath(t) && t != [] && t[0] in Successors(n)
    ensures IsPath([n] + t)
  {
    var whole := [n] + t;
    forall i | 0 <= i < |whole| - 1
      ensures whole[i + 1] in Successors(whole[i])
    {
      if i > 0 {
        assert whole[i] == t[i - 1] && whole[i + 1] == t[(i - 1) + 1];
      }
    }
  }

  /** A run visits a path of the graph. */
  lemma {:induction false} RunFollowsEdges(n: Node, s: State, g: Graph, fuel: nat)
    ensures IsPath(Run(n, s, g, fuel).trace)
    decreases fuel
  {
    var tr := Transition(n, s, g);
    if tr.Success? && tr.value.1 != End && fuel > 0 {
      var (t, m) := tr.value;
      TransitionFollowsEdges(n, s, g);
      RunFollowsEdges(m, t, g, fuel - 1);
      var rest := Run(m, t, g, fuel - 1);
      assert Run(n, s, g, fuel) == Prepend(n, rest);
      PathPrepend(n, rest.trace);
    }
  }

  /** One transition of such a graph succeeds, and reaches the tool node only
      with an AI message last. */
  lemma TransitionNeverFails(n: Node, s: State, g: Graph)
    requires NeverRaises(g)
    requires n == Tools ==> LastIsAI(s.messages)
    ensures var tr := Transition(n, s, g);
      tr.Success? && (tr.value.1 == Tools ==> LastIsAI(tr.value.0.messages))
  {
    match n {
      case Start =>
      case FormulateQuery =>
      case Agent =>
        var t := g.merge(s, g.agent(s));
        assert LastIsAI(t.messages);
        assert g.shouldUseTools(t) == Success(Nodes.ToolsRoute) || g.shouldUseTools(t) == Success(Nodes.DeleteRoute);
      case Tools =>
        assert g.tools(s).Success?;
      case DeleteMessages =>
        var t := g.merge(s, g.deleteMessages(s));
        assert g.shouldSummarize(t) == Nodes.EndRoute || g.shouldSummarize(t) == Nodes.SummarizeRoute;
      case SummarizeConversation =>
      case End =>
    }
  }

  /** No node or router raises when the agent answers last and the tools run after it. */
  lemma {:induction false} RunNeverFails(n: Node, s: State, g: Graph, fuel: nat)
    requires NeverRaises(g)
    requires n == Tools ==> LastIsAI(s.messages)
    ensures !Run(n, s, g, fuel).Failed?
    decreases fuel
  {
    TransitionNeverFails(n, s, g);
    var (t, m) := Transition(n, s, g).value;
    if m == End {
      assert Run(n, s, g, fuel) == Finished(t, [n]);
    } else if fuel == 0 {
      assert Run(n, s, g, fuel).OutOfSteps?;
    } else {
      RunNeverFails(m, t, g, fuel - 1);
      var rest := Run(m, t, g, fuel - 1);
      assert Run(n, s, g, fuel) == Prepend(n, rest);
    }
  }

  /** One transition keeps the history stored; it leads to the summarization
      node only with a pruned history, and to the end only with a pruned
      history of at most four messages. */
  lemma TransitionKeepsPruned(n: Node, s: State, g: Graph)
    requires KeepsStored(g) && Prunes(g) && Summarizes(g)
    requires n != End
    requires Stored(s.messages)
    requires n == SummarizeConversation ==> Pruned(s.messages)
    ensures var tr := Transition(n, s, g);
      tr.Success? ==>
        && Stored(tr.value.0.messages)
        && (tr.value.1 == SummarizeConversation ==> Pruned(tr.value.0.messages))
        && (tr.value.1 == End ==> Pruned(tr.value.0.messages) && |tr.value.0.messages| <= 4)
  {
    var tr := Transition(n, s, g);
    if tr.Success? {
      var (t, m) := tr.value;
      TransitionFollowsEdges(n, s, g);
      match n {
        case Start =>
        case FormulateQuery =>
        case Agent =>
        case Tools =>
        case DeleteMessages =>
          assert t == g.merge(s, g.deleteMessages(s));
        case SummarizeConversation =>
          assert t == g.merge(s, g.summarizeConversation(s));
      }
    }
  }

  /** A finished run leaves a pruned stored history of at most four messages. */
  lemma {:induction false} RunEndsPruned(n: Node, s: State, g: Graph, fuel: nat)
    requires KeepsStored(g) && Prunes(g) && Summarizes(g)
    requires n != End
    requires Stored(s.messages)
    requires n == SummarizeConversation ==> Pruned(s.messages)
    ensures var r := Run(n, s, g, fuel);
      r.Finished? ==> Stored(r.state.messages) && Pruned(r.state.messages) && |r.state.messages| <= 4
    decreases fuel
  {
    TransitionKeepsPruned(n, s, g);
    var tr := Transition(n, s, g);
    if tr.Success? && tr.value.1 != End && fuel > 0 {
      var (t, m) := tr.value;
      RunEndsPruned(m, t, g, fuel - 1);
      assert Run(n, s, g, fuel) == Prepend(n, Run(m, t, g, fuel - 1));
    }
  }

  /** A run that finishes finished after the pruning node or the summarization node. */
  lemma {:induction false} RunEndsAfterPruning(n: Node, s: State, g: Graph, fuel: nat)
    requires n != End
    ensures var r := Run(n, s, g, fuel);
      r.Finished? ==> r.trace[|r.trace| - 1] in {DeleteMessages, SummarizeConversation}
    decreases fuel
  {
    var tr := Transition(n, s, g);
    if tr.Success? {
      var (t, m) := tr.value;
      if m == End {
        assert Run(n, s, g, fuel) == Finished(t, [n]);
      } else if fuel > 0 {
        RunEndsAfterPruning(m, t, g, fuel - 1);
        assert Run(n, s, g, fuel) == Prepend(n, Run(m, t, g, fuel - 1));
      }
    }
  }

  /** When the agent always asks for a tool, a run from before the agent never
      finishes, however many steps it is given. */
  lemma {:induction false} RunNeverFinishes(n: Node, s: State, g: Graph, fuel: nat)
    requires NeverRaises(g) && AlwaysCallsTools(g)
    requires n in {Start, FormulateQuery, Agent, Tools}
    requires n == Tools ==> LastIsAI(s.messages)
    ensures Run(n, s, g, fuel).OutOfSteps?
    decreases fuel
  {
    if n == Agent {
      assert AsksForTools(g.merge(s, g.agent(s)).messages);
    }
    var (t, m) := Transition(n, s, g).value;
    if fuel > 0 {
      RunNeverFinishes(m, t, g, fuel - 1);
    }
  }

  // ---------------------------------------------------------------------------
  // Turns of the workflow
  // ---------------------------------------------------------------------------

  /** Every turn starts with START, then `formulate_query`, then the agent, and
      then follows the edges of the graph. */
  lemma TurnFollowsGraph(saved: State, input: string, o: Oracles, fuel: nat)
    ensures var t := Invoke(saved, input, o, fuel).trace;
      && t[0] == Start && IsPath(t)
      && (fuel >= 2 ==> |t| >= 3 && t[1] == FormulateQuery && t[2] == Agent)
  {
    var s := saved.(input := input);
    var g := WorkflowGraph(o);
    RunFollowsEdges(Start, s, g, fuel);
    if fuel >= 2 {
      assert Transition(Start, s, g) == Success((s, FormulateQuery));
      var r1 := Run(FormulateQuery, s, g, fuel - 1);
      assert Run(Start, s, g, fuel) == Prepend(Start, r1);
      var s2 := g.merge(s, g.formulateQuery(s));
      assert Transition(FormulateQuery, s, g) == Success((s2, Agent));
      assert r1 == Prepend(FormulateQuery, Run(Agent, s2, g, fuel - 2));
    }
  }

  /** No turn raises: `should_use_tools` always finds the agent's answer, and the
      tool node always finds the AI message it serves. */
  lemma TurnNeverFails(saved: State, input: string, o: Oracles, fuel: nat)
    ensures !Invoke(saved, input, o, fuel).Failed?
  {
    WorkflowNeverRaises(o);
    RunNeverFails(Start, saved.(input := input), WorkflowGraph(o), fuel);
  }

  /** A finished turn leaves no tool result and no empty AI message in the
      history, keeps at most four messages, and ends after pruning or summarizing. */
  lemma FinishedTurnIsPruned(saved: State, input: string, o: Oracles, fuel: nat)
    requires Stored(saved.messages)
    ensures var r := Invoke(saved, input, o, fuel);
      r.Finished? ==>
        && Stored(r.state.messages) && Pruned(r.state.messages) && |r.state.messages| <= 4
        && r.trace[|r.trace| - 1] in {DeleteMessages, SummarizeConversation}
  {
    WorkflowKeepsStored(o);
    WorkflowPrunes(o);
    WorkflowSummarizes(o);
    RunEndsPruned(Start, saved.(input := input), WorkflowGraph(o), fuel);
    RunEndsAfterPruning(Start, saved.(input := input), WorkflowGraph(o), fuel);
  }

  /** Nothing bounds the agent/tools loop: against a model that always asks for a
      tool, a turn never finishes, whatever the step budget. */
  lemma ToolLoopUnbounded(saved: State, input: string, o: Oracles, fuel: nat)
    requires forall p :: o.model(p).toolCalls != []
    ensures Invoke(saved, input, o, fuel).OutOfSteps?
  {
    WorkflowNeverRaises(o);
    WorkflowAlwaysCallsTools(o);
    RunNeverFinishes(Start, saved.(input := input), WorkflowGraph(o), fuel);
  }
}
