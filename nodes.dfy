/**
 * The node functions of the conversation workflow. Each reads the state and
 * returns an update; none changes the state itself. Every language-model call
 * is a function-typed parameter whose answer the model does not interpret.
 */
module Nodes {
  import opened Wrappers
  import opened Messages
  import opened GraphState

  /** The agent's fixed instructions (adjacent literals, joined without separators). */
  const AgentInstructions: string :=
    "You are a expert in stock data and financial news data analys."
    + "Give answers in a proffesional tone."
    + "Provide a detailed and insightful answer."
    + "Give answers in a structured format and use tables to represent data when applicable."

  const SummaryNotePrefix: string := "Summary of conversation earlier: "
  const ExtendSummaryPrefix: string := "This is summary of the conversation to date: "
  const ExtendSummarySuffix: string := "\n\nExtend the summary by taking into account the new messages above:"
  const CreateSummaryInstruction: string := "Create a summary of the conversation above."

  /** Routing labels returned by the two routers; `EndRoute` is the framework's END. */
  const ToolsRoute: string := "tools"
  const DeleteRoute: string := "delete_messages"
  const SummarizeRoute: string := "summarize_conversation"
  const EndRoute: string := "__end__"

  /** Exceptions a node or router can raise. */
  datatype NodeError =
    | IndexError        // `messages[-1]` on an empty history
    | AttributeError    // `.tool_calls` on a message that is not an AI message
    | NoAIMessage       // the tool node finds no AI message at the end of the history
    | UnknownRoute(route: string)

  function SystemMessage(text: string): Message { Message(None, System, text) }
  function HumanMessage(text: string): Message { Message(None, Human, text) }

  /** What the tool-capable chat model answers: text and tool-call requests. */
  datatype AIReply = AIReply(content: string, toolCalls: seq<ToolCall>)

  function AIMessage(r: AIReply): Message { Message(None, AI(r.toolCalls), r.content) }

  function Last(ms: seq<Message>): Message
    requires ms != []
  {
    ms[|ms| - 1]
  }

  // ---------------------------------------------------------------------------
  // agent (call_model)
  // ---------------------------------------------------------------------------

  /** The agent's prompt: the fixed instructions, then the summary note exactly
      when a summary exists, then the history unchanged and in order. */
  function Prompt(s: State): (p: seq<Message>)
    ensures |p| == |s.messages| + (if s.summary != "" then 2 else 1)
    ensures p[0] == SystemMessage(AgentInstructions)
    ensures s.summary != "" ==> p[1] == SystemMessage(SummaryNotePrefix + s.summary)
    ensures p[|p| - |s.messages|..] == s.messages
    ensures forall i :: 0 <= i < |p| - |s.messages| ==> p[i].kind == System
  {
    var withSummary := if s.summary != "" then [SystemMessage(SummaryNotePrefix + s.summary)] + s.messages
                       else s.messages;
    [SystemMessage(AgentInstructions)] + withSummary
  }

  /** The agent node: the update holds one message, the model's answer to `Prompt(s)`. */
  function CallModel(s: State, model: seq<Message> -> AIReply): (u: Update)
    ensures |u.messages| == 1 && u.messages[0].Add?
    ensures u.messages[0].msg.id.None? && u.messages[0].msg.kind == AI(model(Prompt(s)).toolCalls)
    ensures u.messages[0].msg.content == model(Prompt(s)).content
    ensures u.summary.None? && u.formattedQuery.None?
  {
    Update([Add(AIMessage(model(Prompt(s))))], None, None)
  }

  /** Merged, the agent's update appends exactly the answer, under a fresh id. */
  lemma CallModelAppendsReply(s: State, model: seq<Message> -> AIReply)
    ensures var t := Apply(s, CallModel(s, model));
      && t == s.(messages := s.messages + [AIMessage(model(Prompt(s))).(id := Some(FreshId(s.messages)))])
      && (Stored(s.messages) ==> Stored(t.messages))
  {
    var m := AIMessage(model(Prompt(s)));
    AppendOne(s.messages, m);
    if Stored(s.messages) {
      StoredAppend(s.messages, m.(id := Some(FreshId(s.messages))));
    }
  }

  // ---------------------------------------------------------------------------
  // should_use_tools
  // ---------------------------------------------------------------------------

  /** Routes to the tools exactly when the last message is an AI message with
      pending tool calls, and to the pruning node when it is one without. */
  function ShouldUseTools(s: State): (r: Result<string, NodeError>)
    ensures r == Success(ToolsRoute) <==>
              s.messages != [] && Last(s.messages).kind.AI? && Last(s.messages).kind.toolCalls != []
    ensures r == Success(DeleteRoute) <==>
              s.messages != [] && Last(s.messages).kind.AI? && Last(s.messages).kind.toolCalls == []
    ensures r == Failure(IndexError) <==> s.messages == []
    ensures r == Failure(AttributeError) <==> s.messages != [] && !Last(s.messages).kind.AI?
  {
    if s.messages == [] then Failure(IndexError)
    else
      var last := Last(s.messages);
      if !last.kind.AI? then Failure(AttributeError)
      else if last.kind.toolCalls != [] then Success(ToolsRoute)
      else Success(DeleteRoute)
  }

  // ---------------------------------------------------------------------------
  // tools (the framework's tool node, abstractly)
  // ---------------------------------------------------------------------------

  /** The tool node: one Tool message per tool call of the last AI message, in
      call order, each answering its call. Running a tool is the `execute`
      parameter. */
  function ToolNode(s: State, execute: ToolCall -> string): (r: Result<Update, NodeError>)
    ensures r.Success? <==> s.messages != [] && Last(s.messages).kind.AI?
    ensures r.Success? ==>
              var calls := Last(s.messages).kind.toolCalls;
              && |r.value.messages| == |calls|
              && (forall i :: 0 <= i < |calls| ==>
                    r.value.messages[i] == Add(Message(None, Tool(calls[i].callId), execute(calls[i]))))
              && r.value.summary.None? && r.value.formattedQuery.None?
  {
    if s.messages == [] || !Last(s.messages).kind.AI? then Failure(NoAIMessage)
    else
      var calls := Last(s.messages).kind.toolCalls;
      Success(Update(seq(|calls|, i requires 0 <= i < |calls| =>
                           Add(Message(None, Tool(calls[i].callId), execute(calls[i])))), None, None))
  }

  // ---------------------------------------------------------------------------
  // delete_messages (remove_messages)
  // ---------------------------------------------------------------------------

  /** A transient message: a tool result, or an AI message with empty content. */
  predicate Transient(m: Message)
  {
    m.kind.Tool? || (m.kind.AI? && m.content == "")
  }

  /** The transient messages of `ms`, in history order. */
  function Transients(ms: seq<Message>): (r: seq<Message>)
    ensures forall m :: m in r <==> m in ms && Transient(m)
  {
    if ms == [] then []
    else (if Transient(ms[0]) then [ms[0]] else []) + Transients(ms[1..])
  }

  /** The other messages of `ms`, in history order. */
  function Keep(ms: seq<Message>): (r: seq<Message>)
    ensures forall m :: m in r <==> m in ms && !Transient(m)
    ensures |r| <= |ms|
  {
    if ms == [] then []
    else (if Transient(ms[0]) then [] else [ms[0]]) + Keep(ms[1..])
  }

  /** The pruning node: one removal marker per transient message, in history
      order, and nothing else. */
  function RemoveMessages(s: State): (u: Update)
    ensures |u.messages| == |Transients(s.messages)|
    ensures forall i :: 0 <= i < |u.messages| ==> u.messages[i] == RemoveMessage(Transients(s.messages)[i].id)
    ensures u.summary.None? && u.formattedQuery.None?
  {
    Update(Removals(Transients(s.messages)), None, None)
  }

  lemma {:induction false} IdsOfTransients(ms: seq<Message>)
    ensures Ids(Transients(ms)) <= Ids(ms)
  {
    if ms != [] {
      IdsOfTransients(ms[1..]);
      var head := if Transient(ms[0]) then [ms[0]] else [];
      var t := head + Transients(ms[1..]);
      if Transient(ms[0]) {
        assert t[0] == ms[0] && t[1..] == Transients(ms[1..]);
      } else {
        assert t == Transients(ms[1..]);
      }
    }
  }

  /** In a stored history, removing the ids of the transient messages leaves the others. */
  lemma {:induction false} WithoutTransients(ms: seq<Message>)
    requires Stored(ms)
    ensures Without(ms, Ids(Transients(ms))) == Keep(ms)
  {
    if ms != [] {
      var rest := ms[1..];
      WithoutTransients(rest);
      IdsOfTransients(rest);
      if Transient(ms[0]) {
        var t := [ms[0]] + Transients(rest);
        assert Transients(ms) == t;
        assert t[0] == ms[0] && t[1..] == Transients(rest);
        assert Ids(t) == Ids(Transients(rest)) + {ms[0].id};
        WithoutAbsent(rest, Ids(Transients(rest)), ms[0].id);
      } else {
        assert Transients(ms) == Transients(rest);
      }
    }
  }

  /** After the markers are merged, no transient message remains and all the
      others keep their relative order (they are exactly `Keep`). */
  lemma PruneApplied(s: State)
    requires Stored(s.messages)
    ensures var t := Apply(s, RemoveMessages(s));
      && t == s.(messages := Keep(s.messages))
      && Stored(t.messages)
      && forall m :: m in t.messages ==> !Transient(m)
  {
    ApplyRemovals(s.messages, Transients(s.messages));
    WithoutTransients(s.messages);
    StoredPreserved(s.messages, Removals(Transients(s.messages)));
  }

  /** The pruning node returns the empty update exactly when no message is
      transient, and then merging it leaves the state as it was. */
  lemma NothingToPrune(s: State)
    ensures RemoveMessages(s) == NoUpdate <==> forall m :: m in s.messages ==> !Transient(m)
    ensures RemoveMessages(s) == NoUpdate ==> Apply(s, RemoveMessages(s)) == s
  {
    var t := Transients(s.messages);
    assert t != [] ==> t[0] in s.messages && Transient(t[0]);
    if !forall m :: m in s.messages ==> !Transient(m) {
      var m :| m in s.messages && Transient(m);
      assert m in Transients(s.messages);
    }
    ApplyNoUpdate(s);
  }

  // ---------------------------------------------------------------------------
  // should_summarize
  // ---------------------------------------------------------------------------

  /** Summarize exactly when more than four messages remain; otherwise end. */
  function ShouldSummarize(s: State): (r: string)
    ensures r == SummarizeRoute <==> |s.messages| > 4
    ensures r == EndRoute <==> |s.messages| <= 4
  {
    if |s.messages| > 4 then SummarizeRoute else EndRoute
  }

  // ---------------------------------------------------------------------------
  // summarize_conversation
  // ---------------------------------------------------------------------------

  /** The instruction appended for the summarizer: the "extend" form, embedding
      the prior summary, exactly when one exists; otherwise the "create" form. */
  function SummaryInstruction(summary: string): (r: string)
    ensures summary != "" <==> r != CreateSummaryInstruction
    ensures summary != "" ==> |r| == |ExtendSummaryPrefix| + |summary| + |ExtendSummarySuffix|
    ensures summary != "" ==> r[..|ExtendSummaryPrefix|] == ExtendSummaryPrefix
                               && r[|ExtendSummaryPrefix|..|r| - |ExtendSummarySuffix|] == summary
                               && r[|r| - |ExtendSummarySuffix|..] == ExtendSummarySuffix
  {
    if summary != "" then ExtendSummaryPrefix + summary + ExtendSummarySuffix
    else CreateSummaryInstruction
  }

  /** `ms[:-2]`: everything but the last two messages (nothing when there are at most two). */
  function AllButLastTwo(ms: seq<Message>): (r: seq<Message>)
    ensures |r| == if |ms| <= 2 then 0 else |ms| - 2
    ensures r == ms[..|r|]
  {
    if |ms| <= 2 then [] else ms[..|ms| - 2]
  }

  /** The messages kept by summarization: the last two, or all when there are fewer. */
  function LastTwo(ms: seq<Message>): (r: seq<Message>)
    ensures |r| == if |ms| <= 2 then |ms| else 2
    ensures AllButLastTwo(ms) + r == ms
  {
    if |ms| <= 2 then ms else ms[|ms| - 2..]
  }

  /** The summarization node: the new summary is the summarizer's answer to the
      whole history followed by the instruction; every message but the last two
      is marked for removal. */
  function SummarizeConversation(s: State, summarize: seq<Message> -> string): (u: Update)
    ensures u.summary == Some(summarize(s.messages + [HumanMessage(SummaryInstruction(s.summary))]))
    ensures |u.messages| == if |s.messages| <= 2 then 0 else |s.messages| - 2
    ensures forall i :: 0 <= i < |u.messages| ==> u.messages[i] == RemoveMessage(s.messages[i].id)
    ensures u.formattedQuery.None?
  {
    var instruction := SummaryInstruction(s.summary);
    var summary := summarize(s.messages + [HumanMessage(instruction)]);
    Update(Removals(AllButLastTwo(s.messages)), Some(summary), None)
  }

  /** Merged into a stored history, summarization keeps exactly the last two
      messages and replaces the summary. */
  lemma SummarizeApplied(s: State, summarize: seq<Message> -> string)
    requires Stored(s.messages)
    ensures var t := Apply(s, SummarizeConversation(s, summarize));
      && t.messages == LastTwo(s.messages)
      && t.summary == summarize(s.messages + [HumanMessage(SummaryInstruction(s.summary))])
      && t.input == s.input
      && Stored(t.messages)
  {
    var p, q := AllButLastTwo(s.messages), LastTwo(s.messages);
    ApplyRemovals(s.messages, p);
    WithoutPrefix(p, q);
    StoredSuffix(s.messages, |p|);
    assert s.messages[|p|..] == q;
  }

  // ---------------------------------------------------------------------------
  // formulate_query
  // ---------------------------------------------------------------------------

  /** The query-formulation node. With no history the standalone query is the raw
      input and the formulation model is not consulted; otherwise it is the model's
      answer. Either way exactly one Human message with the raw input is added,
      and the summary is written back unchanged. */
  function FormulateQuery(s: State, formulate: (seq<Message>, string, string) -> string): (u: Update)
    ensures s.messages == [] ==> u.formattedQuery == Some(s.input)
    ensures s.messages != [] ==> u.formattedQuery == Some(formulate(s.messages, s.input, s.summary))
    ensures u.messages == [Add(HumanMessage(s.input))]
    ensures u.summary == Some(s.summary)
  {
    var formatted := if s.messages == [] then s.input else formulate(s.messages, s.input, s.summary);
    Update([Add(HumanMessage(s.input))], Some(s.summary), Some(formatted))
  }

  /** Merged, the formulation step appends the raw input and nothing else; the
      formulated query does not reach the state, whatever the model answers. */
  lemma FormulateAppendsInput(s: State, f: (seq<Message>, string, string) -> string,
                              g: (seq<Message>, string, string) -> string)
    ensures var t := Apply(s, FormulateQuery(s, f));
      && t == s.(messages := s.messages + [HumanMessage(s.input).(id := Some(FreshId(s.messages)))])
      && (Stored(s.messages) ==> Stored(t.messages))
      && t == Apply(s, FormulateQuery(s, g))
  {
    AppendOne(s.messages, HumanMessage(s.input));
    if Stored(s.messages) {
      StoredAppend(s.messages, HumanMessage(s.input).(id := Some(FreshId(s.messages))));
    }
  }
}
