/**
 * The conversation state: the raw `input`, the ordered `messages` and the
 * running `summary`, and how a node's update is merged into it.
 */
module GraphState {
  import opened Wrappers
  import opened Messages

  datatype State = State(input: string, messages: seq<Message>, summary: string)

  /** What a node returns. Absent keys are `None`. `formattedQuery` is produced by
      the query-formulation node; the state declares no such key, so merging drops it. */
  datatype Update = Update(messages: seq<Entry>, summary: Option<string>, formattedQuery: Option<string>)

  const NoUpdate: Update := Update([], None, None)

  /** The merge the framework performs after each node: `messages` through the
      message reducer, `summary` overwritten when the update carries one. */
  function Apply(s: State, u: Update): State
  {
    State(s.input, AddMessages(s.messages, u.messages), u.summary.GetOr(s.summary))
  }

  /** Merging an empty update changes nothing. */
  lemma ApplyNoUpdate(s: State)
    ensures Apply(s, NoUpdate) == s
  {
  }
}
