/**
 * Chat messages and the message reducer of the conversation state.
 *
 * The state's `messages` channel is combined with each node's update by the
 * framework's `add_messages` reducer. That reducer is foreign code; this module
 * states the behaviour the workflow relies on as a definition (an assumption of
 * the model, not verified code):
 *   - an ordinary message is appended; one without an id receives a fresh id;
 *   - `RemoveMessage(id)` deletes the stored message with that id.
 */
module Messages {
  import opened Wrappers

  /** Message identifiers. The framework uses uuid strings; a fresh uuid is
      modelled as a number larger than every id in use. */
  type Id = nat

  /** A tool-call request carried by an AI message. */
  datatype ToolCall = ToolCall(callId: string, name: string, args: map<string, string>)

  /** The four message classes the workflow distinguishes. */
  datatype Kind =
    | Human
    | AI(toolCalls: seq<ToolCall>)
    | System
    | Tool(toolCallId: string)

  datatype Message = Message(id: Option<Id>, kind: Kind, content: string)

  /** One item of a node's "messages" update: a message, or a removal marker. */
  datatype Entry = Add(msg: Message) | RemoveMessage(target: Option<Id>)

  /** The ids of a message list. */
  function Ids(ms: seq<Message>): (r: set<Option<Id>>)
    ensures forall i :: 0 <= i < |ms| ==> ms[i].id in r
  {
    if ms == [] then {} else {ms[0].id} + Ids(ms[1..])
  }

  /** A list as the reducer keeps it: every message has an id, and no two share one. */
  predicate Stored(ms: seq<Message>)
  {
    ms == [] || (ms[0].id.Some? && ms[0].id !in Ids(ms[1..]) && Stored(ms[1..]))
  }

  /** The largest id in use (0 for a list without ids). */
  function MaxId(ms: seq<Message>): (r: nat)
    ensures forall x :: x in Ids(ms) && x.Some? ==> x.value <= r
  {
    if ms == [] then 0
    else
      var rest := MaxId(ms[1..]);
      match ms[0].id
      case Some(k) => if k > rest then k else rest
      case None => rest
  }

  /** The id the reducer gives to a message that arrives without one. */
  function FreshId(ms: seq<Message>): (r: Id)
    ensures Some(r) !in Ids(ms)
  {
    MaxId(ms) + 1
  }

  /** The messages of `ms` whose id is not in `ids`, in their original order. */
  function Without(ms: seq<Message>, ids: set<Option<Id>>): (r: seq<Message>)
    ensures |r| <= |ms|
    ensures forall m :: m in r <==> m in ms && m.id !in ids
  {
    if ms == [] then []
    else (if ms[0].id in ids then [] else [ms[0]]) + Without(ms[1..], ids)
  }

  /** The reducer applied to a single entry. */
  function ApplyEntry(ms: seq<Message>, e: Entry): (r: seq<Message>)
    ensures e.Add? ==>
              && |r| == |ms| + 1 && r[..|ms|] == ms
              && r[|ms|].kind == e.msg.kind && r[|ms|].content == e.msg.content
              && r[|ms|].id.Some? && (e.msg.id.Some? ==> r[|ms|] == e.msg)
    ensures e.RemoveMessage? ==> forall m :: m in r <==> m in ms && m.id != e.target
  {
    match e
    case Add(m) => ms + [if m.id.None? then m.(id := Some(FreshId(ms))) else m]
    case RemoveMessage(t) => Without(ms, {t})
  }

  /** The reducer: the entries of an update are applied to the stored list in order. */
  function AddMessages(ms: seq<Message>, entries: seq<Entry>): (r: seq<Message>)
    ensures |r| <= |ms| + |entries|
    ensures (forall i :: 0 <= i < |entries| ==> entries[i].RemoveMessage?) ==>
              |r| <= |ms| && forall m :: m in r ==> m in ms
    decreases |entries|
  {
    if entries == [] then ms else AddMessages(ApplyEntry(ms, entries[0]), entries[1..])
  }

  /** One removal marker per message of `p`, in the order of `p`
      (the shape `[RemoveMessage(id=m.id) for m in p]`). */
  function Removals(p: seq<Message>): (r: seq<Entry>)
    ensures |r| == |p|
    ensures forall i :: 0 <= i < |p| ==> r[i] == RemoveMessage(p[i].id)
  {
    if p == [] then [] else [RemoveMessage(p[0].id)] + Removals(p[1..])
  }

  /** Entries a node may emit: removal markers, and messages still without an id. */
  predicate Fresh(entries: seq<Entry>)
  {
    forall i :: 0 <= i < |entries| && entries[i].Add? ==> entries[i].msg.id.None?
  }

  // ---------------------------------------------------------------------------
  // Lemmas about the reducer
  // ---------------------------------------------------------------------------

  lemma {:induction false} WithoutNothing(ms: seq<Message>)
    ensures Without(ms, {}) == ms
  {
    if ms != [] {
      WithoutNothing(ms[1..]);
    }
  }

  /** Removing two id sets one after the other is removing their union. */
  lemma {:induction false} WithoutTwice(ms: seq<Message>, a: set<Option<Id>>, b: set<Option<Id>>)
    ensures Without(Without(ms, a), b) == Without(ms, a + b)
  {
    if ms != [] {
      WithoutTwice(ms[1..], a, b);
      var head := if ms[0].id in a then [] else [ms[0]];
      var rest := Without(ms[1..], a);
      assert Without(ms, a) == head + rest;
      if ms[0].id in a {
        assert Without(ms, a) == rest;
      } else {
        assert (head + rest)[0] == ms[0];
        assert (head + rest)[1..] == rest;
      }
    }
  }

  /** An id that no message carries can be added to the removal set freely. */
  lemma {:induction false} WithoutAbsent(ms: seq<Message>, s: set<Option<Id>>, x: Option<Id>)
    requires x !in Ids(ms)
    ensures Without(ms, s + {x}) == Without(ms, s)
  {
    if ms != [] {
      WithoutAbsent(ms[1..], s, x);
    }
  }

  /** Applying the removal markers of `p` removes exactly the ids of `p`. */
  lemma {:induction false} ApplyRemovals(ms: seq<Message>, p: seq<Message>)
    ensures AddMessages(ms, Removals(p)) == Without(ms, Ids(p))
    decreases |p|
  {
    if p == [] {
      WithoutNothing(ms);
    } else {
      var r := Removals(p);
      assert r[0] == RemoveMessage(p[0].id);
      assert r[1..] == Removals(p[1..]);
      ApplyRemovals(Without(ms, {p[0].id}), p[1..]);
      WithoutTwice(ms, {p[0].id}, Ids(p[1..]));
      assert {p[0].id} + Ids(p[1..]) == Ids(p);
    }
  }

  /** Removing the ids of a stored prefix leaves exactly the suffix. */
  lemma {:induction false} WithoutPrefix(p: seq<Message>, q: seq<Message>)
    requires Stored(p + q)
    ensures Without(p + q, Ids(p)) == q
  {
    if p == [] {
      assert p + q == q;
      WithoutNothing(q);
    } else {
      var pq := p + q;
      assert pq[0] == p[0];
      assert pq[1..] == p[1..] + q;
      WithoutPrefix(p[1..], q);
      assert Ids(p) == Ids(p[1..]) + {p[0].id};
      WithoutAbsent(p[1..] + q, Ids(p[1..]), p[0].id);
    }
  }

  lemma {:induction false} StoredAppend(ms: seq<Message>, m: Message)
    requires Stored(ms)
    requires m.id.Some? && m.id !in Ids(ms)
    ensures Stored(ms + [m])
  {
    if ms == [] {
      assert ms + [m] == [m];
    } else {
      var l := ms + [m];
      assert l[1..] == ms[1..] + [m];
      StoredAppend(ms[1..], m);
      assert Ids(l[1..]) == Ids(ms[1..]) + {m.id} by {
        IdsAppend(ms[1..], m);
      }
    }
  }

  lemma {:induction false} IdsAppend(ms: seq<Message>, m: Message)
    ensures Ids(ms + [m]) == Ids(ms) + {m.id}
  {
    if ms == [] {
      assert ms + [m] == [m];
    } else {
      assert (ms + [m])[1..] == ms[1..] + [m];
      IdsAppend(ms[1..], m);
    }
  }

  lemma {:induction false} StoredWithout(ms: seq<Message>, s: set<Option<Id>>)
    requires Stored(ms)
    ensures Stored(Without(ms, s))
  {
    if ms != [] {
      StoredWithout(ms[1..], s);
      var rest := Without(ms[1..], s);
      if ms[0].id in s {
        assert Without(ms, s) == [] + rest == rest;
      } else {
        var r := [ms[0]] + rest;
        assert Without(ms, s) == r;
        assert r[0] == ms[0] && r[1..] == rest;
        IdsWithout(ms[1..], s);
        assert ms[0].id !in Ids(rest);
      }
    }
  }

  lemma {:induction false} IdsWithout(ms: seq<Message>, s: set<Option<Id>>)
    ensures Ids(Without(ms, s)) <= Ids(ms)
  {
    if ms != [] {
      IdsWithout(ms[1..], s);
      var rest := Without(ms[1..], s);
      if ms[0].id !in s {
        var r := [ms[0]] + rest;
        assert r[0] == ms[0] && r[1..] == rest;
        assert Ids(r) == {ms[0].id} + Ids(rest);
      } else {
        assert Without(ms, s) == rest;
      }
    }
  }

  /** A stored list stays stored under every update the nodes emit. */
  lemma {:induction false} StoredPreserved(ms: seq<Message>, entries: seq<Entry>)
    requires Stored(ms)
    requires Fresh(entries)
    ensures Stored(AddMessages(ms, entries))
    decreases |entries|
  {
    if entries != [] {
      match entries[0] {
        case Add(m) =>
          StoredAppend(ms, m.(id := Some(FreshId(ms))));
        case RemoveMessage(t) =>
          StoredWithout(ms, {t});
      }
      assert Fresh(entries[1..]) by {
        forall i | 0 <= i < |entries[1..]| && entries[1..][i].Add?
          ensures entries[1..][i].msg.id.None?
        {
          assert entries[1..][i] == entries[i + 1];
        }
      }
      StoredPreserved(ApplyEntry(ms, entries[0]), entries[1..]);
    }
  }

  /** Appending one message without an id: the list grows by exactly that message, under a fresh id. */
  lemma AppendOne(ms: seq<Message>, m: Message)
    requires m.id.None?
    ensures AddMessages(ms, [Add(m)]) == ms + [m.(id := Some(FreshId(ms)))]
  {
    assert [Add(m)][1..] == [];
  }

  lemma {:induction false} StoredSuffix(ms: seq<Message>, k: nat)
    requires Stored(ms) && k <= |ms|
    ensures Stored(ms[k..])
  {
    if k > 0 {
      assert ms[k..] == ms[1..][k - 1..];
      StoredSuffix(ms[1..], k - 1);
    }
  }
}
