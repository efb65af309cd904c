/**
 * The chat transcript held in the session state, and the handling of one
 * submitted prompt: the user message, at most one request, and the
 * assistant message that always follows.
 */
module Session {
  import opened Wrappers
  import opened Json
  import opened Adapter

  datatype Role = User | Assistant

  /**
   * One transcript entry. The content is whatever the handler stored: the
   * prompt or a message text, or the value found at the reply path, which a
   * provider may send as something other than a string (null, for one).
   */
  datatype Message = Message(role: Role, content: Json)

  /** The two messages one handled prompt adds, in this order. */
  function Exchange(prompt: string, reply: Json): seq<Message> {
    [Message(User, JString(prompt)), Message(Assistant, reply)]
  }

  /** Every user message is followed by exactly one assistant message, and the transcript ends on one. */
  predicate Paired(m: seq<Message>) {
    |m| % 2 == 0 && forall i :: 0 <= i < |m| ==> m[i].role == (if i % 2 == 0 then User else Assistant)
  }

  /** Adding an exchange keeps a transcript paired, and a transcript that ends on an exchange was paired before it. */
  lemma PairedExtend(m: seq<Message>, prompt: string, reply: Json)
    ensures Paired(m + Exchange(prompt, reply)) <==> Paired(m)
  {
    var n := m + Exchange(prompt, reply);
    if Paired(m) {
      forall i | 0 <= i < |n|
        ensures n[i].role == (if i % 2 == 0 then User else Assistant)
      {
        if i >= |m| {
          assert i == |m| || i == |m| + 1;
        }
      }
    }
    if Paired(n) {
      forall i | 0 <= i < |m|
        ensures m[i].role == (if i % 2 == 0 then User else Assistant)
      {
        assert n[i] == m[i];
      }
      assert n[|m|].role == User;
    }
  }

  /** The contents of the messages of one role, in transcript order. */
  function Said(m: seq<Message>, role: Role): seq<Json>
    decreases |m|
  {
    if m == [] then []
    else (if m[0].role == role then [m[0].content] else []) + Said(m[1..], role)
  }

  /** What a role said in two stretches of transcript is what it said in the first, then in the second. */
  lemma {:induction false} SaidAppend(m: seq<Message>, n: seq<Message>, role: Role)
    ensures Said(m + n, role) == Said(m, role) + Said(n, role)
    decreases |m|
  {
    if m == [] {
      assert m + n == n;
    } else {
      assert (m + n)[0] == m[0];
      assert (m + n)[1..] == m[1..] + n;
      SaidAppend(m[1..], n, role);
      assert Said(m + n, role) == (if m[0].role == role then [m[0].content] else []) + Said(m[1..] + n, role);
    }
  }

  /** An exchange adds the prompt to what the user said and the reply to what the assistant said, and nothing else. */
  lemma ExchangeRecords(m: seq<Message>, prompt: string, reply: Json)
    ensures Said(m + Exchange(prompt, reply), User) == Said(m, User) + [JString(prompt)]
    ensures Said(m + Exchange(prompt, reply), Assistant) == Said(m, Assistant) + [reply]
  {
    var e := Exchange(prompt, reply);
    SaidAppend(m, e, User);
    SaidAppend(m, e, Assistant);
    assert e[1..][1..] == [];
    assert Said(e[1..][1..], User) == [] && Said(e[1..][1..], Assistant) == [];
    assert Said(e[1..], User) == [] && Said(e[1..], Assistant) == [reply];
    assert Said(e, User) == [JString(prompt)] && Said(e, Assistant) == [reply];
  }

  /** The session's transcript (`st.session_state.messages`). */
  class ChatSession {
    var messages: seq<Message>

    ghost predicate Valid()
      reads this
    {
      Paired(messages)
    }

    /** A new session starts with an empty transcript. */
    constructor ()
      ensures Valid() && messages == []
    {
      messages := [];
    }

    /** "Clear Chat": the transcript becomes empty; clearing again changes nothing. */
    method Clear()
      modifies this
      ensures Valid() && messages == []
    {
      messages := [];
    }

    /**
     * One submitted prompt. An empty prompt is not a submission. Otherwise
     * the user message is appended, a request is built and handed to `post`
     * only when a key was entered, and exactly one assistant message follows
     * with the reply (the placeholder when there was no key). Returns the
     * request that was sent, if any.
     */
    method HandleTurn(provider: Provider, model: string, apiKey: string, prompt: string,
                      post: Request -> Outcome, describe: Fault -> string)
      returns (sent: Option<Request>)
      requires Valid()
      modifies this
      ensures Valid()
      ensures prompt == "" ==> messages == old(messages)
      ensures prompt != "" ==>
        messages == old(messages) + Exchange(prompt, TurnReply(provider, model, apiKey, prompt, post, describe))
      ensures sent == if prompt != "" && apiKey != "" then Some(BuildRequest(provider, model, apiKey, prompt)) else None
    {
      sent := None;
      if prompt == "" {
        return;
      }
      messages := messages + [Message(User, JString(prompt))];
      var reply := JString(NoResponseYet);
      if apiKey != "" {
        var request := BuildRequest(provider, model, apiKey, prompt);
        sent := Some(request);
        var outcome := post(request);
        reply := DecodeReply(provider, outcome, describe);
      }
      messages := messages + [Message(Assistant, reply)];
      PairedExtend(old(messages), prompt, reply);
    }

    /** One run of the page: the clear button is handled before the prompt. */
    method Rerun(clearClicked: bool, provider: Provider, model: string, apiKey: string, prompt: string,
                 post: Request -> Outcome, describe: Fault -> string)
      returns (sent: Option<Request>)
      requires Valid()
      modifies this
      ensures Valid()
      ensures messages ==
        (if clearClicked then [] else old(messages))
        + (if prompt == "" then [] else Exchange(prompt, TurnReply(provider, model, apiKey, prompt, post, describe)))
      ensures sent == if prompt != "" && apiKey != "" then Some(BuildRequest(provider, model, apiKey, prompt)) else None
    {
      if clearClicked {
        Clear();
      }
      sent := HandleTurn(provider, model, apiKey, prompt, post, describe);
    }
  }
}
