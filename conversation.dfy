/** Messages, tool calls and what one turn of the conversation adds to the history,
    stated as functions of the provider's answers. */
module Conversation {
  import opened Wrappers
  import opened Text
  import opened Recorders

  /** One invocation the model requests: its id, the tool's name and the decoded arguments. */
  datatype ToolCall = ToolCall(id: string, name: string, arguments: map<string, string>)

  /** The provider's first message: its (nullable) text and its (nullable) list of tool calls. */
  datatype Reply = Reply(content: Option<string>, toolCalls: Option<seq<ToolCall>>)
  {
    /** Python's truthiness of `tool_calls`: neither `None` nor empty. */
    predicate HasToolCalls()
    {
      toolCalls.Some? && |toolCalls.value| > 0
    }
  }

  /** An entry of the conversation history. */
  datatype Message =
    | SystemMsg(prompt: string)
    | UserMsg(text: string)
    | AssistantMsg(content: Option<string>, calls: seq<ToolCall>)
    | ToolMsg(toolCallId: string, name: string, result: string)

  const InterestTool: string := "record_customer_interest"
  const FeedbackTool: string := "record_feedback"
  const NotFound: string := "Function not found."

  /** `args.get(key)`: the value, or `None` when the key is missing. */
  function Arg(args: map<string, string>, key: string): Option<string>
  {
    if key in args then Some(args[key]) else None
  }

  /** Which tool a call selects, with the arguments that tool receives. */
  datatype Invocation =
    | RecordInterest(email: Option<string>, name: Option<string>, message: Option<string>)
    | RecordQuestion(question: Option<string>)
    | Unknown

  /** The fixed name dispatch inside `chat`. */
  function Dispatch(call: ToolCall): Invocation
  {
    if call.name == InterestTool then
      RecordInterest(Arg(call.arguments, "email"), Arg(call.arguments, "name"), Arg(call.arguments, "message"))
    else if call.name == FeedbackTool then
      RecordQuestion(Arg(call.arguments, "question"))
    else
      Unknown
  }

  /** The text a call's tool returns, which becomes the content of its `tool` message. */
  function ToolOutput(call: ToolCall): string
  {
    match Dispatch(call)
    case RecordInterest(email, name, _) => InterestAck(name, email)
    case RecordQuestion(_) => FeedbackAck
    case Unknown => NotFound
  }

  /** The `tool` messages answering `calls`, one per call, in request order. */
  function ToolMessages(calls: seq<ToolCall>): seq<Message>
  {
    if calls == [] then []
    else
      var c := calls[|calls| - 1];
      ToolMessages(calls[..|calls| - 1]) + [ToolMsg(c.id, c.name, ToolOutput(c))]
  }

  /** The leads recorded while running `calls`; `clock(i)` is the time read by the i-th call. */
  function NewLeads(calls: seq<ToolCall>, clock: nat -> string): seq<LeadRecord>
  {
    if calls == [] then []
    else
      var i := |calls| - 1;
      NewLeads(calls[..i], clock)
      + match Dispatch(calls[i])
        case RecordInterest(email, name, message) => [LeadRecord(clock(i), name, email, message)]
        case _ => []
  }

  /** The feedback entries recorded while running `calls`. */
  function NewFeedback(calls: seq<ToolCall>, clock: nat -> string): seq<FeedbackRecord>
  {
    if calls == [] then []
    else
      var i := |calls| - 1;
      NewFeedback(calls[..i], clock)
      + match Dispatch(calls[i])
        case RecordQuestion(question) => [FeedbackRecord(clock(i), question)]
        case _ => []
  }

  /** How many of `calls` name the tool `tool`. */
  function CountNamed(calls: seq<ToolCall>, tool: string): nat
  {
    if calls == [] then 0
    else CountNamed(calls[..|calls| - 1], tool) + (if calls[|calls| - 1].name == tool then 1 else 0)
  }

  /** The i-th tool message answers the i-th call: same id, same name, that call's tool output. */
  lemma {:induction false} ToolMessagesMatchCalls(calls: seq<ToolCall>)
    ensures |ToolMessages(calls)| == |calls|
    ensures forall i :: 0 <= i < |calls| ==>
              ToolMessages(calls)[i] == ToolMsg(calls[i].id, calls[i].name, ToolOutput(calls[i]))
  {
    if calls != [] {
      var init := calls[..|calls| - 1];
      ToolMessagesMatchCalls(init);
      assert forall i :: 0 <= i < |init| ==> init[i] == calls[i];
    }
  }

  /** One lead per call named `record_customer_interest`. */
  lemma {:induction false} NewLeadsCount(calls: seq<ToolCall>, clock: nat -> string)
    ensures |NewLeads(calls, clock)| == CountNamed(calls, InterestTool)
  {
    if calls != [] {
      NewLeadsCount(calls[..|calls| - 1], clock);
    }
  }

  /** One feedback entry per call named `record_feedback`. */
  lemma {:induction false} NewFeedbackCount(calls: seq<ToolCall>, clock: nat -> string)
    ensures |NewFeedback(calls, clock)| == CountNamed(calls, FeedbackTool)
  {
    if calls != [] {
      NewFeedbackCount(calls[..|calls| - 1], clock);
    }
  }

  /** A call to any other tool is answered "Function not found." and records nothing. */
  lemma UnknownToolAnswer(call: ToolCall, clock: nat -> string)
    requires call.name != InterestTool && call.name != FeedbackTool
    ensures ToolOutput(call) == NotFound
    ensures NewLeads([call], clock) == [] && NewFeedback([call], clock) == []
  {
  }

  /** Calls that name neither tool leave both lists as they were. */
  lemma {:induction false} UnknownToolsRecordNothing(calls: seq<ToolCall>, clock: nat -> string)
    requires forall i :: 0 <= i < |calls| ==> calls[i].name != InterestTool && calls[i].name != FeedbackTool
    ensures NewLeads(calls, clock) == [] && NewFeedback(calls, clock) == []
  {
    if calls != [] {
      UnknownToolsRecordNothing(calls[..|calls| - 1], clock);
    }
  }

  /** The calls of the first reply that `chat` runs: none unless that reply succeeded with calls. */
  function TurnCalls(first: Result<Reply, string>): seq<ToolCall>
  {
    if first.Success? && first.value.HasToolCalls() then first.value.toolCalls.value else []
  }

  /** Everything one `chat` call appends to the history, given the two provider answers
      (`Failure` stands for an exception raised by the provider call). */
  function TurnMessages(user: string, first: Result<Reply, string>, second: Result<Option<string>, string>): seq<Message>
  {
    [UserMsg(user)]
    + match first
      case Failure(_) => []
      case Success(reply) =>
        if reply.HasToolCalls() then
          [AssistantMsg(reply.content, reply.toolCalls.value)]
          + ToolMessages(reply.toolCalls.value)
          + (if second.Success? then [AssistantMsg(second.value, [])] else [])
        else
          [AssistantMsg(reply.content, [])]
  }

  /** What one `chat` call returns, or the exception it propagates. */
  function TurnResult(first: Result<Reply, string>, second: Result<Option<string>, string>): Result<Option<string>, string>
  {
    match first
    case Failure(e) => Failure(e)
    case Success(reply) => if reply.HasToolCalls() then second else Success(reply.content)
  }

  /** A reply without tool calls (none, or an empty list): user message and assistant answer,
      the answer returned, nothing recorded. */
  lemma PlainTurn(user: string, reply: Reply, second: Result<Option<string>, string>, clock: nat -> string)
    requires !reply.HasToolCalls()
    ensures TurnMessages(user, Success(reply), second) == [UserMsg(user), AssistantMsg(reply.content, [])]
    ensures TurnResult(Success(reply), second) == Success(reply.content)
    ensures TurnCalls(Success(reply)) == []
  {
  }

  /** A reply with N >= 1 calls: N + 3 messages, in order user, assistant with the calls,
      one tool message per call tagged with its id, and the second completion's text. */
  lemma ToolTurn(user: string, reply: Reply, final: Option<string>)
    requires reply.HasToolCalls()
    ensures var calls := reply.toolCalls.value;
            var h := TurnMessages(user, Success(reply), Success(final));
            && |h| == |calls| + 3
            && h[0] == UserMsg(user)
            && h[1] == AssistantMsg(reply.content, calls)
            && (forall i :: 0 <= i < |calls| ==> h[i + 2] == ToolMsg(calls[i].id, calls[i].name, ToolOutput(calls[i])))
            && h[|calls| + 2] == AssistantMsg(final, [])
    ensures TurnResult(Success(reply), Success(final)) == Success(final)
  {
    ToolMessagesMatchCalls(reply.toolCalls.value);
  }

  /** Whatever a successful turn returns is the content of the last message it appended. */
  lemma ReturnedIsLastMessage(user: string, first: Result<Reply, string>, second: Result<Option<string>, string>)
    requires TurnResult(first, second).Success?
    ensures var h := TurnMessages(user, first, second);
            |h| >= 2 && h[|h| - 1] == AssistantMsg(TurnResult(first, second).value, [])
  {
  }

  /** A failing provider call ends the turn early; what was already appended stays. */
  lemma FailedTurn(user: string, first: Result<Reply, string>, second: Result<Option<string>, string>)
    requires TurnResult(first, second).Failure?
    ensures first.Failure? ==> TurnMessages(user, first, second) == [UserMsg(user)]
    ensures first.Success? ==>
              TurnMessages(user, first, second)
              == [UserMsg(user), AssistantMsg(first.value.content, TurnCalls(first))] + ToolMessages(TurnCalls(first))
  {
  }

  /** The tool message at `k` answers a call of the nearest assistant message before it,
      the one whose calls it and the tool messages between them answer in order. */
  ghost predicate AnsweredAt(h: seq<Message>, k: int)
    requires 0 <= k < |h|
  {
    exists j :: 0 <= j < k && h[j].AssistantMsg? && k - j <= |h[j].calls|
      && (forall m :: j < m <= k ==> h[m].ToolMsg?)
      && h[k].toolCallId == h[j].calls[k - j - 1].id
  }

  /** A history `chat` can build: the system prompt first and only there, and every tool
      message tagged with the id of a call requested just before it. */
  ghost predicate WellFormedHistory(h: seq<Message>, prompt: string)
  {
    && |h| >= 1
    && h[0] == SystemMsg(prompt)
    && (forall k :: 1 <= k < |h| ==> !h[k].SystemMsg?)
    && (forall k :: 0 <= k < |h| && h[k].ToolMsg? ==> AnsweredAt(h, k))
  }

  lemma AnsweredAtAppend(h: seq<Message>, t: seq<Message>, k: int)
    requires 0 <= k < |h| && AnsweredAt(h, k)
    ensures AnsweredAt(h + t, k)
  {
    var j :| 0 <= j < k && h[j].AssistantMsg? && k - j <= |h[j].calls|
      && (forall m :: j < m <= k ==> h[m].ToolMsg?)
      && h[k].toolCallId == h[j].calls[k - j - 1].id;
    assert (h + t)[j] == h[j];
    assert forall m :: j < m <= k ==> (h + t)[m] == h[m];
  }

  /** Appending messages that are neither system nor unanswered tool messages keeps a history well formed. */
  lemma AppendKeepsWellFormed(h: seq<Message>, prompt: string, t: seq<Message>)
    requires WellFormedHistory(h, prompt)
    requires forall i :: 0 <= i < |t| ==> !t[i].SystemMsg?
    requires forall k :: |h| <= k < |h + t| && (h + t)[k].ToolMsg? ==> AnsweredAt(h + t, k)
    ensures WellFormedHistory(h + t, prompt)
  {
    var h' := h + t;
    forall k | 0 <= k < |h| && h'[k].ToolMsg?
      ensures AnsweredAt(h', k)
    {
      assert h'[k] == h[k];
      AnsweredAtAppend(h, t, k);
    }
    assert forall k :: 1 <= k < |h'| ==> !h'[k].SystemMsg? by {
      forall k | 1 <= k < |h'| ensures !h'[k].SystemMsg? {
        if k >= |h| { assert h'[k] == t[k - |h|]; }
      }
    }
  }

  /** The tool messages of a turn with calls answer the assistant message just before them. */
  lemma ToolTurnAnswered(h: seq<Message>, t: seq<Message>, user: string, content: Option<string>,
                         calls: seq<ToolCall>, tail: seq<Message>)
    requires t == [UserMsg(user), AssistantMsg(content, calls)] + ToolMessages(calls) + tail
    requires forall i :: 0 <= i < |tail| ==> !tail[i].ToolMsg?
    ensures forall k :: |h| <= k < |h + t| && (h + t)[k].ToolMsg? ==> AnsweredAt(h + t, k)
  {
    var h' := h + t;
    var b := |h|;
    ToolMessagesMatchCalls(calls);
    assert h'[b] == UserMsg(user);
    assert h'[b + 1] == AssistantMsg(content, calls);
    forall k | b <= k < |h'| && h'[k].ToolMsg?
      ensures AnsweredAt(h', k)
    {
      assert b + 2 <= k;
      forall m | b + 1 < m <= k ensures h'[m].ToolMsg? {
        assert h'[m] == ToolMessages(calls)[m - b - 2];
      }
      assert h'[k] == ToolMessages(calls)[k - b - 2];
      assert h'[k].toolCallId == h'[b + 1].calls[k - (b + 1) - 1].id;
    }
  }

  /** Every turn, completed or cut short by the provider, keeps the history well formed. */
  lemma TurnKeepsHistoryWellFormed(h: seq<Message>, prompt: string, user: string,
                                   first: Result<Reply, string>, second: Result<Option<string>, string>)
    requires WellFormedHistory(h, prompt)
    ensures WellFormedHistory(h + TurnMessages(user, first, second), prompt)
  {
    var t := TurnMessages(user, first, second);
    if first.Success? && first.value.HasToolCalls() {
      var calls := first.value.toolCalls.value;
      var tail: seq<Message> := if second.Success? then [AssistantMsg(second.value, [])] else [];
      assert t == [UserMsg(user), AssistantMsg(first.value.content, calls)] + ToolMessages(calls) + tail;
      ToolTurnAnswered(h, t, user, first.value.content, calls, tail);
      ToolMessagesMatchCalls(calls);
      forall i | 0 <= i < |t| ensures !t[i].SystemMsg? {
        if 2 <= i < 2 + |calls| { assert t[i] == ToolMessages(calls)[i - 2]; }
      }
    }
    AppendKeepsWellFormed(h, prompt, t);
  }
}
