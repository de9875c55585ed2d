/** The conversation engine: one agent owning its message history and writing to the shared store. */
module Agent {
  import opened Wrappers
  import opened Text
  import opened Recorders
  import opened Conversation

  /** The instructions before and after the business information (wording abbreviated). */
  const PromptIntro: string := "You are Alex, a friendly and professional customer service representative for TutorBee.\n\nBusiness Information (THIS IS YOUR ONLY SOURCE OF TRUTH):\n"
  const PromptGuidelines: string := "\n\nBehavioral Guidelines: answer only from the business information; use record_feedback for anything it does not cover; ask interested customers for their name and email.\n"

  /** The system prompt built from the business context. */
  function SystemPrompt(businessContext: string): string
  {
    PromptIntro + businessContext + PromptGuidelines
  }

  /** The system prompt embeds the business context verbatim. */
  lemma SystemPromptEmbedsContext(businessContext: string)
    ensures IsInfix(businessContext, SystemPrompt(businessContext))
  {
    InfixOfConcat(PromptIntro, businessContext, PromptGuidelines);
  }

  /** `TutorBeeAgent`: the provider client is replaced by the replies passed to `Chat`. */
  class TutorBeeAgent {
    const apiKey: string
    const businessContext: string
    const systemPrompt: string
    const store: Store
    var history: seq<Message>

    ghost predicate Valid()
      reads this
    {
      systemPrompt == SystemPrompt(businessContext) && WellFormedHistory(history, systemPrompt)
    }

    /** A fresh agent's history is the system prompt alone. */
    constructor (apiKey: string, businessContext: string, store: Store)
      ensures Valid()
      ensures this.apiKey == apiKey && this.businessContext == businessContext && this.store == store
      ensures history == [SystemMsg(SystemPrompt(businessContext))]
    {
      this.apiKey := apiKey;
      this.businessContext := businessContext;
      this.store := store;
      systemPrompt := SystemPrompt(businessContext);
      history := [SystemMsg(SystemPrompt(businessContext))];
    }

    /** `chat`: `first` is the provider's first answer, `second` its tool-free second answer
        (`Failure` when that call raises), `clock(i)` the time read by the i-th tool call. */
    method Chat(userMessage: string, first: Result<Reply, string>, second: Result<Option<string>, string>,
                clock: nat -> string)
      returns (r: Result<Option<string>, string>)
      requires Valid()
      modifies this, store
      ensures Valid()
      ensures history == old(history) + TurnMessages(userMessage, first, second)
      ensures store.leads == old(store.leads) + NewLeads(TurnCalls(first), clock)
      ensures store.feedback == old(store.feedback) + NewFeedback(TurnCalls(first), clock)
      ensures r == TurnResult(first, second)
    {
      ghost var h0 := history;
      history := history + [UserMsg(userMessage)];
      if first.Failure? {
        r := Failure(first.error);
      } else {
        var reply := first.value;
        if reply.HasToolCalls() {
          var calls := reply.toolCalls.value;
          history := history + [AssistantMsg(reply.content, calls)];
          RunToolCalls(calls, clock);
          ghost var h1 := history;
          if second.Failure? {
            r := Failure(second.error);
          } else {
            history := history + [AssistantMsg(second.value, [])];
            r := Success(second.value);
          }
          assert history == h1 + (if second.Success? then [AssistantMsg(second.value, [])] else []);
        } else {
          history := history + [AssistantMsg(reply.content, [])];
          r := Success(reply.content);
        }
      }
      assert history == h0 + TurnMessages(userMessage, first, second);
      TurnKeepsHistoryWellFormed(h0, systemPrompt, userMessage, first, second);
    }

    /** The `for tool_call in ...` loop of `chat`: run each call in request order and append
        the tool message answering it. Only `Chat` calls it, right after appending the assistant
        message that carries `calls`; on its own it does not keep `Valid()`. */
    method RunToolCalls(calls: seq<ToolCall>, clock: nat -> string)
      modifies this, store
      ensures history == old(history) + ToolMessages(calls)
      ensures store.leads == old(store.leads) + NewLeads(calls, clock)
      ensures store.feedback == old(store.feedback) + NewFeedback(calls, clock)
    {
      var i := 0;
      while i < |calls|
        invariant 0 <= i <= |calls|
        invariant history == old(history) + ToolMessages(calls[..i])
        invariant store.leads == old(store.leads) + NewLeads(calls[..i], clock)
        invariant store.feedback == old(store.feedback) + NewFeedback(calls[..i], clock)
      {
        var call := calls[i];
        assert calls[..i + 1][..i] == calls[..i];
        var output: string;
        match Dispatch(call) {
          case RecordInterest(email, name, message) =>
            output := store.RecordCustomerInterest(email, name, message, clock(i));
          case RecordQuestion(question) =>
            output := store.RecordFeedback(question, clock(i));
          case Unknown =>
            output := NotFound;
        }
        history := history + [ToolMsg(call.id, call.name, output)];
        i := i + 1;
      }
      assert calls[..i] == calls;
    }

    /** `reset`: back to the system prompt alone; the store is not touched. */
    method Reset()
      requires Valid()
      modifies this
      ensures Valid()
      ensures history == [SystemMsg(SystemPrompt(businessContext))]
    {
      history := [SystemMsg(systemPrompt)];
    }
  }
}
