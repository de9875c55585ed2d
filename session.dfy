/** The module-level `agent` slot and the two entry points that guard it. */
module Session {
  import opened Wrappers
  import opened Recorders
  import opened Conversation
  import opened Agent

  const MissingKey: string := "\U{26A0}\U{FE0F} Please enter your OpenAI API key."
  const InitOk: string := "\U{2705} Agent initialized successfully! You can start chatting."
  const InitErrorPrefix: string := "\U{274C} Error initializing agent: "
  const NotInitialized: string := "\U{26A0}\U{FE0F} Please initialize the agent first by entering your OpenAI API key above."
  const ChatErrorPrefix: string := "\U{274C} Error: "

  /** The process: the business context loaded at start, the shared store and the current agent. */
  class App {
    const businessContext: string
    const store: Store
    var agent: TutorBeeAgent?

    ghost predicate Valid()
      reads this, agent
    {
      agent != null ==> agent.Valid() && agent.store == store && agent.businessContext == businessContext
    }

    /** At start no agent exists. */
    constructor (businessContext: string, store: Store)
      ensures Valid() && agent == null
      ensures this.businessContext == businessContext && this.store == store
    {
      this.businessContext := businessContext;
      this.store := store;
      agent := null;
    }

    /** `initialize_agent`: `clientError` is the exception, if any, raised while building the client. */
    method InitializeAgent(apiKey: string, clientError: Option<string>) returns (status: string)
      requires Valid()
      modifies this
      ensures Valid()
      ensures apiKey == "" ==> status == MissingKey && agent == old(agent)
      ensures apiKey != "" && clientError.Some? ==>
                status == InitErrorPrefix + clientError.value && agent == old(agent)
      ensures apiKey != "" && clientError.None? ==>
                && status == InitOk
                && agent != null && fresh(agent)
                && agent.apiKey == apiKey
                && agent.history == [SystemMsg(SystemPrompt(businessContext))]
    {
      if apiKey == "" {
        return MissingKey;
      }
      match clientError {
        case Some(e) =>
          status := InitErrorPrefix + e;
        case None =>
          agent := new TutorBeeAgent(apiKey, businessContext, store);
          status := InitOk;
      }
    }

    /** `chat_with_agent`: refuse before initialisation, otherwise one turn of the current agent,
        with a raised exception turned into an error text. */
    method ChatWithAgent(message: string, first: Result<Reply, string>, second: Result<Option<string>, string>,
                         clock: nat -> string)
      returns (response: Option<string>)
      requires Valid()
      modifies agent, store
      ensures Valid() && agent == old(agent)
      ensures agent == null ==> response == Some(NotInitialized) && unchanged(store)
      ensures agent != null ==>
                && agent.history == old(agent.history) + TurnMessages(message, first, second)
                && store.leads == old(store.leads) + NewLeads(TurnCalls(first), clock)
                && store.feedback == old(store.feedback) + NewFeedback(TurnCalls(first), clock)
                && response == match TurnResult(first, second)
                               case Success(text) => text
                               case Failure(e) => Some(ChatErrorPrefix + e)
    {
      if agent == null {
        return Some(NotInitialized);
      }
      var r := agent.Chat(message, first, second, clock);
      match r {
        case Success(text) => response := text;
        case Failure(e) => response := Some(ChatErrorPrefix + e);
      }
    }
  }
}
