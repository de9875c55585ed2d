# TutorBee assistant: the tool-calling turn, modelled in Dafny

TutorBee is a front-desk chat agent for a tutoring business. Each user message starts a
*turn*. The agent appends the message to its conversation history and asks the language
model for a reply. If that reply requests tool calls, the agent runs each call in order
through a fixed name dispatch. There are two tools: `record_customer_interest` appends a
lead and `record_feedback` appends an unanswered question. Each result goes back into the
history as a `tool` message tagged with the call's id. A second, tool-free completion
then gives the final answer. The two recorders are process-wide, append-only lists, and
two report functions print them as numbered Markdown.

The model is imperative where the program is:

- `Recorders.Store` holds the two lists as `seq` fields that the record methods append to.
- `Agent.TutorBeeAgent` holds the history as a `seq<Message>` field that `Chat` and `Reset` update.
- `Session.App` holds the module-level `agent` slot and the two guards around it.

The language-model provider is an oracle. `Chat` receives the first reply as
`Result<Reply, string>`, where `Failure` stands for an exception raised by the call. It
receives the second reply's (nullable) text the same way. The clock is a parameter:
`clock(i)` is the timestamp read while running the i-th tool call of the turn.

`Chat` and `RunToolCalls` are proved against pure specification functions in `Conversation`:
- `TurnMessages`: what a turn appends to the history.
- `TurnResult`: what it returns.
- `TurnCalls`, `NewLeads`, `NewFeedback`: what it records.
- `ToolMessages`, `ToolOutput`: the tool messages and their contents.

`Store.ViewLeads` and `Store.ViewFeedback` are proved against `LeadsReport` and
`FeedbackReport` in `Recorders`. The record methods, `Reset` and the `Session.App` methods
state their new state directly. The lemmas about these functions state the promised facts: how many messages a turn adds,
in what order, the id matching, and the record counts. `WellFormedHistory` is the
history's invariant. It says the system prompt comes first and nowhere else, and that
every tool message carries the id of a call from the assistant message just before it.
`Chat` keeps this invariant, including when the provider fails part-way through a turn.

Files: `wrappers.dfy` (Option, Result), `text.dfy` (f-string rendering, substring,
decimal numbers), `recorders.dfy`, `conversation.dfy`, `agent.dfy`, `session.dfy`.

## Model

| member | source | states |
|---|---|---|
| `Text.NatToStringRoundTrip` | app.py:349-350 | the decimal rendering of an entry number reads back as that number |
| `Text.NatToStringCanonical` | app.py:349-350 | the rendering has no leading zero, and it is "0" exactly for 0 |
| `Recorders.InterestAckNamesCustomer` | app.py:89 | the lead acknowledgement contains the customer's name and email (a missing one rendered as "None") |
| `Recorders.EnumerateListsEvery` | app.py:349 | numbering from 1: the block of item i appears with number i + 1 |
| `Recorders.LeadsReportEmptyIff` | app.py:345-346 | "No leads collected yet." is shown exactly when there are no leads |
| `Recorders.LeadsReportListsEvery` | app.py:348-355 | the leads report lists every lead, the i-th as "Lead #i+1" with its time, name, email and message |
| `Recorders.FeedbackReportEmptyIff` | app.py:359-360 | "No feedback recorded yet." is shown exactly when there is no feedback |
| `Recorders.FeedbackReportListsEvery` | app.py:362-367 | the feedback report lists every entry, the i-th as "Feedback #i+1" with its time and question |
| `Recorders.Store.constructor` | app.py:54-55 | both lists start empty |
| `Recorders.Store.RecordCustomerInterest` | app.py:57-89 | appends exactly one lead with the given timestamp, name, email and message; feedback unchanged; returns the acknowledgement |
| `Recorders.Store.RecordFeedback` | app.py:92-120 | appends exactly one `{timestamp, question}` entry; leads unchanged; returns the fixed acknowledgement whatever the question |
| `Recorders.Store.ViewLeads` | app.py:343-355 | the accumulator loop builds exactly the leads report |
| `Recorders.Store.ViewFeedback` | app.py:357-367 | the accumulator loop builds exactly the feedback report |
| `Conversation.ToolMessagesMatchCalls` | app.py:258-282 | one tool message per call, in request order; the i-th has the i-th call's id and name and that tool's output |
| `Conversation.NewLeadsCount` | app.py:263-268 | the leads a turn records are as many as its calls named `record_customer_interest` |
| `Conversation.NewFeedbackCount` | app.py:269-272 | the feedback entries a turn records are as many as its calls named `record_feedback` |
| `Conversation.UnknownToolAnswer` | app.py:273-274 | a call to any other name is answered "Function not found." and records nothing |
| `Conversation.UnknownToolsRecordNothing` | app.py:258-282 | a turn whose calls all name unknown tools leaves both lists as they were |
| `Conversation.PlainTurn` | app.py:254-304 | a reply without tool calls (none or an empty list) adds exactly user then assistant, returns that reply's content and runs no call |
| `Conversation.ToolTurn` | app.py:254-296 | a reply with N >= 1 calls adds N + 3 messages in order (user, assistant carrying the calls, N tool messages tagged with the calls' ids in order, final assistant) and returns the final text |
| `Conversation.ReturnedIsLastMessage` | app.py:290-304 | whatever a completed turn returns is the content of the last history entry |
| `Conversation.FailedTurn` | app.py:238-290 | a provider failure keeps what was already appended (the user message, and the tool messages when the second call fails); nothing is rolled back |
| `Conversation.TurnKeepsHistoryWellFormed` | app.py:233-304 | every turn, completed or cut short, keeps the system prompt first and only there, and every tool message answering a call of the assistant message just before it |
| `Agent.SystemPromptEmbedsContext` | app.py:190-201 | the system prompt contains the business context verbatim |
| `Agent.TutorBeeAgent.constructor` | app.py:180-231 | a fresh agent's history is exactly one system message holding the system prompt |
| `Agent.TutorBeeAgent.Chat` | app.py:233-304 | the new history is the old one plus the turn's messages; each list is the old one plus the turn's records (existing entries untouched); the result is the turn's result; the history stays well formed |
| `Agent.TutorBeeAgent.RunToolCalls` | app.py:257-282 | the tool loop appends the calls' tool messages in order and records exactly the calls' leads and feedback |
| `Agent.TutorBeeAgent.Reset` | app.py:306-311 | the history becomes exactly the original system message; the store is not in its frame |
| `Session.App.constructor` | app.py:318 | no agent before initialisation |
| `Session.App.InitializeAgent` | app.py:320-330 | an empty key is refused and the agent is kept; a client error is reported and the agent is kept; otherwise a fresh agent with the initial history replaces it |
| `Session.App.ChatWithAgent` | app.py:332-341 | before initialisation it refuses and changes nothing; otherwise it runs one turn, returning the reply or "Error: " plus the exception text |

## Left out

- The Gradio interface and `demo.launch()` (app.py:373-461) are UI wiring.
- The OpenAI client and both completion calls (app.py:185, app.py:244-251, app.py:285-290) are foreign network calls. Their answers are parameters of `Chat`. The model name, the tool schemas offered (app.py:126-169) and `tool_choice` are not modelled.
- `json.loads` of the tool arguments (app.py:260) is library parsing. Arguments arrive already decoded as `map<string, string>`. Values of other JSON types, and the exception a malformed payload would raise inside the loop, are not modelled.
- The JSON snapshot writes (app.py:83-87, app.py:114-118) swallow their failures and are not modelled; only the in-memory append is. The console prints (app.py:73-80, app.py:106-111) are not modelled either, nor is the exception a failing print would raise after the in-memory append, which would end `chat` before that call's tool message is added.
- `datetime.now()` (app.py:61, app.py:96) is the wall clock. It is the `clock` parameter.
- `load_business_context` (app.py:18-45) reads files and PDFs. The business context is an opaque string given to `Session.App`.
- The wording of the system prompt (app.py:190-225) is abbreviated in `PromptIntro` and `PromptGuidelines`. Only its shape (instructions, then the business context verbatim, then guidelines) is modelled.
- The unused `history` parameter of `chat_with_agent` (app.py:332) is dropped.
- The program has no rollback when a provider call fails, no credential check beyond rejecting an empty key, a single global agent rather than a per-session map, and no locks around the shared lists. The model has none of these either.
