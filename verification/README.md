# C1DO1 support agents: escalation coordinator model

This project models, in Dafny, the core of the C1DO1 customer-support agents.

An inbound WhatsApp message first reaches a tier-1 agent. When the agents cannot answer, the
query goes to a knowledge agent and then to a human operator. Each operator answer goes to a
knowledge store so the agents can use it next time. The model covers:

- **Coordinator** (`whatsapp_simple_integration.py`). It holds three dictionaries keyed by
  phone number: conversation histories, pending human queries and original questions.
  - It handles each queued message. A phone number waiting for a human gets an
    acknowledgement. Otherwise the agent ladder runs on the composed history and the run's
    last agent decides escalation.
  - The operator can answer inline when the run escalates. Otherwise the query stays pending
    until the operator picks it from the periodic list and answers it.
  - The model also covers `process_manual_response`, the manual answer to a pending query, as
    an event of its own. Nothing in the code shown calls that function: the webhook's
    "statuses" branch only records message ids.
  - A phone is *idle* when it has no pending query and *awaiting human* when it has one.
- **Context** composes agent input from the last three turns, or from the last four
  role-tagged messages. It also builds the context summary lines.
- **Detectors** holds the escalation phrase lists, matched case-insensitively as substrings.
  It also covers the knowledge agent's rewrite of English replies.
- **RunLog** is the run tracker. It collects hand-offs, agents used and search-hit lines, and
  formats them into the log.
- **Webhook** covers the verification handshake and the walk over the notification body, for
  both the coordinator server and the auto-responder.
- **Client** models the WhatsApp Business API client: construction, payload, URL, and how
  sends are classified.
- **FileSearch** covers the mock knowledge-base search and the text report of a vector-store
  search.
- **EnvFile** models the `.env` rewrite that records a new vector store id.
- **Console** covers the two terminal front-ends: the three-tier chat of `main.py` and the
  interactive mode of `agents_c1do1/main.py`.

Everything is a pure function over immutable data. The outside world enters as parameters:

- agent runs are a `LadderOutcome` or `Result`
- the operator's typed answers and selections are strings
- clock readings are opaque strings
- HTTP outcomes are an `HttpOutcome`
- the environment is an `Env` record
- a request body is a `Json` value

Effects leave as an ordered list of outputs: agent runs, sends and knowledge-store writes.
Python's `.lower()` is modelled on ASCII letters, `str(n)` as `Decimal`, and `int(s)` as
`ParseDigits`.

Where the written code and its documentation disagree, the model follows the code:

- A manual answer (`process_manual_response`) adds the answered turn only to a history that
  already exists. A user escalated on their first message and answered this way ends with no
  history. This is `Coordinator.LateManualAnswerLeavesNoHistory`.
- In `main.py` the knowledge agent receives a history that already contains the current
  message, so its input shows the message twice (`Console.KnowledgeSeesMessageTwice`).
- The two deployments use different escalation rules. The WhatsApp server looks at the run's
  last agent. The agents_c1do1 terminal looks for any hand-off to the human agent in the
  trace. `Console.EscalationRulesDiffer` gives a run for each direction of the difference.

## Model

| member | source | states |
|---|---|---|
| Text.Lower | main.py:87 | Lower-casing keeps the length and lowers each character in place. |
| Text.LowerIdempotent | c1do1_agents/complex_response_agent.py:135 | Lower-casing an already lower-cased text changes nothing. |
| Text.Join | whatsapp_simple_integration.py:72-85 | Joining no parts gives ""; a join starts with its first part; a single part is returned unchanged. |
| Text.JoinAppend | whatsapp_simple_integration.py:72-85 | Joining two non-empty lists one after the other gives the two joins with exactly one separator between them. |
| Text.JoinIsConcat | whatsapp_simple_integration.py:72-85 | A join is its first part followed by every other part, in order, each with the separator in front. |
| Text.Truncate | whatsapp_simple_integration.py:278 | The snippet keeps the first n characters. A text of at most n characters is kept whole. It is cut and marked with "..." (length n+3) exactly when it is longer than n. |
| Text.PyTail | main.py:124 | Python's `s[-k:]` is a suffix of s of length min(k, len(s)). |
| Text.Decimal | whatsapp_simple_integration.py:591 | The number shown is a non-empty digit string with no leading zero. |
| Text.ParseDecimal | whatsapp_simple_integration.py:600-601 | Reading back a shown number gives that number: `int(str(n)) == n`. |
| Context.ComposeTurnsInput | whatsapp_simple_integration.py:245-253 | With no history the input is the message itself. Otherwise it is the history header, the last three turns and the current-query marker followed by the message. The input always ends with the message. |
| Context.ComposeTurnsIgnoresOlder | whatsapp_simple_integration.py:247 | Turns older than the last three never reach the agent. |
| Context.ComposeTurnsNewestLast | whatsapp_simple_integration.py:246-249 | The newest turn is rendered last, right before the current query. |
| Context.ComposeRoleInput | c1do1_agents/complex_response_agent.py:92-99 | With no history the input is the query. Otherwise it is the "Conversación previa" header, the last four messages labelled Usuario/Agente, and "Consulta actual" with the query. |
| Context.ComposeRoleNewestLast | c1do1_agents/complex_response_agent.py:96-99 | The newest message is rendered last, right before the query. |
| Context.ContextSummary | main.py:110-130 | An empty history gives "Sin contexto previo". The summary is absent exactly when a negative window slices the history to nothing, which is where Python raises IndexError. |
| Context.ContextSummaryReports | main.py:124-128 | With a positive window the summary is exactly the counts text, covering min(len, window) messages and their characters, followed by the preview of the last message. |
| Context.DefaultSummaryCountsFour | main.py:124-126 | With the default window, a history of four or more messages is summarised as exactly its last four. |
| Context.ContextInfo | c1do1_agents/complex_response_agent.py:70-77 | No history gives "Solo pregunta actual". Otherwise the line reports the message count and the total characters of the whole history, not of the window, and then only the character count of the final query. |
| Detectors.AnyIndicator | main.py:87 | A reply is flagged iff some indicator, lower-cased, occurs in the lower-cased reply. |
| Detectors.AnyIndicatorIgnoresCase | main.py:87 | Detection gives the same answer on a reply and on its lower-cased form. |
| Detectors.MentionFlags | c1do1_agents/complex_response_agent.py:135 | A reply containing any one indicator verbatim is flagged. |
| Detectors.SimpleVerdict | main.py:66-89 | The tier-1 reply is passed on unchanged. It escalates iff it mentions one of the twelve escalation phrases. |
| Detectors.Tier1PhraseEscalates | main.py:46-48 | The hand-off sentence the tier-1 agent is instructed to use is recognised as an escalation. |
| Detectors.OverrideTextNeedsHuman | c1do1_agents/complex_response_agent.py:138-140 | The fixed Spanish replacement text is itself caught by the human-help phrases. |
| Detectors.ComplexVerdict | c1do1_agents/complex_response_agent.py:104-142 | A reply that looks English is replaced by the Spanish text and escalated. Any other reply is kept. The escalation flag always agrees with the human-help phrases on the returned text. |
| Detectors.NoCapitalINotEnglish | c1do1_agents/complex_response_agent.py:138 | A reply with no capital I is never treated as English. |
| Detectors.LowerCaseReplyIsKept | c1do1_agents/complex_response_agent.py:138-142 | The English test is case-sensitive: a lower-cased reply is never rewritten. |
| RunLog.HandsOffTo | agents_c1do1/main.py:109-117 | The flag is set iff some hand-off item of the trace goes to the named agent, with a missing name read as "Unknown". |
| RunLog.HandsOffToEdges | agents_c1do1/main.py:111-120 | The hand-off flag agrees with the recorded edge list: some edge ends at the named agent. |
| RunLog.Collect | whatsapp_simple_integration.py:263-283 | There is one hand-off line per hand-off target, and each line ends with " → " and its target. |
| RunLog.CollectIsEdges | whatsapp_simple_integration.py:265-269 | The collected hand-off lines and targets are exactly the trace's hand-offs, in order. |
| RunLog.HitLines | whatsapp_simple_integration.py:274-280 | A single hit gives one line, with the file name, score and text cut to 100 characters, iff its text is present and non-empty; otherwise it gives none. |
| RunLog.HitLinesAppend | whatsapp_simple_integration.py:274-280 | The hit lines of two hit lists put together are those of the first list, then those of the second. |
| RunLog.SearchHitsAppend | whatsapp_simple_integration.py:271-275 | The search hits of two traces put together are those of the first trace, then those of the second. |
| RunLog.CollectHits | whatsapp_simple_integration.py:263-280 | The collected hit lines are the hit lines of every search hit of the trace, in trace order. |
| RunLog.Reset | whatsapp_simple_integration.py:61-65 | After a reset every list is empty. |
| RunLog.TrackRun | whatsapp_simple_integration.py:241-283 | A context note is recorded iff a history was used. The agents used are the entry agent followed by every hand-off target of the trace, in order. The hand-off lines are exactly the trace's "from → to" lines, in order. The hit lines are those of every search hit of the trace. |
| RunLog.Sections | whatsapp_simple_integration.py:67-85 | Only non-empty sections appear, and none appears iff the tracker is empty. |
| RunLog.SectionsLayout | whatsapp_simple_integration.py:67-83 | The context line comes first, then the hand-off line, then the agents line, each present iff its list is non-empty and holding that list joined with its own separator. Last come the hit header and one "- " line per hit, in order. |
| RunLog.SectionsPresence | whatsapp_simple_integration.py:70-80 | Each of the four headers appears iff its list is non-empty. |
| RunLog.SectionsOrder | whatsapp_simple_integration.py:70-80 | Each header appears at most once, and the order is context, then hand-offs, then agents, then search hits. |
| RunLog.SectionsHead | whatsapp_simple_integration.py:71-83 | The log opens with the first non-empty section in the order context, hand-offs, agents, search hits. |
| RunLog.FormatLogs | whatsapp_simple_integration.py:67-85 | The log is empty iff the tracker is, and it starts with the header of the first non-empty section. |
| RunLog.FormatLogsPeel | whatsapp_simple_integration.py:67-85 | The log is its first non-empty section, then, if anything is left, a newline and the log of the remaining sections. The hit header is followed by each "- " hit line on a line of its own. |
| RunLog.RunLogNeverEmpty | whatsapp_simple_integration.py:260-269 | The log of any tracked run is non-empty. It starts with the context section iff a history was used. |
| Coordinator.AppendTurn | whatsapp_simple_integration.py:367 | `setdefault(p, []).append(t)` adds p to the keys, extends p's history by t, and leaves every other phone as it was. |
| Coordinator.HandleMessage | whatsapp_simple_integration.py:194-389 | See the list after this table. |
| Coordinator.Answer | whatsapp_simple_integration.py:353-367 | The agent's answer is sent and recorded as one more turn; pending and originals are unchanged. |
| Coordinator.Escalate | whatsapp_simple_integration.py:284-389 | A non-blank operator reply is stored with source "Terminal", sent and recorded, and nothing stays pending. A blank reply leaves the question pending with its timestamp and sends the processing notice. A prompt that raises leaves the question pending the same way and sends the error notice. |
| Coordinator.ManualResponse | whatsapp_simple_integration.py:392-437 | Handled iff the phone is pending. The pending record's question is stored with source "Manual". The turn is added only to an existing history. Both dictionaries drop the phone. No agent runs and the invariant is kept. |
| Coordinator.ManualResponseIdempotent | whatsapp_simple_integration.py:427-434 | A second manual answer to the same phone finds nothing pending and changes nothing. |
| Coordinator.ManualResponseStoresOriginal | whatsapp_simple_integration.py:403-414 | The question stored is the original question recorded at escalation. |
| Coordinator.SelectIndex | whatsapp_simple_integration.py:600-602 | A selection is made exactly when the typed text is a non-empty digit string whose value v is between 1 and the list length, and it selects entry v-1. |
| Coordinator.SelectShownNumber | whatsapp_simple_integration.py:591-603 | Typing the number printed next to entry k selects entry k. |
| Coordinator.PendingPick | whatsapp_simple_integration.py:584-647 | Something happens iff the selection names a phone still pending and the reply is not blank. Then the reply is stored against that phone's pending question and sent, one turn is recorded, and the phone is released. No agent runs and the invariant is kept. |
| Coordinator.Apply | whatsapp_simple_integration.py:194-437 | Every event keeps the invariant. An inbound message changes only its sender's phase and never releases a pending query. A human answer never opens a pending query and runs no agent. |
| Coordinator.RunKeepsInv | whatsapp_simple_integration.py:286-294 | Over any sequence of events, originals and pending keep the same phones with the same question. |
| Coordinator.RunLadderBound | whatsapp_simple_integration.py:211-253 | Over any sequence of events the agent ladder runs at most once per inbound message. |
| Coordinator.GreetingAnswered | whatsapp_simple_integration.py:353-367 | A first message answered by the agents leaves the user idle with one turn of history. |
| Coordinator.LateManualAnswerLeavesNoHistory | whatsapp_simple_integration.py:420-424 | A user escalated on a first message and answered manually is idle again and the answer is stored, but the user has no history. |
| Coordinator.LatePickAnswerRecordsTurn | whatsapp_simple_integration.py:636-643 | The same user answered through the operator's pick is idle again with the turn recorded. This holds whether the inline prompt was left blank or raised. |
| EnvFile.Assignment | scripts/create_vector_store.py:68 | The written line starts with "VECTOR_STORE_ID=" and ends with a newline. |
| EnvFile.FirstKeyLine | scripts/create_vector_store.py:66-70 | It finds the first line that starts with the key, or reports that no line does. |
| EnvFile.UpdateLines | scripts/create_vector_store.py:54-78 | The first assigning line is replaced and every other line is kept. With no such line, the assignment is appended. |
| EnvFile.UpdateLinesAssigns | scripts/create_vector_store.py:64-74 | The file grows by at most one line and always contains the assignment line. |
| EnvFile.UpdateLinesKeepsDuplicates | scripts/create_vector_store.py:70 | Assigning lines after the first are left unchanged. |
| EnvFile.UpdateLinesIdempotent | scripts/create_vector_store.py:66-74 | Rewriting twice with the same id equals rewriting once. |
| EnvFile.GluedAssignment | scripts/create_vector_store.py:74-78 | For the file "A=1" with no final newline, the written file is "A=1VECTOR_STORE_ID=vs" plus a newline, and no line of it starts with the assignment. |
| EnvFile.UpdateLinesFixed | scripts/create_vector_store.py:72-74 | The corrected rewrite behaves as written when a line is replaced. Otherwise it ends the last line before appending. |
| EnvFile.FixedAssignedAtLineStart | scripts/create_vector_store.py:54-78 | For any file as `readlines()` returns it, the corrected rewrite leaves the assignment at the start of a line. |
| EnvFile.FixedIdempotent | scripts/create_vector_store.py:64-74 | The corrected rewrite is idempotent. |
| FileSearch.MockSearch | agents_c1do1/tools/file_search.py:21-39 | The result is non-empty and drawn from the two canned results in order. A product question gets only the catalog. Otherwise a service question gets only the services description. Otherwise both are returned. |
| FileSearch.ProductoIsProduct | agents_c1do1/tools/file_search.py:33 | The "producto" test is subsumed by the "product" test. |
| FileSearch.ProductBeatsService | agents_c1do1/tools/file_search.py:33-36 | A question mentioning both products and services gets only the catalog. |
| FileSearch.HitEntries | tools/file_search.py:44-46 | A call with no hits adds nothing, and a call with hits adds text. |
| FileSearch.CitationLines | tools/file_search.py:53-56 | The citation list is empty iff no annotation is a file citation. |
| FileSearch.CitedFilesAppend | tools/file_search.py:54-56 | The cited file names of two annotation lists put together are those of the first list followed by those of the second. |
| FileSearch.CitationLinesAreCitedFiles | tools/file_search.py:53-56 | The citation list is exactly one "- name" line per file citation, in annotation order, and nothing else. |
| FileSearch.PartText | tools/file_search.py:48-56 | Only output text adds to the report. The "Citations:" header appears iff the part has annotations. |
| FileSearch.PerformFileSearch | tools/file_search.py:23-62 | A completed search gives the header followed by each item's text in order. A raised exception gives "Error searching files: " and its text. |
| FileSearch.OtherItemsAddNothing | tools/file_search.py:42-56 | A response with neither search calls nor messages gives the bare header. |
| FileSearch.NumberingRestarts | tools/file_search.py:44-45 | Each search call numbers its hits from 1 again. |
| FileSearch.HitNumbered | tools/file_search.py:44-46 | The k-th hit of a call (from 0) appears as entry k+1 with its file name and content. |
| FileSearch.MaxResults | tools/file_search.py:82-90 | An absent max_results means five. A given value is passed on. |
| Client.NewClient | whatsapp_integration/whatsapp_client.py:37-60 | Construction succeeds iff the client id, client secret and phone number id are truthy. Missing credentials are reported before a missing phone id. Arguments override the environment only when they are truthy. The API version is otherwise the environment's, even an empty one, and v22.0 only when the variable is unset. |
| Client.NormalizeNumber | whatsapp_integration/whatsapp_client.py:75-76 | One leading "+" is removed. Any other number is kept. |
| Client.NormalizeStripsOnce | whatsapp_integration/whatsapp_client.py:75-76 | A doubled "+" keeps its second sign. |
| Client.BuildPayload | whatsapp_integration/whatsapp_client.py:81-102 | The payload is a text message iff the text is truthy. Otherwise it is the named template in language "es". It always goes to the normalised number. |
| Client.MessagesUrl | whatsapp_integration/whatsapp_client.py:79 | The URL is the Graph host and API version, then exactly the client's phone number id, then "/messages", and nothing else. |
| Client.MessagesUrlNamesPhone | whatsapp_integration/whatsapp_client.py:79 | Under one API version, two clients post to the same URL iff they have the same phone number id. |
| Client.SendMessage | whatsapp_integration/whatsapp_client.py:62-152 | Without a truthy token nothing is sent and a preview comes back. Otherwise the request is made with the bearer token. Success is exactly an HTTP 200, and an exception becomes the error result. |
| Client.NoTokenIgnoresHttp | whatsapp_integration/whatsapp_client.py:105-126 | Without a token the network plays no part. |
| Client.SendWhatsAppMessage | whatsapp_integration/whatsapp_client.py:156-184 | An untruthy token argument is replaced by the reloaded one. The send happens iff the client can be built. |
| Client.ReportsSent | whatsapp_simple_integration.py:439-467 | A send is reported successful iff the client was built and the API answered 200. Any exception counts as failure. |
| Client.DeliveredMeans200 | whatsapp_integration/auto_responder.py:51-75 | An auto-reply reported as sent was answered with HTTP 200. |
| Client.TokenPreview | whatsapp_integration/whatsapp_client.py:178 | A token longer than ten characters is shown as its first five characters, "...", and its last five. Anything else is shown as "NO TOKEN". |
| Client.PreviewHidesLongToken | whatsapp_integration/whatsapp_client.py:178 | The preview depends only on the token's first and last five characters, so tokens agreeing there are previewed alike. A token longer than thirteen characters is never shown whole. |
| Webhook.VerifyWebhook | whatsapp_simple_integration.py:90-108 | The challenge is echoed with 200 iff the mode is "subscribe" and the token equals the configured token, or the default when none is configured. Otherwise the answer is 403 "Forbidden". |
| Webhook.DefaultTokenOnly | whatsapp_integration/auto_responder.py:34-46 | With no token configured, a subscription verifies iff its token is "c1d01-whatsapp-verify". |
| Webhook.Get | whatsapp_simple_integration.py:119-136 | `.get` succeeds exactly on objects. It returns the field when present and the default otherwise. |
| Webhook.HasKey | whatsapp_simple_integration.py:117 | `in` on an object tests its keys. It raises on null, booleans and numbers. |
| Webhook.Members | whatsapp_simple_integration.py:119-128 | The walk visits an array's items. Anything else it walks visits nothing. |
| Webhook.ReadBody | whatsapp_simple_integration.py:117 | An object whose "object" is not the business account is acknowledged without being read. |
| Webhook.ProcessWebhook | whatsapp_simple_integration.py:110-192 | The messages acted on are those the walk found before it stopped. The answer is 200 iff the body is JSON and the walk raised nothing; otherwise it is 500. |
| Webhook.MessagesRead | whatsapp_simple_integration.py:128-155 | A well-formed message list yields its text messages in order, with a missing body read as "". |
| Webhook.ChangesRead | whatsapp_simple_integration.py:121-128 | Well-formed changes yield the text messages of their "messages" fields, in order. |
| Webhook.EntriesRead | whatsapp_simple_integration.py:119-121 | Well-formed entries yield their changes' text messages, in order. |
| Webhook.WellFormedNotification | whatsapp_integration/auto_responder.py:77-129 | A well-formed business-account notification is answered 200 "OK" after acting on exactly its text messages, in order, in both servers. |
| Webhook.OtherObjectIgnored | whatsapp_simple_integration.py:117-188 | A notification for another object is answered 200 "OK" with nothing acted on. |
| Webhook.FailureKeepsEarlier | whatsapp_simple_integration.py:128-155 | When a message makes the walk raise, the messages before it have still been acted on. |
| Console.Chat | main.py:154-239 | See the list after this table. |
| Console.KnowledgeSeesMessageTwice | main.py:163-188 | The knowledge agent's input ends with the current message as the last "Usuario" line and again as the current query. |
| Console.OperatorAnswerRecorded | main.py:190-219 | When the knowledge agent needs a human, the operator's answer is what the history records and what is stored against the original message. |
| Console.ChatStepShape | main.py:163-236 | Each chat step adds exactly one user entry and keeps every assistant entry right after a user entry. |
| Console.ChatLoopCounts | main.py:154-239 | Over a session, at most as many lines are handled as were typed. The history holds one user entry per line handled before an exit, and each is answered at most once. |
| Console.ProcessQuery | agents_c1do1/main.py:75-149 | The agent input is the composed turn context. The operator's answer replaces the final output iff some hand-off in the trace goes to the human agent. The tracker records context iff there was history. Its agents are the entry agent followed by every hand-off target of the trace, and its hit lines are those of every search hit. |
| Console.EscalationRulesDiffer | agents_c1do1/main.py:111-117 | The terminal asks the operator after a hand-off even when the run ends elsewhere, where the WhatsApp rule does not. The WhatsApp rule escalates on a last-agent match with no hand-off recorded, where the terminal does not. |
| Console.InteractiveStep | agents_c1do1/main.py:160-194 | "salir", "exit" and "quit" end the loop in any case. A raising run leaves the history unchanged. A completed query adds one turn: the input and the response. |
| Console.ExitIgnoresCase | agents_c1do1/main.py:168 | Exit words are recognised whatever their letter case. |
| Console.QuitOnlyInteractive | main.py:158 | Any input that lower-cases to "quit" ends the interactive mode, but in the three-tier chat it is an ordinary message. |

`Coordinator.HandleMessage` states:

- A phone awaiting a human gets the acknowledgement and nothing else happens.
- Otherwise the agent ladder runs once, first, on the composed turn context.
- A raised run sends the apology and changes nothing.
- An answered run sends the answer and records it as one more turn.
- An escalated run stores, sends and records a non-blank operator reply.
- An escalated run with a blank operator reply records the pending question and its timestamp, and sends the processing notice.
- An escalated run whose operator prompt raises records the pending question the same way. The outer handler then sends the error notice.
- Other phones are untouched and the invariant is kept.

`Console.Chat` states:

- "salir" and "exit" end the chat in any case.
- Otherwise the user message enters the history first, and at most one assistant entry follows it.
- A raising tier-1 run shows the system error and leaves the message unanswered.
- A tier-1 answer that does not escalate is recorded.
- On escalation the knowledge agent runs on the role context, which already includes the message.
- If the knowledge agent raises, the apology is shown and the message stays unanswered.
- A knowledge-agent reply that needs no human is shown and recorded unchanged.
- If the operator's prompt raises, the knowledge agent's apology is shown and the message stays unanswered.

## Left out

- Threads, the message queue, asyncio event loops and the 30-second polling of the pending list are left out. Each queued message or operator pick is one event applied in order.
- The OpenAI Agents SDK runs, the vector store and `store_support_answer` / `store_in_vector_database` are left out. A run is a parameter. A knowledge-store write is an output event whose success is not modelled, because the source only prints it.
- The "statuses" branch of the coordinator webhook and its `outgoing_message_ids` table are left out. The table is never read back, and the walk over that branch is not followed (`Webhook.ReadValue` only tests the key).
- Logging, console printing and the separators are left out. The chat's output lines are modelled only for what the user is shown.
- JSON parsing of API response bodies is left out: the body is kept as raw text. Non-text messages and message ids are not modelled.
- The formatting of a search-hit score with `:.2f` is left out. The score is kept as its already formatted text because Dafny has no floats here.
- Timestamps are opaque strings, and `datetime.now()` is a parameter.
- `KeyboardInterrupt` in the terminal loops is left out.
- The `main()` drivers and the HTTP server set-up are left out.
- Text.Lower: Python's `.lower()` is modelled only on ASCII letters, so a non-ASCII capital in a reply is compared as it is.
- Coordinator.SelectIndex: `str.isdigit()` and `int()` are modelled only on ASCII digits. Other Unicode digits are treated as non-digits.
- Context.ContextSummary: with a negative window that empties the slice, Python raises IndexError. This is modelled as `None` rather than as an exception value.

## Findings

| source | as written | input that shows it | evidently intended | confidence | as-written member | corrected member |
|---|---|---|---|---|---|---|
| scripts/create_vector_store.py:72-78 | When no line assigns VECTOR_STORE_ID, the assignment is appended as a new list element and written with `writelines`, even when the file's last line has no final newline. | A `.env` whose content is `A=1` with no trailing newline is rewritten to `A=1VECTOR_STORE_ID=vs` plus a newline. The existing variable is corrupted and the new one is never defined. | The assignment starts a line of its own, so the last line is ended before appending. | not executed | EnvFile.GluedAssignment | EnvFile.FixedAssignedAtLineStart |
