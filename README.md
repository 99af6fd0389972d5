# sandbees dashboard: a verified model of its screen logic

The sandbees frontend is a React dashboard over hard-coded in-memory lists. This
project models the list logic inside its screens and its two mock AI services in
Dafny, and proves what each handler and derived value does. Five screens are covered:
the AI Assistant (the main copy under `src/components` and the diverging copy of the
sandbees-app), Task Management, Financial Management and Customer Management. The AI
integration service is covered in both of its copies.

Layout, one module per file:

- `base.dfy` (`Base`): `Option`, `Priority`, and a generic `Filter` (JavaScript's
  `Array.prototype.filter`). Its contract (membership iff, order-preserving
  subsequence, length equal to the count) determines the result (`FilterUnique`).
- `text.dfy` (`Text`): `trim`, ASCII `toLowerCase` and `includes`.
- `chat.dfy` (`Chat`): agents, messages, requests and responses, and the task draft
  shared by both assistant screens. Also the `find … || agents[0]` lookup and the
  per-agent conversation view.
- `catalog.dfy` (`Catalog`): the constants both services share: reply pools, the
  display-name table, the five catalog agents and the seeded history. It also holds
  `RecordGet`, which says what `record[key]` yields on a JavaScript object literal.
- `main_service.dfy` (`MainService`), `app_service.dfy` (`AppService`): the two
  service copies, as pure functions.
- `main_assistant.dfy` (`MainAssistant`), `app_assistant.dfy` (`AppAssistant`),
  `task_board.dfy` (`TaskBoard`), `finance.dfy` (`Finance`), `customers.dfy`
  (`Customers`): one class per screen. The fields are the React state and each event
  handler is a method. Derived values (filtered lists, sums, counts) are functions
  over `seq`.

Modelling conventions:

- An asynchronous handler is split where it yields.
  - `SendMessage` runs the handler up to its `await` or `setTimeout`. It returns a
    value holding what the continuation captured.
  - `ReceiveReply` or `DeliverReply` runs the continuation with it.
  - The reply id is fixed when the send starts: the conversation length at that time
    plus two. This is as in the source.
- `Math.random()` becomes a parameter `pick` below the pool size (3).
- An exception inside a service's `try` block becomes a `fault` flag. A rejected
  `await` in the main assistant becomes `outcome == None`.
- The clock becomes a parameter `now`: milliseconds since the epoch, or the date text
  `today`.
- Amounts and customer values are JavaScript numbers, modelled as exact `real`s.
- Status, type and priority strings are datatypes, because the UI only ever writes
  option values into them.

## Model

| member | source | states |
|---|---|---|
| Base.Filter | src/components/AIAssistant/AIAssistant.tsx:163-165 | `filter` keeps exactly the elements that pass, in order, as a subsequence, and as many as pass |
| Base.FilterUnique | src/components/TaskManagement/TaskManagement.tsx:91-97 | any order-preserving subsequence of passing elements that is as long as the count of passing elements is the filter's result |
| Base.SubsequenceCountBound | src/components/TaskManagement/TaskManagement.tsx:91-97 | a subsequence of passing elements is never longer than the number of passing elements |
| Base.FilterAppend | src/components/AIAssistant/AIAssistant.tsx:179 | filtering a concatenation is concatenating the filtered parts |
| Base.FilterKeepsAll | src/components/TaskManagement/TaskManagement.tsx:92-96 | when every element passes, the filter returns the list unchanged |
| Base.FilterCongruent | src/components/TaskManagement/TaskManagement.tsx:92-96 | two predicates that agree on every element filter a list the same way |
| Base.Count | src/components/CustomerManagement/CustomerManagement.tsx:84-86 | the number of passing elements is at most the list length |
| Text.TrimStart | src/components/AIAssistant/AIAssistant.tsx:169 | the result is a suffix of the input, what was cut is all whitespace, and the result does not start with whitespace |
| Text.TrimEnd | src/components/AIAssistant/AIAssistant.tsx:169 | the result is a prefix of the input, what was cut is all whitespace, and the result does not end with whitespace |
| Text.Trim | src/components/AIAssistant/AIAssistant.tsx:169 | the result is a slice of the input with only whitespace before and after it, and it neither starts nor ends with whitespace |
| Text.SliceBetweenWhitespace | src/components/AIAssistant/AIAssistant.tsx:169 | a prefix of a suffix of `s`, with only whitespace cut on either side, is a trimmed slice of `s` at the suffix's start |
| Text.BlankIffTrimEmpty | src/components/AIAssistant/AIAssistant.tsx:169 | a text counts as blank (every character whitespace) exactly when `s.trim()` leaves nothing |
| Text.LowerChar | src/components/TaskManagement/TaskManagement.tsx:93-95 | an ASCII capital becomes the small letter 32 code points above it; every other character is kept |
| Text.Lower | src/components/TaskManagement/TaskManagement.tsx:93-95 | lower-casing keeps the length, moves each ASCII capital up by 32 to its small letter, keeps every other character, and leaves no upper-case ASCII letter |
| Text.IncludesIffOccurs | src/components/TaskManagement/TaskManagement.tsx:93-95 | `includes` holds exactly when the substring occurs at some index |
| Text.Includes | src/components/TaskManagement/TaskManagement.tsx:93-95 | a text includes anything it starts with, and never anything longer than itself |
| Text.IncludesEmpty | src/components/TaskManagement/TaskManagement.tsx:93 | every string includes the empty string |
| Text.EmptyTermMatches | src/components/TaskManagement/TaskManagement.tsx:93 | an empty search term matches any text, ignoring case |
| Text.ContainsIgnoringCase | src/components/TaskManagement/TaskManagement.tsx:93-95 | an exact-case occurrence is also a case-insensitive match, and no term longer than the text matches |
| Text.CaseFoldKeepsMatches | src/components/TaskManagement/TaskManagement.tsx:93-95 | lower-casing both sides keeps every occurrence of the term |
| Text.FoldKeepsOccurrence | src/components/TaskManagement/TaskManagement.tsx:93-95 | an occurrence of the term at a position is still an occurrence at that position once both sides are lower-cased |
| Chat.FindAgent | src/components/AIAssistant/AIAssistant.tsx:160 | the index found holds the id and no earlier agent has it; there is no index exactly when no agent has the id |
| Chat.CurrentAgent | src/components/AIAssistant/AIAssistant.tsx:160 | the first agent with the selected id, or `agents[0]` when none has it; always a member of the list |
| Chat.FilterConversation | src/components/AIAssistant/AIAssistant.tsx:163-165 | exactly the user messages and the selected agent's messages, in stored order, as a subsequence |
| Chat.FilterConversationAppend | home/ubuntu/sandbees/frontend/sandbees-app/src/components/AIAssistant/AIAssistant.tsx:158-160 | appending to the store appends the visible part of what was appended to the view |
| Chat.AppendOne | src/components/AIAssistant/AIAssistant.tsx:172-179 | one appended message joins the end of exactly the views that show it, and giving it the next position as id keeps ids equal to positions |
| Chat.PostUserMessage | src/components/AIAssistant/AIAssistant.tsx:169-179 | a blank text leaves the store as it is; otherwise exactly one user message, carrying the untrimmed text and id = old length + 1, is appended, it joins the end of every agent's view, and positional ids are kept |
| Catalog.RecordGet | src/services/AIIntegrationService.ts:152 | `record[key]` on an object literal: the own value for an own key; an inherited member for a key `Object.prototype` has; otherwise `undefined` |
| Catalog.ReplyPoolKeys | src/services/AIIntegrationService.ts:124-150 | the reply record has exactly the five agent ids as keys |
| Catalog.AgentNameKeys | src/services/AIIntegrationService.ts:65-71 | the name table has exactly the five display names as keys |
| Catalog.PoolsWellFormed | src/services/AIIntegrationService.ts:124-150 | there is an executive pool, and every pool holds three non-empty replies |
| Catalog.RecordsAvoidPrototype | src/services/AIIntegrationService.ts:65-71 | neither record has an inherited property name as a key, and every display name maps to an id that has a pool |
| Catalog.ResponsesFor | src/services/AIIntegrationService.ts:152 | `responses[id] \|\| responses['executive']` over own keys: three non-empty replies; the executive pool for an id without its own pool |
| Catalog.PickReply | src/services/AIIntegrationService.ts:152-153 | the picked reply is non-empty and comes from the agent's own pool, or from the executive pool for an unknown id |
| Catalog.PickReplyAsWritten | src/services/AIIntegrationService.ts:152-153 | as written, the pick is `undefined` exactly for an inherited property name that is not a pool key, and otherwise a non-empty reply |
| Catalog.PickReplyAgreesOffPrototype | src/services/AIIntegrationService.ts:152-153 | on any id that is not an inherited property name, the lookup as written gives the same reply as the own-key lookup |
| Catalog.PickReplyUndefinedOnPrototype | src/services/AIIntegrationService.ts:152-153 | on every inherited property name, the lookup as written yields `undefined` |
| Catalog.ServiceAgentsWellFormed | src/services/AIIntegrationService.ts:156-224 | five agents with distinct ids, the executive first, and each id has a reply pool |
| Catalog.HistoryFor | src/services/AIIntegrationService.ts:226-256 | exactly the seeded user messages and the agent's messages, in seed order; only the user message for an agent with no seeded messages |
| MainService.MapAgentNameToIdLeaksPrototype | src/services/AIIntegrationService.ts:73 | as written, the name "toString" maps to an inherited member, not to an agent id |
| MainService.MapAgentNameToIdAsWritten | src/services/AIIntegrationService.ts:64-74 | as written, the lookup never falls through to `undefined`; it yields an inherited member exactly for an inherited property name, and otherwise an id that has a pool |
| MainService.MapAgentNameToId | src/services/AIIntegrationService.ts:64-74 | each of the four non-executive display names maps to its id (both directions), every other name maps to 'executive', and every result has a pool |
| MainService.MapAgentNameToIdAgreesOffPrototype | src/services/AIIntegrationService.ts:73 | on every name that is not an inherited property name, the lookup as written yields the same id |
| MainService.GenerateResponse | src/services/AIIntegrationService.ts:25-61 | the pool of the mapped id always exists, and the reply is a non-empty member of it |
| MainService.GetMockResponseUndefinedForConstructor | src/services/AIIntegrationService.ts:152-153 | as written, a request for agent id "constructor" gets `undefined` as its reply text |
| MainService.GetMockResponseAsWritten | src/services/AIIntegrationService.ts:123-154 | as written, the reply is `undefined` exactly for an inherited property name, and otherwise non-empty |
| MainService.GetMockResponse | src/services/AIIntegrationService.ts:123-154 | a non-empty reply from the pool of `request.agentId`, or from the executive pool for an unknown id |
| MainService.SendRequest | src/services/AIIntegrationService.ts:77-96 | echoes `request.agentId` for every id and stamps the response with `now`. Normally the status is 'success' and the reply is a non-empty pool text for every id, through the corrected lookup (the as-written composition is `SendRequestAsWritten`); after a fault the status is 'error' and the apology is returned |
| MainService.SendRequestAsWritten | src/services/AIIntegrationService.ts:77-96 | as written over the inherited-key lookup: same agent id, time and status; the apology after a fault; otherwise the same reply as `SendRequest` off the inherited names, and status 'success' with an `undefined` message on them |
| MainService.GetMockAgents | src/services/AIIntegrationService.ts:156-224 | five agents with distinct ids, the executive first |
| MainService.GetAvailableAgents | src/services/AIIntegrationService.ts:99-108 | without a fault, five agents with distinct ids, the Executive Meta-Agent first; the empty list after a fault |
| MainService.GetMockConversationHistory | src/services/AIIntegrationService.ts:226-256 | exactly the seeded user messages and the agent's messages, in seed order; `userId` plays no part |
| MainService.GetConversationHistory | src/services/AIIntegrationService.ts:111-120 | without a fault, exactly the seeded user messages and the agent's messages, in seed order, and only the seeded user greeting for an agent with no seeded messages; the empty list after a fault |
| MainService.ExecutiveHistory | src/services/AIIntegrationService.ts:226-256 | the executive's history is the first three seeded messages, with nothing of the finance agent |
| AppService.GenerateMockResponseUndefinedForToString | home/ubuntu/sandbees/frontend/sandbees-app/src/services/AIIntegrationService.ts:196-197 | as written, a request for agent id "toString" gets `undefined` as its reply text |
| AppService.GenerateMockResponseAsWritten | home/ubuntu/sandbees/frontend/sandbees-app/src/services/AIIntegrationService.ts:167-198 | as written, the reply is `undefined` exactly for an inherited property name, and otherwise non-empty |
| AppService.GenerateMockResponse | home/ubuntu/sandbees/frontend/sandbees-app/src/services/AIIntegrationService.ts:167-198 | a non-empty reply from the pool of `request.agentId`, or from the executive pool for an unknown id |
| AppService.SendRequest | home/ubuntu/sandbees/frontend/sandbees-app/src/services/AIIntegrationService.ts:29-44 | echoes the agent id, stamps `now`, always reports 'success', and the message is a non-empty reply from the pools for every id, through the corrected lookup (the as-written composition is `SendRequestAsWritten`) |
| AppService.SendRequestAsWritten | home/ubuntu/sandbees/frontend/sandbees-app/src/services/AIIntegrationService.ts:29-44 | as written over the inherited-key lookup: same agent id and time, always 'success'; the same reply as `SendRequest` off the inherited names and an `undefined` message on them |
| AppService.GetAvailableAgents | home/ubuntu/sandbees/frontend/sandbees-app/src/services/AIIntegrationService.ts:47-121 | five agents with distinct ids, the executive first |
| AppService.GetConversationHistory | home/ubuntu/sandbees/frontend/sandbees-app/src/services/AIIntegrationService.ts:124-160 | exactly the seeded user messages and the agent's messages, in order; an unknown agent gets only the one user message |
| AppService.HistoryIgnoresUser | home/ubuntu/sandbees/frontend/sandbees-app/src/services/AIIntegrationService.ts:124-160 | the user id does not change the history |
| MainAssistant.MaxTaskId | src/components/AIAssistant/AIAssistant.tsx:230 | `Math.max(...ids)` of a non-empty list is one of the ids and is at least every id |
| MainAssistant.Assistant.constructor | src/components/AIAssistant/AIAssistant.tsx:122-134 | the initial state: three agents, the executive selected, the seeded conversation with positional ids, three tasks, a closed form, the empty draft, not loading |
| MainAssistant.Assistant.LoadAgents | src/components/AIAssistant/AIAssistant.tsx:144-157 | the loaded list replaces the agents only when it is non-empty, so the list is never empty |
| MainAssistant.Assistant.SelectAgent | src/components/AIAssistant/AIAssistant.tsx:264 | the clicked agent becomes the selected one |
| MainAssistant.Assistant.OpenNewTaskForm | src/components/AIAssistant/AIAssistant.tsx:250 | the form is shown |
| MainAssistant.Assistant.CancelNewTaskForm | src/components/AIAssistant/AIAssistant.tsx:395 | the form is hidden |
| MainAssistant.Assistant.SendMessage | src/components/AIAssistant/AIAssistant.tsx:168-190 | the store becomes `Chat.PostUserMessage` of the old store and the input. A blank input changes nothing else. Otherwise the input is cleared; loading is set; the request for the current agent is returned with reply id = old length + 2; positional ids are kept |
| MainAssistant.Assistant.ReceiveReply | src/components/AIAssistant/AIAssistant.tsx:192-217 | on success, the response's agent, text and timestamp are appended under the captured id. On a rejection, the error text is appended for the agent selected at send time. Either way loading ends, and the reply is shown in that agent's view when the response echoes the agent id (as both `SendRequest` functions guarantee) |
| MainAssistant.Assistant.SubmitNewTask | src/components/AIAssistant/AIAssistant.tsx:227-242 | with no check on the draft, the task gets id = largest id + 1 (greater than every existing id), status 'todo' and the draft's fields; the form closes and the draft is reset |
| AppAssistant.AgentName | home/ubuntu/sandbees/frontend/sandbees-app/src/components/AIAssistant/AIAssistant.tsx:231 | `find(…)?.name` is defined exactly when some agent has the id, and it is that agent's name |
| AppAssistant.Echo | home/ubuntu/sandbees/frontend/sandbees-app/src/components/AIAssistant/AIAssistant.tsx:181 | the answer starts with the fixed prefix, ends with a closing quote, and is exactly one quote longer than prefix and text |
| AppAssistant.TaskNote | home/ubuntu/sandbees/frontend/sandbees-app/src/components/AIAssistant/AIAssistant.tsx:231 | the note opens by quoting the title and saying to whom it is assigned, and ends with a full stop |
| AppAssistant.InitialAgentDetails | home/ubuntu/sandbees/frontend/sandbees-app/src/components/AIAssistant/AIAssistant.tsx:8-21 | on first render the executive is shown, with its own description, capabilities and model |
| AppAssistant.EchoQuotesRequest | home/ubuntu/sandbees/frontend/sandbees-app/src/components/AIAssistant/AIAssistant.tsx:181 | the simulated answer contains the sent text, right after its fixed prefix |
| AppAssistant.EchoInjective | home/ubuntu/sandbees/frontend/sandbees-app/src/components/AIAssistant/AIAssistant.tsx:181 | different sent texts get different answers |
| AppAssistant.TaskNoteNamesAgent | home/ubuntu/sandbees/frontend/sandbees-app/src/components/AIAssistant/AIAssistant.tsx:231 | for every agent offered by the form, the note names that agent |
| AppAssistant.TaskNoteForUnknownAgent | home/ubuntu/sandbees/frontend/sandbees-app/src/components/AIAssistant/AIAssistant.tsx:231 | for an id no agent has, the note says "undefined" |
| AppAssistant.Assistant.constructor | home/ubuntu/sandbees/frontend/sandbees-app/src/components/AIAssistant/AIAssistant.tsx:142-152 | the initial state: the executive selected, the seeded conversation with positional ids, three tasks with positional ids, a closed form, the empty draft |
| AppAssistant.Assistant.SelectAgent | home/ubuntu/sandbees/frontend/sandbees-app/src/components/AIAssistant/AIAssistant.tsx:262 | the clicked agent becomes the selected one |
| AppAssistant.Assistant.ToggleNewTaskForm | home/ubuntu/sandbees/frontend/sandbees-app/src/components/AIAssistant/AIAssistant.tsx:247 | the form flag flips, so two presses restore it |
| AppAssistant.Assistant.CancelNewTaskForm | home/ubuntu/sandbees/frontend/sandbees-app/src/components/AIAssistant/AIAssistant.tsx:381 | the form is hidden |
| AppAssistant.Assistant.SendMessage | home/ubuntu/sandbees/frontend/sandbees-app/src/components/AIAssistant/AIAssistant.tsx:163-175 | the store becomes `Chat.PostUserMessage` of the old store and the input. A blank input changes nothing else. Otherwise the input is cleared; the timer gets reply id = old length + 2, the selected agent and the text |
| AppAssistant.Assistant.DeliverReply | home/ubuntu/sandbees/frontend/sandbees-app/src/components/AIAssistant/AIAssistant.tsx:177-187 | the echo `I'm processing your request: "<text>"` is appended for the agent selected at send time and shows in that agent's view |
| AppAssistant.Assistant.SubmitNewTask | home/ubuntu/sandbees/frontend/sandbees-app/src/components/AIAssistant/AIAssistant.tsx:201-238 | an empty title or description changes nothing. Otherwise: a task is appended with id = length + 1, status 'pending' and completion 24 h after creation; the draft is reset and the form closed; one executive note is appended with id = length + 1. Positional ids of tasks and messages are kept |
| TaskBoard.StatusOptionsCoverStatuses | src/components/TaskManagement/TaskManagement.tsx:62-66 | every status has exactly one button, so any status is reachable from any status |
| TaskBoard.PriorityOptionsCoverPriorities | src/components/TaskManagement/TaskManagement.tsx:69-73 | every priority has exactly one radio button |
| TaskBoard.FilteredTasks | src/components/TaskManagement/TaskManagement.tsx:91-97 | a task is shown iff the filter is 'all' or its status matches, and the term occurs, ignoring case, in its title, description or project; order is kept |
| TaskBoard.EmptySearchFiltersByStatus | src/components/TaskManagement/TaskManagement.tsx:92-95 | with an empty search the view is exactly the status-filtered list |
| TaskBoard.InitialViewShowsAll | src/components/TaskManagement/TaskManagement.tsx:77-78 | with 'all' and an empty search the view is the whole list |
| TaskBoard.StatusViewsPartition | src/components/TaskManagement/TaskManagement.tsx:92 | a task shown under 'all' is shown in its own status view and in no other |
| TaskBoard.SetStatus | src/components/TaskManagement/TaskManagement.tsx:100-104 | length and order kept; tasks with the id get the new status; every other task is unchanged |
| TaskBoard.SetStatusUnknownId | src/components/TaskManagement/TaskManagement.tsx:100-104 | an id no task has leaves the list identical |
| TaskBoard.SetStatusKeepsOtherFields | src/components/TaskManagement/TaskManagement.tsx:102 | only the status field changes |
| TaskBoard.SetStatusLastWins | src/components/TaskManagement/TaskManagement.tsx:100-104 | of two changes to the same task, the second wins |
| TaskBoard.Board.constructor | src/components/TaskManagement/TaskManagement.tsx:76-88 | the seeded tasks with positional ids, 'all', no search, a closed form and the empty draft |
| TaskBoard.Board.SetFilter | src/components/TaskManagement/TaskManagement.tsx:222-241 | the chosen filter becomes current |
| TaskBoard.Board.SetSearchTerm | src/components/TaskManagement/TaskManagement.tsx:250 | the typed term becomes current |
| TaskBoard.Board.HandleStatusChange | src/components/TaskManagement/TaskManagement.tsx:100-104 | the list becomes `SetStatus` of the old one, and positional ids are kept |
| TaskBoard.Board.ToggleNewTaskForm | src/components/TaskManagement/TaskManagement.tsx:143 | the form flag flips |
| TaskBoard.Board.OpenNewTaskForm | src/components/TaskManagement/TaskManagement.tsx:263 | the form is shown |
| TaskBoard.Board.CancelNewTaskForm | src/components/TaskManagement/TaskManagement.tsx:209 | the form is hidden |
| TaskBoard.Board.SubmitNewTask | src/components/TaskManagement/TaskManagement.tsx:116-134 | an empty title or due date changes nothing; otherwise the draft is appended with id = length + 1, the draft is reset to 'todo' and 'medium', and the form closes |
| Finance.SumAmountsAppend | src/components/FinancialManagement/FinancialManagement.tsx:92 | the `reduce` sum of a concatenation is the sum of the parts |
| Finance.SumAmounts | src/components/FinancialManagement/FinancialManagement.tsx:90-92 | the `reduce` sum is non-negative when every amount is, and zero when every amount is |
| Finance.BucketSumBounds | src/components/FinancialManagement/FinancialManagement.tsx:90-98 | a bucket sum is non-negative when the amounts in the bucket are, and zero when no transaction is in the bucket |
| Finance.TotalIncome | src/components/FinancialManagement/FinancialManagement.tsx:90-92 | the completed-income total: non-negative when those amounts are, zero when there is no completed income |
| Finance.TotalExpenses | src/components/FinancialManagement/FinancialManagement.tsx:93-95 | the completed-expense total: non-negative when those amounts are, zero when there is no completed expense |
| Finance.PendingInvoices | src/components/FinancialManagement/FinancialManagement.tsx:96-98 | the pending-invoice total: non-negative when those amounts are, zero when there is no pending invoice |
| Finance.Profit | src/components/FinancialManagement/FinancialManagement.tsx:101 | profit never exceeds income when expenses are non-negative, and equals income when nothing was spent |
| Finance.SumFilterAppendOne | src/components/FinancialManagement/FinancialManagement.tsx:90-98 | appending one transaction adds its amount to a filtered sum exactly when it passes the filter |
| Finance.BucketsAreDisjoint | src/components/FinancialManagement/FinancialManagement.tsx:90-98 | a transaction is in at most one summary bucket; a pending income or expense, and a completed invoice, are in none |
| Finance.SummaryAfterAppend | src/components/FinancialManagement/FinancialManagement.tsx:89-101 | appending a transaction changes only the bucket matching its type and status, by exactly its amount; profit changes by its signed amount |
| Finance.FilteredTransactions | src/components/FinancialManagement/FinancialManagement.tsx:104-109 | a transaction is shown iff the type filter matches and the term occurs, ignoring case, in its description or category; order is kept |
| Finance.InitialViewShowsAll | src/components/FinancialManagement/FinancialManagement.tsx:76-77 | with 'all' and an empty search the whole ledger is listed |
| Finance.Ledger.constructor | src/components/FinancialManagement/FinancialManagement.tsx:75-86 | the seeded ledger with positional ids, 'all', no search, a closed form, and the draft dated today |
| Finance.Ledger.SetFilter | src/components/FinancialManagement/FinancialManagement.tsx:294-312 | the chosen filter becomes current |
| Finance.Ledger.SetSearchTerm | src/components/FinancialManagement/FinancialManagement.tsx:321 | the typed term becomes current |
| Finance.Ledger.ToggleNewTransactionForm | src/components/FinancialManagement/FinancialManagement.tsx:148 | the form flag flips |
| Finance.Ledger.CancelNewTransactionForm | src/components/FinancialManagement/FinancialManagement.tsx:280 | the form is hidden |
| Finance.Ledger.SubmitNewTransaction | src/components/FinancialManagement/FinancialManagement.tsx:121-139 | a missing description, amount or date changes nothing; otherwise the draft is appended with id = length + 1 and its parsed amount, reset to 'income', 'completed' and today, and the form closes |
| Customers.CountsCoverList | src/components/CustomerManagement/CustomerManagement.tsx:84-86 | the customer, lead and partner counts add up to the list length |
| Customers.CountStatus | src/components/CustomerManagement/CustomerManagement.tsx:84-86 | a metric count is at most the list length, and zero exactly when no contact has that status |
| Customers.TotalValue | src/components/CustomerManagement/CustomerManagement.tsx:87 | the total value is non-negative when every contact's value is |
| Customers.ValueOrZero | src/components/CustomerManagement/CustomerManagement.tsx:118 | `parseFloat(v) \|\| 0`: the value read when there is one, and zero exactly when nothing or zero was read |
| Customers.TotalValueAppend | src/components/CustomerManagement/CustomerManagement.tsx:87 | the total value of a concatenation is the sum of the parts' totals |
| Customers.MetricsAfterAppend | src/components/CustomerManagement/CustomerManagement.tsx:83-88 | adding a contact raises only its status's count, by one, and adds its value to the total whatever its status |
| Customers.FilteredCustomers | src/components/CustomerManagement/CustomerManagement.tsx:91-98 | a contact is shown iff the status filter matches and the term occurs, ignoring case, in its name, company or email; order is kept |
| Customers.EmptySearchMatchesMetric | src/components/CustomerManagement/CustomerManagement.tsx:84-98 | with an empty search, a status view lists exactly as many contacts as that status's metric card counts |
| Customers.Toggle | src/components/CustomerManagement/CustomerManagement.tsx:133-139 | the selection is cleared exactly when the clicked contact was selected; otherwise the clicked contact becomes selected |
| Customers.ToggleTwice | src/components/CustomerManagement/CustomerManagement.tsx:133-139 | two clicks restore the selection iff nothing or that contact was open; otherwise nothing ends up open |
| Customers.Directory.constructor | src/components/CustomerManagement/CustomerManagement.tsx:67-80 | the seeded contacts with positional ids, 'all', no search, a closed form, nothing selected, the empty draft |
| Customers.Directory.SetFilter | src/components/CustomerManagement/CustomerManagement.tsx:284-302 | the chosen filter becomes current |
| Customers.Directory.SetSearchTerm | src/components/CustomerManagement/CustomerManagement.tsx:311 | the typed term becomes current |
| Customers.Directory.ToggleNewCustomerForm | src/components/CustomerManagement/CustomerManagement.tsx:148 | the form flag flips |
| Customers.Directory.OpenNewCustomerForm | src/components/CustomerManagement/CustomerManagement.tsx:324 | the form is shown |
| Customers.Directory.CancelNewCustomerForm | src/components/CustomerManagement/CustomerManagement.tsx:270 | the form is hidden |
| Customers.Directory.ToggleCustomerDetails | src/components/CustomerManagement/CustomerManagement.tsx:133-139 | the selection becomes `Toggle` of the old one |
| Customers.Directory.SubmitNewCustomer | src/components/CustomerManagement/CustomerManagement.tsx:110-130 | an empty name or email changes nothing; otherwise the draft is appended with id = length + 1, last contact today and its value or 0, reset with status 'lead', and the form closes |

## Left out

- JSX rendering, CSS classes, and the `toLocaleString`, `toLocaleDateString` and
  `toLocaleTimeString` formatting are left out as presentation. Also left out: the
  finance "No transactions found." row and the customers empty-state text.
- The `onChange` handlers of the form fields (`handleNewTaskChange` and its
  siblings) are not modelled. They copy one typed value into the draft, and the
  model treats the draft field as set directly.
- The wrappers GlassCard, GlassInput and GlassButton, plus Navigation, Dashboard,
  `src/App.tsx`, `tailwind.config.js` and TestComponent, are not part of this model.
  They are static or presentational.
- Event-loop effects are left out. This covers `setTimeout`, `async`/`await`, the
  500 ms mock delay of the sandbees-app service, and the 1000 ms reply timer. Each
  send is the pair `SendMessage` then `ReceiveReply`/`DeliverReply`.
  - Overlapping sends can be expressed by interleaving these calls. The model proves
    nothing about such interleavings.
  - In particular, two replies, or a reply and an app task note, can end up with the
    same id, because the id was fixed from a stale length. Positional ids are proved
    only for a reply delivered right after its own send.
- The `fault` flag and `outcome == None` stand for any exception. What could raise
  one inside the mock code is not modelled.
- `Math.random()` becomes the parameter `pick`, so the model does not capture the
  distribution of replies.
- `parseFloat` and number rounding are left out.
  - Amounts become exact reals, so floating-point rounding of sums is not captured.
  - A draft's amount is `None` exactly when the field is empty. A number input
    yields nothing else that is falsy.
  - A non-numeric customer value reads as `None`, which stands for `NaN`, and `|| 0`
    turns it into 0.
- `Date` and `toISOString` are left out.
  - Timestamps are milliseconds since the epoch, given as parameters.
- AppAssistant.Assistant.SubmitNewTask: the source reads the clock twice and adds 24
  local hours with `setHours`. The model uses one `now` and adds exactly 86 400 000
  ms, so clock drift between the two reads and daylight-saving days are not captured.
- Lower-casing is ASCII only. JavaScript strings are UTF-16 code units while Dafny
  strings are sequences of characters, so lengths of non-BMP text differ.
- `console.log`/`console.error`, `process.env` and `apiUrl` are left out as I/O and
  environment.
- The `context: {}` field of a request is not modelled.
- The filter states are datatypes. The code compares arbitrary strings, but the
  buttons only write these values.
- The jest test files are not modelled.
  - The integration test expects the sandbees-app AI Assistant to call
    `sendRequest`. As written, that screen never calls the service: it answers with
    a local echo.
  - The sandbees-app AI Assistant's agent list is its own constant (`AppAgents`),
    not the service's catalog.
- MainService.SendRequest: composes the corrected own-key lookup `GetMockResponse`, so
  its reply is a non-empty pool text for every id. The code as written is
  `SendRequestAsWritten`, which answers 'success' with an `undefined` message for an
  inherited property name such as "constructor" (see Findings).
- AppService.SendRequest: composes the corrected own-key lookup `GenerateMockResponse`.
  The code as written is `SendRequestAsWritten`, which answers 'success' with an
  `undefined` message for an inherited property name such as "toString".
- The "No Tasks Found" card text of Task Management is left out as presentation.
- MainService.GenerateResponse: the model maps names with the corrected
  `MapAgentNameToId`. As written, an inherited name such as "toString" yields a
  function. Used as a key, that function is coerced to text that no pool has, so
  the executive pool is used. That is the pool the corrected mapping also selects,
  so the result is the same.

## Findings

| source | as written | input that shows it | evidently intended | confidence | as-written member | corrected member |
|---|---|---|---|---|---|---|
| src/services/AIIntegrationService.ts:152-153 | `responses[request.agentId] \|\| responses['executive']` also finds keys inherited from `Object.prototype` | agent id "constructor": `responses["constructor"]` is the `Object` function, so `[index]` is `undefined` and the reply text is `undefined` | unknown ids fall back to the executive pool | high (not executed) | MainService.GetMockResponseUndefinedForConstructor | MainService.GetMockResponse |
| src/services/AIIntegrationService.ts:73 | `agentMap[agentName] \|\| 'executive'` returns inherited members | agent name "toString" maps to `Object.prototype.toString`, not to an agent id | every name that is not a display name maps to 'executive' | high (not executed) | MainService.MapAgentNameToIdLeaksPrototype | MainService.MapAgentNameToId |
| home/ubuntu/sandbees/frontend/sandbees-app/src/services/AIIntegrationService.ts:196-197 | the same inherited-key lookup in `generateMockResponse` | agent id "toString" with any pick yields `undefined` | unknown ids fall back to the executive pool | high (not executed) | AppService.GenerateMockResponseUndefinedForToString | AppService.GenerateMockResponse |
