# ConsultTrack deadline engine, modelled in Dafny

ConsultTrack is a one-page consulting tracker. It holds clients and their deadlines,
derives dashboard views from them, edits them, and talks to an external AI agent.
This project models the logic inside `app/page.tsx`, leaving out the JSX. It proves
the properties below about that model.

- **Records** (`records.dfy`): the `Client` and `Deadline` records and the status cycle
  `getNextStatus`. Also the client lookup `getClientName` with its `'Unknown'` sentinel,
  and the defaults that `addClient` and `addDeadline` give a new record.
- **Calendar** (`calendar.dfy`): day numbers and millisecond instants, plus
  `startOfWeek`/`endOfWeek` with weeks starting on Monday.
- **Buckets** (`buckets.dfy`): the overdue, upcoming and this-week memos, all read
  against one snapshot `now`. Also the dashboard timeline (overdue sorted, then upcoming)
  and the client's quick stats.
- **Sorting** (`sorting.dfy`): a stable insertion sort as a specification function. An
  in-place array version is proved equal to it. Any sorted, stable arrangement equals it,
  so it stands for JavaScript's stable `Array.prototype.sort`. Every comparator in the
  page has the form `key(a) - key(b)`, so the sort is generic over an integer key.
- **Pipeline** (`pipeline.dfy`): `filteredDeadlines`. It applies three equality filters,
  where `'all'` switches a filter off. It then sorts once by due date, priority rank or
  title, ascending or descending.
- **Edits** (`edits.dfy`): the new lists that the CRUD callbacks store. These are toggle,
  bulk complete, replace, delete client with its deadlines, and delete deadline. This is
  also where the client search lives.
- **Context** (`context.dfy`): the structured data `buildContext` serialises, with one
  entry per client.
- **Agent** (`agent.dfy`): normalises an agent answer into summary, details, action
  items and alerts. Also the assistant's reply text for a success, a reported failure or
  an exception, and the summary update.
- **Tracker** (`tracker.dfy`): the page state as a class. Its methods are the CRUD
  callbacks, a chat turn (`sendChatMessage`) and the dashboard summary
  (`generateAISummary`).

Modelling choices:

- **Dates.** A due date is a day number of the local calendar. An instant is a count of
  milliseconds, and day `d` starts at `Midnight(d)`. `parseISO(dueDate)` is that midnight,
  and `today` is an instant taken once, so every bucket sees the same `now`.
- **Due today.** The code compares the due day's midnight with the `today` instant. A
  deadline due today is therefore overdue unless `now` is exactly midnight. A date-only
  reading would call it upcoming. The model follows the code: see
  `Buckets.DueTodayIsOverdue` and `Buckets.ThreeDeadlinesExample`.
- **Normalisation.** `summary` and `details` use `?? ''`. Only an absent or null value is
  replaced, and any other value is kept whatever its type. `action_items` and `alerts`
  use `Array.isArray`, and their elements are not checked. So a `summary` or
  `details` of the wrong type is passed through unchanged. Payloads are values of a small JSON datatype.
- **No overlapping turns.** `sendChatMessage` does not refuse a second request while one
  is waiting. Only the UI's disabled send controls do that. The same holds for the
  summary button. Both are stated as `requires !chatLoading` / `requires !aiSummaryLoading`.
- **Cascading delete.** `deleteClient` does delete the client's deadlines too, and the
  model does the same. Dangling references arise in two ways. First, `addDeadline` with no
  clients falls back to the id '' (app/page.tsx:387). Second, records loaded from
  storage are not checked against each other (app/page.tsx:237-241). The edit dialog's
  client choice offers only existing ids, so `updateDeadline` keeps a dangling id but
  never creates one. `getClientName` keeps the `'Unknown'` sentinel for them.

## Model

| member | source | states |
|---|---|---|
| Records.NextStatus | app/page.tsx:159-166 | todo goes to in_progress, in_progress to complete, complete to todo, and any other status to todo; a valid status always moves on |
| Records.NextStatusCycle | app/page.tsx:159-166 | three steps of the cycle return to any valid status |
| Records.FindClient | app/page.tsx:339 | `find` yields nothing iff no client has the id, otherwise the first client with that id |
| Records.ClientName | app/page.tsx:338-341 | a dangling id gives 'Unknown'; otherwise the name of the first client with that id |
| Records.NewClient | app/page.tsx:345-355 | the new client carries the generated id and clock reading and every filled form field; an unfilled (absent or empty) field becomes 'New Client' for the name, 'active' for the status and '' for company, email, phone, industry and notes |
| Records.NewClientFromEmptyForm | app/page.tsx:344-357 | an untouched form yields 'New Client', empty texts, 'active' |
| Records.DefaultClientId | app/page.tsx:387 | the scoped client wins over the form's choice, which wins over the first client's id, else '' |
| Records.NewDeadline | app/page.tsx:383-392 | the new deadline keeps every filled field; an unfilled one becomes 'New Deadline' for the title, '' for the description, 'medium' for the priority and 'todo' for the status; it is due on the UTC date when no date was given and gets `DefaultClientId` |
| Records.NewDeadlineFromEmptyForm | app/page.tsx:382-393 | an untouched form yields 'New Deadline', medium, todo, due on the UTC day |
| Records.DeadlinesOf | app/page.tsx:437 | a client's deadlines are exactly those with its id, each as often as it is listed, in list order |
| Calendar.DayOf | app/page.tsx:276 | the day of an instant is the one whose midnight-to-midnight span contains it |
| Calendar.MidnightOrder | app/page.tsx:288 | comparing due midnights is comparing due days |
| Calendar.Weekday | app/page.tsx:293 | the weekday of a day number is in 0..6 |
| Calendar.StartOfWeekDay | app/page.tsx:293 | the week of a day starts on the Monday at or before it, at most six days earlier |
| Calendar.EndOfWeekDay | app/page.tsx:294 | the week ends on the Sunday six days after its Monday, at or after the day |
| Calendar.WeekStart | app/page.tsx:293 | `startOfWeek(today)` is the midnight of a Monday, at or before now and less than seven days earlier |
| Calendar.WeekEnd | app/page.tsx:294 | `endOfWeek(today)` is the last millisecond of the Sunday: seven whole days after the start, minus one, and not before now |
| Buckets.Overdue | app/page.tsx:280-283 | exactly the open deadlines due before now, each as often as it is listed, in list order |
| Buckets.Upcoming | app/page.tsx:285-290 | exactly the open deadlines not due before now, each as often as listed, ascending by due instant |
| Buckets.ThisWeek | app/page.tsx:292-299 | exactly the open deadlines due within this week's interval, each as often as it is listed, in list order |
| Buckets.Timeline | app/page.tsx:747 | the timeline lists exactly the open deadlines |
| Buckets.BucketMembership | app/page.tsx:280-299 | for a listed deadline: overdue iff open and due before now; upcoming iff open and not; this-week iff open and due inside the week; complete ones are in no bucket; an open one is in exactly one of overdue and upcoming |
| Buckets.BucketsFromList | app/page.tsx:280-299 | every bucket holds only open deadlines of the list |
| Buckets.ThisWeekByDays | app/page.tsx:292-299 | this-week is the open deadlines due from the week's Monday to its Sunday, both included |
| Buckets.DueTodayIsOverdue | app/page.tsx:281 | an open deadline due on now's day is overdue exactly when now is past midnight |
| Buckets.DueLaterIsUpcoming | app/page.tsx:287 | an open deadline due after today is upcoming and not overdue |
| Buckets.ThreeDeadlinesExample | app/page.tsx:280-290 | due two days ago, today and (complete) in five days: after midnight both open ones are overdue, at midnight the one due today is upcoming |
| Buckets.UpcomingSorted | app/page.tsx:285-290 | upcoming is ascending by due instant and so by due day |
| Buckets.ConcatSorted | app/page.tsx:747 | two sorted runs separated by a bound concatenate to a sorted sequence |
| Buckets.TimelineSorted | app/page.tsx:747 | the dashboard timeline (overdue sorted, then upcoming) is ascending by due date |
| Buckets.TimelinePermutation | app/page.tsx:747 | the timeline holds exactly the open deadlines, each as often as listed |
| Buckets.InSortedIffIn | app/page.tsx:288 | sorting neither adds nor drops elements |
| Buckets.ClientDeadlines | app/page.tsx:306-309 | with a client selected, exactly its deadlines, each as often as it is listed, in list order; with none selected (null or empty id), nothing |
| Buckets.ClientStats | app/page.tsx:929-944 | the total counts the client's deadlines, active counts those not complete, overdue counts those of the client's deadlines in the overdue bucket; active plus completed is the total, and overdue never exceeds active |
| Sorting.InsertBack | app/page.tsx:326-334 | inserting one element adds exactly that element |
| Sorting.InsertionSort | app/page.tsx:326-334 | the sort is a permutation of its input |
| Sorting.InsertBackSorted | app/page.tsx:326-334 | inserting into a sorted sequence keeps it sorted |
| Sorting.InsertBackWithKey | app/page.tsx:326-334 | inserting behind its equal keys keeps each key class's order |
| Sorting.InsertionSortSorted | app/page.tsx:326-334 | the sort's output is ascending by the key |
| Sorting.InsertionSortStable | app/page.tsx:326-334 | for every key, the elements with that key keep their input order |
| Sorting.WithKeyAppend | app/page.tsx:326-334 | the key class of an extended sequence is extended by the new element iff it has that key |
| Sorting.WithKeyElements | app/page.tsx:326-334 | a key class holds only elements with that key |
| Sorting.SortedUnique | app/page.tsx:326-334 | two sorted sequences with the same key classes are equal |
| Sorting.InClassBound | app/page.tsx:326-334 | in a sorted sequence a non-empty key class is bounded by the last key |
| Sorting.LastKeysMatch | app/page.tsx:326-334 | two sorted sequences with the same key classes end in the same element |
| Sorting.DropLastOfClass | app/page.tsx:326-334 | dropping a common last element keeps the key classes equal |
| Sorting.WitnessKey | app/page.tsx:326-334 | a non-empty sequence has a non-empty key class |
| Sorting.StableSortUnique | app/page.tsx:326-334 | any sorted arrangement that keeps each key class's order equals the insertion sort, so any stable sort gives the same result |
| Sorting.SortSortedIsIdentity | app/page.tsx:326-334 | sorting a sorted sequence changes nothing |
| Sorting.InsertBackAt | app/page.tsx:326-334 | the insertion point splits the prefix into keys not above and keys above the new element |
| Sorting.ShiftedIsInserted | app/page.tsx:326-334 | shifting the larger keys up one slot and dropping the element in the gap is the insertion |
| Sorting.InsertAt | app/page.tsx:326-334 | one insertion step on the array: its prefix becomes the insertion of the next element, the rest is untouched |
| Sorting.SortInPlace | app/page.tsx:326-334 | sorting the array in place leaves exactly the insertion sort of its old contents |
| Pipeline.PriorityRank | app/page.tsx:330-331 | high is 0, low is 2, everything else (medium and unknown) ranks 1 |
| Pipeline.Compare | app/page.tsx:326-334 | the comparator is the difference of the sort keys, negated when descending |
| Pipeline.DescendingReverses | app/page.tsx:333 | descending is the negated ascending comparator, i.e. ascending with its arguments swapped |
| Pipeline.Select | app/page.tsx:322-325 | exactly the deadlines passing every filter that is not 'all', each as often as listed, in list order |
| Pipeline.Arranged | app/page.tsx:321-336 | the shown list holds exactly the selected deadlines, each as often as selected, sorted by the key |
| Pipeline.ArrangedOrder | app/page.tsx:326-334 | the shown list is ascending (or, descending, non-increasing) in due date, priority rank or title rank |
| Pipeline.ArrangedStable | app/page.tsx:326 | deadlines with equal sort keys keep their list order, in both directions |
| Pipeline.ArrangedIdempotent | app/page.tsx:321-336 | running the pipeline on its own output changes nothing |
| Pipeline.ApplyFilters | app/page.tsx:322-325 | the three staged filters on a copy select exactly the deadlines matching all three |
| Pipeline.FilteredDeadlines | app/page.tsx:321-336 | the result is the stable sort of the selection: matching deadlines only and all of them, same multiset, sorted by the key, equal keys in list order |
| Edits.ToggleStatus | app/page.tsx:418-422 | same length; only statuses change; deadlines with the id take the next status, all others are untouched |
| Edits.MarkComplete | app/page.tsx:424-427 | same length; only statuses change; the selected become complete, all others are untouched |
| Edits.ReplaceDeadline | app/page.tsx:401-405 | same length; every deadline with the edited id becomes the edited one, the rest are untouched |
| Edits.ReplaceClient | app/page.tsx:363-366 | same length; every client with the edited id becomes the edited one, the rest are untouched |
| Edits.ToggleThrice | app/page.tsx:418-422 | toggling three times restores the list when the targeted statuses are valid |
| Edits.ToggleUnknownIsTodo | app/page.tsx:420 | toggling a deadline with an unknown status sets it to todo |
| Edits.MarkCompleteIdempotent | app/page.tsx:424-427 | marking the same selection twice is marking it once |
| Edits.MarkedLeaveBuckets | app/page.tsx:424-427 | a marked deadline is in none of the dashboard buckets afterwards; an unmarked one is in each bucket exactly when it was before |
| Edits.ReplaceDeadlineIdempotent | app/page.tsx:401-405 | replacing twice is replacing once, and the edited deadline is present afterwards exactly when its id was |
| Edits.RemoveClient | app/page.tsx:375 | every client without the id is kept, each as often as before and in order, and no other |
| Edits.RemoveClientDeadlines | app/page.tsx:376 | every deadline of another client is kept, each as often as before and in order, and none of the deleted client's |
| Edits.DeleteClientClearsStats | app/page.tsx:374-376 | the deleted client's quick stats are all zero |
| Edits.RemoveDeadline | app/page.tsx:413 | every deadline without the id is kept, each as often as before and in order; the list shrinks by the number with that id |
| Edits.SearchClients | app/page.tsx:311-319 | an empty query shows every client; otherwise exactly the clients whose lowered name, company or industry contains the lowered query, each as often as listed, in order |
| Context.BuildContext | app/page.tsx:435-440 | one entry per client in client order, with its name, company, status, industry and the summaries of exactly its deadlines in list order |
| Context.ClientEntry | app/page.tsx:435-439 | a client's entry copies its four fields and summarises each of its deadlines in list order; a summary is listed iff one of its deadlines has it |
| Context.DanglingOmitted | app/page.tsx:434-440 | deadlines whose client id matches no client appear nowhere: removing them leaves the context unchanged |
| Context.AppendedDeadlineListed | app/page.tsx:437 | a new deadline appears at the end of its client's entry and nowhere else |
| Agent.Member | app/page.tsx:467 | only an object has fields; a present field yields its value |
| Agent.Coalesce | app/page.tsx:467-468 | `??` replaces absent and null values only |
| Agent.ArrayOrEmpty | app/page.tsx:469-470 | an array passes through unchanged, anything else becomes empty |
| Agent.Resolve | app/page.tsx:463-466 | a text result is replaced by its parse, any other result is kept |
| Agent.Normalize | app/page.tsx:467-470 | summary and details are the empty text exactly when absent, null or empty, and otherwise the raw value of any type; action items and alerts are the raw arrays exactly when they are arrays, and empty otherwise |
| Agent.Answer | app/page.tsx:463-470 | a missing result, text that does not parse to an object and any other non-object give the empty answer; text is parsed first; an object result is normalised unparsed |
| Agent.NonObjectIsEmpty | app/page.tsx:463-470 | a result that is not an object normalises to all-empty fields |
| Agent.WellFormedAnswer | app/page.tsx:515-520 | a text answer parsing to a complete object comes through field for field |
| Agent.PartialAnswerExample | app/page.tsx:463-470 | an answer with only summary and alerts gets empty details and action items |
| Agent.SuccessContent | app/page.tsx:475 | the reply is the summary if truthy, else the details if truthy, else 'Response received.'; it is never falsy |
| Agent.FailureContent | app/page.tsx:484 | the reply starts with the fixed apology and ends with the error text, or 'Please try again.' when none |
| Agent.Reply | app/page.tsx:462-497 | a parsed response is attached iff the call succeeded; success, reported failure and exception each give their reply; the content is never falsy |
| Agent.SummaryAfter | app/page.tsx:510-523 | the summary is replaced by the normalised answer on success and kept on failure or exception |
| Agent.SummaryMatchesReply | app/page.tsx:515-520 | the dashboard summary and the chat reply normalise an answer the same way |
| Agent.UnparsedAnswerAcknowledged | app/page.tsx:463-475 | a missing result or unparsable text is acknowledged with 'Response received.' and an empty parsed response |
| Tracker.TrimStart | app/page.tsx:445 | a suffix of the text that does not start with white space, with only white space cut off |
| Tracker.TrimEnd | app/page.tsx:445 | a prefix of the text that does not end with white space, with only white space cut off |
| Tracker.Trim | app/page.tsx:445 | a stretch of the text with only white space around it, neither starting nor ending with white space |
| Tracker.BlankIffTrimmedEmpty | app/page.tsx:445 | the guard `!text.trim()` holds exactly when the text is nothing but white space |
| Tracker.TurnAddsOneEach | app/page.tsx:452-496 | a full turn adds exactly one user and one assistant message to the log |
| Tracker.Page.constructor | app/page.tsx:172-217 | the page starts with empty lists, no selection, empty forms, nothing loading |
| Tracker.Page.AddClient | app/page.tsx:344-357 | the new client is appended at the end and the form is cleared |
| Tracker.Page.UpdateClient | app/page.tsx:363-368 | without a client being edited nothing changes; otherwise the client list is `ReplaceClient` of it and editing ends |
| Tracker.Page.DeleteClient | app/page.tsx:374-377 | client and its deadlines removed, selection cleared when it was that client, no deadline refers to it |
| Tracker.Page.AddDeadline | app/page.tsx:382-395 | the new deadline is appended at the end; form and client scope are cleared |
| Tracker.Page.UpdateDeadline | app/page.tsx:401-406 | without a deadline being edited nothing changes; otherwise the list is `ReplaceDeadline` of it and editing ends |
| Tracker.Page.DeleteDeadline | app/page.tsx:412-413 | the list is `RemoveDeadline` of the old one; no deadline keeps the id |
| Tracker.Page.ToggleDeadlineStatus | app/page.tsx:418-422 | the list is `ToggleStatus` of the old one |
| Tracker.Page.BulkMarkComplete | app/page.tsx:424-428 | the list is `MarkComplete` of the old one by the selection, and the selection is emptied |
| Tracker.Page.BeginChatTurn | app/page.tsx:444-460 | blank text changes nothing and sends nothing; other text logs the user message, clears the input, starts waiting and sends the text with the context |
| Tracker.Page.FinishChatTurn | app/page.tsx:462-500 | exactly one assistant message, chosen by the outcome, is appended; waiting ends |
| Tracker.Page.SendChatMessage | app/page.tsx:444-501 | blank text leaves the log unchanged; other text appends one user and one assistant message; it always ends with nothing waiting |
| Tracker.Page.BeginSummary | app/page.tsx:503-509 | waiting starts and the summary prompt goes out with the context |
| Tracker.Page.FinishSummary | app/page.tsx:510-527 | the summary is `SummaryAfter` of the outcome; waiting ends |
| Tracker.Page.GenerateAISummary | app/page.tsx:503-528 | a whole summary request: the summary changes only on success and waiting ends |
| Seqs.Filter | app/page.tsx:281 | a filter keeps exactly the passing elements of its input |
| Seqs.Map | app/page.tsx:419 | a map yields one image per element, in order |
| Seqs.FilterIsSubsequence | app/page.tsx:376 | a filter keeps the survivors in their order |
| Seqs.SkipHead | app/page.tsx:376 | a subsequence of the tail is a subsequence of the whole |
| Seqs.SubsequenceTail | app/page.tsx:376 | dropping the first element of a subsequence keeps it a subsequence |
| Seqs.FilterSplitsMultiset | app/page.tsx:281-287 | a test and its negation split a list into two parts that together hold every element |
| Seqs.FilterSplitsLength | app/page.tsx:937-941 | a test and its negation split the length |
| Seqs.FilterTwice | app/page.tsx:323-325 | filtering twice is filtering by both tests at once |
| Seqs.FilterSame | app/page.tsx:323-325 | filters by equivalent tests agree |
| Seqs.FilterKeepsAll | app/page.tsx:322 | a filter every element passes changes nothing |
| Seqs.FilterAppend | app/page.tsx:393 | filtering distributes over concatenation |
| Seqs.FilterMultiplicity | app/page.tsx:314 | a filter keeps every passing element as often as it occurs, and no other |

## Left out

- Rendering, dialogs, tabs, tooltips, scrolling, the `setTimeout` status banners and the
  flags that open dialogs. These are the JSX of `app/page.tsx`, with no logic behind it.
- localStorage loading and saving, and the seed data. These are I/O, time and random
  UUIDs. The constructor starts from the empty state instead.
- `generateUUID` and `new Date().toISOString()`. Both become parameters (`Stamp`,
  `utcToday`).
- `callAIAgent` is not part of this model. It becomes the `AgentOutcome` parameter.
- `parseLLMJson` is not part of this model. It becomes the `parse` parameter, a total
  function to an optional JSON value.
- An exception raised after the call returns is not modelled: the model has no
  exception raised by `parse` itself.
- The text of `buildContext`: the pretty-printed `JSON.stringify` output and the
  current-date prefix. The model keeps the structured data. `AgentRequest` carries it
  next to the prompt instead of inside one string.
- date-fns text parsing and formatting. Due dates are day numbers, and no malformed date
  text exists. The source would turn invalid text into an Invalid Date, which compares
  false and sorts as NaN.
- Daylight-saving time. Every day is 86 400 000 ms long.
- `Pipeline.LocaleCompare`: the locale rules of `localeCompare` are abstract. They are
  an integer rank per title (a total preorder).
- `Edits.SearchClients`: Unicode `toLowerCase` is abstract. It is the `lower` parameter.
- `Pipeline.PriorityRank`: the rank table is a plain object. A priority naming one of
  its inherited members (such as `'constructor'`) would give NaN rather than 1. This is
  not modelled.
- `Agent.FailureContent`: the error is text or absent. A non-text `error` would be
  stringified, and this is not modelled.
- `Agent.Json`: numbers are integers. Floating point is not modelled.
- `Buckets.Timeline`: line 747 sorts the memoised overdue array in place, during
  rendering. The model sorts a copy. Only the order of that memo would differ, and
  nothing in the model reads it in list order.
- Two requests waiting at once are not modelled. That could be a chat turn together with
  a summary request, which share `activeAgentId`. Each `await` is treated as a sequential
  split of the method.
- `activeClients`, `selectedClient` and the colour and label tables. These are a filter
  by status, the same lookup as `FindClient` and presentation switches. The markdown
  line renderer is also left out.
