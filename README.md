# Chat assistant core in Dafny

This project models the sequential logic at the heart of a React chat assistant and proves
properties about it. It has three parts.

- **The chat session and its saved conversations** (`ChatProvider`, src/contexts/ChatContext.tsx).
  - The state is the four React state cells `messages`, `chatHistories`, `currentChatId` and
    `isLoading`. They become the fields of the class `ChatContext.ChatProvider`.
  - Its methods are `sendMessage`, `startNewChat`, `loadChat` and `deleteChat`. Each assigns the
    fields in the order the source calls the setters.
  - The assistant's reply (or its failure), the clock readings and the fresh ids are
    parameters of `SendMessage`.
- **The analytics aggregator** (`calculateAnalytics`, src/lib/analytics.ts). It is the method
  `Analytics.CalculateAnalytics` over the role-based message shape of src/types/chat.ts. It
  computes:
  - the totals, the chat count and the rounded average;
  - seven days of message counts;
  - the user and assistant counts;
  - the response times per day and overall.

  The `forEach` that fills the response-time `Map` is the loop of
  `ResponseTimes.CollectResponseTimes`. The `Map` keeps its keys in insertion order, so it is
  modelled as an ordered list of buckets.
- **The message box** (`ChatInput`, src/components/ChatInput.tsx). Its state is the draft
  `input`, the sent messages `inputHistory` (newest first, at most 50) and the browsing position
  `historyIndex`.
  - Each event (submit, a key press, a template, typing) is a step function on `InputState`.
  - The class `ChatInput.ChatInput` applies these steps to its fields.

Supporting modules:

- `Text` models JavaScript's `trim` (the ECMAScript whitespace and line-terminator set), the
  blank test `!s.trim()` and `slice(0, n)`.
- `Calendar` models the UTC calendar:
  - a timestamp's ISO date is its day number `ts / 86400000`;
  - the short weekday name is fixed by that day number modulo 7 (1970-01-01 was a Thursday).
- `ChatTypes` and `ChatMessageTypes` hold the shapes of src/types/index.ts and
  src/types/chat.ts. A `Date` is kept as its epoch-millisecond value.

Two more points about the model:

- **Averages.** The source computes averages in floating point. Here they are exact real
  divisions: the sum divided by the count, or 0 when there are no values.
- **`Math.round`.** It is stated by the predicate `IsRoundedRatio`: `r` is `a / b` rounded to
  the nearest integer, with halves going up.

## Model

| member | source | states |
|---|---|---|
| Text.TrimStart | src/contexts/ChatContext.tsx:43 | The result is a suffix of the input, everything cut before it is whitespace, and it does not start with whitespace. |
| Text.TrimEnd | src/contexts/ChatContext.tsx:43 | The result is a prefix of the input, everything cut after it is whitespace, and it does not end with whitespace. |
| Text.TrimIsCore | src/contexts/ChatContext.tsx:47 | `trim()` returns a stretch `s[i..j]` of its input, with only whitespace cut away on either side. |
| Text.TrimEnds | src/contexts/ChatContext.tsx:47 | A non-empty trimmed string starts and ends with a non-whitespace character. |
| Text.BlankIffAllWhitespace | src/contexts/ChatContext.tsx:43 | `!content.trim()` holds exactly when every character of the content is whitespace, in both directions. |
| Text.TrimIdempotent | src/components/ChatInput.tsx:77 | Trimming an already trimmed message changes nothing, so re-trimming the submitted message in `sendMessage` keeps it as it is. |
| Text.Prefix | src/components/ChatInput.tsx:78 | `slice(0, n)` returns the first `n` elements, or all of them when there are fewer. |
| ChatContext.Title | src/contexts/ChatContext.tsx:81 | A title of content up to 30 characters long is the content itself. Longer content gives its first 30 characters followed by `...`, 33 characters in all. |
| ChatContext.ExtendChat | src/contexts/ChatContext.tsx:69-76 | The number and order of entries stay the same, and so do every entry's id, title and createdAt. An entry with another id is unchanged. An entry with the current id gets the exchange appended to its messages, and its updatedAt becomes the save time. |
| ChatContext.ExtendChatKeepsIds | src/contexts/ChatContext.tsx:70-76 | Extending the current conversation keeps the set of saved ids. |
| ChatContext.RemoveChats | src/contexts/ChatContext.tsx:111 | Exactly the entries with another id remain. The deleted id leaves the id set, and no entry is added. |
| ChatContext.RemoveChatsAppend | src/contexts/ChatContext.tsx:111 | Removing distributes over concatenation, so the entries that remain keep their original relative order. |
| ChatContext.RemoveChatsAbsent | src/contexts/ChatContext.tsx:111 | Deleting an id no entry has leaves the list unchanged. |
| ChatContext.FindChat | src/contexts/ChatContext.tsx:103 | The result is None exactly when no entry has the id. Otherwise it is the first entry with that id. |
| ChatContext.ChatProvider.constructor | src/contexts/ChatContext.tsx:22-25 | The state starts with an empty session, no saved conversations, no current id and no loading. |
| ChatContext.ChatProvider.SendMessage | src/contexts/ChatContext.tsx:42-95 | Blank content changes none of the four fields. Otherwise the trimmed content is appended as a user message, earlier messages unchanged. On a failure nothing else is appended and the histories and current id stay. On an answer exactly one bot message follows the user message, and the exchange is saved onto the current conversation or into a new one (as in SaveExchange). Loading ends false either way, and saved conversations stay non-empty with the current id among them. |
| ChatContext.ChatProvider.SaveExchange | src/contexts/ChatContext.tsx:67-88 | With a current id (a non-empty string), the history becomes ExtendChat of the old one and the current id stays. Without one, a new entry is put first: its title comes from the untrimmed content, its messages are the session before the send followed by the user and bot messages, and createdAt equals updatedAt. That new entry's id becomes current. |
| ChatContext.ChatProvider.StartNewChat | src/contexts/ChatContext.tsx:97-100 | The session is emptied and the current id cleared. The saved conversations and the loading flag are unchanged. |
| ChatContext.ChatProvider.LoadChat | src/contexts/ChatContext.tsx:102-108 | An id no conversation has changes nothing. Otherwise the session shows the first conversation with that id, and that id becomes current. |
| ChatContext.ChatProvider.DeleteChat | src/contexts/ChatContext.tsx:110-114 | Every conversation with the id is removed and the rest keep their order. The session is emptied and the current id cleared only when the id was current. Otherwise the session and current id stay. |
| ChatInput.Remember | src/components/ChatInput.tsx:78 | The message comes first, followed by the earlier entries in order. The history grows by one until it holds 50, and then drops its oldest entry. |
| ChatInput.Submit | src/components/ChatInput.tsx:73-83 | A submit keeps the history within 50 entries and the index in bounds. |
| ChatInput.SubmitRecords | src/components/ChatInput.tsx:75-80 | A submit changes the state exactly when it sends a message. A blank draft, or a submit while loading, changes nothing. A sent message is the trimmed draft, is non-blank and is its own trim. It becomes history entry 0 and the earlier entries follow in order. The history then holds one more entry than before, or 50 when it was already full. The index is then -1 and the draft empty, so an immediate second submit sends nothing. |
| ChatInput.Older | src/components/ChatInput.tsx:89-93 | ArrowUp on an empty history changes nothing. Otherwise the index becomes `min(index + 1, length - 1)` and the draft shows that entry. The history is unchanged and the index stays in bounds. |
| ChatInput.OlderAtOldest | src/components/ChatInput.tsx:91 | At the oldest entry a further ArrowUp changes nothing. |
| ChatInput.Newer | src/components/ChatInput.tsx:94-103 | ArrowDown at index -1 changes nothing. Otherwise the index goes down by one. From 0 the draft becomes empty; otherwise it shows the new entry. The index stays in bounds. |
| ChatInput.KeyDown | src/components/ChatInput.tsx:85-105 | Every key step keeps the index within -1 and the history length, and the history within 50. Enter without Shift submits, ArrowUp steps older and ArrowDown newer. Enter with Shift and any other key change nothing. |
| ChatInput.WithTemplate | src/components/ChatInput.tsx:122-124 | The draft becomes the template's content, and the history and index are unchanged. |
| ChatInput.OlderTimesReaches | src/components/ChatInput.tsx:89-93 | `k` ArrowUp presses reach `k` entries further back, stopping at the oldest, and show that entry. |
| ChatInput.NewerTimesReaches | src/components/ChatInput.tsx:94-103 | `k` ArrowDown presses, as many as the position allows, step `k` entries newer and show that entry. Past entry 0 they show an empty draft. |
| ChatInput.UpThenDownReturns | src/components/ChatInput.tsx:89-103 | Browsing back `k` entries from a fresh box and then forward `k` returns to index -1 with an empty draft. The text typed before browsing is not restored. |
| ChatInput.ChatInput.constructor | src/components/ChatInput.tsx:39-41 | The box starts with an empty draft, no history and index -1. |
| ChatInput.ChatInput.HandleSubmit | src/components/ChatInput.tsx:73-83 | The new state is Submit of the old one, the bounds are kept, and the message handed to `sendMessage` is the one Submitted names. |
| ChatInput.ChatInput.HandleKeyDown | src/components/ChatInput.tsx:85-105 | The new state is KeyDown of the old one, and the bounds are kept. Only Enter without Shift hands on a message. |
| ChatInput.ChatInput.SelectTemplate | src/components/ChatInput.tsx:122-138 | The `i`-th template button fills the draft with the `i`-th offered template's text, as WithTemplate states. |
| ChatInput.ChatInput.Edit | src/components/ChatInput.tsx:151 | The draft becomes the typed text, and the history and index stay. |
| Calendar.DayKeyShift | src/lib/analytics.ts:44-48 | Going back `n` whole days from a time moves its date back by exactly `n`. |
| Calendar.WeekLabelsDistinct | src/lib/analytics.ts:106-107 | Seven consecutive dates carry seven different weekday labels. |
| Calendar.LabelRepeatsWeekly | src/lib/analytics.ts:95 | Dates a whole number of weeks apart carry the same weekday label. |
| ResponseTimes.PushKeys | src/lib/analytics.ts:97-100 | Pushing under a key adds that key to the map's keys and keeps the keys unique. |
| ResponseTimes.PushGet | src/lib/analytics.ts:97-100 | Pushing appends the value to the key's array, a new array for a new key. No other key's array changes. |
| ResponseTimes.PushFlat | src/lib/analytics.ts:97-100 | Pushing adds exactly the pushed value to the map's values. |
| ResponseTimes.SumOfPermutation | src/lib/analytics.ts:120-123 | The sum of the values does not depend on their order. |
| ResponseTimes.PairIndicesExact | src/lib/analytics.ts:90-93 | The paired indices are exactly the `i` with a user message at `i` and an assistant message at `i + 1`, in ascending order. |
| ResponseTimes.SamplesIndexed | src/lib/analytics.ts:90-94 | There is one sample per paired index, in index order. Its value is `next.timestamp - msg.timestamp`, dated by the user message. |
| ResponseTimes.Collect | src/lib/analytics.ts:88-103 | The map built by the pushes never holds a key twice. |
| ResponseTimes.CollectGet | src/lib/analytics.ts:97-100 | Each label's array holds exactly the delays of the samples with that label, in order. A label with no samples is absent, which `get(...) \|\| []` reads as empty. |
| ResponseTimes.CollectFlat | src/lib/analytics.ts:120 | The flattened arrays of the map are a permutation of all delays. |
| ResponseTimes.CollectMean | src/lib/analytics.ts:119-123 | The overall average is the sum of all delays over their count, not a mean of per-day means, and it is 0 with no samples. |
| ResponseTimes.CollectResponseTimes | src/lib/analytics.ts:88-103 | The `forEach` loop builds exactly the map of pushing every sample in message order. |
| ResponseTimes.PairingSkipsUnansweredMessage | src/lib/analytics.ts:90-93 | For any timestamps, the session user, assistant (500 ms later), user, user, assistant (300 ms later) gives exactly the delays 500 and 300, in that order. |
| Analytics.MessageCountIsFlattened | src/lib/analytics.ts:33-35 | The per-conversation message counts sum to the length of the flattened messages. |
| Analytics.TotalIsAllMessages | src/lib/analytics.ts:33-36 | `totalMessages` is the number of messages over all conversations plus the current session. |
| Analytics.RoundedRatio | src/lib/analytics.ts:42 | `Math.round(a / b)`, that is `a / b` to the nearest integer with halves going up. |
| Analytics.Last7DaysConsecutive | src/lib/analytics.ts:44-49 | There are seven dates, consecutive, oldest first and ending today. |
| Analytics.Last7DaysAt | src/lib/analytics.ts:44-49 | Entry `k` is the date `6 - k` days before today. |
| Analytics.DayCountIsAllMessages | src/lib/analytics.ts:52-64 | A day's count over the conversations plus its count over the current session is its count over all messages. |
| Analytics.SumCountsDistinct | src/lib/analytics.ts:52-71 | Over distinct days, the daily counts sum to the number of messages dated on one of them. |
| Analytics.TotalCountOfChart | src/lib/analytics.ts:52-71 | The chart's counts sum to the per-day counts over all messages. |
| Analytics.DailyCountsWithinTotal | src/lib/analytics.ts:52-71 | The seven daily counts sum to the number of messages dated in the last seven days, which is at most `totalMessages`. |
| Analytics.RoleCountsPartition | src/lib/analytics.ts:79-80 | User, assistant and system messages partition all messages. The user count plus the assistant count equals the total exactly when no message is a system message. |
| Analytics.MessagesPerDayAt | src/lib/analytics.ts:52-71 | The chart has seven entries. Entry `k` is labelled with the weekday of the date `6 - k` days ago, and its count is the number of messages with that date, over conversations and session together. |
| Analytics.ResponseTimeDataAt | src/lib/analytics.ts:106-117 | The response chart has seven entries. Entry `k` reports the mean of the delays filed under its weekday label, or 0 when there are none. |
| Analytics.PairStraddlesChats | src/lib/analytics.ts:74-77 | Pairing runs over the concatenated messages, so a user message ending one conversation and an assistant message opening the next form a pair. |
| Analytics.CalculateAnalytics | src/lib/analytics.ts:14-133 | Every field of the result, stated against the message list:<br>- the total;<br>- the chat count, plus one exactly for a non-empty session;<br>- the rounded average, or 0 with no chats;<br>- seven daily counts;<br>- the user and assistant counts;<br>- seven weekday-keyed response means;<br>- the overall mean of all samples. |
| Analytics.WeekOldReplyCountsToday | src/lib/analytics.ts:95-108 | As written, a reply given exactly a week ago makes today's response bar report its delay. |
| Analytics.DatedIgnoresOtherDates | src/lib/analytics.ts:106-117 | In the date-keyed chart, samples from other dates never change a day's bar, wherever they stand among the samples. |
| Analytics.DayDeltasAppend | src/lib/analytics.ts:106-117 | A day's delays over two runs of samples are its delays over the first run followed by those over the second. |
| Analytics.DayDeltasOtherDates | src/lib/analytics.ts:106-117 | Samples that all have other dates give a day no delays. |
| Analytics.WeekdayBucketsAgreeWithinWeek | src/lib/analytics.ts:95-108 | While every sample is dated within the seven days shown, a weekday's bucket holds exactly the delays of that date. |
| Analytics.ChartsAgreeWithinWeek | src/lib/analytics.ts:106-117 | While every sample is dated within the seven days shown, the chart as written equals the date-keyed chart. |
| Analytics.ChartsAgreeAt | src/lib/analytics.ts:95-117 | When every sample falls within the week shown, the bar of a date `k` days into that week is the same in both charts. |
| Analytics.WrittenBarAt | src/lib/analytics.ts:106-117 | Bar `k` of the chart as written is the mean of every delay filed under that date's weekday name, from any week. |

## Findings

| source | as written | input that shows it | evidently intended | confidence | as-written member | corrected member |
|---|---|---|---|---|---|---|
| src/lib/analytics.ts:95-108 | Response times are filed under the short weekday name of the user message (`Mon`, `Tue`, …). Each of the last seven days reads the bucket of its weekday name, so samples from earlier weeks land in the current week's bars. | A user message at `now - 7 days` answered 1000 ms later: today's bar reports 1000 ms, although nothing was answered today. | Each of the seven bars averages the delays of user messages dated that day. | medium, not executed | Analytics.WeekOldReplyCountsToday | Analytics.DatedIgnoresOtherDates |

The corrected chart is `Analytics.DatedResponseTimeData`, which keys the samples by date.
`Analytics.DatedIgnoresOtherDates` proves that samples of other dates, at any position, never affect a day's bar.
`Analytics.ChartsAgreeWithinWeek` proves that the two charts coincide when all samples fall
within the week shown.

`Analytics.CalculateAnalytics` keeps the as-written weekday-keyed chart, because it models the
code as it stands.

## Left out

- The network client (src/services/ai.ts) and the simulated reply `simulateOpenAIResponse`, with its timer and `Math.random`. The reply or its failure is a parameter of `SendMessage`.
- Interleavings of the awaited reply with other events. `SendMessage` runs from start to end as one step.
  - In the source, the new conversation's `messages` reads the session as it was when the send began. The model keeps that reading: the new entry holds the session before the send, followed by the user and bot messages.
- `exportChat` (Blob downloads, jsPDF and locale formatting). Its early return on an empty session is not modelled either.
- Speech input, the mock authentication, the dashboard component's mock data and all rendering and toasts.
- The clock and fresh ids. They are parameters, and ids are not assumed to be unique.
  - `ChatContext.ChatProvider.SaveExchange` takes a single clock reading for both createdAt and updatedAt of a new conversation. The source reads the clock twice, and the two readings may differ by a millisecond.
- `ChatContext.ChatProvider.SendMessage` takes the "empty string is no current chat" truthiness of `if (currentChatId)` into account. It does not state that updatedAt never decreases, because the clock is a parameter with no monotonicity.
- Time zones, daylight saving and locales. Dates are UTC day numbers and weekday labels are the UTC weekday.
  - The source computes a message's label in the browser's local zone.
  - The source labels a chart date by parsing `YYYY-MM-DD` as UTC midnight and then formatting it locally, which west of UTC names the previous day.
- The normalisation of timestamps with `Number(...)` (src/lib/analytics.ts:19-30). Timestamps are already integers here, so it is the identity, and the inputs are immutable values that are never changed.
- The RangeError that `toISOString()` throws for a timestamp more than 8.64e15 ms from 1970 (src/lib/analytics.ts:57, 64). Timestamps are unbounded integers here, so `Analytics.CalculateAnalytics` always returns a result where the source would throw.
- Floating-point arithmetic. Averages are exact reals and `Math.round` is integer rounding, with halves going up.
- The optional `isStreaming` field of a message, which none of these operations reads.
- Strings are sequences of characters. JavaScript's UTF-16 lengths (which count a character outside the basic plane twice in the 30-character title) are not modelled.
