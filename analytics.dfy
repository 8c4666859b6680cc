/**
 * `calculateAnalytics(chatHistories, currentMessages)` (src/lib/analytics.ts): totals,
 * the chat count and its rounded average, seven days of message counts, the user and
 * assistant message counts, and the response times per day and overall. The current
 * time is a parameter; the calendar is the one of module Calendar.
 */
module Analytics {
  import opened Wrappers
  import ChatTypes
  import opened Calendar
  import opened ChatMessageTypes
  import opened ResponseTimes

  type Chat = ChatTypes.ChatHistory<ChatMessage>

  datatype DayCount = DayCount(date: string, count: nat)
  datatype TypeCount = TypeCount(name: string, value: nat, color: string)
  datatype DayResponse = DayResponse(date: string, responseTime: real)

  datatype AnalyticsData = AnalyticsData(
    totalMessages: nat,
    totalChats: nat,
    averageMessagesPerChat: nat,
    messagesPerDay: seq<DayCount>,
    messageTypeData: seq<TypeCount>,
    responseTimeData: seq<DayResponse>,
    averageResponseTime: real)

  /** `chats.flatMap(chat => chat.messages)`. */
  function Flatten(chats: seq<Chat>): seq<ChatMessage> {
    if chats == [] then [] else chats[0].messages + Flatten(chats[1..])
  }

  /** Every message, the saved conversations' first, then the current session's. */
  function AllMessages(chats: seq<Chat>, current: seq<ChatMessage>): seq<ChatMessage> {
    Flatten(chats) + current
  }

  /** `chats.reduce((sum, chat) => sum + chat.messages.length, 0)`. */
  function MessageCount(chats: seq<Chat>): nat {
    if chats == [] then 0 else |chats[0].messages| + MessageCount(chats[1..])
  }

  lemma {:induction false} MessageCountIsFlattened(chats: seq<Chat>)
    ensures MessageCount(chats) == |Flatten(chats)|
  {
    if chats != [] {
      MessageCountIsFlattened(chats[1..]);
    }
  }

  function TotalMessages(chats: seq<Chat>, current: seq<ChatMessage>): nat {
    MessageCount(chats) + |current|
  }

  /** The total is the number of messages over all conversations and the current session. */
  lemma {:induction false} TotalIsAllMessages(chats: seq<Chat>, current: seq<ChatMessage>)
    ensures TotalMessages(chats, current) == |AllMessages(chats, current)|
  {
    MessageCountIsFlattened(chats);
  }

  /** The saved conversations, plus one for a non-empty current session. */
  function TotalChats(chats: seq<Chat>, current: seq<ChatMessage>): nat {
    |chats| + (if |current| > 0 then 1 else 0)
  }

  /** `r` is `a / b` rounded to the nearest integer, halves upwards (`Math.round`). */
  predicate IsRoundedRatio(r: int, a: int, b: int) {
    2 * r * b <= 2 * a + b < 2 * r * b + 2 * b
  }

  /** `Math.round(a / b)` for a non-negative `a` and a positive `b`. */
  function RoundedRatio(a: nat, b: nat): (r: nat)
    requires b > 0
    ensures IsRoundedRatio(r, a, b)
  {
    var q := (2 * a + b) / (2 * b);
    assert 2 * a + b == q * (2 * b) + (2 * a + b) % (2 * b);
    q
  }

  /** `totalChats > 0 ? Math.round(totalMessages / totalChats) : 0`. */
  function AverageMessagesPerChat(total: nat, chats: nat): nat {
    if chats > 0 then RoundedRatio(total, chats) else 0
  }

  /** The last seven dates, oldest first: `i` days before `now` for `i` = 6 down to 0. */
  function Last7Days(now: int): seq<int> {
    seq(7, k requires 0 <= k < 7 => DayKey(now - (6 - k) * MsPerDay))
  }

  /** The seven dates are consecutive and end today. */
  lemma {:induction false} Last7DaysConsecutive(now: int)
    ensures |Last7Days(now)| == 7
    ensures forall k :: 0 <= k < 7 ==> Last7Days(now)[k] == DayKey(now) - 6 + k
  {
    forall k | 0 <= k < 7 ensures Last7Days(now)[k] == DayKey(now) - 6 + k {
      Last7DaysAt(now, k);
    }
  }

  lemma {:induction false} Last7DaysAt(now: int, k: int)
    requires 0 <= k < 7
    ensures Last7Days(now)[k] == DayKey(now) - 6 + k
  {
    var back := 6 - k;
    var ts := now - back * MsPerDay;
    assert Last7Days(now)[k] == DayKey(ts);
    DayKeyShift(now, back);
    assert DayKey(ts) == DayKey(now) - back;
  }

  /** The number of messages dated `day`. */
  function CountOnDay(msgs: seq<ChatMessage>, day: int): nat {
    if msgs == [] then 0
    else (if DayKey(msgs[0].timestamp) == day then 1 else 0) + CountOnDay(msgs[1..], day)
  }

  /** The per-conversation counts of `day`, summed. */
  function ChatsCountOnDay(chats: seq<Chat>, day: int): nat {
    if chats == [] then 0 else CountOnDay(chats[0].messages, day) + ChatsCountOnDay(chats[1..], day)
  }

  lemma {:induction false} CountOnDayAppend(a: seq<ChatMessage>, b: seq<ChatMessage>, day: int)
    ensures CountOnDay(a + b, day) == CountOnDay(a, day) + CountOnDay(b, day)
  {
    if a != [] {
      assert (a + b)[1..] == a[1..] + b;
      CountOnDayAppend(a[1..], b, day);
    } else {
      assert a + b == b;
    }
  }

  /** A day's count over the conversations and the session is its count over all messages. */
  lemma {:induction false} DayCountIsAllMessages(chats: seq<Chat>, current: seq<ChatMessage>, day: int)
    ensures ChatsCountOnDay(chats, day) + CountOnDay(current, day) == CountOnDay(AllMessages(chats, current), day)
  {
    if chats != [] {
      DayCountIsAllMessages(chats[1..], [], day);
      CountOnDayAppend(chats[0].messages, Flatten(chats[1..]), day);
      assert Flatten(chats[1..]) + [] == Flatten(chats[1..]);
    }
    CountOnDayAppend(Flatten(chats), current, day);
  }

  /** `last7Days.map(date => ({ date: label, count }))`. */
  function MessagesPerDay(chats: seq<Chat>, current: seq<ChatMessage>, days: seq<int>): seq<DayCount> {
    seq(|days|, k requires 0 <= k < |days| =>
      DayCount(WeekdayLabel(days[k]), ChatsCountOnDay(chats, days[k]) + CountOnDay(current, days[k])))
  }

  /** The sum of the daily counts of a chart. */
  function TotalCount(counts: seq<DayCount>): nat {
    if counts == [] then 0 else counts[0].count + TotalCount(counts[1..])
  }

  /** The number of messages dated on one of `days`. */
  function CountInDays(msgs: seq<ChatMessage>, days: seq<int>): (n: nat)
    ensures n <= |msgs|
  {
    if msgs == [] then 0
    else (if DayKey(msgs[0].timestamp) in days then 1 else 0) + CountInDays(msgs[1..], days)
  }

  /** The sum over `days` of each day's count. */
  function SumCounts(msgs: seq<ChatMessage>, days: seq<int>): nat {
    if days == [] then 0 else CountOnDay(msgs, days[0]) + SumCounts(msgs, days[1..])
  }

  lemma {:induction false} CountInDaysCons(msgs: seq<ChatMessage>, d: int, days: seq<int>)
    requires d !in days
    ensures CountInDays(msgs, [d] + days) == CountOnDay(msgs, d) + CountInDays(msgs, days)
  {
    if msgs != [] {
      CountInDaysCons(msgs[1..], d, days);
    }
  }

  /** Over distinct days, the daily counts add up to the number of messages dated on them. */
  lemma {:induction false} SumCountsDistinct(msgs: seq<ChatMessage>, days: seq<int>)
    requires forall i, j :: 0 <= i < j < |days| ==> days[i] != days[j]
    ensures SumCounts(msgs, days) == CountInDays(msgs, days)
  {
    if days == [] {
      CountInDaysEmpty(msgs);
    } else {
      SumCountsDistinct(msgs, days[1..]);
      assert days == [days[0]] + days[1..];
      CountInDaysCons(msgs, days[0], days[1..]);
    }
  }

  lemma {:induction false} CountInDaysEmpty(msgs: seq<ChatMessage>)
    ensures CountInDays(msgs, []) == 0
  {
    if msgs != [] {
      CountInDaysEmpty(msgs[1..]);
    }
  }

  lemma {:induction false} TotalCountOfChart(chats: seq<Chat>, current: seq<ChatMessage>, days: seq<int>)
    ensures TotalCount(MessagesPerDay(chats, current, days)) == SumCounts(AllMessages(chats, current), days)
    decreases |days|
  {
    if days != [] {
      TotalCountOfChart(chats, current, days[1..]);
      DayCountIsAllMessages(chats, current, days[0]);
      assert MessagesPerDay(chats, current, days)[1..] == MessagesPerDay(chats, current, days[1..]);
    }
  }

  /**
   * The seven daily counts add up to the number of messages dated within the last seven
   * days, which is at most the total.
   */
  lemma {:induction false} DailyCountsWithinTotal(chats: seq<Chat>, current: seq<ChatMessage>, now: int)
    ensures TotalCount(MessagesPerDay(chats, current, Last7Days(now)))
         == CountInDays(AllMessages(chats, current), Last7Days(now))
         <= TotalMessages(chats, current)
  {
    Last7DaysConsecutive(now);
    TotalCountOfChart(chats, current, Last7Days(now));
    SumCountsDistinct(AllMessages(chats, current), Last7Days(now));
    TotalIsAllMessages(chats, current);
  }

  /** `msgs.filter(msg => msg.role === role).length`. */
  function CountRole(msgs: seq<ChatMessage>, role: Role): nat {
    if msgs == [] then 0 else (if msgs[0].role == role then 1 else 0) + CountRole(msgs[1..], role)
  }

  /**
   * User, assistant and system messages partition the messages, so the user and
   * assistant counts add up to the total exactly when there is no system message.
   */
  lemma {:induction false} RoleCountsPartition(msgs: seq<ChatMessage>)
    ensures CountRole(msgs, User) + CountRole(msgs, Assistant) + CountRole(msgs, System) == |msgs|
    ensures CountRole(msgs, User) + CountRole(msgs, Assistant) == |msgs|
        <==> forall i :: 0 <= i < |msgs| ==> msgs[i].role != System
  {
    if msgs != [] {
      RoleCountsPartition(msgs[1..]);
      assert forall i :: 1 <= i < |msgs| ==> msgs[i] == msgs[1..][i - 1];
    }
  }

  /** The two slices of the message-type chart. */
  function MessageTypeData(all: seq<ChatMessage>): seq<TypeCount> {
    [ TypeCount("User Messages", CountRole(all, User), "hsl(var(--primary))"),
      TypeCount("AI Responses", CountRole(all, Assistant), "hsl(var(--muted-foreground))") ]
  }

  /** `last7Days.map(...)`: each day's label and the mean of the delays filed under that label. */
  function ResponseTimeData(m: Buckets, days: seq<int>): seq<DayResponse> {
    seq(|days|, k requires 0 <= k < |days| =>
      DayResponse(WeekdayLabel(days[k]), Mean(Get(m, WeekdayLabel(days[k])).GetOr([]))))
  }

  /** Day `k` of the chart is the `k`-th of the last seven dates, with its count over all messages. */
  lemma {:induction false} MessagesPerDayAt(chats: seq<Chat>, current: seq<ChatMessage>, now: int)
    ensures var chart := MessagesPerDay(chats, current, Last7Days(now));
      && |chart| == 7
      && forall k :: 0 <= k < 7 ==>
           chart[k] == DayCount(WeekdayLabel(DayKey(now) - 6 + k), CountOnDay(AllMessages(chats, current), DayKey(now) - 6 + k))
  {
    var days := Last7Days(now);
    var chart := MessagesPerDay(chats, current, days);
    Last7DaysConsecutive(now);
    forall k | 0 <= k < 7
      ensures chart[k] == DayCount(WeekdayLabel(DayKey(now) - 6 + k), CountOnDay(AllMessages(chats, current), DayKey(now) - 6 + k))
    {
      var d := days[k];
      assert chart[k] == DayCount(WeekdayLabel(d), ChatsCountOnDay(chats, d) + CountOnDay(current, d));
      DayCountIsAllMessages(chats, current, d);
    }
  }

  /**
   * Day `k` of the response-time chart reports the mean of the delays filed under the
   * weekday label of the `k`-th date, 0 when there are none.
   */
  lemma {:induction false} ResponseTimeDataAt(samples: seq<Sample>, now: int)
    ensures var chart := ResponseTimeData(Collect(samples), Last7Days(now));
      && |chart| == 7
      && forall k :: 0 <= k < 7 ==>
           var name := WeekdayLabel(DayKey(now) - 6 + k);
           chart[k] == DayResponse(name, Mean(LabelDeltas(samples, name)))
  {
    var days := Last7Days(now);
    var m := Collect(samples);
    var chart := ResponseTimeData(m, days);
    Last7DaysConsecutive(now);
    forall k | 0 <= k < 7
      ensures chart[k] == DayResponse(WeekdayLabel(DayKey(now) - 6 + k), Mean(LabelDeltas(samples, WeekdayLabel(DayKey(now) - 6 + k))))
    {
      var name := WeekdayLabel(days[k]);
      assert chart[k] == DayResponse(name, Mean(Get(m, name).GetOr([])));
      CollectGet(samples, name);
    }
  }

  /**
   * Pairing runs over the concatenation of all conversations: a conversation ending in
   * an unanswered user message and the next one starting with an assistant message give
   * a sample across the boundary.
   */
  lemma {:induction false} PairStraddlesChats(t: int, u: int)
    ensures var chats := [ ChatTypes.ChatHistory("1", "first", [ChatMessage("a", "", User, t)], t, t),
                           ChatTypes.ChatHistory("2", "second", [ChatMessage("b", "", Assistant, u)], u, u) ];
      Deltas(Samples(AllMessages(chats, []))) == [u - t]
  {
    var chats := [ ChatTypes.ChatHistory("1", "first", [ChatMessage("a", "", User, t)], t, t),
                   ChatTypes.ChatHistory("2", "second", [ChatMessage("b", "", Assistant, u)], u, u) ];
    var all := [ChatMessage("a", "", User, t), ChatMessage("b", "", Assistant, u)];
    assert Flatten(chats[1..][1..]) == [];
    assert Flatten(chats[1..]) == [ChatMessage("b", "", Assistant, u)] + [];
    assert Flatten(chats) == [ChatMessage("a", "", User, t)] + Flatten(chats[1..]);
    assert AllMessages(chats, []) == all;
    SamplesBeforeStep(all, 0);
    SamplesBeforeStep(all, 1);
    assert Samples(all) == [Sample(DayKey(t), u - t)];
    assert Deltas([Sample(DayKey(t), u - t)]) == [] + [u - t];
  }

  /**
   * `calculateAnalytics`. Timestamps are already numbers here, so the normalising copy
   * of the inputs is the inputs themselves.
   */
  method CalculateAnalytics(chatHistories: seq<Chat>, currentMessages: seq<ChatMessage>, now: int)
    returns (r: AnalyticsData)
    ensures var all := AllMessages(chatHistories, currentMessages);
      && r.totalMessages == |all|
      && r.totalChats == |chatHistories| + (if |currentMessages| > 0 then 1 else 0)
      && (r.totalChats == 0 ==> r.averageMessagesPerChat == 0)
      && (r.totalChats > 0 ==> IsRoundedRatio(r.averageMessagesPerChat, r.totalMessages, r.totalChats))
    ensures var all := AllMessages(chatHistories, currentMessages);
      && |r.messagesPerDay| == 7
      && forall k :: 0 <= k < 7 ==>
           r.messagesPerDay[k] == DayCount(WeekdayLabel(DayKey(now) - 6 + k), CountOnDay(all, DayKey(now) - 6 + k))
    ensures var all := AllMessages(chatHistories, currentMessages);
      r.messageTypeData == [ TypeCount("User Messages", CountRole(all, User), "hsl(var(--primary))"),
                             TypeCount("AI Responses", CountRole(all, Assistant), "hsl(var(--muted-foreground))") ]
    ensures var samples := Samples(AllMessages(chatHistories, currentMessages));
      && |r.responseTimeData| == 7
      && (forall k :: 0 <= k < 7 ==>
            var name := WeekdayLabel(DayKey(now) - 6 + k);
            r.responseTimeData[k] == DayResponse(name, Mean(LabelDeltas(samples, name))))
      && r.averageResponseTime == Mean(Deltas(samples))
  {
    var totalMessages := TotalMessages(chatHistories, currentMessages);
    var totalChats := TotalChats(chatHistories, currentMessages);
    var averageMessagesPerChat := AverageMessagesPerChat(totalMessages, totalChats);
    var last7Days := Last7Days(now);
    var messagesPerDay := MessagesPerDay(chatHistories, currentMessages, last7Days);
    var allMessages := AllMessages(chatHistories, currentMessages);
    var messageTypeData := MessageTypeData(allMessages);
    var responseTimes := CollectResponseTimes(allMessages);
    var responseTimeData := ResponseTimeData(responseTimes, last7Days);
    var averageResponseTime := Mean(Flat(responseTimes));

    TotalIsAllMessages(chatHistories, currentMessages);
    MessagesPerDayAt(chatHistories, currentMessages, now);
    ResponseTimeDataAt(Samples(allMessages), now);
    CollectMean(Samples(allMessages));

    r := AnalyticsData(totalMessages, totalChats, averageMessagesPerChat, messagesPerDay,
                       messageTypeData, responseTimeData, averageResponseTime);
  }

  // Response times are filed by weekday label, not by date: samples from different
  // weeks that share a weekday name land in the same bucket. The corrected chart below
  // files each sample by its date.

  /**
   * As written: a user message answered a week before `now` makes today's bar of the
   * response-time chart report its delay, although nothing was answered today; the
   * date-keyed chart reports 0.
   */
  lemma {:induction false} WeekOldReplyCountsToday(now: int)
    ensures var all := [ ChatMessage("1", "question", User, now - 7 * MsPerDay),
                         ChatMessage("2", "answer", Assistant, now - 7 * MsPerDay + 1000) ];
      && Mean(LabelDeltas(Samples(all), WeekdayLabel(DayKey(now)))) == 1000.0
      && Mean(DayDeltas(Samples(all), DayKey(now))) == 0.0
  {
    var all := [ ChatMessage("1", "question", User, now - 7 * MsPerDay),
                 ChatMessage("2", "answer", Assistant, now - 7 * MsPerDay + 1000) ];
    var x := Sample(DayKey(now - 7 * MsPerDay), 1000);
    assert PairAt(all, 0) && !PairAt(all, 1);
    assert SamplesBefore(all, 1) == [] + [x];
    assert Samples(all) == SamplesBefore(all, 1) + [];
    assert Samples(all) == [x];
    DayKeyShift(now, 7);
    LabelRepeatsWeekly(DayKey(now) - 7, 1);
    assert WeekdayLabel(x.day) == WeekdayLabel(DayKey(now));
    assert LabelDeltas([x], WeekdayLabel(DayKey(now))) == [] + [1000];
    assert Sum([1000]) == 1000 + Sum([]);
    assert Mean([1000]) == 1000.0;
    assert LabelDeltas(Samples(all), WeekdayLabel(DayKey(now))) == [1000];
    assert DayDeltas([x], DayKey(now)) == [] + [];
  }

  /** The delays of the samples dated `day`, in order. */
  function DayDeltas(samples: seq<Sample>, day: int): seq<int> {
    if samples == [] then []
    else
      var s := samples[|samples| - 1];
      DayDeltas(samples[..|samples| - 1], day) + (if s.day == day then [s.delta] else [])
  }

  /** Corrected chart: each of the dates reports the mean delay of the user messages of that date. */
  function DatedResponseTimeData(samples: seq<Sample>, days: seq<int>): seq<DayResponse> {
    seq(|days|, k requires 0 <= k < |days| => DayResponse(WeekdayLabel(days[k]), Mean(DayDeltas(samples, days[k]))))
  }

  /** A day's delays over two runs of samples are those of the first run, then of the second. */
  lemma {:induction false} DayDeltasAppend(x: seq<Sample>, y: seq<Sample>, day: int)
    ensures DayDeltas(x + y, day) == DayDeltas(x, day) + DayDeltas(y, day)
    decreases |y|
  {
    if y == [] {
      assert x + y == x;
    } else {
      var init := y[..|y| - 1];
      DayDeltasAppend(x, init, day);
      assert (x + y)[..|x + y| - 1] == x + init;
    }
  }

  /** Samples all dated on other days contribute no delay to `day`. */
  lemma {:induction false} DayDeltasOtherDates(extra: seq<Sample>, day: int)
    requires forall i :: 0 <= i < |extra| ==> extra[i].day != day
    ensures DayDeltas(extra, day) == []
  {
    if extra != [] {
      DayDeltasOtherDates(extra[..|extra| - 1], day);
    }
  }

  /**
   * In the corrected chart, samples of other dates never change a day's value, wherever
   * they stand among the samples.
   */
  lemma {:induction false} DatedIgnoresOtherDates(before: seq<Sample>, extra: seq<Sample>, after: seq<Sample>, day: int)
    requires forall i :: 0 <= i < |extra| ==> extra[i].day != day
    ensures DayDeltas(before + extra + after, day) == DayDeltas(before + after, day)
    ensures DatedResponseTimeData(before + extra + after, [day]) == DatedResponseTimeData(before + after, [day])
  {
    DayDeltasAppend(before + extra, after, day);
    DayDeltasAppend(before, extra, day);
    DayDeltasAppend(before, after, day);
    DayDeltasOtherDates(extra, day);
    assert DayDeltas(before, day) + [] == DayDeltas(before, day);
  }

  /**
   * As long as every answered user message is dated within the seven days shown, the
   * weekday-keyed buckets hold the same delays as the date-keyed ones: the two charts
   * differ only through older messages.
   */
  lemma {:induction false} WeekdayBucketsAgreeWithinWeek(samples: seq<Sample>, now: int, k: nat)
    requires k < 7
    requires forall i :: 0 <= i < |samples| ==> DayKey(now) - 6 <= samples[i].day <= DayKey(now)
    ensures LabelDeltas(samples, WeekdayLabel(DayKey(now) - 6 + k)) == DayDeltas(samples, DayKey(now) - 6 + k)
  {
    if samples != [] {
      var init, s := samples[..|samples| - 1], samples[|samples| - 1];
      WeekdayBucketsAgreeWithinWeek(init, now, k);
      var first, d := DayKey(now) - 6, DayKey(now) - 6 + k;
      var j := s.day - first;
      if j < k {
        WeekLabelsDistinct(first, j, k);
      } else if j > k {
        WeekLabelsDistinct(first, k, j);
      }
      assert (WeekdayLabel(s.day) == WeekdayLabel(d)) == (s.day == d);
    }
  }

  /**
   * When every answered user message falls within the seven days shown, the chart as
   * written and the date-keyed chart are the same seven bars.
   */
  lemma {:induction false} ChartsAgreeWithinWeek(samples: seq<Sample>, now: int)
    requires forall i :: 0 <= i < |samples| ==> DayKey(now) - 6 <= samples[i].day <= DayKey(now)
    ensures ResponseTimeData(Collect(samples), Last7Days(now)) == DatedResponseTimeData(samples, Last7Days(now))
  {
    var days := Last7Days(now);
    var written, dated := ResponseTimeData(Collect(samples), days), DatedResponseTimeData(samples, days);
    ResponseTimeDataAt(samples, now);
    Last7DaysConsecutive(now);
    assert |written| == |dated| == 7;
    forall k | 0 <= k < 7 ensures written[k] == dated[k] {
      ChartsAgreeAt(samples, now, days, k);
    }
  }

  /**
   * Bar `k` of the two charts agrees when its date is `k` days into the week that ends
   * at `now`, and every sample falls within that week.
   */
  lemma {:induction false} ChartsAgreeAt(samples: seq<Sample>, now: int, days: seq<int>, k: nat)
    requires k < 7 && k < |days| && days[k] == DayKey(now) - 6 + k
    requires forall i :: 0 <= i < |samples| ==> DayKey(now) - 6 <= samples[i].day <= DayKey(now)
    ensures ResponseTimeData(Collect(samples), days)[k] == DatedResponseTimeData(samples, days)[k]
  {
    WrittenBarAt(samples, days, k);
    WeekdayBucketsAgreeWithinWeek(samples, now, k);
  }

  /** Bar `k` of the chart as written is the mean of every delay filed under that date's weekday name. */
  lemma {:induction false} WrittenBarAt(samples: seq<Sample>, days: seq<int>, k: nat)
    requires k < |days|
    ensures ResponseTimeData(Collect(samples), days)[k]
      == DayResponse(WeekdayLabel(days[k]), Mean(LabelDeltas(samples, WeekdayLabel(days[k]))))
  {
    CollectGet(samples, WeekdayLabel(days[k]));
  }
}
