/**
 * Response-time collection (src/lib/analytics.ts): every user message immediately
 * followed by an assistant message gives one sample, the delay between the two,
 * filed under the weekday label of the user message's date in a
 * `Map<string, number[]>`. A JavaScript `Map` keeps its keys in insertion order, so it
 * is modelled as a list of buckets in that order.
 */
module ResponseTimes {
  import opened Wrappers
  import opened Calendar
  import opened ChatMessageTypes

  /** One response-time sample: the date of the user message and the delay of the reply. */
  datatype Sample = Sample(day: int, delta: int)

  /** One key of the map and the array it holds. */
  datatype Bucket = Bucket(key: string, times: seq<int>)

  type Buckets = seq<Bucket>

  predicate UniqueKeys(m: Buckets) {
    forall i, j :: 0 <= i < j < |m| ==> m[i].key != m[j].key
  }

  /** `responseTimes.get(key)`. */
  function Get(m: Buckets, key: string): Option<seq<int>> {
    if m == [] then None
    else if m[0].key == key then Some(m[0].times)
    else Get(m[1..], key)
  }

  /** `Array.from(responseTimes.values()).flat()`: all arrays, in key insertion order. */
  function Flat(m: Buckets): seq<int> {
    if m == [] then [] else m[0].times + Flat(m[1..])
  }

  /** The keys of the map. */
  function Keys(m: Buckets): set<string> {
    set i | 0 <= i < |m| :: m[i].key
  }

  /**
   * `if (!has(key)) set(key, []); get(key).push(t)`: `t` goes at the end of `key`'s
   * array, a new key going last (PushKeys, PushGet, PushFlat).
   */
  function Push(m: Buckets, key: string, t: int): Buckets {
    if m == [] then [Bucket(key, [t])]
    else if m[0].key == key then [m[0].(times := m[0].times + [t])] + m[1..]
    else [m[0]] + Push(m[1..], key, t)
  }

  /** Pushing adds `key` to the keys, and keeps keys unique. */
  lemma {:induction false} PushKeys(m: Buckets, key: string, t: int)
    ensures Keys(Push(m, key, t)) == Keys(m) + {key}
    ensures UniqueKeys(m) ==> UniqueKeys(Push(m, key, t))
  {
    var r := Push(m, key, t);
    if m == [] {
      assert r[0].key == key;
    } else {
      KeysCons(m);
      KeysCons(r);
      if m[0].key == key {
        assert r[1..] == m[1..];
      } else {
        PushKeys(m[1..], key, t);
        assert r[1..] == Push(m[1..], key, t);
      }
    }
  }

  /** Pushing appends `t` to `key`'s array (a new one for a new key) and changes no other array. */
  lemma {:induction false} PushGet(m: Buckets, key: string, t: int, k: string)
    ensures Get(Push(m, key, t), k) == if k == key then Some(Get(m, k).GetOr([]) + [t]) else Get(m, k)
  {
    var r := Push(m, key, t);
    if m == [] {
      assert [] + [t] == [t];
    } else if m[0].key != key {
      PushGet(m[1..], key, t, k);
      assert r[1..] == Push(m[1..], key, t);
    } else {
      assert r[1..] == m[1..];
    }
  }

  /** Pushing adds exactly `t` to the values of the map. */
  lemma {:induction false} PushFlat(m: Buckets, key: string, t: int)
    ensures multiset(Flat(Push(m, key, t))) == multiset(Flat(m)) + multiset{t}
  {
    var r := Push(m, key, t);
    if m != [] && m[0].key != key {
      PushFlat(m[1..], key, t);
      assert r[1..] == Push(m[1..], key, t);
    } else if m != [] {
      assert r[1..] == m[1..];
    }
  }

  lemma {:induction false} KeysCons(m: Buckets)
    requires m != []
    ensures Keys(m) == {m[0].key} + Keys(m[1..])
    ensures UniqueKeys(m) <==> UniqueKeys(m[1..]) && m[0].key !in Keys(m[1..])
  {
    forall x | x in Keys(m[1..]) ensures x in Keys(m) {
      var i :| 0 <= i < |m[1..]| && m[1..][i].key == x;
      assert m[i + 1].key == x;
    }
    if UniqueKeys(m[1..]) && m[0].key !in Keys(m[1..]) {
      forall i, j | 0 <= i < j < |m| ensures m[i].key != m[j].key {
        if i == 0 {
          assert m[j].key == m[1..][j - 1].key;
        } else {
          assert m[i].key == m[1..][i - 1].key && m[j].key == m[1..][j - 1].key;
        }
      }
    }
    if UniqueKeys(m) {
      forall x | x in Keys(m[1..]) ensures x != m[0].key {
        var i :| 0 <= i < |m[1..]| && m[1..][i].key == x;
        assert m[i + 1].key == x;
      }
    }
  }

  /** The sum of an array (`reduce((sum, t) => sum + t, 0)`). */
  function Sum(ts: seq<int>): int {
    if ts == [] then 0 else ts[0] + Sum(ts[1..])
  }

  /** The sum does not depend on the order of the values. */
  lemma {:induction false} SumOfPermutation(a: seq<int>, b: seq<int>)
    requires multiset(a) == multiset(b)
    ensures Sum(a) == Sum(b)
    decreases |a|
  {
    if a != [] {
      var x := a[0];
      assert x in multiset(b);
      var i :| 0 <= i < |b| && b[i] == x;
      var b' := b[..i] + b[i + 1..];
      MultisetRemove(b, i);
      assert a == [x] + a[1..];
      assert multiset(a[1..]) + multiset{x} == multiset(b') + multiset{x};
      assert multiset(a[1..]) == multiset(b') by {
        forall y ensures multiset(a[1..])[y] == multiset(b')[y] {
          assert (multiset(a[1..]) + multiset{x})[y] == (multiset(b') + multiset{x})[y];
        }
      }
      SumOfPermutation(a[1..], b');
      SumRemove(b, i);
    } else {
      assert |b| == |multiset(b)| == 0;
    }
  }

  lemma {:induction false} MultisetRemove(b: seq<int>, i: nat)
    requires i < |b|
    ensures multiset(b) == multiset(b[..i] + b[i + 1..]) + multiset{b[i]}
  {
    assert b == b[..i] + [b[i]] + b[i + 1..];
  }

  lemma {:induction false} SumRemove(b: seq<int>, i: nat)
    requires i < |b|
    ensures Sum(b) == b[i] + Sum(b[..i] + b[i + 1..])
  {
    if i > 0 {
      SumRemove(b[1..], i - 1);
      assert b[1..][..i - 1] + b[1..][i..] == (b[..i] + b[i + 1..])[1..];
    } else {
      assert b[..0] + b[1..] == b[1..];
    }
  }

  /** `sum / count`, and 0 for no values. */
  function Mean(ts: seq<int>): real {
    if |ts| > 0 then (Sum(ts) as real) / (|ts| as real) else 0.0
  }

  /** A user message at `i` answered by an assistant message at `i + 1`. */
  predicate PairAt(all: seq<ChatMessage>, i: int) {
    0 <= i && i + 1 < |all| && all[i].role == User && all[i + 1].role == Assistant
  }

  function SampleAt(all: seq<ChatMessage>, i: int): Sample
    requires PairAt(all, i)
  {
    Sample(DayKey(all[i].timestamp), all[i + 1].timestamp - all[i].timestamp)
  }

  /** The indices below `n` of answered user messages, ascending. */
  function PairIndices(all: seq<ChatMessage>, n: nat): seq<nat>
    requires n <= |all|
  {
    if n == 0 then [] else PairIndices(all, n - 1) + (if PairAt(all, n - 1) then [n - 1] else [])
  }

  /** The samples of the answered user messages below `n`, in message order. */
  function SamplesBefore(all: seq<ChatMessage>, n: nat): seq<Sample>
    requires n <= |all|
  {
    if n == 0 then [] else SamplesBefore(all, n - 1) + (if PairAt(all, n - 1) then [SampleAt(all, n - 1)] else [])
  }

  /**
   * The indices below `n` of answered user messages: exactly the indices `i` with a user
   * message at `i` and an assistant message at `i + 1`, ascending.
   */
  lemma {:induction false} PairIndicesExact(all: seq<ChatMessage>, n: nat)
    requires n <= |all|
    ensures forall i :: i in PairIndices(all, n) <==> i < n && PairAt(all, i)
    ensures forall a, b :: 0 <= a < b < |PairIndices(all, n)| ==> PairIndices(all, n)[a] < PairIndices(all, n)[b]
  {
    if n > 0 {
      PairIndicesExact(all, n - 1);
      var before := PairIndices(all, n - 1);
      assert forall a :: 0 <= a < |before| ==> before[a] in before;
      assert forall a :: 0 <= a < |before| ==> before[a] < n - 1;
    }
  }

  /**
   * The samples below `n` are indexed by the answered user messages below `n`, each
   * giving `next.timestamp - msg.timestamp` dated by the user message.
   */
  lemma {:induction false} SamplesIndexed(all: seq<ChatMessage>, n: nat)
    requires n <= |all|
    ensures |SamplesBefore(all, n)| == |PairIndices(all, n)|
    ensures forall k :: 0 <= k < |SamplesBefore(all, n)| ==>
      PairAt(all, PairIndices(all, n)[k]) && SamplesBefore(all, n)[k] == SampleAt(all, PairIndices(all, n)[k])
  {
    if n > 0 {
      SamplesIndexed(all, n - 1);
      PairIndicesExact(all, n);
    }
  }

  /**
   * All samples: exactly one per index `i` holding a user message directly followed by
   * an assistant message, in index order, with value `next.timestamp - msg.timestamp`.
   */
  function Samples(all: seq<ChatMessage>): seq<Sample> {
    SamplesBefore(all, |all|)
  }

  function Deltas(samples: seq<Sample>): (r: seq<int>)
    ensures |r| == |samples| && forall k :: 0 <= k < |r| ==> r[k] == samples[k].delta
  {
    if samples == [] then [] else Deltas(samples[..|samples| - 1]) + [samples[|samples| - 1].delta]
  }

  /** The delays of the samples whose date carries weekday label `key`, in order. */
  function LabelDeltas(samples: seq<Sample>, key: string): seq<int> {
    if samples == [] then []
    else
      var s := samples[|samples| - 1];
      LabelDeltas(samples[..|samples| - 1], key) + (if WeekdayLabel(s.day) == key then [s.delta] else [])
  }

  /** The map the loop builds from a list of samples, pushed in order. */
  function Collect(samples: seq<Sample>): (m: Buckets)
    ensures UniqueKeys(m)
  {
    if samples == [] then []
    else
      var s := samples[|samples| - 1];
      var init := Collect(samples[..|samples| - 1]);
      PushKeys(init, WeekdayLabel(s.day), s.delta);
      Push(init, WeekdayLabel(s.day), s.delta)
  }

  /**
   * Each key of the collected map holds exactly the delays filed under it, in order,
   * and a label under which nothing was filed is absent.
   */
  lemma {:induction false} CollectGet(samples: seq<Sample>, key: string)
    ensures Get(Collect(samples), key) == if LabelDeltas(samples, key) == [] then None else Some(LabelDeltas(samples, key))
  {
    if samples != [] {
      var init, s := samples[..|samples| - 1], samples[|samples| - 1];
      CollectGet(init, key);
      var m, l := Collect(init), LabelDeltas(init, key);
      PushGet(m, WeekdayLabel(s.day), s.delta, key);
      assert Collect(samples) == Push(m, WeekdayLabel(s.day), s.delta);
      assert Get(m, key).GetOr([]) == l;
      if WeekdayLabel(s.day) == key {
        assert LabelDeltas(samples, key) == l + [s.delta];
      } else {
        assert LabelDeltas(samples, key) == l + [] == l;
      }
    }
  }

  /** The collected arrays together hold every delay once: a permutation of all delays. */
  lemma {:induction false} CollectFlat(samples: seq<Sample>)
    ensures multiset(Flat(Collect(samples))) == multiset(Deltas(samples))
  {
    if samples != [] {
      var init, s := samples[..|samples| - 1], samples[|samples| - 1];
      CollectFlat(init);
      PushFlat(Collect(init), WeekdayLabel(s.day), s.delta);
      assert Deltas(samples) == Deltas(init) + [s.delta];
    }
  }

  /**
   * The mean over the flattened map is the mean over all samples, not a mean of the
   * per-label means.
   */
  lemma {:induction false} CollectMean(samples: seq<Sample>)
    ensures Mean(Flat(Collect(samples))) == Mean(Deltas(samples))
  {
    CollectFlat(samples);
    SumOfPermutation(Flat(Collect(samples)), Deltas(samples));
    assert |Flat(Collect(samples))| == |multiset(Flat(Collect(samples)))| == |Deltas(samples)|;
  }

  /**
   * The `forEach` over all messages: a user message with a next message that is an
   * assistant's pushes the delay under the weekday label of the user message's date.
   */
  method CollectResponseTimes(all: seq<ChatMessage>) returns (m: Buckets)
    ensures m == Collect(Samples(all))
  {
    m := [];
    var index := 0;
    ghost var done: seq<Sample> := [];
    while index < |all|
      invariant 0 <= index <= |all|
      invariant done == SamplesBefore(all, index)
      invariant m == Collect(done)
    {
      SamplesBeforeStep(all, index);
      var msg := all[index];
      if msg.role == User && index < |all| - 1 {
        var next := all[index + 1];
        if next.role == Assistant {
          var responseTime := next.timestamp - msg.timestamp;
          var date := WeekdayLabel(DayKey(msg.timestamp));
          CollectSnoc(done, Sample(DayKey(msg.timestamp), responseTime));
          m := Push(m, date, responseTime);
          done := done + [Sample(DayKey(msg.timestamp), responseTime)];
        }
      }
      index := index + 1;
    }
  }

  lemma {:induction false} SamplesBeforeStep(all: seq<ChatMessage>, n: nat)
    requires n < |all|
    ensures PairAt(all, n) ==>
      SamplesBefore(all, n + 1)
        == SamplesBefore(all, n) + [Sample(DayKey(all[n].timestamp), all[n + 1].timestamp - all[n].timestamp)]
    ensures !PairAt(all, n) ==> SamplesBefore(all, n + 1) == SamplesBefore(all, n)
  {
    assert SamplesBefore(all, n) + [] == SamplesBefore(all, n);
  }

  lemma {:induction false} CollectSnoc(samples: seq<Sample>, s: Sample)
    ensures Collect(samples + [s]) == Push(Collect(samples), WeekdayLabel(s.day), s.delta)
  {
    assert (samples + [s])[..|samples|] == samples;
  }

  /**
   * Pairing on a session of a user message answered after 500 ms, a user message left
   * unanswered, and a user message answered after 300 ms: exactly two samples, in order.
   */
  lemma {:induction false} PairingSkipsUnansweredMessage(t0: int, t1: int, t2: int)
    ensures var all := [ ChatMessage("a", "", User, t0), ChatMessage("b", "", Assistant, t0 + 500),
                         ChatMessage("c", "", User, t1),
                         ChatMessage("d", "", User, t2), ChatMessage("e", "", Assistant, t2 + 300) ];
      Deltas(Samples(all)) == [500, 300]
  {
    var all := [ ChatMessage("a", "", User, t0), ChatMessage("b", "", Assistant, t0 + 500),
                 ChatMessage("c", "", User, t1),
                 ChatMessage("d", "", User, t2), ChatMessage("e", "", Assistant, t2 + 300) ];
    var x, y := Sample(DayKey(t0), 500), Sample(DayKey(t2), 300);
    SamplesBeforeStep(all, 0);
    assert SamplesBefore(all, 1) == [x];
    SamplesBeforeStep(all, 1);
    SamplesBeforeStep(all, 2);
    SamplesBeforeStep(all, 3);
    assert SamplesBefore(all, 4) == [x] + [y];
    SamplesBeforeStep(all, 4);
    assert Samples(all) == [x, y];
    assert Deltas([x, y]) == Deltas([x]) + [y.delta];
    assert Deltas([x]) == [] + [x.delta];
  }
}
