/**
 * `TestMetrics` of `metrics.py`: append-only series of latencies, success /
 * failure / timeout counters, traffic records with running totals and peak
 * rates, speech-recognition accuracy results, the order statistics of
 * `get_stats` and the guarded ratios of `get_summary`. Each `record_*`
 * method is one atomic step (the lock only serialises them). Durations and
 * rates are exact reals; float rounding is not modelled.
 */
module Metrics {
  import opened Wrappers
  import Sorting
  import Text

  /** One entry of `audio_traffic_received` / `audio_traffic_sent`. */
  datatype TrafficRecord = TrafficRecord(clientId: string, bytes: int, duration: real, rateKbps: real)

  /** One entry of `stt_accuracy_results`. */
  datatype AccuracyRecord = AccuracyRecord(expected: string, actual: string, accurate: bool)

  /** One entry of `detect_errors`. */
  datatype DetectError = DetectError(deviceId: string, sessionId: string, reason: string, duration: real)

  // ---------------------------------------------------------------------
  // Frame intervals

  /** A frame interval above 65 ms counts as delayed. */
  predicate IsDelayed(interval: real) {
    interval > 65.0
  }

  /** The number of delayed intervals in the series. */
  function CountDelayed(intervals: seq<real>): (n: nat)
    ensures n <= |intervals|
  {
    if intervals == [] then 0
    else CountDelayed(intervals[..|intervals| - 1]) + (if IsDelayed(intervals[|intervals| - 1]) then 1 else 0)
  }

  lemma {:induction false} CountDelayedAppend(a: seq<real>, b: seq<real>)
    ensures CountDelayed(a + b) == CountDelayed(a) + CountDelayed(b)
    decreases |b|
  {
    if b == [] {
      assert a + b == a;
    } else {
      CountDelayedAppend(a, b[..|b| - 1]);
      assert (a + b)[..|a + b| - 1] == a + b[..|b| - 1];
    }
  }

  /** No interval is counted exactly when none is above 65 ms, and all are counted exactly when all are. */
  lemma {:induction false} CountDelayedExtremes(intervals: seq<real>)
    ensures CountDelayed(intervals) == 0 <==> forall i :: 0 <= i < |intervals| ==> !IsDelayed(intervals[i])
    ensures CountDelayed(intervals) == |intervals| <==> forall i :: 0 <= i < |intervals| ==> IsDelayed(intervals[i])
  {
    if intervals != [] {
      var init := intervals[..|intervals| - 1];
      CountDelayedExtremes(init);
      assert forall i :: 0 <= i < |init| ==> init[i] == intervals[i];
    }
  }

  // ---------------------------------------------------------------------
  // Traffic

  /** `(bytes * 8) / (duration * 1000)` kbit/s, or 0 when the duration is not positive. */
  function TrafficRate(bytes: int, duration: real): real {
    if duration > 0.0 then (bytes * 8) as real / (duration * 1000.0) else 0.0
  }

  function SumBytes(records: seq<TrafficRecord>): int {
    if records == [] then 0 else SumBytes(records[..|records| - 1]) + records[|records| - 1].bytes
  }

  /** The running `max(peak, rate_kbps)` over the records with a positive duration, starting from 0. */
  function PeakRate(records: seq<TrafficRecord>): (p: real)
    ensures p >= 0.0
  {
    if records == [] then 0.0
    else
      var last := records[|records| - 1];
      var p := PeakRate(records[..|records| - 1]);
      if last.duration > 0.0 && last.rateKbps > p then last.rateKbps else p
  }

  /** The peak is at least every rate measured over a positive duration, and is either 0 or one of them. */
  lemma {:induction false} PeakRateBounds(records: seq<TrafficRecord>)
    ensures forall i :: 0 <= i < |records| && records[i].duration > 0.0 ==> records[i].rateKbps <= PeakRate(records)
    ensures PeakRate(records) == 0.0
      || exists i :: 0 <= i < |records| && records[i].duration > 0.0 && records[i].rateKbps == PeakRate(records)
  {
    if records != [] {
      var init := records[..|records| - 1];
      PeakRateBounds(init);
      assert forall i :: 0 <= i < |init| ==> init[i] == records[i];
    }
  }

  /** Appending a record adds its bytes to the total and raises the peak to its rate when that is higher. */
  lemma TrafficSnoc(records: seq<TrafficRecord>, entry: TrafficRecord)
    ensures SumBytes(records + [entry]) == SumBytes(records) + entry.bytes
    ensures PeakRate(records + [entry])
      == if entry.duration > 0.0 && entry.rateKbps > PeakRate(records) then entry.rateKbps else PeakRate(records)
  {
    assert (records + [entry])[..|records|] == records;
  }

  // ---------------------------------------------------------------------
  // Recent rates

  /** `update_current_audio_rate`'s list: append, and past 100 entries keep the last 50. */
  function KeepRecent(rates: seq<real>, rate: real): (out: seq<real>)
    ensures 0 < |out| <= |rates| + 1
    ensures out == (rates + [rate])[|rates| + 1 - |out|..]
    ensures |rates| + 1 > 100 ==> |out| == 50
    ensures |rates| + 1 <= 100 ==> out == rates + [rate]
  {
    var all := rates + [rate];
    if |all| > 100 then all[|all| - 50..] else all
  }

  /** The list never grows past 100 entries, and the newest rate is always kept last. */
  lemma KeepRecentBounded(rates: seq<real>, rate: real)
    requires |rates| <= 100
    ensures |KeepRecent(rates, rate)| <= 100
    ensures KeepRecent(rates, rate)[|KeepRecent(rates, rate)| - 1] == rate
  {
    var out := KeepRecent(rates, rate);
    assert out[|out| - 1] == (rates + [rate])[|rates|];
  }

  // ---------------------------------------------------------------------
  // Speech-recognition accuracy

  /** `re.sub(r'[^\w]', '', s)`: keeps the word characters, in order. */
  function Clean(isWord: char -> bool, s: string): (r: string)
    ensures |r| <= |s|
    ensures forall i :: 0 <= i < |r| ==> isWord(r[i])
  {
    if s == [] then []
    else Clean(isWord, s[..|s| - 1]) + (if isWord(s[|s| - 1]) then [s[|s| - 1]] else [])
  }

  lemma {:induction false} CleanAppend(isWord: char -> bool, a: string, b: string)
    ensures Clean(isWord, a + b) == Clean(isWord, a) + Clean(isWord, b)
    decreases |b|
  {
    if b == [] {
      assert a + b == a;
    } else {
      CleanAppend(isWord, a, b[..|b| - 1]);
      assert (a + b)[..|a + b| - 1] == a + b[..|b| - 1];
    }
  }

  /** Text made only of word characters is left as it is; cleaning twice is cleaning once. */
  lemma {:induction false} CleanWords(isWord: char -> bool, s: string)
    ensures (forall i :: 0 <= i < |s| ==> isWord(s[i])) ==> Clean(isWord, s) == s
    ensures Clean(isWord, Clean(isWord, s)) == Clean(isWord, s)
  {
    if s != [] {
      var init := s[..|s| - 1];
      CleanWords(isWord, init);
      var c := Clean(isWord, init);
      var tail := if isWord(s[|s| - 1]) then [s[|s| - 1]] else [];
      CleanAppend(isWord, c, tail);
      assert forall i :: 0 <= i < |init| ==> init[i] == s[i];
    }
  }

  /** `expected_clean in actual_clean`. */
  function IsAccurate(isWord: char -> bool, expected: string, actual: string): bool {
    Text.Contains(Clean(isWord, actual), Clean(isWord, expected))
  }

  /** Accurate exactly when the cleaned expected text occurs in the cleaned actual text. */
  lemma AccurateIffOccurs(isWord: char -> bool, expected: string, actual: string)
    ensures IsAccurate(isWord, expected, actual) <==> Text.Occurs(Clean(isWord, expected), Clean(isWord, actual))
  {
    Text.ContainsIffOccurs(Clean(isWord, actual), Clean(isWord, expected));
  }

  /** A transcript that contains the expected text, with anything around it, is accurate. */
  lemma AccurateWhenEmbedded(isWord: char -> bool, expected: string, before: string, after: string)
    ensures IsAccurate(isWord, expected, before + expected + after)
  {
    CleanAppend(isWord, before + expected, after);
    CleanAppend(isWord, before, expected);
    Text.ContainsEmbedded(Clean(isWord, before), Clean(isWord, expected), Clean(isWord, after));
  }

  /** Python's `\w` on ASCII: letters, digits and the underscore. */
  ghost predicate AsciiWordClass(isWord: char -> bool) {
    forall c: char :: c as int < 128 ==>
      (isWord(c) <==> ('a' <= c <= 'z' || 'A' <= c <= 'Z' || '0' <= c <= '9' || c == '_'))
  }

  /** The comparison is case-sensitive: "Hi" is not found in "hi." */
  lemma CaseSensitive(isWord: char -> bool)
    requires AsciiWordClass(isWord)
    ensures !IsAccurate(isWord, "Hi", "hi.")
  {
    assert isWord('H') && isWord('i') && isWord('h') && !isWord('.');
    assert Clean(isWord, "Hi") == "Hi" by {
      assert "Hi"[..1] == "H";
      assert "H"[..0] == "";
    }
    assert Clean(isWord, "hi.") == "hi" by {
      assert "hi."[..2] == "hi";
      assert "hi"[..1] == "h";
      assert "h"[..0] == "";
    }
    assert "hi"[..2] != "Hi";
    assert "hi"[1..] == "i";
  }

  /** Cleaning one more character keeps it exactly when it is a word character. */
  lemma CleanSnoc(isWord: char -> bool, s: string, c: char)
    ensures Clean(isWord, s + [c]) == Clean(isWord, s) + (if isWord(c) then [c] else [])
  {
    assert (s + [c])[..|s|] == s;
  }

  /** Punctuation and spacing are ignored: "你好，世界" is found in "你好 世界！" when CJK letters are word characters. */
  lemma PunctuationIgnored(isWord: char -> bool)
    requires isWord('你') && isWord('好') && isWord('世') && isWord('界')
    requires !isWord('，') && !isWord(' ') && !isWord('！')
    ensures IsAccurate(isWord, "你好，世界", "你好 世界！")
  {
    var a, b, c, d := '你', '好', '世', '界';
    var words := [a, b, c, d];
    CleanSnoc(isWord, [], a);
    assert [] + [a] == [a];
    CleanSnoc(isWord, [a], b);
    assert [a] + [b] == [a, b];
    CleanSnoc(isWord, [a, b], '，');
    assert [a, b] + ['，'] == [a, b, '，'];
    CleanSnoc(isWord, [a, b, '，'], c);
    assert [a, b, '，'] + [c] == [a, b, '，', c];
    CleanSnoc(isWord, [a, b, '，', c], d);
    assert [a, b, '，', c] + [d] == "你好，世界";
    CleanSnoc(isWord, [a, b], ' ');
    assert [a, b] + [' '] == [a, b, ' '];
    CleanSnoc(isWord, [a, b, ' '], c);
    assert [a, b, ' '] + [c] == [a, b, ' ', c];
    CleanSnoc(isWord, [a, b, ' ', c], d);
    assert [a, b, ' ', c] + [d] == [a, b, ' ', c, d];
    CleanSnoc(isWord, [a, b, ' ', c, d], '！');
    assert [a, b, ' ', c, d] + ['！'] == "你好 世界！";
    Text.ContainsEmbedded([], words, []);
    assert [] + words + [] == words;
  }

  // ---------------------------------------------------------------------
  // Order statistics

  /** The seven numbers `safe_stats` reports for a series. */
  datatype Stats = Stats(count: nat, mean: real, median: real, min: real, max: real, p95: real, p99: real)

  function RealLe(a: real, b: real): bool {
    a <= b
  }

  lemma RealLeTotalPreorder()
    ensures Sorting.Total(RealLe) && Sorting.Transitive(RealLe)
  {
  }

  function Sum(xs: seq<real>): real {
    if xs == [] then 0.0 else Sum(xs[..|xs| - 1]) + xs[|xs| - 1]
  }

  lemma {:induction false} SumBounds(xs: seq<real>, lo: real, hi: real)
    requires forall i :: 0 <= i < |xs| ==> lo <= xs[i] <= hi
    ensures |xs| as real * lo <= Sum(xs) <= |xs| as real * hi
  {
    if xs != [] {
      var init := xs[..|xs| - 1];
      assert forall i :: 0 <= i < |init| ==> init[i] == xs[i];
      SumBounds(init, lo, hi);
      var n := |init| as real;
      assert |xs| as real * lo == n * lo + lo;
      assert |xs| as real * hi == n * hi + hi;
    }
  }

  /** `int(count * q / 100)`: the index of the `q`-th percentile entry. */
  function PercentileIndex(count: nat, q: nat): (i: nat)
    requires 0 < count && q < 100
    ensures i < count
  {
    count * q / 100
  }

  /** `statistics.median` of a sorted list: the middle entry, or the mean of the two middle ones. */
  function Median(sorted: seq<real>): real
    requires sorted != []
  {
    var n := |sorted|;
    if n % 2 == 1 then sorted[n / 2] else (sorted[n / 2 - 1] + sorted[n / 2]) / 2.0
  }

  /** The facts about the sorted copy of a non-empty series that `safe_stats` relies on. */
  lemma SortedFacts(data: seq<real>)
    requires data != []
    ensures var sorted := Sorting.SortBy(data, RealLe);
      |sorted| == |data|
      && (forall i :: 0 <= i < |sorted| ==> sorted[0] <= sorted[i] <= sorted[|sorted| - 1])
      && (forall i :: 0 <= i < |data| ==> sorted[0] <= data[i] <= sorted[|sorted| - 1])
      && sorted[0] in data && sorted[|sorted| - 1] in data
  {
    var sorted := Sorting.SortBy(data, RealLe);
    RealLeTotalPreorder();
    Sorting.SortBySorted(data, RealLe);
    SortedEnds(sorted);
    SameElementsEnds(sorted, data);
  }

  /** In a series sorted by `RealLe`, every element lies between the first and the last. */
  lemma SortedEnds(sorted: seq<real>)
    requires sorted != [] && Sorting.SortedBy(sorted, RealLe)
    ensures forall i :: 0 <= i < |sorted| ==> sorted[0] <= sorted[i] <= sorted[|sorted| - 1]
  {
    forall i | 0 <= i < |sorted|
      ensures sorted[0] <= sorted[i] <= sorted[|sorted| - 1]
    {
      if i > 0 {
        assert RealLe(sorted[0], sorted[i]);
      }
      if i < |sorted| - 1 {
        assert RealLe(sorted[i], sorted[|sorted| - 1]);
      }
    }
  }

  /** A permutation of `sorted` has its elements between the same two ends, and holds both. */
  lemma SameElementsEnds(sorted: seq<real>, data: seq<real>)
    requires sorted != [] && multiset(sorted) == multiset(data)
    requires forall i :: 0 <= i < |sorted| ==> sorted[0] <= sorted[i] <= sorted[|sorted| - 1]
    ensures forall i :: 0 <= i < |data| ==> sorted[0] <= data[i] <= sorted[|sorted| - 1]
    ensures sorted[0] in data && sorted[|sorted| - 1] in data
  {
    forall i | 0 <= i < |data|
      ensures sorted[0] <= data[i] <= sorted[|sorted| - 1]
    {
      assert data[i] in multiset(sorted);
    }
    assert sorted[0] in multiset(data);
    assert sorted[|sorted| - 1] in multiset(data);
  }

  /** The median of a sorted series lies between its ends. */
  lemma MedianBounds(sorted: seq<real>)
    requires sorted != []
    requires forall i :: 0 <= i < |sorted| ==> sorted[0] <= sorted[i] <= sorted[|sorted| - 1]
    ensures sorted[0] <= Median(sorted) <= sorted[|sorted| - 1]
  {
  }

  /** The dictionary `safe_stats` builds from the sorted copy of a non-empty series. */
  function StatsOfSorted(sorted: seq<real>): (st: Stats)
    requires sorted != []
    ensures st.count == |sorted|
  {
    var count := |sorted|;
    Stats(count, Sum(sorted) / count as real, Median(sorted), sorted[0], sorted[count - 1],
          sorted[PercentileIndex(count, 95)], sorted[PercentileIndex(count, 99)])
  }

  /** Every figure computed from an ordered series lies between its first and last entries. */
  lemma StatsOfSortedBounds(sorted: seq<real>)
    requires sorted != []
    requires forall i :: 0 <= i < |sorted| ==> sorted[0] <= sorted[i] <= sorted[|sorted| - 1]
    ensures var st := StatsOfSorted(sorted);
      st.min == sorted[0] && st.max == sorted[|sorted| - 1]
      && st.min <= st.median <= st.max && st.min <= st.mean <= st.max
      && st.min <= st.p95 <= st.max && st.min <= st.p99 <= st.max
  {
    var count := |sorted|;
    var lo, hi := sorted[0], sorted[count - 1];
    MedianBounds(sorted);
    SumBounds(sorted, lo, hi);
    MeanBounds(Sum(sorted), count, lo, hi);
    assert lo <= sorted[PercentileIndex(count, 95)] <= hi;
    assert lo <= sorted[PercentileIndex(count, 99)] <= hi;
  }

  /** `safe_stats`: all zeros for an empty series, else the figures of its sorted copy. */
  function SafeStats(data: seq<real>): (st: Stats)
    ensures data == [] ==> st == Stats(0, 0.0, 0.0, 0.0, 0.0, 0.0, 0.0)
    ensures st.count == |data|
  {
    if data == [] then Stats(0, 0.0, 0.0, 0.0, 0.0, 0.0, 0.0)
    else StatsOfSorted(Sorting.SortBy(data, RealLe))
  }

  /**
   * For a non-empty series the minimum and maximum are entries of it that
   * bound every entry, and the mean, median and 95th/99th percentile
   * entries all lie between them.
   */
  lemma SafeStatsBounds(data: seq<real>)
    requires data != []
    ensures var st := SafeStats(data);
      st.min in data && st.max in data
      && (forall i :: 0 <= i < |data| ==> st.min <= data[i] <= st.max)
      && st.min <= st.median <= st.max && st.min <= st.mean <= st.max
      && st.min <= st.p95 <= st.max && st.min <= st.p99 <= st.max
  {
    var sorted := Sorting.SortBy(data, RealLe);
    SortedFacts(data);
    StatsOfSortedBounds(sorted);
  }

  lemma MeanBounds(total: real, count: nat, lo: real, hi: real)
    requires count > 0
    requires count as real * lo <= total <= count as real * hi
    ensures lo <= total / count as real <= hi
  {
    var c := count as real;
    var m := total / c;
    assert (m - lo) * c == total - c * lo;
    assert (hi - m) * c == c * hi - total;
  }

  // ---------------------------------------------------------------------
  // Summary ratios

  /** `num / max(den, 1)`: defined even when nothing was recorded. */
  function Ratio(num: int, den: int): real {
    num as real / (if den > 1 then den else 1) as real
  }

  lemma RatioBounds(num: int, den: int)
    ensures 0 <= num <= den ==> 0.0 <= Ratio(num, den) <= 1.0
    ensures den <= 1 ==> Ratio(num, den) == num as real
  {
    if 0 <= num <= den && den > 1 {
      var d := den as real;
      var r := num as real / d;
      assert (1.0 - r) * d == d - num as real;
    }
  }

  function CountAccurate(results: seq<AccuracyRecord>): (n: nat)
    ensures n <= |results|
  {
    if results == [] then 0
    else CountAccurate(results[..|results| - 1]) + (if results[|results| - 1].accurate then 1 else 0)
  }

  /** The ratio and count fields of `get_summary`. */
  datatype Summary = Summary(
    connectionSuccessRate: real,
    helloSuccessRate: real,
    detectSuccessRate: real,
    audioSendSuccessRate: real,
    sttSuccessRate: real,
    sttToStartTotal: nat,
    audioReceiveTotal: nat,
    totalFrames: nat,
    delayRate: real,
    isGoodRate: bool,
    totalBytes: int,
    clientsCount: nat,
    realAudioSendSuccessRate: real,
    sttAccuracyRate: real,
    totalTests: nat,
    accurateCount: nat)

  /** `ratio < 0.1` is a whole-number comparison: ten times the count is below the guarded denominator. */
  lemma GoodRateThreshold(num: nat, den: nat)
    ensures Ratio(num, den) < 0.1 <==> 10 * num < (if den > 1 then den else 1)
  {
    var d := if den > 1 then den else 1;
    QuotientBelowTenth(num as real, d as real);
  }

  lemma QuotientBelowTenth(n: real, d: real)
    requires d > 0.0
    ensures n / d < 0.1 <==> 10.0 * n < d
  {
    var q := n / d;
    assert q * d == n;
    assert (0.1 - q) * d == d / 10.0 - n;
    ProductSign(0.1 - q, d);
  }

  lemma ProductSign(x: real, d: real)
    requires d > 0.0
    ensures x > 0.0 <==> x * d > 0.0
  {
    if x > 0.0 {
      assert x * d > 0.0 * d;
    } else {
      assert (-x) * d >= 0.0 * d;
    }
  }

  /** One section of `get_stats`: a series' statistics and its counters (0 where the source has none). */
  datatype SeriesReport = SeriesReport(stats: Stats, success: nat, fail: nat, timeout: nat, total: nat)

  /** What `get_stats` returns. */
  datatype Report = Report(
    connection: SeriesReport,
    hello: SeriesReport,
    detect: SeriesReport,
    audioSend: SeriesReport,
    stt: SeriesReport,
    audioResponse: Stats,
    serverProcessing: Stats,
    frameIntervals: Stats,
    delayedFrames: nat)

  function BumpCount(m: map<string, nat>, key: string): map<string, nat> {
    m[key := (if key in m then m[key] else 0) + 1]
  }

  class TestMetrics {
    var connectionTimes: seq<real>
    var connectionSuccessCount: nat
    var connectionFailCount: nat
    var connectionTotalCount: nat

    var helloResponseTimes: seq<real>
    var helloSuccessCount: nat
    var helloFailCount: nat
    var helloTotalCount: nat

    var detectResponseTimes: seq<real>
    var detectSuccessCount: nat
    var detectFailCount: nat
    var detectTotalCount: nat
    var detectTimeoutCount: nat
    var detectErrors: seq<DetectError>

    var audioSendTimes: seq<real>
    var audioSendSuccessCount: nat
    var audioSendFailCount: nat
    var audioSendTotalCount: nat

    var sttTimes: seq<real>
    var sttSuccessCount: nat
    var sttFailCount: nat
    var sttTotalCount: nat
    var sttAccuracyScores: seq<real>

    var sttToStartTimes: seq<real>
    var sttToStartSuccessCount: nat
    var sttToStartFailCount: nat

    var audioReceiveTimes: seq<real>
    var audioReceiveSuccessCount: nat
    var audioReceiveFailCount: nat
    var audioFrameIntervals: seq<real>
    var audioDelayedFrames: nat

    var audioTrafficReceived: seq<TrafficRecord>
    var audioTrafficSent: seq<TrafficRecord>
    var totalReceivedTraffic: int
    var totalSentTraffic: int
    var peakReceivedRate: real
    var peakSentRate: real
    var currentAudioRates: seq<real>

    var realAudioSendTimes: seq<real>
    var realAudioSendSuccessCount: nat
    var realAudioSendFailCount: nat
    var sttAccuracyResults: seq<AccuracyRecord>
    var audioResponseTimes: seq<real>
    var serverProcessingTimes: seq<real>

    var helloTimeoutCount: nat
    var audioTimeoutCount: nat
    var sttTimeoutCount: nat

    var connectionErrors: map<string, nat>
    var protocolErrors: map<string, nat>

    predicate ConnectionValid()
      reads this`connectionTimes, this`connectionTotalCount, this`connectionSuccessCount, this`connectionFailCount
    {
      connectionTotalCount == connectionSuccessCount + connectionFailCount
      && |connectionTimes| == connectionTotalCount
    }

    predicate HelloValid()
      reads this`helloResponseTimes, this`helloSuccessCount, this`helloFailCount, this`helloTotalCount,
            this`helloTimeoutCount
    {
      helloTotalCount == helloSuccessCount + helloFailCount
      && helloTimeoutCount <= helloFailCount
      && |helloResponseTimes| == helloSuccessCount
    }

    predicate DetectValid()
      reads this`detectResponseTimes, this`detectSuccessCount, this`detectFailCount, this`detectTotalCount,
            this`detectTimeoutCount
    {
      detectTotalCount == detectSuccessCount + detectFailCount
      && detectTimeoutCount <= detectFailCount
      && |detectResponseTimes| == detectSuccessCount
    }

    predicate AudioSendValid()
      reads this`audioSendTimes, this`audioSendTotalCount, this`audioSendSuccessCount, this`audioSendFailCount
    {
      audioSendTotalCount == audioSendSuccessCount + audioSendFailCount
      && |audioSendTimes| == audioSendTotalCount
    }

    predicate SttValid()
      reads this`sttTimes, this`sttSuccessCount, this`sttFailCount, this`sttTotalCount, this`sttTimeoutCount,
            this`sttAccuracyScores, this`sttToStartTimes, this`sttToStartSuccessCount
    {
      sttTotalCount == sttSuccessCount + sttFailCount
      && sttTimeoutCount <= sttFailCount
      && |sttTimes| == sttSuccessCount
      && |sttAccuracyScores| <= sttSuccessCount
      && |sttToStartTimes| == sttToStartSuccessCount
    }

    predicate ReceiveValid()
      reads this`audioReceiveTimes, this`audioReceiveSuccessCount, this`audioTimeoutCount,
            this`audioReceiveFailCount
    {
      |audioReceiveTimes| == audioReceiveSuccessCount
      && audioTimeoutCount <= audioReceiveFailCount
    }

    predicate FramesValid()
      reads this`audioDelayedFrames, this`audioFrameIntervals
    {
      audioDelayedFrames == CountDelayed(audioFrameIntervals)
    }

    predicate TrafficValid()
      reads this`totalReceivedTraffic, this`audioTrafficReceived, this`totalSentTraffic, this`audioTrafficSent,
            this`peakReceivedRate, this`peakSentRate
    {
      totalReceivedTraffic == SumBytes(audioTrafficReceived)
      && totalSentTraffic == SumBytes(audioTrafficSent)
      && peakReceivedRate == PeakRate(audioTrafficReceived)
      && peakSentRate == PeakRate(audioTrafficSent)
    }

    predicate RealAudioValid()
      reads this`currentAudioRates, this`realAudioSendTimes, this`realAudioSendSuccessCount,
            this`realAudioSendFailCount
    {
      |currentAudioRates| <= 100
      && |realAudioSendTimes| == realAudioSendSuccessCount + realAudioSendFailCount
    }

    /** The relations every `record_*` method keeps between the series and the counters. */
    predicate Valid()
      reads this
    {
      ConnectionValid() && HelloValid() && DetectValid() && AudioSendValid()
      && SttValid() && ReceiveValid() && FramesValid() && TrafficValid() && RealAudioValid()
    }

    constructor ()
      ensures Valid()
      ensures connectionTimes == [] && helloResponseTimes == [] && detectResponseTimes == []
      ensures audioSendTimes == [] && sttTimes == [] && sttToStartTimes == [] && audioReceiveTimes == []
      ensures audioFrameIntervals == [] && audioTrafficReceived == [] && audioTrafficSent == []
      ensures currentAudioRates == [] && realAudioSendTimes == [] && sttAccuracyResults == []
      ensures audioResponseTimes == [] && serverProcessingTimes == [] && detectErrors == []
      ensures sttAccuracyScores == [] && connectionErrors == map[] && protocolErrors == map[]
      ensures connectionTotalCount == 0 && helloTotalCount == 0 && detectTotalCount == 0
      ensures audioSendTotalCount == 0 && sttTotalCount == 0 && sttToStartFailCount == 0
      ensures audioReceiveFailCount == 0 && realAudioSendSuccessCount == 0 && realAudioSendFailCount == 0
      ensures totalReceivedTraffic == 0 && totalSentTraffic == 0
      ensures peakReceivedRate == 0.0 && peakSentRate == 0.0
    {
      connectionTimes, connectionSuccessCount, connectionFailCount, connectionTotalCount := [], 0, 0, 0;
      helloResponseTimes, helloSuccessCount, helloFailCount, helloTotalCount := [], 0, 0, 0;
      detectResponseTimes, detectSuccessCount, detectFailCount, detectTotalCount := [], 0, 0, 0;
      detectTimeoutCount, detectErrors := 0, [];
      audioSendTimes, audioSendSuccessCount, audioSendFailCount, audioSendTotalCount := [], 0, 0, 0;
      sttTimes, sttSuccessCount, sttFailCount, sttTotalCount, sttAccuracyScores := [], 0, 0, 0, [];
      sttToStartTimes, sttToStartSuccessCount, sttToStartFailCount := [], 0, 0;
      audioReceiveTimes, audioReceiveSuccessCount, audioReceiveFailCount := [], 0, 0;
      audioFrameIntervals, audioDelayedFrames := [], 0;
      audioTrafficReceived, audioTrafficSent := [], [];
      totalReceivedTraffic, totalSentTraffic := 0, 0;
      peakReceivedRate, peakSentRate := 0.0, 0.0;
      currentAudioRates := [];
      realAudioSendTimes, realAudioSendSuccessCount, realAudioSendFailCount := [], 0, 0;
      sttAccuracyResults, audioResponseTimes, serverProcessingTimes := [], [], [];
      helloTimeoutCount, audioTimeoutCount, sttTimeoutCount := 0, 0, 0;
      connectionErrors, protocolErrors := map[], map[];
    }

    /** `record_connection_time`: every attempt is appended; an error type is counted only on failure. */
    method RecordConnectionTime(duration: real, success: bool, errorType: string)
      requires ConnectionValid()
      modifies this`connectionTimes, this`connectionTotalCount, this`connectionSuccessCount,
               this`connectionFailCount, this`connectionErrors
      ensures ConnectionValid()
      ensures connectionTimes == old(connectionTimes) + [duration]
      ensures connectionTotalCount == old(connectionTotalCount) + 1
      ensures connectionSuccessCount == old(connectionSuccessCount) + (if success then 1 else 0)
      ensures connectionFailCount == old(connectionFailCount) + (if success then 0 else 1)
      ensures connectionErrors == if !success && errorType != [] then BumpCount(old(connectionErrors), errorType)
                                  else old(connectionErrors)
    {
      connectionTimes := connectionTimes + [duration];
      connectionTotalCount := connectionTotalCount + 1;
      if success {
        connectionSuccessCount := connectionSuccessCount + 1;
      } else {
        connectionFailCount := connectionFailCount + 1;
        if errorType != [] {
          connectionErrors := BumpCount(connectionErrors, errorType);
        }
      }
    }

    /** `record_hello_response_time`: the latency is kept only on success. */
    method RecordHelloResponseTime(duration: real, success: bool, timeout: bool)
      requires HelloValid()
      modifies this`helloResponseTimes, this`helloSuccessCount, this`helloFailCount,
               this`helloTimeoutCount, this`helloTotalCount
      ensures HelloValid()
      ensures helloResponseTimes == if success then old(helloResponseTimes) + [duration] else old(helloResponseTimes)
      ensures helloSuccessCount == old(helloSuccessCount) + (if success then 1 else 0)
      ensures helloFailCount == old(helloFailCount) + (if success then 0 else 1)
      ensures helloTimeoutCount == old(helloTimeoutCount) + (if !success && timeout then 1 else 0)
      ensures helloTotalCount == old(helloTotalCount) + 1
    {
      if success {
        helloResponseTimes := helloResponseTimes + [duration];
        helloSuccessCount := helloSuccessCount + 1;
      } else {
        helloFailCount := helloFailCount + 1;
        if timeout {
          helloTimeoutCount := helloTimeoutCount + 1;
        }
      }
      helloTotalCount := helloTotalCount + 1;
    }

    /** `record_detect_response_time`: the same bookkeeping as for hello. */
    method RecordDetectResponseTime(duration: real, success: bool, timeout: bool)
      requires DetectValid()
      modifies this`detectResponseTimes, this`detectSuccessCount, this`detectFailCount,
               this`detectTimeoutCount, this`detectTotalCount
      ensures DetectValid()
      ensures detectResponseTimes == if success then old(detectResponseTimes) + [duration] else old(detectResponseTimes)
      ensures detectSuccessCount == old(detectSuccessCount) + (if success then 1 else 0)
      ensures detectFailCount == old(detectFailCount) + (if success then 0 else 1)
      ensures detectTimeoutCount == old(detectTimeoutCount) + (if !success && timeout then 1 else 0)
      ensures detectTotalCount == old(detectTotalCount) + 1
    {
      if success {
        detectResponseTimes := detectResponseTimes + [duration];
        detectSuccessCount := detectSuccessCount + 1;
      } else {
        detectFailCount := detectFailCount + 1;
        if timeout {
          detectTimeoutCount := detectTimeoutCount + 1;
        }
      }
      detectTotalCount := detectTotalCount + 1;
    }

    /** `record_audio_send_time`. */
    method RecordAudioSendTime(duration: real, success: bool)
      requires AudioSendValid()
      modifies this`audioSendTimes, this`audioSendTotalCount, this`audioSendSuccessCount, this`audioSendFailCount
      ensures AudioSendValid()
      ensures audioSendTimes == old(audioSendTimes) + [duration]
      ensures audioSendTotalCount == old(audioSendTotalCount) + 1
      ensures audioSendSuccessCount == old(audioSendSuccessCount) + (if success then 1 else 0)
      ensures audioSendFailCount == old(audioSendFailCount) + (if success then 0 else 1)
    {
      audioSendTimes := audioSendTimes + [duration];
      audioSendTotalCount := audioSendTotalCount + 1;
      if success {
        audioSendSuccessCount := audioSendSuccessCount + 1;
      } else {
        audioSendFailCount := audioSendFailCount + 1;
      }
    }

    /** `record_stt_time`: an accuracy score is kept only with a successful result. */
    method RecordSttTime(duration: real, success: bool, accuracy: Option<real>, timeout: bool)
      requires SttValid()
      modifies this`sttTimes, this`sttSuccessCount, this`sttAccuracyScores, this`sttFailCount,
               this`sttTimeoutCount, this`sttTotalCount
      ensures SttValid()
      ensures sttTimes == if success then old(sttTimes) + [duration] else old(sttTimes)
      ensures sttSuccessCount == old(sttSuccessCount) + (if success then 1 else 0)
      ensures sttAccuracyScores == if success && accuracy.Some? then old(sttAccuracyScores) + [accuracy.value]
                                   else old(sttAccuracyScores)
      ensures sttFailCount == old(sttFailCount) + (if success then 0 else 1)
      ensures sttTimeoutCount == old(sttTimeoutCount) + (if !success && timeout then 1 else 0)
      ensures sttTotalCount == old(sttTotalCount) + 1
    {
      if success {
        sttTimes := sttTimes + [duration];
        sttSuccessCount := sttSuccessCount + 1;
        if accuracy.Some? {
          sttAccuracyScores := sttAccuracyScores + [accuracy.value];
        }
      } else {
        sttFailCount := sttFailCount + 1;
        if timeout {
          sttTimeoutCount := sttTimeoutCount + 1;
        }
      }
      sttTotalCount := sttTotalCount + 1;
    }

    /** `record_stt_to_start_time`. */
    method RecordSttToStartTime(duration: real, success: bool)
      requires SttValid()
      modifies this`sttToStartTimes, this`sttToStartSuccessCount, this`sttToStartFailCount
      ensures SttValid()
      ensures sttToStartTimes == if success then old(sttToStartTimes) + [duration] else old(sttToStartTimes)
      ensures sttToStartSuccessCount == old(sttToStartSuccessCount) + (if success then 1 else 0)
      ensures sttToStartFailCount == old(sttToStartFailCount) + (if success then 0 else 1)
    {
      if success {
        sttToStartTimes := sttToStartTimes + [duration];
        sttToStartSuccessCount := sttToStartSuccessCount + 1;
      } else {
        sttToStartFailCount := sttToStartFailCount + 1;
      }
    }

    /** `record_audio_receive_time`. */
    method RecordAudioReceiveTime(duration: real, success: bool, timeout: bool)
      requires ReceiveValid()
      modifies this`audioReceiveTimes, this`audioReceiveSuccessCount, this`audioReceiveFailCount,
               this`audioTimeoutCount
      ensures ReceiveValid()
      ensures audioReceiveTimes == if success then old(audioReceiveTimes) + [duration] else old(audioReceiveTimes)
      ensures audioReceiveSuccessCount == old(audioReceiveSuccessCount) + (if success then 1 else 0)
      ensures audioReceiveFailCount == old(audioReceiveFailCount) + (if success then 0 else 1)
      ensures audioTimeoutCount == old(audioTimeoutCount) + (if !success && timeout then 1 else 0)
    {
      if success {
        audioReceiveTimes := audioReceiveTimes + [duration];
        audioReceiveSuccessCount := audioReceiveSuccessCount + 1;
      } else {
        audioReceiveFailCount := audioReceiveFailCount + 1;
        if timeout {
          audioTimeoutCount := audioTimeoutCount + 1;
        }
      }
    }

    /** `record_frame_interval`: every interval is kept; one above 65 ms is also counted as delayed. */
    method RecordFrameInterval(interval: real)
      requires FramesValid()
      modifies this`audioFrameIntervals, this`audioDelayedFrames
      ensures FramesValid()
      ensures audioFrameIntervals == old(audioFrameIntervals) + [interval]
      ensures audioDelayedFrames == old(audioDelayedFrames) + (if IsDelayed(interval) then 1 else 0)
    {
      assert (audioFrameIntervals + [interval])[..|audioFrameIntervals|] == audioFrameIntervals;
      audioFrameIntervals := audioFrameIntervals + [interval];
      if interval > 65.0 {
        audioDelayedFrames := audioDelayedFrames + 1;
      }
    }

    /** `record_audio_traffic_received`: the total grows by the bytes; the peak never decreases. */
    method RecordAudioTrafficReceived(clientId: string, bytesReceived: int, duration: real)
      requires TrafficValid()
      modifies this`audioTrafficReceived, this`totalReceivedTraffic, this`peakReceivedRate
      ensures TrafficValid()
      ensures audioTrafficReceived == old(audioTrafficReceived)
              + [TrafficRecord(clientId, bytesReceived, duration, TrafficRate(bytesReceived, duration))]
      ensures totalReceivedTraffic == old(totalReceivedTraffic) + bytesReceived
      ensures peakReceivedRate >= old(peakReceivedRate)
      ensures duration > 0.0 ==> peakReceivedRate >= TrafficRate(bytesReceived, duration)
    {
      var entry := TrafficRecord(clientId, bytesReceived, duration, TrafficRate(bytesReceived, duration));
      TrafficSnoc(audioTrafficReceived, entry);
      audioTrafficReceived := audioTrafficReceived + [entry];
      totalReceivedTraffic := totalReceivedTraffic + bytesReceived;
      if duration > 0.0 {
        var rate := (bytesReceived * 8) as real / (duration * 1000.0);
        peakReceivedRate := if rate > peakReceivedRate then rate else peakReceivedRate;
      }
    }

    /** `record_audio_traffic_sent`: the same bookkeeping for the upstream direction. */
    method RecordAudioTrafficSent(clientId: string, bytesSent: int, duration: real)
      requires TrafficValid()
      modifies this`audioTrafficSent, this`totalSentTraffic, this`peakSentRate
      ensures TrafficValid()
      ensures audioTrafficSent == old(audioTrafficSent)
              + [TrafficRecord(clientId, bytesSent, duration, TrafficRate(bytesSent, duration))]
      ensures totalSentTraffic == old(totalSentTraffic) + bytesSent
      ensures peakSentRate >= old(peakSentRate)
      ensures duration > 0.0 ==> peakSentRate >= TrafficRate(bytesSent, duration)
    {
      var entry := TrafficRecord(clientId, bytesSent, duration, TrafficRate(bytesSent, duration));
      TrafficSnoc(audioTrafficSent, entry);
      audioTrafficSent := audioTrafficSent + [entry];
      totalSentTraffic := totalSentTraffic + bytesSent;
      if duration > 0.0 {
        var rate := (bytesSent * 8) as real / (duration * 1000.0);
        peakSentRate := if rate > peakSentRate then rate else peakSentRate;
      }
    }

    /** `update_current_audio_rate`. */
    method UpdateCurrentAudioRate(rate: real)
      requires RealAudioValid()
      modifies this`currentAudioRates
      ensures RealAudioValid()
      ensures currentAudioRates == KeepRecent(old(currentAudioRates), rate)
    {
      currentAudioRates := currentAudioRates + [rate];
      if |currentAudioRates| > 100 {
        currentAudioRates := currentAudioRates[|currentAudioRates| - 50..];
      }
    }

    /** `record_real_audio_send_time`: every attempt's duration is kept. */
    method RecordRealAudioSendTime(duration: real, success: bool)
      requires RealAudioValid()
      modifies this`realAudioSendTimes, this`realAudioSendSuccessCount, this`realAudioSendFailCount
      ensures RealAudioValid()
      ensures realAudioSendTimes == old(realAudioSendTimes) + [duration]
      ensures realAudioSendSuccessCount == old(realAudioSendSuccessCount) + (if success then 1 else 0)
      ensures realAudioSendFailCount == old(realAudioSendFailCount) + (if success then 0 else 1)
    {
      realAudioSendTimes := realAudioSendTimes + [duration];
      if success {
        realAudioSendSuccessCount := realAudioSendSuccessCount + 1;
      } else {
        realAudioSendFailCount := realAudioSendFailCount + 1;
      }
    }

    /** `record_stt_accuracy`, with the regex's `\w` class given as `isWord`. */
    method RecordSttAccuracy(isWord: char -> bool, expected: string, actual: string)
      modifies this`sttAccuracyResults
      ensures sttAccuracyResults == old(sttAccuracyResults)
              + [AccuracyRecord(expected, actual, IsAccurate(isWord, expected, actual))]
    {
      var expectedClean := Clean(isWord, expected);
      var actualClean := Clean(isWord, actual);
      var isAccurate := Text.Contains(actualClean, expectedClean);
      sttAccuracyResults := sttAccuracyResults + [AccuracyRecord(expected, actual, isAccurate)];
    }

    /** `record_audio_response_time`: the user-perceived latency. */
    method RecordAudioResponseTime(duration: real)
      modifies this`audioResponseTimes
      ensures audioResponseTimes == old(audioResponseTimes) + [duration]
    {
      audioResponseTimes := audioResponseTimes + [duration];
    }

    /** `record_server_processing_time`. */
    method RecordServerProcessingTime(duration: real)
      modifies this`serverProcessingTimes
      ensures serverProcessingTimes == old(serverProcessingTimes) + [duration]
    {
      serverProcessingTimes := serverProcessingTimes + [duration];
    }

    /** `record_detect_error`. */
    method RecordDetectError(deviceId: string, sessionId: string, reason: string, duration: real)
      modifies this`detectErrors
      ensures detectErrors == old(detectErrors) + [DetectError(deviceId, sessionId, reason, duration)]
    {
      detectErrors := detectErrors + [DetectError(deviceId, sessionId, reason, duration)];
    }

    /** `record_protocol_error`. */
    method RecordProtocolError(errorType: string)
      modifies this`protocolErrors
      ensures protocolErrors == BumpCount(old(protocolErrors), errorType)
    {
      protocolErrors := BumpCount(protocolErrors, errorType);
    }

    /** `get_stats`: the order statistics of every series, next to its counters. */
    function GetStats(): (r: Report)
      reads this
      ensures r.frameIntervals.count == |audioFrameIntervals|
    {
      Report(
        SeriesReport(SafeStats(connectionTimes), connectionSuccessCount, connectionFailCount, 0, connectionTotalCount),
        SeriesReport(SafeStats(helloResponseTimes), helloSuccessCount, helloFailCount, helloTimeoutCount, helloTotalCount),
        SeriesReport(SafeStats(detectResponseTimes), detectSuccessCount, detectFailCount, detectTimeoutCount, detectTotalCount),
        SeriesReport(SafeStats(audioSendTimes), audioSendSuccessCount, audioSendFailCount, 0, audioSendTotalCount),
        SeriesReport(SafeStats(sttTimes), sttSuccessCount, sttFailCount, sttTimeoutCount, sttTotalCount),
        SafeStats(audioResponseTimes),
        SafeStats(serverProcessingTimes),
        SafeStats(audioFrameIntervals),
        audioDelayedFrames)
    }

    /**
     * In a valid state every series' count agrees with its counters: one
     * entry per attempt for connections and audio sends, one per success for
     * hello, detect and speech recognition; and the delayed frames are the
     * intervals above 65 ms.
     */
    lemma StatsCountsAgree()
      requires Valid()
      ensures var r := GetStats();
        r.connection.stats.count == r.connection.total == r.connection.success + r.connection.fail
        && r.audioSend.stats.count == r.audioSend.total == r.audioSend.success + r.audioSend.fail
        && r.hello.stats.count == r.hello.success && r.hello.timeout <= r.hello.fail
        && r.detect.stats.count == r.detect.success && r.detect.timeout <= r.detect.fail
        && r.stt.stats.count == r.stt.success && r.stt.timeout <= r.stt.fail
        && r.delayedFrames == CountDelayed(audioFrameIntervals)
    {
    }

    /** The ratio and count fields of `get_summary`. */
    function GetSummary(): (s: Summary)
      reads this
      ensures s.accurateCount <= s.totalTests == |sttAccuracyResults|
    {
      var delayRate := Ratio(audioDelayedFrames, |audioFrameIntervals|);
      Summary(
        Ratio(connectionSuccessCount, connectionTotalCount),
        Ratio(helloSuccessCount, helloTotalCount),
        Ratio(detectSuccessCount, detectTotalCount),
        Ratio(audioSendSuccessCount, audioSendTotalCount),
        Ratio(sttSuccessCount, sttTotalCount),
        sttToStartSuccessCount + sttToStartFailCount,
        audioReceiveSuccessCount + audioReceiveFailCount,
        |audioFrameIntervals|,
        delayRate,
        delayRate < 0.1,
        totalReceivedTraffic + totalSentTraffic,
        if |audioTrafficReceived| > |audioTrafficSent| then |audioTrafficReceived| else |audioTrafficSent|,
        Ratio(realAudioSendSuccessCount, realAudioSendSuccessCount + realAudioSendFailCount),
        Ratio(CountAccurate(sttAccuracyResults), |sttAccuracyResults|),
        |sttAccuracyResults|,
        CountAccurate(sttAccuracyResults))
    }

    /**
     * In a valid state every success rate of the summary, the delay rate and
     * the accuracy rate lie in [0, 1], also when nothing was recorded.
     */
    lemma SummaryRatesBounded()
      requires Valid()
      ensures var s := GetSummary();
        0.0 <= s.connectionSuccessRate <= 1.0 && 0.0 <= s.helloSuccessRate <= 1.0
        && 0.0 <= s.detectSuccessRate <= 1.0 && 0.0 <= s.audioSendSuccessRate <= 1.0
        && 0.0 <= s.sttSuccessRate <= 1.0 && 0.0 <= s.delayRate <= 1.0
        && 0.0 <= s.realAudioSendSuccessRate <= 1.0 && 0.0 <= s.sttAccuracyRate <= 1.0
    {
      RatioBounds(connectionSuccessCount, connectionTotalCount);
      RatioBounds(helloSuccessCount, helloTotalCount);
      RatioBounds(detectSuccessCount, detectTotalCount);
      RatioBounds(audioSendSuccessCount, audioSendTotalCount);
      RatioBounds(sttSuccessCount, sttTotalCount);
      RatioBounds(audioDelayedFrames, |audioFrameIntervals|);
      RatioBounds(realAudioSendSuccessCount, realAudioSendSuccessCount + realAudioSendFailCount);
      RatioBounds(CountAccurate(sttAccuracyResults), |sttAccuracyResults|);
    }

    /** The frame timing is reported good exactly when fewer than a tenth of the intervals were above 65 ms. */
    lemma SummaryGoodRate()
      requires FramesValid()
      ensures GetSummary().isGoodRate
        <==> 10 * CountDelayed(audioFrameIntervals) < (if |audioFrameIntervals| > 1 then |audioFrameIntervals| else 1)
    {
      GoodRateThreshold(audioDelayedFrames, |audioFrameIntervals|);
    }
  }
}
