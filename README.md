# xiaozhi-concurrent load tester: a verified model of its core

xiaozhi-concurrent is a load tester for the xiaozhi voice-assistant WebSocket
server. Many simulated devices connect at once. Each device runs one or more
rounds: connect, `hello`, a wake-word ("detect") message, real speech audio,
and then the server's speech-recognition (STT), text-to-speech (TTS) and audio
answers. The tester measures latencies and traffic, tracks progress, and
renders report tables and sorted logs.

This Dafny project models the sequential logic behind that. The event loop,
the sockets and the locks are abstracted away, and every clock reading is a
parameter.

- **`Client`** (`client.dfy`) is the per-device protocol state machine of
  `XiaozhiTestClient`.
  - The 39 instance attributes are grouped by role into four records:
    - `Link`: the connection, session ids and expected text;
    - `Flags`: how far the round has come;
    - `Times`: the timestamps latencies are measured from;
    - `Reception`: frame and segment counters.
  - Each step is a pure `After*` function. It returns the new `Session` and
    the calls made on the shared progress and metrics objects, in order.
  - The class `XiaozhiTestClient` keeps the same state in fields. Each of its
    methods is proved to leave exactly the state and calls of its function.
  - A ghost log of the round's calls is kept in agreement with the flags by
    every step. So `complete_test`, the hello answer, the detect answer and the
    switch to the real-audio phase each happen at most once per round.
- **`ClientAudio`** (`client_audio.dfy`) covers three audio pieces of the client:
  - the no-opus frame chunking;
  - the bounded silence-filler loop;
  - the target-time pacing of `send_real_audio`.
- **`Metrics`** (`metrics.dfy`) is the `TestMetrics` aggregator.
  - Each `record_*` method keeps the invariant that ties its series to its
    counters.
  - It also covers the STT accuracy test, `safe_stats` and the guarded ratios
    of `get_summary`.
- **`Progress`** (`progress.dfy`) is `ProgressTracker`: the stage table, the
  session counters and the progress-bar line.
- **`Table`** (`table.dfy`) is `_render_table`. Its display width treats the
  east-Asian wide classification as a parameter.
- **`Tester`** (`tester.dfy`) covers the log helpers and round loop of `tester.py`:
  - device ids and the round loop of `run_single_test`;
  - parsing, the time key, sorting and the grouped writing of
    `reorder_client_flow_log`;
  - the device-id extraction of `reorder_standard_log`.
- **`Logger`** (`logger.dfy`) covers the two message builders:
  - `log_debug`: the prefix, tag removal and strip;
  - `log_client_flow`: the timestamp and line format.
- **`AudioUtils`** (`audio_utils.dfy`) covers the pieces of `utils.py`:
  - duration;
  - 16-bit samples;
  - frame chunking with an abstract encoder;
  - the no-codec passthroughs.
- **Support modules:**
  - `Format`: Python's integer formatting and `int()` parsing;
  - `Text`: `startswith` and `in` on strings;
  - `Sorting`: insertion sort by a total preorder, and string order;
  - `Wrappers`: `Option` and `Result`.

Paths in the table below are relative to the repository root.

## Model

| member | source | states |
|---|---|---|
| Format.DigitChar | src/tester.py:391 | the digit character of a value below 10 is a digit that reads back as that value |
| Format.Decimal | src/tester.py:391 | `str(n)` is a non-empty run of digits with no leading zero unless n is 0 |
| Format.ZeroPadded | src/tester.py:391 | `:06d` formatting gives at least `w` characters, all digits |
| Format.FixedDigits | src/logger.py:68 | a `strftime` field has exactly `w` digits |
| Format.DigitsValueSnoc | src/tester.py:316 | `int()` of digits extended by one digit is ten times the value plus that digit |
| Format.DecimalValue | src/tester.py:391 | reading back `str(n)` gives n |
| Format.LeadingZerosValue | src/tester.py:316 | leading zeros do not change the value `int()` reads |
| Format.ZeroPaddedValue | src/tester.py:391 | reading back the zero-padded numeral gives n |
| Format.FixedDigitsValue | src/tester.py:316 | below 10^w, the w fixed digits of n read back as n |
| Format.FixedDigitsPrefix | src/logger.py:68 | dropping the last k of w+k digits (`[:-3]` on `%f`) leaves the digits of n / 10^k |
| Text.ContainsIffOccurs | src/metrics.py:221 | the left-to-right scan of `t in s` succeeds exactly when t occurs in s at some position |
| Text.ContainsEmbedded | src/metrics.py:221 | any string is found in a string that embeds it |
| Sorting.Insert | src/tester.py:321 | insertion adds exactly one element and keeps the multiset |
| Sorting.SortBy | src/tester.py:321 | the sort keeps length and multiset, so it is a permutation |
| Sorting.InsertSorted | src/tester.py:321 | inserting into a sorted sequence under a total preorder keeps it sorted |
| Sorting.SortBySorted | src/tester.py:321 | the result of the sort is ordered by the key comparison |
| Sorting.LexLeTotal | src/tester.py:321 | Python's string `<=` is total |
| Sorting.LexLeAntisymmetric | src/tester.py:321 | string `<=` both ways means the strings are equal |
| Sorting.LexLeTransitive | src/tester.py:321 | string `<=` is transitive |
| AudioUtils.AudioDuration | src/utils.py:125-130 | duration is non-negative and times 16000 equals the number of whole 2-byte samples |
| AudioUtils.DurationIgnoresOddByte | src/utils.py:128 | a trailing odd byte does not change the duration |
| AudioUtils.DurationOfWholeSeconds | src/utils.py:125-130 | k·32000 bytes last exactly k seconds |
| AudioUtils.PaddedChunks | src/utils.py:70-74 | every chunk is exactly n long |
| AudioUtils.PaddedChunksCount | src/utils.py:70 | there are ceil(len/n) chunks |
| AudioUtils.PaddedChunksConcat | src/utils.py:70-74 | the chunks laid end to end are the input followed by fewer than n pad values |
| AudioUtils.Int16 | src/utils.py:67 | a little-endian byte pair reads as a value in [-32768, 32768) |
| AudioUtils.Int16Bytes | src/utils.py:77 | a sample is written as two bytes |
| AudioUtils.Int16RoundTrip | src/utils.py:67-77 | writing a 16-bit value and reading it back gives the value |
| AudioUtils.Samples | src/utils.py:67 | the PCM holds len/2 samples, the i-th made of bytes 2i and 2i+1 |
| AudioUtils.PcmToOpus | src/utils.py:47-84 | the method returns the input without the codec; an odd length or a zero frame size fails; else the encoded padded frames, joined |
| AudioUtils.NoOpusRoundTrip | src/utils.py:55-98 | without the codec, decoding the encoded PCM gives the PCM back |
| AudioUtils.EncodedFrames | src/utils.py:70-81 | ceil(samples/frame_size) frames, each frame_size samples, concatenating to the samples plus zero padding |
| Logger.LStrip | src/logger.py:61 | `lstrip` drops exactly a whitespace prefix and leaves a non-space first character |
| Logger.RStrip | src/logger.py:61 | `rstrip` drops exactly a whitespace suffix and leaves a non-space last character |
| Logger.RemoveAll | src/logger.py:53-60 | `replace(t, '')` never lengthens the text |
| Logger.RemoveAllAbsent | src/logger.py:53-60 | `replace` leaves a text without the tag unchanged |
| Logger.RemoveAllKeepsPrefix | src/logger.py:53-60 | a prefix in which the tag cannot start is kept in front of the cleaned rest |
| Logger.RemoveAllShort | src/logger.py:53-60 | a text shorter than the tag is unchanged |
| Logger.RemoveTags | src/logger.py:53-60 | the seven tag removals never lengthen the text |
| Logger.RemoveTagsKeepsPrefix | src/logger.py:53-60 | the `[client_id] ` prefix survives all seven removals |
| Logger.RemoveTagsAbsent | src/logger.py:53-60 | a text in which no tag starts is unchanged by the removals |
| Logger.RemoveTagsLeading | src/logger.py:53-60 | a text that opens with one of the tags, followed by text in which no tag starts, loses exactly that tag |
| Logger.LogDebugPrefix | src/logger.py:44-62 | with a client id the logged text starts with `[client_id]` and is the stripped prefix plus cleaned message; without one, the stripped cleaned message |
| Logger.LogDebugDropsTag | src/logger.py:44-62 | without a client id, a message that opens with a debug tag is logged as the stripped rest |
| Logger.FlowTimestamp | src/logger.py:68 | the timestamp has the `HH:MM:SS.mmm` shape the flow-log parser expects |
| Logger.FlowTimestampMillis | src/logger.py:68 | the timestamp is the two-digit h, m, s fields and `us // 1000` as three digits: truncated, not rounded |
| Progress.InitialStages | src/progress.py:21-30 | the stage table has exactly the eight stage names, all at 0 |
| Progress.BumpedOnlyNamed | src/progress.py:32-36 | `update_stage` changes only the named stage, by exactly delta, and leaves an unknown name's table unchanged |
| Progress.Trunc | src/progress.py:69 | `int()` truncates toward zero |
| Progress.TruncMonotone | src/progress.py:69 | truncation is monotone |
| Progress.Fraction | src/progress.py:68 | the progress fraction lies in [0, 1] |
| Progress.FractionMonotone | src/progress.py:68 | more completions never lower the fraction |
| Progress.ScaleMonotone | src/progress.py:69 | scaling by a non-negative width keeps the order |
| Progress.FilledBounds | src/progress.py:69 | `int(width * progress)` lies between 0 and the width when progress is in [0, 1] |
| Progress.FilledCellsMonotone | src/progress.py:69 | a larger fraction never fills fewer cells |
| Progress.Bar | src/progress.py:70 | the bar is exactly width long and cell i is `█` iff i < filled |
| Progress.EtaOf | src/progress.py:75-81 | the ETA is done iff nothing remains; for a non-negative remaining count, unknown iff something remains and nothing completed |
| Progress.ProgressOf | src/progress.py:64-84 | bar of exactly width cells with `█` exactly in the first `filled`; displayed completions ≤ total; remaining = max(total − completed, 0); ETA is done iff remaining is 0, unknown iff none completed and some remain |
| Progress.FilledMonotone | src/progress.py:68-69 | more completions never give fewer filled cells |
| Progress.AllCompletedFullBar | src/progress.py:68-83 | once all of at least one session completed, the bar is full and the ETA says done |
| Progress.ProgressTracker.constructor | src/progress.py:11-30 | counters at 0 and the stage table as `InitialStages` |
| Progress.ProgressTracker.UpdateStage | src/progress.py:32-36 | the stage table becomes `Bumped(old, stage, delta)`, so the eight names are kept |
| Progress.ProgressTracker.IncrementActive | src/progress.py:38-41 | active grows by one |
| Progress.ProgressTracker.DecrementActive | src/progress.py:43-47 | active shrinks by one only when positive, so it never goes below 0 |
| Progress.ProgressTracker.SetActive | src/progress.py:49-52 | active becomes the given count |
| Progress.ProgressTracker.IncrementCompleted | src/progress.py:54-57 | completed grows by one, nothing else changes |
| Progress.ProgressTracker.IncrementFailed | src/progress.py:59-62 | failed grows by one, nothing else changes |
| Progress.ProgressTracker.ProgressBar | src/progress.py:64-84 | the bar is width long with 0 ≤ filled ≤ width; the ETA is done iff completed ≥ total |
| Metrics.CountDelayed | src/metrics.py:166 | the delayed count never exceeds the number of intervals |
| Metrics.CountDelayedAppend | src/metrics.py:163-167 | delayed counts add over concatenation |
| Metrics.CountDelayedExtremes | src/metrics.py:166 | count 0 iff no interval is above 65 ms; count = length iff all are |
| Metrics.PeakRate | src/metrics.py:179-181 | the peak rate is never negative |
| Metrics.PeakRateBounds | src/metrics.py:179-181 | the peak is at least every rate over a positive duration and is 0 or one of them |
| Metrics.TrafficSnoc | src/metrics.py:169-181 | a new record adds its bytes to the total and raises the peak to its rate when higher |
| Metrics.KeepRecent | src/metrics.py:197-203 | append; past 100 entries keep exactly the last 50; the result is a suffix of the extended list |
| Metrics.KeepRecentBounded | src/metrics.py:197-203 | from at most 100 entries the list stays at most 100 and ends with the new rate |
| Metrics.Clean | src/metrics.py:218-219 | `re.sub(r'[^\w]', '', s)` keeps only word characters and never lengthens |
| Metrics.CleanAppend | src/metrics.py:218-219 | cleaning distributes over concatenation |
| Metrics.CleanWords | src/metrics.py:218-219 | word-only text is unchanged; cleaning is idempotent |
| Metrics.CleanSnoc | src/metrics.py:218-219 | one more character is kept iff it is a word character |
| Metrics.AccurateIffOccurs | src/metrics.py:214-226 | accurate iff the cleaned expected text occurs in the cleaned actual text |
| Metrics.AccurateWhenEmbedded | src/metrics.py:221 | a transcript containing the expected text is accurate |
| Metrics.CaseSensitive | src/metrics.py:221 | the comparison is case-sensitive: "Hi" is not found in "hi." |
| Metrics.PunctuationIgnored | src/metrics.py:218-221 | punctuation and spaces are ignored: "你好，世界" is found in "你好 世界！" |
| Metrics.RealLeTotalPreorder | src/metrics.py:257 | the order `sorted` uses on durations is a total preorder |
| Metrics.SumBounds | src/metrics.py:261 | a sum of values in [lo, hi] lies between n·lo and n·hi |
| Metrics.PercentileIndex | src/metrics.py:265-266 | `int(count·0.95)` and `int(count·0.99)` are valid indices for count > 0 |
| Metrics.SortedFacts | src/metrics.py:257-264 | the sorted copy is a sorted permutation whose first and last entries bound every entry |
| Metrics.MedianBounds | src/metrics.py:262 | the median of a sorted series lies between its ends |
| Metrics.StatsOfSorted | src/metrics.py:258-267 | the count is the length of the series |
| Metrics.StatsOfSortedBounds | src/metrics.py:258-267 | mean, median, p95 and p99 lie between min and max |
| Metrics.SafeStats | src/metrics.py:254-267 | all zeros for an empty series; the count is the length |
| Metrics.SafeStatsBounds | src/metrics.py:254-267 | min and max are entries that bound every entry; mean, median, p95 and p99 lie between them |
| Metrics.MeanBounds | src/metrics.py:261 | a mean of values in [lo, hi] lies in [lo, hi] |
| Metrics.RatioBounds | src/metrics.py:316 | `num / max(den, 1)` lies in [0, 1] when 0 ≤ num ≤ den, and is num when den ≤ 1 |
| Metrics.CountAccurate | src/metrics.py:399 | the accurate count is at most the number of results |
| Metrics.GoodRateThreshold | src/metrics.py:377-379 | `delay_rate < 0.1` iff 10 times the delayed count is below the guarded denominator |
| Metrics.TestMetrics.constructor | src/metrics.py:13-77 | every series empty and every counter 0 |
| Metrics.TestMetrics.RecordConnectionTime | src/metrics.py:89-98 | duration always appended; total = success + fail kept; error type counted only on failure |
| Metrics.TestMetrics.RecordHelloResponseTime | src/metrics.py:100-109 | duration appended only on success; total + 1; timeout ≤ fail and total = success + fail kept |
| Metrics.TestMetrics.RecordDetectResponseTime | src/metrics.py:111-121 | same counter bookkeeping and invariants as hello |
| Metrics.TestMetrics.RecordAudioSendTime | src/metrics.py:123-130 | duration always appended; total = success + fail kept |
| Metrics.TestMetrics.RecordSttTime | src/metrics.py:132-143 | duration, and an accuracy score if given, kept only on success; counters as for hello |
| Metrics.TestMetrics.RecordSttToStartTime | src/metrics.py:145-151 | duration kept only on success; success or fail grows by one |
| Metrics.TestMetrics.RecordAudioReceiveTime | src/metrics.py:153-161 | duration kept only on success; timeout counted only on failure |
| Metrics.TestMetrics.RecordFrameInterval | src/metrics.py:163-167 | interval appended; the delayed count stays the number of intervals above 65 ms |
| Metrics.TestMetrics.RecordAudioTrafficReceived | src/metrics.py:169-181 | record appended; the total stays the sum of bytes; the peak stays the maximum rate and never decreases |
| Metrics.TestMetrics.RecordAudioTrafficSent | src/metrics.py:183-195 | the same for sent traffic |
| Metrics.TestMetrics.UpdateCurrentAudioRate | src/metrics.py:197-203 | the rate list becomes `KeepRecent(old, rate)`, so it stays at most 100 long |
| Metrics.TestMetrics.RecordRealAudioSendTime | src/metrics.py:205-212 | duration always appended; success or fail grows by one |
| Metrics.TestMetrics.RecordSttAccuracy | src/metrics.py:214-226 | one result appended, accurate iff `IsAccurate` |
| Metrics.TestMetrics.RecordAudioResponseTime | src/metrics.py:228-231 | duration appended |
| Metrics.TestMetrics.RecordServerProcessingTime | src/metrics.py:233-236 | duration appended |
| Metrics.TestMetrics.RecordDetectError | src/metrics.py:238-245 | the error record appended |
| Metrics.TestMetrics.RecordProtocolError | src/metrics.py:247-249 | the error type's count grows by one |
| Metrics.TestMetrics.GetStats | src/metrics.py:251-309 | the frame-interval section counts every recorded interval |
| Metrics.TestMetrics.StatsCountsAgree | src/metrics.py:251-309 | in a valid state each section's count agrees with its counters, and delayed frames are the intervals above 65 ms |
| Metrics.TestMetrics.GetSummary | src/metrics.py:311-410 | accurate count ≤ total tests = number of accuracy results |
| Metrics.TestMetrics.SummaryRatesBounded | src/metrics.py:311-410 | every success rate, the delay rate and the accuracy rate lie in [0, 1], also with nothing recorded |
| Metrics.TestMetrics.SummaryGoodRate | src/metrics.py:377-379 | the frame timing is good iff fewer than a tenth of the intervals were delayed |
| ClientAudio.EncodeToOpusFrames | src/client.py:171-187 | frame size 0 fails as `range()` would; else the frames are the PCM cut into padded chunks of the frame size |
| ClientAudio.DefaultFrames | src/client.py:175-187 | at 16 kHz every frame is 1920 bytes, there are ceil(len/1920) of them, and together they are the PCM plus fewer than 1920 zero bytes |
| ClientAudio.SendFillerFrames | src/client.py:331-358 | at most 100 frames; each sent only while `self.websocket` is set and the answer has not come; stops at the first check that fails, so the number sent is `FillerCount` of the two observations |
| ClientAudio.FillerCountIsFirstStop | src/client.py:336-350 | the filler count is exactly the first frame index at which `self.websocket` is unset or the answer has come, capped at 100 |
| ClientAudio.FillerStopsAtAnswer | src/client.py:336-350 | with `self.websocket` set throughout, exactly min(first answer index, 100) silence frames are sent: the answer stops the filler at once |
| ClientAudio.FillerStopsAtUnset | src/client.py:336-350 | with no answer, exactly min(first unset index, 100) silence frames are sent: an unset socket attribute stops the filler at once |
| ClientAudio.PaceFrames | src/client.py:389-414 | frames sent only while `self.websocket` is set; each wait is non-negative and reaches the next target; lagging frames (more than 10 ms late) are reported in order |
| Client.TallyAppend | src/client.py:98-123 | call tallies add over concatenation |
| Client.ConsistentAfter | src/client.py:583-944 | a step that logs each once-per-round call exactly when it raises the flag keeps flags and log in agreement, so each tally is at most 1 |
| Client.KeepValid | src/client.py:583-944 | for an ordered state, a keeping step preserves the agreement |
| Client.InitialConsistent | src/client.py:26-91 | a new client agrees with the empty log |
| Client.CompleteTestKeeps | src/client.py:98-123 | `complete_test` keeps the agreement |
| Client.QuietKeeps | src/client.py:583-944 | a step that raises no flag and logs only quiet calls keeps the agreement |
| Client.ConnectKeeps | src/client.py:217-246 | `connect` keeps the agreement |
| Client.SendHelloKeeps | src/client.py:248-275 | `send_hello` keeps the agreement |
| Client.SendDetectKeeps | src/client.py:277-306 | `send_detect_message` keeps the agreement |
| Client.RealAudioBeginKeeps | src/client.py:365-373 | entering `send_real_audio` keeps the agreement |
| Client.RealAudioDisconnectedKeeps | src/client.py:415-421 | the disconnect exit keeps the agreement |
| Client.RealAudioFramesSentKeeps | src/client.py:423-430 | the frames-sent step keeps the agreement |
| Client.RealAudioFinishedKeeps | src/client.py:446-461 | the finish step keeps the agreement |
| Client.RealAudioFailedKeeps | src/client.py:463-475 | the failure exit keeps the agreement |
| Client.ReceptionClosedKeeps | src/client.py:702-734 | closing the reception keeps the agreement |
| Client.PhaseStopKeeps | src/client.py:735-759 | the phase change at `tts stop` keeps the agreement |
| Client.ComposeKeeps | src/client.py:702-759 | two keeping steps in a row keep the agreement |
| Client.TtsStopKeeps | src/client.py:702-759 | `tts stop` keeps the agreement |
| Client.TtsKeeps | src/client.py:664-759 | the `tts` arm keeps the agreement |
| Client.TtsOtherKeeps | src/client.py:664-701 | `tts start` and `sentence_start` keep the agreement |
| Client.RaiseKeeps | src/client.py:583-944 | a step whose first call raises exactly its flag and whose other calls are quiet keeps the agreement |
| Client.HelloKeeps | src/client.py:590-601 | the hello arm keeps the agreement |
| Client.SttKeeps | src/client.py:603-662 | the stt arm keeps the agreement |
| Client.StartKeeps | src/client.py:768-787 | the start arm keeps the agreement |
| Client.BinaryKeeps | src/client.py:826-944 | `handle_binary_message` keeps the agreement |
| Client.EventKeeps | src/client.py:569-581 | every received message keeps the agreement |
| Client.EventKeepsValid | src/client.py:569-581 | every received message carries a consistent state and log to a consistent one |
| Client.ResetConsistent | src/client.py:946-996 | after a reset the state agrees with an empty log |
| Client.CompleteTestOnce | src/client.py:98-123 | the first call decrements `audio_sending`/`audio_receiving` iff their flags were set, clears both and counts one completion; a second call changes nothing |
| Client.HelloOnce | src/client.py:590-601 | the first hello stores the session id and records latency and stage; any later one is ignored |
| Client.DetectFirstFrame | src/client.py:833-854 | the first frame after detect records the latency once, closes `detect`, starts receiving with frame count 1 and that frame's bytes; a later frame does not record it again |
| Client.SttOnlyAnswersRealAudio | src/client.py:603-662 | stt changes something only after real audio was sent; it then records accuracy and marks processing complete |
| Client.LaterFrameAccounting | src/client.py:905-944 | while receiving, a frame adds its bytes and one frame; its interval is recorded iff a previous frame time exists and the interval is in [0, 1000] ms |
| Client.AllInRangeAppend | src/client.py:583-944 | the in-range property holds for a concatenation of in-range logs |
| Client.SttInRange | src/client.py:635-641 | the STT latency recorded is never negative |
| Client.TtsInRange | src/client.py:702-759 | `tts` records no negative latency and no interval out of range |
| Client.StartInRange | src/client.py:768-787 | `start` records no negative latency |
| Client.BinaryInRange | src/client.py:856-933 | perceived and server-processing latencies are clamped to 0; recorded intervals lie in [0, 1000] ms |
| Client.RecordedValuesInRange | src/client.py:583-944 | whatever arrives, no latency is recorded negative and no interval outside [0, 1000] ms |
| Client.CompleteTestQuiet | src/client.py:98-123 | `complete_test` makes only quiet calls besides the completion |
| Client.QuietTally | src/client.py:583-944 | a log of quiet calls tallies nothing |
| Client.ReceptionClosedQuiet | src/client.py:702-734 | closing the reception clears `audio_receiving`, changes no phase flag and makes only quiet calls |
| Client.TtsStopPhases | src/client.py:735-759 | `tts stop` moves the detect phase to the real-audio phase once; with real audio sent it completes the test; otherwise it only leaves `waiting_response` |
| Client.ResetLikeNew | src/client.py:946-996 | the reset gives the state of a new client, except the two attributes it does not touch |
| Client.XiaozhiTestClient.constructor | src/client.py:26-91 | the new client's state is `Initial()` with an empty log, consistently |
| Client.XiaozhiTestClient.CompleteTest | src/client.py:98-123 | the state and calls are those of `AfterCompleteTest` |
| Client.XiaozhiTestClient.Connect | src/client.py:217-246 | the result is whether the socket opened; state and calls follow `AfterConnect` |
| Client.XiaozhiTestClient.SendHello | src/client.py:248-275 | the result is whether the send worked; state and calls follow `AfterSendHello` |
| Client.XiaozhiTestClient.SendDetectMessage | src/client.py:277-306 | the result is whether the send worked; state and calls follow `AfterSendDetect` |
| Client.XiaozhiTestClient.RealAudioBegin | src/client.py:360-373 | fails without audio for the text; else the sending stage opens |
| Client.XiaozhiTestClient.RealAudioDisconnected | src/client.py:415-421 | the sending stage closes |
| Client.XiaozhiTestClient.RealAudioFramesSent | src/client.py:423-430 | `real_audio_sent`, the expected text and the end time are set |
| Client.XiaozhiTestClient.RealAudioFinished | src/client.py:446-461 | the send time and traffic are recorded and the stage closes |
| Client.XiaozhiTestClient.RealAudioFailed | src/client.py:463-475 | a failed send is recorded and the stage closes |
| Client.XiaozhiTestClient.OnHello | src/client.py:590-601 | state and calls follow `AfterHello` |
| Client.XiaozhiTestClient.OnStt | src/client.py:603-662 | state and calls follow `AfterStt` |
| Client.XiaozhiTestClient.CloseReception | src/client.py:702-734 | state and calls follow `AfterReceptionClosed` |
| Client.XiaozhiTestClient.PhaseStop | src/client.py:735-759 | state and calls follow `AfterPhaseStop` |
| Client.XiaozhiTestClient.OnTtsStop | src/client.py:702-759 | state and calls follow `AfterTtsStop` |
| Client.XiaozhiTestClient.OnTts | src/client.py:664-759 | state and calls follow `AfterTts` |
| Client.XiaozhiTestClient.OnStart | src/client.py:768-787 | state and calls follow `AfterStart` |
| Client.XiaozhiTestClient.HandleTextMessage | src/client.py:583-824 | state and calls follow `AfterText` |
| Client.XiaozhiTestClient.HandleBinaryMessage | src/client.py:826-944 | state and calls follow `AfterBinary` |
| Client.XiaozhiTestClient.OnLaterFrame | src/client.py:905-944 | state and calls follow `AfterLaterFrame` |
| Client.XiaozhiTestClient.Receive | src/client.py:569-581 | state and calls follow `AfterEvent`, and a consistent client stays consistent |
| Client.XiaozhiTestClient.ResetForNextRound | src/client.py:946-996 | state becomes `AfterReset`, the log starts empty, and the client is consistent |
| Table.WidthAppend | src/tester.py:43-48 | display width adds over concatenation |
| Table.WidthBounds | src/tester.py:43-48 | width lies between the length and twice the length |
| Table.WidthAscii | src/tester.py:43-48 | ASCII text is as wide as it is long |
| Table.ULen | src/tester.py:43-48 | the loop computes the display width |
| Table.JoinWidth | src/tester.py:57-58 | a join is as wide as its parts plus (n − 1) separators |
| Table.PaddedPartsWidth | src/tester.py:64-69 | n parts of width w_i + 2 plus n + 1 bars give the table width |
| Table.ColumnWidthIsMax | src/tester.py:52-56 | the column width is at least the header and every present cell, and equals one of them |
| Table.Widths | src/tester.py:52 | one width per header |
| Table.ColumnWidths | src/tester.py:52-56 | the nested loops compute `Widths`; cells past the header count are ignored |
| Table.PadToWidth | src/tester.py:59-63 | never truncates; text already wide enough is unchanged; padding is spaces up to exactly `width` |
| Table.SpacesWidth | src/tester.py:63 | n spaces are n wide |
| Table.PaddedCells | src/tester.py:64-68 | one padded cell per column |
| Table.RenderRow | src/tester.py:64-69 | the loop builds `RowText`; a missing cell is `''` |
| Table.SepWidth | src/tester.py:57-58 | a separator is `TableWidth` wide |
| Table.PaddedCellWidth | src/tester.py:67 | a padded cell is w + 2 wide |
| Table.RowWidth | src/tester.py:64-69 | a rendered row is `TableWidth` wide |
| Table.RowLines | src/tester.py:76-77 | one line per row |
| Table.TableLines | src/tester.py:70-79 | rows + 4 lines, or + 5 with the title first |
| Table.RenderTable | src/tester.py:40-79 | lines are `TableLines` and the text is their join with newlines |
| Table.TableAligned | src/tester.py:57-79 | with at least one header, every separator and row has the same width, sum of (w_i + 3) + 1 |
| Tester.DeviceId | src/tester.py:391 | the id is `xiaozhi-test-` followed by at least six digits |
| Tester.DeviceIdInjective | src/tester.py:391 | distinct client ids give distinct device ids |
| Tester.RunSingleTest | src/tester.py:406-422 | rounds 1..n run in order with a reset between consecutive rounds and none after the last |
| Tester.FindFrom | src/tester.py:366 | the result is the first position of the character from `from`, or none |
| Tester.MessageMatch | src/tester.py:302 | `.*$` matches a line without newlines whole |
| Tester.ParseRest | src/tester.py:302 | the parsed entry keeps ts and cid; its stage has no `]` and its message no newline |
| Tester.ParseFlowLine | src/tester.py:302-311 | a parsed entry has a valid timestamp, a non-empty cid without `]`, a stage without `]` and a message without newline |
| Tester.FindFromSkips | src/tester.py:302 | the scan finds the first occurrence |
| Tester.ParseHead | src/tester.py:302 | the `[ts] [cid]` head parses and hands the rest on |
| Tester.StagePartOf | src/tester.py:302 | ` [stage] msg` parses to that stage and message |
| Tester.FlowLineRoundTrip | src/logger.py:70 | a flow line with a stage parses back into the same ts, cid, stage and message |
| Tester.FlowLineNoStage | src/logger.py:72 | a stageless line whose message does not look like a stage parses back with an empty stage |
| Tester.StagelessMessageReadAsStage | src/tester.py:302 | a stageless message `[x] y` is read back with stage `x` |
| Tester.TimeKeyOfFlowTimestamp | src/tester.py:314-316 | the key of a flow timestamp is h·3600000 + m·60000 + s·1000 + ms |
| Tester.MillisOfDayOrder | src/tester.py:316 | keys order timestamps as (h, m, s, ms) lexicographically |
| Tester.ParsedRecords | src/tester.py:303-319 | at most one record per line |
| Tester.ParseFlowLog | src/tester.py:303-319 | the loop keeps the matching lines' records, in order |
| Tester.EntryLines | src/tester.py:329-332 | one line per entry |
| Tester.RecordsOf | src/tester.py:319 | one record per entry |
| Tester.ParsedRecordsOfFlowLog | src/tester.py:303-319 | a log of well-formed lines parses to exactly their records |
| Tester.KeyLeTotalPreorder | src/tester.py:321 | the (cid, ms) order is total and transitive |
| Tester.SortedContiguous | src/tester.py:321 | sorted by (cid, ms), each device's records are contiguous |
| Tester.WritesSnoc | src/tester.py:325-332 | one more record adds an optional banner and its line |
| Tester.WriteSorted | src/tester.py:323-332 | the writing loop produces `Writes` |
| Tester.CidsMember | src/tester.py:325-328 | a device is in `Cids` iff some record has it |
| Tester.NewCid | src/tester.py:326 | in a contiguous sequence a changed device has not been seen before |
| Tester.NewCidIff | src/tester.py:326-328 | in a contiguous sequence a banner is written iff the device is new |
| Tester.BannerStep | src/tester.py:326-328 | one more record keeps exactly one banner per device |
| Tester.BannersOnce | src/tester.py:326-328 | a contiguous sequence gets exactly one banner per device, and no others |
| Tester.LinesOfAppend | src/tester.py:329-332 | record lines add over concatenation |
| Tester.WritesLines | src/tester.py:329-332 | the record lines come out one per record, in order |
| Tester.ReorderClientFlowLog | src/tester.py:293-332 | output is `Writes` of the parsed records sorted by (cid, ms) |
| Tester.FlowLogReordered | src/tester.py:293-332 | the output holds every parsed record once, sorted by (cid, ms), in order, with exactly one banner per device |
| Tester.ExtractCid | src/tester.py:363-369 | the cid is the text between a leading `[` and the first `]`, else `GLOBAL` |
| Tester.ExtractCidOfPrefixed | src/tester.py:363-369 | a message opening with `[cid]` yields that cid |
| Tester.BracketPrefix | src/tester.py:364 | a `[cid]` prefix puts the brackets and cid at the expected positions |
| Tester.DebugMessageCid | src/tester.py:363-372 | a `log_debug` message with a client id is kept under that id |

## Left out

- The WebSocket transport and asyncio orchestration are left out because they
  are concurrency and I/O. This covers:
  - the network call in `connect`;
  - `run_test`'s timeouts and cancellation;
  - `start_real_audio_test`'s sleeps;
  - `send_listen_start`;
  - `run_concurrent_tests` and `run_full_test`.
  - `receive_messages` is modelled as one step per message.
- Clocks become parameters: `get_precise_time`, `perf_counter` and `time.time`
  are passed in as `now`, `wall` and `later`, or as a sequence of readings.
- `Client.AfterTtsStop` (and `AfterReceptionClosed`, `CloseReception`,
  `OnTtsStop`) use one wall-clock reading `wall` for the whole `tts stop`
  step. The source reads `time.time()` twice (src/client.py:701 and 722).
  The first reading gives the receive duration. The second, taken later,
  gives the received-traffic duration passed to
  `record_audio_traffic_received`. So the model's traffic duration can be
  slightly shorter than the source's.
- The real-audio send is split at its await points:
  - `RealAudioBegin`, `RealAudioFramesSent`, `RealAudioFinished`,
    `RealAudioDisconnected` and `RealAudioFailed`;
  - the frame loop in between is `ClientAudio.PaceFrames`.
- `send_real_audio`'s `except` arm is modelled as one failure step; which
  statement raised is not modelled.
- A connection the peer closes mid-round leaves `self.websocket` set (it is
  cleared only at src/client.py:34 and 949), so the next send raises. That
  shows up as `RealAudioFailed`, not as an early stop of
  `ClientAudio.SendFillerFrames` or `ClientAudio.PaceFrames`, whose
  `socketSet` input is the attribute test, not the connection state.
- The locks in `TestMetrics` and `ProgressTracker` are left out. Each method is
  one atomic step.
- Floating point is not modelled:
  - values are exact reals;
  - `int(x)` on a float is floor for non-negative values;
  - the percentile products `count·0.95` and `count·0.99` are exact rationals.
  - So results that differ only by float rounding are not captured.
- `Metrics.SafeStats`: `statistics.mean` and `statistics.median` are exact real
  averages, not float results.
- The opus, numpy and wave code is outside the model:
  - the opuslib branch of `encode_to_opus_frames`;
  - `generate_opus_silence_frame`, `load_real_audio_data` and
    `generate_default_audio`;
  - `load_audio_file`, `generate_sine_wave_audio` and `save_pcm_as_wav`.
  - The encoder and decoder are abstract functions.
- `AudioUtils.PcmToOpus` models numpy's failure on an odd byte count and
  `range()`'s on a zero step as `Failure` values. A negative frame size yields
  no frames, as `range` does.
- `unicodedata.east_asian_width` is the `wide` parameter of `Table`. The width
  results assume ASCII characters are narrow (`NarrowAscii`).
- Python's Unicode `\w` class is the `isWord` parameter of `Metrics`. The case
  lemmas assume the ASCII word characters are letters, digits and `_`.
- `Table.RenderTable` takes cells that are already strings. The `str()`
  conversion of non-string cells is not modelled.
- `Format.DigitsValue`, `Logger.IsTimestamp` and `Tester.ParseFlowLine` read
  ASCII digits only. Python's `int()` and the regex `\d` at src/tester.py:302
  also accept other Unicode decimal digits, which cannot occur in timestamps
  the logger writes.
- Only the reachable branches of `handle_text_message` are modelled. The arms
  at src/client.py:789-820 and the `tts` half of src/client.py:768 sit after
  the `tts` arm at src/client.py:664, which takes every `tts` message, so they
  never run.
- The `llm` arm (src/client.py:761-766) has no effect and is modelled as a
  step that changes nothing.
- Left out of the metrics and progress classes:
  - `get_distribution_series`;
  - `get_status_line`;
  - the average, MB and kbps fields of `get_summary`.
  - These are float formatting or copies of the lists.
- `reorder_standard_log`: only the device-id extraction is modelled.
  - The date regex and `_parse_dt_to_ms` depend on `strptime` and the local
    timezone.
  - Its sort and write repeat `reorder_client_flow_log`, which is modelled.
- The file reads and writes in `reorder_*` are left out. Lines come in as a
  sequence of strings, and the output is a sequence of banners and lines.
- Tester.FlowLogReordered: does not state that records with equal (cid, ms)
  keep their input order, as Python's stable sort does. `Sorting.SortBy` is
  proved sorted and a permutation only.
- Exceptions in `run_single_test` are not modelled. The round loop is modelled
  as its trace of test runs and resets.
- Display and report output are left out: `display_loop`,
  `display_current_status`, `print_final_results` and the matplotlib charts.
- The logger handler setup, the import-time configuration and `run_test.py`
  are left out.
- Not modelled: the stage counters `hello`, `detect` and `waiting_response`
  balancing to zero over a round. The source does not keep that balance:
  - a hello timeout does not decrement `hello`;
  - a detect timeout does not decrement `detect`;
  - `waiting_response` is decremented without a guaranteed earlier increment.
