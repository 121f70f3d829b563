/**
 * The per-client protocol state machine of `XiaozhiTestClient` in
 * `client.py`: the flags, timestamps and counters of one test round, the
 * handlers that move them forward for each message from the server, the
 * sending steps around them, `complete_test` and `reset_for_next_round`.
 *
 * `Session` is the abstract value of a client and the `After*` functions say
 * what each step does to it and which calls it makes on the shared
 * `TestMetrics` and `ProgressTracker`; the class `XiaozhiTestClient` keeps
 * the same state in fields and its methods are proved to follow those
 * functions. Calls on the shared objects are appended to a ghost log of the
 * current round. Clock readings are parameters: `now` for
 * `get_precise_time()`, `wall` for `time.time()` and `later` for the second
 * precise reading the binary handler takes.
 */
module Client {
  import Metrics

  /** A call the client makes on `progress` or `metrics`, with its arguments. */
  datatype Call =
    | UpdateStage(stage: string, delta: int)
    | IncrementActive
    | IncrementCompleted
    | RecordConnectionTime(duration: real, success: bool, errorType: string)
    | RecordHelloResponseTime(duration: real, success: bool, timeout: bool)
    | RecordDetectResponseTime(duration: real, success: bool, timeout: bool)
    | RecordSttAccuracy(expected: string, actual: string)
    | RecordSttTime(duration: real, success: bool, accuracy: real)
    | RecordSttToStartTime(duration: real, success: bool)
    | RecordAudioReceiveTime(duration: real, success: bool, timeout: bool)
    | RecordFrameInterval(interval: real)
    | RecordAudioTrafficReceived(clientId: string, bytes: nat, duration: real)
    | RecordAudioTrafficSent(clientId: string, bytes: nat, duration: real)
    | UpdateCurrentAudioRate(rate: real)
    | RecordRealAudioSendTime(duration: real, success: bool)
    | RecordAudioResponseTime(duration: real)
    | RecordServerProcessingTime(duration: real)
    | StartRealAudioTest

  /** The connection, the hello exchange and the identifiers of the round (the socket reduced to whether the `websocket` attribute is set). */
  datatype Link = Link(
    sessionId: string,
    detectSessionId: string,
    expectedSttText: string,
    websocketSet: bool,
    connected: bool,
    helloSent: bool,
    hasFailed: bool,
    connectionStartTime: real,
    helloSendTime: real,
    helloReceiveTime: real)

  /** The flags that say how far the round has come. */
  datatype Flags = Flags(
    helloReceived: bool,
    detectSent: bool,
    detectAudioReceived: bool,
    testCompleted: bool,
    audioSending: bool,
    audioReceiving: bool,
    realAudioPhase: bool,
    realAudioSent: bool,
    serverProcessingComplete: bool,
    sttCompleted: bool)

  /** The timestamps the latencies are measured from. */
  datatype Times = Times(
    detectSendTime: real,
    detectAudioReceiveTime: real,
    audioSendStartTime: real,
    audioSendEndTime: real,
    sttCompleteTime: real,
    startReceiveTime: real,
    audioReceiveStartTime: real,
    realAudioSendEndTime: real,
    serverSttStartTime: real)

  /** The frame and segment statistics of the audio being received. */
  datatype Reception = Reception(
    audioStartTime: real,
    lastFrameTime: real,
    frameCount: nat,
    currentSegmentStartTime: real,
    segmentFrameCount: nat,
    segmentIntervals: seq<real>,
    totalSegments: nat,
    completedSegments: nat,
    segmentFrameRates: seq<real>,
    totalAudioBytes: nat)

  /** The instance state of one client: its 39 attributes, in four groups. */
  datatype Session = Session(link: Link, flags: Flags, times: Times, rx: Reception)

  /** What one step leaves behind: the new state and the calls it made, in order. */
  datatype Step = Step(next: Session, calls: seq<Call>)

  /** A text message from the server, by its `type` (and `state` for `tts`). */
  datatype TextMessage = Hello(sessionId: string) | Stt(text: string) | Tts(state: string) | Llm | Start | Unrecognised

  /** What `receive_messages` hands on: a text message or a binary frame of `length` bytes. */
  datatype Event = Text(message: TextMessage) | Binary(length: nat)

  /** The state `__init__` sets up, and `reset_for_next_round` returns to. */
  function Initial(): Session {
    Session(Link("", "", "", false, false, false, false, 0.0, 0.0, 0.0),
            Flags(false, false, false, false, false, false, false, false, false, false),
            Times(0.0, 0.0, 0.0, 0.0, 0.0, 0.0, 0.0, 0.0, 0.0),
            Reception(0.0, 0.0, 0, 0.0, 0, [], 0, 0, [], 0))
  }

  /** A negative latency is recorded as 0. */
  function Clamp(x: real): real {
    if x < 0.0 then 0.0 else x
  }

  // ---------------------------------------------------------------------
  // Bookkeeping

  /** `complete_test`: the first call closes the open stages and counts the session completed. */
  function AfterCompleteTest(s: Session): Step {
    if s.flags.testCompleted then Step(s, [])
    else
      var sending := if s.flags.audioSending then [UpdateStage("audio_sending", -1)] else [];
      var receiving := if s.flags.audioReceiving then [UpdateStage("audio_receiving", -1)] else [];
      Step(s.(flags := s.flags.(testCompleted := true, audioSending := false, audioReceiving := false)),
           sending + receiving + [IncrementCompleted])
  }

  /** `reset_for_next_round`: everything back to the start, except the two attributes it does not list. */
  function AfterReset(s: Session): Session {
    var i := Initial();
    i.(link := i.link.(detectSessionId := s.link.detectSessionId),
       flags := i.flags.(sttCompleted := s.flags.sttCompleted))
  }

  // ---------------------------------------------------------------------
  // Sending steps

  /** `connect`, with the socket's outcome as `accepted`; `start` and `end` are the clock before and after. */
  function AfterConnect(s: Session, accepted: bool, start: real, end: real, errorType: string): Step {
    if accepted then
      Step(s.(link := s.link.(connectionStartTime := start, websocketSet := true, connected := true)),
           [UpdateStage("connecting", 1), RecordConnectionTime(end - start, true, ""),
            IncrementActive, UpdateStage("connecting", -1)])
    else
      Step(s.(link := s.link.(connectionStartTime := start)),
           [UpdateStage("connecting", 1),
            RecordConnectionTime(if start > 0.0 then end - start else 0.0, false, errorType),
            UpdateStage("connecting", -1)])
  }

  /** `send_hello`, with the send's outcome as `sent`. */
  function AfterSendHello(s: Session, sent: bool, now: real): Step {
    if !s.link.websocketSet || !s.link.connected then Step(s, [])
    else if sent then Step(s.(link := s.link.(helloSendTime := now, helloSent := true)), [UpdateStage("hello", 1)])
    else Step(s.(link := s.link.(helloSendTime := now)), [UpdateStage("hello", 1), UpdateStage("hello", -1)])
  }

  /** `send_detect_message`, with the generated session id and the send's outcome. */
  function AfterSendDetect(s: Session, detectSessionId: string, sent: bool, now: real): Step {
    if !s.link.websocketSet || !s.link.connected then Step(s, [])
    else
      var sending := s.(times := s.times.(detectSendTime := now), link := s.link.(detectSessionId := detectSessionId));
      if sent then Step(sending.(flags := s.flags.(detectSent := true)), [UpdateStage("detect", 1)])
      else Step(sending, [UpdateStage("detect", 1), UpdateStage("detect", -1)])
  }

  /** Entering `send_real_audio`: without audio for the text nothing happens; else the sending stage opens. */
  function AfterRealAudioBegin(s: Session, available: bool): Step {
    if !available then Step(s, [])
    else Step(s.(flags := s.flags.(audioSending := true)), [UpdateStage("audio_sending", 1)])
  }

  /** The socket was gone before a frame: the sending stage closes. */
  function AfterRealAudioDisconnected(s: Session): Step {
    Step(s.(flags := s.flags.(audioSending := false)), [UpdateStage("audio_sending", -1)])
  }

  /** All frames are out: the state the STT handler waits for is set before the filler starts. */
  function AfterRealAudioFramesSent(s: Session, audioText: string, end: real): Step {
    Step(s.(flags := s.flags.(realAudioSent := true), link := s.link.(expectedSttText := audioText),
            times := s.times.(realAudioSendEndTime := end)), [])
  }

  /** After the filler: the send time and the upstream traffic are recorded and the stage closes. */
  function AfterRealAudioFinished(s: Session, deviceId: string, sentBytes: nat, duration: real): Step {
    Step(s.(flags := s.flags.(audioSending := false)),
         [RecordRealAudioSendTime(duration, true), RecordAudioTrafficSent(deviceId, sentBytes, duration),
          UpdateStage("audio_sending", -1)])
  }

  /** The `except` arm of `send_real_audio`. */
  function AfterRealAudioFailed(s: Session, duration: real): Step {
    Step(s.(flags := s.flags.(audioSending := false)), [RecordRealAudioSendTime(duration, false), UpdateStage("audio_sending", -1)])
  }

  // ---------------------------------------------------------------------
  // Text messages

  /** The `hello` arm: only the first answer counts. */
  function AfterHello(s: Session, sessionId: string, now: real): Step {
    if s.flags.helloReceived then Step(s, [])
    else
      Step(s.(link := s.link.(sessionId := sessionId, helloReceiveTime := now), flags := s.flags.(helloReceived := true)),
           [RecordHelloResponseTime(now - s.link.helloSendTime, true, false), UpdateStage("hello", -1)])
  }

  /** The `stt` arm. */
  function AfterStt(s: Session, text: string, now: real): Step {
    if text != [] && !s.flags.detectAudioReceived then Step(s, [])
    else if text != [] && !s.flags.detectSent then
      Step(s.(times := s.times.(sttCompleteTime := now), flags := s.flags.(sttCompleted := true)),
           [RecordSttTime(now - s.times.audioSendStartTime, true, 1.0)])
    else if text != [] && s.flags.realAudioSent && s.link.expectedSttText != [] then
      var latency := if s.times.realAudioSendEndTime > 0.0 then Clamp(now - s.times.realAudioSendEndTime) else 0.0;
      Step(s.(times := s.times.(sttCompleteTime := now, serverSttStartTime := now),
              flags := s.flags.(serverProcessingComplete := true, sttCompleted := true)),
           [RecordSttAccuracy(s.link.expectedSttText, text), RecordSttTime(latency, true, 1.0)])
    else Step(s, [])
  }

  /** The mean of the segment's frame intervals, 0 for none. */
  function MeanInterval(intervals: seq<real>): real {
    if intervals == [] then 0.0 else Metrics.Sum(intervals) / |intervals| as real
  }

  /** The first half of `tts stop`: closing the audio reception, if one is open. */
  function AfterReceptionClosed(s: Session, deviceId: string, wall: real): Step {
    if !s.flags.audioReceiving then Step(s, [])
    else
      var segment := s.flags.realAudioSent && s.rx.segmentFrameCount > 0;
      var traffic := if s.rx.totalAudioBytes > 0 && s.rx.audioStartTime > 0.0
                     then [RecordAudioTrafficReceived(deviceId, s.rx.totalAudioBytes, wall - s.rx.audioStartTime)] else [];
      var rx := if segment
                then s.rx.(segmentFrameRates := s.rx.segmentFrameRates + [MeanInterval(s.rx.segmentIntervals)],
                           completedSegments := s.rx.completedSegments + 1)
                else s.rx;
      Step(s.(rx := rx, flags := s.flags.(audioReceiving := false)),
           [RecordAudioReceiveTime(wall - s.times.audioReceiveStartTime, true, false)] + traffic
           + [UpdateStage("audio_receiving", -1)])
  }

  /** The second half of `tts stop`: which phase ends. */
  function AfterPhaseStop(s: Session): Step {
    if s.flags.detectSent && !s.flags.realAudioPhase then Step(s.(flags := s.flags.(realAudioPhase := true)), [StartRealAudioTest])
    else if s.flags.realAudioPhase && s.flags.realAudioSent then AfterCompleteTest(s)
    else if !s.flags.detectSent then Step(s, [UpdateStage("waiting_response", -1)])
    else AfterCompleteTest(s)
  }

  /** `tts stop`: the reception closes, then the phase ends. */
  function AfterTtsStop(s: Session, deviceId: string, wall: real): Step {
    var closed := AfterReceptionClosed(s, deviceId, wall);
    var phase := AfterPhaseStop(closed.next);
    Step(phase.next, closed.calls + phase.calls)
  }

  /** The `tts` arm, by `state`. */
  function AfterTts(s: Session, deviceId: string, state: string, wall: real): Step {
    if state == "start" && s.flags.detectSent && !s.flags.detectAudioReceived then Step(s, [])
    else if state == "start" && s.flags.realAudioSent then Step(s.(flags := s.flags.(serverProcessingComplete := true)), [])
    else if state == "sentence_start" then
      if s.flags.detectSent && !s.flags.detectAudioReceived then Step(s, [])
      else if s.flags.realAudioSent && s.link.expectedSttText != [] then Step(s, [UpdateStage("waiting_response", 1)])
      else Step(s, [])
    else if state == "stop" then AfterTtsStop(s, deviceId, wall)
    else Step(s, [])
  }

  /** The `start` arm (the legacy flow, taken only before a detect was sent). */
  function AfterStart(s: Session, wall: real): Step {
    if s.flags.detectSent then Step(s, [])
    else
      var receive := if s.times.audioSendStartTime > 0.0 then [RecordAudioReceiveTime(wall - s.times.audioSendStartTime, true, false)] else [];
      var sttToStart := if s.times.sttCompleteTime > 0.0 then [RecordSttToStartTime(wall - s.times.sttCompleteTime, true)] else [];
      Step(s.(times := s.times.(startReceiveTime := wall, audioReceiveStartTime := wall),
              flags := s.flags.(audioReceiving := true), rx := s.rx.(lastFrameTime := wall)),
           [UpdateStage("waiting_response", 1)] + receive + sttToStart)
  }

  /** `handle_text_message`. */
  function AfterText(s: Session, deviceId: string, m: TextMessage, now: real, wall: real): Step {
    match m
    case Hello(sid) => AfterHello(s, sid, now)
    case Stt(text) => AfterStt(s, text, now)
    case Tts(state) => AfterTts(s, deviceId, state, wall)
    case Llm => Step(s, [])
    case Start => AfterStart(s, wall)
    case Unrecognised => Step(s, [])
  }

  // ---------------------------------------------------------------------
  // Binary frames

  /** The interval between two frame readings, in milliseconds. */
  function IntervalMs(last: real, later: real): real {
    (later - last) * 1000.0
  }

  /** A frame that continues an open reception. */
  function AfterLaterFrame(s: Session, length: nat, now: real, later: real): Step {
    var bytes := s.rx.totalAudioBytes + length;
    var interval := IntervalMs(s.rx.lastFrameTime, later);
    var kept := s.rx.lastFrameTime > 0.0 && 0.0 <= interval <= 1000.0;
    var inSegment := kept && s.flags.realAudioSent && s.rx.segmentFrameCount > 0;
    var duration := now - s.rx.audioStartTime;
    Step(s.(rx := s.rx.(totalAudioBytes := bytes,
                        segmentIntervals := if inSegment then s.rx.segmentIntervals + [interval] else s.rx.segmentIntervals,
                        lastFrameTime := later,
                        frameCount := s.rx.frameCount + 1,
                        segmentFrameCount := if s.flags.realAudioSent then s.rx.segmentFrameCount + 1 else s.rx.segmentFrameCount)),
         (if kept then [RecordFrameInterval(interval)] else [])
         + (if s.rx.audioStartTime > 0.0 && duration > 0.0 then [UpdateCurrentAudioRate(bytes as real / duration)] else []))
  }

  /** The reception opened by a first frame of `length` bytes at `now`. */
  function Opened(s: Session, length: nat, now: real): Session {
    s.(flags := s.flags.(audioReceiving := true), times := s.times.(audioReceiveStartTime := now),
       rx := s.rx.(audioStartTime := now, lastFrameTime := now, frameCount := 1, totalAudioBytes := length))
  }

  /** The first frame of the answer to the detect message: the wake-word latency, and the reception opens. */
  function AfterDetectAnswer(s: Session, length: nat, now: real): Step {
    var answered := s.(times := s.times.(detectAudioReceiveTime := now), flags := s.flags.(detectAudioReceived := true));
    var calls := [RecordDetectResponseTime(now - s.times.detectSendTime, true, false), UpdateStage("detect", -1)];
    if !s.flags.audioReceiving then Step(Opened(answered, length, now), calls + [UpdateStage("audio_receiving", 1)])
    else Step(answered, calls)
  }

  /** The first frame of the answer to the real audio: the two latencies, and the reception opens. */
  function AfterRealAudioAnswer(s: Session, length: nat, now: real): Step {
    var perceived := if s.times.realAudioSendEndTime > 0.0 then [RecordAudioResponseTime(Clamp(now - s.times.realAudioSendEndTime))] else [];
    var processing := if s.times.serverSttStartTime > 0.0 then [RecordServerProcessingTime(Clamp(now - s.times.serverSttStartTime))] else [];
    Step(Opened(s, length, now), perceived + processing + [UpdateStage("waiting_response", -1), UpdateStage("audio_receiving", 1)])
  }

  /** `handle_binary_message` for a frame of `length` bytes. */
  function AfterBinary(s: Session, length: nat, now: real, later: real): Step {
    if s.flags.detectSent && !s.flags.detectAudioReceived then AfterDetectAnswer(s, length, now)
    else if s.flags.realAudioSent && !s.flags.audioReceiving then AfterRealAudioAnswer(s, length, now)
    else if s.flags.audioReceiving then AfterLaterFrame(s, length, now, later)
    else Step(s, [])
  }

  /** `receive_messages`: text to one handler, bytes to the other. */
  function AfterEvent(s: Session, deviceId: string, e: Event, now: real, wall: real, later: real): Step {
    match e
    case Text(m) => AfterText(s, deviceId, m, now, wall)
    case Binary(length) => AfterBinary(s, length, now, later)
  }

  // ---------------------------------------------------------------------
  // What happens at most once per round

  /** The calls that mark the once-per-round events. */
  datatype Kind = Completion | HelloAnswer | DetectAnswer | RealAudioStart

  predicate Counts(c: Call, k: Kind) {
    match k
    case Completion => c.IncrementCompleted?
    case HelloAnswer => c.RecordHelloResponseTime? && c.success
    case DetectAnswer => c.RecordDetectResponseTime? && c.success
    case RealAudioStart => c.StartRealAudioTest?
  }

  /** How many calls of kind `k` a log holds. */
  function Tally(calls: seq<Call>, k: Kind): nat {
    if calls == [] then 0 else (if Counts(calls[0], k) then 1 else 0) + Tally(calls[1..], k)
  }

  lemma {:induction false} TallyAppend(a: seq<Call>, b: seq<Call>, k: Kind)
    ensures Tally(a + b, k) == Tally(a, k) + Tally(b, k)
    decreases |a|
  {
    if a != [] {
      assert (a + b)[0] == a[0];
      assert (a + b)[1..] == a[1..] + b;
      TallyAppend(a[1..], b, k);
    } else {
      assert a + b == b;
    }
  }

  /** The flag that records that the event of kind `k` has happened. */
  function Flag(m: Flags, k: Kind): nat {
    match k
    case Completion => if m.testCompleted then 1 else 0
    case HelloAnswer => if m.helloReceived then 1 else 0
    case DetectAnswer => if m.detectAudioReceived then 1 else 0
    case RealAudioStart => if m.realAudioPhase then 1 else 0
  }

  /** The detect answer and the real-audio phase both come after the detect message. */
  predicate Ordered(m: Flags) {
    (m.detectAudioReceived ==> m.detectSent) && (m.realAudioPhase ==> m.detectSent)
  }

  /**
   * A state and the calls made since the round began agree: completion, the
   * hello answer, the detect answer and the start of the real-audio phase
   * were each logged exactly as often as their flag says, so at most once.
   */
  predicate Consistent(m: Flags, log: seq<Call>) {
    Ordered(m)
    && Tally(log, Completion) == Flag(m, Completion) && Tally(log, HelloAnswer) == Flag(m, HelloAnswer)
    && Tally(log, DetectAnswer) == Flag(m, DetectAnswer) && Tally(log, RealAudioStart) == Flag(m, RealAudioStart)
  }

  /** A step that logs each once-per-round call exactly when it raises the flag. */
  predicate Keeps(s: Session, st: Step) {
    Ordered(st.next.flags) && KeepsKind(s, st, Completion) && KeepsKind(s, st, HelloAnswer)
    && KeepsKind(s, st, DetectAnswer) && KeepsKind(s, st, RealAudioStart)
  }

  /** The step logs a call of kind `k` exactly when it raises that flag. */
  predicate KeepsKind(s: Session, st: Step, k: Kind) {
    Flag(s.flags, k) + Tally(st.calls, k) == Flag(st.next.flags, k)
  }

  lemma ConsistentAfter(s: Session, log: seq<Call>, st: Step)
    requires Consistent(s.flags, log) && Keeps(s, st)
    ensures Consistent(st.next.flags, log + st.calls)
    ensures forall k :: Tally(log + st.calls, k) <= 1
  {
    forall k
      ensures Tally(log + st.calls, k) == Flag(st.next.flags, k)
    {
      TallyAppend(log, st.calls, k);
    }
  }

  /** The step a method took keeps a consistent state consistent. */
  lemma KeepValid(s: Session, log: seq<Call>, st: Step)
    requires Ordered(s.flags) ==> Keeps(s, st)
    ensures Consistent(s.flags, log) ==> Consistent(st.next.flags, log + st.calls)
  {
    if Consistent(s.flags, log) {
      ConsistentAfter(s, log, st);
    }
  }

  /** A round begins consistent, with nothing logged. */
  lemma InitialConsistent()
    ensures Consistent(Initial().flags, [])
  {
    forall k
      ensures Tally([], k) == Flag(Initial().flags, k)
    {
    }
  }

  lemma CompleteTestKeeps(s: Session)
    requires Ordered(s.flags)
    ensures Keeps(s, AfterCompleteTest(s))
  {
    var r := AfterCompleteTest(s);
    if !s.flags.testCompleted {
      var sending := if s.flags.audioSending then [UpdateStage("audio_sending", -1)] else [];
      var receiving := if s.flags.audioReceiving then [UpdateStage("audio_receiving", -1)] else [];
      forall k
        ensures KeepsKind(s, r, k)
      {
        TallyAppend(sending + receiving, [IncrementCompleted], k);
        TallyAppend(sending, receiving, k);
      }
    }
  }

  /** A log none of whose calls is of kind `k`. */
  lemma {:induction false} TallyNone(calls: seq<Call>, k: Kind)
    requires forall i :: 0 <= i < |calls| ==> !Counts(calls[i], k)
    ensures Tally(calls, k) == 0
    decreases |calls|
  {
    if calls != [] {
      TallyNone(calls[1..], k);
    }
  }

  /** A call that marks no once-per-round event. */
  predicate Quiet(c: Call) {
    !c.IncrementCompleted? && !(c.RecordHelloResponseTime? && c.success)
    && !(c.RecordDetectResponseTime? && c.success) && !c.StartRealAudioTest?
  }

  predicate SameFlags(s: Session, t: Session) {
    s.flags.testCompleted == t.flags.testCompleted && s.flags.helloReceived == t.flags.helloReceived
    && s.flags.detectAudioReceived == t.flags.detectAudioReceived && s.flags.realAudioPhase == t.flags.realAudioPhase
  }

  /** A step that raises none of the flags and logs none of the once-per-round calls keeps the agreement. */
  lemma QuietKeeps(s: Session, st: Step)
    requires Ordered(st.next.flags) && SameFlags(s, st.next)
    requires forall i :: 0 <= i < |st.calls| ==> Quiet(st.calls[i])
    ensures Keeps(s, st)
  {
    forall k
      ensures KeepsKind(s, st, k)
    {
      TallyNone(st.calls, k);
    }
  }

  lemma ConnectKeeps(s: Session, accepted: bool, start: real, end: real, errorType: string)
    requires Ordered(s.flags)
    ensures Keeps(s, AfterConnect(s, accepted, start, end, errorType))
  {
    QuietKeeps(s, AfterConnect(s, accepted, start, end, errorType));
  }

  lemma SendHelloKeeps(s: Session, sent: bool, now: real)
    requires Ordered(s.flags)
    ensures Keeps(s, AfterSendHello(s, sent, now))
  {
    QuietKeeps(s, AfterSendHello(s, sent, now));
  }

  lemma SendDetectKeeps(s: Session, detectSessionId: string, sent: bool, now: real)
    requires Ordered(s.flags)
    ensures Keeps(s, AfterSendDetect(s, detectSessionId, sent, now))
  {
    QuietKeeps(s, AfterSendDetect(s, detectSessionId, sent, now));
  }

  lemma RealAudioBeginKeeps(s: Session, available: bool)
    requires Ordered(s.flags)
    ensures Keeps(s, AfterRealAudioBegin(s, available))
  {
    QuietKeeps(s, AfterRealAudioBegin(s, available));
  }

  lemma RealAudioDisconnectedKeeps(s: Session)
    requires Ordered(s.flags)
    ensures Keeps(s, AfterRealAudioDisconnected(s))
  {
    QuietKeeps(s, AfterRealAudioDisconnected(s));
  }

  lemma RealAudioFramesSentKeeps(s: Session, audioText: string, end: real)
    requires Ordered(s.flags)
    ensures Keeps(s, AfterRealAudioFramesSent(s, audioText, end))
  {
    QuietKeeps(s, AfterRealAudioFramesSent(s, audioText, end));
  }

  lemma RealAudioFinishedKeeps(s: Session, deviceId: string, sentBytes: nat, duration: real)
    requires Ordered(s.flags)
    ensures Keeps(s, AfterRealAudioFinished(s, deviceId, sentBytes, duration))
  {
    QuietKeeps(s, AfterRealAudioFinished(s, deviceId, sentBytes, duration));
  }

  lemma RealAudioFailedKeeps(s: Session, duration: real)
    requires Ordered(s.flags)
    ensures Keeps(s, AfterRealAudioFailed(s, duration))
  {
    QuietKeeps(s, AfterRealAudioFailed(s, duration));
  }

  /** Closing the reception logs nothing that happens once per round. */
  lemma ReceptionClosedKeeps(s: Session, deviceId: string, wall: real)
    requires Ordered(s.flags)
    ensures Keeps(s, AfterReceptionClosed(s, deviceId, wall))
  {
    QuietKeeps(s, AfterReceptionClosed(s, deviceId, wall));
  }

  lemma PhaseStopKeeps(s: Session)
    requires Ordered(s.flags)
    ensures Keeps(s, AfterPhaseStop(s))
  {
    CompleteTestKeeps(s);
  }

  /** Two steps in a row keep the agreement when each does. */
  lemma ComposeKeeps(s: Session, first: Step, second: Step)
    requires Keeps(s, first) && Keeps(first.next, second)
    ensures Keeps(s, Step(second.next, first.calls + second.calls))
  {
    forall k
      ensures KeepsKind(s, Step(second.next, first.calls + second.calls), k)
    {
      TallyAppend(first.calls, second.calls, k);
    }
  }

  lemma TtsStopKeeps(s: Session, deviceId: string, wall: real)
    requires Ordered(s.flags)
    ensures Keeps(s, AfterTts(s, deviceId, "stop", wall))
  {
    var closed := AfterReceptionClosed(s, deviceId, wall);
    ReceptionClosedKeeps(s, deviceId, wall);
    var phase := AfterPhaseStop(closed.next);
    PhaseStopKeeps(closed.next);
    ComposeKeeps(s, closed, phase);
  }

  lemma TtsKeeps(s: Session, deviceId: string, state: string, wall: real)
    requires Ordered(s.flags)
    ensures Keeps(s, AfterTts(s, deviceId, state, wall))
  {
    if state == "stop" {
      TtsStopKeeps(s, deviceId, wall);
    } else {
      TtsOtherKeeps(s, deviceId, state, wall);
    }
  }

  lemma TtsOtherKeeps(s: Session, deviceId: string, state: string, wall: real)
    requires Ordered(s.flags) && state != "stop"
    ensures Keeps(s, AfterTts(s, deviceId, state, wall))
  {
    var r := AfterTts(s, deviceId, state, wall);
    if state == "start" && s.flags.detectSent && !s.flags.detectAudioReceived {
      QuietKeeps(s, r);
    } else if state == "start" && s.flags.realAudioSent {
      QuietKeeps(s, r);
    } else if state == "sentence_start" && s.flags.realAudioSent && s.link.expectedSttText != [] && !(s.flags.detectSent && !s.flags.detectAudioReceived) {
      assert r.calls == [UpdateStage("waiting_response", 1)];
      QuietKeeps(s, r);
    } else {
      assert r == Step(s, []);
      QuietKeeps(s, r);
    }
  }

  lemma CompleteTestValid(s: Session, log: seq<Call>)
    ensures Consistent(s.flags, log) ==> Consistent(AfterCompleteTest(s).next.flags, log + AfterCompleteTest(s).calls)
  {
    if Ordered(s.flags) {
      CompleteTestKeeps(s);
    }
    KeepValid(s, log, AfterCompleteTest(s));
  }

  /** A step whose first call raises one flag and whose other calls are quiet keeps the agreement. */
  lemma RaiseKeeps(s: Session, st: Step, c: Call, rest: seq<Call>)
    requires st.calls == [c] + rest
    requires Ordered(st.next.flags)
    requires forall i :: 0 <= i < |rest| ==> Quiet(rest[i])
    requires forall k :: Flag(st.next.flags, k) == Flag(s.flags, k) + (if Counts(c, k) then 1 else 0)
    ensures Keeps(s, st)
  {
    forall k
      ensures KeepsKind(s, st, k)
    {
      TallyAppend([c], rest, k);
      TallyNone(rest, k);
    }
  }

  lemma HelloKeeps(s: Session, sessionId: string, now: real)
    requires Ordered(s.flags)
    ensures Keeps(s, AfterHello(s, sessionId, now))
  {
    var r := AfterHello(s, sessionId, now);
    if s.flags.helloReceived {
      QuietKeeps(s, r);
    } else {
      RaiseKeeps(s, r, RecordHelloResponseTime(now - s.link.helloSendTime, true, false), [UpdateStage("hello", -1)]);
    }
  }

  lemma SttKeeps(s: Session, text: string, now: real)
    requires Ordered(s.flags)
    ensures Keeps(s, AfterStt(s, text, now))
  {
    QuietKeeps(s, AfterStt(s, text, now));
  }

  lemma StartKeeps(s: Session, wall: real)
    requires Ordered(s.flags)
    ensures Keeps(s, AfterStart(s, wall))
  {
    var r := AfterStart(s, wall);
    if s.flags.detectSent {
      QuietKeeps(s, r);
    } else {
      var receive := if s.times.audioSendStartTime > 0.0 then [RecordAudioReceiveTime(wall - s.times.audioSendStartTime, true, false)] else [];
      var sttToStart := if s.times.sttCompleteTime > 0.0 then [RecordSttToStartTime(wall - s.times.sttCompleteTime, true)] else [];
      assert r.calls == [UpdateStage("waiting_response", 1)] + receive + sttToStart;
      QuietKeeps(s, r);
    }
  }

  lemma BinaryKeeps(s: Session, length: nat, now: real, later: real)
    requires Ordered(s.flags)
    ensures Keeps(s, AfterBinary(s, length, now, later))
  {
    var r := AfterBinary(s, length, now, later);
    if s.flags.detectSent && !s.flags.detectAudioReceived {
      var answer := RecordDetectResponseTime(now - s.times.detectSendTime, true, false);
      if !s.flags.audioReceiving {
        RaiseKeeps(s, r, answer, [UpdateStage("detect", -1), UpdateStage("audio_receiving", 1)]);
      } else {
        RaiseKeeps(s, r, answer, [UpdateStage("detect", -1)]);
      }
    } else {
      QuietKeeps(s, r);
    }
  }

  lemma LaterFrameKeeps(s: Session, length: nat, now: real, later: real)
    requires Ordered(s.flags)
    ensures Keeps(s, AfterLaterFrame(s, length, now, later))
  {
    QuietKeeps(s, AfterLaterFrame(s, length, now, later));
  }

  lemma LaterFrameValid(s: Session, log: seq<Call>, length: nat, now: real, later: real)
    ensures var st := AfterLaterFrame(s, length, now, later);
      Consistent(s.flags, log) ==> Consistent(st.next.flags, log + st.calls)
  {
    if Ordered(s.flags) {
      LaterFrameKeeps(s, length, now, later);
    }
    KeepValid(s, log, AfterLaterFrame(s, length, now, later));
  }

  /** Every event keeps the state and the round's log in agreement. */
  lemma EventKeeps(s: Session, deviceId: string, e: Event, now: real, wall: real, later: real)
    requires Ordered(s.flags)
    ensures Keeps(s, AfterEvent(s, deviceId, e, now, wall, later))
  {
    match e
    case Binary(length) => BinaryKeeps(s, length, now, later);
    case Text(m) =>
      match m
      case Hello(sid) => HelloKeeps(s, sid, now);
      case Stt(text) => SttKeeps(s, text, now);
      case Tts(state) => TtsKeeps(s, deviceId, state, wall);
      case Llm => QuietKeeps(s, Step(s, []));
      case Start => StartKeeps(s, wall);
      case Unrecognised => QuietKeeps(s, Step(s, []));
  }

  /** Every message keeps a consistent state consistent. */
  lemma EventKeepsValid(s: Session, log: seq<Call>, deviceId: string, e: Event, now: real, wall: real, later: real)
    ensures var r := AfterEvent(s, deviceId, e, now, wall, later);
      Consistent(s.flags, log) ==> Consistent(r.next.flags, log + r.calls)
  {
    if Ordered(s.flags) {
      EventKeeps(s, deviceId, e, now, wall, later);
    }
    KeepValid(s, log, AfterEvent(s, deviceId, e, now, wall, later));
  }

  /** A reset starts a fresh round: its state agrees with an empty log. */
  lemma ResetConsistent(s: Session)
    ensures Consistent(AfterReset(s).flags, [])
  {
    InitialConsistent();
  }

  // ---------------------------------------------------------------------
  // Properties of single steps

  /**
   * `complete_test` acts once: the first call closes the sending and
   * receiving stages exactly when their flags were set and counts one
   * completion; a second call changes nothing.
   */
  lemma CompleteTestOnce(s: Session)
    ensures var r := AfterCompleteTest(s);
      r.next.flags.testCompleted
      && AfterCompleteTest(r.next) == Step(r.next, [])
      && Tally(r.calls, Completion) == (if s.flags.testCompleted then 0 else 1)
      && (s.flags.testCompleted ==> r == Step(s, []))
      && (!s.flags.testCompleted ==>
            !r.next.flags.audioSending && !r.next.flags.audioReceiving
            && (UpdateStage("audio_sending", -1) in r.calls <==> s.flags.audioSending)
            && (UpdateStage("audio_receiving", -1) in r.calls <==> s.flags.audioReceiving)
            && r.calls[|r.calls| - 1] == IncrementCompleted)
  {
    var r := AfterCompleteTest(s);
    if !s.flags.testCompleted {
      var sending := if s.flags.audioSending then [UpdateStage("audio_sending", -1)] else [];
      var receiving := if s.flags.audioReceiving then [UpdateStage("audio_receiving", -1)] else [];
      TallyAppend(sending + receiving, [IncrementCompleted], Completion);
      TallyAppend(sending, receiving, Completion);
      TallyNone(sending + receiving, Completion);
      assert r.calls == sending + receiving + [IncrementCompleted];
      assert UpdateStage("audio_sending", -1) in r.calls <==> UpdateStage("audio_sending", -1) in sending;
      assert UpdateStage("audio_receiving", -1) in r.calls <==> UpdateStage("audio_receiving", -1) in receiving;
    }
  }

  /**
   * A `hello` answer is taken once: the first stores the session id and
   * records the hello latency and the stage decrement; any later one is
   * ignored.
   */
  lemma HelloOnce(s: Session, sessionId: string, now: real, sessionId2: string, now2: real)
    ensures var r := AfterHello(s, sessionId, now);
      r.next.flags.helloReceived
      && AfterHello(r.next, sessionId2, now2) == Step(r.next, [])
      && (s.flags.helloReceived ==> r == Step(s, []))
      && (!s.flags.helloReceived ==>
            r.next.link.sessionId == sessionId && r.next.link.helloReceiveTime == now
            && Tally(r.calls, HelloAnswer) == 1
            && r.calls == [RecordHelloResponseTime(now - s.link.helloSendTime, true, false), UpdateStage("hello", -1)])
  {
    var r := AfterHello(s, sessionId, now);
    if !s.flags.helloReceived {
      TallyAppend([r.calls[0]], [r.calls[1]], HelloAnswer);
      assert r.calls == [r.calls[0]] + [r.calls[1]];
    }
  }

  /**
   * The first frame after the detect message records the detect latency
   * once, closes the detect stage and starts the reception with that frame;
   * no later frame records it again.
   */
  lemma DetectFirstFrame(s: Session, length: nat, now: real, later: real, length2: nat, now2: real, later2: real)
    requires s.flags.detectSent && !s.flags.detectAudioReceived
    ensures var r := AfterBinary(s, length, now, later);
      r.next.flags.detectAudioReceived && r.next.times.detectAudioReceiveTime == now
      && r.calls[0] == RecordDetectResponseTime(now - s.times.detectSendTime, true, false)
      && r.calls[1] == UpdateStage("detect", -1)
      && Tally(r.calls, DetectAnswer) == 1
      && (!s.flags.audioReceiving ==>
            r.next.flags.audioReceiving && r.next.rx.frameCount == 1 && r.next.rx.totalAudioBytes == length
            && r.next.rx.audioStartTime == now && r.next.rx.lastFrameTime == now)
      && Tally(AfterBinary(r.next, length2, now2, later2).calls, DetectAnswer) == 0
  {
    var r := AfterBinary(s, length, now, later);
    var rest := if s.flags.audioReceiving then [UpdateStage("detect", -1)] else [UpdateStage("detect", -1), UpdateStage("audio_receiving", 1)];
    assert r.calls == [r.calls[0]] + rest;
    TallyAppend([r.calls[0]], rest, DetectAnswer);
    TallyNone(rest, DetectAnswer);
    var r2 := AfterBinary(r.next, length2, now2, later2);
    TallyNone(r2.calls, DetectAnswer);
  }

  /**
   * An STT message changes something only when it answers the real audio
   * that was sent, after the detect answer: the legacy arm is unreachable.
   * It then records the accuracy against the expected text and marks the
   * server's processing as complete.
   */
  lemma SttOnlyAnswersRealAudio(s: Session, text: string, now: real)
    requires Ordered(s.flags)
    ensures var r := AfterStt(s, text, now);
      (r.next != s || r.calls != []) ==>
        text != [] && s.flags.detectAudioReceived && s.flags.realAudioSent && s.link.expectedSttText != []
        && r.calls[0] == RecordSttAccuracy(s.link.expectedSttText, text)
        && r.next.flags.serverProcessingComplete && r.next.flags.sttCompleted && r.next.times.serverSttStartTime == now
  {
  }

  /**
   * While receiving, each later frame adds its length to the byte total and
   * one to the frame count, and its interval is recorded exactly when a
   * previous frame time exists and the interval lies in [0, 1000] ms.
   */
  lemma LaterFrameAccounting(s: Session, length: nat, now: real, later: real)
    requires s.flags.audioReceiving && !(s.flags.detectSent && !s.flags.detectAudioReceived)
    ensures var r := AfterBinary(s, length, now, later);
      var interval := IntervalMs(s.rx.lastFrameTime, later);
      r.next.rx.totalAudioBytes == s.rx.totalAudioBytes + length
      && r.next.rx.frameCount == s.rx.frameCount + 1
      && r.next.flags.audioReceiving && r.next.rx.lastFrameTime == later
      && (RecordFrameInterval(interval) in r.calls <==> s.rx.lastFrameTime > 0.0 && 0.0 <= interval <= 1000.0)
  {
  }

  /** A latency the client computes against its own earlier reading. */
  predicate IsLatency(c: Call) {
    c.RecordSttTime? || c.RecordAudioResponseTime? || c.RecordServerProcessingTime?
  }

  /** Latencies are not negative and frame intervals lie in [0, 1000] ms. */
  predicate InRange(c: Call) {
    (IsLatency(c) ==> c.duration >= 0.0) && (c.RecordFrameInterval? ==> 0.0 <= c.interval <= 1000.0)
  }

  predicate AllInRange(calls: seq<Call>) {
    forall i :: 0 <= i < |calls| ==> InRange(calls[i])
  }

  lemma AllInRangeAppend(a: seq<Call>, b: seq<Call>)
    requires AllInRange(a) && AllInRange(b)
    ensures AllInRange(a + b)
  {
    forall i | 0 <= i < |a + b|
      ensures InRange((a + b)[i])
    {
      if i >= |a| {
        assert (a + b)[i] == b[i - |a|];
      }
    }
  }

  lemma SttInRange(s: Session, text: string, now: real)
    requires Ordered(s.flags)
    ensures AllInRange(AfterStt(s, text, now).calls)
  {
    var r := AfterStt(s, text, now);
    if text != [] && !s.flags.detectAudioReceived {
    } else if text != [] && s.flags.realAudioSent && s.link.expectedSttText != [] {
      assert r.calls[1].duration >= 0.0;
    }
  }

  lemma TtsInRange(s: Session, deviceId: string, state: string, wall: real)
    ensures AllInRange(AfterTts(s, deviceId, state, wall).calls)
  {
    if state == "stop" {
      var closed := AfterReceptionClosed(s, deviceId, wall);
      var phase := AfterPhaseStop(closed.next);
      ReceptionClosedInRange(s, deviceId, wall);
      PhaseStopInRange(closed.next);
      AllInRangeAppend(closed.calls, phase.calls);
      assert AfterTts(s, deviceId, state, wall).calls == closed.calls + phase.calls;
    }
  }

  lemma ReceptionClosedInRange(s: Session, deviceId: string, wall: real)
    ensures AllInRange(AfterReceptionClosed(s, deviceId, wall).calls)
  {
  }

  lemma PhaseStopInRange(s: Session)
    ensures AllInRange(AfterPhaseStop(s).calls)
  {
    assert AllInRange(AfterCompleteTest(s).calls);
  }

  lemma StartInRange(s: Session, wall: real)
    ensures AllInRange(AfterStart(s, wall).calls)
  {
    if !s.flags.detectSent {
      var receive := if s.times.audioSendStartTime > 0.0 then [RecordAudioReceiveTime(wall - s.times.audioSendStartTime, true, false)] else [];
      var sttToStart := if s.times.sttCompleteTime > 0.0 then [RecordSttToStartTime(wall - s.times.sttCompleteTime, true)] else [];
      AllInRangeAppend([UpdateStage("waiting_response", 1)], receive);
      AllInRangeAppend([UpdateStage("waiting_response", 1)] + receive, sttToStart);
    }
  }

  lemma BinaryInRange(s: Session, length: nat, now: real, later: real)
    ensures AllInRange(AfterBinary(s, length, now, later).calls)
  {
    if s.flags.detectSent && !s.flags.detectAudioReceived {
      DetectAnswerInRange(s, length, now);
    } else if s.flags.realAudioSent && !s.flags.audioReceiving {
      RealAudioAnswerInRange(s, length, now);
    } else if s.flags.audioReceiving {
      LaterFrameInRange(s, length, now, later);
    }
  }

  lemma DetectAnswerInRange(s: Session, length: nat, now: real)
    ensures AllInRange(AfterDetectAnswer(s, length, now).calls)
  {
  }

  lemma RealAudioAnswerInRange(s: Session, length: nat, now: real)
    ensures AllInRange(AfterRealAudioAnswer(s, length, now).calls)
  {
    var perceived := if s.times.realAudioSendEndTime > 0.0 then [RecordAudioResponseTime(Clamp(now - s.times.realAudioSendEndTime))] else [];
    var processing := if s.times.serverSttStartTime > 0.0 then [RecordServerProcessingTime(Clamp(now - s.times.serverSttStartTime))] else [];
    AllInRangeAppend(perceived, processing);
    AllInRangeAppend(perceived + processing, [UpdateStage("waiting_response", -1), UpdateStage("audio_receiving", 1)]);
  }

  lemma LaterFrameInRange(s: Session, length: nat, now: real, later: real)
    ensures AllInRange(AfterLaterFrame(s, length, now, later).calls)
  {
    var bytes := s.rx.totalAudioBytes + length;
    var interval := IntervalMs(s.rx.lastFrameTime, later);
    var kept := s.rx.lastFrameTime > 0.0 && 0.0 <= interval <= 1000.0;
    var duration := now - s.rx.audioStartTime;
    var first := if kept then [RecordFrameInterval(interval)] else [];
    var second := if s.rx.audioStartTime > 0.0 && duration > 0.0 then [UpdateCurrentAudioRate(bytes as real / duration)] else [];
    AllInRangeAppend(first, second);
  }

  /**
   * Whatever arrives, the STT latency, the perceived response latency and
   * the server processing latency are never recorded negative (each is
   * clamped to 0), and every frame interval recorded lies in [0, 1000] ms.
   */
  lemma RecordedValuesInRange(s: Session, deviceId: string, e: Event, now: real, wall: real, later: real)
    requires Ordered(s.flags)
    ensures forall c :: c in AfterEvent(s, deviceId, e, now, wall, later).calls ==>
      (IsLatency(c) ==> c.duration >= 0.0) && (c.RecordFrameInterval? ==> 0.0 <= c.interval <= 1000.0)
  {
    match e
    case Binary(length) => BinaryInRange(s, length, now, later);
    case Text(m) =>
      match m
      case Hello(_) =>
      case Stt(text) => SttInRange(s, text, now);
      case Tts(state) => TtsInRange(s, deviceId, state, wall);
      case Llm =>
      case Start => StartInRange(s, wall);
      case Unrecognised =>
  }

  /** `complete_test` makes only quiet calls besides the completion. */
  lemma CompleteTestQuiet(s: Session)
    ensures forall i :: 0 <= i < |AfterCompleteTest(s).calls| ==>
      Quiet(AfterCompleteTest(s).calls[i]) || AfterCompleteTest(s).calls[i] == IncrementCompleted
  {
  }

  /** A log of quiet calls tallies nothing. */
  lemma QuietTally(calls: seq<Call>, k: Kind)
    requires forall i :: 0 <= i < |calls| ==> Quiet(calls[i])
    ensures Tally(calls, k) == 0
  {
    TallyNone(calls, k);
  }

  /** Closing the reception changes none of the phase flags and makes only quiet calls. */
  lemma ReceptionClosedQuiet(s: Session, deviceId: string, wall: real)
    ensures var closed := AfterReceptionClosed(s, deviceId, wall);
      !closed.next.flags.audioReceiving && SameFlags(s, closed.next)
      && closed.next.flags.detectSent == s.flags.detectSent && closed.next.flags.realAudioSent == s.flags.realAudioSent
      && forall i :: 0 <= i < |closed.calls| ==> Quiet(closed.calls[i])
  {
  }

  /**
   * `tts stop` ends the reception and then the phase: the detect phase
   * moves on to the real-audio test, once; the real-audio phase, once its
   * audio was sent, completes the test; outside the detect flow it only
   * leaves the waiting stage.
   */
  lemma TtsStopPhases(s: Session, deviceId: string, wall: real)
    requires Ordered(s.flags)
    ensures var r := AfterTts(s, deviceId, "stop", wall);
      !r.next.flags.audioReceiving
      && (s.flags.detectSent && !s.flags.realAudioPhase ==>
            r.next.flags.realAudioPhase && Tally(r.calls, RealAudioStart) == 1 && Tally(r.calls, Completion) == 0)
      && (s.flags.realAudioPhase ==> Tally(r.calls, RealAudioStart) == 0 && r.next.flags.testCompleted)
      && (s.flags.realAudioPhase && s.flags.realAudioSent && !s.flags.testCompleted ==> Tally(r.calls, Completion) == 1)
      && (!s.flags.detectSent ==> r.next.flags.testCompleted == s.flags.testCompleted && UpdateStage("waiting_response", -1) in r.calls)
  {
    var closed := AfterReceptionClosed(s, deviceId, wall);
    ReceptionClosedQuiet(s, deviceId, wall);
    var phase := AfterPhaseStop(closed.next);
    var r := AfterTts(s, deviceId, "stop", wall);
    assert r == Step(phase.next, closed.calls + phase.calls);
    QuietTally(closed.calls, RealAudioStart);
    QuietTally(closed.calls, Completion);
    TallyAppend(closed.calls, phase.calls, RealAudioStart);
    TallyAppend(closed.calls, phase.calls, Completion);
    if s.flags.detectSent && !s.flags.realAudioPhase {
      assert phase.calls == [StartRealAudioTest];
    } else if s.flags.realAudioPhase {
      CompleteTestOnce(closed.next);
      CompleteTestQuiet(closed.next);
      TallyNone(phase.calls, RealAudioStart);
    } else {
      assert phase.calls == [UpdateStage("waiting_response", -1)];
      assert r.calls[|closed.calls|] == UpdateStage("waiting_response", -1);
    }
  }

  /**
   * `reset_for_next_round` returns to the state of a new client, except for
   * the two attributes it leaves alone, and starts a consistent round.
   */
  lemma ResetLikeNew(s: Session)
    ensures var r := AfterReset(s);
      r.(link := r.link.(detectSessionId := ""), flags := r.flags.(sttCompleted := false)) == Initial()
    ensures AfterReset(s).flags.sttCompleted == s.flags.sttCompleted
    ensures AfterReset(s).link.detectSessionId == s.link.detectSessionId
    ensures Consistent(AfterReset(s).flags, [])
  {
    ResetConsistent(s);
  }

  // ---------------------------------------------------------------------
  // The client object

  /**
   * A client. Its 39 attributes are kept in four record-valued fields,
   * grouped as in `Session`; every method is proved to leave exactly the
   * state and the calls of the corresponding `After*` function.
   */
  class XiaozhiTestClient {
    const deviceId: string
    var link: Link
    var flags: Flags
    var times: Times
    var rx: Reception
    /** The calls made on the shared metrics and progress objects since the round began. */
    ghost var log: seq<Call>

    /** The attributes as a `Session` value. */
    function Snapshot(): Session
      reads this`link, this`flags, this`times, this`rx
    {
      Session(link, flags, times, rx)
    }

    /**
     * The once-per-round calls in the log match the flags: each was made
     * exactly when its flag went up, so at most once in a round.
     */
    ghost predicate Valid()
      reads this`flags, this`log
    {
      Consistent(flags, log)
    }

    /** `__init__`: a fresh client with nothing logged. */
    constructor (deviceId: string)
      ensures this.deviceId == deviceId
      ensures Snapshot() == Initial() && log == []
      ensures Valid()
    {
      this.deviceId := deviceId;
      var s := Initial();
      link, flags, times, rx := s.link, s.flags, s.times, s.rx;
      log := [];
      InitialConsistent();
    }

    /** `complete_test`. */
    method CompleteTest()
      modifies this`flags, this`log
      ensures var r := AfterCompleteTest(old(Snapshot()));
        Snapshot() == r.next && log == old(log) + r.calls
      ensures old(Valid()) ==> Valid()
    {
      CompleteTestValid(Snapshot(), log);
      if !flags.testCompleted {
        flags := flags.(testCompleted := true);
        ghost var sending: seq<Call> := [];
        ghost var receiving: seq<Call> := [];
        if flags.audioSending {
          sending := [UpdateStage("audio_sending", -1)];
          flags := flags.(audioSending := false);
        }
        if flags.audioReceiving {
          receiving := [UpdateStage("audio_receiving", -1)];
          flags := flags.(audioReceiving := false);
        }
        log := log + (sending + receiving + [IncrementCompleted]);
      }
    }

    /** `connect`: `accepted` is whether the socket opened; the result is what `connect` returns. */
    method Connect(accepted: bool, start: real, end: real, errorType: string) returns (ok: bool)
      modifies this`link, this`log
      ensures ok == accepted
      ensures var r := AfterConnect(old(Snapshot()), accepted, start, end, errorType);
        Snapshot() == r.next && log == old(log) + r.calls
      ensures old(Valid()) ==> Valid()
    {
      ghost var s0 := Snapshot();
      assert Consistent(s0.flags, log) ==> Consistent(AfterConnect(s0, accepted, start, end, errorType).next.flags, log + AfterConnect(s0, accepted, start, end, errorType).calls) by {
        if Ordered(s0.flags) {
          ConnectKeeps(s0, accepted, start, end, errorType);
        }
        KeepValid(s0, log, AfterConnect(s0, accepted, start, end, errorType));
      }
      link := link.(connectionStartTime := start);
      if accepted {
        link := link.(websocketSet := true);
        var duration := end - link.connectionStartTime;
        link := link.(connected := true);
        log := log + [UpdateStage("connecting", 1), RecordConnectionTime(duration, true, ""),
                      IncrementActive, UpdateStage("connecting", -1)];
        ok := true;
      } else {
        var duration := if link.connectionStartTime > 0.0 then end - link.connectionStartTime else 0.0;
        log := log + [UpdateStage("connecting", 1), RecordConnectionTime(duration, false, errorType),
                      UpdateStage("connecting", -1)];
        ok := false;
      }
    }

    /** `send_hello`: `sent` is whether the socket took the message; the result is what it returns. */
    method SendHello(sent: bool, now: real) returns (ok: bool)
      modifies this`link, this`log
      ensures ok == (old(link.websocketSet) && old(link.connected) && sent)
      ensures var r := AfterSendHello(old(Snapshot()), sent, now);
        Snapshot() == r.next && log == old(log) + r.calls
      ensures old(Valid()) ==> Valid()
    {
      ghost var s0 := Snapshot();
      assert Consistent(s0.flags, log) ==> Consistent(AfterSendHello(s0, sent, now).next.flags, log + AfterSendHello(s0, sent, now).calls) by {
        if Ordered(s0.flags) {
          SendHelloKeeps(s0, sent, now);
        }
        KeepValid(s0, log, AfterSendHello(s0, sent, now));
      }
      if !link.websocketSet || !link.connected {
        return false;
      }
      link := link.(helloSendTime := now);
      if sent {
        link := link.(helloSent := true);
        log := log + [UpdateStage("hello", 1)];
        ok := true;
      } else {
        log := log + [UpdateStage("hello", 1), UpdateStage("hello", -1)];
        ok := false;
      }
    }

    /** `send_detect_message`: `sid` is the session id it generates, `sent` whether the socket took it. */
    method SendDetectMessage(sid: string, sent: bool, now: real) returns (ok: bool)
      modifies this`link, this`times, this`flags, this`log
      ensures ok == (old(link.websocketSet) && old(link.connected) && sent)
      ensures var r := AfterSendDetect(old(Snapshot()), sid, sent, now);
        Snapshot() == r.next && log == old(log) + r.calls
      ensures old(Valid()) ==> Valid()
    {
      ghost var s0 := Snapshot();
      assert Consistent(s0.flags, log) ==> Consistent(AfterSendDetect(s0, sid, sent, now).next.flags, log + AfterSendDetect(s0, sid, sent, now).calls) by {
        if Ordered(s0.flags) {
          SendDetectKeeps(s0, sid, sent, now);
        }
        KeepValid(s0, log, AfterSendDetect(s0, sid, sent, now));
      }
      if !link.websocketSet || !link.connected {
        return false;
      }
      times := times.(detectSendTime := now);
      link := link.(detectSessionId := sid);
      if sent {
        flags := flags.(detectSent := true);
        log := log + [UpdateStage("detect", 1)];
        ok := true;
      } else {
        log := log + [UpdateStage("detect", 1), UpdateStage("detect", -1)];
        ok := false;
      }
    }

    /** Entering `send_real_audio`: `available` is whether audio exists for the text. */
    method RealAudioBegin(available: bool) returns (ok: bool)
      modifies this`flags, this`log
      ensures ok == available
      ensures var r := AfterRealAudioBegin(old(Snapshot()), available);
        Snapshot() == r.next && log == old(log) + r.calls
      ensures old(Valid()) ==> Valid()
    {
      ghost var s0 := Snapshot();
      assert Consistent(s0.flags, log) ==> Consistent(AfterRealAudioBegin(s0, available).next.flags, log + AfterRealAudioBegin(s0, available).calls) by {
        if Ordered(s0.flags) {
          RealAudioBeginKeeps(s0, available);
        }
        KeepValid(s0, log, AfterRealAudioBegin(s0, available));
      }
      if !available {
        return false;
      }
      log := log + [UpdateStage("audio_sending", 1)];
      flags := flags.(audioSending := true);
      ok := true;
    }

    /** The socket was gone before a frame could be sent. */
    method RealAudioDisconnected()
      modifies this`flags, this`log
      ensures var r := AfterRealAudioDisconnected(old(Snapshot()));
        Snapshot() == r.next && log == old(log) + r.calls
      ensures old(Valid()) ==> Valid()
    {
      ghost var s0 := Snapshot();
      assert Consistent(s0.flags, log) ==> Consistent(AfterRealAudioDisconnected(s0).next.flags, log + AfterRealAudioDisconnected(s0).calls) by {
        if Ordered(s0.flags) {
          RealAudioDisconnectedKeeps(s0);
        }
        KeepValid(s0, log, AfterRealAudioDisconnected(s0));
      }
      log := log + [UpdateStage("audio_sending", -1)];
      flags := flags.(audioSending := false);
    }

    /** Every frame of the text's audio is out, at `end`. */
    method RealAudioFramesSent(audioText: string, end: real)
      modifies this`flags, this`link, this`times
      ensures var r := AfterRealAudioFramesSent(old(Snapshot()), audioText, end);
        Snapshot() == r.next && r.calls == []
      ensures old(Valid()) ==> Valid()
    {
      ghost var s0 := Snapshot();
      assert Consistent(s0.flags, log) ==> Consistent(AfterRealAudioFramesSent(s0, audioText, end).next.flags, log + AfterRealAudioFramesSent(s0, audioText, end).calls) by {
        if Ordered(s0.flags) {
          RealAudioFramesSentKeeps(s0, audioText, end);
        }
        KeepValid(s0, log, AfterRealAudioFramesSent(s0, audioText, end));
      }
      flags := flags.(realAudioSent := true);
      link := link.(expectedSttText := audioText);
      times := times.(realAudioSendEndTime := end);
    }

    /** The filler is done: the send is recorded and the stage closes. */
    method RealAudioFinished(sentBytes: nat, duration: real)
      modifies this`flags, this`log
      ensures var r := AfterRealAudioFinished(old(Snapshot()), deviceId, sentBytes, duration);
        Snapshot() == r.next && log == old(log) + r.calls
      ensures old(Valid()) ==> Valid()
    {
      ghost var s0 := Snapshot();
      assert Consistent(s0.flags, log) ==> Consistent(AfterRealAudioFinished(s0, deviceId, sentBytes, duration).next.flags, log + AfterRealAudioFinished(s0, deviceId, sentBytes, duration).calls) by {
        if Ordered(s0.flags) {
          RealAudioFinishedKeeps(s0, deviceId, sentBytes, duration);
        }
        KeepValid(s0, log, AfterRealAudioFinished(s0, deviceId, sentBytes, duration));
      }
      log := log + [RecordRealAudioSendTime(duration, true), RecordAudioTrafficSent(deviceId, sentBytes, duration),
                    UpdateStage("audio_sending", -1)];
      flags := flags.(audioSending := false);
    }

    /** The `except` arm of `send_real_audio`. */
    method RealAudioFailed(duration: real)
      modifies this`flags, this`log
      ensures var r := AfterRealAudioFailed(old(Snapshot()), duration);
        Snapshot() == r.next && log == old(log) + r.calls
      ensures old(Valid()) ==> Valid()
    {
      ghost var s0 := Snapshot();
      assert Consistent(s0.flags, log) ==> Consistent(AfterRealAudioFailed(s0, duration).next.flags, log + AfterRealAudioFailed(s0, duration).calls) by {
        if Ordered(s0.flags) {
          RealAudioFailedKeeps(s0, duration);
        }
        KeepValid(s0, log, AfterRealAudioFailed(s0, duration));
      }
      log := log + [RecordRealAudioSendTime(duration, false), UpdateStage("audio_sending", -1)];
      flags := flags.(audioSending := false);
    }

    /** The `hello` arm of `handle_text_message`. */
    method OnHello(sid: string, now: real)
      modifies this`link, this`flags, this`log
      ensures var r := AfterHello(old(Snapshot()), sid, now);
        Snapshot() == r.next && log == old(log) + r.calls
      ensures old(Valid()) ==> Valid()
    {
      ghost var s0 := Snapshot();
      assert Consistent(s0.flags, log) ==> Consistent(AfterHello(s0, sid, now).next.flags, log + AfterHello(s0, sid, now).calls) by {
        if Ordered(s0.flags) {
          HelloKeeps(s0, sid, now);
        }
        KeepValid(s0, log, AfterHello(s0, sid, now));
      }
      if !flags.helloReceived {
        link := link.(sessionId := sid, helloReceiveTime := now);
        var duration := link.helloReceiveTime - link.helloSendTime;
        flags := flags.(helloReceived := true);
        log := log + [RecordHelloResponseTime(duration, true, false), UpdateStage("hello", -1)];
      }
    }

    /** The `stt` arm of `handle_text_message`. */
    method OnStt(text: string, now: real)
      modifies this`times, this`flags, this`log
      ensures var r := AfterStt(old(Snapshot()), text, now);
        Snapshot() == r.next && log == old(log) + r.calls
      ensures old(Valid()) ==> Valid()
    {
      ghost var s0 := Snapshot();
      assert Consistent(s0.flags, log) ==> Consistent(AfterStt(s0, text, now).next.flags, log + AfterStt(s0, text, now).calls) by {
        if Ordered(s0.flags) {
          SttKeeps(s0, text, now);
        }
        KeepValid(s0, log, AfterStt(s0, text, now));
      }
      if text != [] && !flags.detectAudioReceived {
      } else if text != [] && !flags.detectSent {
        times := times.(sttCompleteTime := now);
        log := log + [RecordSttTime(times.sttCompleteTime - times.audioSendStartTime, true, 1.0)];
        flags := flags.(sttCompleted := true);
      } else if text != [] && flags.realAudioSent && link.expectedSttText != [] {
        times := times.(sttCompleteTime := now);
        times := times.(serverSttStartTime := times.sttCompleteTime);
        flags := flags.(serverProcessingComplete := true);
        var latency := 0.0;
        if times.realAudioSendEndTime > 0.0 {
          latency := times.sttCompleteTime - times.realAudioSendEndTime;
          if latency < 0.0 {
            latency := 0.0;
          }
        }
        log := log + [RecordSttAccuracy(link.expectedSttText, text), RecordSttTime(latency, true, 1.0)];
        flags := flags.(sttCompleted := true);
      }
    }

    /** The first half of `tts stop`: an open reception closes and is recorded. */
    method CloseReception(wall: real)
      modifies this`flags, this`rx, this`log
      ensures var r := AfterReceptionClosed(old(Snapshot()), deviceId, wall);
        Snapshot() == r.next && log == old(log) + r.calls
      ensures old(Valid()) ==> Valid()
    {
      ghost var s0 := Snapshot();
      assert Consistent(s0.flags, log) ==> Consistent(AfterReceptionClosed(s0, deviceId, wall).next.flags, log + AfterReceptionClosed(s0, deviceId, wall).calls) by {
        if Ordered(s0.flags) {
          ReceptionClosedKeeps(s0, deviceId, wall);
        }
        KeepValid(s0, log, AfterReceptionClosed(s0, deviceId, wall));
      }
      if flags.audioReceiving {
        var duration := wall - times.audioReceiveStartTime;
        ghost var traffic: seq<Call> := [];
        if flags.realAudioSent && rx.segmentFrameCount > 0 {
          rx := rx.(segmentFrameRates := rx.segmentFrameRates + [MeanInterval(rx.segmentIntervals)],
                    completedSegments := rx.completedSegments + 1);
        }
        if rx.totalAudioBytes > 0 && rx.audioStartTime > 0.0 {
          traffic := [RecordAudioTrafficReceived(deviceId, rx.totalAudioBytes, wall - rx.audioStartTime)];
        }
        flags := flags.(audioReceiving := false);
        log := log + ([RecordAudioReceiveTime(duration, true, false)] + traffic + [UpdateStage("audio_receiving", -1)]);
      }
    }

    /** The second half of `tts stop`: the detect phase hands over to the real-audio phase, or the round ends. */
    method PhaseStop()
      modifies this`flags, this`log
      ensures var r := AfterPhaseStop(old(Snapshot()));
        Snapshot() == r.next && log == old(log) + r.calls
      ensures old(Valid()) ==> Valid()
    {
      ghost var s0 := Snapshot();
      assert Consistent(s0.flags, log) ==> Consistent(AfterPhaseStop(s0).next.flags, log + AfterPhaseStop(s0).calls) by {
        if Ordered(s0.flags) {
          PhaseStopKeeps(s0);
        }
        KeepValid(s0, log, AfterPhaseStop(s0));
      }
      if flags.detectSent && !flags.realAudioPhase {
        flags := flags.(realAudioPhase := true);
        log := log + [StartRealAudioTest];
      } else if flags.realAudioPhase && flags.realAudioSent {
        CompleteTest();
      } else if !flags.detectSent {
        log := log + [UpdateStage("waiting_response", -1)];
      } else {
        CompleteTest();
      }
    }

    /** `tts stop`: the reception closes, then the phase ends. */
    method OnTtsStop(wall: real)
      modifies this`flags, this`rx, this`log
      ensures var r := AfterTtsStop(old(Snapshot()), deviceId, wall);
        Snapshot() == r.next && log == old(log) + r.calls
      ensures old(Valid()) ==> Valid()
    {
      ghost var s0 := Snapshot();
      assert Consistent(s0.flags, log) ==> Consistent(AfterTts(s0, deviceId, "stop", wall).next.flags, log + AfterTts(s0, deviceId, "stop", wall).calls) by {
        if Ordered(s0.flags) {
          TtsStopKeeps(s0, deviceId, wall);
        }
        KeepValid(s0, log, AfterTts(s0, deviceId, "stop", wall));
      }
      CloseReception(wall);
      PhaseStop();
    }

    /** The `tts` arm of `handle_text_message`, by `state`. */
    method OnTts(state: string, wall: real)
      modifies this`flags, this`rx, this`log
      ensures var r := AfterTts(old(Snapshot()), deviceId, state, wall);
        Snapshot() == r.next && log == old(log) + r.calls
      ensures old(Valid()) ==> Valid()
    {
      ghost var s0 := Snapshot();
      assert Consistent(s0.flags, log) ==> Consistent(AfterTts(s0, deviceId, state, wall).next.flags, log + AfterTts(s0, deviceId, state, wall).calls) by {
        if Ordered(s0.flags) {
          TtsKeeps(s0, deviceId, state, wall);
        }
        KeepValid(s0, log, AfterTts(s0, deviceId, state, wall));
      }
      if state == "start" && flags.detectSent && !flags.detectAudioReceived {
      } else if state == "start" && flags.realAudioSent {
        flags := flags.(serverProcessingComplete := true);
      } else if state == "sentence_start" {
        if flags.detectSent && !flags.detectAudioReceived {
        } else if flags.realAudioSent && link.expectedSttText != [] {
          log := log + [UpdateStage("waiting_response", 1)];
        }
      } else if state == "stop" {
        OnTtsStop(wall);
      }
    }

    /** The `start` arm of `handle_text_message` (the legacy flow). */
    method OnStart(wall: real)
      modifies this`times, this`flags, this`rx, this`log
      ensures var r := AfterStart(old(Snapshot()), wall);
        Snapshot() == r.next && log == old(log) + r.calls
      ensures old(Valid()) ==> Valid()
    {
      ghost var s0 := Snapshot();
      assert Consistent(s0.flags, log) ==> Consistent(AfterStart(s0, wall).next.flags, log + AfterStart(s0, wall).calls) by {
        if Ordered(s0.flags) {
          StartKeeps(s0, wall);
        }
        KeepValid(s0, log, AfterStart(s0, wall));
      }
      if !flags.detectSent {
        ghost var receive: seq<Call> := [];
        ghost var sttToStart: seq<Call> := [];
        times := times.(startReceiveTime := wall);
        if times.audioSendStartTime > 0.0 {
          receive := [RecordAudioReceiveTime(times.startReceiveTime - times.audioSendStartTime, true, false)];
        }
        if times.sttCompleteTime > 0.0 {
          sttToStart := [RecordSttToStartTime(times.startReceiveTime - times.sttCompleteTime, true)];
        }
        flags := flags.(audioReceiving := true);
        times := times.(audioReceiveStartTime := times.startReceiveTime);
        rx := rx.(lastFrameTime := times.audioReceiveStartTime);
        log := log + ([UpdateStage("waiting_response", 1)] + receive + sttToStart);
      }
    }

    /** `handle_text_message`, dispatching on the message type. */
    method HandleTextMessage(m: TextMessage, now: real, wall: real)
      modifies this`link, this`times, this`flags, this`rx, this`log
      ensures var r := AfterText(old(Snapshot()), deviceId, m, now, wall);
        Snapshot() == r.next && log == old(log) + r.calls
      ensures old(Valid()) ==> Valid()
    {
      ghost var s0 := Snapshot();
      assert Consistent(s0.flags, log) ==> Consistent(AfterEvent(s0, deviceId, Text(m), now, wall, 0.0).next.flags, log + AfterEvent(s0, deviceId, Text(m), now, wall, 0.0).calls) by {
        if Ordered(s0.flags) {
          EventKeeps(s0, deviceId, Text(m), now, wall, 0.0);
        }
        KeepValid(s0, log, AfterEvent(s0, deviceId, Text(m), now, wall, 0.0));
      }
      match m
      case Hello(sid) => OnHello(sid, now);
      case Stt(text) => OnStt(text, now);
      case Tts(state) => OnTts(state, wall);
      case Llm =>
      case Start => OnStart(wall);
      case Unrecognised =>
    }

    /** `handle_binary_message` for a frame of `length` bytes; `later` is the second clock reading. */
    method HandleBinaryMessage(length: nat, now: real, later: real)
      modifies this`times, this`flags, this`rx, this`log
      ensures var r := AfterBinary(old(Snapshot()), length, now, later);
        Snapshot() == r.next && log == old(log) + r.calls
      ensures old(Valid()) ==> Valid()
    {
      ghost var s0 := Snapshot();
      assert Consistent(s0.flags, log) ==> Consistent(AfterBinary(s0, length, now, later).next.flags, log + AfterBinary(s0, length, now, later).calls) by {
        if Ordered(s0.flags) {
          BinaryKeeps(s0, length, now, later);
        }
        KeepValid(s0, log, AfterBinary(s0, length, now, later));
      }
      if flags.detectSent && !flags.detectAudioReceived {
        times := times.(detectAudioReceiveTime := now);
        var duration := times.detectAudioReceiveTime - times.detectSendTime;
        flags := flags.(detectAudioReceived := true);
        log := log + [RecordDetectResponseTime(duration, true, false), UpdateStage("detect", -1)];
        if !flags.audioReceiving {
          flags := flags.(audioReceiving := true);
          times := times.(audioReceiveStartTime := now);
          rx := rx.(audioStartTime := now, lastFrameTime := now, frameCount := 1, totalAudioBytes := length);
          log := log + [UpdateStage("audio_receiving", 1)];
        }
        return;
      }
      if flags.realAudioSent && !flags.audioReceiving {
        ghost var perceived: seq<Call> := [];
        ghost var processing: seq<Call> := [];
        if times.realAudioSendEndTime > 0.0 {
          var d := now - times.realAudioSendEndTime;
          if d < 0.0 {
            d := 0.0;
          }
          perceived := [RecordAudioResponseTime(d)];
        }
        if times.serverSttStartTime > 0.0 {
          var d := now - times.serverSttStartTime;
          if d < 0.0 {
            d := 0.0;
          }
          processing := [RecordServerProcessingTime(d)];
        }
        flags := flags.(audioReceiving := true);
        times := times.(audioReceiveStartTime := now);
        rx := rx.(audioStartTime := now, lastFrameTime := now, frameCount := 1, totalAudioBytes := length);
        log := log + (perceived + processing + [UpdateStage("waiting_response", -1), UpdateStage("audio_receiving", 1)]);
        return;
      }
      if flags.audioReceiving {
        OnLaterFrame(length, now, later);
      }
    }

    /** The part of `handle_binary_message` for a frame that continues an open reception. */
    method OnLaterFrame(length: nat, now: real, later: real)
      modifies this`rx, this`log
      ensures var r := AfterLaterFrame(old(Snapshot()), length, now, later);
        Snapshot() == r.next && log == old(log) + r.calls
      ensures old(Valid()) ==> Valid()
    {
      LaterFrameValid(Snapshot(), log, length, now, later);
      ghost var first: seq<Call> := [];
      ghost var second: seq<Call> := [];
      rx := rx.(totalAudioBytes := rx.totalAudioBytes + length);
      if rx.lastFrameTime > 0.0 {
        var interval := (later - rx.lastFrameTime) * 1000.0;
        if 0.0 <= interval <= 1000.0 {
          if flags.realAudioSent && rx.segmentFrameCount > 0 {
            rx := rx.(segmentIntervals := rx.segmentIntervals + [interval]);
          }
          first := [RecordFrameInterval(interval)];
        }
      }
      rx := rx.(lastFrameTime := later, frameCount := rx.frameCount + 1);
      if flags.realAudioSent {
        rx := rx.(segmentFrameCount := rx.segmentFrameCount + 1);
      }
      if rx.audioStartTime > 0.0 {
        var duration := now - rx.audioStartTime;
        if duration > 0.0 {
          second := [UpdateCurrentAudioRate(rx.totalAudioBytes as real / duration)];
        }
      }
      log := log + (first + second);
    }

    /** `receive_messages` for one message. */
    method Receive(e: Event, now: real, wall: real, later: real)
      modifies this`link, this`times, this`flags, this`rx, this`log
      ensures var r := AfterEvent(old(Snapshot()), deviceId, e, now, wall, later);
        Snapshot() == r.next && log == old(log) + r.calls
      ensures old(Valid()) ==> Valid()
    {
      EventKeepsValid(Snapshot(), log, deviceId, e, now, wall, later);
      match e
      case Text(m) => HandleTextMessage(m, now, wall);
      case Binary(length) => HandleBinaryMessage(length, now, later);
    }

    /** `reset_for_next_round`; the log starts over with the new round. */
    method ResetForNextRound()
      modifies this`link, this`times, this`flags, this`rx, this`log
      ensures Snapshot() == AfterReset(old(Snapshot())) && log == []
      ensures Valid()
    {
      link := Link("", link.detectSessionId, "", false, false, false, false, 0.0, 0.0, 0.0);
      flags := Flags(false, false, false, false, false, false, false, false, false, flags.sttCompleted);
      times := Times(0.0, 0.0, 0.0, 0.0, 0.0, 0.0, 0.0, 0.0, 0.0);
      rx := Reception(0.0, 0.0, 0, 0.0, 0, [], 0, 0, [], 0);
      log := [];
      ResetConsistent(old(Snapshot()));
    }
  }
}
