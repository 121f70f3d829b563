/**
 * The sequential helpers of `XiaozhiConcurrentTester` in `tester.py`: the
 * device id of a client, the round loop of `run_single_test`, and the core
 * of the two log-reordering routines: reading a client-flow line back into
 * its fields, the `HH:MM:SS.mmm` sort key, the sort by (device, time), the
 * per-device banners, and the device id at the head of a standard-log
 * message. File reading and writing are left to the caller: lines come in
 * as strings and what would be written comes out as values.
 */
module Tester {
  import Format
  import Logger
  import Sorting
  import Text
  import opened Wrappers

  // ---------------------------------------------------------------------
  // Device ids and rounds

  const DevicePrefix: string := "xiaozhi-test-"

  /** `f"xiaozhi-test-{client_id+1:06d}"`. */
  function DeviceId(clientId: nat): (id: string)
    ensures |id| >= |DevicePrefix| + 6 && id[..|DevicePrefix|] == DevicePrefix
    ensures Format.AllDigits(id[|DevicePrefix|..])
  {
    var digits := Format.ZeroPadded(clientId + 1, 6);
    assert (DevicePrefix + digits)[|DevicePrefix|..] == digits;
    DevicePrefix + digits
  }

  /** The digits of a device id read back as `client_id + 1`, so distinct clients get distinct ids. */
  lemma DeviceIdInjective(a: nat, b: nat)
    requires DeviceId(a) == DeviceId(b)
    ensures a == b
  {
    assert DeviceId(a)[|DevicePrefix|..] == Format.ZeroPadded(a + 1, 6);
    assert DeviceId(b)[|DevicePrefix|..] == Format.ZeroPadded(b + 1, 6);
    Format.ZeroPaddedValue(a + 1, 6);
    Format.ZeroPaddedValue(b + 1, 6);
  }

  /** What `run_single_test` does to its client, in order. */
  datatype RoundStep = RunTest(round: nat) | Reset

  /**
   * The round loop of `run_single_test`: `run_test` for rounds `1..rounds`,
   * and `reset_for_next_round` after every round but the last.
   */
  method RunSingleTest(rounds: nat) returns (trace: seq<RoundStep>)
    ensures |trace| == if rounds == 0 then 0 else 2 * rounds - 1
    ensures forall i :: 0 <= i < |trace| ==> trace[i] == if i % 2 == 0 then RunTest(i / 2 + 1) else Reset
  {
    trace := [];
    for roundNum := 1 to rounds + 1
      invariant |trace| == if roundNum == 1 then 0 else 2 * (roundNum - 1) - (if roundNum - 1 == rounds then 1 else 0)
      invariant forall i :: 0 <= i < |trace| ==> trace[i] == if i % 2 == 0 then RunTest(i / 2 + 1) else Reset
    {
      trace := trace + [RunTest(roundNum)];
      if roundNum < rounds {
        trace := trace + [Reset];
      }
    }
  }

  // ---------------------------------------------------------------------
  // Reading a client-flow line

  /** The fields the flow-log pattern captures: `ts`, `cid`, `stage` (`""` when absent) and `msg`. */
  datatype FlowEntry = FlowEntry(ts: string, cid: string, stage: string, msg: string)

  /** The first position at or after `from` that holds `c`. */
  function FindFrom(s: string, c: char, from: nat): (r: Option<nat>)
    requires from <= |s|
    ensures r.Some? ==> from <= r.value < |s| && s[r.value] == c && forall k :: from <= k < r.value ==> s[k] != c
    ensures r.None? ==> forall k :: from <= k < |s| ==> s[k] != c
    decreases |s| - from
  {
    if from == |s| then None
    else if s[from] == c then Some(from)
    else FindFrom(s, c, from + 1)
  }

  /** `(?P<msg>.*)$`: the rest of the line, where `$` may also stand before one final newline. */
  function MessageMatch(m: string): (r: Option<string>)
    ensures r.Some? ==> '\n' !in r.value
    ensures '\n' !in m ==> r == Some(m)
  {
    match FindFrom(m, '\n', 0)
    case None => Some(m)
    case Some(k) => if k == |m| - 1 then Some(m[..k]) else None
  }

  /** The optional ` [stage]` and the space after it, as the regex tries it first: `(stage, msg)`. */
  function StagePart(rest: string): Option<(string, string)> {
    if |rest| < 2 || rest[..2] != " [" then None
    else match FindFrom(rest, ']', 2)
      case None => None
      case Some(k) =>
        if k == 2 || k + 1 >= |rest| || rest[k + 1] != ' ' then None
        else match MessageMatch(rest[k + 2..])
          case None => None
          case Some(msg) => Some((rest[2..k], msg))
  }

  /** What follows `[ts] [cid]`: the optional ` [stage]`, then a space and the message. */
  function ParseRest(ts: string, cid: string, rest: string): (r: Option<FlowEntry>)
    ensures r.Some? ==> r.value.ts == ts && r.value.cid == cid && ']' !in r.value.stage && '\n' !in r.value.msg
  {
    match StagePart(rest)
    case Some(p) =>
      assert forall k :: 0 <= k < |p.0| ==> p.0[k] != ']';
      Some(FlowEntry(ts, cid, p.0, p.1))
    case None =>
      if |rest| == 0 || rest[0] != ' ' then None
      else match MessageMatch(rest[1..])
        case None => None
        case Some(msg) => Some(FlowEntry(ts, cid, "", msg))
  }

  /**
   * The pattern `^\[(ts)\] \[(cid)\](?: \[(stage)\])? (msg)$` of
   * `reorder_client_flow_log`, with `ts` the `HH:MM:SS.mmm` of the flow log
   * and `cid` and `stage` runs of characters other than `]`.
   */
  function ParseFlowLine(line: string): (r: Option<FlowEntry>)
    ensures r.Some? ==> Logger.IsTimestamp(r.value.ts)
    ensures r.Some? ==> r.value.cid != [] && ']' !in r.value.cid && ']' !in r.value.stage && '\n' !in r.value.msg
  {
    if |line| < 16 || line[0] != '[' || !Logger.IsTimestamp(line[1..13]) || line[13..16] != "] [" then None
    else match FindFrom(line, ']', 16)
      case None => None
      case Some(close) =>
        if close == 16 then None
        else
          assert forall k :: 0 <= k < close - 16 ==> line[16..close][k] != ']';
          ParseRest(line[1..13], line[16..close], line[close + 1..])
  }

  /** `FindFrom` stops at the first `c`. */
  lemma FindFromSkips(s: string, c: char, from: nat, k: nat)
    requires from <= k < |s| && s[k] == c
    requires forall j :: from <= j < k ==> s[j] != c
    ensures FindFrom(s, c, from) == Some(k)
    decreases k - from
  {
    if from < k {
      FindFromSkips(s, c, from + 1, k);
    }
  }

  /** A line that opens with a timestamp and a device id in brackets is read by what follows them. */
  lemma ParseHead(ts: string, cid: string, rest: string)
    requires Logger.IsTimestamp(ts)
    requires cid != [] && ']' !in cid
    ensures ParseFlowLine("[" + ts + "] [" + cid + "]" + rest) == ParseRest(ts, cid, rest)
  {
    var line := "[" + ts + "] [" + cid + "]" + rest;
    var close := 16 + |cid|;
    assert line[1..13] == ts && line[13..16] == "] [";
    assert line[16..close] == cid && line[close] == ']' && line[close + 1..] == rest;
    forall j | 16 <= j < close
      ensures line[j] != ']'
    {
      assert line[j] == cid[j - 16];
    }
    FindFromSkips(line, ']', 16, close);
  }

  /** ` [stage] msg` reads as that stage and message. */
  lemma StagePartOf(stage: string, msg: string)
    requires stage != [] && ']' !in stage && '\n' !in msg
    ensures StagePart(" [" + stage + "] " + msg) == Some((stage, msg))
  {
    var rest := " [" + stage + "] " + msg;
    var k := 2 + |stage|;
    assert rest[..2] == " [" && rest[2..k] == stage && rest[k] == ']' && rest[k + 1] == ' ' && rest[k + 2..] == msg;
    forall j | 2 <= j < k
      ensures rest[j] != ']'
    {
      assert rest[j] == stage[j - 2];
    }
    FindFromSkips(rest, ']', 2, k);
  }

  /** A flow-log line with a stage reads back into the fields it was written from. */
  lemma FlowLineRoundTrip(ts: string, cid: string, stage: string, msg: string)
    requires Logger.IsTimestamp(ts)
    requires cid != [] && ']' !in cid
    requires stage != [] && ']' !in stage
    requires '\n' !in msg
    ensures ParseFlowLine(Logger.FlowLine(ts, cid, stage, msg)) == Some(FlowEntry(ts, cid, stage, msg))
  {
    assert Logger.FlowLine(ts, cid, stage, msg) == "[" + ts + "] [" + cid + "]" + (" [" + stage + "] " + msg);
    ParseHead(ts, cid, " [" + stage + "] " + msg);
    StagePartOf(stage, msg);
  }

  /** Without a stage, the line reads back whole unless the message itself opens with what looks like one. */
  lemma FlowLineNoStage(ts: string, cid: string, msg: string)
    requires Logger.IsTimestamp(ts)
    requires cid != [] && ']' !in cid
    requires '\n' !in msg
    requires StagePart(" " + msg).None?
    ensures ParseFlowLine(Logger.FlowLine(ts, cid, "", msg)) == Some(FlowEntry(ts, cid, "", msg))
  {
    assert Logger.FlowLine(ts, cid, "", msg) == "[" + ts + "] [" + cid + "]" + (" " + msg);
    ParseHead(ts, cid, " " + msg);
    assert (" " + msg)[1..] == msg;
  }

  /** A stageless line whose message opens with `[x] ` is read back with `x` as its stage. */
  lemma StagelessMessageReadAsStage(ts: string)
    requires Logger.IsTimestamp(ts)
    ensures ParseFlowLine(Logger.FlowLine(ts, "c", "", "[x] y")) == Some(FlowEntry(ts, "c", "x", "y"))
  {
    assert Logger.FlowLine(ts, "c", "", "[x] y") == "[" + ts + "] [" + "c" + "]" + (" [" + "x" + "] " + "y");
    ParseHead(ts, "c", " [" + "x" + "] " + "y");
    StagePartOf("x", "y");
  }

  // ---------------------------------------------------------------------
  // The sort key

  /** `int(h)*3600000 + int(mnt)*60000 + int(s)*1000 + int(ms)` for `h:mnt:s.ms`. */
  function TimeKey(ts: string): nat
    requires Logger.IsTimestamp(ts)
  {
    assert Format.AllDigits(ts[0..2]) && Format.AllDigits(ts[3..5]);
    assert Format.AllDigits(ts[6..8]) && Format.AllDigits(ts[9..12]);
    Format.DigitsValue(ts[0..2]) * 3600000 + Format.DigitsValue(ts[3..5]) * 60000
    + Format.DigitsValue(ts[6..8]) * 1000 + Format.DigitsValue(ts[9..12])
  }

  /** The milliseconds since midnight of a time of day. */
  function MillisOfDay(h: nat, m: nat, s: nat, ms: nat): nat {
    h * 3600000 + m * 60000 + s * 1000 + ms
  }

  /** The key of a flow-log timestamp is its time of day in milliseconds, the microseconds cut to milliseconds. */
  lemma TimeKeyOfFlowTimestamp(h: nat, m: nat, s: nat, us: nat)
    requires h < 24 && m < 60 && s < 60 && us < 1000000
    ensures TimeKey(Logger.FlowTimestamp(h, m, s, us)) == MillisOfDay(h, m, s, us / 1000)
  {
    var ts := Logger.FlowTimestamp(h, m, s, us);
    FlowTimestampFields(h, m, s, us);
    assert Format.Pow10(2) == 100 && Format.Pow10(3) == 1000;
    Format.FixedDigitsValue(h, 2);
    Format.FixedDigitsValue(m, 2);
    Format.FixedDigitsValue(s, 2);
    Format.FixedDigitsValue(us / 1000, 3);
    assert Format.DigitsValue(ts[0..2]) == h && Format.DigitsValue(ts[3..5]) == m;
    assert Format.DigitsValue(ts[6..8]) == s && Format.DigitsValue(ts[9..12]) == us / 1000;
  }

  /** The four fields of a flow-log timestamp, where `TimeKey` reads them. */
  lemma FlowTimestampFields(h: nat, m: nat, s: nat, us: nat)
    ensures var ts := Logger.FlowTimestamp(h, m, s, us);
      ts[0..2] == Format.FixedDigits(h, 2) && ts[3..5] == Format.FixedDigits(m, 2)
      && ts[6..8] == Format.FixedDigits(s, 2) && ts[9..12] == Format.FixedDigits(us / 1000, 3)
  {
    Logger.FlowTimestampMillis(h, m, s, us);
    var ts := Logger.FlowTimestamp(h, m, s, us);
    var hh, mm, ss, mmm := Format.FixedDigits(h, 2), Format.FixedDigits(m, 2), Format.FixedDigits(s, 2), Format.FixedDigits(us / 1000, 3);
    assert ts == hh + ":" + mm + ":" + ss + "." + mmm;
  }

  /** On valid times of day, the key orders exactly as the clock does: hours, then minutes, seconds, milliseconds. */
  lemma MillisOfDayOrder(h: nat, m: nat, s: nat, ms: nat, h': nat, m': nat, s': nat, ms': nat)
    requires m < 60 && s < 60 && ms < 1000 && m' < 60 && s' < 60 && ms' < 1000
    ensures MillisOfDay(h, m, s, ms) < MillisOfDay(h', m', s', ms') <==>
      h < h' || (h == h' && (m < m' || (m == m' && (s < s' || (s == s' && ms < ms')))))
  {
  }

  // ---------------------------------------------------------------------
  // Reordering the client-flow log

  /** The tuple `(cid, total_ms, ts, stage, msg)` kept for each line that matches. */
  datatype FlowRecord = FlowRecord(cid: string, ms: nat, ts: string, stage: string, msg: string)

  function ToRecord(e: FlowEntry): FlowRecord
    requires Logger.IsTimestamp(e.ts)
  {
    FlowRecord(e.cid, TimeKey(e.ts), e.ts, e.stage, e.msg)
  }

  /** The records of the lines that match, in file order; the others are skipped. */
  function ParsedRecords(lines: seq<string>): (records: seq<FlowRecord>)
    ensures |records| <= |lines|
  {
    if lines == [] then []
    else
      var init := ParsedRecords(lines[..|lines| - 1]);
      match ParseFlowLine(lines[|lines| - 1])
      case None => init
      case Some(e) => init + [ToRecord(e)]
  }

  /** The parsing loop of `reorder_client_flow_log`. */
  method ParseFlowLog(lines: seq<string>) returns (parsed: seq<FlowRecord>)
    ensures parsed == ParsedRecords(lines)
  {
    parsed := [];
    for i := 0 to |lines|
      invariant parsed == ParsedRecords(lines[..i])
    {
      assert lines[..i + 1][..i] == lines[..i];
      var m := ParseFlowLine(lines[i]);
      if m.None? {
        continue;
      }
      var e := m.value;
      var totalMs := TimeKey(e.ts);
      parsed := parsed + [FlowRecord(e.cid, totalMs, e.ts, e.stage, e.msg)];
    }
    assert lines[..|lines|] == lines;
  }

  /** The line `log_client_flow` writes for an entry. */
  function EntryLine(e: FlowEntry): string {
    Logger.FlowLine(e.ts, e.cid, e.stage, e.msg)
  }

  /** An entry the flow logger writes and reads back: a stage, and no `]` or newline where they would clash. */
  predicate Readable(e: FlowEntry) {
    Logger.IsTimestamp(e.ts) && e.cid != [] && ']' !in e.cid && e.stage != [] && ']' !in e.stage && '\n' !in e.msg
  }

  function EntryLines(es: seq<FlowEntry>): (lines: seq<string>)
    ensures |lines| == |es|
  {
    if es == [] then [] else EntryLines(es[..|es| - 1]) + [EntryLine(es[|es| - 1])]
  }

  /** The record of each entry, in order. */
  function RecordsOf(es: seq<FlowEntry>): (rs: seq<FlowRecord>)
    requires forall i :: 0 <= i < |es| ==> Readable(es[i])
    ensures |rs| == |es|
  {
    if es == [] then []
    else
      assert Readable(es[|es| - 1]);
      RecordsOf(es[..|es| - 1]) + [ToRecord(es[|es| - 1])]
  }

  /** A log written by the flow logger parses back into one record per line, in order. */
  lemma {:induction false} ParsedRecordsOfFlowLog(es: seq<FlowEntry>)
    requires forall i :: 0 <= i < |es| ==> Readable(es[i])
    ensures ParsedRecords(EntryLines(es)) == RecordsOf(es)
    decreases |es|
  {
    if es != [] {
      var init := es[..|es| - 1];
      var last := es[|es| - 1];
      ParsedRecordsOfFlowLog(init);
      var lines := EntryLines(es);
      assert lines[..|lines| - 1] == EntryLines(init);
      assert lines[|lines| - 1] == EntryLine(last);
      FlowLineRoundTrip(last.ts, last.cid, last.stage, last.msg);
    }
  }

  /** The key `(cid, total_ms)`, compared as Python compares tuples. */
  predicate KeyLe(a: FlowRecord, b: FlowRecord) {
    if a.cid == b.cid then a.ms <= b.ms else Sorting.LexLe(a.cid, b.cid)
  }

  lemma KeyLeTotalPreorder()
    ensures Sorting.Total(KeyLe) && Sorting.Transitive(KeyLe)
  {
    forall a: FlowRecord, b: FlowRecord
      ensures KeyLe(a, b) || KeyLe(b, a)
    {
      Sorting.LexLeTotal(a.cid, b.cid);
    }
    forall a: FlowRecord, b: FlowRecord, c: FlowRecord | KeyLe(a, b) && KeyLe(b, c)
      ensures KeyLe(a, c)
    {
      if a.cid != b.cid && b.cid != c.cid {
        Sorting.LexLeTransitive(a.cid, b.cid, c.cid);
        if a.cid == c.cid {
          Sorting.LexLeAntisymmetric(a.cid, b.cid);
        }
      }
    }
  }

  /** The records of one device sit next to each other. */
  predicate Contiguous(rs: seq<FlowRecord>) {
    forall i, j, k :: 0 <= i < j < k < |rs| && rs[i].cid == rs[k].cid ==> rs[j].cid == rs[i].cid
  }

  /** Sorted by the key, each device's records form one run. */
  lemma SortedContiguous(rs: seq<FlowRecord>)
    requires Sorting.SortedBy(rs, KeyLe)
    ensures Contiguous(rs)
  {
    forall i, j, k | 0 <= i < j < k < |rs| && rs[i].cid == rs[k].cid
      ensures rs[j].cid == rs[i].cid
    {
      assert KeyLe(rs[i], rs[j]) && KeyLe(rs[j], rs[k]);
      if rs[j].cid != rs[i].cid {
        Sorting.LexLeAntisymmetric(rs[i].cid, rs[j].cid);
      }
    }
  }

  /** What the reordered file receives: a banner `\n===== 设备 cid =====\n`, or one record's line. */
  datatype Output = Banner(cid: string) | Line(text: string)

  /** The line written for a record: the flow-log format again. */
  function RecordLine(r: FlowRecord): string {
    Logger.FlowLine(r.ts, r.cid, r.stage, r.msg)
  }

  /** A banner before each record whose device differs from the one before, then the record's line. */
  function Writes(rs: seq<FlowRecord>): seq<Output> {
    if rs == [] then []
    else
      var init := rs[..|rs| - 1];
      var last := rs[|rs| - 1];
      Writes(init) + NewBanner(init, last) + [Line(RecordLine(last))]
  }

  /** The banner written before `last` when it follows `init`: one exactly when its device differs from the one before. */
  function NewBanner(init: seq<FlowRecord>, last: FlowRecord): seq<Output> {
    if init == [] || init[|init| - 1].cid != last.cid then [Banner(last.cid)] else []
  }

  lemma WritesSnoc(init: seq<FlowRecord>, last: FlowRecord)
    ensures Writes(init + [last]) == Writes(init) + NewBanner(init, last) + [Line(RecordLine(last))]
    ensures Cids(init + [last]) == Cids(init) + {last.cid}
  {
    var rs := init + [last];
    assert rs[..|rs| - 1] == init && rs[|rs| - 1] == last;
  }

  /** The writing loop of `reorder_client_flow_log`, with `current_cid` starting at `None`. */
  method WriteSorted(rs: seq<FlowRecord>) returns (out: seq<Output>)
    ensures out == Writes(rs)
  {
    out := [];
    var currentCid: Option<string> := None;
    for i := 0 to |rs|
      invariant out == Writes(rs[..i])
      invariant currentCid == if i == 0 then None else Some(rs[i - 1].cid)
    {
      assert rs[..i + 1][..i] == rs[..i];
      var r := rs[i];
      if currentCid != Some(r.cid) {
        currentCid := Some(r.cid);
        out := out + [Banner(r.cid)];
      }
      out := out + [Line(RecordLine(r))];
    }
    assert rs[..|rs|] == rs;
  }

  /** The devices that have records. */
  function Cids(rs: seq<FlowRecord>): set<string> {
    if rs == [] then {} else Cids(rs[..|rs| - 1]) + {rs[|rs| - 1].cid}
  }

  lemma {:induction false} CidsMember(rs: seq<FlowRecord>, c: string)
    ensures c in Cids(rs) <==> exists j :: 0 <= j < |rs| && rs[j].cid == c
    decreases |rs|
  {
    if rs != [] {
      var init := rs[..|rs| - 1];
      CidsMember(init, c);
      if c in Cids(init) {
        var j :| 0 <= j < |init| && init[j].cid == c;
        assert rs[j].cid == c;
      }
      if exists j :: 0 <= j < |rs| && rs[j].cid == c {
        var j :| 0 <= j < |rs| && rs[j].cid == c;
        if j < |init| {
          assert init[j].cid == c;
        }
      }
    }
  }

  /** In a contiguous sequence, a device different from the one before it has not been seen yet. */
  lemma NewCid(rs: seq<FlowRecord>)
    requires Contiguous(rs) && |rs| >= 2 && rs[|rs| - 2].cid != rs[|rs| - 1].cid
    ensures rs[|rs| - 1].cid !in Cids(rs[..|rs| - 1])
  {
    var init := rs[..|rs| - 1];
    var n := |rs|;
    forall j | 0 <= j < |init|
      ensures init[j].cid != rs[n - 1].cid
    {
      var a, b, c := rs[j].cid, rs[n - 2].cid, rs[n - 1].cid;
      assert init[j].cid == a;
      assert j < n - 2 ==> a == c ==> b == a;
    }
    CidsMember(init, rs[n - 1].cid);
  }

  /** The banner count of one more record. */
  lemma BannerCountSnoc(init: seq<Output>, banner: seq<Output>, line: string, c: string)
    ensures multiset(init + banner + [Line(line)])[Banner(c)] == multiset(init)[Banner(c)] + multiset(banner)[Banner(c)]
  {
    assert multiset(init + banner + [Line(line)]) == multiset(init) + multiset(banner) + multiset{Line(line)};
  }

  /** In a contiguous sequence, the last record opens a new run exactly when its device has not been seen. */
  lemma NewCidIff(rs: seq<FlowRecord>)
    requires Contiguous(rs) && rs != []
    ensures NewBanner(rs[..|rs| - 1], rs[|rs| - 1]) != [] <==> rs[|rs| - 1].cid !in Cids(rs[..|rs| - 1])
  {
    var init := rs[..|rs| - 1];
    if init != [] {
      if init[|init| - 1].cid != rs[|rs| - 1].cid {
        NewCid(rs);
      } else {
        assert init[..|init| - 1] + [init[|init| - 1]] == init;
      }
    }
  }

  /** The banner count of one device after one more record, on plain counts. */
  lemma BannerCountStep(w: seq<Output>, banner: seq<Output>, line: string, c: string, seen: set<string>, cid: string)
    requires multiset(w)[Banner(c)] == if c in seen then 1 else 0
    requires banner == [] || banner == [Banner(cid)]
    requires banner != [] <==> cid !in seen
    ensures multiset(w + banner + [Line(line)])[Banner(c)] == if c in seen + {cid} then 1 else 0
  {
    BannerCountSnoc(w, banner, line, c);
  }

  /** One more record keeps each device at one banner, given that a banner comes exactly with a new device. */
  lemma {:induction false} BannerStep(init: seq<FlowRecord>, last: FlowRecord)
    requires forall c :: multiset(Writes(init))[Banner(c)] == if c in Cids(init) then 1 else 0
    requires NewBanner(init, last) != [] <==> last.cid !in Cids(init)
    ensures forall c :: multiset(Writes(init + [last]))[Banner(c)] == if c in Cids(init + [last]) then 1 else 0
  {
    WritesSnoc(init, last);
    var w, banner := Writes(init), NewBanner(init, last);
    forall c
      ensures multiset(w + banner + [Line(RecordLine(last))])[Banner(c)] == if c in Cids(init) + {last.cid} then 1 else 0
    {
      BannerCountStep(w, banner, RecordLine(last), c, Cids(init), last.cid);
    }
  }

  /** With each device's records in one run, every device gets exactly one banner and no other banner appears. */
  lemma {:induction false} BannersOnce(rs: seq<FlowRecord>)
    requires Contiguous(rs)
    ensures forall c :: multiset(Writes(rs))[Banner(c)] == if c in Cids(rs) then 1 else 0
    decreases |rs|
  {
    if rs != [] {
      var init := rs[..|rs| - 1];
      assert Contiguous(init);
      BannersOnce(init);
      NewCidIff(rs);
      assert rs == init + [rs[|rs| - 1]];
      BannerStep(init, rs[|rs| - 1]);
    }
  }

  /** The record lines come out in the order of the records, one each. */
  function LinesOf(out: seq<Output>): seq<string> {
    if out == [] then []
    else LinesOf(out[..|out| - 1]) + (match out[|out| - 1] case Line(t) => [t] case Banner(_) => [])
  }

  lemma {:induction false} LinesOfAppend(a: seq<Output>, b: seq<Output>)
    ensures LinesOf(a + b) == LinesOf(a) + LinesOf(b)
    decreases |b|
  {
    if b == [] {
      assert a + b == a;
    } else {
      assert (a + b)[..|a + b| - 1] == a + b[..|b| - 1];
      LinesOfAppend(a, b[..|b| - 1]);
    }
  }

  lemma {:induction false} WritesLines(rs: seq<FlowRecord>)
    ensures LinesOf(Writes(rs)) == seq(|rs|, i requires 0 <= i < |rs| => RecordLine(rs[i]))
    decreases |rs|
  {
    if rs != [] {
      var init := rs[..|rs| - 1];
      var last := rs[|rs| - 1];
      WritesLines(init);
      var banner := NewBanner(init, last);
      LinesOfAppend(Writes(init) + banner, [Line(RecordLine(last))]);
      LinesOfAppend(Writes(init), banner);
      assert LinesOf(banner) == [] by {
        if banner != [] {
          assert banner[..0] == [];
        }
      }
      assert LinesOf([Line(RecordLine(last))]) == [RecordLine(last)] by {
        assert [Line(RecordLine(last))][..0] == [];
      }
    }
  }

  /** `reorder_client_flow_log` on the lines of the log file: parse, sort by `(cid, total_ms)`, write. */
  method ReorderClientFlowLog(lines: seq<string>) returns (out: seq<Output>)
    ensures out == Writes(Sorting.SortBy(ParsedRecords(lines), KeyLe))
  {
    var parsed := ParseFlowLog(lines);
    parsed := Sorting.SortBy(parsed, KeyLe);
    out := WriteSorted(parsed);
  }

  /**
   * The reordered log holds every parsed record exactly once, ordered by
   * device and then time, and each device appears under exactly one banner.
   */
  lemma FlowLogReordered(lines: seq<string>)
    ensures var rs := Sorting.SortBy(ParsedRecords(lines), KeyLe);
      Sorting.SortedBy(rs, KeyLe)
      && multiset(rs) == multiset(ParsedRecords(lines))
      && LinesOf(Writes(rs)) == seq(|rs|, i requires 0 <= i < |rs| => RecordLine(rs[i]))
      && forall c :: multiset(Writes(rs))[Banner(c)] == if c in Cids(rs) then 1 else 0
  {
    var rs := Sorting.SortBy(ParsedRecords(lines), KeyLe);
    KeyLeTotalPreorder();
    Sorting.SortBySorted(ParsedRecords(lines), KeyLe);
    SortedContiguous(rs);
    BannersOnce(rs);
    WritesLines(rs);
  }

  // ---------------------------------------------------------------------
  // The device id of a standard-log message

  const Global: string := "GLOBAL"

  /** `reorder_standard_log`'s `cid`: the text between a leading `[` and the first `]`, else `GLOBAL`. */
  function ExtractCid(msg: string): (cid: string)
    ensures if |msg| >= 1 && msg[0] == '[' && ']' in msg
            then 1 + |cid| < |msg| && msg[1..1 + |cid|] == cid && msg[1 + |cid|] == ']' && ']' !in cid
            else cid == Global
  {
    if |msg| >= 1 && msg[0] == '[' then
      match FindFrom(msg, ']', 0)
      case Some(rb) =>
        assert forall k :: 0 <= k < |msg[1..rb]| ==> msg[1..rb][k] == msg[k + 1];
        msg[1..rb]
      case None => Global
    else Global
  }

  /** Only records with a device id are kept; `GLOBAL` ones are dropped. */
  predicate KeptInStandardLog(msg: string) {
    ExtractCid(msg) != Global
  }

  /** A message that opens with `[cid]` is kept under `cid`. */
  lemma ExtractCidOfPrefixed(msg: string, cid: string)
    requires ']' !in cid
    requires |msg| >= |cid| + 2 && msg[0] == '[' && msg[1..1 + |cid|] == cid && msg[1 + |cid|] == ']'
    ensures ExtractCid(msg) == cid
  {
    assert msg[1 + |cid|] in msg;
    var got := ExtractCid(msg);
    forall k | 1 <= k < 1 + |cid|
      ensures msg[k] != ']'
    {
      assert msg[k] == cid[k - 1];
    }
    forall k | 1 <= k < 1 + |got|
      ensures msg[k] != ']'
    {
      assert msg[k] == got[k - 1];
    }
    assert |got| == |cid|;
  }

  lemma BracketPrefix(s: string, cid: string)
    requires Text.StartsWith(s, "[" + cid + "]")
    ensures |s| >= |cid| + 2 && s[0] == '[' && s[1..1 + |cid|] == cid && s[1 + |cid|] == ']'
  {
    var head := "[" + cid + "]";
    assert s[..|head|] == head;
    assert s[1..1 + |cid|] == head[1..1 + |cid|];
  }

  /** A `log_debug` message with a client id is kept under that id. */
  lemma DebugMessageCid(message: string, clientId: string)
    requires clientId != [] && ']' !in clientId && Logger.NoTagStart(clientId, Logger.DebugTags)
    ensures ExtractCid(Logger.LogDebugMessage(message, clientId)) == clientId
  {
    Logger.LogDebugPrefix(message, clientId);
    BracketPrefix(Logger.LogDebugMessage(message, clientId), clientId);
    ExtractCidOfPrefixed(Logger.LogDebugMessage(message, clientId), clientId);
  }
}
