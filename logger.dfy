/**
 * The two message builders of `logger.py`: `log_debug`, which prefixes the
 * client id and cleans the emoji debug tags off a message, and
 * `log_client_flow`, which writes one `[HH:MM:SS.mmm] [cid] [stage] msg`
 * line of the client-flow log. The logging handlers themselves are I/O and
 * are not part of this module.
 */
module Logger {
  import Format
  import opened Text

  /** `str.isspace()` for one character: the code points Python treats as whitespace. */
  predicate IsSpace(c: char) {
    var n := c as int;
    (0x09 <= n <= 0x0D) || (0x1C <= n <= 0x20) || n == 0x85 || n == 0xA0 || n == 0x1680
    || (0x2000 <= n <= 0x200A) || n == 0x2028 || n == 0x2029 || n == 0x202F
    || n == 0x205F || n == 0x3000
  }

  /** `s.lstrip()`: the suffix left after dropping the leading whitespace. */
  function LStrip(s: string): (r: string)
    ensures |r| <= |s| && r == s[|s| - |r|..]
    ensures forall k :: 0 <= k < |s| - |r| ==> IsSpace(s[k])
    ensures r != [] ==> !IsSpace(r[0])
  {
    if s != [] && IsSpace(s[0]) then LStrip(s[1..]) else s
  }

  /** `s.rstrip()`: the prefix left after dropping the trailing whitespace. */
  function RStrip(s: string): (r: string)
    ensures |r| <= |s| && r == s[..|r|]
    ensures forall k :: |r| <= k < |s| ==> IsSpace(s[k])
    ensures r != [] ==> !IsSpace(r[|r| - 1])
  {
    if s != [] && IsSpace(s[|s| - 1]) then RStrip(s[..|s| - 1]) else s
  }

  /** `s.strip()`. */
  function Strip(s: string): string {
    LStrip(RStrip(s))
  }

  /** `s.replace(t, '')`: occurrences are removed left to right, without overlap. */
  function RemoveAll(s: string, t: string): (r: string)
    requires t != []
    ensures |r| <= |s|
    decreases |s|
  {
    if |s| < |t| then s
    else if s[..|t|] == t then RemoveAll(s[|t|..], t)
    else [s[0]] + RemoveAll(s[1..], t)
  }

  /** A string in which `t` does not occur is left as it is. */
  lemma {:induction false} RemoveAllAbsent(s: string, t: string)
    requires t != [] && !Occurs(t, s)
    ensures RemoveAll(s, t) == s
    decreases |s|
  {
    if |s| >= |t| {
      assert !OccursAt(t, s, 0);
      assert s[0..0 + |t|] == s[..|t|];
      forall i | 0 <= i && i + |t| <= |s[1..]|
        ensures !OccursAt(t, s[1..], i)
      {
        assert !OccursAt(t, s, i + 1);
        assert s[1..][i..i + |t|] == s[i + 1..i + 1 + |t|];
      }
      RemoveAllAbsent(s[1..], t);
      assert s == [s[0]] + s[1..];
    }
  }

  /** Text that cannot start an occurrence of `t` passes through the removal untouched. */
  lemma {:induction false} RemoveAllKeepsPrefix(a: string, b: string, t: string)
    requires t != [] && t[0] !in a
    ensures RemoveAll(a + b, t) == a + RemoveAll(b, t)
    decreases |a|
  {
    if a != [] {
      if |a + b| >= |t| {
        assert (a + b)[..|t|][0] == a[0] != t[0];
        assert (a + b)[1..] == a[1..] + b;
        RemoveAllKeepsPrefix(a[1..], b, t);
        calc {
          RemoveAll(a + b, t);
          [a[0]] + RemoveAll(a[1..] + b, t);
          [a[0]] + (a[1..] + RemoveAll(b, t));
          { assert a == [a[0]] + a[1..]; }
          a + RemoveAll(b, t);
        }
      } else {
        RemoveAllShort(a + b, t);
        RemoveAllShort(b, t);
      }
    } else {
      assert a + b == b;
    }
  }

  lemma RemoveAllShort(s: string, t: string)
    requires t != [] && |s| < |t|
    ensures RemoveAll(s, t) == s
  {
  }

  /** The seven `<emoji> DEBUG:` tags, in the order `log_debug` removes them. */
  const DebugTags: seq<string> := [
    "\U{1F3B5} DEBUG:", "\U{1F507} DEBUG:", "\U{1F3AF} DEBUG:", "\U{1F680} DEBUG:",
    "\U{1F534} DEBUG:", "\U{1F4E8} DEBUG:", "\U{1F4CA} DEBUG:"
  ]

  predicate NonEmptyTags(tags: seq<string>) {
    forall j :: 0 <= j < |tags| ==> tags[j] != []
  }

  /** None of the tags can start inside `s`. */
  predicate NoTagStart(s: string, tags: seq<string>)
    requires NonEmptyTags(tags)
  {
    forall j :: 0 <= j < |tags| ==> tags[j][0] !in s
  }

  /** The chained `.replace(tag, '')` calls, one per tag in order. */
  function RemoveTags(s: string, tags: seq<string>): (r: string)
    requires NonEmptyTags(tags)
    ensures |r| <= |s|
    decreases |tags|
  {
    if tags == [] then s else RemoveTags(RemoveAll(s, tags[0]), tags[1..])
  }

  lemma {:induction false} RemoveTagsKeepsPrefix(a: string, b: string, tags: seq<string>)
    requires NonEmptyTags(tags) && NoTagStart(a, tags)
    ensures RemoveTags(a + b, tags) == a + RemoveTags(b, tags)
    decreases |tags|
  {
    if tags != [] {
      RemoveAllKeepsPrefix(a, b, tags[0]);
      RemoveTagsKeepsPrefix(a, RemoveAll(b, tags[0]), tags[1..]);
    }
  }

  /** The message before cleaning: `[client_id] message`, or the bare message without a client id. */
  function FullDebugMessage(message: string, clientId: string): string {
    if clientId != [] then "[" + clientId + "] " + message else message
  }

  /** The text `log_debug` hands to the debug logger. */
  function LogDebugMessage(message: string, clientId: string): string {
    Strip(RemoveTags(FullDebugMessage(message, clientId), DebugTags))
  }

  lemma DebugTagsNonEmpty()
    ensures NonEmptyTags(DebugTags)
  {
  }

  /**
   * With a client id that holds none of the tag emoji, the logged text
   * starts with `[client_id]` and the cleaning only touches the message;
   * without one, the logged text is the cleaned, stripped message.
   */
  lemma LogDebugPrefix(message: string, clientId: string)
    ensures NonEmptyTags(DebugTags)
    ensures clientId != [] && NoTagStart(clientId, DebugTags) ==>
      LogDebugMessage(message, clientId) == RStrip("[" + clientId + "] " + RemoveTags(message, DebugTags)) &&
      StartsWith(LogDebugMessage(message, clientId), "[" + clientId + "]")
    ensures clientId == [] ==> LogDebugMessage(message, clientId) == Strip(RemoveTags(message, DebugTags))
  {
    DebugTagsNonEmpty();
    if clientId != [] && NoTagStart(clientId, DebugTags) {
      var head := "[" + clientId + "] ";
      HeadHasNoTag(clientId);
      RemoveTagsKeepsPrefix(head, message, DebugTags);
      var s := head + RemoveTags(message, DebugTags);
      assert FullDebugMessage(message, clientId) == head + message;
      assert s[..|clientId| + 2] == "[" + clientId + "]";
      RStripKeepsPrefix(s, |clientId| + 2);
      var r := RStrip(s);
      LStripNoLeadingSpace(r);
    }
  }

  /** `lstrip` leaves a string that starts with a non-space character alone. */
  lemma LStripNoLeadingSpace(r: string)
    requires r != [] && !IsSpace(r[0])
    ensures LStrip(r) == r
  {
  }

  /** No debug tag starts in the `[client_id] ` head when none starts in the id. */
  lemma HeadHasNoTag(clientId: string)
    requires NoTagStart(clientId, DebugTags)
    ensures NoTagStart("[" + clientId + "] ", DebugTags)
  {
    var head := "[" + clientId + "] ";
    forall j | 0 <= j < |DebugTags|
      ensures DebugTags[j][0] !in head
    {
      assert head == ['['] + clientId + [']', ' '];
    }
  }

  /** `rstrip` keeps a prefix that ends in a non-space character. */
  lemma RStripKeepsPrefix(s: string, n: nat)
    requires 0 < n <= |s| && !IsSpace(s[n - 1])
    ensures |RStrip(s)| >= n && RStrip(s)[..n] == s[..n]
  {
  }

  /** `RemoveTags` leaves a string alone when no tag can start in it. */
  lemma {:induction false} RemoveTagsAbsent(s: string, tags: seq<string>)
    requires NonEmptyTags(tags) && NoTagStart(s, tags)
    ensures RemoveTags(s, tags) == s
    decreases |tags|
  {
    if tags != [] {
      RemoveAllKeepsPrefix(s, [], tags[0]);
      assert s + [] == s;
      RemoveTagsAbsent(s, tags[1..]);
    }
  }

  /**
   * A tag at the front of a message is removed: with tags that do not start
   * inside each other and a body free of them, only the body survives.
   */
  lemma {:induction false} RemoveTagsLeading(i: nat, body: string, tags: seq<string>)
    requires NonEmptyTags(tags) && i < |tags|
    requires forall j :: 0 <= j < |tags| && j != i ==> tags[j][0] !in tags[i]
    requires NoTagStart(body, tags)
    ensures RemoveTags(tags[i] + body, tags) == body
  {
    var t := tags[i];
    if i == 0 {
      assert (t + body)[..|t|] == t && (t + body)[|t|..] == body;
      RemoveAllKeepsPrefix(body, [], t);
      assert body + [] == body;
      assert NoTagStart(body, tags[1..]) by {
        forall j | 0 <= j < |tags[1..]|
          ensures tags[1..][j][0] !in body
        {
          assert tags[1..][j] == tags[j + 1];
        }
      }
      RemoveTagsAbsent(body, tags[1..]);
    } else {
      RemoveAllKeepsPrefix(t, body, tags[0]);
      RemoveAllKeepsPrefix(body, [], tags[0]);
      assert body + [] == body;
      assert tags[1..][i - 1] == t;
      RemoveTagsLeading(i - 1, body, tags[1..]);
    }
  }

  /** `log_debug` drops a leading debug tag: `"🎵 DEBUG: x"` is logged as `x` stripped. */
  lemma LogDebugDropsTag(i: nat, body: string)
    requires i < |DebugTags|
    ensures NonEmptyTags(DebugTags)
    ensures NoTagStart(body, DebugTags) ==> LogDebugMessage(DebugTags[i] + body, "") == Strip(body)
  {
    DebugTagsNonEmpty();
    if NoTagStart(body, DebugTags) {
      RemoveTagsLeading(i, body, DebugTags);
    }
  }

  /** `HH:MM:SS.mmm` as the flow-log regex `\d{2}:\d{2}:\d{2}\.\d{3}` accepts it (ASCII digits). */
  predicate IsTimestamp(ts: string) {
    |ts| == 12 && ts[2] == ':' && ts[5] == ':' && ts[8] == '.'
    && Format.IsDigit(ts[0]) && Format.IsDigit(ts[1]) && Format.IsDigit(ts[3])
    && Format.IsDigit(ts[4]) && Format.IsDigit(ts[6]) && Format.IsDigit(ts[7])
    && Format.IsDigit(ts[9]) && Format.IsDigit(ts[10]) && Format.IsDigit(ts[11])
  }

  /** `strftime("%H:%M:%S.%f")` of a time of day. */
  function ClockText(h: nat, m: nat, s: nat, us: nat): string {
    Format.FixedDigits(h, 2) + ":" + Format.FixedDigits(m, 2) + ":"
    + Format.FixedDigits(s, 2) + "." + Format.FixedDigits(us, 6)
  }

  /** The flow-log timestamp: the clock text with its last three characters cut off. */
  function FlowTimestamp(h: nat, m: nat, s: nat, us: nat): (ts: string)
    ensures IsTimestamp(ts)
  {
    var c := ClockText(h, m, s, us);
    c[..|c| - 3]
  }

  /** Cutting three digits off `%f` leaves the milliseconds, `us // 1000`, as three digits. */
  lemma FlowTimestampMillis(h: nat, m: nat, s: nat, us: nat)
    ensures FlowTimestamp(h, m, s, us)
      == Format.FixedDigits(h, 2) + ":" + Format.FixedDigits(m, 2) + ":"
         + Format.FixedDigits(s, 2) + "." + Format.FixedDigits(us / 1000, 3)
  {
    Format.FixedDigitsPrefix(us, 3, 3);
    assert Format.Pow10(3) == 1000;
  }

  /** `log_client_flow`'s line: the stage in brackets only when it is non-empty. */
  function FlowLine(ts: string, clientId: string, stage: string, message: string): string {
    if stage != [] then "[" + ts + "] [" + clientId + "] [" + stage + "] " + message
    else "[" + ts + "] [" + clientId + "] " + message
  }
}
