/**
 * `ProgressTracker` of `progress.py`: session counters updated by the
 * clients, per-stage counters, and the progress-bar view the console shows.
 * Each method is one atomic step (the lock only serialises them); the wall
 * clock is a parameter.
 */
module Progress {
  import Format

  /** The eight stage names, all present from the start. */
  const StageNames: seq<string> := [
    "connecting", "hello", "detect", "audio_sending",
    "waiting_response", "audio_receiving", "completed", "failed"
  ]

  /** The stage table as `__init__` builds it. */
  function InitialStages(): (m: map<string, int>)
    ensures m.Keys == set i | 0 <= i < |StageNames| :: StageNames[i]
    ensures forall k :: k in m ==> m[k] == 0
  {
    map k | k in StageNames :: 0
  }

  /** `stage_stats[stage] += delta` guarded by `stage in stage_stats`. */
  function Bumped(stats: map<string, int>, stage: string, delta: int): map<string, int> {
    if stage in stats then stats[stage := stats[stage] + delta] else stats
  }

  /**
   * `update_stage` changes only the named stage, by exactly `delta`; an
   * unknown name leaves the table as it was; no stage is ever added.
   */
  lemma BumpedOnlyNamed(stats: map<string, int>, stage: string, delta: int)
    ensures Bumped(stats, stage, delta).Keys == stats.Keys
    ensures forall k :: k in stats ==>
      Bumped(stats, stage, delta)[k] == stats[k] + (if k == stage then delta else 0)
    ensures stage !in stats ==> Bumped(stats, stage, delta) == stats
  {
  }

  /** What the estimate in the progress line says. */
  datatype Eta = Seconds(seconds: real) | Done | Unknown

  /** Everything `get_progress_bar` puts in its line, before float formatting. */
  datatype ProgressView = ProgressView(
    bar: string,
    filled: int,
    progress: real,
    displayCompleted: int,
    totalClients: int,
    remaining: int,
    eta: Eta)

  function Max(a: int, b: int): int {
    if a < b then b else a
  }

  function Min(a: int, b: int): int {
    if a < b then a else b
  }

  /** Python's `int(x)` on a float: truncation toward zero. */
  function Trunc(x: real): (n: int)
    ensures x >= 0.0 ==> n as real <= x < n as real + 1.0
    ensures x < 0.0 ==> n as real - 1.0 < x <= n as real
  {
    if x >= 0.0 then x.Floor else -((-x).Floor)
  }

  lemma TruncMonotone(x: real, y: real)
    requires 0.0 <= x <= y
    ensures Trunc(x) <= Trunc(y)
  {
    assert (Trunc(x) as real) < Trunc(y) as real + 1.0;
  }

  /** `'█' * filled + '░' * (width - filled)`; a negative count repeats nothing. */
  function Bar(filled: int, width: int): (bar: string)
    ensures 0 <= filled <= width ==> |bar| == width
    ensures 0 <= filled <= width ==> forall i :: 0 <= i < width ==> (bar[i] == '\U{2588}' <==> i < filled)
  {
    Format.Repeat('\U{2588}', Max(filled, 0)) + Format.Repeat('\U{2591}', Max(width - filled, 0))
  }

  /** `min(completed / max(total_clients, 1), 1.0)`. */
  function Fraction(completed: int, totalClients: int): (p: real)
    requires completed >= 0
    ensures 0.0 <= p <= 1.0
  {
    var q := completed as real / Max(totalClients, 1) as real;
    if q < 1.0 then q else 1.0
  }

  lemma FractionMonotone(c1: int, c2: int, totalClients: int)
    requires 0 <= c1 <= c2
    ensures Fraction(c1, totalClients) <= Fraction(c2, totalClients)
  {
    var d := Max(totalClients, 1) as real;
    assert c1 as real / d <= c2 as real / d;
  }

  lemma ScaleMonotone(w: real, p1: real, p2: real)
    requires w >= 0.0 && p1 <= p2
    ensures w * p1 <= w * p2
  {
  }

  lemma ScaleBounds(w: real, p: real)
    requires w >= 0.0 && 0.0 <= p <= 1.0
    ensures 0.0 <= w * p <= w
  {
  }

  /** A fraction of the width truncates to a cell count between 0 and the width. */
  lemma FilledBounds(width: int, p: real)
    requires width >= 0 && 0.0 <= p <= 1.0
    ensures 0 <= Trunc(width as real * p) <= width
  {
    var x := width as real * p;
    ScaleBounds(width as real, p);
    var n := Trunc(x);
    assert n as real <= x;
  }

  /** `int(width * progress)`: the number of filled cells. */
  function FilledCells(width: int, p: real): (n: int)
    ensures width >= 0 && 0.0 <= p <= 1.0 ==> 0 <= n <= width
  {
    if width >= 0 && 0.0 <= p <= 1.0 then
      FilledBounds(width, p);
      Trunc(width as real * p)
    else Trunc(width as real * p)
  }

  /** `elapsed / completed * remaining` once something completed, "done" once nothing remains. */
  function EtaOf(completed: int, remaining: int, elapsed: real): (eta: Eta)
    ensures eta == Done <==> remaining == 0
    ensures eta == Unknown <==> remaining != 0 && (completed <= 0 || remaining < 0)
  {
    if completed > 0 && remaining > 0 then Seconds(elapsed / completed as real * remaining as real)
    else if remaining == 0 then Done
    else Unknown
  }

  /** The progress line's content for the given counters, bar width and elapsed time. */
  function ProgressOf(completed: int, totalClients: int, width: int, elapsed: real): (v: ProgressView)
    requires completed >= 0
    ensures 0.0 <= v.progress <= 1.0
    ensures width >= 0 ==> 0 <= v.filled <= width && |v.bar| == width
    ensures width >= 0 ==> forall i :: 0 <= i < width ==> (v.bar[i] == '\U{2588}' <==> i < v.filled)
    ensures v.displayCompleted <= v.totalClients == totalClients
    ensures v.remaining >= 0 && v.remaining >= totalClients - completed
    ensures v.remaining == 0 || v.remaining == totalClients - completed
    ensures v.eta == Done <==> v.remaining == 0
    ensures v.eta == Unknown <==> completed == 0 && v.remaining > 0
  {
    var progress := Fraction(completed, totalClients);
    var filled := FilledCells(width, progress);
    var remaining := Max(totalClients - completed, 0);
    var eta := EtaOf(completed, remaining, elapsed);
    ProgressView(Bar(filled, width), filled, progress, Min(completed, totalClients), totalClients, remaining, eta)
  }

  lemma FilledCellsMonotone(width: int, p1: real, p2: real)
    requires width >= 0 && 0.0 <= p1 <= p2 <= 1.0
    ensures FilledCells(width, p1) <= FilledCells(width, p2)
  {
    var x1, x2 := width as real * p1, width as real * p2;
    ScaleMonotone(width as real, p1, p2);
    ScaleBounds(width as real, p1);
    TruncMonotone(x1, x2);
  }

  /** With more sessions completed, the bar never has fewer filled cells. */
  lemma FilledMonotone(c1: int, c2: int, totalClients: int, width: int, elapsed: real)
    requires 0 <= c1 <= c2 && width >= 0
    ensures ProgressOf(c1, totalClients, width, elapsed).filled <= ProgressOf(c2, totalClients, width, elapsed).filled
  {
    FractionMonotone(c1, c2, totalClients);
    FilledCellsMonotone(width, Fraction(c1, totalClients), Fraction(c2, totalClients));
  }

  /** Once every one of at least one session has completed, the bar is full and the estimate says so. */
  lemma AllCompletedFullBar(completed: int, totalClients: int, width: int, elapsed: real)
    requires 0 < totalClients <= completed && width >= 0
    ensures var v := ProgressOf(completed, totalClients, width, elapsed);
      v.filled == width && v.eta == Done && v.displayCompleted == totalClients
  {
    assert completed as real / totalClients as real >= 1.0;
  }

  class ProgressTracker {
    var totalClients: int
    var concurrency: int
    var completed: int
    var active: int
    var failed: int
    var startTime: real
    var stageStats: map<string, int>

    /** The stage table keeps exactly the eight stage names; session counts never go negative. */
    predicate Valid()
      reads this
    {
      stageStats.Keys == InitialStages().Keys && completed >= 0 && failed >= 0
    }

    constructor (totalClients: int, concurrency: int, now: real)
      ensures Valid()
      ensures this.totalClients == totalClients && this.concurrency == concurrency
      ensures completed == 0 && active == 0 && failed == 0
      ensures startTime == now && stageStats == InitialStages()
    {
      this.totalClients := totalClients;
      this.concurrency := concurrency;
      completed := 0;
      active := 0;
      failed := 0;
      startTime := now;
      stageStats := InitialStages();
    }

    /** `update_stage`. */
    method UpdateStage(stage: string, delta: int)
      requires Valid()
      modifies this`stageStats
      ensures Valid()
      ensures stageStats == Bumped(old(stageStats), stage, delta)
    {
      if stage in stageStats {
        stageStats := stageStats[stage := stageStats[stage] + delta];
      }
    }

    /** `increment_active`: a WebSocket was opened. */
    method IncrementActive()
      modifies this`active
      ensures active == old(active) + 1
    {
      active := active + 1;
    }

    /** `decrement_active`: a WebSocket was closed; the count stops at 0. */
    method DecrementActive()
      modifies this`active
      ensures old(active) > 0 ==> active == old(active) - 1
      ensures old(active) <= 0 ==> active == old(active)
      ensures old(active) >= 0 ==> active >= 0
    {
      if active > 0 {
        active := active - 1;
      }
    }

    /** `set_active`. */
    method SetActive(count: int)
      modifies this`active
      ensures active == count
    {
      active := count;
    }

    /** `increment_completed`. */
    method IncrementCompleted()
      requires Valid()
      modifies this`completed
      ensures Valid()
      ensures completed == old(completed) + 1
    {
      completed := completed + 1;
    }

    /** `increment_failed`. */
    method IncrementFailed()
      requires Valid()
      modifies this`failed
      ensures Valid()
      ensures failed == old(failed) + 1
    {
      failed := failed + 1;
    }

    /** `get_progress_bar(width)` at wall-clock time `now`. */
    function ProgressBar(width: int, now: real): (v: ProgressView)
      requires Valid()
      reads this
      ensures width >= 0 ==> |v.bar| == width && 0 <= v.filled <= width
      ensures v.displayCompleted <= totalClients
      ensures v.eta == Done <==> completed >= totalClients
    {
      ProgressOf(completed, totalClients, width, now - startTime)
    }
  }
}
