/**
 * The batch bookkeeping of `BenchmarkLogVC`: a batch of picked videos is
 * started, each finished export appends its record and a block of log text
 * and emits the new record count, and the count that equals the number of
 * picked videos runs the done handler, which in parallel mode appends the
 * total time to the log. The `mm:ss` rendering of a video's duration is
 * pure arithmetic on the ceiling of the duration.
 *
 * Threads, the semaphore, the Rx plumbing and the photo library stay
 * outside: completions arrive one at a time, in the order given.
 */
module BenchmarkLog {
  import opened Wrappers
  import opened CoreGraphics
  import opened Numerics
  import opened VideoRenderer

  /** `Int(ceil(duration))`: the whole seconds a duration is rounded up to. */
  function WholeSeconds(duration: real): (n: int)
    ensures duration <= n as real < duration + 1.0
  {
    TruncateIntegral(Ceil(duration));
    TruncateToInt(Ceil(duration) as real)
  }

  /**
   * `Int(duration) / 60`, truncating: the whole minutes, rounded toward
   * zero, of the rounded-up duration.
   */
  function Minutes(duration: real): (m: int)
    ensures -1.0 < duration ==> 0 <= m && m * 60 <= WholeSeconds(duration) < m * 60 + 60
    ensures duration <= -1.0 ==> m <= 0 && m * 60 - 60 < WholeSeconds(duration) <= m * 60
  {
    TruncDivRem(WholeSeconds(duration), 60);
    TruncDiv(WholeSeconds(duration), 60)
  }

  /**
   * `Int(duration) % 60`, truncating: what is left of the rounded-up
   * duration after whole minutes, with the duration's sign.
   */
  function Seconds(duration: real): (s: int)
    ensures -1.0 < duration ==> 0 <= s < 60
    ensures duration <= -1.0 ==> -60 < s <= 0
    ensures (WholeSeconds(duration) - s) % 60 == 0
  {
    TruncDivRem(WholeSeconds(duration), 60);
    TruncRem(WholeSeconds(duration), 60)
  }

  /** Minutes and seconds recombine to the whole seconds; for a duration above -1 both are in range. */
  lemma MinutesSeconds(duration: real)
    ensures Minutes(duration) * 60 + Seconds(duration) == WholeSeconds(duration)
    ensures -1.0 < duration ==> 0 <= Minutes(duration) && 0 <= Seconds(duration) < 60
    ensures duration <= -1.0 ==> Minutes(duration) <= 0 && -60 < Seconds(duration) <= 0
  {
    TruncDivRem(WholeSeconds(duration), 60);
  }

  /** `String(format: "%02d:%02d", minutes, seconds)`. */
  function DurationString(duration: real): (s: string)
    ensures 5 <= |s|
  {
    MinutesSeconds(duration);
    ZeroPad2(Minutes(duration)) + ":" + ZeroPad2(Seconds(duration))
  }

  /**
   * The string reads back: the digits before the colon are the minutes, the
   * two after it the seconds, and together they give the rounded-up duration.
   */
  lemma DurationStringRoundTrip(duration: real)
    requires -1.0 < duration
    ensures duration <= 5999.0 ==> |DurationString(duration)| == 5
    ensures var s := DurationString(duration);
      && s[|s| - 3] == ':'
      && AllDigits(s[..|s| - 3]) && AllDigits(s[|s| - 2..])
      && ParseDecimal(s[..|s| - 3]) == Minutes(duration)
      && ParseDecimal(s[|s| - 2..]) == Seconds(duration) < 60
      && ParseDecimal(s[..|s| - 3]) * 60 + ParseDecimal(s[|s| - 2..]) == WholeSeconds(duration)
  {
    MinutesSeconds(duration);
    var m, sec := Minutes(duration), Seconds(duration);
    var s := DurationString(duration);
    var a, b := ZeroPad2(m), ZeroPad2(sec);
    assert s == a + ":" + b;
    assert |b| == 2;
    assert s[..|s| - 3] == a;
    assert s[|s| - 2..] == b;
    ZeroPad2RoundTrip(m);
    ZeroPad2RoundTrip(sec);
    if duration <= 5999.0 {
      assert m < 100;
    }
  }

  /**
   * The formatting the log relies on and this model does not spell out:
   * the interpolation of a `Double`, `ByteCountFormatter` in binary style,
   * and the interpolated `endDate.seconds(from: startDate)`.
   */
  datatype Formatters = Formatters(double: real -> string, byteCount: int -> string,
                                   secondsFrom: (real, real) -> string)

  /**
   * The lines of a finished export's log entry after `"Video Resolution: "`:
   * resolution, duration, file size, process duration and size after
   * flattening, without the final line break.
   */
  function EntryLines(info: VideoResultInfo, fmt: Formatters): (s: string)
    requires info.Completed()
    ensures var first := IntString(TruncateToInt(info.videoSize.width)) + "x"
                         + IntString(TruncateToInt(info.videoSize.height)) + "\nVideo Duration: ";
      && |first| <= |s| && s[..|first|] == first
    ensures var last := "\nFile Size After Flatten: " + IntString(info.flattenedFileSize) + " -> "
                        + fmt.byteCount(info.flattenedFileSize);
      && |last| <= |s| && s[|s| - |last|..] == last
  {
    var first := IntString(TruncateToInt(info.videoSize.width)) + "x"
                 + IntString(TruncateToInt(info.videoSize.height)) + "\nVideo Duration: ";
    var middle := fmt.double(info.duration) + " -> " + DurationString(info.duration)
                  + "\nFile Size: " + IntString(info.fileSize) + " -> " + fmt.byteCount(info.fileSize)
                  + "\nProcess Duration: " + fmt.double(info.FlattenedTime()) + " (s)";
    var last := "\nFile Size After Flatten: " + IntString(info.flattenedFileSize) + " -> "
                + fmt.byteCount(info.flattenedFileSize);
    var s := first + middle + last;
    assert s[..|first|] == first;
    assert s[|s| - |last|..] == last;
    s
  }

  /** The block of log text one finished export adds: five lines and a blank one. */
  function LogEntry(info: VideoResultInfo, fmt: Formatters): (s: string)
    requires info.Completed()
    ensures |s| >= 2 && s[|s| - 2..] == "\n\n"
  {
    "Video Resolution: " + EntryLines(info, fmt) + "\n\n"
  }

  predicate AllCompleted(infos: seq<VideoResultInfo>) {
    forall i :: 0 <= i < |infos| ==> infos[i].Completed()
  }

  /**
   * A formatting helper of `BenchmarkLogVC`, whose `entry` it is: the log
   * entry of a finished export with the formatting `fmt`; nothing for an
   * unfinished one.
   */
  function EntryOf(fmt: Formatters): (entry: VideoResultInfo -> string)
    ensures forall info: VideoResultInfo :: info.Completed() ==> entry(info) == LogEntry(info, fmt)
  {
    (info: VideoResultInfo) => if info.Completed() then LogEntry(info, fmt) else ""
  }

  /** The log text of a batch whose exports finished with `infos`, in that order. */
  function Log(infos: seq<VideoResultInfo>, entry: VideoResultInfo -> string): string {
    if infos == [] then "" else Log(infos[..|infos| - 1], entry) + entry(infos[|infos| - 1])
  }

  /** A finished export extends the batch log by its own entry. */
  lemma LogSnoc(infos: seq<VideoResultInfo>, info: VideoResultInfo, entry: VideoResultInfo -> string)
    ensures Log(infos + [info], entry) == Log(infos, entry) + entry(info)
  {
    assert (infos + [info])[..|infos|] == infos;
  }

  /** The parallel-mode log after the done handler: the old text twice, then the total. */
  function WithTotal(log: string, total: string): (s: string)
    ensures |s| == 2 * |log| + |"\n\n Total Time = "| + |total| + |" seconds"|
    ensures s[..|log|] == log && s[|log|..2 * |log|] == log
    ensures s[2 * |log|..] == "\n\n Total Time = " + total + " seconds"
  {
    var s := log + (log + "\n\n Total Time = " + total + " seconds");
    assert s[..|log|] == log;
    assert s[|log|..2 * |log|] == log;
    assert s[2 * |log|..] == "\n\n Total Time = " + total + " seconds";
    s
  }

  /**
   * The records of the exports among the first `n` outcomes that finished, in
   * order; an input that fails the load check gives none.
   */
  function Successes(outcomes: seq<Option<VideoResultInfo>>, n: nat): (r: seq<VideoResultInfo>)
    requires n <= |outcomes|
    ensures |r| <= n
  {
    if n == 0 then []
    else if outcomes[n - 1].Some? then Successes(outcomes, n - 1) + [outcomes[n - 1].value]
    else Successes(outcomes, n - 1)
  }

  /** Every one of the first `n` inputs gives its record exactly when none of them fails the load check. */
  lemma {:induction false} AllSucceedIffNoFailure(outcomes: seq<Option<VideoResultInfo>>, n: nat)
    requires n <= |outcomes|
    ensures |Successes(outcomes, n)| == n <==> forall i :: 0 <= i < n ==> outcomes[i].Some?
  {
    if n > 0 {
      AllSucceedIffNoFailure(outcomes, n - 1);
    }
  }

  /** The counts `benchmarks.count` takes through a batch with `k` finished exports: 1, 2, ..., k. */
  function Counts(k: nat): (s: seq<int>)
    ensures |s| == k
    ensures forall i :: 0 <= i < k ==> s[i] == i + 1
  {
    if k == 0 then [] else Counts(k - 1) + [k]
  }

  /** How many of `s` equal `v`. */
  function Occurrences(s: seq<int>, v: int): nat {
    if s == [] then 0 else Occurrences(s[..|s| - 1], v) + (if s[|s| - 1] == v then 1 else 0)
  }

  /** The count `v` is emitted once if it is one of 1..k, never otherwise. */
  lemma {:induction false} OccurrencesOfCounts(k: nat, v: int)
    ensures Occurrences(Counts(k), v) == if 1 <= v <= k then 1 else 0
  {
    if k > 0 {
      assert Counts(k)[..k - 1] == Counts(k - 1);
      OccurrencesOfCounts(k - 1, v);
    }
  }

  /**
   * The done filter passes a count exactly when it equals the number of
   * picked videos. Over a batch it fires once when at least one video was
   * picked and every one of them exported, and never otherwise: one failed
   * input keeps the count below the target for good.
   */
  lemma DoneFiresIffAllSucceed(outcomes: seq<Option<VideoResultInfo>>)
    ensures var fired := Occurrences(Counts(|Successes(outcomes, |outcomes|)|), |outcomes|);
      && fired <= 1
      && (fired == 1 <==> 0 < |outcomes| && forall i :: 0 <= i < |outcomes| ==> outcomes[i].Some?)
  {
    OccurrencesOfCounts(|Successes(outcomes, |outcomes|)|, |outcomes|);
    AllSucceedIffNoFailure(outcomes, |outcomes|);
  }

  /**
   * The time of the last completion among the first `n` outcomes, whose
   * completions arrive at `completedAt`; `otherwise` when none of them
   * completes.
   */
  function LastCompletedAt(outcomes: seq<Option<VideoResultInfo>>, completedAt: seq<real>, n: nat, otherwise: real): real
    requires n <= |outcomes| == |completedAt|
  {
    if n == 0 then otherwise
    else if outcomes[n - 1].Some? then completedAt[n - 1]
    else LastCompletedAt(outcomes, completedAt, n - 1, otherwise)
  }

  /** The view controller's batch state. */
  class BenchmarkLogVC {
    /** The number of videos picked for the current batch. */
    var selectedVideoCount: int
    var benchmarks: seq<VideoResultInfo>
    /** The counts emitted on `benchmarkCount`, oldest first. */
    ghost var emitted: seq<int>
    var startDate: real
    var endDate: real
    /** The "Parallel Processing" switch. */
    var parallel: bool
    /** The text shown in the log view. */
    var logViewText: string
    /** The batch's accumulated `logText`. */
    var logText: string
    /** Whether the progress HUD is shown. */
    var hudShown: bool
    /** The formatting of the log (see `Formatters`). */
    const fmt: Formatters
    /** How a finished export is written to the log: `LogEntry` with `fmt`. */
    const entry: VideoResultInfo -> string

    /** Every record is complete and the batch log is their entries in completion order. */
    ghost predicate Valid()
      reads this
    {
      AllCompleted(benchmarks) && logText == Log(benchmarks, entry)
    }

    /** `init()` and the stored properties' initial values; `now` is the `.init()` of both dates. */
    constructor (fmt: Formatters, now: real)
      ensures Valid()
      ensures selectedVideoCount == 0 && benchmarks == [] && emitted == []
      ensures startDate == now && endDate == now && !parallel && logViewText == "" && !hudShown
      ensures this.fmt == fmt && entry == EntryOf(fmt)
    {
      selectedVideoCount := 0;
      benchmarks := [];
      emitted := [];
      startDate := now;
      endDate := now;
      parallel := false;
      logViewText := "";
      logText := "";
      hudShown := false;
      this.fmt := fmt;
      entry := EntryOf(fmt);
    }

    /** The switch is flipped. */
    method SetParallel(on: bool)
      modifies this
      ensures parallel == on
      ensures selectedVideoCount == old(selectedVideoCount) && benchmarks == old(benchmarks)
      ensures emitted == old(emitted) && startDate == old(startDate) && endDate == old(endDate)
      ensures logViewText == old(logViewText) && logText == old(logText) && hudShown == old(hudShown)
    {
      parallel := on;
    }

    /**
     * `picker(_:didFinishPicking:)` up to the background loop: the records
     * of the last batch are dropped, the picked count is stored, the HUD
     * comes up when something was picked, a new empty log starts and the
     * batch start time is taken.
     */
    method DidFinishPicking(resultCount: nat, now: real)
      modifies this
      ensures Valid()
      ensures benchmarks == [] && selectedVideoCount == resultCount && logText == "" && startDate == now
      ensures hudShown == (old(hudShown) || 0 < resultCount)
      ensures emitted == old(emitted) && endDate == old(endDate) && parallel == old(parallel)
      ensures logViewText == old(logViewText)
    {
      benchmarks := [];
      selectedVideoCount := resultCount;
      if selectedVideoCount > 0 {
        hudShown := true;
      }
      logText := "";
      startDate := now;
    }

    /**
     * The done handler: in parallel mode the log becomes its old text twice
     * followed by the total time, as `textResult += "\(textResult)…"`
     * writes it; the HUD is hidden in either mode.
     */
    method Done()
      modifies this
      ensures logViewText == (if old(parallel) then WithTotal(old(logViewText), fmt.secondsFrom(endDate, startDate))
                              else old(logViewText))
      ensures !hudShown
      ensures selectedVideoCount == old(selectedVideoCount) && benchmarks == old(benchmarks)
      ensures emitted == old(emitted) && startDate == old(startDate) && endDate == old(endDate)
      ensures parallel == old(parallel) && logText == old(logText)
    {
      if parallel {
        var totalFlattenedTime := fmt.secondsFrom(endDate, startDate);
        var textResult := logViewText;
        textResult := textResult + (textResult + "\n\n Total Time = " + totalFlattenedTime + " seconds");
        logViewText := textResult;
      }
      hudShown := false;
    }

    /** `benchmarkCount.onNext(count)`: the filter lets only the picked count through to the done handler. */
    method Emit(count: int)
      modifies this
      ensures emitted == old(emitted) + [count]
      ensures logViewText == (if count == old(selectedVideoCount) && old(parallel)
                              then WithTotal(old(logViewText), fmt.secondsFrom(endDate, startDate))
                              else old(logViewText))
      ensures hudShown == (if count == old(selectedVideoCount) then false else old(hudShown))
      ensures selectedVideoCount == old(selectedVideoCount) && benchmarks == old(benchmarks)
      ensures startDate == old(startDate) && endDate == old(endDate)
      ensures parallel == old(parallel) && logText == old(logText)
    {
      emitted := emitted + [count];
      if count == selectedVideoCount {
        Done();
      }
    }

    /**
     * One export's completion: its entry is appended to the batch log; then,
     * on the main queue, the end time is taken, the log view shows the batch
     * log, the record is appended and the new count is emitted.
     */
    method CompleteExport(info: VideoResultInfo, now: real)
      requires Valid() && info.Completed()
      modifies this
      ensures Valid()
      ensures benchmarks == old(benchmarks) + [info] && logText == old(logText) + entry(info)
      ensures endDate == now && emitted == old(emitted) + [|benchmarks|]
      ensures var done := |benchmarks| == old(selectedVideoCount);
        && logViewText == (if done && old(parallel) then WithTotal(logText, fmt.secondsFrom(now, old(startDate)))
                           else logText)
        && hudShown == (if done then false else old(hudShown))
      ensures selectedVideoCount == old(selectedVideoCount) && startDate == old(startDate) && parallel == old(parallel)
    {
      LogSnoc(benchmarks, info, entry);
      logText := logText + entry(info);
      endDate := now;
      logViewText := logText;
      benchmarks := benchmarks + [info];
      Emit(|benchmarks|);
    }

    /**
     * One picked item of the background loop: an item that fails the movie
     * type, load or natural-size check (`None`) never calls back; any other
     * one completes at `at`.
     */
    method HandlePickedItem(outcome: Option<VideoResultInfo>, at: real)
      requires Valid() && (outcome.Some? ==> outcome.value.Completed())
      modifies this
      ensures Valid()
      ensures benchmarks == old(benchmarks) + (if outcome.Some? then [outcome.value] else [])
      ensures emitted == old(emitted) + (if outcome.Some? then [|benchmarks|] else [])
      ensures selectedVideoCount == old(selectedVideoCount) && startDate == old(startDate) && parallel == old(parallel)
      ensures outcome.None? ==>
        && logText == old(logText) && endDate == old(endDate)
        && logViewText == old(logViewText) && hudShown == old(hudShown)
      ensures outcome.Some? ==>
        var done := |benchmarks| == old(selectedVideoCount);
        && endDate == at
        && logViewText == (if done && old(parallel) then WithTotal(logText, fmt.secondsFrom(at, old(startDate)))
                           else logText)
        && hudShown == (if done then false else old(hudShown))
    {
      if outcome.Some? {
        CompleteExport(outcome.value, at);
      }
    }

    /**
     * The state in a batch of `n` picked videos, picked at `pickedAt`, once
     * `|benchmarks|` of them have finished: the counts 1, 2, ... were emitted
     * after `before`, the HUD is up until the last one finishes (or keeps
     * `hud0` for an empty batch), and the log view shows the batch log, with
     * the total in parallel mode once all have finished (`view0` before the
     * first).
     */
    ghost predicate BatchProgress(n: nat, pickedAt: real, before: seq<int>, hud0: bool, view0: string, par0: bool)
      reads this
    {
      && Valid()
      && selectedVideoCount == n && startDate == pickedAt && parallel == par0
      && emitted == before + Counts(|benchmarks|)
      && (0 < n ==> hudShown == (|benchmarks| < n))
      && (n == 0 ==> hudShown == hud0)
      && (|benchmarks| == 0 ==> logViewText == view0)
      && (0 < |benchmarks| ==>
            logViewText == (if |benchmarks| == n && parallel
                            then WithTotal(logText, fmt.secondsFrom(endDate, pickedAt))
                            else logText))
    }

    /**
     * A proof helper of `ProcessBatch` (through `CompleteAll`): one pass of the background loop,
     * `HandlePickedItem` of the next outcome, while not all picked videos
     * have finished, keeps `BatchProgress`.
     */
    method BatchStep(outcome: Option<VideoResultInfo>, at: real, n: nat, pickedAt: real,
                     ghost before: seq<int>, ghost hud0: bool, ghost view0: string, ghost par0: bool)
      requires BatchProgress(n, pickedAt, before, hud0, view0, par0)
      requires |benchmarks| < n
      requires outcome.Some? ==> outcome.value.Completed()
      modifies this
      ensures BatchProgress(n, pickedAt, before, hud0, view0, par0)
      ensures benchmarks == old(benchmarks) + (if outcome.Some? then [outcome.value] else [])
      ensures endDate == if outcome.Some? then at else old(endDate)
    {
      ghost var k := |benchmarks|;
      HandlePickedItem(outcome, at);
      if outcome.Some? {
        assert emitted == before + (Counts(k) + [k + 1]);
      }
    }

    /**
     * A whole batch, sequentially: the picker returns `outcomes`, the
     * completions arrive in that order (a `None` is an input that fails the
     * load or natural-size check and never calls back), the `i`-th finished
     * one at time `completedAt[i]`.
     */
    method ProcessBatch(outcomes: seq<Option<VideoResultInfo>>, pickedAt: real, completedAt: seq<real>)
      requires Valid()
      requires |completedAt| == |outcomes|
      requires forall i :: 0 <= i < |outcomes| && outcomes[i].Some? ==> outcomes[i].value.Completed()
      modifies this
      ensures Valid()
      ensures selectedVideoCount == |outcomes| && startDate == pickedAt
      ensures benchmarks == Successes(outcomes, |outcomes|) && logText == Log(Successes(outcomes, |outcomes|), entry)
      ensures emitted == old(emitted) + Counts(|Successes(outcomes, |outcomes|)|)
      ensures parallel == old(parallel)
      ensures endDate == LastCompletedAt(outcomes, completedAt, |outcomes|, old(endDate))
      ensures |outcomes| == 0 ==> hudShown == old(hudShown)
      ensures 0 < |outcomes| ==> (hudShown <==> exists i :: 0 <= i < |outcomes| && outcomes[i].None?)
      ensures |Successes(outcomes, |outcomes|)| == 0 ==> logViewText == old(logViewText)
      ensures 0 < |Successes(outcomes, |outcomes|)| ==>
        logViewText == (if |Successes(outcomes, |outcomes|)| == |outcomes| && old(parallel)
                        then WithTotal(logText, fmt.secondsFrom(endDate, pickedAt))
                        else logText)
    {
      ghost var end0, hud0, view0, par0 := endDate, hudShown, logViewText, parallel;
      DidFinishPicking(|outcomes|, pickedAt);
      ghost var before := emitted;
      assert Counts(0) == [];
      CompleteAll(outcomes, completedAt, pickedAt, before, hud0, view0, par0);
      AllSucceedIffNoFailure(outcomes, |outcomes|);
      if 0 < |outcomes| {
        assert hudShown ==> exists j :: 0 <= j < |outcomes| && outcomes[j].None?;
      }
    }

    /**
     * The completions of a batch that has just started, in the order of
     * `outcomes`, the `i`-th finished one at time `completedAt[i]`.
     */
    method CompleteAll(outcomes: seq<Option<VideoResultInfo>>, completedAt: seq<real>, pickedAt: real,
                       ghost before: seq<int>, ghost hud0: bool, ghost view0: string, ghost par0: bool)
      requires BatchProgress(|outcomes|, pickedAt, before, hud0, view0, par0) && benchmarks == []
      requires |completedAt| == |outcomes|
      requires forall i :: 0 <= i < |outcomes| && outcomes[i].Some? ==> outcomes[i].value.Completed()
      modifies this
      ensures BatchProgress(|outcomes|, pickedAt, before, hud0, view0, par0)
      ensures benchmarks == Successes(outcomes, |outcomes|)
      ensures endDate == LastCompletedAt(outcomes, completedAt, |outcomes|, old(endDate))
    {
      var i := 0;
      while i < |outcomes|
        invariant 0 <= i <= |outcomes|
        invariant BatchProgress(|outcomes|, pickedAt, before, hud0, view0, par0)
        invariant benchmarks == Successes(outcomes, i)
        invariant endDate == LastCompletedAt(outcomes, completedAt, i, old(endDate))
      {
        BatchStep(outcomes[i], completedAt[i], |outcomes|, pickedAt, before, hud0, view0, par0);
        i := i + 1;
      }
    }
  }
}
