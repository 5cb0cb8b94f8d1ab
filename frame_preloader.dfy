/**
 * `useSmplFramePreloader`: fetches every frame of a recording in batches of five,
 * publishing the frames loaded so far after each batch and a progress percentage
 * after each frame. The fetch of each URL is an input (`None` for a failed, non-ok
 * or aborted request), and so is the batch at which the abort signal is first seen.
 */
module FramePreloader {
  import opened Wrappers
  import opened FrameSource
  import opened Numeric

  const BatchSize: nat := 5

  const NoFramesError := "Failed to load any frames"

  /** The map built from the first results: a frame is stored under its URL, a later duplicate overwrites. */
  function LoadedMap(urls: seq<string>, outcomes: seq<Option<Frame>>): map<string, Frame>
    requires |outcomes| == |urls|
    decreases |urls|
  {
    if urls == [] then map[]
    else
      var m := LoadedMap(urls[..|urls| - 1], outcomes[..|urls| - 1]);
      match outcomes[|urls| - 1]
      case Some(f) => m[urls[|urls| - 1] := f]
      case None => m
  }

  /** The number of frames whose results were counted: all, or those of the batches before the abort. */
  function ProcessedCount(total: nat, abortAt: Option<nat>): (n: nat)
    ensures n <= total
    ensures abortAt == None ==> n == total
  {
    match abortAt
    case None => total
    case Some(b) => Min(total, b * BatchSize)
  }

  /** `loadedCount / frameUrls.length * 100`. */
  function Percent(count: nat, total: nat): real
    requires total > 0
  {
    count as real / total as real * 100.0
  }

  /** A URL is a key of the loaded map exactly when one of its fetches succeeded. */
  lemma {:induction false} LoadedMapKeys(urls: seq<string>, outcomes: seq<Option<Frame>>)
    requires |outcomes| == |urls|
    ensures forall u :: u in LoadedMap(urls, outcomes) <==>
              exists i :: 0 <= i < |urls| && urls[i] == u && outcomes[i].Some?
    decreases |urls|
  {
    if urls != [] {
      var k := |urls| - 1;
      LoadedMapKeys(urls[..k], outcomes[..k]);
      forall u
        ensures u in LoadedMap(urls, outcomes) <==>
                exists i :: 0 <= i < |urls| && urls[i] == u && outcomes[i].Some?
      {
        var m := LoadedMap(urls[..k], outcomes[..k]);
        assert LoadedMap(urls, outcomes) == (if outcomes[k].Some? then m[urls[k] := outcomes[k].value] else m);
        if u in LoadedMap(urls, outcomes) && !(urls[k] == u && outcomes[k].Some?) {
          assert u in m;
          var i :| 0 <= i < k && urls[..k][i] == u && outcomes[..k][i].Some?;
          assert urls[i] == u && outcomes[i].Some?;
        }
        if exists i :: 0 <= i < |urls| && urls[i] == u && outcomes[i].Some? {
          var i :| 0 <= i < |urls| && urls[i] == u && outcomes[i].Some?;
          if i < k {
            assert urls[..k][i] == u && outcomes[..k][i].Some?;
          }
        }
      }
    }
  }

  /** The map is empty exactly when no fetch succeeded. */
  lemma LoadedMapEmpty(urls: seq<string>, outcomes: seq<Option<Frame>>)
    requires |outcomes| == |urls|
    ensures LoadedMap(urls, outcomes) == map[] <==> forall i :: 0 <= i < |urls| ==> outcomes[i].None?
  {
    LoadedMapKeys(urls, outcomes);
    var m := LoadedMap(urls, outcomes);
    if m != map[] {
      var u :| u in m;
      var i :| 0 <= i < |urls| && urls[i] == u && outcomes[i].Some?;
    }
    if exists i :: 0 <= i < |urls| && outcomes[i].Some? {
      var i :| 0 <= i < |urls| && outcomes[i].Some?;
      assert urls[i] in m;
    }
  }

  /** The frame stored under a URL is the one of its last successful fetch. */
  lemma {:induction false} LoadedMapLastWins(urls: seq<string>, outcomes: seq<Option<Frame>>, i: nat)
    requires |outcomes| == |urls| && i < |urls| && outcomes[i].Some?
    requires forall j :: i < j < |urls| && urls[j] == urls[i] ==> outcomes[j].None?
    ensures urls[i] in LoadedMap(urls, outcomes)
    ensures LoadedMap(urls, outcomes)[urls[i]] == outcomes[i].value
    decreases |urls|
  {
    var k := |urls| - 1;
    if i < k {
      LoadedMapLastWins(urls[..k], outcomes[..k], i);
    }
  }

  lemma PercentMonotone(a: nat, b: nat, total: nat)
    requires total > 0 && a <= b
    ensures Percent(a, total) <= Percent(b, total)
  {
    var t := total as real;
    assert a as real / t <= b as real / t;
  }

  lemma PercentOfAll(total: nat)
    requires total > 0
    ensures Percent(total, total) == 100.0
  {
    DivideSelf(total as real);
  }

  predicate NonDecreasing(xs: seq<real>) {
    forall i, j :: 0 <= i <= j < |xs| ==> xs[i] <= xs[j]
  }

  /** Logging a value no smaller than the last one keeps the log non-decreasing. */
  lemma LogGrows(log: seq<real>, x: real)
    requires log != [] && NonDecreasing(log) && log[|log| - 1] <= x
    ensures NonDecreasing(log + [x]) && (log + [x])[0] == log[0]
  {
  }

  /** Counting one more result stores it when it is a frame. */
  lemma LoadedMapStep(urls: seq<string>, outcomes: seq<Option<Frame>>, j: nat)
    requires |outcomes| == |urls| && j < |urls|
    ensures LoadedMap(urls[..j + 1], outcomes[..j + 1]) ==
              if outcomes[j].Some? then LoadedMap(urls[..j], outcomes[..j])[urls[j] := outcomes[j].value]
              else LoadedMap(urls[..j], outcomes[..j])
  {
    assert urls[..j + 1][..j] == urls[..j] && outcomes[..j + 1][..j] == outcomes[..j];
  }

  class Preloader {
    var frames: map<string, Frame>
    var loading: bool
    var progress: real
    var error: Option<string>
    /** Every value `progress` has taken during the last load, in order. */
    ghost var progressLog: seq<real>

    constructor ()
      ensures frames == map[] && !loading && progress == 0.0 && error == None
    {
      frames, loading, progress, error := map[], false, 0.0, None;
      progressLog := [];
    }

    /**
     * One run of `loadFrames`. An empty list clears the frames and the progress and keeps
     * the error. Otherwise the results of the batches before the abort are counted: the
     * frames are the map of the successful fetches (unchanged when no batch ran), the
     * progress is the share of counted URLs and never decreases, and an empty map sets the
     * "no frames" error, after an abort too. `loading` ends false.
     */
    method Load(urls: seq<string>, outcomes: seq<Option<Frame>>, abortAt: Option<nat>)
      requires |outcomes| == |urls|
      modifies this
      ensures !loading
      ensures urls == [] ==> frames == map[] && progress == 0.0 && error == old(error)
      ensures urls != [] ==>
                var n := ProcessedCount(|urls|, abortAt);
                var loaded := LoadedMap(urls[..n], outcomes[..n]);
                frames == (if n == 0 then old(frames) else loaded) &&
                progress == Percent(n, |urls|) &&
                error == (if loaded == map[] then Some(NoFramesError) else None)
      ensures urls != [] ==> |progressLog| >= 1 && progressLog[0] == 0.0 &&
                             NonDecreasing(progressLog) && progressLog[|progressLog| - 1] == progress
    {
      if urls == [] {
        frames, loading, progress := map[], false, 0.0;
        progressLog := [0.0];
        return;
      }
      loading, progress, error := true, 0.0, None;
      progressLog := [0.0];
      var loaded: map<string, Frame> := map[];
      var loadedCount: nat := 0;
      var i: nat := 0;
      var batch: nat := 0;
      while i < |urls|
        invariant i == batch * BatchSize
        invariant loadedCount == Min(i, |urls|)
        invariant abortAt.None? || batch <= abortAt.value
        invariant loaded == LoadedMap(urls[..loadedCount], outcomes[..loadedCount])
        invariant frames == (if loadedCount == 0 then old(frames) else loaded)
        invariant progress == Percent(loadedCount, |urls|)
        invariant |progressLog| >= 1 && progressLog[0] == 0.0 && NonDecreasing(progressLog)
        invariant progressLog[|progressLog| - 1] == progress
        invariant error == None && loading
        decreases |urls| - i
      {
        if abortAt == Some(batch) {
          break;
        }
        var end := Min(i + BatchSize, |urls|);
        loaded := CountBatch(urls, outcomes, i, end, loaded);
        loadedCount := end;
        frames := loaded;
        i, batch := i + BatchSize, batch + 1;
      }
      assert loadedCount == ProcessedCount(|urls|, abortAt);
      if loaded == map[] {
        error := Some(NoFramesError);
      }
      loading := false;
    }

    /** The results of one batch, in order: each success stored, each result counted in the progress. */
    method CountBatch(urls: seq<string>, outcomes: seq<Option<Frame>>, start: nat, end: nat,
                      loaded: map<string, Frame>)
      returns (updated: map<string, Frame>)
      requires |outcomes| == |urls| && start <= end <= |urls| && urls != []
      requires loaded == LoadedMap(urls[..start], outcomes[..start])
      requires progress == Percent(start, |urls|)
      requires |progressLog| >= 1 && progressLog[0] == 0.0 && NonDecreasing(progressLog)
      requires progressLog[|progressLog| - 1] == progress
      modifies this
      ensures updated == LoadedMap(urls[..end], outcomes[..end])
      ensures progress == Percent(end, |urls|)
      ensures |progressLog| >= 1 && progressLog[0] == 0.0 && NonDecreasing(progressLog)
      ensures progressLog[|progressLog| - 1] == progress
      ensures frames == old(frames) && error == old(error) && loading == old(loading)
    {
      updated := loaded;
      var j := start;
      while j < end
        invariant start <= j <= end
        invariant frames == old(frames) && error == old(error) && loading == old(loading)
        invariant updated == LoadedMap(urls[..j], outcomes[..j])
        invariant progress == Percent(j, |urls|)
        invariant |progressLog| >= 1 && progressLog[0] == 0.0 && NonDecreasing(progressLog)
        invariant progressLog[|progressLog| - 1] == progress
      {
        LoadedMapStep(urls, outcomes, j);
        if outcomes[j].Some? {
          updated := updated[urls[j] := outcomes[j].value];
        }
        PercentMonotone(j, j + 1, |urls|);
        LogGrows(progressLog, Percent(j + 1, |urls|));
        progress := Percent(j + 1, |urls|);
        progressLog := progressLog + [progress];
        j := j + 1;
      }
    }
  }

  /** Without an abort every URL is counted and the progress ends at 100. */
  lemma CompleteLoadReaches100(urls: seq<string>)
    requires urls != []
    ensures ProcessedCount(|urls|, None) == |urls|
    ensures Percent(ProcessedCount(|urls|, None), |urls|) == 100.0
  {
    PercentOfAll(|urls|);
  }
}
