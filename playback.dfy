/**
 * The motion-replay player: a state machine over the current frame index, the play
 * flag and the playback rate, driven by the user's controls and by the animation
 * callback. The animation callback receives explicit timestamps (milliseconds); the
 * effect that (re)starts it is a method the caller runs whenever the play flag, the
 * rate or the frame count changes.
 */
module Playback {
  import opened Wrappers
  import opened FrameSource

  /** The rates the menu offers. */
  const FrameRates: seq<int> := [12, 24, 30]

  /** An advance is due once `elapsed >= 1000 / fps`; with a rate of 0 the interval is infinite. */
  predicate Due(elapsed: real, fps: int) {
    fps != 0 && elapsed >= 1000.0 / fps as real
  }

  /** The index and play flag after one advance from `prev`: wrap to 0 when looping, else stop on the last frame. */
  function Advance(prev: int, total: nat, loop: bool): (r: (int, bool))
  {
    if prev + 1 >= total then (if loop then (0, true) else (prev, false))
    else (prev + 1, true)
  }

  /** An advance keeps an in-range index in range; past the end it wraps or stops. */
  lemma AdvanceInRange(prev: int, total: nat, loop: bool)
    requires 0 <= prev < total
    ensures 0 <= Advance(prev, total, loop).0 < total
    ensures prev < total - 1 ==> Advance(prev, total, loop) == (prev + 1, true)
    ensures prev == total - 1 && loop ==> Advance(prev, total, loop) == (0, true)
    ensures prev == total - 1 && !loop ==> Advance(prev, total, loop) == (prev, false)
  {
  }

  /** With looping on, `k` advances (at most one full cycle) move `k` frames on, wrapping once past the end. */
  lemma {:induction false} AdvanceCycle(start: int, total: nat, k: nat)
    requires 0 <= start < total && k <= total
    ensures AdvanceN(start, total, k) == (if start + k < total then start + k else start + k - total)
    ensures k == total ==> AdvanceN(start, total, k) == start
    decreases k
  {
    if k > 0 {
      AdvanceCycle(start, total, k - 1);
    }
  }

  /** The index after `k` looping advances. */
  function AdvanceN(start: int, total: nat, k: nat): (r: int)
    requires 0 <= start < total
    ensures 0 <= r < total
    decreases k
  {
    if k == 0 then start
    else
      var p := AdvanceN(start, total, k - 1);
      AdvanceInRange(p, total, true);
      Advance(p, total, true).0
  }

  /** What the player shows, in order of precedence. */
  datatype PlayerView =
    | LoadingView        // still loading and no frame yet
    | ErrorView          // an error and no frame
    | EmptyView          // no frame URLs
    | PlayerControls     // the viewer and the controls

  function RenderView(loading: bool, loadedCount: nat, error: Option<string>, totalFrames: nat): (v: PlayerView)
    ensures v == LoadingView <==> loading && loadedCount == 0
    ensures v == ErrorView <==> !(loading && loadedCount == 0) && error.Some? && loadedCount == 0
    ensures v == EmptyView <==> totalFrames == 0 && (loadedCount > 0 || (!loading && error.None?))
    ensures v == PlayerControls <==> totalFrames > 0 && (loadedCount > 0 || (!loading && error.None?))
  {
    if loading && loadedCount == 0 then LoadingView
    else if error.Some? && loadedCount == 0 then ErrorView
    else if totalFrames == 0 then EmptyView
    else PlayerControls
  }

  /** `frames.size / totalFrames * 100`, or 0 without frames. */
  function LoadedPercentage(loadedCount: nat, totalFrames: nat): (p: real)
    ensures totalFrames == 0 ==> p == 0.0
    ensures loadedCount <= totalFrames ==> 0.0 <= p <= 100.0
    ensures 0 < totalFrames && loadedCount == totalFrames ==> p == 100.0
  {
    if totalFrames > 0 then
      var q := loadedCount as real / totalFrames as real;
      assert q * totalFrames as real == loadedCount as real;
      q * 100.0
    else 0.0
  }

  class Player {
    var frameUrls: seq<string>
    var currentFrame: int
    var isPlaying: bool
    var playbackFps: int
    var showFpsMenu: bool
    /** The timestamp of the last advance (or of the last restart). */
    var lastFrameTime: real
    /** Whether an animation callback is pending. */
    var scheduled: bool
    const loop: bool

    function TotalFrames(): nat
      reads this
    {
      |frameUrls|
    }

    /** The frame index addresses one of the frame URLs. */
    predicate FrameInRange()
      reads this
    {
      0 <= currentFrame < |frameUrls|
    }

    constructor (urls: seq<string>, fps: int, autoPlay: bool, loop: bool)
      ensures frameUrls == urls && currentFrame == 0 && isPlaying == autoPlay && playbackFps == fps
      ensures !showFpsMenu && lastFrameTime == 0.0 && !scheduled && this.loop == loop
    {
      frameUrls, currentFrame, isPlaying, playbackFps := urls, 0, autoPlay, fps;
      showFpsMenu, lastFrameTime, scheduled := false, 0.0, false;
      this.loop := loop;
    }

    /**
     * The start/stop effect: any pending callback is cancelled; while playing with at
     * least one frame, the clock is reset to `now` and a callback is scheduled.
     */
    method Restart(now: real)
      modifies this
      ensures scheduled <==> isPlaying && TotalFrames() > 0
      ensures lastFrameTime == (if scheduled then now else old(lastFrameTime))
      ensures frameUrls == old(frameUrls) && currentFrame == old(currentFrame) && isPlaying == old(isPlaying)
      ensures playbackFps == old(playbackFps) && showFpsMenu == old(showFpsMenu)
    {
      scheduled := isPlaying && |frameUrls| > 0;
      if scheduled {
        lastFrameTime := now;
      }
    }

    /**
     * The animation callback at `timestamp`. It does nothing unless scheduled; once the
     * play flag is off it stops rescheduling; otherwise, when an interval has elapsed
     * since the last advance, it advances (wrapping or stopping at the end) and records
     * the timestamp.
     */
    method Tick(timestamp: real) returns (advanced: bool)
      modifies this
      ensures advanced <==> old(scheduled) && old(isPlaying) && Due(timestamp - old(lastFrameTime), playbackFps)
      ensures advanced ==>
                (currentFrame, isPlaying) == Advance(old(currentFrame), TotalFrames(), loop) &&
                lastFrameTime == timestamp
      ensures !advanced ==>
                currentFrame == old(currentFrame) && isPlaying == old(isPlaying) && lastFrameTime == old(lastFrameTime)
      ensures scheduled <==> old(scheduled) && old(isPlaying)
      ensures frameUrls == old(frameUrls) && playbackFps == old(playbackFps) && showFpsMenu == old(showFpsMenu)
      ensures old(FrameInRange()) ==> FrameInRange()
    {
      advanced := false;
      if !scheduled {
        return;
      }
      if !isPlaying {
        scheduled := false;
        return;
      }
      var elapsed := timestamp - lastFrameTime;
      if Due(elapsed, playbackFps) {
        var next := currentFrame + 1;
        if next >= |frameUrls| {
          if loop {
            currentFrame := 0;
          } else {
            isPlaying := false;
          }
        } else {
          currentFrame := next;
        }
        lastFrameTime := timestamp;
        advanced := true;
      }
    }

    /** Play/pause: nothing without frames, otherwise the play flag flips. */
    method PlayPause()
      modifies this
      ensures TotalFrames() == 0 ==> isPlaying == old(isPlaying)
      ensures TotalFrames() > 0 ==> isPlaying == !old(isPlaying)
      ensures frameUrls == old(frameUrls) && currentFrame == old(currentFrame) && playbackFps == old(playbackFps)
      ensures showFpsMenu == old(showFpsMenu) && lastFrameTime == old(lastFrameTime) && scheduled == old(scheduled)
    {
      if |frameUrls| == 0 {
        return;
      }
      isPlaying := !isPlaying;
    }

    /** Step back: pause and move one frame back, never below 0. */
    method PrevFrame()
      modifies this
      ensures !isPlaying
      ensures currentFrame == (if old(currentFrame) - 1 >= 0 then old(currentFrame) - 1 else 0)
      ensures old(currentFrame) == 0 ==> currentFrame == 0
      ensures old(FrameInRange()) ==> FrameInRange()
      ensures frameUrls == old(frameUrls) && playbackFps == old(playbackFps) && showFpsMenu == old(showFpsMenu)
      ensures lastFrameTime == old(lastFrameTime) && scheduled == old(scheduled)
    {
      isPlaying := false;
      currentFrame := if currentFrame - 1 >= 0 then currentFrame - 1 else 0;
    }

    /** Step forward: pause and move one frame on, never past the last frame. */
    method NextFrame()
      modifies this
      ensures !isPlaying
      ensures currentFrame == (if old(currentFrame) + 1 <= TotalFrames() - 1 then old(currentFrame) + 1 else TotalFrames() - 1)
      ensures TotalFrames() > 0 && old(currentFrame) == TotalFrames() - 1 ==> currentFrame == old(currentFrame)
      ensures old(FrameInRange()) ==> FrameInRange()
      ensures frameUrls == old(frameUrls) && playbackFps == old(playbackFps) && showFpsMenu == old(showFpsMenu)
      ensures lastFrameTime == old(lastFrameTime) && scheduled == old(scheduled)
    {
      isPlaying := false;
      var last := |frameUrls| - 1;
      currentFrame := if currentFrame + 1 <= last then currentFrame + 1 else last;
    }

    /** Reset: pause on the first frame. */
    method Reset()
      modifies this
      ensures !isPlaying && currentFrame == 0
      ensures frameUrls == old(frameUrls) && playbackFps == old(playbackFps) && showFpsMenu == old(showFpsMenu)
      ensures lastFrameTime == old(lastFrameTime) && scheduled == old(scheduled)
    {
      isPlaying, currentFrame := false, 0;
    }

    /** Scrubbing the slider (range 0 .. total - 1): pause on the chosen frame. */
    method Scrub(value: int)
      modifies this
      ensures !isPlaying && currentFrame == value
      ensures 0 <= value < TotalFrames() ==> FrameInRange()
      ensures frameUrls == old(frameUrls) && playbackFps == old(playbackFps) && showFpsMenu == old(showFpsMenu)
      ensures lastFrameTime == old(lastFrameTime) && scheduled == old(scheduled)
    {
      isPlaying, currentFrame := false, value;
    }

    /** Choosing a rate changes the rate and closes the menu, nothing else. */
    method ChangeFps(fps: int)
      modifies this
      ensures playbackFps == fps && !showFpsMenu
      ensures frameUrls == old(frameUrls) && currentFrame == old(currentFrame) && isPlaying == old(isPlaying)
      ensures lastFrameTime == old(lastFrameTime) && scheduled == old(scheduled)
    {
      playbackFps, showFpsMenu := fps, false;
    }

    /** New frame URLs from the parent: the frame index is kept as it was. */
    method SetFrameUrls(urls: seq<string>)
      modifies this
      ensures frameUrls == urls
      ensures currentFrame == old(currentFrame) && isPlaying == old(isPlaying) && playbackFps == old(playbackFps)
      ensures showFpsMenu == old(showFpsMenu) && lastFrameTime == old(lastFrameTime) && scheduled == old(scheduled)
    {
      frameUrls := urls;
    }

    /** The frame on screen: the loaded frame of the current URL, if any. */
    function CurrentVertices(frames: map<string, Frame>): (r: Option<Frame>)
      reads this
      ensures r.Some? <==> FrameInRange() && frameUrls[currentFrame] in frames
      ensures r.Some? ==> r.value == frames[frameUrls[currentFrame]]
      ensures TotalFrames() == 0 ==> r == None
    {
      if |frameUrls| == 0 || !(0 <= currentFrame < |frameUrls|) || frameUrls[currentFrame] !in frames then None
      else Some(frames[frameUrls[currentFrame]])
    }
  }

  /**
   * Because the index is not reset when the URLs change, a shorter list can leave the
   * player on an index with no frame to show.
   */
  method ShrinkLeavesNoFrame() returns (before: Option<Frame>, after: Option<Frame>)
    ensures before.Some? && after == None
  {
    var p := new Player(["a", "b", "c"], 24, false, true);
    p.Scrub(2);
    before := p.CurrentVertices(map["c" := [0.0]]);
    p.SetFrameUrls(["a"]);
    after := p.CurrentVertices(map["a" := [0.0], "c" := [0.0]]);
  }

  /** Playing through a recording with looping on never leaves the frame range. */
  method PlayThrough(urls: seq<string>, timestamps: seq<real>, fps: int) returns (frame: int, advances: nat)
    requires |urls| > 0
    ensures 0 <= frame < |urls|
    ensures advances <= |timestamps|
  {
    var p := new Player(urls, fps, true, true);
    p.Restart(0.0);
    advances := 0;
    var k := 0;
    while k < |timestamps|
      invariant 0 <= k <= |timestamps| && advances <= k
      invariant p.FrameInRange() && p.frameUrls == urls
    {
      var advanced := p.Tick(timestamps[k]);
      if advanced {
        advances := advances + 1;
      }
      k := k + 1;
    }
    frame := p.currentFrame;
  }
}
