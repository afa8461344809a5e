/**
 * The performance sampler: the current-metrics slot (`PerformanceMetrics`),
 * the pure updates the overlay applies to it, and one tick of the frame-driven
 * sampling loop as a function of its two counters (the frame count and the
 * time of the last flush). Times are integer milliseconds.
 */
module Sampler {
  import opened Wrappers

  datatype Memory = Memory(usedJSHeapSize: nat, totalJSHeapSize: nat)
  datatype Point = Point(x: int, y: int)
  datatype Size = Size(width: int, height: int)

  /** The current-metrics slot: overwritten field by field, never appended to. */
  datatype PerformanceMetrics = PerformanceMetrics(fps: nat, memory: Memory, mousePosition: Point, screenSize: Size)

  /** Minimum time between two flushes of the frame counter. */
  const FlushInterval := 1000

  /** The slot at mount: everything zero except the window size read then. */
  function InitialMetrics(viewport: Size): (m: PerformanceMetrics)
    ensures m.fps == 0 && m.memory == Memory(0, 0) && m.mousePosition == Point(0, 0)
    ensures m.screenSize == viewport
  {
    PerformanceMetrics(0, Memory(0, 0), Point(0, 0), viewport)
  }

  /** `performance.memory?.usedJSHeapSize || 0` and likewise for the total. */
  function MemoryReading(memory: Option<Memory>): (m: Memory)
    ensures memory.None? ==> m == Memory(0, 0)
    ensures memory.Some? ==> m == memory.value
  {
    memory.GetOr(Memory(0, 0))
  }

  /**
   * `Math.round(frames * 1000 / elapsed)`: the integer nearest to the frame
   * rate, halves rounded up.
   */
  function Fps(frames: nat, elapsed: int): (fps: nat)
    requires elapsed > 0
    ensures 2 * fps * elapsed <= 2000 * frames + elapsed < 2 * fps * elapsed + 2 * elapsed
  {
    (2000 * frames + elapsed) / (2 * elapsed)
  }

  /** Scaling by a positive factor keeps a gap of at least one whole step. */
  lemma MulGap(a: int, b: int, e: int)
    requires a >= b + 1 && e > 0
    ensures a * e >= b * e + e
  {
    var d := a - b - 1;
    assert d >= 0;
    assert d * e >= 0;
    assert a * e == (b + 1 + d) * e == b * e + e + d * e;
  }

  /** A frame rate that is a whole number is reported exactly (60 frames in 1000 ms give 60). */
  lemma FpsExact(frames: nat, elapsed: int, rate: nat)
    requires elapsed > 0 && frames * 1000 == rate * elapsed
    ensures Fps(frames, elapsed) == rate
  {
    var fps := Fps(frames, elapsed);
    assert 2 * fps * elapsed == 2 * (fps * elapsed);
    if fps > rate {
      MulGap(fps, rate, elapsed);
      assert false;
    } else if fps < rate {
      MulGap(rate, fps, elapsed);
      assert false;
    }
  }

  /** Over a window of at least one second the rate never exceeds the frames counted. */
  lemma FpsAtMostFrames(frames: nat, elapsed: int)
    requires elapsed >= FlushInterval
    ensures Fps(frames, elapsed) <= frames
  {
    var fps := Fps(frames, elapsed);
    assert 2 * fps * elapsed == 2 * (fps * elapsed);
    assert 1000 * frames <= frames * elapsed by {
      assert frames * elapsed - 1000 * frames == frames * (elapsed - 1000);
    }
    if fps > frames {
      MulGap(fps, frames, elapsed);
      assert false;
    }
  }

  /** The flush update: fps, memory and screen size are overwritten, the pointer kept. */
  function Flushed(prev: PerformanceMetrics, fps: nat, memory: Option<Memory>, viewport: Size): (m: PerformanceMetrics)
    ensures m.fps == fps && m.memory == MemoryReading(memory) && m.screenSize == viewport
    ensures m.mousePosition == prev.mousePosition
  {
    prev.(fps := fps, memory := MemoryReading(memory), screenSize := viewport)
  }

  /** A pointer move overwrites the pointer position and nothing else. */
  function MouseMoved(prev: PerformanceMetrics, p: Point): (m: PerformanceMetrics)
    ensures m.mousePosition == p
    ensures m.fps == prev.fps && m.memory == prev.memory && m.screenSize == prev.screenSize
  {
    prev.(mousePosition := p)
  }

  /** A resize overwrites the screen size and nothing else. */
  function Resized(prev: PerformanceMetrics, viewport: Size): (m: PerformanceMetrics)
    ensures m.screenSize == viewport
    ensures m.fps == prev.fps && m.memory == prev.memory && m.mousePosition == prev.mousePosition
  {
    prev.(screenSize := viewport)
  }

  /** Pointer moves never race with flushes: the two touch disjoint fields. */
  lemma MouseMoveCommutesWithFlush(m: PerformanceMetrics, p: Point, fps: nat, memory: Option<Memory>, viewport: Size)
    ensures MouseMoved(Flushed(m, fps, memory, viewport), p) == Flushed(MouseMoved(m, p), fps, memory, viewport)
  {
  }

  lemma MouseMoveCommutesWithResize(m: PerformanceMetrics, p: Point, viewport: Size)
    ensures MouseMoved(Resized(m, viewport), p) == Resized(MouseMoved(m, p), viewport)
  {
  }

  /** A flush after a resize re-reads the window size, so the later reading wins. */
  lemma FlushOverridesResize(m: PerformanceMetrics, s: Size, fps: nat, memory: Option<Memory>, viewport: Size)
    ensures Flushed(Resized(m, s), fps, memory, viewport) == Flushed(m, fps, memory, viewport)
  {
  }

  // ---------------------------------------------------------------------
  // The sampling loop
  // ---------------------------------------------------------------------

  /** The sampler's refs (`frameCount`, `lastFrameTime`) together with the metrics slot. */
  datatype SamplerState = SamplerState(frameCount: nat, lastFrameTime: int, metrics: PerformanceMetrics)

  /** What one display frame supplies to a tick: `performance.now()`, memory, window size. */
  datatype Frame = Frame(now: int, memory: Option<Memory>, viewport: Size)

  /**
   * One run of `updatePerformanceMetrics`: count the frame; once a second or
   * more has passed since the last flush, publish the rate, memory and
   * window size and restart the count at `now`.
   */
  function Tick(s: SamplerState, f: Frame): (r: SamplerState)
    ensures f.now - s.lastFrameTime < FlushInterval ==>
      r == s.(frameCount := s.frameCount + 1)
    ensures f.now - s.lastFrameTime >= FlushInterval ==>
      r.frameCount == 0 && r.lastFrameTime == f.now &&
      r.metrics == Flushed(s.metrics, Fps(s.frameCount + 1, f.now - s.lastFrameTime), f.memory, f.viewport)
  {
    var elapsed := f.now - s.lastFrameTime;
    var frames := s.frameCount + 1;
    if elapsed >= FlushInterval then
      SamplerState(0, f.now, Flushed(s.metrics, Fps(frames, elapsed), f.memory, f.viewport))
    else
      SamplerState(frames, s.lastFrameTime, s.metrics)
  }

  /** Successive ticks, one per frame, in order. */
  function Run(s: SamplerState, frames: seq<Frame>): SamplerState
    decreases |frames|
  {
    if |frames| == 0 then s else Run(Tick(s, frames[0]), frames[1..])
  }

  /** Frames within a second of the last flush only count: the metrics stay as they are. */
  lemma {:induction false} QuietFramesOnlyCount(s: SamplerState, frames: seq<Frame>)
    requires forall i :: 0 <= i < |frames| ==> frames[i].now - s.lastFrameTime < FlushInterval
    ensures Run(s, frames) == s.(frameCount := s.frameCount + |frames|)
    decreases |frames|
  {
    if |frames| > 0 {
      var next := Tick(s, frames[0]);
      QuietFramesOnlyCount(next, frames[1..]);
    }
  }

  /**
   * Starting from a flush, `n` quiet frames and then one frame exactly a
   * second after the flush publish `n + 1` frames per second and restart.
   */
  lemma {:induction false} OneSecondWindow(s: SamplerState, quiet: seq<Frame>, last: Frame)
    requires s.frameCount == 0
    requires forall i :: 0 <= i < |quiet| ==> quiet[i].now - s.lastFrameTime < FlushInterval
    requires last.now == s.lastFrameTime + FlushInterval
    ensures Run(s, quiet + [last]).metrics.fps == |quiet| + 1
    ensures Run(s, quiet + [last]).frameCount == 0
    ensures Run(s, quiet + [last]).lastFrameTime == last.now
  {
    RunConcat(s, quiet, [last]);
    QuietFramesOnlyCount(s, quiet);
    FpsExact(|quiet| + 1, FlushInterval, |quiet| + 1);
  }

  lemma {:induction false} RunConcat(s: SamplerState, a: seq<Frame>, b: seq<Frame>)
    ensures Run(s, a + b) == Run(Run(s, a), b)
    decreases |a|
  {
    if |a| == 0 {
      assert a + b == b;
    } else {
      assert (a + b)[0] == a[0];
      assert (a + b)[1..] == a[1..] + b;
      RunConcat(Tick(s, a[0]), a[1..], b);
    }
  }
}
