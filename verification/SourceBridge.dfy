/**
 A bounded-latency buffer between timestamped capture and a steady consumer.

 The resampler is a parameter: each feed is given the bytes it converted to, in whole frames.
 */
module SourceBridge {
  import opened Common
  import opened Division

  const GAP_THRESHOLD_US := 15_000
  const WATERMARK_US := 50_000
  const CORRECTION_WINDOW_US := 10_000_000
  const CONVERGENCE_EPSILON_US := 15_000
  const CONVERGENCE_WINDOWS := 3

  function Abs(x: int): nat { if x < 0 then -x else x }
  // ---------------------------------------------------------------- configuration

  datatype Setup = Setup(
    inRate: Positive, inStride: Positive,
    outRate: Positive, outStride: Positive,
    targetUs: int, maxUs: int)

  /** Target and maximum latency, or nothing when the maximum does not exceed the target. */
  function Limits(targetMs: int, maxMs: Option<int>): (r: Option<(int, int)>)
    ensures r.Some? ==> r.value.0 < r.value.1
    ensures r.Some? ==> r.value.0 == 1000 * targetMs
    ensures r.Some? ==> (if maxMs.Some? then r.value.1 == 1000 * maxMs.value else r.value.1 == 2 * r.value.0)
    ensures r.None? <==> (if maxMs.Some? then maxMs.value <= targetMs else targetMs <= 0)
  {
    var most := if maxMs.Some? then maxMs.value else 2 * targetMs;
    if most <= targetMs then None else Some((targetMs * 1000, most * 1000))
  }

  // ---------------------------------------------------------------- microseconds, frames and bytes

  function FramesIn(us: nat, rate: Positive): nat { us * rate / MICROSECONDS }

  function Frames(c: Setup, buffer: seq<Byte>): nat { |buffer| / c.outStride }

  function Occupancy(c: Setup, buffer: seq<Byte>): nat { Duration(Frames(c, buffer), c.outRate) }

  function BytesIn(c: Setup, us: nat): nat { FramesIn(us, c.outRate) * c.outStride }

  /** Deleting a prefix; one longer than the buffer empties it. */
  function DropFront(buffer: seq<Byte>, bytes: nat): seq<Byte> { buffer[Min(bytes, |buffer|)..] }

  predicate Whole(c: Setup, data: seq<Byte>) { |data| % c.outStride == 0 }

  /** Dropping a duration lands within one frame above the exact level, and never below it. */
  lemma DropIsExact(frames: nat, rate: Positive, us: nat)
    ensures var left := Max(0, frames - FramesIn(us, rate));
      && Duration(left, rate) >= Duration(frames, rate) - us
      && (left >= 1 ==> Duration(left - 1, rate) <= Duration(frames, rate) - us)
  {
    var o, g := Duration(frames, rate), FramesIn(us, rate);
    var left := Max(0, frames - g);
    DivisionBounds(frames * MICROSECONDS, rate);
    DivisionBounds(us * rate, MICROSECONDS);
    assert (o - us) * rate == o * rate - us * rate;
    assert left * MICROSECONDS >= frames * MICROSECONDS - g * MICROSECONDS;
    QuotientAtLeast(left * MICROSECONDS, rate, o - us);
    if left >= 1 {
      QuotientAtMost((left - 1) * MICROSECONDS, rate, o - us);
    }
  }

  /** Inserting a duration lands within one frame below the exact level, and never above it. */
  lemma InsertIsExact(frames: nat, rate: Positive, us: nat)
    ensures var more := frames + FramesIn(us, rate);
      && Duration(more, rate) <= Duration(frames, rate) + us
      && Duration(more + 1, rate) >= Duration(frames, rate) + us
  {
    var o, g := Duration(frames, rate), FramesIn(us, rate);
    var more := frames + g;
    DivisionBounds(frames * MICROSECONDS, rate);
    DivisionBounds(us * rate, MICROSECONDS);
    assert (o + us) * rate == o * rate + us * rate;
    QuotientAtMost(more * MICROSECONDS, rate, o + us);
    QuotientAtLeast((more + 1) * MICROSECONDS, rate, o + us);
  }

  lemma DurationMonotone(fewer: nat, more: nat, rate: Positive)
    requires fewer <= more
    ensures Duration(fewer, rate) <= Duration(more, rate)
  {
    DivisionBounds(fewer * MICROSECONDS, rate);
    QuotientAtLeast(more * MICROSECONDS, rate, Duration(fewer, rate));
  }

  // ---------------------------------------------------------------- state

  datatype Bridge = Bridge(
    buffer: seq<Byte>,
    primed: bool,
    anchorUs: Option<int>,
    framesSinceAnchor: nat,
    skewUs: int,
    surplusWindows: nat,
    windowFedUs: nat,
    windowMinUs: Option<int>,
    windowMaxUs: Option<int>)

  const EMPTY := Bridge([], false, None, 0, 0, 0, 0, None, None)

  /** How far a chunk's timestamp lies ahead of the sample count, beyond the skew accounted for. */
  function OffsetUs(c: Setup, b: Bridge, timestampUs: int): int
    requires b.anchorUs.Some?
  {
    timestampUs - (b.anchorUs.value + Duration(b.framesSinceAnchor, c.inRate)) - b.skewUs
  }

  function Track(c: Setup, b: Bridge, timestampUs: int, durationUs: nat): Bridge
    requires b.anchorUs.Some?
  {
    var offset := OffsetUs(c, b, timestampUs);
    if Abs(offset) > c.maxUs then EMPTY
    else if offset > GAP_THRESHOLD_US then
      b.(buffer := b.buffer + Silence(BytesIn(c, offset)),
         framesSinceAnchor := b.framesSinceAnchor + FramesIn(offset, c.inRate))
    else
      var step := durationUs / 20;
      b.(skewUs := b.skewUs + Max(-step, Min(step, offset)))
  }

  /** Overflow drops the oldest audio. */
  function Trim(c: Setup, buffer: seq<Byte>): seq<Byte> {
    var overflow := Occupancy(c, buffer) - c.maxUs;
    if overflow > 0 then DropFront(buffer, BytesIn(c, overflow)) else buffer
  }

  function Sampled(c: Setup, b: Bridge): Bridge {
    var occupancy := Occupancy(c, b.buffer);
    b.(windowMinUs := Some(if b.windowMinUs.Some? then Min(b.windowMinUs.value, occupancy) else occupancy),
       windowMaxUs := Some(if b.windowMaxUs.Some? then Max(b.windowMaxUs.value, occupancy) else occupancy))
  }

  /** When even a window's extreme is off target, audio goes, or silence comes in. */
  function Corrected(c: Setup, b: Bridge): Bridge {
    if b.windowMinUs.None? || b.windowMaxUs.None? then b
    else
      var surplus := b.windowMinUs.value - c.targetUs;
      var deficit := c.targetUs - b.windowMaxUs.value;
      if surplus > WATERMARK_US then
        b.(buffer := DropFront(b.buffer, BytesIn(c, surplus)), surplusWindows := 0)
      else if b.primed && deficit > WATERMARK_US then
        b.(buffer := b.buffer + Silence(BytesIn(c, deficit)), surplusWindows := 0)
      else if surplus > CONVERGENCE_EPSILON_US then
        if b.surplusWindows + 1 >= CONVERGENCE_WINDOWS then
          b.(buffer := DropFront(b.buffer, BytesIn(c, surplus)), surplusWindows := 0)
        else
          b.(surplusWindows := b.surplusWindows + 1)
      else
        b.(surplusWindows := 0)
  }

  function CloseWindow(c: Setup, b: Bridge, durationUs: nat): Bridge {
    var fed := b.(windowFedUs := b.windowFedUs + durationUs);
    if fed.windowFedUs >= CORRECTION_WINDOW_US then Reopened(Corrected(c, fed)) else fed
  }

  function Reopened(b: Bridge): Bridge { b.(windowFedUs := 0, windowMinUs := None, windowMaxUs := None) }

  function Anchored(b: Bridge, timestampUs: int): Bridge {
    if b.anchorUs.None? then b.(anchorUs := Some(timestampUs)) else b
  }

  function Filled(c: Setup, b: Bridge, frames: nat, converted: seq<Byte>): Bridge {
    b.(framesSinceAnchor := b.framesSinceAnchor + frames, buffer := Trim(c, b.buffer + converted))
  }

  predicate Accepts(c: Setup, pcm: seq<Byte>) { |pcm| % c.inStride == 0 }

  function Tracked(c: Setup, b: Bridge, pcm: seq<Byte>, timestampUs: int): Bridge {
    if b.anchorUs.Some? then Track(c, b, timestampUs, Duration(|pcm| / c.inStride, c.inRate)) else b
  }

  /** The bridge after a chunk; an empty chunk is ignored and a broken one is refused. */
  function Fed(c: Setup, b: Bridge, pcm: seq<Byte>, timestampUs: int, converted: seq<Byte>): Bridge {
    if pcm == [] || !Accepts(c, pcm) then b
    else
      var tracked := Anchored(Tracked(c, b, pcm, timestampUs), timestampUs);
      CloseWindow(c, Sampled(c, Filled(c, tracked, |pcm| / c.inStride, converted)),
        Duration(|pcm| / c.inStride, c.inRate))
  }

  predicate FramesOf(pcm: seq<Byte>, stride: Positive, n: nat) { |pcm| == n * stride }

  /** Whole frames are taken and counted; anything else changes nothing. */
  lemma CountsWholeFrames(c: Setup, b: Bridge, pcm: seq<Byte>, timestampUs: int, converted: seq<Byte>, n: nat)
    ensures Accepts(c, pcm) <==> exists k :: FramesOf(pcm, c.inStride, k)
    ensures !Accepts(c, pcm) ==> Fed(c, b, pcm, timestampUs, converted) == b
    ensures FramesOf(pcm, c.inStride, n) && n > 0 && b.anchorUs.None?
      ==> Fed(c, b, pcm, timestampUs, converted).framesSinceAnchor == b.framesSinceAnchor + n
  {
    forall k: nat | FramesOf(pcm, c.inStride, k) ensures Accepts(c, pcm) && |pcm| / c.inStride == k {
      QuotientIs(|pcm|, c.inStride, k, 0);
    }
    if Accepts(c, pcm) {
      DivisionBounds(|pcm|, c.inStride);
      assert |pcm| == |pcm| / c.inStride * c.inStride + |pcm| % c.inStride;
      assert FramesOf(pcm, c.inStride, |pcm| / c.inStride);
    }
  }

  /** Playback begins at the target: startup surplus is trimmed. */
  function Primed(c: Setup, b: Bridge): Bridge {
    var surplus := Occupancy(c, b.buffer) - c.targetUs;
    if b.primed then b
    else b.(primed := true, buffer := if surplus > 0 then DropFront(b.buffer, BytesIn(c, surplus)) else b.buffer)
  }

  predicate Waiting(c: Setup, b: Bridge) { !b.primed && Occupancy(c, b.buffer) < c.targetUs }

  /** One consumer pull: the new state, and the bytes. */
  function Pulled(c: Setup, b: Bridge, frames: nat): (Bridge, seq<Byte>) {
    var wanted := frames * c.outStride;
    if Waiting(c, b) then (b, Silence(wanted))
    else
      var p := Primed(c, b);
      var take := Min(wanted, |p.buffer|);
      (Sampled(c, p.(buffer := p.buffer[take..])), p.buffer[..take] + Silence(wanted - take))
  }

  function Flushed(c: Setup, b: Bridge, tail: seq<Byte>): Bridge {
    if tail == [] then b else b.(buffer := Trim(c, b.buffer + tail))
  }

  class SourceBridge {
    const c: Setup
    var buffer: seq<Byte>
    var primed: bool
    var anchorUs: Option<int>
    var framesSinceAnchor: nat
    var skewUs: int
    var surplusWindows: nat
    var windowFedUs: nat
    var windowMinUs: Option<int>
    var windowMaxUs: Option<int>

    ghost function AsBridge(): Bridge reads this {
      Bridge(buffer, primed, anchorUs, framesSinceAnchor, skewUs, surplusWindows, windowFedUs, windowMinUs, windowMaxUs)
    }

    constructor (setup: Setup)
      ensures c == setup && AsBridge() == EMPTY
    {
      c := setup;
      buffer, primed, anchorUs, framesSinceAnchor, skewUs := [], false, None, 0, 0;
      surplusWindows, windowFedUs, windowMinUs, windowMaxUs := 0, 0, None, None;
    }

    method Feed(pcm: seq<Byte>, timestampUs: int, converted: seq<Byte>) returns (accepted: bool)
      modifies this
      ensures accepted == Accepts(c, pcm)
      ensures AsBridge() == Fed(c, old(AsBridge()), pcm, timestampUs, converted)
    {
      if pcm == [] { return true; }
      if |pcm| % c.inStride != 0 { return false; }
      var frames := |pcm| / c.inStride;
      var durationUs := Duration(frames, c.inRate);
      if anchorUs.Some? {
        TrackTimestamp(timestampUs, durationUs);
      }
      if anchorUs.None? {
        anchorUs := Some(timestampUs);
      }
      ghost var tracked := AsBridge();
      assert tracked == Anchored(Tracked(c, old(AsBridge()), pcm, timestampUs), timestampUs);
      framesSinceAnchor := framesSinceAnchor + frames;
      buffer := buffer + converted;
      TrimOverflow();
      assert AsBridge() == Filled(c, tracked, frames, converted);
      SampleOccupancy();
      EndFeed(durationUs);
      return true;
    }

    method EndFeed(durationUs: nat)
      modifies this
      ensures AsBridge() == CloseWindow(c, old(AsBridge()), durationUs)
    {
      ghost var fed := AsBridge().(windowFedUs := windowFedUs + durationUs);
      windowFedUs := windowFedUs + durationUs;
      assert AsBridge() == fed;
      if windowFedUs >= CORRECTION_WINDOW_US {
        CloseWindowNow();
      }
    }

    method CloseWindowNow()
      modifies this
      ensures AsBridge() == Reopened(Corrected(c, old(AsBridge())))
    {
      ApplyWindowCorrection();
      ReopenWindow();
    }

    method ReopenWindow()
      modifies this
      ensures AsBridge() == Reopened(old(AsBridge()))
    {
      windowFedUs, windowMinUs, windowMaxUs := 0, None, None;
    }

    method Read(frames: nat) returns (output: seq<Byte>)
      modifies this
      ensures (AsBridge(), output) == Pulled(c, old(AsBridge()), frames)
    {
      var wanted := frames * c.outStride;
      if !primed {
        if Occupancy(c, buffer) < c.targetUs { return Silence(wanted); }
        primed := true;
        var surplus := Occupancy(c, buffer) - c.targetUs;
        if surplus > 0 {
          buffer := DropFront(buffer, BytesIn(c, surplus));
        }
      }
      var take := Min(wanted, |buffer|);
      output := buffer[..take];
      buffer := buffer[take..];
      output := output + Silence(wanted - take);
      SampleOccupancy();
    }

    method TrackTimestamp(timestampUs: int, durationUs: nat)
      requires anchorUs.Some?
      modifies this
      ensures AsBridge() == Track(c, old(AsBridge()), timestampUs, durationUs)
    {
      var offset := timestampUs - (anchorUs.value + Duration(framesSinceAnchor, c.inRate)) - skewUs;
      if Abs(offset) > c.maxUs {
        Reset();
      } else if offset > GAP_THRESHOLD_US {
        AppendSilence(offset);
        framesSinceAnchor := framesSinceAnchor + FramesIn(offset, c.inRate);
      } else {
        var step := durationUs / 20;
        skewUs := skewUs + Max(-step, Min(step, offset));
      }
    }

    method TrimOverflow()
      modifies this`buffer
      ensures buffer == Trim(c, old(buffer))
    {
      var overflow := Occupancy(c, buffer) - c.maxUs;
      if overflow > 0 {
        buffer := DropFront(buffer, BytesIn(c, overflow));
      }
    }

    method ApplyWindowCorrection()
      modifies this
      ensures AsBridge() == Corrected(c, old(AsBridge()))
    {
      if windowMinUs.None? || windowMaxUs.None? { return; }
      var surplus := windowMinUs.value - c.targetUs;
      var deficit := c.targetUs - windowMaxUs.value;
      if surplus > WATERMARK_US {
        buffer := DropFront(buffer, BytesIn(c, surplus));
        surplusWindows := 0;
        return;
      }
      if primed && deficit > WATERMARK_US {
        AppendSilence(deficit);
        surplusWindows := 0;
        return;
      }
      if surplus > CONVERGENCE_EPSILON_US {
        surplusWindows := surplusWindows + 1;
        if surplusWindows >= CONVERGENCE_WINDOWS {
          buffer := DropFront(buffer, BytesIn(c, surplus));
          surplusWindows := 0;
        }
      } else {
        surplusWindows := 0;
      }
    }

    method AppendSilence(durationUs: nat)
      modifies this`buffer
      ensures buffer == old(buffer) + Silence(BytesIn(c, durationUs))
    {
      buffer := buffer + Silence(BytesIn(c, durationUs));
    }

    method SampleOccupancy()
      modifies this`windowMinUs, this`windowMaxUs
      ensures AsBridge() == Sampled(c, old(AsBridge()))
    {
      var occupancy := Occupancy(c, buffer);
      windowMinUs := Some(if windowMinUs.None? then occupancy else Min(windowMinUs.value, occupancy));
      windowMaxUs := Some(if windowMaxUs.None? then occupancy else Max(windowMaxUs.value, occupancy));
    }

    method Flush(tail: seq<Byte>)
      modifies this`buffer
      ensures AsBridge() == Flushed(c, old(AsBridge()), tail)
    {
      if tail == [] { return; }
      buffer := buffer + tail;
      TrimOverflow();
    }

    method Reset()
      modifies this
      ensures AsBridge() == EMPTY
    {
      buffer, primed, anchorUs, framesSinceAnchor, skewUs := [], false, None, 0, 0;
      surplusWindows, windowFedUs, windowMinUs, windowMaxUs := 0, 0, None, None;
    }
  }

  // ---------------------------------------------------------------- latency

  /** At most one frame over the maximum latency: without its last frame the buffer is within it. */
  predicate Bounded(c: Setup, buffer: seq<Byte>) {
    Frames(c, buffer) >= 1 ==> Duration(Frames(c, buffer) - 1, c.outRate) <= c.maxUs
  }

  predicate Consistent(c: Setup) { c.targetUs < c.maxUs }

  /** What every call keeps: whole frames, within the maximum latency. */
  predicate Sound(c: Setup, b: Bridge) {
    Whole(c, b.buffer) && Bounded(c, b.buffer) && b.surplusWindows < CONVERGENCE_WINDOWS
  }

  lemma FrameBytes(c: Setup, buffer: seq<Byte>, frames: nat)
    requires |buffer| == frames * c.outStride
    ensures Whole(c, buffer) && Frames(c, buffer) == frames
  {
    MultipleDivides(frames, c.outStride);
  }

  lemma WholeLength(c: Setup, buffer: seq<Byte>)
    requires Whole(c, buffer)
    ensures |buffer| == Frames(c, buffer) * c.outStride
  {
  }

  lemma JoinFrames(c: Setup, x: seq<Byte>, y: seq<Byte>)
    requires Whole(c, x) && Whole(c, y)
    ensures Whole(c, x + y) && Frames(c, x + y) == Frames(c, x) + Frames(c, y)
  {
    WholeLength(c, x);
    WholeLength(c, y);
    var k, l := Frames(c, x), Frames(c, y);
    assert k * c.outStride + l * c.outStride == (k + l) * c.outStride;
    FrameBytes(c, x + y, k + l);
  }

  lemma SilenceFrames(c: Setup, us: nat)
    ensures Whole(c, Silence(BytesIn(c, us))) && Frames(c, Silence(BytesIn(c, us))) == FramesIn(us, c.outRate)
  {
    FrameBytes(c, Silence(BytesIn(c, us)), FramesIn(us, c.outRate));
  }

  lemma DropFrames(c: Setup, buffer: seq<Byte>, frames: nat)
    requires Whole(c, buffer)
    ensures Whole(c, DropFront(buffer, frames * c.outStride))
    ensures Frames(c, DropFront(buffer, frames * c.outStride)) == Max(0, Frames(c, buffer) - frames)
  {
    WholeLength(c, buffer);
    var k := Frames(c, buffer);
    assert k * c.outStride - frames * c.outStride == (k - frames) * c.outStride;
    if k >= frames {
      FrameBytes(c, DropFront(buffer, frames * c.outStride), k - frames);
    } else {
      assert (frames - k) * c.outStride >= 0;
      FrameBytes(c, DropFront(buffer, frames * c.outStride), 0);
    }
  }

  /** Dropping a duration from a buffer: within one frame above the exact level, never below it. */
  lemma DroppedLevel(c: Setup, buffer: seq<Byte>, us: nat)
    requires Whole(c, buffer)
    ensures var left := DropFront(buffer, BytesIn(c, us));
      && Whole(c, left)
      && Frames(c, left) <= Frames(c, buffer)
      && Occupancy(c, left) >= Occupancy(c, buffer) - us
      && (Frames(c, left) >= 1 ==> Duration(Frames(c, left) - 1, c.outRate) <= Occupancy(c, buffer) - us)
  {
    DropFrames(c, buffer, FramesIn(us, c.outRate));
    DropIsExact(Frames(c, buffer), c.outRate, us);
  }

  lemma InsertedLevel(c: Setup, buffer: seq<Byte>, us: nat)
    requires Whole(c, buffer)
    ensures var more := buffer + Silence(BytesIn(c, us));
      && Whole(c, more)
      && Occupancy(c, more) <= Occupancy(c, buffer) + us <= Duration(Frames(c, more) + 1, c.outRate)
  {
    SilenceFrames(c, us);
    JoinFrames(c, buffer, Silence(BytesIn(c, us)));
    InsertIsExact(Frames(c, buffer), c.outRate, us);
  }

  lemma TrimBounds(c: Setup, buffer: seq<Byte>)
    requires Whole(c, buffer)
    ensures Whole(c, Trim(c, buffer)) && Bounded(c, Trim(c, buffer))
    ensures Occupancy(c, Trim(c, buffer)) >= Min(Occupancy(c, buffer), c.maxUs)
  {
    var overflow := Occupancy(c, buffer) - c.maxUs;
    if overflow > 0 {
      DroppedLevel(c, buffer, overflow);
    } else if Frames(c, buffer) >= 1 {
      DurationMonotone(Frames(c, buffer) - 1, Frames(c, buffer), c.outRate);
    }
  }

  lemma FewerStayBounded(c: Setup, less: seq<Byte>, more: seq<Byte>)
    requires Frames(c, less) <= Frames(c, more) && Bounded(c, more)
    ensures Bounded(c, less)
  {
    if Frames(c, less) >= 1 { DurationMonotone(Frames(c, less) - 1, Frames(c, more) - 1, c.outRate); }
  }

  lemma WithinTargetBounded(c: Setup, buffer: seq<Byte>)
    requires Consistent(c) && Occupancy(c, buffer) <= c.targetUs
    ensures Bounded(c, buffer)
  {
    if Frames(c, buffer) >= 1 { DurationMonotone(Frames(c, buffer) - 1, Frames(c, buffer), c.outRate); }
  }

  /** The window extremes enclose the current occupancy. */
  predicate Observed(c: Setup, b: Bridge) {
    && b.windowMinUs.Some? && b.windowMaxUs.Some?
    && b.windowMinUs.value <= Occupancy(c, b.buffer) <= b.windowMaxUs.value
  }

  /** The correction a window calls for, in microseconds; negative to insert. */
  function Correction(c: Setup, b: Bridge): int
    requires Observed(c, b)
  {
    var surplus, deficit := b.windowMinUs.value - c.targetUs, c.targetUs - b.windowMaxUs.value;
    if surplus > WATERMARK_US then surplus
    else if b.primed && deficit > WATERMARK_US then -deficit
    else if surplus > CONVERGENCE_EPSILON_US && b.surplusWindows + 1 >= CONVERGENCE_WINDOWS then surplus
    else 0
  }

  /**
   A correction shifts the occupancy by the deviation the window held, to within one frame. So a drop
   never goes below the target and an insertion never goes above it.
   */
  lemma CorrectionStaysOnItsSide(c: Setup, b: Bridge)
    requires Whole(c, b.buffer) && Observed(c, b)
    ensures var (before, after) := (Occupancy(c, b.buffer), Corrected(c, b).buffer);
      var shift := Correction(c, b);
      && Whole(c, after)
      && (shift == 0 ==> after == b.buffer)
      && (shift > 0 ==> c.targetUs <= before - shift <= Occupancy(c, after)
                        && Frames(c, after) <= Frames(c, b.buffer)
                        && (Frames(c, after) >= 1 ==> Duration(Frames(c, after) - 1, c.outRate) <= before - shift))
      && (shift < 0 ==> Occupancy(c, after) <= before - shift <= c.targetUs
                        && before - shift <= Duration(Frames(c, after) + 1, c.outRate))
  {
    var shift := Correction(c, b);
    if shift > 0 {
      DroppedLevel(c, b.buffer, shift);
    } else if shift < 0 {
      InsertedLevel(c, b.buffer, -shift);
    }
  }

  lemma CorrectedSound(c: Setup, b: Bridge)
    requires Consistent(c) && Sound(c, b) && Observed(c, b)
    ensures Sound(c, Corrected(c, b))
  {
    CorrectionStaysOnItsSide(c, b);
    var shift := Correction(c, b);
    if shift > 0 {
      FewerStayBounded(c, Corrected(c, b).buffer, b.buffer);
    } else if shift < 0 {
      WithinTargetBounded(c, Corrected(c, b).buffer);
    }
  }

  lemma TrackedWhole(c: Setup, b: Bridge, timestampUs: int, durationUs: nat)
    requires b.anchorUs.Some? && Whole(c, b.buffer)
    ensures Whole(c, Track(c, b, timestampUs, durationUs).buffer)
  {
    var offset := OffsetUs(c, b, timestampUs);
    if Abs(offset) > c.maxUs {
      FrameBytes(c, [], 0);
    } else if offset > GAP_THRESHOLD_US {
      InsertedLevel(c, b.buffer, offset);
    } else {
      assert Track(c, b, timestampUs, durationUs).buffer == b.buffer;
    }
  }

  lemma FedSound(c: Setup, b: Bridge, pcm: seq<Byte>, timestampUs: int, converted: seq<Byte>)
    requires Consistent(c) && Sound(c, b) && Whole(c, converted)
    ensures Sound(c, Fed(c, b, pcm, timestampUs, converted))
  {
    if pcm != [] && Accepts(c, pcm) {
      var frames := |pcm| / c.inStride;
      if b.anchorUs.Some? { TrackedWhole(c, b, timestampUs, Duration(frames, c.inRate)); }
      var tracked := Anchored(Tracked(c, b, pcm, timestampUs), timestampUs);
      JoinFrames(c, tracked.buffer, converted);
      TrimBounds(c, tracked.buffer + converted);
      ClosedSound(c, Sampled(c, Filled(c, tracked, frames, converted)), Duration(frames, c.inRate));
    }
  }

  lemma ClosedSound(c: Setup, b: Bridge, durationUs: nat)
    requires Consistent(c) && Sound(c, b) && Observed(c, b)
    ensures Sound(c, CloseWindow(c, b, durationUs))
  {
    var fed := b.(windowFedUs := b.windowFedUs + durationUs);
    CorrectedSound(c, fed);
  }

  /** Priming starts playback at the target: no less is left, and at most one frame more. */
  lemma PrimingStartsAtTarget(c: Setup, b: Bridge)
    requires Whole(c, b.buffer) && !b.primed && !Waiting(c, b)
    ensures var left := Primed(c, b).buffer;
      && Whole(c, left)
      && Frames(c, left) <= Frames(c, b.buffer)
      && Occupancy(c, left) >= c.targetUs
      && (Frames(c, left) >= 1 ==> Duration(Frames(c, left) - 1, c.outRate) <= c.targetUs)
  {
    var surplus := Occupancy(c, b.buffer) - c.targetUs;
    DroppedLevel(c, b.buffer, surplus);
    if surplus == 0 && Frames(c, b.buffer) >= 1 {
      DurationMonotone(Frames(c, b.buffer) - 1, Frames(c, b.buffer), c.outRate);
    }
  }

  lemma PulledSound(c: Setup, b: Bridge, frames: nat)
    requires Sound(c, b)
    ensures Sound(c, Pulled(c, b, frames).0)
  {
    if !Waiting(c, b) {
      if !b.primed { PrimingStartsAtTarget(c, b); }
      var p := Primed(c, b);
      DropFrames(c, p.buffer, frames);
      assert p.buffer[Min(frames * c.outStride, |p.buffer|)..] == DropFront(p.buffer, frames * c.outStride);
      FewerStayBounded(c, DropFront(p.buffer, frames * c.outStride), b.buffer);
    }
  }

  lemma FlushedSound(c: Setup, b: Bridge, tail: seq<Byte>)
    requires Sound(c, b) && Whole(c, tail)
    ensures Sound(c, Flushed(c, b, tail))
  {
    if tail != [] {
      JoinFrames(c, b.buffer, tail);
      TrimBounds(c, b.buffer + tail);
    }
  }

  // ---------------------------------------------------------------- timestamps

  /**
   A filled gap realigns the bridge: the sample-derived position reaches the chunk's timestamp to within
   one input frame and never passes it, and the silence lasts as long to within one output frame.
   */
  lemma GapFillRealigns(c: Setup, b: Bridge, timestampUs: int, durationUs: nat)
    requires b.anchorUs.Some? && GAP_THRESHOLD_US < OffsetUs(c, b, timestampUs) <= c.maxUs
    requires Whole(c, b.buffer)
    ensures var t := Track(c, b, timestampUs, durationUs);
      && t.anchorUs == b.anchorUs
      && OffsetUs(c, t, timestampUs) >= 0
      && OffsetUs(c, t.(framesSinceAnchor := t.framesSinceAnchor + 1), timestampUs) <= 0
      && Occupancy(c, t.buffer) <= Occupancy(c, b.buffer) + OffsetUs(c, b, timestampUs)
      && Duration(Frames(c, t.buffer) + 1, c.outRate) >= Occupancy(c, b.buffer) + OffsetUs(c, b, timestampUs)
  {
    var offset := OffsetUs(c, b, timestampUs);
    InsertedLevel(c, b.buffer, offset);
    InsertIsExact(b.framesSinceAnchor, c.inRate, offset);
  }

  /** Otherwise the skew follows the timestamp at no more than a twentieth of the fed duration, and never past it. */
  lemma SkewFollows(c: Setup, b: Bridge, timestampUs: int, durationUs: nat)
    requires b.anchorUs.Some? && -c.maxUs <= OffsetUs(c, b, timestampUs) <= Min(GAP_THRESHOLD_US, c.maxUs)
    ensures var t := Track(c, b, timestampUs, durationUs);
      var (before, after) := (OffsetUs(c, b, timestampUs), OffsetUs(c, t, timestampUs));
      && t == b.(skewUs := t.skewUs)
      && 20 * Abs(t.skewUs - b.skewUs) <= durationUs
      && (if before >= 0 then 0 <= after <= before else before <= after <= 0)
      && (20 * Abs(before) <= durationUs ==> after == 0)
  {
  }

  // ---------------------------------------------------------------- runs

  datatype Op =
    | Feed(pcm: seq<Byte>, timestampUs: int, converted: seq<Byte>)
    | Read(frames: nat)
    | Flush(tail: seq<Byte>)

  /** The resampler returns whole frames. */
  predicate WholeOp(c: Setup, op: Op) {
    match op
    case Feed(_, _, converted) => Whole(c, converted)
    case Read(_) => true
    case Flush(tail) => Whole(c, tail)
  }

  function After(c: Setup, b: Bridge, op: Op): Bridge {
    match op
    case Feed(pcm, timestampUs, converted) => Fed(c, b, pcm, timestampUs, converted)
    case Read(frames) => Pulled(c, b, frames).0
    case Flush(tail) => Flushed(c, b, tail)
  }

  /** The silence a chunk's timestamp puts in front of it. */
  function GapSilence(c: Setup, b: Bridge, timestampUs: int): seq<Byte> {
    if b.anchorUs.Some? && GAP_THRESHOLD_US < OffsetUs(c, b, timestampUs) <= c.maxUs
    then Silence(BytesIn(c, OffsetUs(c, b, timestampUs)))
    else []
  }

  /** The silence a window correction puts behind it. */
  function WindowSilence(c: Setup, b: Bridge): seq<Byte> {
    if Observed(c, b) && b.windowFedUs >= CORRECTION_WINDOW_US && Correction(c, b) < 0
    then Silence(BytesIn(c, -Correction(c, b)))
    else []
  }

  function BeforeClose(c: Setup, b: Bridge, pcm: seq<Byte>, timestampUs: int, converted: seq<Byte>): Bridge
    requires Accepts(c, pcm)
  {
    var tracked := Anchored(Tracked(c, b, pcm, timestampUs), timestampUs);
    var sampled := Sampled(c, Filled(c, tracked, |pcm| / c.inStride, converted));
    sampled.(windowFedUs := sampled.windowFedUs + Duration(|pcm| / c.inStride, c.inRate))
  }

  /** What a call appends to the audio: converted input, and silence around it. */
  function Added(c: Setup, b: Bridge, op: Op): seq<Byte> {
    match op
    case Feed(pcm, timestampUs, converted) =>
      if pcm == [] || !Accepts(c, pcm) then []
      else GapSilence(c, b, timestampUs) + converted + WindowSilence(c, BeforeClose(c, b, pcm, timestampUs, converted))
    case Read(_) => []
    case Flush(tail) => tail
  }

  /** One pull: its place in the audio appended so far, and the bytes returned. */
  datatype Piece = Piece(start: nat, end: nat, output: seq<Byte>)

  /** A run: all audio ever appended, and every pull. */
  datatype Log = Log(bridge: Bridge, appended: seq<Byte>, pieces: seq<Piece>)

  /** How many buffered bytes a pull returns. */
  function Taken(c: Setup, b: Bridge, frames: nat): nat {
    if Waiting(c, b) then 0 else Min(frames * c.outStride, |Primed(c, b).buffer|)
  }

  function PieceOf(c: Setup, log: Log, frames: nat): Piece {
    var (after, output) := Pulled(c, log.bridge, frames);
    var end := Max(0, |log.appended| - |after.buffer|);
    Piece(Max(0, end - Taken(c, log.bridge, frames)), end, output)
  }

  function Logged(c: Setup, log: Log, op: Op): Log {
    Log(After(c, log.bridge, op),
        log.appended + Added(c, log.bridge, op),
        if op.Read? then log.pieces + [PieceOf(c, log, op.frames)] else log.pieces)
  }

  function Run(c: Setup, ops: seq<Op>): Log {
    if ops == [] then Log(EMPTY, [], [])
    else Logged(c, Run(c, ops[..|ops| - 1]), ops[|ops| - 1])
  }

  predicate WholeOps(c: Setup, ops: seq<Op>) { forall i :: 0 <= i < |ops| ==> WholeOp(c, ops[i]) }

  lemma AfterSound(c: Setup, b: Bridge, op: Op)
    requires Consistent(c) && Sound(c, b) && WholeOp(c, op)
    ensures Sound(c, After(c, b, op))
  {
    match op
    case Feed(pcm, timestampUs, converted) => FedSound(c, b, pcm, timestampUs, converted);
    case Read(frames) => PulledSound(c, b, frames);
    case Flush(tail) => FlushedSound(c, b, tail);
  }

  /** Over every run the buffer holds whole frames, at most one frame over the maximum latency. */
  lemma {:induction false} LatencyBounded(c: Setup, ops: seq<Op>)
    requires Consistent(c) && WholeOps(c, ops)
    ensures Sound(c, Run(c, ops).bridge)
    decreases |ops|
  {
    if ops == [] {
      FrameBytes(c, [], 0);
    } else {
      LatencyBounded(c, ops[..|ops| - 1]);
      AfterSound(c, Run(c, ops[..|ops| - 1]).bridge, ops[|ops| - 1]);
    }
  }

  predicate Suffix(x: seq<Byte>, y: seq<Byte>) { |x| <= |y| && x == y[|y| - |x|..] }

  lemma SuffixTransitive(x: seq<Byte>, y: seq<Byte>, z: seq<Byte>)
    requires Suffix(x, y) && Suffix(y, z)
    ensures Suffix(x, z)
  {
  }

  lemma SuffixExtends(x: seq<Byte>, y: seq<Byte>, more: seq<Byte>)
    requires Suffix(x, y)
    ensures Suffix(x + more, y + more)
  {
  }

  lemma DropSuffix(buffer: seq<Byte>, bytes: nat)
    ensures Suffix(DropFront(buffer, bytes), buffer)
  {
  }

  lemma TrimSuffix(c: Setup, buffer: seq<Byte>)
    ensures Suffix(Trim(c, buffer), buffer)
  {
    var overflow := Occupancy(c, buffer) - c.maxUs;
    if overflow > 0 { DropSuffix(buffer, BytesIn(c, overflow)); }
  }

  lemma CloseSuffix(c: Setup, b: Bridge, durationUs: nat)
    requires Observed(c, b)
    ensures var fed := b.(windowFedUs := b.windowFedUs + durationUs);
      Suffix(CloseWindow(c, b, durationUs).buffer, b.buffer + WindowSilence(c, fed))
  {
    var fed := b.(windowFedUs := b.windowFedUs + durationUs);
    if fed.windowFedUs >= CORRECTION_WINDOW_US {
      CorrectedSuffix(c, fed);
    } else {
      ConcatEmpty(b.buffer);
    }
  }

  lemma CorrectedSuffix(c: Setup, b: Bridge)
    requires Observed(c, b) && b.windowFedUs >= CORRECTION_WINDOW_US
    ensures Suffix(Corrected(c, b).buffer, b.buffer + WindowSilence(c, b))
  {
    var shift := Correction(c, b);
    ConcatEmpty(b.buffer);
    if shift > 0 { DropSuffix(b.buffer, BytesIn(c, shift)); }
  }

  lemma TrackSuffix(c: Setup, b: Bridge, pcm: seq<Byte>, timestampUs: int)
    requires Accepts(c, pcm)
    ensures Suffix(Tracked(c, b, pcm, timestampUs).buffer, b.buffer + GapSilence(c, b, timestampUs))
  {
    ConcatEmpty(b.buffer);
    if b.anchorUs.Some? {
      var offset := OffsetUs(c, b, timestampUs);
      var t := Tracked(c, b, pcm, timestampUs);
      if Abs(offset) > c.maxUs {
        assert t.buffer == [];
      } else if offset > GAP_THRESHOLD_US {
        assert t.buffer == b.buffer + Silence(BytesIn(c, offset));
      } else {
        assert t.buffer == b.buffer;
      }
    }
  }

  /** A feed only appends at the back and drops from the front. */
  lemma FedSlides(c: Setup, b: Bridge, pcm: seq<Byte>, timestampUs: int, converted: seq<Byte>)
    ensures Suffix(Fed(c, b, pcm, timestampUs, converted).buffer,
      b.buffer + Added(c, b, Feed(pcm, timestampUs, converted)))
  {
    if pcm != [] && Accepts(c, pcm) {
      var tracked := Tracked(c, b, pcm, timestampUs);
      var before := BeforeClose(c, b, pcm, timestampUs, converted);
      TrackSuffix(c, b, pcm, timestampUs);
      FillSuffix(c, Anchored(tracked, timestampUs), |pcm| / c.inStride, converted);
      ClosedSuffix(c, b, pcm, timestampUs, converted);
      ThreeStages(b.buffer, tracked.buffer, before.buffer, Fed(c, b, pcm, timestampUs, converted).buffer,
                  GapSilence(c, b, timestampUs), converted, WindowSilence(c, before));
    } else {
      ConcatEmpty(b.buffer);
    }
  }

  lemma ClosedSuffix(c: Setup, b: Bridge, pcm: seq<Byte>, timestampUs: int, converted: seq<Byte>)
    requires pcm != [] && Accepts(c, pcm)
    ensures var before := BeforeClose(c, b, pcm, timestampUs, converted);
      Suffix(Fed(c, b, pcm, timestampUs, converted).buffer, before.buffer + WindowSilence(c, before))
  {
    var frames := |pcm| / c.inStride;
    var sampled := Sampled(c, Filled(c, Anchored(Tracked(c, b, pcm, timestampUs), timestampUs), frames, converted));
    var durationUs := Duration(frames, c.inRate);
    assert BeforeClose(c, b, pcm, timestampUs, converted) == sampled.(windowFedUs := sampled.windowFedUs + durationUs);
    assert Fed(c, b, pcm, timestampUs, converted) == CloseWindow(c, sampled, durationUs);
    CloseSuffix(c, sampled, durationUs);
  }

  lemma FillSuffix(c: Setup, b: Bridge, frames: nat, converted: seq<Byte>)
    ensures Suffix(Sampled(c, Filled(c, b, frames, converted)).buffer, b.buffer + converted)
  {
    TrimSuffix(c, b.buffer + converted);
  }

  lemma ThreeStages(a: seq<Byte>, b: seq<Byte>, c: seq<Byte>, d: seq<Byte>, x: seq<Byte>, y: seq<Byte>, z: seq<Byte>)
    requires Suffix(b, a + x) && Suffix(c, b + y) && Suffix(d, c + z)
    ensures Suffix(d, a + (x + y + z))
  {
    SuffixExtends(b, a + x, y);
    SuffixTransitive(c, b + y, a + x + y);
    SuffixExtends(c, a + x + y, z);
    SuffixTransitive(d, c + z, a + x + y + z);
    ConcatAssociates(a, x, y);
    ConcatAssociates(a, x + y, z);
  }

  /** The bytes `take` before what is left of `buffer`, then silence. */
  predicate FrontOf(buffer: seq<Byte>, left: seq<Byte>, output: seq<Byte>, take: nat) {
    && Suffix(left, buffer)
    && take <= |output| && take <= |buffer| - |left|
    && output == buffer[|buffer| - |left| - take..|buffer| - |left|] + Silence(|output| - take)
  }

  /**
   A pull takes the front of the buffer, past what priming trims; it pads only while waiting or when the
   buffer runs out.
   */
  lemma PullTakesFront(c: Setup, b: Bridge, frames: nat)
    ensures var (after, output) := Pulled(c, b, frames);
      && |output| == frames * c.outStride
      && FrontOf(b.buffer, after.buffer, output, Taken(c, b, frames))
      && (Waiting(c, b) ==> after == b)
      && (Taken(c, b, frames) < |output| ==> Waiting(c, b) || after.buffer == [])
  {
    if Waiting(c, b) {
      ConcatEmpty(Silence(frames * c.outStride));
      assert b.buffer[0..0] == [];
    } else {
      var p := Primed(c, b);
      PrimedSuffix(c, b);
      TakeFromSuffix(p.buffer, b.buffer, Taken(c, b, frames));
    }
  }

  lemma PrimedSuffix(c: Setup, b: Bridge)
    ensures Suffix(Primed(c, b).buffer, b.buffer)
  {
    var surplus := Occupancy(c, b.buffer) - c.targetUs;
    if !b.primed && surplus > 0 { DropSuffix(b.buffer, BytesIn(c, surplus)); }
  }

  lemma TakeFromSuffix(x: seq<Byte>, y: seq<Byte>, take: nat)
    requires Suffix(x, y) && take <= |x|
    ensures Suffix(x[take..], y)
    ensures var end := |y| - |x[take..]|; take <= end && x[..take] == y[end - take..end]
  {
  }

  lemma SliceOfSuffix(x: seq<Byte>, y: seq<Byte>, i: nat, j: nat)
    requires Suffix(x, y) && i <= j <= |x|
    ensures x[i..j] == y[|y| - |x| + i..|y| - |x| + j]
  {
  }

  lemma AfterSlides(c: Setup, b: Bridge, op: Op)
    ensures Suffix(After(c, b, op).buffer, b.buffer + Added(c, b, op))
  {
    ConcatEmpty(b.buffer);
    match op
    case Feed(pcm, timestampUs, converted) => FedSlides(c, b, pcm, timestampUs, converted);
    case Read(frames) => PullTakesFront(c, b, frames);
    case Flush(tail) =>
      if tail != [] { TrimSuffix(c, b.buffer + tail); }
  }

  /** A pull is a stretch of the appended audio, padded with silence. */
  predicate Stretch(appended: seq<Byte>, p: Piece) {
    && p.start <= p.end <= |appended|
    && p.end - p.start <= |p.output|
    && p.output == appended[p.start..p.end] + Silence(|p.output| - (p.end - p.start))
  }

  predicate Stretches(appended: seq<Byte>, pieces: seq<Piece>) {
    forall i :: 0 <= i < |pieces| ==> Stretch(appended, pieces[i])
  }

  /** No pull starts before an earlier one ended: nothing is repeated and nothing reordered. */
  predicate Ordered(pieces: seq<Piece>) {
    forall i, j :: 0 <= i < j < |pieces| ==> pieces[i].end <= pieces[j].start
  }

  predicate BehindAll(pieces: seq<Piece>, position: int) {
    forall i :: 0 <= i < |pieces| ==> pieces[i].end <= position
  }

  /** The run as the consumer hears it. */
  predicate Faithful(log: Log) {
    && Suffix(log.bridge.buffer, log.appended)
    && Stretches(log.appended, log.pieces)
    && Ordered(log.pieces)
    && BehindAll(log.pieces, |log.appended| - |log.bridge.buffer|)
  }

  lemma StretchesExtend(appended: seq<Byte>, more: seq<Byte>, pieces: seq<Piece>)
    requires Stretches(appended, pieces)
    ensures Stretches(appended + more, pieces)
  {
    forall i | 0 <= i < |pieces| ensures Stretch(appended + more, pieces[i]) {
      var p := pieces[i];
      assert Stretch(appended, p);
      assert (appended + more)[p.start..p.end] == appended[p.start..p.end];
    }
  }

  lemma PieceStretch(c: Setup, log: Log, frames: nat)
    requires Suffix(log.bridge.buffer, log.appended)
    ensures var p := PieceOf(c, log, frames);
      && Stretch(log.appended, p)
      && |log.appended| - |log.bridge.buffer| <= p.start
      && p.end == |log.appended| - |Pulled(c, log.bridge, frames).0.buffer|
  {
    PullTakesFront(c, log.bridge, frames);
    var (after, output) := Pulled(c, log.bridge, frames);
    FrontStretch(log.appended, log.bridge.buffer, after.buffer, output, Taken(c, log.bridge, frames));
  }

  lemma FrontStretch(appended: seq<Byte>, buffer: seq<Byte>, left: seq<Byte>, output: seq<Byte>, take: nat)
    requires Suffix(buffer, appended) && FrontOf(buffer, left, output, take)
    ensures |left| + take <= |buffer|
    ensures Stretch(appended, Piece(|appended| - |left| - take, |appended| - |left|, output))
  {
    SliceOfSuffix(buffer, appended, |buffer| - |left| - take, |buffer| - |left|);
  }

  /** Audio comes in, and some of the oldest may be dropped. */
  lemma GrownFaithful(log: Log, after: Bridge, added: seq<Byte>)
    requires Faithful(log) && Suffix(after.buffer, log.bridge.buffer + added)
    ensures Faithful(Log(after, log.appended + added, log.pieces))
  {
    SuffixExtends(log.bridge.buffer, log.appended, added);
    SuffixTransitive(after.buffer, log.bridge.buffer + added, log.appended + added);
    StretchesExtend(log.appended, added, log.pieces);
  }

  lemma PieceAdded(appended: seq<Byte>, pieces: seq<Piece>, p: Piece, position: int)
    requires Stretches(appended, pieces) && Ordered(pieces) && BehindAll(pieces, position)
    requires Stretch(appended, p) && position <= p.start
    ensures Stretches(appended, pieces + [p]) && Ordered(pieces + [p]) && BehindAll(pieces + [p], p.end)
  {
  }

  /** A pull takes the stretch `p` off the front of the buffer. */
  lemma PulledFaithful(log: Log, after: Bridge, p: Piece)
    requires Faithful(log) && Suffix(after.buffer, log.appended)
    requires Stretch(log.appended, p)
    requires |log.appended| - |log.bridge.buffer| <= p.start && p.end == |log.appended| - |after.buffer|
    ensures Faithful(Log(after, log.appended, log.pieces + [p]))
  {
    PieceAdded(log.appended, log.pieces, p, |log.appended| - |log.bridge.buffer|);
  }

  lemma ReadFaithful(c: Setup, log: Log, frames: nat)
    requires Faithful(log)
    ensures Faithful(Logged(c, log, Read(frames)))
  {
    var after := Pulled(c, log.bridge, frames).0;
    PullTakesFront(c, log.bridge, frames);
    SuffixTransitive(after.buffer, log.bridge.buffer, log.appended);
    PieceStretch(c, log, frames);
    PulledFaithful(log, after, PieceOf(c, log, frames));
    ConcatEmpty(log.appended);
  }

  lemma StepFaithful(c: Setup, log: Log, op: Op)
    requires Faithful(log)
    ensures Faithful(Logged(c, log, op))
  {
    if op.Read? {
      ReadFaithful(c, log, op.frames);
    } else {
      AfterSlides(c, log.bridge, op);
      GrownFaithful(log, After(c, log.bridge, op), Added(c, log.bridge, op));
    }
  }

  /**
   Over every run, each pull returns the next stretch of the appended audio padded with silence, in
   order and without repetition, and the buffer is the unread rest.
   */
  lemma {:induction false} ConsumerHearsInOrder(c: Setup, ops: seq<Op>)
    ensures Faithful(Run(c, ops))
    decreases |ops|
  {
    if ops != [] {
      ConsumerHearsInOrder(c, ops[..|ops| - 1]);
      StepFaithful(c, Run(c, ops[..|ops| - 1]), ops[|ops| - 1]);
    }
  }
}
