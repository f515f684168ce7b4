/**
 What the source bridge does with time and audio over its calls: where it expects the next chunk, what of
 the audio it keeps, and which deviations of the level it corrects.
 */
module BridgeTracking {
  import opened Common
  import opened Division
  import opened SourceBridge

  // ---------------------------------------------------------------- where the next chunk is expected

  predicate Takes(c: Setup, op: Op) { op.Feed? && op.pcm != [] && Accepts(c, op.pcm) }

  function Lasts(c: Setup, pcm: seq<Byte>): nat { Duration(|pcm| / c.inStride, c.inRate) }

  /** The timestamp is so far off that the bridge starts over with this chunk. */
  predicate Jumps(c: Setup, b: Bridge, timestampUs: int) {
    b.anchorUs.Some? && Abs(OffsetUs(c, b, timestampUs)) > c.maxUs
  }

  lemma DurationSplits(m: nat, n: nat, rate: Positive)
    ensures Duration(m, rate) + Duration(n, rate) <= Duration(m + n, rate) <= Duration(m, rate) + Duration(n, rate) + 1
  {
    var x, y := m * MICROSECONDS, n * MICROSECONDS;
    var q := Duration(m, rate) + Duration(n, rate);
    DivisionBounds(x, rate);
    DivisionBounds(y, rate);
    assert (m + n) * MICROSECONDS == x + y;
    assert q * rate == Duration(m, rate) * rate + Duration(n, rate) * rate;
    QuotientAtLeast(x + y, rate, q);
    assert (q + 1) * rate == q * rate + rate;
    QuotientAtMost(x + y, rate, q + 1);
  }

  /** `later` is where `b` stands once a chunk of `frames` is counted and nothing else moved. */
  lemma CountedOffset(c: Setup, b: Bridge, later: Bridge, timestampUs: int, frames: nat)
    requires b.anchorUs.Some? && later.anchorUs == b.anchorUs && later.skewUs == b.skewUs
    requires later.framesSinceAnchor == b.framesSinceAnchor + frames
    ensures var before := OffsetUs(c, b, timestampUs);
      var after := OffsetUs(c, later, timestampUs + Duration(frames, c.inRate));
      before - 1 <= after <= before
  {
    DurationSplits(b.framesSinceAnchor, frames, c.inRate);
  }

  lemma FedCounts(c: Setup, b: Bridge, pcm: seq<Byte>, timestampUs: int, converted: seq<Byte>)
    requires Takes(c, Feed(pcm, timestampUs, converted))
    ensures var t := Anchored(Tracked(c, b, pcm, timestampUs), timestampUs);
      var next := Fed(c, b, pcm, timestampUs, converted);
      && t.anchorUs.Some? && next.anchorUs == t.anchorUs && next.skewUs == t.skewUs
      && next.framesSinceAnchor == t.framesSinceAnchor + |pcm| / c.inStride
  {
  }

  /** A bridge without an anchor has not counted anything yet. */
  predicate Unstarted(b: Bridge) { b.anchorUs.None? ==> b.framesSinceAnchor == 0 && b.skewUs == 0 }

  /** Where the bridge then stands: a first or jumping chunk is followed exactly. */
  lemma FirstAdvances(c: Setup, b: Bridge, pcm: seq<Byte>, timestampUs: int, converted: seq<Byte>)
    requires Takes(c, Feed(pcm, timestampUs, converted)) && Unstarted(b)
    requires b.anchorUs.None? || Jumps(c, b, timestampUs)
    ensures var next := Fed(c, b, pcm, timestampUs, converted);
      next.anchorUs.Some? && OffsetUs(c, next, timestampUs + Lasts(c, pcm)) == 0
  {
    FedCounts(c, b, pcm, timestampUs, converted);
  }

  /** A filled gap is closed to within a frame and a microsecond, and never passed. */
  lemma GapAdvances(c: Setup, b: Bridge, pcm: seq<Byte>, timestampUs: int, converted: seq<Byte>)
    requires Takes(c, Feed(pcm, timestampUs, converted)) && Whole(c, b.buffer)
    requires b.anchorUs.Some? && GAP_THRESHOLD_US < OffsetUs(c, b, timestampUs) <= c.maxUs
    ensures var next, end := Fed(c, b, pcm, timestampUs, converted), timestampUs + Lasts(c, pcm);
      && next.anchorUs.Some? && OffsetUs(c, next, end) >= -1
      && OffsetUs(c, next.(framesSinceAnchor := next.framesSinceAnchor + 1), end) <= 0
  {
    var t, next := Anchored(Tracked(c, b, pcm, timestampUs), timestampUs), Fed(c, b, pcm, timestampUs, converted);
    FedCounts(c, b, pcm, timestampUs, converted);
    GapFillRealigns(c, b, timestampUs, Lasts(c, pcm));
    CountedOffset(c, t, next, timestampUs, |pcm| / c.inStride);
    CountedOffset(c, t.(framesSinceAnchor := t.framesSinceAnchor + 1),
      next.(framesSinceAnchor := next.framesSinceAnchor + 1), timestampUs, |pcm| / c.inStride);
  }

  /** Any other deviation is closed by up to a twentieth of the chunk. */
  lemma SkewAdvances(c: Setup, b: Bridge, pcm: seq<Byte>, timestampUs: int, converted: seq<Byte>)
    requires Takes(c, Feed(pcm, timestampUs, converted))
    requires b.anchorUs.Some? && -c.maxUs <= OffsetUs(c, b, timestampUs) <= Min(GAP_THRESHOLD_US, c.maxUs)
    ensures var next, before := Fed(c, b, pcm, timestampUs, converted), OffsetUs(c, b, timestampUs);
      var closed := Min(Abs(before), Lasts(c, pcm) / 20);
      var left := if before >= 0 then before - closed else before + closed;
      next.anchorUs.Some? && left - 1 <= OffsetUs(c, next, timestampUs + Lasts(c, pcm)) <= left
  {
    var t, next := Anchored(Tracked(c, b, pcm, timestampUs), timestampUs), Fed(c, b, pcm, timestampUs, converted);
    FedCounts(c, b, pcm, timestampUs, converted);
    CountedOffset(c, t, next, timestampUs, |pcm| / c.inStride);
  }

  // ---------------------------------------------------------------- steady sources

  /** Every chunk of the run carries the timestamp at which the one before it ended. */
  predicate Consecutive(c: Setup, next: Option<int>, ops: seq<Op>)
    decreases |ops|
  {
    ops == [] ||
    if Takes(c, ops[0]) then
      (next.Some? ==> ops[0].timestampUs == next.value) &&
      Consecutive(c, Some(ops[0].timestampUs + Lasts(c, ops[0].pcm)), ops[1..])
    else Consecutive(c, next, ops[1..])
  }

  /** No chunk of the run has silence put in front of it. */
  predicate NeverFills(c: Setup, b: Bridge, ops: seq<Op>)
    decreases |ops|
  {
    ops == [] ||
    ((Takes(c, ops[0]) ==> GapSilence(c, b, ops[0].timestampUs) == []) && NeverFills(c, After(c, b, ops[0]), ops[1..]))
  }

  lemma OthersKeepPosition(c: Setup, b: Bridge, op: Op)
    requires !Takes(c, op)
    ensures var next := After(c, b, op);
      next.anchorUs == b.anchorUs && next.framesSinceAnchor == b.framesSinceAnchor && next.skewUs == b.skewUs
  {
  }

  /** Where the bridge stands against the end of the last chunk: not behind it. */
  predicate NotBehind(c: Setup, b: Bridge, next: Option<int>) {
    if next.Some? then b.anchorUs.Some? && OffsetUs(c, b, next.value) <= 0 else b.anchorUs.None? && Unstarted(b)
  }

  lemma ConsecutiveStep(c: Setup, b: Bridge, op: Op, next: Option<int>)
    requires NotBehind(c, b, next) && Takes(c, op) && (next.Some? ==> op.timestampUs == next.value)
    ensures NotBehind(c, After(c, b, op), Some(op.timestampUs + Lasts(c, op.pcm)))
    ensures GapSilence(c, b, op.timestampUs) == []
  {
    if b.anchorUs.None? || Jumps(c, b, op.timestampUs) {
      FirstAdvances(c, b, op.pcm, op.timestampUs, op.converted);
    } else {
      SkewAdvances(c, b, op.pcm, op.timestampUs, op.converted);
    }
  }

  /**
   Over every run from an empty bridge, chunks whose timestamps follow on from one another never have
   silence put between them, whatever their lengths and however often the consumer pulls.
   */
  lemma {:induction false} ConsecutiveNeverFills(c: Setup, b: Bridge, ops: seq<Op>, next: Option<int>)
    requires NotBehind(c, b, next) && Consecutive(c, next, ops)
    ensures NeverFills(c, b, ops)
    decreases |ops|
  {
    if ops != [] {
      if Takes(c, ops[0]) {
        ConsecutiveStep(c, b, ops[0], next);
        ConsecutiveNeverFills(c, After(c, b, ops[0]), ops[1..], Some(ops[0].timestampUs + Lasts(c, ops[0].pcm)));
      } else {
        OthersKeepPosition(c, b, ops[0]);
        ConsecutiveNeverFills(c, After(c, b, ops[0]), ops[1..], next);
      }
    }
  }

  /** The chunks' timestamps keep within `jitter` of a clock that started with `origin`, `total` frames ago. */
  predicate Jitters(c: Setup, origin: int, total: nat, ops: seq<Op>, jitter: nat)
    decreases |ops|
  {
    ops == [] ||
    if Takes(c, ops[0]) then
      Abs(ops[0].timestampUs - (origin + Duration(total, c.inRate))) <= jitter &&
      Jitters(c, origin, total + |ops[0].pcm| / c.inStride, ops[1..], jitter)
    else Jitters(c, origin, total, ops[1..], jitter)
  }

  /** No chunk of the run has silence put in front of it or starts the bridge over. */
  predicate NeverDisturbs(c: Setup, b: Bridge, ops: seq<Op>)
    decreases |ops|
  {
    ops == [] ||
    ((Takes(c, ops[0]) ==> GapSilence(c, b, ops[0].timestampUs) == [] && !Jumps(c, b, ops[0].timestampUs)) &&
     NeverDisturbs(c, After(c, b, ops[0]), ops[1..]))
  }

  /** The bridge counts from `origin`, and has taken at most `jitter` for skew. */
  predicate OnClock(b: Bridge, origin: int, total: nat, jitter: nat) {
    b.anchorUs == Some(origin) && b.framesSinceAnchor == total && Abs(b.skewUs) <= jitter
  }

  lemma JitterStep(c: Setup, b: Bridge, op: Op, origin: int, total: nat, jitter: nat)
    requires 2 * jitter <= Min(GAP_THRESHOLD_US, c.maxUs) && OnClock(b, origin, total, jitter) && Takes(c, op)
    requires Abs(op.timestampUs - (origin + Duration(total, c.inRate))) <= jitter
    ensures OnClock(After(c, b, op), origin, total + |op.pcm| / c.inStride, jitter)
    ensures GapSilence(c, b, op.timestampUs) == [] && !Jumps(c, b, op.timestampUs)
  {
    FedCounts(c, b, op.pcm, op.timestampUs, op.converted);
    SkewFollows(c, b, op.timestampUs, Lasts(c, op.pcm));
  }

  /**
   Jitter is absorbed: over every run, timestamps that stay within 7.5 ms, and within half the maximum
   latency, of a steady clock neither insert silence nor start the bridge over.
   */
  lemma {:induction false} JitterNeverDisturbs(c: Setup, b: Bridge, ops: seq<Op>, origin: int, total: nat, jitter: nat)
    requires 2 * jitter <= Min(GAP_THRESHOLD_US, c.maxUs)
    requires OnClock(b, origin, total, jitter) && Jitters(c, origin, total, ops, jitter)
    ensures NeverDisturbs(c, b, ops)
    decreases |ops|
  {
    if ops != [] {
      if Takes(c, ops[0]) {
        JitterStep(c, b, ops[0], origin, total, jitter);
        JitterNeverDisturbs(c, After(c, b, ops[0]), ops[1..], origin, total + |ops[0].pcm| / c.inStride, jitter);
      } else {
        OthersKeepPosition(c, b, ops[0]);
        JitterNeverDisturbs(c, After(c, b, ops[0]), ops[1..], origin, total, jitter);
      }
    }
  }

  // ---------------------------------------------------------------- what is kept of the audio

  /** `kept` is the back of `all`: all of it within the maximum latency, and no less than that otherwise. */
  predicate KeepsBack(c: Setup, kept: seq<Byte>, all: seq<Byte>) {
    && Suffix(kept, all)
    && Occupancy(c, kept) >= Min(Occupancy(c, all), c.maxUs)
    && (Occupancy(c, all) <= c.maxUs ==> kept == all)
  }

  lemma TrimKeepsBack(c: Setup, all: seq<Byte>)
    requires Whole(c, all)
    ensures KeepsBack(c, Trim(c, all), all)
  {
    TrimSuffix(c, all);
    TrimBounds(c, all);
  }

  /** Everything there is once a chunk came in: the buffer unless it starts over, filled silence, the chunk. */
  function WithChunk(c: Setup, b: Bridge, timestampUs: int, converted: seq<Byte>): seq<Byte> {
    (if Jumps(c, b, timestampUs) then [] else b.buffer) + GapSilence(c, b, timestampUs) + converted
  }

  lemma TrackedKeeps(c: Setup, b: Bridge, pcm: seq<Byte>, timestampUs: int)
    requires Accepts(c, pcm)
    ensures var t := Anchored(Tracked(c, b, pcm, timestampUs), timestampUs);
      && t.buffer == (if Jumps(c, b, timestampUs) then [] else b.buffer) + GapSilence(c, b, timestampUs)
      && t.windowFedUs == (if Jumps(c, b, timestampUs) then 0 else b.windowFedUs)
      && t.primed == (!Jumps(c, b, timestampUs) && b.primed)
  {
    ConcatEmpty(if Jumps(c, b, timestampUs) then [] else b.buffer);
  }

  /**
   A fed chunk is kept behind what was there: nothing is dropped within the maximum latency, and only the
   oldest above it.
   */
  lemma FedKeeps(c: Setup, b: Bridge, pcm: seq<Byte>, timestampUs: int, converted: seq<Byte>)
    requires Takes(c, Feed(pcm, timestampUs, converted)) && Whole(c, b.buffer) && Whole(c, converted)
    ensures KeepsBack(c, BeforeClose(c, b, pcm, timestampUs, converted).buffer, WithChunk(c, b, timestampUs, converted))
  {
    var t := Anchored(Tracked(c, b, pcm, timestampUs), timestampUs);
    TrackedKeeps(c, b, pcm, timestampUs);
    if b.anchorUs.Some? { TrackedWhole(c, b, timestampUs, Lasts(c, pcm)); }
    JoinFrames(c, t.buffer, converted);
    TrimKeepsBack(c, t.buffer + converted);
  }

  /** A window that has not been fed for 10 s leaves it so; one that has is corrected. */
  lemma WindowCloses(c: Setup, b: Bridge, pcm: seq<Byte>, timestampUs: int, converted: seq<Byte>)
    requires Takes(c, Feed(pcm, timestampUs, converted))
    ensures var before, next := BeforeClose(c, b, pcm, timestampUs, converted), Fed(c, b, pcm, timestampUs, converted);
      && before.windowFedUs == (if Jumps(c, b, timestampUs) then 0 else b.windowFedUs) + Lasts(c, pcm)
      && before.primed == (!Jumps(c, b, timestampUs) && b.primed)
      && before.surplusWindows == (if Jumps(c, b, timestampUs) then 0 else b.surplusWindows)
      && next == if before.windowFedUs < CORRECTION_WINDOW_US then before else Reopened(Corrected(c, before))
  {
  }

  lemma FlushKeeps(c: Setup, b: Bridge, tail: seq<Byte>)
    requires Whole(c, b.buffer) && Whole(c, tail) && Occupancy(c, b.buffer) <= c.maxUs
    ensures KeepsBack(c, Flushed(c, b, tail).buffer, b.buffer + tail)
  {
    ConcatEmpty(b.buffer);
    JoinFrames(c, b.buffer, tail);
    TrimKeepsBack(c, b.buffer + tail);
  }

  /**
   The output is the buffer from `start` on, as far as it goes, then silence, and the rest stays. Playback
   that goes on starts at the front; playback that begins, with the target buffered and at most a frame more.
   */
  predicate PlaysFrom(c: Setup, b: Bridge, left: seq<Byte>, output: seq<Byte>, start: int) {
    && 0 <= start <= |b.buffer|
    && (var take := Min(|output|, |b.buffer| - start);
        && output == b.buffer[start..start + take] + Silence(|output| - take)
        && left == b.buffer[start + take..])
    && (b.primed ==> start == 0)
    && (!b.primed ==> Occupancy(c, b.buffer[start..]) >= c.targetUs && AboutTarget(c, Frames(c, b.buffer[start..])))
  }

  predicate AboutTarget(c: Setup, frames: nat) { frames >= 1 ==> Duration(frames - 1, c.outRate) <= c.targetUs }

  lemma PrimedFrom(c: Setup, b: Bridge) returns (start: nat)
    requires Whole(c, b.buffer) && (b.primed || Occupancy(c, b.buffer) >= c.targetUs)
    ensures start <= |b.buffer| && Primed(c, b).buffer == b.buffer[start..] && Primed(c, b).primed
    ensures if b.primed then start == 0
      else Occupancy(c, b.buffer[start..]) >= c.targetUs && AboutTarget(c, Frames(c, b.buffer[start..]))
  {
    start := 0;
    if !b.primed {
      PrimingStartsAtTarget(c, b);
      var surplus := Occupancy(c, b.buffer) - c.targetUs;
      if surplus > 0 { start := Min(BytesIn(c, surplus), |b.buffer|); }
    }
  }

  /** A pull plays audio as soon as the target is buffered, and whenever there is any from then on. */
  lemma PlaysFromTarget(c: Setup, b: Bridge, frames: nat) returns (start: nat)
    requires Whole(c, b.buffer)
    ensures var (after, output) := Pulled(c, b, frames);
      if b.primed || Occupancy(c, b.buffer) >= c.targetUs then
        after.primed && PlaysFrom(c, b, after.buffer, output, start)
      else
        after == b && output == Silence(frames * c.outStride)
  {
    start := 0;
    if b.primed || Occupancy(c, b.buffer) >= c.targetUs {
      start := PrimedFrom(c, b);
      TakesFrom(c, b, frames, start);
    }
  }

  lemma TakesFrom(c: Setup, b: Bridge, frames: nat, start: nat)
    requires start <= |b.buffer| && Primed(c, b).buffer == b.buffer[start..] && !Waiting(c, b)
    ensures var (after, output) := Pulled(c, b, frames);
      var take := Min(|output|, |b.buffer| - start);
      && |output| == frames * c.outStride
      && output == b.buffer[start..start + take] + Silence(|output| - take)
      && after.buffer == b.buffer[start + take..] && after.primed
  {
    var wanted, ready := frames * c.outStride, b.buffer[start..];
    var take := Min(wanted, |ready|);
    assert Pulled(c, b, frames) ==
      (Sampled(c, Primed(c, b).(buffer := ready[take..])), ready[..take] + Silence(wanted - take));
    assert ready[..take] == b.buffer[start..start + take];
    assert ready[take..] == b.buffer[start + take..];
  }

  // ---------------------------------------------------------------- persistent deviations

  function Lowest(levels: seq<nat>): nat
    requires levels != []
  {
    if |levels| == 1 then levels[0] else Min(Lowest(levels[..|levels| - 1]), levels[|levels| - 1])
  }

  function Highest(levels: seq<nat>): nat
    requires levels != []
  {
    if |levels| == 1 then levels[0] else Max(Highest(levels[..|levels| - 1]), levels[|levels| - 1])
  }

  lemma {:induction false} ExtremesAre(levels: seq<nat>)
    requires levels != []
    ensures Lowest(levels) in levels && forall level :: level in levels ==> level >= Lowest(levels)
    ensures Highest(levels) in levels && forall level :: level in levels ==> level <= Highest(levels)
    decreases |levels|
  {
    var n := |levels| - 1;
    if n > 0 {
      ExtremesAre(levels[..n]);
      assert levels == levels[..n] + [levels[n]];
    }
  }

  /** How many of the latest windows in a row were over the target by more than the convergence limit. */
  function Streak(surpluses: seq<int>): nat {
    if surpluses == [] || surpluses[|surpluses| - 1] <= CONVERGENCE_EPSILON_US then 0
    else 1 + Streak(surpluses[..|surpluses| - 1])
  }

  /**
   A bridge under observation: the levels after each call and the microseconds fed since its window
   opened, and the lowest surplus of every window closed without a correction since the last one.
   */
  datatype Watch = Watch(bridge: Bridge, levels: seq<nat>, fedUs: nat, surpluses: seq<int>)

  /** The window as a chunk leaves it, before it may close. */
  function WithLevel(c: Setup, w: Watch, op: Op): Watch
    requires Takes(c, op)
  {
    var before := BeforeClose(c, w.bridge, op.pcm, op.timestampUs, op.converted);
    var kept := if Jumps(c, w.bridge, op.timestampUs) then Watch(w.bridge, [], 0, []) else w;
    Watch(before, kept.levels + [Occupancy(c, before.buffer)], kept.fedUs + Lasts(c, op.pcm), kept.surpluses)
  }

  function SurplusesAfter(c: Setup, w: Watch): seq<int>
    requires w.levels != []
  {
    if Deviation(c, w) != 0 then [] else w.surpluses + [Lowest(w.levels) - c.targetUs]
  }

  function Watched(c: Setup, w: Watch, op: Op): Watch {
    var next := After(c, w.bridge, op);
    match op
    case Feed(_, _, _) =>
      if !Takes(c, op) then w.(bridge := next)
      else
        var open := WithLevel(c, w, op);
        if open.fedUs < CORRECTION_WINDOW_US then open.(bridge := next)
        else
          Watch(next, [], 0, SurplusesAfter(c, open))
    case Read(_) =>
      w.(bridge := next, levels := if Waiting(c, w.bridge) then w.levels else w.levels + [Occupancy(c, next.buffer)])
    case Flush(_) => w.(bridge := next)
  }

  /**
   What a window of levels calls for: a drop by what every level was over the target, if that is over the
   watermark or the third window in a row over the convergence limit; an insertion by what every level was
   under it, during playback and over the watermark; and nothing otherwise.
   */
  function Deviation(c: Setup, w: Watch): int
    requires w.levels != []
  {
    var surplus, deficit := Lowest(w.levels) - c.targetUs, c.targetUs - Highest(w.levels);
    if surplus > WATERMARK_US || Streak(w.surpluses + [surplus]) >= CONVERGENCE_WINDOWS then surplus
    else if w.bridge.primed && deficit > WATERMARK_US then -deficit
    else 0
  }

  predicate Watches(c: Setup, w: Watch) {
    && w.bridge.windowFedUs == w.fedUs
    && w.bridge.surplusWindows == Streak(w.surpluses)
    && w.bridge.windowMinUs == (if w.levels == [] then None else Some(Lowest(w.levels)))
    && w.bridge.windowMaxUs == (if w.levels == [] then None else Some(Highest(w.levels)))
  }

  lemma LowestOneMore(levels: seq<nat>, level: nat)
    ensures Lowest(levels + [level]) == if levels == [] then level else Min(Lowest(levels), level)
    ensures Highest(levels + [level]) == if levels == [] then level else Max(Highest(levels), level)
  {
    assert levels + [level] == if levels == [] then [level] else levels + [level];
    assert (levels + [level])[..|levels|] == levels;
  }

  lemma StreakOneMore(surpluses: seq<int>, surplus: int)
    ensures Streak(surpluses + [surplus]) == if surplus <= CONVERGENCE_EPSILON_US then 0 else 1 + Streak(surpluses)
  {
    assert (surpluses + [surplus])[..|surpluses|] == surpluses;
  }

  /** A chunk's level joins the extremes, or is the first to. */
  lemma LevelJoins(c: Setup, b: Bridge, op: Op)
    requires Takes(c, op)
    ensures var before := BeforeClose(c, b, op.pcm, op.timestampUs, op.converted);
      var level, first := Occupancy(c, before.buffer), Jumps(c, b, op.timestampUs);
      && before.windowMinUs == Some(if first || b.windowMinUs.None? then level else Min(b.windowMinUs.value, level))
      && before.windowMaxUs == Some(if first || b.windowMaxUs.None? then level else Max(b.windowMaxUs.value, level))
  {
  }

  lemma LevelTaken(c: Setup, w: Watch, op: Op)
    requires Takes(c, op) && Watches(c, w)
    ensures Watches(c, WithLevel(c, w, op))
    ensures WithLevel(c, w, op).levels != [] && Observed(c, WithLevel(c, w, op).bridge)
  {
    WindowCloses(c, w.bridge, op.pcm, op.timestampUs, op.converted);
    LevelJoins(c, w.bridge, op);
    var open := WithLevel(c, w, op);
    LowestOneMore(if Jumps(c, w.bridge, op.timestampUs) then [] else w.levels, Occupancy(c, open.bridge.buffer));
  }

  /** The stored extremes and the count of windows decide just as the levels themselves. */
  lemma DeviationIsCorrection(c: Setup, w: Watch)
    requires Watches(c, w) && w.levels != [] && Observed(c, w.bridge)
    ensures Correction(c, w.bridge) == Deviation(c, w)
    ensures Corrected(c, w.bridge).surplusWindows == Streak(SurplusesAfter(c, w))
  {
    ExtremesAre(w.levels);
    StreakOneMore(w.surpluses, Lowest(w.levels) - c.targetUs);
  }

  lemma FeedWatches(c: Setup, w: Watch, op: Op)
    requires Watches(c, w) && Takes(c, op)
    ensures Watches(c, Watched(c, w, op)) && Watched(c, w, op).fedUs < CORRECTION_WINDOW_US
    ensures Watched(c, w, op).bridge == After(c, w.bridge, op)
  {
    var open, next := WithLevel(c, w, op), After(c, w.bridge, op);
    LevelTaken(c, w, op);
    WindowCloses(c, w.bridge, op.pcm, op.timestampUs, op.converted);
    assert open.fedUs == open.bridge.windowFedUs;
    if open.fedUs < CORRECTION_WINDOW_US {
      assert next == open.bridge && Watched(c, w, op) == open;
    } else {
      DeviationIsCorrection(c, open);
      assert next == Reopened(Corrected(c, open.bridge));
      assert Watched(c, w, op) == Watch(next, [], 0, SurplusesAfter(c, open));
    }
  }

  lemma ReadWatches(c: Setup, w: Watch, frames: nat)
    requires Watches(c, w)
    ensures Watches(c, Watched(c, w, Read(frames)))
  {
    LowestOneMore(w.levels, Occupancy(c, After(c, w.bridge, Read(frames)).buffer));
  }

  lemma WatchesStep(c: Setup, w: Watch, op: Op)
    requires Watches(c, w) && w.fedUs < CORRECTION_WINDOW_US
    ensures Watches(c, Watched(c, w, op)) && Watched(c, w, op).fedUs < CORRECTION_WINDOW_US
    ensures Watched(c, w, op).bridge == After(c, w.bridge, op)
  {
    if Takes(c, op) {
      FeedWatches(c, w, op);
    } else if op.Read? {
      ReadWatches(c, w, op.frames);
    }
  }

  function WatchRun(c: Setup, ops: seq<Op>): Watch {
    if ops == [] then Watch(EMPTY, [], 0, [])
    else Watched(c, WatchRun(c, ops[..|ops| - 1]), ops[|ops| - 1])
  }

  /** Over every run the window's extremes are those of all levels since it opened, and its length is what was fed. */
  lemma {:induction false} WindowRemembersLevels(c: Setup, ops: seq<Op>)
    ensures var w := WatchRun(c, ops);
      Watches(c, w) && w.fedUs < CORRECTION_WINDOW_US && w.bridge == Run(c, ops).bridge
    decreases |ops|
  {
    if ops != [] {
      WindowRemembersLevels(c, ops[..|ops| - 1]);
      WatchesStep(c, WatchRun(c, ops[..|ops| - 1]), ops[|ops| - 1]);
    }
  }

  /** A correction by `shift` brought `after` from `level` to its distance from the target, within a frame. */
  predicate Shifted(c: Setup, level: int, after: seq<Byte>, shift: int) {
    && (shift > 0 ==> c.targetUs <= level - shift <= Occupancy(c, after) && Below(c, Frames(c, after), level - shift))
    && (shift < 0 ==>
         && Occupancy(c, after) <= level - shift <= c.targetUs
         && level - shift <= Duration(Frames(c, after) + 1, c.outRate))
  }

  predicate Below(c: Setup, frames: nat, level: int) { frames >= 1 ==> Duration(frames - 1, c.outRate) <= level }

  /** Every level of the window was off the target by at least `shift`, on the side the sign says. */
  predicate AllOff(c: Setup, levels: seq<nat>, shift: int) {
    && (shift > 0 ==> forall level :: level in levels ==> level >= c.targetUs + shift)
    && (shift < 0 ==> forall level :: level in levels ==> level <= c.targetUs + shift)
  }

  /** A closing window shifts the buffer by the deviation of its levels. */
  lemma ClosingShifts(c: Setup, open: Watch)
    requires Watches(c, open) && open.levels != [] && Observed(c, open.bridge) && Whole(c, open.bridge.buffer)
    ensures var shift, after := Deviation(c, open), Corrected(c, open.bridge).buffer;
      && AllOff(c, open.levels, shift)
      && (shift == 0 ==> after == open.bridge.buffer)
      && Shifted(c, Occupancy(c, open.bridge.buffer), after, shift)
  {
    ExtremesAre(open.levels);
    DeviationIsCorrection(c, open);
    CorrectionStaysOnItsSide(c, open.bridge);
  }

  /**
   Only deviations that last are corrected, and by what they were at least: over every run, a chunk leaves
   the buffer as it is until its window has been fed for 10 s, and then shifts it by the amount by which
   every level of that window was off.
   */
  lemma CorrectsWhatLasts(c: Setup, ops: seq<Op>, op: Op)
    requires Consistent(c) && WholeOps(c, ops) && WholeOp(c, op) && Takes(c, op)
    ensures var open := WithLevel(c, WatchRun(c, ops), op);
      var shift := if open.fedUs < CORRECTION_WINDOW_US then 0 else Deviation(c, open);
      var after := After(c, Run(c, ops).bridge, op).buffer;
      && AllOff(c, open.levels, shift)
      && (shift == 0 ==> after == open.bridge.buffer)
      && Shifted(c, Occupancy(c, open.bridge.buffer), after, shift)
  {
    var w := WatchRun(c, ops);
    WindowRemembersLevels(c, ops);
    LatencyBounded(c, ops);
    LevelTaken(c, w, op);
    WindowCloses(c, w.bridge, op.pcm, op.timestampUs, op.converted);
    BeforeCloseWhole(c, w.bridge, op);
    ClosingShifts(c, WithLevel(c, w, op));
  }

  lemma BeforeCloseWhole(c: Setup, b: Bridge, op: Op)
    requires Takes(c, op) && Whole(c, b.buffer) && WholeOp(c, op)
    ensures Whole(c, BeforeClose(c, b, op.pcm, op.timestampUs, op.converted).buffer)
  {
    var t := Anchored(Tracked(c, b, op.pcm, op.timestampUs), op.timestampUs);
    if b.anchorUs.Some? { TrackedWhole(c, b, op.timestampUs, Lasts(c, op.pcm)); }
    JoinFrames(c, t.buffer, op.converted);
    TrimBounds(c, t.buffer + op.converted);
  }
}
