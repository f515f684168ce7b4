/**
 Backpressure: which of the chunks ever sent to a client still occupy its buffer, kept as two
 queues and running counters instead of a scan.
 */
module BufferTracker {
  import opened Common

  const TRANSMISSION_RECHECK_US := 1_000

  /** A registered chunk. Two chunks are the same object exactly when their `id`s agree. */
  datatype Chunk = Chunk(endTime: int, bytes: int, duration: int, id: nat)

  function SumBytes(chunks: seq<Chunk>): int {
    if chunks == [] then 0 else chunks[0].bytes + SumBytes(chunks[1..])
  }

  function SumDuration(chunks: seq<Chunk>): int {
    if chunks == [] then 0 else chunks[0].duration + SumDuration(chunks[1..])
  }

  /** Everything that decides whether a chunk counts at one instant. */
  datatype View = View(delay: int, now: int, transmitting: Option<Chunk>)

  function Completion(c: Chunk, delay: int): int { c.endTime - delay }

  /** Unfinished transmission, or completion in the future under the current delay. */
  predicate Live(c: Chunk, v: View) { v.transmitting == Some(c) || Completion(c, v.delay) > v.now }

  function FirstLive(chunks: seq<Chunk>, v: View): (k: nat)
    ensures k <= |chunks|
    ensures forall i :: 0 <= i < k ==> !Live(chunks[i], v)
    ensures k < |chunks| ==> Live(chunks[k], v)
  {
    if chunks == [] || Live(chunks[0], v) then 0 else 1 + FirstLive(chunks[1..], v)
  }

  /** What the tracker counts: every registered chunk from the first live one on. */
  function Counted(chunks: seq<Chunk>, v: View): seq<Chunk> { chunks[FirstLive(chunks, v)..] }

  /** What the class promises to count: the live chunks. */
  function LiveOnly(chunks: seq<Chunk>, v: View): seq<Chunk> {
    if chunks == [] then []
    else (if Live(chunks[0], v) then [chunks[0]] else []) + LiveOnly(chunks[1..], v)
  }

  predicate Positive(chunks: seq<Chunk>) { forall c :: c in chunks ==> c.bytes > 0 }

  /** Registration in timestamp order. */
  predicate InOrder(chunks: seq<Chunk>) {
    forall i, j :: 0 <= i < j < |chunks| ==> chunks[i].endTime <= chunks[j].endTime
  }

  /** A transmission in progress is that of the latest chunk, and of no other. */
  predicate TransmitsLast(chunks: seq<Chunk>, transmitting: Option<Chunk>) {
    transmitting.Some? ==>
      && chunks != [] && transmitting.value == chunks[|chunks| - 1]
      && forall i :: 0 <= i < |chunks| - 1 ==> chunks[i] != transmitting.value
  }

  /** No completed chunk waits behind a live one. */
  predicate NothingBehind(chunks: seq<Chunk>, v: View) {
    forall i, j :: 0 <= i < j < |chunks| && Live(chunks[i], v) ==> Live(chunks[j], v)
  }

  // ---------------------------------------------------------------- counting against the definition

  lemma InOrderNothingBehind(chunks: seq<Chunk>, v: View)
    requires InOrder(chunks) && TransmitsLast(chunks, v.transmitting)
    ensures NothingBehind(chunks, v)
  {
  }

  lemma {:induction false} LiveOnlyBounds(chunks: seq<Chunk>, v: View)
    requires Positive(chunks)
    ensures 0 <= SumBytes(LiveOnly(chunks, v)) <= SumBytes(chunks)
    ensures SumBytes(LiveOnly(chunks, v)) == SumBytes(chunks) <==> forall c :: c in chunks ==> Live(c, v)
    ensures (forall c :: c in chunks ==> Live(c, v)) ==> LiveOnly(chunks, v) == chunks
  {
    if chunks != [] {
      LiveOnlyBounds(chunks[1..], v);
      assert chunks == [chunks[0]] + chunks[1..];
      if Live(chunks[0], v) {
        assert LiveOnly(chunks, v)[1..] == LiveOnly(chunks[1..], v);
        assert forall c :: c in chunks <==> c == chunks[0] || c in chunks[1..];
      } else {
        assert LiveOnly(chunks, v) == LiveOnly(chunks[1..], v);
        assert chunks[0] in chunks;
      }
    }
  }

  lemma {:induction false} DeadPrefixSkipped(dead: seq<Chunk>, rest: seq<Chunk>, v: View)
    requires forall c :: c in dead ==> !Live(c, v)
    ensures LiveOnly(dead + rest, v) == LiveOnly(rest, v)
    ensures FirstLive(dead + rest, v) == |dead| + FirstLive(rest, v)
    ensures Counted(dead + rest, v) == Counted(rest, v)
  {
    if dead == [] {
      ConcatEmpty(rest);
    } else {
      assert (dead + rest)[1..] == dead[1..] + rest;
      assert dead[0] in dead;
      DeadPrefixSkipped(dead[1..], rest, v);
      assert Counted(dead + rest, v) == Counted(dead[1..] + rest, v);
    }
  }

  /**
   The counters stand for the definition exactly when no completed chunk is behind a live one:
   then the counted chunks are the live ones, and otherwise the byte count is too high.
   */
  lemma CountedIsLiveIff(chunks: seq<Chunk>, v: View)
    requires Positive(chunks)
    ensures SumBytes(Counted(chunks, v)) >= SumBytes(LiveOnly(chunks, v))
    ensures SumBytes(Counted(chunks, v)) == SumBytes(LiveOnly(chunks, v)) <==> NothingBehind(chunks, v)
    ensures NothingBehind(chunks, v) ==> Counted(chunks, v) == LiveOnly(chunks, v)
  {
    var k := FirstLive(chunks, v);
    var counted := chunks[k..];
    assert chunks == chunks[..k] + counted;
    DeadPrefixSkipped(chunks[..k], counted, v);
    assert Positive(counted);
    LiveOnlyBounds(counted, v);
    NothingBehindMeansSuffix(chunks, v);
  }

  lemma NothingBehindMeansSuffix(chunks: seq<Chunk>, v: View)
    ensures NothingBehind(chunks, v) <==> forall c :: c in Counted(chunks, v) ==> Live(c, v)
  {
    var k := FirstLive(chunks, v);
    var counted := chunks[k..];
    if forall c :: c in counted ==> Live(c, v) {
      forall i, j | 0 <= i < j < |chunks| && Live(chunks[i], v) ensures Live(chunks[j], v) {
        assert chunks[j] == counted[j - k];
      }
    }
    if NothingBehind(chunks, v) {
      forall i | 0 <= i < |counted| ensures Live(counted[i], v) {
        assert counted[i] == chunks[k + i];
      }
    }
  }

  lemma {:induction false} SuffixSums(chunks: seq<Chunk>, i: nat, j: nat)
    requires Positive(chunks) && i <= j <= |chunks|
    ensures SumBytes(chunks[j..]) <= SumBytes(chunks[i..])
    ensures 0 <= SumBytes(chunks[j..])
    decreases |chunks| - i
  {
    if i < |chunks| {
      assert chunks[i..][1..] == chunks[i + 1..];
      assert chunks[i] in chunks;
      if i < j {
        SuffixSums(chunks, i + 1, j);
      } else {
        SuffixSums(chunks, i + 1, i + 1);
      }
    }
  }

  lemma {:induction false} SumsAppend(a: seq<Chunk>, c: Chunk)
    ensures SumBytes(a + [c]) == SumBytes(a) + c.bytes
    ensures SumDuration(a + [c]) == SumDuration(a) + c.duration
  {
    if a != [] {
      SumsAppend(a[1..], c);
      assert (a + [c])[1..] == a[1..] + [c];
    }
  }

  lemma MoveOver(a: seq<Chunk>, b: seq<Chunk>)
    requires b != []
    ensures a + [b[0]] + b[1..] == a + b
  {
  }

  lemma LiveFromFront(chunks: seq<Chunk>, v: View)
    requires Positive(chunks) && InOrder(chunks) && TransmitsLast(chunks, v.transmitting)
    requires chunks != [] ==> Live(chunks[0], v)
    ensures LiveOnly(chunks, v) == chunks
  {
    InOrderNothingBehind(chunks, v);
    LiveOnlyBounds(chunks, v);
  }

  // ---------------------------------------------------------------- capacity at an instant

  /** Whether `needed` more bytes fit at `t` if nothing is registered or finished until then. */
  predicate FitsAt(chunks: seq<Chunk>, v: View, t: int, capacity: int, needed: int) {
    SumBytes(Counted(chunks, v.(now := t))) + needed <= capacity
  }

  /** While chunk `i` is live, everything from it on counts. */
  lemma LiveHoldsSuffix(chunks: seq<Chunk>, v: View, i: nat)
    requires Positive(chunks) && i < |chunks| && Live(chunks[i], v)
    ensures SumBytes(Counted(chunks, v)) >= SumBytes(chunks[i..])
  {
    SuffixSums(chunks, FirstLive(chunks, v), i);
  }

  lemma DeadFreesPrefix(chunks: seq<Chunk>, v: View, i: nat)
    requires Positive(chunks) && i <= |chunks| && forall k :: 0 <= k < i ==> !Live(chunks[k], v)
    ensures SumBytes(Counted(chunks, v)) <= SumBytes(chunks[i..])
  {
    SuffixSums(chunks, i, FirstLive(chunks, v));
  }

  /** Whether a chunk ending at `endTime` stays within `limit` of `t`, under the output delay. */
  predicate HorizonFits(endTime: int, v: View, t: int, limit: int) { endTime - v.delay - t <= limit }

  /** Waiting `wait` makes the bytes fit, and no shorter wait does. */
  ghost predicate ExactWait(chunks: seq<Chunk>, v: View, capacity: int, needed: int, wait: int) {
    wait >= 0 && forall t :: t >= v.now ==> (FitsAt(chunks, v, t, capacity, needed) <==> t - v.now >= wait)
  }

  ghost predicate NeverFits(chunks: seq<Chunk>, v: View, capacity: int, needed: int) {
    forall t :: t >= v.now ==> !FitsAt(chunks, v, t, capacity, needed)
  }

  /** The first `i` chunks are gone from `from` on, and the bytes do not fit before. */
  ghost predicate Simulated(chunks: seq<Chunk>, v: View, capacity: int, needed: int, i: nat, from: int)
    requires i <= |chunks|
  {
    && from >= v.now
    && (forall k, t :: 0 <= k < i && t >= from ==> !Live(chunks[k], v.(now := t)))
    && (forall t :: v.now <= t < from ==> !FitsAt(chunks, v, t, capacity, needed))
  }

  /** Until its completion, a chunk not yet simulated away keeps the bytes from fitting. */
  lemma HeldByChunk(chunks: seq<Chunk>, v: View, i: nat, capacity: int, needed: int)
    requires Positive(chunks) && i < |chunks| && SumBytes(chunks[i..]) + needed > capacity
    ensures forall t :: Live(chunks[i], v.(now := t)) ==> !FitsAt(chunks, v, t, capacity, needed)
  {
    forall t | Live(chunks[i], v.(now := t)) ensures !FitsAt(chunks, v, t, capacity, needed) {
      LiveHoldsSuffix(chunks, v.(now := t), i);
    }
  }

  lemma SimulateOne(chunks: seq<Chunk>, v: View, capacity: int, needed: int, i: nat, from: int)
    requires Positive(chunks) && i < |chunks| && Simulated(chunks, v, capacity, needed, i, from)
    requires SumBytes(chunks[i..]) + needed > capacity && v.transmitting != Some(chunks[i])
    ensures Simulated(chunks, v, capacity, needed, i + 1, Max(from, Completion(chunks[i], v.delay)))
  {
    HeldByChunk(chunks, v, i, capacity, needed);
  }

  lemma SimulationDone(chunks: seq<Chunk>, v: View, capacity: int, needed: int, i: nat, from: int)
    requires Positive(chunks) && i <= |chunks| && Simulated(chunks, v, capacity, needed, i, from)
    requires SumBytes(chunks[i..]) + needed <= capacity
    ensures ExactWait(chunks, v, capacity, needed, from - v.now)
  {
    forall t | t >= from ensures FitsAt(chunks, v, t, capacity, needed) {
      DeadFreesPrefix(chunks, v.(now := t), i);
    }
  }

  lemma CountedNotNegative(chunks: seq<Chunk>, v: View)
    requires Positive(chunks)
    ensures SumBytes(Counted(chunks, v)) >= 0
  {
    SuffixSums(chunks, FirstLive(chunks, v), |chunks|);
  }

  /** The chunk in transmission alone leaves no room. */
  predicate HeldByTransmission(v: View, capacity: int, needed: int) {
    v.transmitting.Some? && v.transmitting.value.bytes + needed > capacity
  }

  /** `wait` reaches from now to the furthest completion among `live`, or is 0 without a later one. */
  ghost predicate FurthestCompletion(live: seq<Chunk>, v: View, wait: int) {
    && wait >= 0
    && (forall c :: c in live ==> Completion(c, v.delay) - v.now <= wait)
    && (wait > 0 ==> exists c :: c in live && Completion(c, v.delay) - v.now == wait)
  }

  /** `wait` lets every chunk ahead of the last one complete, and is at least the recheck interval. */
  ghost predicate RecheckWait(chunks: seq<Chunk>, v: View, wait: int)
    requires chunks != []
  {
    exists ahead :: FurthestCompletion(chunks[..|chunks| - 1], v, ahead) && wait == Max(ahead, TRANSMISSION_RECHECK_US)
  }

  /**
   What a byte wait is, in every case: with a transmission that leaves no room, a recheck once all the
   others are done, and the bytes never fit before it ends. Otherwise exact, or for bytes that never fit
   the time until the buffer is empty.
   */
  ghost predicate ByteWait(chunks: seq<Chunk>, v: View, capacity: int, needed: int, wait: int) {
    if HeldByTransmission(v, capacity, needed) then
      chunks != [] && NeverFits(chunks, v, capacity, needed) && RecheckWait(chunks, v, wait)
    else if needed <= capacity then ExactWait(chunks, v, capacity, needed, wait)
    else NeverFits(chunks, v, capacity, needed) && FurthestCompletion(chunks, v, wait)
  }

  lemma FurthestOneMore(chunks: seq<Chunk>, v: View, i: nat, wait: int)
    requires i < |chunks| && FurthestCompletion(chunks[..i], v, wait)
    ensures FurthestCompletion(chunks[..i + 1], v, Max(wait, Completion(chunks[i], v.delay) - v.now))
  {
    assert chunks[..i + 1] == chunks[..i] + [chunks[i]];
  }

  lemma LastFits(chunks: seq<Chunk>, v: View, i: nat, capacity: int, needed: int)
    requires Positive(chunks) && TransmitsLast(chunks, v.transmitting) && i <= |chunks|
    requires v.transmitting.Some? ==> i < |chunks|
    requires SumBytes(chunks[i..]) + needed <= capacity
    ensures !HeldByTransmission(v, capacity, needed) && needed <= capacity
  {
    SuffixSums(chunks, i, |chunks|);
    if v.transmitting.Some? {
      SuffixSums(chunks, i, |chunks| - 1);
      assert chunks[|chunks| - 1..] == [v.transmitting.value];
      assert SumBytes([v.transmitting.value]) == v.transmitting.value.bytes;
    }
  }

  lemma StoppedByTransmission(chunks: seq<Chunk>, v: View, capacity: int, needed: int, i: nat, wait: int)
    requires Positive(chunks) && TransmitsLast(chunks, v.transmitting) && i < |chunks|
    requires v.transmitting == Some(chunks[i]) && SumBytes(chunks[i..]) + needed > capacity
    requires FurthestCompletion(chunks[..i], v, wait)
    ensures ByteWait(chunks, v, capacity, needed, Max(wait, TRANSMISSION_RECHECK_US))
  {
    HeldByChunk(chunks, v, i, capacity, needed);
    assert i == |chunks| - 1 && chunks[i..] == [chunks[i]];
    assert SumBytes([chunks[i]]) == chunks[i].bytes;
  }

  lemma SimulationEnds(chunks: seq<Chunk>, v: View, capacity: int, needed: int, i: nat, wait: int)
    requires Positive(chunks) && TransmitsLast(chunks, v.transmitting) && i <= |chunks|
    requires i == |chunks| || SumBytes(chunks[i..]) + needed <= capacity
    requires v.transmitting.Some? ==> i < |chunks|
    requires FurthestCompletion(chunks[..i], v, wait)
    requires Simulated(chunks, v, capacity, needed, i, v.now + wait)
    ensures ByteWait(chunks, v, capacity, needed, wait)
  {
    if SumBytes(chunks[i..]) + needed <= capacity {
      SimulationDone(chunks, v, capacity, needed, i, v.now + wait);
      LastFits(chunks, v, i, capacity, needed);
    } else {
      assert chunks[i..] == [] && chunks[..i] == chunks;
      forall t ensures !FitsAt(chunks, v, t, capacity, needed) { CountedNotNegative(chunks, v.(now := t)); }
    }
  }

  /** Plays the queue forward on a copy of the byte count until `needed` more bytes fit. */
  method SimulateCompletion(chunks: seq<Chunk>, v: View, total: int, capacity: int, needed: int) returns (wait: int)
    requires Positive(chunks) && total == SumBytes(chunks) && needed > 0
    requires TransmitsLast(chunks, v.transmitting)
    ensures wait >= 0
    ensures ByteWait(chunks, v, capacity, needed, wait)
  {
    wait := 0;
    var virtual := total;
    var i := 0;
    while i < |chunks|
      invariant 0 <= i <= |chunks| && virtual == SumBytes(chunks[i..])
      invariant v.transmitting.Some? ==> i < |chunks|
      invariant FurthestCompletion(chunks[..i], v, wait)
      invariant Simulated(chunks, v, capacity, needed, i, v.now + wait)
    {
      if virtual + needed <= capacity { break; }
      var chunk := chunks[i];
      if v.transmitting == Some(chunk) {
        StoppedByTransmission(chunks, v, capacity, needed, i, wait);
        return Max(wait, TRANSMISSION_RECHECK_US);
      }
      SimulateOne(chunks, v, capacity, needed, i, v.now + wait);
      FurthestOneMore(chunks, v, i, wait);
      wait := Max(wait, Completion(chunk, v.delay) - v.now);
      virtual := virtual - chunk.bytes;
      assert chunks[i..][1..] == chunks[i + 1..];
      i := i + 1;
    }
    SimulationEnds(chunks, v, capacity, needed, i, wait);
  }

  function Horizon(counted: seq<Chunk>, v: View): int {
    if counted == [] then 0 else Max(Completion(counted[|counted| - 1], v.delay) - v.now, 0)
  }

  lemma LastIsFurthest(chunks: seq<Chunk>, v: View)
    requires InOrder(chunks)
    ensures FurthestCompletion(chunks, v, Horizon(chunks, v))
  {
    if chunks != [] {
      var last := chunks[|chunks| - 1];
      assert last in chunks;
      forall c | c in chunks ensures c.endTime <= last.endTime {
        var i :| 0 <= i < |chunks| && chunks[i] == c;
      }
    }
  }

  /** The queues of a tracker: chunks forgotten, completed and counted, in registration order. */
  datatype Queues = Queues(forgotten: seq<Chunk>, completed: seq<Chunk>, buffered: seq<Chunk>) {
    function All(): seq<Chunk> { forgotten + completed + buffered }

    ghost predicate Consistent(v: View, nextId: nat) {
      && (forall c :: c in All() ==> c.bytes > 0 && c.id < nextId)
      && (forall c :: c in forgotten ==> c.endTime <= v.now)
      && (forall c :: c in forgotten + completed ==> !Live(c, v))
      && (v.transmitting.Some? ==> buffered != [])
      && TransmitsLast(buffered, v.transmitting)
    }

    function CompleteOne(): Queues requires buffered != [] {
      Queues(forgotten, completed + [buffered[0]], buffered[1..])
    }

    function ForgetOne(): Queues requires completed != [] {
      Queues(forgotten + [completed[0]], completed[1..], buffered)
    }

    lemma CompleteOneConsistent(v: View, nextId: nat)
      requires Consistent(v, nextId) && buffered != [] && !Live(buffered[0], v)
      ensures CompleteOne().All() == All()
      ensures CompleteOne().Consistent(v, nextId)
    {
      MoveOver(forgotten + completed, buffered);
      ConcatAssociates(forgotten, completed, [buffered[0]]);
      forall i | 0 <= i < |buffered[1..]| ensures buffered[1..][i] == buffered[i + 1] {}
    }

    lemma ForgetOneConsistent(v: View, nextId: nat)
      requires Consistent(v, nextId) && completed != [] && completed[0].endTime <= v.now
      ensures ForgetOne().All() == All()
      ensures ForgetOne().Consistent(v, nextId)
    {
      MoveOver(forgotten, completed);
    }

    /** Later instants and lower delays keep what is forgotten dead, so a recount misses nothing. */
    lemma RecountConsistent(v: View, nextId: nat, delay: int)
      requires Consistent(v, nextId) && delay >= 0
      ensures Queues(forgotten, [], completed + buffered).All() == All()
      ensures Queues(forgotten, [], completed + buffered).Consistent(v.(delay := delay), nextId)
    {
      ConcatAssociates(forgotten, completed, buffered);
      ConcatEmpty(forgotten);
      assert forall c :: c in forgotten || c in completed ==> c in forgotten + completed;
      if v.transmitting.Some? {
        forall i | 0 <= i < |completed + buffered| - 1
          ensures (completed + buffered)[i] != v.transmitting.value
        {
          if i < |completed| {
            assert completed[i] in completed;
          } else {
            assert (completed + buffered)[i] == buffered[i - |completed|];
          }
        }
      }
    }

    lemma LaterConsistent(v: View, nextId: nat, now: int)
      requires Consistent(v, nextId) && now >= v.now
      ensures Consistent(v.(now := now), nextId)
    {
      forall c | c in forgotten + completed ensures !Live(c, v.(now := now)) {
        assert !Live(c, v);
      }
    }

    lemma RegisterConsistent(v: View, nextId: nat, c: Chunk)
      requires Consistent(v, nextId) && c.bytes > 0 && c.id == nextId
      ensures Queues(forgotten, completed, buffered + [c]).All() == All() + [c]
      ensures Queues(forgotten, completed, buffered + [c]).Consistent(v.(transmitting := Some(c)), nextId + 1)
    {
      ConcatAssociates(forgotten + completed, buffered, [c]);
      forall d | d in forgotten + completed ensures !Live(d, v.(transmitting := Some(c))) {
        assert d in All() && !Live(d, v);
      }
      forall i | 0 <= i < |buffered| ensures buffered[i] != c {
        assert buffered[i] in All();
      }
    }

    lemma FinishConsistent(v: View, nextId: nat)
      requires Consistent(v, nextId)
      ensures Consistent(v.(transmitting := None), nextId)
    {
      forall d | d in forgotten + completed ensures !Live(d, v.(transmitting := None)) {
        assert !Live(d, v);
      }
    }

    ghost predicate FrontLive(v: View) { buffered != [] ==> Live(buffered[0], v) }

    /** The counted suffix is that of a scan over everything, once the front of it is live. */
    lemma FrontLiveMeansCounted(v: View, nextId: nat)
      requires Consistent(v, nextId) && FrontLive(v)
      ensures buffered == Counted(All(), v)
    {
      DeadPrefixSkipped(forgotten + completed, buffered, v);
    }

    lemma BufferedInOrder()
      requires InOrder(All())
      ensures InOrder(buffered)
    {
      var k := |forgotten + completed|;
      forall i, j | 0 <= i < j < |buffered| ensures buffered[i].endTime <= buffered[j].endTime {
        assert All()[k + i] == buffered[i] && All()[k + j] == buffered[j];
      }
    }

    lemma InOrderMeansLive(v: View, nextId: nat)
      requires Consistent(v, nextId) && FrontLive(v) && InOrder(All())
      ensures LiveOnly(All(), v) == buffered
    {
      DeadPrefixSkipped(forgotten + completed, buffered, v);
      BufferedInOrder();
      forall c | c in buffered ensures c in All() {}
      LiveFromFront(buffered, v);
    }

    /** The last counted chunk reaches as far as any live one, when registration was in order. */
    lemma HorizonIsFurthest(v: View, nextId: nat)
      requires Consistent(v, nextId) && FrontLive(v) && InOrder(All())
      ensures LiveOnly(All(), v) == buffered
      ensures FurthestCompletion(buffered, v, Horizon(buffered, v))
    {
      InOrderMeansLive(v, nextId);
      BufferedInOrder();
      LastIsFurthest(buffered, v);
    }

    /** From now on, the forgotten and completed chunks make no difference. */
    lemma FitsOfBuffered(v: View, nextId: nat, capacity: int, needed: int)
      requires Consistent(v, nextId)
      ensures Positive(buffered)
      ensures forall wait ::
        ExactWait(buffered, v, capacity, needed, wait) ==> ExactWait(All(), v, capacity, needed, wait)
      ensures NeverFits(buffered, v, capacity, needed) ==> NeverFits(All(), v, capacity, needed)
    {
      forall c | c in buffered ensures c in All() {}
      forall t | t >= v.now
        ensures FitsAt(All(), v, t, capacity, needed) <==> FitsAt(buffered, v, t, capacity, needed)
      {
        LaterConsistent(v, nextId, t);
        DeadPrefixSkipped(forgotten + completed, buffered, v.(now := t));
      }
    }

    /** The dead chunks completed already, so they are not the furthest. */
    lemma FurthestOfBuffered(v: View, nextId: nat, n: nat, wait: int)
      requires Consistent(v, nextId) && n <= |buffered| && FurthestCompletion(buffered[..n], v, wait)
      ensures FurthestCompletion(forgotten + completed + buffered[..n], v, wait)
    {
      forall c | c in forgotten + completed ensures Completion(c, v.delay) - v.now <= wait {
        assert !Live(c, v);
      }
    }

    lemma WaitOfBuffered(v: View, nextId: nat, capacity: int, needed: int, wait: int)
      requires Consistent(v, nextId) && ByteWait(buffered, v, capacity, needed, wait)
      ensures ByteWait(All(), v, capacity, needed, wait)
    {
      FitsOfBuffered(v, nextId, capacity, needed);
      if HeldByTransmission(v, capacity, needed) {
        var n := |buffered| - 1;
        var ahead :| FurthestCompletion(buffered[..n], v, ahead) && wait == Max(ahead, TRANSMISSION_RECHECK_US);
        FurthestOfBuffered(v, nextId, n, ahead);
        assert All()[..|All()| - 1] == forgotten + completed + buffered[..n];
      } else if needed > capacity {
        assert buffered[..|buffered|] == buffered;
        FurthestOfBuffered(v, nextId, |buffered|, wait);
      }
    }
  }

  /** The recount of a delay change adds the chunks up one by one. */
  method Recount(chunks: seq<Chunk>) returns (total: int)
    ensures total == SumBytes(chunks)
  {
    total := 0;
    for i := 0 to |chunks|
      invariant total + SumBytes(chunks[i..]) == SumBytes(chunks)
    {
      assert chunks[i..][1..] == chunks[i + 1..];
      total := total + chunks[i].bytes;
    }
  }

  method RecountDuration(chunks: seq<Chunk>) returns (total: int)
    ensures total == SumDuration(chunks)
  {
    total := 0;
    for i := 0 to |chunks|
      invariant total + SumDuration(chunks[i..]) == SumDuration(chunks)
    {
      assert chunks[i..][1..] == chunks[i + 1..];
      total := total + chunks[i].duration;
    }
  }

  /** The tracker of one client. The clock reading of each call is its argument `now`. */
  class BufferTracker {
    const capacityBytes: int
    const maxDuration: nat
    var bufferedChunks: seq<Chunk>
    var bufferedBytes: int
    var bufferedDuration: int
    var completedChunks: seq<Chunk>
    var outputDelay: int
    var transmitting: Option<Chunk>
    var nextId: nat

    /** What the tracker has dropped for good; only the proofs remember it. */
    ghost var forgotten: seq<Chunk>
    /** The latest clock reading. */
    ghost var clock: int

    ghost function Qs(): Queues reads this { Queues(forgotten, completedChunks, bufferedChunks) }

    /** The full history from one reset to the next, oldest first. */
    ghost function Registered(): seq<Chunk> reads this { Qs().All() }

    ghost function Now(): View reads this { View(outputDelay, clock, transmitting) }

    ghost predicate Valid() reads this {
      && outputDelay >= 0
      && bufferedBytes == SumBytes(bufferedChunks)
      && bufferedDuration == SumDuration(bufferedChunks)
      && Qs().Consistent(Now(), nextId)
    }

    /** What every prune leaves: the front of the queue is live, or the queue is empty. */
    ghost predicate Pruned() reads this { Qs().FrontLive(Now()) }

    /**
     The main result: after any prune the queue and the counters are those of a scan of the full
     history, whatever delay changes happened and although most of it was forgotten. When end times
     were registered in order, the scan finds just the live chunks.
     */
    lemma CountersMatchScan()
      requires Valid() && Pruned()
      ensures bufferedChunks == Counted(Registered(), Now())
      ensures bufferedBytes == SumBytes(Counted(Registered(), Now()))
      ensures bufferedDuration == SumDuration(Counted(Registered(), Now()))
      ensures InOrder(Registered()) ==>
        && bufferedBytes == SumBytes(LiveOnly(Registered(), Now()))
        && bufferedDuration == SumDuration(LiveOnly(Registered(), Now()))
    {
      Qs().FrontLiveMeansCounted(Now(), nextId);
      if InOrder(Registered()) {
        Qs().InOrderMeansLive(Now(), nextId);
      }
    }

    twostate predicate SameChunks() reads this {
      && Registered() == old(Registered()) && transmitting == old(transmitting)
      && nextId == old(nextId) && outputDelay == old(outputDelay)
    }

    constructor (capacityBytes: int, maxDuration: nat, now: int)
      ensures Valid() && Pruned() && Registered() == [] && outputDelay == 0 && transmitting == None && clock == now
      ensures this.capacityBytes == capacityBytes && this.maxDuration == maxDuration
    {
      this.capacityBytes, this.maxDuration := capacityBytes, maxDuration;
      bufferedChunks, completedChunks, forgotten := [], [], [];
      bufferedBytes, bufferedDuration, outputDelay, nextId := 0, 0, 0, 0;
      transmitting := None;
      clock := now;
    }

    method PruneConsumed(now: int)
      requires Valid() && clock <= now
      modifies this
      ensures Valid() && SameChunks() && clock == now
      ensures Pruned()
    {
      Qs().LaterConsistent(Now(), nextId, now);
      clock := now;
      DropCompleted(now);
      ForgetExpired(now);
    }

    /** The first loop of a prune: completed chunks leave the front of the queue. */
    method DropCompleted(now: int)
      requires Valid() && clock == now
      modifies `bufferedChunks, `bufferedBytes, `bufferedDuration, `completedChunks
      ensures Valid() && Registered() == old(Registered())
      ensures Pruned()
    {
      while bufferedChunks != [] && Completion(bufferedChunks[0], outputDelay) <= now
        && transmitting != Some(bufferedChunks[0])
        invariant Valid() && Registered() == old(Registered())
        decreases |bufferedChunks|
      {
        Qs().CompleteOneConsistent(Now(), nextId);
        ghost var next := Qs().CompleteOne();
        var chunk := bufferedChunks[0];
        bufferedChunks := bufferedChunks[1..];
        bufferedBytes := bufferedBytes - chunk.bytes;
        bufferedDuration := bufferedDuration - chunk.duration;
        completedChunks := completedChunks + [chunk];
        assert Qs() == next;
      }
    }

    /** The second loop: what no admissible delay can bring back is let go. */
    method ForgetExpired(now: int)
      requires Valid() && clock == now
      modifies `completedChunks, `forgotten
      ensures Valid() && Registered() == old(Registered())
    {
      while completedChunks != [] && completedChunks[0].endTime <= now
        invariant Valid() && Registered() == old(Registered())
        decreases |completedChunks|
      {
        Qs().ForgetOneConsistent(Now(), nextId);
        ghost var next := Qs().ForgetOne();
        forgotten := forgotten + [completedChunks[0]];
        completedChunks := completedChunks[1..];
        assert Qs() == next;
      }
    }

    method SetOutputDelay(value: int, now: int)
      requires Valid() && clock <= now && value >= 0
      modifies this
      ensures Valid() && outputDelay == value
      ensures Registered() == old(Registered()) && transmitting == old(transmitting) && nextId == old(nextId)
      ensures value != old(outputDelay) ==> clock == now && Pruned()
      ensures value == old(outputDelay) ==> unchanged(this)
    {
      if value == outputDelay { return; }
      Qs().RecountConsistent(Now(), nextId, value);
      outputDelay := value;
      var chunks := completedChunks + bufferedChunks;
      completedChunks := [];
      bufferedChunks := chunks;
      bufferedBytes := Recount(chunks);
      bufferedDuration := RecountDuration(chunks);
      PruneConsumed(now);
    }

    method Register(endTime: int, bytes: int, duration: int) returns (chunk: Option<Chunk>)
      requires Valid()
      modifies this
      ensures Valid() && clock == old(clock) && outputDelay == old(outputDelay)
      ensures bytes <= 0 ==> chunk == None && unchanged(this)
      ensures bytes > 0 ==>
        && chunk == Some(Chunk(endTime, bytes, duration, old(nextId)))
        && Registered() == old(Registered()) + [chunk.value]
        && bufferedChunks == old(bufferedChunks) + [chunk.value]
        && transmitting == chunk
    {
      if bytes <= 0 { return None; }
      var c := Chunk(endTime, bytes, duration, nextId);
      SumsAppend(bufferedChunks, c);
      Qs().RegisterConsistent(Now(), nextId, c);
      nextId := nextId + 1;
      bufferedChunks := bufferedChunks + [c];
      bufferedBytes := bufferedBytes + bytes;
      bufferedDuration := bufferedDuration + duration;
      transmitting := Some(c);
      return Some(c);
    }

    /** Only the latest registered chunk can end the transmission in progress. */
    method FinishTransmission(chunk: Chunk)
      requires Valid()
      modifies this
      ensures Valid() && Registered() == old(Registered()) && bufferedChunks == old(bufferedChunks)
      ensures outputDelay == old(outputDelay) && clock == old(clock) && nextId == old(nextId)
      ensures transmitting == if old(transmitting) == Some(chunk) then None else old(transmitting)
    {
      if transmitting == Some(chunk) {
        Qs().FinishConsistent(Now(), nextId);
        transmitting := None;
      }
    }

    method Reset()
      requires Valid()
      modifies this
      ensures Valid() && Pruned() && Registered() == [] && transmitting == None
      ensures outputDelay == old(outputDelay) && clock == old(clock)
    {
      bufferedChunks, completedChunks := [], [];
      bufferedBytes, bufferedDuration := 0, 0;
      transmitting := None;
      forgotten := [];
    }

    method BufferedHorizon(now: int) returns (horizon: int)
      requires Valid() && clock <= now
      modifies this
      ensures Valid() && SameChunks() && clock == now && Pruned()
      ensures horizon == Horizon(bufferedChunks, Now())
    {
      PruneConsumed(now);
      if bufferedChunks == [] { return 0; }
      return Max(Completion(bufferedChunks[|bufferedChunks| - 1], outputDelay) - now, 0);
    }

    method HasCapacityNow(needed: int, now: int) returns (fits: bool)
      requires Valid() && clock <= now
      modifies this
      ensures Valid() && SameChunks()
      ensures needed <= 0 ==> fits && unchanged(this)
      ensures needed > 0 ==>
        && clock == now && Pruned()
        && (fits <==> FitsAt(Registered(), Now(), now, capacityBytes, needed))
    {
      if needed <= 0 { return true; }
      PruneConsumed(now);
      CountersMatchScan();
      return bufferedBytes + needed <= capacityBytes;
    }

    method HasDurationCapacity(needed: int, now: int) returns (fits: bool)
      requires Valid() && clock <= now
      modifies this
      ensures Valid() && SameChunks()
      ensures maxDuration == 0 || needed <= 0 ==> fits && unchanged(this)
      ensures maxDuration != 0 && needed > 0 ==>
        && clock == now && Pruned()
        && (fits <==> SumDuration(Counted(Registered(), Now())) + needed <= maxDuration)
    {
      if maxDuration == 0 { return true; }
      if needed <= 0 { return true; }
      PruneConsumed(now);
      CountersMatchScan();
      return bufferedDuration + needed <= maxDuration;
    }

    /** The byte wait, judged over everything registered: exact wherever there is an exact one. */
    method TimeUntilCapacity(needed: int, now: int) returns (wait: int)
      requires Valid() && clock <= now
      modifies this
      ensures Valid() && SameChunks()
      ensures needed <= 0 ==> wait == 0 && unchanged(this)
      ensures needed > 0 ==> clock == now && Pruned() && wait >= 0
      ensures needed > 0 ==> ByteWait(Registered(), Now(), capacityBytes, needed, wait)
    {
      if needed <= 0 { return 0; }
      PruneConsumed(now);
      Qs().FitsOfBuffered(Now(), nextId, capacityBytes, needed);
      wait := SimulateCompletion(
        bufferedChunks, View(outputDelay, now, transmitting), bufferedBytes, capacityBytes, needed);
      Qs().WaitOfBuffered(Now(), nextId, capacityBytes, needed, wait);
    }

    /** The later of an end time and that of the chunk registered last. */
    ghost function LatestEnd(endTime: int): int reads this {
      if Registered() == [] then endTime else Max(endTime, Registered()[|Registered()| - 1].endTime)
    }

    /** The wait for the horizon: exact for a chunk still to be played, and none for one that is late. */
    method TimeUntilEndTimeCapacity(endTime: int, now: int) returns (wait: int)
      requires Valid() && clock <= now
      modifies this
      ensures Valid() && SameChunks()
      ensures maxDuration == 0 ==> wait == 0 && unchanged(this)
      ensures maxDuration > 0 ==> clock == now && Pruned() && HorizonWait(endTime, wait)
    {
      if maxDuration == 0 { return 0; }
      PruneConsumed(now);
      var completion := endTime - outputDelay;
      if completion <= now { return 0; }
      var latestEnd := now;
      if bufferedChunks != [] {
        var last := bufferedChunks[|bufferedChunks| - 1];
        assert last == Registered()[|Registered()| - 1];
        latestEnd := Max(now, Completion(last, outputDelay));
      } else if Registered() != [] {
        assert Registered()[|Registered()| - 1] in forgotten + completedChunks;
      }
      var horizon := Max(latestEnd, completion) - now;
      if horizon <= maxDuration { return 0; }
      return horizon - maxDuration;
    }

    ghost predicate HorizonWait(endTime: int, wait: int) reads this {
      && wait >= 0
      && (endTime - outputDelay <= clock ==> wait == 0)
      && (endTime - outputDelay > clock ==>
           forall t :: t >= clock ==> (HorizonFits(LatestEnd(endTime), Now(), t, maxDuration) <==> t - clock >= wait))
    }

    /** The wait for the excess over the duration limit to drain, at one second of audio a second. */
    method TimeUntilDurationCapacity(needed: int, now: int) returns (wait: int)
      requires Valid() && clock <= now
      modifies this
      ensures Valid() && SameChunks()
      ensures maxDuration == 0 || needed <= 0 ==> wait == 0 && unchanged(this)
      ensures maxDuration > 0 && needed > 0 ==> clock == now && Pruned() && DrainWait(needed, wait)
    {
      if maxDuration == 0 { return 0; }
      if needed <= 0 { return 0; }
      PruneConsumed(now);
      CountersMatchScan();
      var projected := bufferedDuration + needed;
      if projected <= maxDuration { return 0; }
      return projected - maxDuration;
    }

    ghost predicate DrainWait(needed: int, wait: int) reads this {
      wait >= 0 && forall t :: t >= clock ==> (DrainedAt(needed, t) <==> t - clock >= wait)
    }

    /** What the duration limit alone asks to wait. */
    ghost predicate DurationWait(duration: int, endTime: Option<int>, wait: int) reads this {
      if maxDuration == 0 || (endTime.None? && duration <= 0) then wait == 0
      else if endTime.Some? then HorizonWait(endTime.value, wait)
      else DrainWait(duration, wait)
    }

    /** What both limits ask to wait: the longer of the two waits. */
    ghost predicate BothWait(needed: int, duration: int, endTime: Option<int>, wait: int) reads this {
      exists bytes, time :: wait == Max(bytes, time) && DurationWait(duration, endTime, time) &&
        (if needed <= 0 then bytes == 0 else ByteWait(Registered(), Now(), capacityBytes, needed, bytes))
    }

    /**
     Both waits at once. Without an end time the duration is judged by what is counted now, drained in
     real time.
     */
    method TimeUntilReady(needed: int, duration: int, endTime: Option<int>, now: int) returns (wait: int)
      requires Valid() && clock <= now
      modifies this
      ensures Valid() && SameChunks() && wait >= 0
      ensures BothWait(needed, duration, endTime, wait)
    {
      var byteWait := TimeUntilCapacity(needed, now);
      ghost var v, chunks := Now(), Registered();
      var durationWait;
      if endTime.Some? {
        durationWait := TimeUntilEndTimeCapacity(endTime.value, now);
      } else {
        durationWait := TimeUntilDurationCapacity(duration, now);
      }
      wait := Max(byteWait, durationWait);
    }

    /** With no transmission in the way, the chunk can be sent at an instant exactly when that is so far away. */
    lemma ReadyIff(needed: int, duration: int, endTime: Option<int>, wait: int, t: int)
      requires BothWait(needed, duration, endTime, wait) && t >= clock
      requires needed <= capacityBytes && !HeldByTransmission(Now(), capacityBytes, needed)
      requires endTime.Some? ==> endTime.value - outputDelay > clock
      ensures ReadyAt(needed, duration, endTime, t) <==> t - clock >= wait
    {
    }

    /** Whether `needed` fits the duration limit at `t` if what counts now drains in real time. */
    ghost predicate DrainedAt(needed: int, t: int) reads this {
      SumDuration(Counted(Registered(), Now())) - (t - clock) + needed <= maxDuration
    }

    /** Room for the bytes, and for the duration where that is limited. */
    ghost predicate ReadyAt(needed: int, duration: int, endTime: Option<int>, t: int) reads this {
      && (needed > 0 ==> FitsAt(Registered(), Now(), t, capacityBytes, needed))
      && (maxDuration > 0 && endTime.Some? ==> HorizonFits(LatestEnd(endTime.value), Now(), t, maxDuration))
      && (maxDuration > 0 && endTime.None? && duration > 0 ==> DrainedAt(duration, t))
    }
  }

  /** A chunk registered behind one that ends later counts until that one completes, though it is done itself. */
  lemma OutOfOrderOvercounts(late: Chunk, early: Chunk, v: View)
    requires v.transmitting == None
    requires Completion(early, v.delay) <= v.now < Completion(late, v.delay)
    ensures SumBytes(Counted([late, early], v)) == late.bytes + early.bytes
    ensures SumBytes(LiveOnly([late, early], v)) == late.bytes
  {
    var chunks := [late, early];
    assert chunks[1..] == [early] && chunks[1..][1..] == [] && chunks[0..] == chunks;
    assert SumBytes(chunks[1..]) == early.bytes;
    assert LiveOnly(chunks[1..], v) == [];
    assert LiveOnly(chunks, v) == [late];
    assert [late][1..] == [];
  }

  /** A chunk registered and sent. */
  method SendChunk(t: BufferTracker, endTime: int, bytes: int) returns (chunk: Chunk)
    requires t.Valid() && bytes > 0
    modifies t
    ensures t.Valid() && t.clock == old(t.clock) && t.outputDelay == old(t.outputDelay) && t.transmitting == None
    ensures chunk.endTime == endTime && chunk.bytes == bytes
    ensures t.Registered() == old(t.Registered()) + [chunk]
  {
    var registered := t.Register(endTime, bytes, 0);
    chunk := registered.value;
    t.FinishTransmission(chunk);
  }

  /** A tracker gets there: two chunks out of order, both sent, and a prune between their completions. */
  method RegisterOutOfOrder(late: int, early: int, lateBytes: int, earlyBytes: int, start: int, now: int)
    returns (t: BufferTracker)
    requires start <= now && early <= now < late && lateBytes > 0 && earlyBytes > 0
    ensures t.Valid() && t.Pruned() && t.clock == now
    ensures t.bufferedBytes == lateBytes + earlyBytes
    ensures SumBytes(LiveOnly(t.Registered(), t.Now())) == lateBytes
  {
    t := new BufferTracker(lateBytes + earlyBytes, 0, start);
    var first := SendChunk(t, late, lateBytes);
    assert t.Registered() == [first];
    var second := SendChunk(t, early, earlyBytes);
    assert t.Registered() == [first, second];
    t.PruneConsumed(now);
    t.CountersMatchScan();
    OutOfOrderOvercounts(first, second, t.Now());
  }
}
