/**
 The client's source stream: authorized by the server, opened and ended by concurrent tasks.

 Every task runs atomically between awaits. A task awaits the send lock, or its own send while it
 holds the lock; in between, any other task may run. A send that fails puts nothing on the wire.
 */
module SourceStream {
  import opened Common

  // ---------------------------------------------------------------- the connection's fields

  datatype Gate = Gate(
    connected: bool,
    role: bool,        // of a source
    player: bool,      // of a player
    available: bool,
    synchronized: bool,
    exchanging: bool,  // a handshake or pairing keeps other messages off the wire
    authorized: bool,
    active: bool)

  predicate WireAvailable(g: Gate) { g.available && (!g.player || g.synchronized) }

  /** A `start` counts once: nothing is pending or open yet, and the client could stream. */
  predicate Grants(g: Gate) { !g.authorized && !g.active && WireAvailable(g) && g.role }

  function Granted(g: Gate): Gate { if Grants(g) then g.(authorized := true) else g }

  /** A `stop` counts when there is something to undo. */
  predicate Stops(g: Gate) { g.authorized || g.active }

  predicate MayStart(g: Gate) { g.connected && g.role && g.authorized && g.synchronized && !g.exchanging }

  predicate MayStream(g: Gate) { g.connected && g.role && g.active && !g.exchanging }

  function Revoked(g: Gate): Gate { g.(authorized := false) }

  function Released(g: Gate): Gate { g.(active := false, authorized := false, role := false, player := false) }

  datatype EndOutcome = Raises | Returns | Sends

  /** What ending the stream comes to, once it holds the send lock. */
  function EndOutcomeOf(g: Gate): EndOutcome {
    if !g.connected then Raises
    else if !g.active then Returns
    else if g.exchanging then Raises
    else Sends
  }

  class SourceGate {
    var connected: bool
    var role: bool
    var player: bool
    var available: bool
    var synchronized: bool
    var exchanging: bool
    var authorized: bool
    var active: bool

    ghost function AsGate(): Gate reads this {
      Gate(connected, role, player, available, synchronized, exchanging, authorized, active)
    }

    method ApplyStart() returns (effect: bool)
      modifies this`authorized
      ensures AsGate() == Granted(old(AsGate())) && effect == Grants(old(AsGate()))
    {
      var wireAvailable := available && (!player || synchronized);
      if authorized || active || !wireAvailable || !role { return false; }
      authorized := true;
      return true;
    }

    /** Up to the await: whether the stop has an effect, and whether a stream end is to be awaited. */
    method ApplyStop() returns (effect: bool, ends: bool)
      modifies this`authorized
      ensures effect == Stops(old(AsGate())) && ends == (effect && connected)
      ensures AsGate() == if effect then Revoked(old(AsGate())) else old(AsGate())
    {
      if !authorized && !active { return false, false; }
      authorized := false;
      return true, connected;
    }

    method DropRole() returns (ends: bool)
      modifies this`role, this`authorized
      ensures AsGate() == Revoked(old(AsGate()).(role := false))
      ensures ends == (active && connected)
    {
      role := false;
      authorized := false;
      return active && connected;
    }

    /** Up to the await of an availability update: whether a stream end is to be awaited. */
    method UpdateAvailable(value: bool) returns (ends: bool)
      modifies this`authorized
      ensures AsGate() == if value then old(AsGate()) else Revoked(old(AsGate()))
      ensures ends == (!value && active)
    {
      if value { return false; }
      authorized := false;
      return active;
    }

    /** The checks of a stream start that holds the send lock. */
    method EnterStart() returns (sends: bool)
      ensures sends == MayStart(AsGate())
    {
      if !connected || !role { return false; }
      if !authorized { return false; }
      if !synchronized { return false; }
      return !exchanging;
    }

    method StartSent()
      modifies this`authorized, this`active
      ensures AsGate() == old(AsGate()).(authorized := false, active := true)
    {
      authorized := false;
      active := true;
    }

    /** The checks of a stream end that holds the send lock. */
    method EnterEnd() returns (outcome: EndOutcome)
      modifies this`authorized
      ensures AsGate() == Revoked(old(AsGate())) && outcome == EndOutcomeOf(old(AsGate()))
    {
      authorized := false;
      if !connected { return Raises; }
      if !active { return Returns; }
      if exchanging { return Raises; }
      return Sends;
    }

    method EndSent()
      modifies this`active
      ensures AsGate() == old(AsGate()).(active := false)
    {
      active := false;
    }

    /** The fields a disconnect resets last, after its awaits. */
    method Release()
      modifies this
      ensures AsGate() == Released(old(AsGate()))
    {
      active := false;
      authorized := false;
      role := false;
      player := false;
    }
  }

  // ---------------------------------------------------------------- tasks over one connection

  type TaskId = nat

  datatype Frame = StreamStart | Chunk | StreamEnd

  /** Who ends the stream: an application task, an unavailability report, a server stop, a role removal. */
  datatype Origin = Application | Unavailable | ServerStop | RoleDrop

  datatype Call = Start | Stream | End(origin: Origin)

  /** `waiting` tasks await the send lock; `sending` holds it. */
  datatype World = World(
    gate: Gate,
    reading: bool,   // the reader has not been cancelled
    released: bool,  // a disconnect reset the fields
    waiting: map<TaskId, Call>,
    sending: Option<(TaskId, Call)>,
    wire: seq<Frame>,
    grants: nat)

  const INITIAL := World(Gate(true, false, false, true, false, false, false, false), true, false, map[], None, [], 0)

  datatype Step =
    | CommandStart
    | CommandStop(task: TaskId)
    | DropRole(task: TaskId)
    | SetRoles(source: bool, player: bool)
    | CallStart(task: TaskId)
    | CallStream(task: TaskId)
    | CallEnd(task: TaskId)
    | ReportUnavailable(task: TaskId)
    | ReportAvailable
    | Acquire(task: TaskId)
    | Sent
    | SendFails
    | Synchronize(value: bool)
    | Exchange(value: bool)
    | Disconnect
    | CancelReader
    | Release

  predicate ReaderCall(c: Call) { c == End(ServerStop) || c == End(RoleDrop) }

  predicate Fresh(w: World, t: TaskId) { t !in w.waiting && (w.sending.Some? ==> w.sending.value.0 != t) }

  /** The reader handles one message at a time. */
  predicate ReaderIdle(w: World) {
    && w.reading
    && (forall t :: t in w.waiting ==> !ReaderCall(w.waiting[t]))
    && (w.sending.Some? ==> !ReaderCall(w.sending.value.1))
  }

  predicate Enabled(w: World, step: Step) {
    match step
    case CommandStart => ReaderIdle(w)
    case CommandStop(t) => ReaderIdle(w) && Fresh(w, t)
    case DropRole(t) => ReaderIdle(w) && w.gate.role && Fresh(w, t)
    case SetRoles(source, _) => ReaderIdle(w) && (w.gate.role ==> source)
    case CallStart(t) => Fresh(w, t)
    case CallStream(t) => Fresh(w, t)
    case CallEnd(t) => Fresh(w, t)
    case ReportUnavailable(t) => Fresh(w, t) && w.gate.connected
    case ReportAvailable => w.gate.connected
    case Acquire(t) => t in w.waiting && w.sending.None?
    case Sent => w.sending.Some?
    case SendFails => w.sending.Some?
    case Synchronize(_) => true
    case Exchange(_) => true
    case Disconnect => true
    case CancelReader => !w.gate.connected
    case Release => !w.gate.connected && !w.reading
  }

  /** Cancelling the reader cancels whatever it awaits. */
  function ReaderGone(w: World): World {
    w.(reading := false,
       waiting := map t | t in w.waiting && !ReaderCall(w.waiting[t]) :: w.waiting[t],
       sending := if w.sending.Some? && ReaderCall(w.sending.value.1) then None else w.sending)
  }

  /** A call that ended: an availability report then records itself. */
  function Concluded(w: World, c: Call): World {
    if c == End(Unavailable) then w.(gate := w.gate.(available := false)) else w
  }

  /** A call that raised: the reader closes the connection and ends. */
  function Failed(w: World, c: Call): World {
    if ReaderCall(c) then ReaderGone(w.(gate := w.gate.(connected := false))) else w
  }

  function Acquired(w: World, t: TaskId): World
    requires t in w.waiting
  {
    var c := w.waiting[t];
    var rest := w.(waiting := w.waiting - {t});
    match c
    case Start => if MayStart(w.gate) then rest.(sending := Some((t, c))) else rest
    case Stream => if MayStream(w.gate) then rest.(sending := Some((t, c))) else rest
    case End(_) =>
      var revoked := rest.(gate := Revoked(w.gate));
      match EndOutcomeOf(w.gate)
      case Raises => Failed(revoked, c)
      case Returns => Concluded(revoked, c)
      case Sends => revoked.(sending := Some((t, c)))
  }

  function Delivered(w: World): World
    requires w.sending.Some?
  {
    var c := w.sending.value.1;
    match c
    case Start => w.(sending := None, wire := w.wire + [StreamStart],
      gate := w.gate.(authorized := false, active := true))
    case Stream => w.(sending := None, wire := w.wire + [Chunk])
    case End(_) => Concluded(w.(sending := None, wire := w.wire + [StreamEnd], gate := w.gate.(active := false)), c)
  }

  function Next(w: World, step: Step): World
    requires Enabled(w, step)
  {
    var g := w.gate;
    match step
    case CommandStart => w.(gate := Granted(g), grants := w.grants + (if Grants(g) then 1 else 0))
    case CommandStop(t) =>
      if !Stops(g) then w
      else
        var revoked := w.(gate := Revoked(g));
        if g.connected then revoked.(waiting := w.waiting[t := End(ServerStop)]) else revoked
    case DropRole(t) =>
      var dropped := w.(gate := Revoked(g.(role := false)));
      if g.active && g.connected then dropped.(waiting := w.waiting[t := End(RoleDrop)]) else dropped
    case SetRoles(source, player) => w.(gate := g.(role := source, player := player))
    case CallStart(t) => w.(waiting := w.waiting[t := Start])
    case CallStream(t) => w.(waiting := w.waiting[t := Stream])
    case CallEnd(t) => w.(waiting := w.waiting[t := End(Application)])
    case ReportUnavailable(t) =>
      if g.active then w.(gate := Revoked(g), waiting := w.waiting[t := End(Unavailable)])
      else w.(gate := Revoked(g).(available := false))
    case ReportAvailable => w.(gate := g.(available := true))
    case Acquire(t) => Acquired(w, t)
    case Sent => Delivered(w)
    case SendFails => Failed(w.(sending := None), w.sending.value.1)
    case Synchronize(value) => w.(gate := g.(synchronized := value))
    case Exchange(value) => w.(gate := g.(exchanging := value))
    case Disconnect => w.(gate := g.(connected := false))
    case CancelReader => ReaderGone(w)
    case Release => w.(gate := Released(g), released := true)
  }

  /** The world after a run of steps, or nothing when one was not possible. */
  function After(w: World, steps: seq<Step>): Option<World>
    decreases |steps|
  {
    if steps == [] then Some(w)
    else if Enabled(w, steps[0]) then After(Next(w, steps[0]), steps[1..])
    else None
  }

  // ---------------------------------------------------------------- what every run keeps

  /** A start comes first and after every end, and nowhere else: all other frames belong to an open stream. */
  predicate Alternates(wire: seq<Frame>) { forall i :: 0 <= i < |wire| ==> InPlace(wire, i) }

  predicate InPlace(wire: seq<Frame>, i: nat)
    requires i < |wire|
  {
    wire[i] == StreamStart <==> i == 0 || wire[i - 1] == StreamEnd
  }

  predicate Open(wire: seq<Frame>) { wire != [] && wire[|wire| - 1] != StreamEnd }

  function Starts(wire: seq<Frame>): nat {
    if wire == [] then 0
    else Starts(wire[..|wire| - 1]) + (if wire[|wire| - 1] == StreamStart then 1 else 0)
  }

  predicate Opening(w: World) { w.sending.Some? && w.sending.value.1 == Start }
  predicate Streaming(w: World) { w.sending.Some? && w.sending.value.1 == Stream }
  predicate Ending(w: World) { w.sending.Some? && w.sending.value.1.End? }

  predicate Sound(w: World) {
    && Alternates(w.wire)
    && !(w.gate.authorized && w.gate.active)
    && (Opening(w) ==> !Open(w.wire))
    && (Streaming(w) || Ending(w) ==> Open(w.wire) && !w.gate.authorized)
    && (!w.released ==> (w.gate.active <==> Open(w.wire)))
    && (w.released ==> !w.gate.connected && !w.reading)
    && w.grants >= Starts(w.wire) + (if Opening(w) || w.gate.authorized then 1 else 0)
  }

  lemma WireExtends(wire: seq<Frame>, f: Frame)
    requires Alternates(wire) && (f == StreamStart <==> !Open(wire))
    ensures Alternates(wire + [f]) && (Open(wire + [f]) <==> f != StreamEnd)
    ensures Starts(wire + [f]) == Starts(wire) + (if f == StreamStart then 1 else 0)
  {
    var longer := wire + [f];
    assert longer[..|wire|] == wire;
    forall i | 0 <= i < |longer| ensures InPlace(longer, i) {
      if i < |wire| { assert InPlace(wire, i); }
    }
  }

  /** Every step of every task keeps the stream sound. */
  lemma StepKeepsSound(w: World, step: Step)
    requires Sound(w) && Enabled(w, step)
    ensures Sound(Next(w, step))
  {
    match step
    case Acquire(t) => AcquireKeepsSound(w, t);
    case Sent => SentKeepsSound(w);
    case SendFails => FailedKeepsSound(w.(sending := None), w.sending.value.1);
    case CancelReader => GoneKeepsSound(w);
    case CommandStart => CommandKeepsSound(w, step);
    case CommandStop(_) => CommandKeepsSound(w, step);
    case DropRole(_) => CommandKeepsSound(w, step);
    case ReportUnavailable(_) => ReportKeepsSound(w, step);
    case _ =>
  }

  lemma CommandKeepsSound(w: World, step: Step)
    requires Sound(w) && Enabled(w, step)
    requires step.CommandStart? || step.CommandStop? || step.DropRole?
    ensures Sound(Next(w, step))
  {
  }

  lemma ReportKeepsSound(w: World, step: Step)
    requires Sound(w) && Enabled(w, step) && step.ReportUnavailable?
    ensures Sound(Next(w, step))
  {
  }

  lemma GoneKeepsSound(w: World)
    requires Sound(w)
    ensures Sound(ReaderGone(w))
  {
  }

  lemma FailedKeepsSound(w: World, c: Call)
    requires Sound(w)
    ensures Sound(Failed(w, c))
  {
    if ReaderCall(c) { GoneKeepsSound(w.(gate := w.gate.(connected := false))); }
  }

  lemma AcquireKeepsSound(w: World, t: TaskId)
    requires Sound(w) && w.sending.None? && t in w.waiting
    ensures Sound(Acquired(w, t))
  {
    var c := w.waiting[t];
    if c.End? {
      var revoked := w.(waiting := w.waiting - {t}, gate := Revoked(w.gate));
      assert Sound(revoked);
      if EndOutcomeOf(w.gate) == Raises { FailedKeepsSound(revoked, c); }
    }
  }

  lemma SentKeepsSound(w: World)
    requires Sound(w) && w.sending.Some?
    ensures Sound(Delivered(w))
  {
    WireExtends(w.wire, if Opening(w) then StreamStart else if Streaming(w) then Chunk else StreamEnd);
  }

  /**
   Under every interleaving, starts and ends alternate on the wire with chunks only in between, each
   start consumed a server start of its own, and a pending start and an open stream exclude each other.
   */
  lemma {:induction false} StreamSafeOverRuns(w: World, steps: seq<Step>)
    requires Sound(w) && After(w, steps).Some?
    ensures Sound(After(w, steps).value)
    decreases |steps|
  {
    if steps != [] {
      StepKeepsSound(w, steps[0]);
      StreamSafeOverRuns(Next(w, steps[0]), steps[1..]);
    }
  }

  // ---------------------------------------------------------------- when a frame may go out

  function FrameOf(c: Call): Frame { if c == Start then StreamStart else if c == Stream then Chunk else StreamEnd }

  /** What the client must be when it begins to send a frame; none goes out during another exchange. */
  predicate Clear(g: Gate, f: Frame) {
    && g.connected && !g.exchanging
    && (f == StreamStart ==> g.role && g.authorized && g.synchronized)
    && (f == Chunk ==> g.role && g.active)
    && (f == StreamEnd ==> g.active)
  }

  /** A task that is to send the frame takes the send lock while the client is clear to. */
  predicate Enters(w: World, step: Step, f: Frame) {
    step.Acquire? && step.task in w.waiting && FrameOf(w.waiting[step.task]) == f && Clear(w.gate, f)
  }

  function Entries(w: World, steps: seq<Step>, f: Frame): nat
    requires After(w, steps).Some?
    decreases |steps|
  {
    if steps == [] then 0
    else (if Enters(w, steps[0], f) then 1 else 0) + Entries(Next(w, steps[0]), steps[1..], f)
  }

  function Count(wire: seq<Frame>, f: Frame): nat {
    if wire == [] then 0 else Count(wire[..|wire| - 1], f) + (if wire[|wire| - 1] == f then 1 else 0)
  }

  /** The frames of a kind on the wire, and the one being sent. */
  function Begun(w: World, f: Frame): nat {
    Count(w.wire, f) + if w.sending.Some? && FrameOf(w.sending.value.1) == f then 1 else 0
  }

  lemma CountOneMore(wire: seq<Frame>, f: Frame, other: Frame)
    ensures Count(wire + [f], other) == Count(wire, other) + (if f == other then 1 else 0)
  {
    assert (wire + [f])[..|wire|] == wire;
  }

  lemma AcquireBegins(w: World, task: TaskId)
    requires Enabled(w, Acquire(task))
    ensures var next := Acquired(w, task);
      && next.wire == w.wire
      && (next.sending == None ||
          (next.sending == Some((task, w.waiting[task])) && Clear(w.gate, FrameOf(w.waiting[task]))))
  {
  }

  lemma DeliveredWire(w: World)
    requires w.sending.Some?
    ensures Delivered(w).wire == w.wire + [FrameOf(w.sending.value.1)] && Delivered(w).sending == None
  {
  }

  lemma DeliveredCounts(w: World, f: Frame)
    requires w.sending.Some?
    ensures Begun(Delivered(w), f) == Begun(w, f)
  {
    DeliveredWire(w);
    CountOneMore(w.wire, FrameOf(w.sending.value.1), f);
  }

  lemma OthersBeginNothing(w: World, step: Step)
    requires Enabled(w, step) && !step.Acquire? && !step.Sent?
    ensures Next(w, step).wire == w.wire && (Next(w, step).sending == w.sending || Next(w, step).sending == None)
  {
  }

  lemma StepBegins(w: World, step: Step, f: Frame)
    requires Enabled(w, step)
    ensures Begun(Next(w, step), f) <= Begun(w, f) + (if Enters(w, step, f) then 1 else 0)
  {
    if step.Acquire? {
      AcquireBegins(w, step.task);
    } else if step.Sent? {
      DeliveredCounts(w, f);
    } else {
      OthersBeginNothing(w, step);
    }
  }

  /**
   Over every interleaving each start on the wire was begun connected, in role, authorized, synchronized
   and outside any other exchange; and each chunk and end on an open stream.
   */
  lemma {:induction false} FramesWereClear(w: World, steps: seq<Step>, f: Frame)
    requires After(w, steps).Some?
    ensures Begun(After(w, steps).value, f) <= Begun(w, f) + Entries(w, steps, f)
    decreases |steps|
  {
    if steps != [] {
      StepBegins(w, steps[0], f);
      FramesWereClear(Next(w, steps[0]), steps[1..], f);
    }
  }

  /** Conversely, whoever takes the lock while the client is clear does send. */
  lemma ClearSends(w: World, task: TaskId)
    requires Enabled(w, Acquire(task)) && Clear(w.gate, FrameOf(w.waiting[task]))
    ensures Next(w, Acquire(task)).sending == Some((task, w.waiting[task]))
    ensures Next(Next(w, Acquire(task)), Sent).wire == w.wire + [FrameOf(w.waiting[task])]
  {
  }

  /** A server start that finds the client able to stream and not already doing so. */
  predicate Servable(w: World, step: Step) {
    && step.CommandStart? && w.gate.role && w.gate.available && (w.gate.player ==> w.gate.synchronized)
    && !w.gate.authorized && !w.gate.active
  }

  function ServableStarts(w: World, steps: seq<Step>): nat
    requires After(w, steps).Some?
    decreases |steps|
  {
    if steps == [] then 0
    else (if Servable(w, steps[0]) then 1 else 0) + ServableStarts(Next(w, steps[0]), steps[1..])
  }

  lemma StepGrants(w: World, step: Step)
    requires Enabled(w, step)
    ensures Next(w, step).grants == w.grants + (if Servable(w, step) then 1 else 0)
  {
  }

  /** Just those server starts count: every stream start, and an authorization still standing, took one of them. */
  lemma {:induction false} StartsWereServable(w: World, steps: seq<Step>)
    requires Sound(w) && After(w, steps).Some?
    ensures After(w, steps).value.grants == w.grants + ServableStarts(w, steps)
    ensures var end := After(w, steps).value;
      Starts(end.wire) + (if Opening(end) || end.gate.authorized then 1 else 0) <= w.grants + ServableStarts(w, steps)
    decreases |steps|
  {
    if steps != [] {
      StepKeepsSound(w, steps[0]);
      StepGrants(w, steps[0]);
      StartsWereServable(Next(w, steps[0]), steps[1..]);
    }
  }

  // ---------------------------------------------------------------- what changes each field, and nothing else

  /** The reader's own call to end the stream raises: its send fails, or it may not send at all. */
  predicate ReaderRaises(w: World, step: Step) {
    match step
    case SendFails => w.sending.Some? && ReaderCall(w.sending.value.1)
    case Acquire(t) =>
      && t in w.waiting && ReaderCall(w.waiting[t])
      && (w.gate.connected ==> w.gate.active && w.gate.exchanging)
    case _ => false
  }

  predicate StartSent(w: World, step: Step) { step.Sent? && w.sending.Some? && w.sending.value.1 == Start }
  predicate EndSent(w: World, step: Step) { step.Sent? && w.sending.Some? && w.sending.value.1.End? }

  /** An unavailability report that had a stream to end, and did. */
  predicate ReportConcludes(w: World, step: Step) {
    || (EndSent(w, step) && w.sending.value.1.origin == Unavailable)
    || (step.Acquire? && step.task in w.waiting && w.waiting[step.task] == End(Unavailable)
        && w.gate.connected && !w.gate.active)
  }

  /** A stream is open from its start to its end; an authorization stands until it is used or anything revokes it. */
  predicate StreamFields(w: World, step: Step, after: Gate) {
    && (after.active <==> (w.gate.active || StartSent(w, step)) && !EndSent(w, step) && !step.Release?)
    && (after.authorized <==>
         && (w.gate.authorized || Servable(w, step))
         && !StartSent(w, step) && !step.Release? && !Revokes(step)
         && !(step.Acquire? && step.task in w.waiting && w.waiting[step.task].End?))
  }

  /** Unavailability is recorded at once when no stream is open, otherwise when its end concludes. */
  predicate AvailableField(w: World, step: Step, after: Gate) {
    after.available <==>
      && (w.gate.available || step.ReportAvailable?)
      && !(step.ReportUnavailable? && !w.gate.active) && !ReportConcludes(w, step)
  }

  /** The connection is lost by a disconnect or by the reader's raising, which ends the reader. */
  predicate ConnectionFields(w: World, step: Step, after: World) {
    && (after.gate.connected <==> w.gate.connected && !step.Disconnect? && !ReaderRaises(w, step))
    && (after.reading <==> w.reading && !step.CancelReader? && !ReaderRaises(w, step))
    && (after.released <==> w.released || step.Release?)
    && (after.sending.Some? ==> !step.Sent? && !step.SendFails?)
  }

  predicate ReportedFields(w: World, step: Step, after: Gate) {
    && after.role == (if step.SetRoles? then step.source else w.gate.role && !step.DropRole? && !step.Release?)
    && after.player == (if step.SetRoles? then step.player else w.gate.player && !step.Release?)
    && after.synchronized == (if step.Synchronize? then step.value else w.gate.synchronized)
    && after.exchanging == (if step.Exchange? then step.value else w.gate.exchanging)
  }

  predicate FieldsChanged(w: World, step: Step, after: World) {
    && StreamFields(w, step, after.gate) && AvailableField(w, step, after.gate)
    && ConnectionFields(w, step, after) && ReportedFields(w, step, after.gate)
  }

  lemma AcquireChanges(w: World, t: TaskId)
    requires Enabled(w, Acquire(t))
    ensures FieldsChanged(w, Acquire(t), Acquired(w, t))
  {
    var c, after := w.waiting[t], Acquired(w, t);
    if !c.End? {
      assert after.gate == w.gate && after.reading == w.reading && after.released == w.released;
      assert FieldsChanged(w, Acquire(t), after);
    } else {
      EndAcquired(w, t);
      var concludes, raises := ReportConcludes(w, Acquire(t)), ReaderRaises(w, Acquire(t));
      assert after.gate.available == (w.gate.available && !concludes);
      assert after.gate.connected == (w.gate.connected && !raises);
    }
  }

  lemma EndAcquired(w: World, t: TaskId)
    requires Enabled(w, Acquire(t)) && w.waiting[t].End?
    ensures var c, outcome, after := w.waiting[t], EndOutcomeOf(w.gate), Acquired(w, t);
      && after.gate == w.gate.(authorized := false,
           connected := w.gate.connected && !(ReaderCall(c) && outcome == Raises),
           available := w.gate.available && !(c == End(Unavailable) && outcome == Returns))
      && after.reading == (w.reading && !(ReaderCall(c) && outcome == Raises))
      && after.released == w.released
  {
  }

  lemma SentGate(w: World)
    requires Enabled(w, Sent)
    ensures var c, g := w.sending.value.1, w.gate;
      Delivered(w).gate ==
        match c
        case Start => g.(authorized := false, active := true)
        case Stream => g
        case End(origin) => g.(active := false, available := g.available && origin != Unavailable)
    ensures Delivered(w).reading == w.reading && Delivered(w).released == w.released && Delivered(w).sending == None
  {
  }

  lemma SentChanges(w: World)
    requires Enabled(w, Sent)
    ensures FieldsChanged(w, Sent, Delivered(w))
  {
    SentGate(w);
    var after := Delivered(w);
    assert ConnectionFields(w, Sent, after);
    assert ReportedFields(w, Sent, after.gate);
    assert AvailableField(w, Sent, after.gate);
  }

  lemma FailedFields(w: World, c: Call)
    ensures var after := Failed(w, c);
      && after.gate == w.gate.(connected := w.gate.connected && !ReaderCall(c))
      && after.reading == (w.reading && !ReaderCall(c)) && after.released == w.released
      && (w.sending == None ==> after.sending == None)
  {
  }

  lemma SendFailsChanges(w: World)
    requires Enabled(w, SendFails)
    ensures FieldsChanged(w, SendFails, Next(w, SendFails))
  {
    FailedFields(w.(sending := None), w.sending.value.1);
    assert StreamFields(w, SendFails, Next(w, SendFails).gate);
  }

  lemma RevokingChanges(w: World, step: Step)
    requires Enabled(w, step) && Revokes(step)
    ensures FieldsChanged(w, step, Next(w, step))
  {
    var g, after := w.gate, Next(w, step);
    assert after.reading == w.reading && after.released == w.released && after.sending == w.sending;
    assert after.gate == g.(authorized := false, role := g.role && !step.DropRole?,
        available := g.available && !(step.ReportUnavailable? && !g.active));
  }

  lemma CallChanges(w: World, step: Step)
    requires Enabled(w, step) && (step.CallStart? || step.CallStream? || step.CallEnd? || step.CancelReader?)
    ensures FieldsChanged(w, step, Next(w, step))
  {
    assert Next(w, step).gate == w.gate;
  }

  lemma ReportChanges(w: World, step: Step)
    requires Enabled(w, step)
    requires step.SetRoles? || step.ReportAvailable? || step.Synchronize? || step.Exchange?
    ensures FieldsChanged(w, step, Next(w, step))
  {
  }

  lemma LossChanges(w: World, step: Step)
    requires Enabled(w, step) && (step.Disconnect? || step.Release?)
    ensures FieldsChanged(w, step, Next(w, step))
  {
  }

  lemma StartChanges(w: World)
    requires Enabled(w, CommandStart)
    ensures FieldsChanged(w, CommandStart, Next(w, CommandStart))
  {
  }

  /** Each field changes just by these steps, whoever takes them. */
  lemma FieldsChange(w: World, step: Step)
    requires Enabled(w, step)
    ensures FieldsChanged(w, step, Next(w, step))
  {
    if step.Acquire? {
      AcquireChanges(w, step.task);
    } else if step.Sent? {
      SentChanges(w);
    } else if step.SendFails? {
      SendFailsChanges(w);
    } else if Revokes(step) {
      RevokingChanges(w, step);
    } else if step.CommandStart? {
      StartChanges(w);
    } else if step.Disconnect? || step.Release? {
      LossChanges(w, step);
    } else if step.SetRoles? || step.ReportAvailable? || step.Synchronize? || step.Exchange? {
      ReportChanges(w, step);
    } else {
      CallChanges(w, step);
    }
  }

  /** The call a step has a task make. */
  predicate Calls(w: World, step: Step, task: TaskId, call: Call) {
    match step
    case CallStart(t) => task == t && call == Start
    case CallStream(t) => task == t && call == Stream
    case CallEnd(t) => task == t && call == End(Application)
    case CommandStop(t) =>
      task == t && call == End(ServerStop) && w.gate.connected && (w.gate.authorized || w.gate.active)
    case DropRole(t) => task == t && call == End(RoleDrop) && w.gate.connected && w.gate.active
    case ReportUnavailable(t) => task == t && call == End(Unavailable) && w.gate.active
    case _ => false
  }

  predicate Waits(w: World, task: TaskId, call: Call) { task in w.waiting && w.waiting[task] == call }

  lemma CallerWaits(w: World, step: Step, task: TaskId, call: Call)
    requires Enabled(w, step) && !step.Acquire? && !step.SendFails? && !step.CancelReader?
    ensures Waits(Next(w, step), task, call) <==> Calls(w, step, task, call) || Waits(w, task, call)
  {
  }

  lemma AcquirerWaits(w: World, t: TaskId, task: TaskId, call: Call)
    requires Enabled(w, Acquire(t))
    ensures Waits(Acquired(w, t), task, call) <==>
      Waits(w, task, call) && task != t && !(ReaderCall(call) && ReaderRaises(w, Acquire(t)))
  {
    var c := w.waiting[t];
    assert ReaderRaises(w, Acquire(t)) <==> ReaderCall(c) && EndOutcomeOf(w.gate) == Raises;
  }

  /** A call waits from when it is made until it has the send lock, or it is the reader's and the reader ends. */
  lemma CallsWait(w: World, step: Step, task: TaskId, call: Call)
    requires Enabled(w, step)
    ensures Waits(Next(w, step), task, call) <==>
      (|| Calls(w, step, task, call)
       || (&& Waits(w, task, call) && step != Acquire(task)
           && !(ReaderCall(call) && (step.CancelReader? || ReaderRaises(w, step)))))
  {
    if step.Acquire? {
      AcquirerWaits(w, step.task, task, call);
    } else if !step.SendFails? && !step.CancelReader? {
      CallerWaits(w, step, task, call);
    }
  }

  /** While the reader waits for a stream to end it takes no command, and after it ended neither. */
  lemma ReaderAwaits(w: World, step: Step, task: TaskId)
    requires Enabled(w, step)
    requires step.CommandStart? || step.CommandStop? || step.DropRole? || step.SetRoles?
    ensures w.reading
    ensures task in w.waiting ==> w.waiting[task] != End(ServerStop) && w.waiting[task] != End(RoleDrop)
    ensures w.sending.Some? ==> w.sending.value.1 != End(ServerStop) && w.sending.value.1 != End(RoleDrop)
  {
  }

  /** From a new connection, in particular, every run is sound. */
  lemma SoundFromStart(steps: seq<Step>)
    requires After(INITIAL, steps).Some?
    ensures Sound(After(INITIAL, steps).value)
    ensures Starts(After(INITIAL, steps).value.wire) <= ServableStarts(INITIAL, steps)
  {
    StreamSafeOverRuns(INITIAL, steps);
    StartsWereServable(INITIAL, steps);
  }

  // ---------------------------------------------------------------- revocation

  /** Nothing is open, and nothing is about to be. */
  predicate Quiet(w: World) { !w.gate.active && !Opening(w) && !w.gate.authorized }

  /** A stream end that held the lock and did not raise. */
  predicate Concludes(w: World, step: Step) {
    match step
    case Acquire(t) => t in w.waiting && w.sending.None? && w.waiting[t].End? && EndOutcomeOf(w.gate) == Returns
    case Sent => Ending(w)
    case _ => false
  }

  /**
   Whoever awaited the end of the stream finds none open or opening once it concludes: a start in flight was
   waited out.
   */
  lemma ConcludedEndLeavesQuiet(w: World, step: Step)
    requires Sound(w) && Enabled(w, step) && Concludes(w, step)
    ensures Quiet(Next(w, step)) && !Open(Next(w, step).wire)
  {
    StepKeepsSound(w, step);
  }

  predicate Revokes(step: Step) { step.CommandStop? || step.DropRole? || step.ReportUnavailable? }

  /** The handler did not await the end of a stream. */
  predicate AtOnce(w: World, step: Step)
    requires Enabled(w, step) && Revokes(step)
  {
    Next(w, step).waiting == w.waiting
  }

  /**
   A server stop, a removed role or a reported unavailability that ends at once leaves nothing open or
   opening exactly when no start was in flight. A stop ends at once only when nothing is authorized
   either, the other two whenever no stream is open yet.
   */
  lemma AtOnceLeavesQuietIff(w: World, step: Step)
    requires Sound(w) && w.gate.connected && Enabled(w, step) && Revokes(step)
    ensures AtOnce(w, step) <==> !w.gate.active && (step.CommandStop? ==> !w.gate.authorized)
    ensures AtOnce(w, step) ==> (Quiet(Next(w, step)) <==> !Opening(w))
  {
    assert step.task !in w.waiting;
  }

  /** So a server stop alone does end a start in flight: while its authorization stands, the stop awaits it. */
  lemma StopAwaitsAuthorizedStart(w: World, task: TaskId)
    requires Sound(w) && w.gate.connected && Enabled(w, CommandStop(task))
    requires w.gate.authorized || w.gate.active
    ensures var after := Next(w, CommandStop(task));
      task in after.waiting && after.waiting[task] == End(ServerStop) && !after.gate.authorized
  {
  }

  lemma Precede(w: World, step: Step, rest: seq<Step>, end: World)
    requires Enabled(w, step) && After(Next(w, step), rest) == Some(end)
    ensures After(w, [step] + rest) == Some(end)
  {
    assert ([step] + rest)[1..] == rest;
  }

  /** A connected, synchronized client with its source role granted a start, and a task in the middle of sending it. */
  const STARTING := World(Gate(true, true, false, true, true, false, true, false), true, false, map[],
    Some((1, Start)), [], 1)

  lemma StartingReached()
    ensures After(INITIAL,
      [SetRoles(true, false)] + ([Synchronize(true)] + ([CommandStart] + ([CallStart(1)] + ([Acquire(1)] + [])))))
      == Some(STARTING)
  {
    var w1 := INITIAL.(gate := Gate(true, true, false, true, false, false, false, false));
    var w2 := w1.(gate := w1.gate.(synchronized := true));
    var w3 := w2.(gate := w2.gate.(authorized := true), grants := 1);
    var w4 := w3.(waiting := map[1 := Start]);
    assert map[1 := Start] - {1} == map[];
    Precede(w4, Acquire(1), [], STARTING);
    Precede(w3, CallStart(1), [Acquire(1)] + [], STARTING);
    Precede(w2, CommandStart, [CallStart(1)] + ([Acquire(1)] + []), STARTING);
    Precede(w1, Synchronize(true), [CommandStart] + ([CallStart(1)] + ([Acquire(1)] + [])), STARTING);
    Precede(INITIAL, SetRoles(true, false),
      [Synchronize(true)] + ([CommandStart] + ([CallStart(1)] + ([Acquire(1)] + []))), STARTING);
  }

  /**
   A start revoked in flight still opens its stream: once its role is removed, a server stop has no
   effect, and when the send completes a stream is open without its role.
   */
  lemma RevokedStartOpens() returns (w: World)
    ensures After(STARTING, [DropRole(2)] + ([CommandStop(3)] + ([Sent] + []))) == Some(w)
    ensures w.gate.connected && !w.gate.role && w.gate.active && Open(w.wire) && w.waiting == map[]
  {
    var w1 := STARTING.(gate := STARTING.gate.(role := false, authorized := false));
    w := w1.(sending := None, wire := [StreamStart], gate := w1.gate.(active := true));
    assert w1.wire + [StreamStart] == w.wire;
    Precede(w1, Sent, [], w);
    Precede(w1, CommandStop(3), [Sent] + [], w);
    Precede(STARTING, DropRole(2), [CommandStop(3)] + ([Sent] + []), w);
  }
}
