/**
 How often codes can be guessed: the stored count that caps PAKE rounds across attempts. Whether a round
 verifies is a parameter.
 */
module PairingRounds {
  import opened Common

  const PAIRING_ROUND_LIMIT := 20

  // ---------------------------------------------------------------- one attempt

  /** The first round whose code verifies, counting from `round`, or the round the budget runs out at. */
  ghost function LastRound(verdict: nat -> bool, round: nat, count: int): nat
    decreases PAIRING_ROUND_LIMIT - count
  {
    if verdict(round) || count + 1 >= PAIRING_ROUND_LIMIT then round else LastRound(verdict, round + 1, count + 1)
  }

  class RoundStore {
    var rounds: int

    method RecordPairingRound()
      modifies this
      ensures rounds == old(rounds) + 1
    {
      rounds := rounds + 1;
    }

    method ResetPairingRounds()
      modifies this
      ensures rounds == 0
    {
      if rounds != 0 { rounds := 0; }
    }

    predicate IsPairingRoundLimitReached() reads this { rounds >= PAIRING_ROUND_LIMIT }

    /**
     The client's side of an attempt: rounds until one verifies or the limit is reached. It runs at
     most as many rounds as the store had left, and a single one when none was.
     */
    method RunRounds(verdict: nat -> bool) returns (verified: bool, ran: nat)
      modifies this
      ensures ran == LastRound(verdict, 1, old(rounds))
      ensures verified == verdict(ran)
      ensures verified ==> rounds == 0
      ensures !verified ==> rounds == old(rounds) + ran >= PAIRING_ROUND_LIMIT
      ensures forall n :: 1 <= n < ran ==> !verdict(n)
      ensures 1 <= ran && (old(rounds) < PAIRING_ROUND_LIMIT ==> old(rounds) + ran <= PAIRING_ROUND_LIMIT)
    {
      var round := 1;
      while true
        invariant round >= 1 && rounds == old(rounds) + round - 1
        invariant round > 1 ==> rounds < PAIRING_ROUND_LIMIT
        invariant forall n :: 1 <= n < round ==> !verdict(n)
        invariant LastRound(verdict, round, rounds) == LastRound(verdict, 1, old(rounds))
        decreases PAIRING_ROUND_LIMIT - rounds
      {
        RecordPairingRound();
        if verdict(round) { break; }
        if IsPairingRoundLimitReached() { return false, round; }
        round := round + 1;
      }
      ResetPairingRounds();
      return true, round;
    }
  }

  // ---------------------------------------------------------------- many attempts

  type AttemptId = nat

  datatype Phase =
    | Gated    // held back until the operator opens a pairing window
    | Armed    // may run its next round
    | Emitted  // its code is out, the verdict is awaited

  /** `rounds` is the persisted count; `live` holds the attempts under way. */
  datatype State = State(rounds: int, live: map<AttemptId, Phase>)

  datatype Step =
    | Begin(id: AttemptId)
    | Admit(id: AttemptId)
    | Round(id: AttemptId)
    | Verdict(id: AttemptId, verified: bool)
    | Vanish(id: AttemptId)

  predicate Enabled(s: State, step: Step, concurrent: nat) {
    match step
    case Begin(id) => id !in s.live && |s.live| < concurrent
    case Admit(id) => id in s.live && s.live[id].Gated?
    case Round(id) => id in s.live && s.live[id].Armed?
    case Verdict(id, _) => id in s.live && s.live[id].Emitted?
    case Vanish(id) => id in s.live
  }

  function Next(s: State, step: Step): State {
    match step
    case Begin(id) => s.(live := s.live[id := if s.rounds >= PAIRING_ROUND_LIMIT then Gated else Armed])
    case Admit(id) => State(0, s.live[id := Armed])
    case Round(id) => State(s.rounds + 1, s.live[id := Emitted])
    case Verdict(id, verified) =>
      if verified then State(0, s.live - {id})
      else if s.rounds >= PAIRING_ROUND_LIMIT then s.(live := s.live - {id})
      else s.(live := s.live[id := Armed])
    case Vanish(id) => s.(live := s.live - {id})
  }

  predicate Resets(step: Step) { step.Admit? || (step.Verdict? && step.verified) }

  /** The rounds run since the last verified code or operator action. */
  function RoundsSinceReset(steps: seq<Step>): nat {
    if steps == [] then 0
    else
      var before, last := RoundsSinceReset(steps[..|steps| - 1]), steps[|steps| - 1];
      if Resets(last) then 0 else if last.Round? then before + 1 else before
  }

  /** A run from the count the store was loaded with. */
  function Run(loaded: int, steps: seq<Step>): State {
    if steps == [] then State(loaded, map[]) else Next(Run(loaded, steps[..|steps| - 1]), steps[|steps| - 1])
  }

  predicate Possible(loaded: int, steps: seq<Step>, concurrent: nat) {
    forall i :: 0 <= i < |steps| ==> Enabled(Run(loaded, steps[..i]), steps[i], concurrent)
  }

  function ArmedIds(s: State): set<AttemptId> { set id | id in s.live && s.live[id].Armed? }

  /** Every armed attempt has a round left of its own. */
  predicate WithinBudget(s: State, concurrent: nat) {
    && |s.live| <= concurrent
    && s.rounds + |ArmedIds(s)| <= PAIRING_ROUND_LIMIT - 1 + concurrent
  }

  lemma ArmedAtMostLive(s: State)
    ensures |ArmedIds(s)| <= |s.live|
  {
    SubsetCount(ArmedIds(s), s.live.Keys);
  }

  lemma StepWithinBudget(s: State, step: Step, concurrent: nat)
    requires concurrent >= 1 && WithinBudget(s, concurrent) && Enabled(s, step, concurrent)
    ensures WithinBudget(Next(s, step), concurrent)
  {
    var after := Next(s, step);
    var id := step.id;
    assert after.live.Keys <= s.live.Keys + {id};
    LiveCount(s, step, concurrent);
    ArmedAtMostLive(after);
    if step.Round? {
      assert ArmedIds(after) == ArmedIds(s) - {id};
    } else if after.rounds >= PAIRING_ROUND_LIMIT {
      assert ArmedIds(after) <= ArmedIds(s);
      SubsetCount(ArmedIds(after), ArmedIds(s));
    }
  }

  lemma LiveCount(s: State, step: Step, concurrent: nat)
    requires |s.live| <= concurrent && Enabled(s, step, concurrent)
    ensures |Next(s, step).live| <= concurrent
  {
    var after := Next(s, step);
    if step.Begin? {
      assert after.live.Keys == s.live.Keys + {step.id};
    } else {
      assert after.live.Keys <= s.live.Keys;
      SubsetCount(after.live.Keys, s.live.Keys);
    }
  }

  /**
   Over any run of attempts, abandoned at any point, at most nineteen rounds more than there are
   concurrent attempts run between one verified code or operator action and the next.
   */
  lemma {:induction false} RoundsBounded(loaded: nat, steps: seq<Step>, concurrent: nat)
    requires loaded <= PAIRING_ROUND_LIMIT && concurrent >= 1 && Possible(loaded, steps, concurrent)
    ensures WithinBudget(Run(loaded, steps), concurrent)
    ensures RoundsSinceReset(steps) <= Run(loaded, steps).rounds <= PAIRING_ROUND_LIMIT - 1 + concurrent
    decreases |steps|
  {
    if steps == [] {
      assert ArmedIds(Run(loaded, steps)) == {};
    } else {
      var front := steps[..|steps| - 1];
      forall i | 0 <= i < |front| ensures Enabled(Run(loaded, front[..i]), front[i], concurrent) {
        assert front[..i] == steps[..i];
      }
      RoundsBounded(loaded, front, concurrent);
      StepWithinBudget(Run(loaded, front), steps[|steps| - 1], concurrent);
    }
  }

  /** The rounds that count against the limit: those since the last reset, and before any reset the loaded ones. */
  function Counted(loaded: int, steps: seq<Step>): int {
    RoundsSinceReset(steps) + if exists i :: 0 <= i < |steps| && Resets(steps[i]) then 0 else loaded
  }

  lemma {:induction false} CountIsExact(loaded: int, steps: seq<Step>)
    ensures Run(loaded, steps).rounds == Counted(loaded, steps)
    decreases |steps|
  {
    if steps != [] {
      var front, last := steps[..|steps| - 1], steps[|steps| - 1];
      CountIsExact(loaded, front);
      assert forall i :: 0 <= i < |front| ==> front[i] == steps[i];
    }
  }

  /**
   Below the limit nobody waits for the operator: a new attempt, or one whose code failed, may run its next
   round exactly while fewer than twenty count. At the limit the new one may only once it is admitted, and
   the failed one is over. Abandoning an attempt gives no round back.
   */
  lemma NextRoundIff(loaded: int, steps: seq<Step>, id: AttemptId, concurrent: nat)
    ensures
      var s, counted := Run(loaded, steps), Counted(loaded, steps);
      && (Enabled(s, Begin(id), concurrent) ==>
           (Enabled(Next(s, Begin(id)), Round(id), concurrent) <==> counted < 20))
      && (Enabled(s, Verdict(id, false), concurrent) ==>
           (Enabled(Next(s, Verdict(id, false)), Round(id), concurrent) <==> counted < 20))
      && (Enabled(s, Verdict(id, false), concurrent) && counted >= 20 ==> id !in Next(s, Verdict(id, false)).live)
      && (Enabled(s, Begin(id), concurrent) && counted >= 20 ==>
           Enabled(Next(s, Begin(id)), Admit(id), concurrent))
      && (Enabled(s, Admit(id), concurrent) ==> Enabled(Next(s, Admit(id)), Round(id), concurrent))
      && (id in s.live ==> Next(s, Vanish(id)) == State(counted, s.live - {id}))
  {
    CountIsExact(loaded, steps);
  }

  /** One attempt at a time, as an admitted connection runs them: at most twenty rounds between resets. */
  lemma TwentyRounds(loaded: nat, steps: seq<Step>)
    requires loaded <= PAIRING_ROUND_LIMIT && Possible(loaded, steps, 1)
    ensures RoundsSinceReset(steps) <= PAIRING_ROUND_LIMIT
  {
    RoundsBounded(loaded, steps, 1);
  }
}

/**
 The time in which a person at the client lets code pairings through.
 */
module PairingWindow {
  import opened Common

  const PAIRING_WINDOW_LIFETIME_MS := 300_000
  const PAIRING_WINDOW_MAX_FAILURES := 5

  type ConnectionId(==, !new)

  datatype Window = Window(deadline: Option<int>, owner: Option<ConnectionId>, failures: nat)

  const CLOSED := Window(None, None, 0)

  predicate IsOpen(w: Window, now: int) { w.deadline.Some? && now < w.deadline.value }

  predicate Admits(w: Window, c: ConnectionId, now: int) { IsOpen(w, now) && (w.owner.None? || w.owner == Some(c)) }

  function Opened(w: Window, now: int): Window {
    if IsOpen(w, now) then w else Window(Some(now + PAIRING_WINDOW_LIFETIME_MS), None, 0)
  }

  function Claimed(w: Window, c: ConnectionId, now: int): Window {
    if Admits(w, c, now) then w.(owner := Some(c)) else w
  }

  function Attempted(w: Window, c: ConnectionId, paired: bool): Window {
    if w.owner != Some(c) then w
    else
      var failures := if paired then w.failures else w.failures + 1;
      if paired || failures >= PAIRING_WINDOW_MAX_FAILURES then CLOSED else w.(failures := failures)
  }

  class PairingWindowState {
    var deadline: Option<int>
    var owner: Option<ConnectionId>
    var failures: nat

    ghost function AsWindow(): Window reads this { Window(deadline, owner, failures) }

    method OpenPairingWindow(now: int)
      modifies this
      ensures AsWindow() == Opened(old(AsWindow()), now)
    {
      if deadline.Some? && now < deadline.value { return; }
      ClosePairingWindow();
      deadline := Some(now + PAIRING_WINDOW_LIFETIME_MS);
    }

    method ClaimPairingWindow(c: ConnectionId, now: int) returns (claimed: bool)
      modifies this
      ensures claimed == Admits(old(AsWindow()), c, now)
      ensures AsWindow() == Claimed(old(AsWindow()), c, now)
    {
      if !Admits(Window(deadline, owner, failures), c, now) { return false; }
      owner := Some(c);
      return true;
    }

    method RecordAttempt(c: ConnectionId, paired: bool)
      modifies this
      ensures AsWindow() == Attempted(old(AsWindow()), c, paired)
    {
      if owner != Some(c) { return; }
      if !paired { failures := failures + 1; }
      if paired || failures >= PAIRING_WINDOW_MAX_FAILURES { ClosePairingWindow(); }
    }

    method ClosePairingWindow()
      modifies this
      ensures AsWindow() == CLOSED
    {
      deadline, owner, failures := None, None, 0;
    }
  }

  // ---------------------------------------------------------------- runs

  datatype Step =
    | Open(now: int)
    | Claim(connection: ConnectionId, now: int)
    | Attempt(connection: ConnectionId, paired: bool)
    | Close

  /** What happened under which window, windows numbered as the operator opens them. */
  datatype Event =
    | Began(window: nat, at: int)
    | Bound(window: nat, connection: ConnectionId, at: int)
    | Failed(window: nat)
    | Paired(window: nat)
    | Ended(window: nat)  // closed by the operator, or with its connection

  datatype Log = Log(window: Window, number: nat, events: seq<Event>)

  function Logged(l: Log, step: Step): Log {
    match step
    case Open(now) =>
      if IsOpen(l.window, now) then Log(Opened(l.window, now), l.number, l.events)
      else Log(Opened(l.window, now), l.number + 1, l.events + [Began(l.number + 1, now)])
    case Claim(c, now) =>
      Log(Claimed(l.window, c, now), l.number,
        if Admits(l.window, c, now) then l.events + [Bound(l.number, c, now)] else l.events)
    case Attempt(c, paired) =>
      Log(Attempted(l.window, c, paired), l.number,
        if l.window.owner != Some(c) then l.events
        else l.events + [if paired then Paired(l.number) else Failed(l.number)])
    case Close => Log(CLOSED, l.number, l.events + [Ended(l.number)])
  }

  function Run(steps: seq<Step>): Log {
    if steps == [] then Log(CLOSED, 0, []) else Logged(Run(steps[..|steps| - 1]), steps[|steps| - 1])
  }

  function Failures(events: seq<Event>, number: nat): nat {
    if events == [] then 0
    else Failures(events[..|events| - 1], number) + (if events[|events| - 1] == Failed(number) then 1 else 0)
  }

  /** Each window was bound to one connection only. */
  predicate OneConnectionEach(events: seq<Event>) {
    forall i, j :: 0 <= i < |events| && 0 <= j < |events| ==> Agree(events[i], events[j])
  }

  predicate Agree(a: Event, b: Event) { a.Bound? && b.Bound? && a.window == b.window ==> a.connection == b.connection }

  /** No window number beyond the current one occurs. */
  predicate UpTo(events: seq<Event>, number: nat) { forall i :: 0 <= i < |events| ==> events[i].window <= number }

  ghost predicate Kept(l: Log) {
    && OneConnectionEach(l.events)
    && UpTo(l.events, l.number)
    && (forall n :: Failures(l.events, n) <= PAIRING_WINDOW_MAX_FAILURES)
    && l.window.failures < PAIRING_WINDOW_MAX_FAILURES
    && (l.window.deadline.Some? ==> Failures(l.events, l.number) == l.window.failures)
    && (l.window.deadline.None? ==> l.window == CLOSED)
    && (l.window.owner.None? ==> l.window.failures == 0)
    && (l.window.deadline.Some? ==> forall e :: e in l.events && e.Bound? && e.window == l.number ==>
      l.window.owner == Some(e.connection))
  }

  lemma FailuresAppend(events: seq<Event>, e: Event, n: nat)
    ensures Failures(events + [e], n) == Failures(events, n) + (if e == Failed(n) then 1 else 0)
  {
    assert (events + [e])[..|events|] == events;
  }

  lemma {:induction false} NoFailuresAhead(events: seq<Event>, number: nat, n: nat)
    requires UpTo(events, number) && n > number
    ensures Failures(events, n) == 0
    decreases |events|
  {
    if events != [] { NoFailuresAhead(events[..|events| - 1], number, n); }
  }

  lemma StepKeeps(l: Log, step: Step)
    requires Kept(l)
    ensures Kept(Logged(l, step))
  {
    match step
    case Open(now) =>
      if !IsOpen(l.window, now) { NoFailuresAhead(l.events, l.number, l.number + 1); }
    case Claim(c, now) => ClaimKeeps(l, c, now);
    case Attempt(c, paired) => AttemptKeeps(l, c, paired);
    case Close =>
  }

  lemma ClaimKeeps(l: Log, c: ConnectionId, now: int)
    requires Kept(l)
    ensures Kept(Logged(l, Claim(c, now)))
  {
    if Admits(l.window, c, now) {
      forall n ensures Failures(l.events + [Bound(l.number, c, now)], n) == Failures(l.events, n) {
        FailuresAppend(l.events, Bound(l.number, c, now), n);
      }
    }
  }

  lemma AttemptKeeps(l: Log, c: ConnectionId, paired: bool)
    requires Kept(l)
    ensures Kept(Logged(l, Attempt(c, paired)))
  {
    if l.window.owner == Some(c) && !paired {
      forall n
        ensures Failures(l.events + [Failed(l.number)], n)
          == Failures(l.events, n) + (if n == l.number then 1 else 0)
      {
        FailuresAppend(l.events, Failed(l.number), n);
      }
    }
  }

  /** Over every run each window serves one connection and records at most five failures. */
  lemma {:induction false} WindowsBounded(steps: seq<Step>)
    ensures Kept(Run(steps))
    decreases |steps|
  {
    if steps != [] {
      WindowsBounded(steps[..|steps| - 1]);
      StepKeeps(Run(steps[..|steps| - 1]), steps[|steps| - 1]);
    }
  }

  // ---------------------------------------------------------------- when a window is over

  predicate Closing(e: Event) { e.Paired? || e.Ended? }

  ghost predicate NotClosed(events: seq<Event>, number: nat) {
    forall e :: e in events && Closing(e) ==> e.window != number
  }

  /** What was still true of a window when the event happened. */
  ghost predicate InTime(events: seq<Event>, e: Event) {
    match e
    case Began(number, _) => forall other :: other in events && !other.Ended? ==> other.window != number
    case Bound(number, _, at) =>
      && NotClosed(events, number) && Failures(events, number) < PAIRING_WINDOW_MAX_FAILURES
      && forall began :: began in events && began.Began? && began.window == number ==> at < began.at + 300_000
    case Failed(number) => NotClosed(events, number) && Failures(events, number) < PAIRING_WINDOW_MAX_FAILURES
    case Paired(number) => NotClosed(events, number) && Failures(events, number) < PAIRING_WINDOW_MAX_FAILURES
    case Ended(_) => true
  }

  ghost predicate AllInTime(events: seq<Event>) {
    forall i :: 0 <= i < |events| ==> InTime(events[..i], events[i])
  }

  ghost predicate Timely(l: Log) {
    && AllInTime(l.events)
    && (l.window.deadline.Some? ==> NotClosed(l.events, l.number))
    && (l.window.deadline.Some? ==>
         forall e :: e in l.events && e.Began? && e.window == l.number ==> l.window.deadline.value == e.at + 300_000)
  }

  lemma OneMoreInTime(events: seq<Event>, e: Event)
    requires AllInTime(events) && InTime(events, e)
    ensures AllInTime(events + [e])
  {
    var longer := events + [e];
    forall i | 0 <= i < |longer| ensures InTime(longer[..i], longer[i]) {
      if i < |events| {
        assert longer[..i] == events[..i];
      } else {
        assert longer[..i] == events;
      }
    }
  }

  lemma NewEventInTime(l: Log, step: Step)
    requires Kept(l) && Timely(l)
    ensures
      var events := Logged(l, step).events;
      events == l.events || (|events| == |l.events| + 1 && events[..|l.events|] == l.events
                             && InTime(l.events, events[|l.events|]))
  {
    forall other | other in l.events ensures other.window <= l.number {
      var i :| 0 <= i < |l.events| && l.events[i] == other;
    }
  }

  lemma StepTimely(l: Log, step: Step)
    requires Kept(l) && Timely(l)
    ensures Timely(Logged(l, step))
  {
    var next := Logged(l, step);
    NewEventInTime(l, step);
    if next.events != l.events {
      assert next.events == l.events + [next.events[|l.events|]];
      OneMoreInTime(l.events, next.events[|l.events|]);
    }
  }

  /**
   A pairing closes its window, and so does the fifth failure, an operator and its five minutes: over
   every run nothing is admitted or recorded under a window after that.
   */
  lemma {:induction false} ClosedWindowsStayClosed(steps: seq<Step>)
    ensures Timely(Run(steps))
    decreases |steps|
  {
    if steps != [] {
      WindowsBounded(steps[..|steps| - 1]);
      ClosedWindowsStayClosed(steps[..|steps| - 1]);
      StepTimely(Run(steps[..|steps| - 1]), steps[|steps| - 1]);
    }
  }

  /** Until then it admits: any connection for five minutes, then the one it is bound to, for four failures. */
  lemma OpenWindowAdmits(w: Window, now: int, c: ConnectionId, d: ConnectionId, at: int)
    ensures !IsOpen(w, now) ==> (Admits(Opened(w, now), c, at) <==> at < now + 300_000)
    ensures IsOpen(w, now) ==> Opened(w, now) == w
    ensures Admits(w, c, now) ==> (Admits(Claimed(w, c, now), d, at) <==> d == c && IsOpen(w, at))
    ensures !Admits(w, c, now) ==> Claimed(w, c, now) == w
    ensures w.failures < 4 || w.owner != Some(c) ==> (Admits(Attempted(w, c, false), d, at) <==> Admits(w, d, at))
    ensures !Admits(CLOSED, c, at)
  {
  }
}

/**
 The end of a pairing: the client sends its new key, the server stores and acknowledges it, and only then
 does the client persist it. Attempts supersede each other over one ordered connection, and either side may
 stop, or the connection be lost, at any point. Messages before the finalize are left out, but for the init.
 */
module PairingFinalize {
  import opened Common

  type Psk(==, !new)

  // A message knows the attempt it was sent in, but only an init says so to its receiver.
  datatype ToServer = Init(attempt: nat) | Finalize(attempt: nat, psk: Psk)
  datatype ToClient = Activate(attempt: nat) | Ack(attempt: nat)

  datatype ClientPhase = Idle | Started | Awaiting(psk: Psk)
  datatype ServerPhase = Done | AwaitInit | AwaitFinalize | Stored

  datatype World = World(
    attempt: nat,                // the server's latest attempt
    serverPhase: ServerPhase,
    clientAttempt: nat,
    clientPhase: ClientPhase,
    toServer: seq<ToServer>,
    toClient: seq<ToClient>,
    sent: map<nat, Psk>,         // the key the client sent in each attempt
    stored: set<Psk>,            // every key the server ever stored for the client
    persisted: set<Psk>)         // every key the client ever persisted

  const INITIAL := World(0, Done, 0, Idle, [], [], map[], {}, {})

  datatype Step =
    | ServerActivates
    | ServerReceives(reused: bool)  // whether the key is the Sentinel or the pairing key
    | ServerAcks
    | ServerStops
    | ClientReceives
    | ClientFinalizes(psk: Psk)
    | ClientStops
    | Lost

  /** Losing the connection ends both sides' attempts and everything in flight. */
  function Cut(w: World): World {
    w.(serverPhase := Done, clientAttempt := w.attempt, clientPhase := Idle, toServer := [], toClient := [])
  }

  predicate Enabled(w: World, step: Step) {
    match step
    // The commit runs to its end before a cancel takes effect.
    case ServerActivates => !w.serverPhase.Stored?
    case ServerReceives(_) => w.toServer != [] && (w.serverPhase.AwaitInit? || w.serverPhase.AwaitFinalize?)
    case ServerAcks => w.serverPhase.Stored?
    case ServerStops => !w.serverPhase.Stored?
    case ClientReceives => w.toClient != []
    case ClientFinalizes(_) => w.clientPhase.Started?
    case ClientStops => true
    case Lost => true
  }

  function ServerReceived(w: World, reused: bool): World
    requires w.toServer != []
  {
    var m, rest := w.toServer[0], w.(toServer := w.toServer[1..]);
    if w.serverPhase.AwaitInit? then
      // Leftovers of superseded attempts are discarded.
      if m.Init? && m.attempt == w.attempt then rest.(serverPhase := AwaitFinalize)
      else if m.Init? && m.attempt > w.attempt then Cut(w)
      else rest
    else if m.Init? || reused then Cut(w)
    else rest.(serverPhase := Stored, stored := w.stored + {m.psk})
  }

  function ClientReceived(w: World): World
    requires w.toClient != []
  {
    var m, rest := w.toClient[0], w.(toClient := w.toClient[1..]);
    match m
    case Activate(k) => rest.(clientAttempt := k, clientPhase := Started, toServer := w.toServer + [Init(k)])
    case Ack(_) =>
      match w.clientPhase
      case Idle => rest
      case Started => Cut(w)
      case Awaiting(psk) => rest.(clientPhase := Idle, persisted := w.persisted + {psk})
  }

  function Next(w: World, step: Step): World
    requires Enabled(w, step)
  {
    match step
    case ServerActivates =>
      w.(attempt := w.attempt + 1, serverPhase := AwaitInit, toClient := w.toClient + [Activate(w.attempt + 1)])
    case ServerReceives(reused) => ServerReceived(w, reused)
    case ServerAcks => w.(serverPhase := Done, toClient := w.toClient + [Ack(w.attempt)])
    case ServerStops => w.(serverPhase := Done)
    case ClientReceives => ClientReceived(w)
    case ClientFinalizes(psk) =>
      w.(clientPhase := Awaiting(psk), sent := w.sent[w.clientAttempt := psk],
         toServer := w.toServer + [Finalize(w.clientAttempt, psk)])
    case ClientStops => w.(clientPhase := Idle)
    case Lost => Cut(w)
  }

  // ---------------------------------------------------------------- what every run keeps

  /** An acknowledged attempt is one whose key the server stored. */
  predicate Acknowledged(sent: map<nat, Psk>, stored: set<Psk>, attempt: nat) {
    attempt in sent && sent[attempt] in stored
  }

  /**
   On its way to a client in attempt `from`: activations in order up to the server's attempt, and acks of
   the attempt they follow.
   */
  predicate InOrder(sent: map<nat, Psk>, stored: set<Psk>, from: nat, messages: seq<ToClient>, last: nat)
    decreases |messages|
  {
    if messages == [] then from == last
    else
      match messages[0]
      case Activate(k) => from < k && InOrder(sent, stored, k, messages[1..], last)
      case Ack(k) => k == from && Acknowledged(sent, stored, k) && InOrder(sent, stored, from, messages[1..], last)
  }

  /** On its way to the server: a message of an attempt the client has reached, with the key it sent. */
  predicate ServerBound(w: World, m: ToServer) {
    m.attempt <= w.clientAttempt && (m.Finalize? ==> m.attempt in w.sent && w.sent[m.attempt] == m.psk)
  }

  predicate Ascending(messages: seq<ToServer>) {
    forall i, j :: 0 <= i < j < |messages| ==> messages[i].attempt <= messages[j].attempt
  }

  predicate Sound(w: World) {
    && w.clientAttempt <= w.attempt
    && InOrder(w.sent, w.stored, w.clientAttempt, w.toClient, w.attempt)
    && (forall m :: m in w.toServer ==> ServerBound(w, m))
    && (w.serverPhase.AwaitFinalize? ==> w.clientAttempt == w.attempt)
    && (w.serverPhase.AwaitFinalize? ==> forall m :: m in w.toServer ==> m.attempt == w.attempt)
    && Ascending(w.toServer)
    && (w.serverPhase.Stored? ==> Acknowledged(w.sent, w.stored, w.attempt))
    && (w.clientPhase.Awaiting? ==> w.clientAttempt in w.sent && w.sent[w.clientAttempt] == w.clientPhase.psk)
    && (w.clientPhase.Started? ==> w.clientAttempt !in w.sent)
    && (forall k :: k in w.sent ==> k <= w.clientAttempt)
    && w.persisted <= w.stored
  }

  lemma {:induction false} InOrderAppend(sent: map<nat, Psk>, stored: set<Psk>, from: nat, messages: seq<ToClient>,
      last: nat, m: ToClient)
    requires InOrder(sent, stored, from, messages, last)
    requires m.Activate? ==> m.attempt > last
    requires m.Ack? ==> m.attempt == last && Acknowledged(sent, stored, last)
    ensures InOrder(sent, stored, from, messages + [m], m.attempt)
    decreases |messages|
  {
    if messages == [] {
      assert (messages + [m])[1..] == [];
    } else {
      assert (messages + [m])[1..] == messages[1..] + [m];
      InOrderAppend(sent, stored, if messages[0].Activate? then messages[0].attempt else from, messages[1..], last, m);
    }
  }

  lemma {:induction false} InOrderGrows(
    sent: map<nat, Psk>, stored: set<Psk>, more: map<nat, Psk>, larger: set<Psk>, from: nat, messages: seq<ToClient>,
      last: nat)
    requires InOrder(sent, stored, from, messages, last)
    requires stored <= larger && forall k :: k in sent ==> k in more && more[k] == sent[k]
    ensures InOrder(more, larger, from, messages, last)
    decreases |messages|
  {
    if messages != [] {
      var start := if messages[0].Activate? then messages[0].attempt else from;
      InOrderGrows(sent, stored, more, larger, start, messages[1..], last);
    }
  }

  lemma CutSound(w: World)
    requires Sound(w)
    ensures Sound(Cut(w))
  {
  }

  lemma AscendingTail(messages: seq<ToServer>)
    requires messages != [] && Ascending(messages)
    ensures Ascending(messages[1..])
    ensures forall x :: x in messages[1..] ==> x in messages && messages[0].attempt <= x.attempt
  {
    forall x | x in messages[1..] ensures x in messages && messages[0].attempt <= x.attempt {
      var i :| 0 <= i < |messages[1..]| && messages[1..][i] == x;
      assert messages[i + 1] == x;
    }
  }

  lemma AscendingAppend(messages: seq<ToServer>, m: ToServer)
    requires Ascending(messages) && forall x :: x in messages ==> x.attempt <= m.attempt
    ensures Ascending(messages + [m])
  {
  }

  lemma ServerReceivesSound(w: World, reused: bool)
    requires Sound(w) && Enabled(w, ServerReceives(reused))
    ensures Sound(ServerReceived(w, reused))
  {
    var m := w.toServer[0];
    InOrderBounded(w.sent, w.stored, w.clientAttempt, w.toClient, w.attempt);
    AscendingTail(w.toServer);
    assert ServerBound(w, m);
    if w.serverPhase.AwaitInit? {
      if m.Init? && m.attempt == w.attempt {
        forall x | x in w.toServer[1..] ensures x.attempt == w.attempt { assert ServerBound(w, x); }
      }
    } else if !m.Init? && !reused {
      InOrderGrows(w.sent, w.stored, w.sent, w.stored + {m.psk}, w.clientAttempt, w.toClient, w.attempt);
    }
  }

  lemma ClientReceivesSound(w: World)
    requires Sound(w) && w.toClient != []
    ensures Sound(ClientReceived(w))
  {
    InOrderBounded(w.sent, w.stored, w.clientAttempt, w.toClient, w.attempt);
    var m := w.toClient[0];
    if m.Activate? {
      forall x | x in w.toServer ensures x.attempt <= w.clientAttempt { assert ServerBound(w, x); }
      AscendingAppend(w.toServer, Init(m.attempt));
    }
  }

  lemma {:induction false} InOrderBounded(sent: map<nat, Psk>, stored: set<Psk>, from: nat, messages: seq<ToClient>,
      last: nat)
    requires InOrder(sent, stored, from, messages, last)
    ensures from <= last
    ensures messages != [] && messages[0].Activate? ==> messages[0].attempt <= last
    decreases |messages|
  {
    if messages != [] {
      InOrderBounded(sent, stored, if messages[0].Activate? then messages[0].attempt else from, messages[1..], last);
    }
  }

  lemma ClientFinalizesSound(w: World, psk: Psk)
    requires Sound(w) && w.clientPhase.Started?
    ensures Sound(Next(w, ClientFinalizes(psk)))
  {
    InOrderGrows(w.sent, w.stored, w.sent[w.clientAttempt := psk], w.stored, w.clientAttempt, w.toClient, w.attempt);
    forall x | x in w.toServer ensures x.attempt <= w.clientAttempt { assert ServerBound(w, x); }
    AscendingAppend(w.toServer, Finalize(w.clientAttempt, psk));
  }

  lemma StepKeepsSound(w: World, step: Step)
    requires Sound(w) && Enabled(w, step)
    ensures Sound(Next(w, step))
  {
    match step
    case ServerActivates =>
      InOrderAppend(w.sent, w.stored, w.clientAttempt, w.toClient, w.attempt, Activate(w.attempt + 1));
    case ServerReceives(reused) => ServerReceivesSound(w, reused);
    case ServerAcks => InOrderAppend(w.sent, w.stored, w.clientAttempt, w.toClient, w.attempt, Ack(w.attempt));
    case ClientReceives => ClientReceivesSound(w);
    case ClientFinalizes(psk) => ClientFinalizesSound(w, psk);
    case Lost => CutSound(w);
    case _ =>
  }

  function Run(steps: seq<Step>): Option<World> {
    if steps == [] then Some(INITIAL)
    else
      var before, step := Run(steps[..|steps| - 1]), steps[|steps| - 1];
      if before.Some? && Enabled(before.value, step) then Some(Next(before.value, step)) else None
  }

  /**
   Whatever is superseded, stopped or lost, and whenever: every key the client persisted is one the
   server had stored.
   */
  lemma {:induction false} PersistedWasStored(steps: seq<Step>)
    requires Run(steps).Some?
    ensures Sound(Run(steps).value)
    ensures Run(steps).value.persisted <= Run(steps).value.stored
    decreases |steps|
  {
    if steps != [] {
      PersistedWasStored(steps[..|steps| - 1]);
      StepKeepsSound(Run(steps[..|steps| - 1]).value, steps[|steps| - 1]);
    }
  }

  // ---------------------------------------------------------------- and they all complete

  predicate Undisturbed(step: Step) {
    match step
    case ServerReceives(reused) => !reused
    case ServerAcks => true
    case ClientReceives => true
    case ClientFinalizes(_) => true
    case _ => false
  }

  /** How far the server's latest attempt got on its way to a key on both sides. */
  ghost predicate Completing(w: World) {
    var a := w.attempt;
    && Sound(w)
    && match w.serverPhase
       case AwaitInit =>
         if w.toClient != [] then w.clientAttempt < a && w.toClient[|w.toClient| - 1] == Activate(a)
         else
           && w.clientAttempt == a
           && !w.clientPhase.Idle? && EndsWith(w.toServer, Announced(w), a)
       case AwaitFinalize =>
         && w.clientAttempt == a && w.toClient == []
         && (match w.clientPhase
             case Idle => false
             case Started => w.toServer == []
             case Awaiting(psk) => w.toServer == [Finalize(a, psk)])
       case Stored => w.clientAttempt == a && w.clientPhase.Awaiting? && w.toServer == [] && w.toClient == []
       case Done =>
         && w.clientAttempt == a && w.toServer == []
         && (Completed(w) || (w.clientPhase.Awaiting? && w.toClient == [Ack(a)]))
  }

  /** What the client sent in the latest attempt. */
  function Announced(w: World): seq<ToServer> {
    [Init(w.attempt)] + if w.clientPhase.Awaiting? then [Finalize(w.attempt, w.clientPhase.psk)] else []
  }

  /** Leftovers of earlier attempts, then `tail`. */
  predicate EndsWith(messages: seq<ToServer>, tail: seq<ToServer>, attempt: nat) {
    && |messages| >= |tail| && messages[|messages| - |tail|..] == tail
    && forall i :: 0 <= i < |messages| - |tail| ==> messages[i].attempt < attempt
  }

  /** The key of the latest attempt is stored and persisted, and nothing is in flight. */
  predicate Completed(w: World) {
    && w.attempt in w.sent && w.sent[w.attempt] in w.stored && w.sent[w.attempt] in w.persisted
    && w.serverPhase.Done? && w.clientPhase.Idle? && w.toServer == [] && w.toClient == []
  }

  /** An undisturbed step shortens what is left: an activation brings an init and a key, a key an ack. */
  function Left(w: World): nat {
    LeftForClient(w.toClient) + 3 * |w.toServer|
      + (if w.clientPhase.Started? then 4 else 0) + (if w.serverPhase.Stored? then 2 else 0)
  }

  function LeftForClient(messages: seq<ToClient>): nat {
    if messages == [] then 0 else (if messages[0].Activate? then 8 else 1) + LeftForClient(messages[1..])
  }

  lemma ActivationCompletes(w: World)
    requires Sound(w) && Enabled(w, ServerActivates)
    ensures Completing(Next(w, ServerActivates))
  {
    StepKeepsSound(w, ServerActivates);
    InOrderBounded(w.sent, w.stored, w.clientAttempt, w.toClient, w.attempt);
  }

  lemma ClientReceivesCompletes(w: World)
    requires Completing(w) && w.toClient != []
    ensures Completing(ClientReceived(w)) && Left(ClientReceived(w)) < Left(w)
  {
    ClientReceivesSound(w);
    var m, a, after := w.toClient[0], w.attempt, ClientReceived(w);
    // An ack answers a key, so it finds no attempt waiting for one.
    assert m.Ack? ==> !w.clientPhase.Started?;
    if w.serverPhase.AwaitInit? {
      if |w.toClient| == 1 {
        forall i | 0 <= i < |w.toServer| ensures w.toServer[i].attempt < a { assert w.toServer[i] in w.toServer; }
      } else {
        assert after.toClient[|after.toClient| - 1] == Activate(a);
        ActivationAhead(after.sent, after.stored, after.clientAttempt, after.toClient, a);
      }
    }
  }

  lemma {:induction false} ActivationAhead(sent: map<nat, Psk>, stored: set<Psk>, from: nat, messages: seq<ToClient>,
      last: nat)
    requires InOrder(sent, stored, from, messages, last)
    requires messages != [] && messages[|messages| - 1].Activate?
    ensures from < last
    decreases |messages|
  {
    var start := if messages[0].Activate? then messages[0].attempt else from;
    if |messages| > 1 { ActivationAhead(sent, stored, start, messages[1..], last); }
  }

  lemma ServerReceivesCompletes(w: World)
    requires Completing(w) && Enabled(w, ServerReceives(false))
    ensures Completing(ServerReceived(w, false)) && Left(ServerReceived(w, false)) < Left(w)
  {
    ServerReceivesSound(w, false);
    assert ServerBound(w, w.toServer[0]);
    if w.serverPhase.AwaitFinalize? {
      assert w.toServer == [Finalize(w.attempt, w.clientPhase.psk)];
    } else if w.toClient == [] {
      if w.toServer[0].attempt < w.attempt { LeftoverDiscarded(w); } else { InitAccepted(w); }
    } else {
      assert ServerReceived(w, false) == w.(toServer := w.toServer[1..]);
    }
  }

  lemma InitAccepted(w: World)
    requires Completing(w) && w.serverPhase.AwaitInit? && w.toClient == []
    requires w.toServer != [] && w.toServer[0].attempt == w.attempt
    requires Sound(ServerReceived(w, false))
    ensures ServerReceived(w, false) == w.(toServer := w.toServer[1..], serverPhase := AwaitFinalize)
    ensures Completing(ServerReceived(w, false))
  {
    assert w.toServer == Announced(w);
  }

  lemma LeftoverDiscarded(w: World)
    requires Completing(w) && w.serverPhase.AwaitInit? && w.toClient == []
    requires w.toServer != [] && w.toServer[0].attempt < w.attempt
    requires Sound(ServerReceived(w, false))
    ensures ServerReceived(w, false) == w.(toServer := w.toServer[1..])
    ensures Completing(ServerReceived(w, false))
  {
    EndsWithTail(w.toServer, Announced(w), w.attempt);
  }

  lemma EndsWithTail(messages: seq<ToServer>, tail: seq<ToServer>, attempt: nat)
    requires EndsWith(messages, tail, attempt) && messages != [] && messages[0].attempt < attempt
    requires tail != [] && tail[0].attempt == attempt
    ensures EndsWith(messages[1..], tail, attempt)
  {
    assert messages[|messages| - |tail|] == tail[0];
    assert messages[1..][|messages| - 1 - |tail|..] == messages[|messages| - |tail|..];
  }

  lemma ClientFinalizesCompletes(w: World, psk: Psk)
    requires Completing(w) && Enabled(w, ClientFinalizes(psk))
    ensures Completing(Next(w, ClientFinalizes(psk))) && Left(Next(w, ClientFinalizes(psk))) < Left(w)
  {
    ClientFinalizesSound(w, psk);
    var n, after := |w.toServer|, Next(w, ClientFinalizes(psk));
    if w.serverPhase.AwaitInit? && w.toClient == [] {
      assert w.toServer[n - 1..] == [Init(w.attempt)];
      assert after.toServer[n - 1..] == w.toServer[n - 1..] + [Finalize(w.attempt, psk)];
    }
  }

  lemma UndisturbedCompletes(w: World, step: Step)
    requires Completing(w) && Undisturbed(step) && Enabled(w, step)
    ensures Completing(Next(w, step)) && Left(Next(w, step)) < Left(w) && Next(w, step).attempt == w.attempt
  {
    match step
    case ServerReceives(reused) => ServerReceivesCompletes(w);
    case ServerAcks =>
      StepKeepsSound(w, ServerAcks);
      assert LeftForClient([Ack(w.attempt)]) == 1;
      assert Next(w, ServerAcks).toClient == [Ack(w.attempt)];
    case ClientReceives => ClientReceivesCompletes(w);
    case ClientFinalizes(psk) => ClientFinalizesCompletes(w, psk);
  }

  /** Either side may stop, and a new attempt begin, at any point of any run; a commit under way ends first. */
  lemma InterruptedAnywhere(steps: seq<Step>, interruption: Step)
    requires Run(steps).Some?
    requires interruption in {ServerActivates, ServerStops, ClientStops, Lost}
    ensures Run(steps + [interruption]).Some? || Run(steps + [ServerAcks, interruption]).Some?
    ensures interruption == ClientStops || interruption == Lost ==> Run(steps + [interruption]).Some?
    ensures
      var lost := Run(steps + [Lost]).value;
      lost.serverPhase.Done? && lost.clientPhase.Idle? && lost.toServer == [] && lost.toClient == []
  {
    OneMoreStep(steps, Lost);
    OneMoreStep(steps, interruption);
    OneMoreStep(steps, ServerAcks);
    if Run(steps).value.serverPhase.Stored? {
      OneMoreStep(steps + [ServerAcks], interruption);
      assert steps + [ServerAcks] + [interruption] == steps + [ServerAcks, interruption];
    }
  }

  lemma OneMoreStep(steps: seq<Step>, step: Step)
    requires Run(steps).Some?
    ensures Run(steps + [step]) == if Enabled(Run(steps).value, step) then Some(Next(Run(steps).value, step)) else None
  {
    assert (steps + [step])[..|steps|] == steps;
  }

  /** A new attempt, then steps that neither stop, supersede nor lose it, nor send a key the server refuses. */
  ghost predicate Resumes(steps: seq<Step>, more: seq<Step>) {
    && Run(steps).Some? && Run(steps + [ServerActivates] + more).Some?
    && forall i :: 0 <= i < |more| ==> Undisturbed(more[i])
  }

  lemma {:induction false} CompletesFrom(steps: seq<Step>, more: seq<Step>)
    requires Resumes(steps, more)
    ensures Run(steps + [ServerActivates]).Some? && Completing(Run(steps + [ServerActivates] + more).value)
    ensures Left(Run(steps + [ServerActivates] + more).value) + |more| <= Left(Run(steps + [ServerActivates]).value)
    decreases |more|
  {
    var start := steps + [ServerActivates];
    if more == [] {
      assert start + more == start && start[..|start| - 1] == steps;
      PersistedWasStored(steps);
      ActivationCompletes(Run(steps).value);
    } else {
      var front, last := more[..|more| - 1], more[|more| - 1];
      assert (start + more)[..|start + more| - 1] == start + front;
      CompletesFrom(steps, front);
      UndisturbedCompletes(Run(start + front).value, last);
    }
  }

  /**
   After any history, leftovers of superseded attempts still in flight or not, a new attempt completes by
   itself: however its steps interleave there are boundedly many, and when none is left the server has
   stored and the client persisted the key sent in it.
   */
  lemma AttemptCompletes(steps: seq<Step>, more: seq<Step>, psk: Psk)
    requires Resumes(steps, more)
    ensures Run(steps + [ServerActivates]).Some?
    ensures |more| <= Left(Run(steps + [ServerActivates]).value)
    ensures
      var w := Run(steps + [ServerActivates] + more).value;
      || Completed(w)
      || Enabled(w, ServerReceives(false)) || Enabled(w, ServerAcks) || Enabled(w, ClientReceives)
      || Enabled(w, ClientFinalizes(psk))
  {
    CompletesFrom(steps, more);
  }
}
