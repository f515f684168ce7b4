/**
 The scheduled-state protocol end to end: a server, in-order channels and clients on one shared
 clock, under any interleaving of sets, cancels, reads, joins, leaves, timers, deliveries and
 clock steps.
 */
module ScheduledProtocol {
  import opened Common
  import opened ScheduledState

  /** What a client holds of the role: its current state and at most one pending message. */
  datatype Client = Client(current: Option<State>, pending: Option<Msg>)

  datatype Member = Member(role: Role, client: Client, queue: seq<Msg>)

  datatype World = World(server: Server, members: map<nat, Member>, now: int)

  // ---------------------------------------------------------------- one client

  /** A message discards the pending state; a future one becomes pending, any other one current. */
  function Receive(c: Client, msg: Msg, capable: bool, now: int): Client {
    if capable && msg.ts > now then Client(c.current, Some(msg)) else Client(msg.state, None)
  }

  /** The client's own timer: a pending state whose time has come becomes current. */
  function Elapse(c: Client, now: int): Client {
    if c.pending.Some? && c.pending.value.ts <= now then Client(c.pending.value.state, None) else c
  }

  /** The client once everything in flight is delivered at `now`. */
  function DeliverAll(c: Client, queue: seq<Msg>, capable: bool, now: int): Client
    decreases |queue|
  {
    if queue == [] then c
    else Receive(DeliverAll(c, queue[..|queue| - 1], capable, now), queue[|queue| - 1], capable, now)
  }

  /** What every schedule-capable member should hold: the current state, and the pending one once sent. */
  function Target(s: Server, now: int): Client {
    var p := Promote(s, now);
    Client(p.current, if p.pendingTs.Some? && p.sent then Some(Msg(p.pending, p.pendingTs.value)) else None)
  }

  /** The legacy timer has yet to hand over a state that is already due. */
  predicate Overdue(s: Server, now: int) { s.timer.DueAt? && s.timer.msg.ts <= now }

  ghost predicate Agrees(s: Server, m: Member, now: int) {
    if m.role.capable then DeliverAll(m.client, m.queue, true, now) == Target(s, now)
    else Overdue(s, now) || DeliverAll(m.client, m.queue, false, now) == Client(Target(s, now).current, None)
  }

  /** A client's timers are up to date, and a legacy client never holds anything back. */
  predicate Fresh(m: Member, now: int) {
    m.client.pending.Some? ==> m.role.capable && m.client.pending.value.ts > now
  }

  /** The timer always matches the pending state it was set for. */
  predicate TimerMatches(s: Server, now: int) {
    && (s.timer.SendAt? ==>
          && s.pendingTs.Some? && !s.sent && s.pendingTs.value > now
          && s.timer.at == s.pendingTs.value - MAX_SCHEDULED_LEAD_US)
    && (s.pendingTs.Some? && !s.sent ==> s.timer.SendAt?)
    && (s.timer.DueAt? ==>
          && s.sent
          && (if s.pendingTs.Some? then s.timer.msg == Msg(s.pending, s.pendingTs.value)
              else s.timer.msg.state == s.current && s.timer.msg.ts <= now))
    && (s.pendingTs.Some? && s.sent ==> s.timer.DueAt? || s.pendingTs.value <= now)
  }

  // ---------------------------------------------------------------- steps

  datatype Step =
    | SetState(state: Option<State>, ts: Option<int>)
    | CancelPending
    | Read
    | JoinMember(role: Role, client: Client)
    | LeaveMember(id: nat)
    | FireTimer
    | Deliver(id: nat)
    | Tick(now: int)

  /**
   When a step can happen. Timers never fire early. A send timer is not so late that the state it
   is to announce comes due first, which would take the loop more than 20 seconds.
   */
  predicate Enabled(w: World, step: Step) {
    match step
    case JoinMember(role, client) =>
      role.id !in w.members && Fresh(Member(role, client, []), w.now)
    case FireTimer => (w.server.timer.SendAt? ==> w.server.timer.at <= w.now)
                      && (w.server.timer.DueAt? ==> w.server.timer.msg.ts <= w.now)
    case Deliver(id) => id in w.members && w.members[id].queue != []
    case Tick(now) => w.now <= now && !(w.server.timer.SendAt? && Due(w.server, now))
    case _ => true
  }

  function Enqueue(m: Member, outs: seq<Out>): Member { m.(queue := m.queue + Route(outs, m.role)) }

  function After(w: World, e: Effect): World {
    World(e.server, map id | id in w.members :: Enqueue(w.members[id], e.outs), w.now)
  }

  function Next(w: World, step: Step): World
    requires Enabled(w, step)
  {
    match step
    case SetState(state, ts) => After(w, Set(w.server, state, ts, w.now))
    case CancelPending => After(w, Cancel(w.server, w.now))
    case Read => w.(server := Promote(w.server, w.now))
    case JoinMember(role, client) =>
      After(w.(members := w.members[role.id := Member(role, client, [])]), Join(w.server, role, w.now))
    case LeaveMember(id) => w.(members := w.members - {id})
    case FireTimer => After(w, Fire(w.server))
    case Deliver(id) =>
      var m := w.members[id];
      var client := Receive(m.client, m.queue[0], m.role.capable, w.now);
      w.(members := w.members[id := Member(m.role, client, m.queue[1..])])
    case Tick(now) =>
      World(w.server, map id | id in w.members :: w.members[id].(client := Elapse(w.members[id].client, now)), now)
  }

  /** Reading brings a due state into effect; leaving ends a membership and no other. */
  lemma ReadOrLeft(w: World, id: nat, other: nat)
    ensures Next(w, Read).server.current == ShownAt(w.server, w.now) && Next(w, Read).members == w.members
    ensures id !in Next(w, LeaveMember(id)).members
    ensures other != id ==> (other in w.members <==> other in Next(w, LeaveMember(id)).members)
    ensures other in Next(w, LeaveMember(id)).members ==>
      Next(w, LeaveMember(id)).members[other] == w.members[other]
  {
  }

  // ---------------------------------------------------------------- delivery algebra

  lemma DeliverOneMore(c: Client, queue: seq<Msg>, msg: Msg, capable: bool, now: int)
    ensures DeliverAll(c, queue + [msg], capable, now) == Receive(DeliverAll(c, queue, capable, now), msg, capable, now)
  {
    assert (queue + [msg])[..|queue|] == queue;
  }

  lemma {:induction false} DeliverFirst(c: Client, queue: seq<Msg>, capable: bool, now: int)
    requires queue != []
    ensures DeliverAll(c, queue, capable, now)
      == DeliverAll(Receive(c, queue[0], capable, now), queue[1..], capable, now)
    decreases |queue|
  {
    var n := |queue| - 1;
    if n == 0 {
      assert queue[..0] == [];
    } else {
      DeliverFirst(c, queue[..n], capable, now);
      assert queue[..n][1..] == queue[1..][..n - 1];
    }
  }

  /** The messages a client has yet to outlive: its pending one, then those in flight. */
  function Chain(m: Member): seq<Msg> {
    (if m.client.pending.Some? then [m.client.pending.value] else []) + m.queue
  }

  /** What a client shows at `now`: the latest message whose time has come, or what it showed before. */
  function Shown(chain: seq<Msg>, before: Option<State>, now: int): Option<State>
    decreases |chain|
  {
    if chain == [] then before
    else if chain[|chain| - 1].ts <= now then chain[|chain| - 1].state
    else Shown(chain[..|chain| - 1], before, now)
  }

  function Held(chain: seq<Msg>, now: int): Option<Msg> {
    if chain != [] && chain[|chain| - 1].ts > now then Some(chain[|chain| - 1]) else None
  }

  /** Delivering everything at `now` shows the latest due message of the chain, and holds a future last one. */
  lemma {:induction false} DeliverShows(c: Client, queue: seq<Msg>, now: int)
    requires c.pending.Some? ==> c.pending.value.ts > now
    ensures var chain := Chain(Member(Role(0, true), c, queue));
      DeliverAll(c, queue, true, now) == Client(Shown(chain, c.current, now), Held(chain, now))
    decreases |queue|
  {
    var chain := Chain(Member(Role(0, true), c, queue));
    if queue == [] {
      if c.pending.Some? {
        assert chain[..0] == [];
      }
    } else {
      var n := |queue| - 1;
      DeliverShows(c, queue[..n], now);
      assert chain[..|chain| - 1] == Chain(Member(Role(0, true), c, queue[..n]));
    }
  }

  // ---------------------------------------------------------------- overtaking

  /** Of the messages due by `later`, number `i` is the one sent last. */
  ghost predicate LastDue(chain: seq<Msg>, i: int, later: int) {
    && 0 <= i < |chain|
    && chain[i].ts <= later
    && forall j :: i < j < |chain| ==> chain[j].ts > later
  }

  /**
   Message `i` comes due between `now` and `later` although a later message supersedes it, and no
   message after it is due by then: the client, who has yet to receive its successor, shows it.
   */
  ghost predicate OvertakesAt(chain: seq<Msg>, now: int, later: int, i: nat) {
    i < |chain| - 1 && LastDue(chain, i, later) && now < chain[i].ts
  }

  lemma LastDueOfFront(chain: seq<Msg>, i: int, later: int)
    requires chain != [] && chain[|chain| - 1].ts > later
    ensures LastDue(chain, i, later) <==> LastDue(chain[..|chain| - 1], i, later)
  {
    var rest := chain[..|chain| - 1];
    assert forall j :: 0 <= j < |rest| ==> rest[j] == chain[j];
    if LastDue(rest, i, later) {
      assert chain[i] == rest[i];
      assert forall j :: i < j < |rest| ==> chain[j] == rest[j];
    }
  }

  /** What is shown later differs from before only by an overtaking message. */
  lemma {:induction false} ShownLater(chain: seq<Msg>, before: Option<State>, now: int, later: int)
    requires now <= later
    ensures Shown(chain, before, now) == Shown(chain, before, later)
      || exists i :: LastDue(chain, i, later) && now < chain[i].ts
    ensures forall i :: LastDue(chain, i, later) ==> Shown(chain, before, later) == chain[i].state
    decreases |chain|
  {
    if chain != [] {
      var n := |chain| - 1;
      var rest := chain[..n];
      ShownLater(rest, before, now, later);
      if chain[n].ts > later {
        forall i | LastDue(chain, i, later) ensures Shown(chain, before, later) == chain[i].state {
          LastDueOfFront(chain, i, later);
        }
        if Shown(rest, before, now) != Shown(rest, before, later) {
          var i :| LastDue(rest, i, later) && now < rest[i].ts;
          LastDueOfFront(chain, i, later);
        }
      } else if chain[n].ts > now {
        assert LastDue(chain, n, later);
      }
    }
  }

  lemma ElapsedChain(m: Member, later: int)
    ensures var c := Elapse(m.client, later);
      var chain, elapsed := Chain(m), Chain(m.(client := c));
      && Shown(elapsed, c.current, later) == Shown(chain, m.client.current, later)
      && Held(elapsed, later) == Held(chain, later)
  {
    var c := Elapse(m.client, later);
    if c != m.client {
      ConcatEmpty(m.queue);
      ShownPrefix(m.client.pending.value, m.queue, m.client.current, later);
    }
  }

  lemma {:induction false} ShownPrefix(first: Msg, rest: seq<Msg>, before: Option<State>, now: int)
    requires first.ts <= now
    ensures Shown([first] + rest, before, now) == Shown(rest, first.state, now)
    ensures Held([first] + rest, now) == Held(rest, now)
    decreases |rest|
  {
    if rest != [] {
      ShownPrefix(first, rest[..|rest| - 1], before, now);
      assert ([first] + rest)[..|rest|] == [first] + rest[..|rest| - 1];
    } else {
      assert ([first] + rest)[..0] == [];
    }
  }

  /** Whatever overtakes its successor by `later` carries the state that is current then. */
  ghost predicate HarmlessTick(s: Server, chain: seq<Msg>, now: int, later: int) {
    forall i: nat :: OvertakesAt(chain, now, later, i) ==> chain[i].state == Target(s, later).current
  }

  /** The message shown at `later` tells exactly whether an overtaking one is wrong. */
  lemma OvertakenShown(s: Server, chain: seq<Msg>, before: Option<State>, now: int, later: int)
    requires now <= later && Held(chain, later).Some?
    requires Shown(chain, before, now) == Target(s, later).current
    ensures Shown(chain, before, later) == Target(s, later).current <==> HarmlessTick(s, chain, now, later)
  {
    ShownLater(chain, before, now, later);
    if Shown(chain, before, later) != Shown(chain, before, now) {
      var i :| LastDue(chain, i, later) && now < chain[i].ts;
      assert OvertakesAt(chain, now, later, i);
    }
  }

  /** What an agreeing chain says of the server as the clock moves. */
  lemma TargetLater(s: Server, chain: seq<Msg>, before: Option<State>, now: int, later: int)
    requires now <= later && TimerMatches(s, now) && !(s.timer.SendAt? && Due(s, later))
    requires Target(s, now) == Client(Shown(chain, before, now), Held(chain, now))
    ensures Target(s, later).pending == Held(chain, later)
    ensures Target(s, later).current ==
      if Held(chain, later).Some? then Shown(chain, before, now) else Shown(chain, before, later)
  {
    if Held(chain, now) == None { NothingHeldShownForever(chain, before, now, later); }
  }

  lemma NothingHeldShownForever(chain: seq<Msg>, before: Option<State>, now: int, later: int)
    requires Held(chain, now) == None && now <= later
    ensures Shown(chain, before, later) == Shown(chain, before, now) && Held(chain, later) == None
  {
  }

  /**
   A clock step decides agreement exactly: a schedule-capable member that agreed still agrees
   unless a superseded state comes due while its replacement is in flight, and then it agrees only
   if that state happens to be the group's current one.
   */
  lemma TickAgreesIff(s: Server, m: Member, now: int, later: int)
    requires m.role.capable && Fresh(m, now) && now <= later
    requires TimerMatches(s, now) && !(s.timer.SendAt? && Due(s, later))
    requires Agrees(s, m, now)
    ensures var after := m.(client := Elapse(m.client, later));
      Agrees(s, after, later) <==> HarmlessTick(s, Chain(m), now, later)
  {
    var chain, before := Chain(m), m.client.current;
    DeliverShows(m.client, m.queue, now);
    ElapsedShows(m, later);
    TargetLater(s, chain, before, now, later);
    if Held(chain, later).Some? {
      OvertakenShown(s, chain, before, now, later);
    } else {
      assert forall i: nat :: !OvertakesAt(chain, now, later, i);
    }
  }

  lemma ElapsedShows(m: Member, later: int)
    ensures DeliverAll(Elapse(m.client, later), m.queue, true, later) ==
      Client(Shown(Chain(m), m.client.current, later), Held(Chain(m), later))
  {
    ElapsedChain(m, later);
    DeliverShows(Elapse(m.client, later), m.queue, later);
  }

  // ---------------------------------------------------------------- agreement over steps

  ghost predicate Agreement(w: World) {
    && TimerMatches(w.server, w.now)
    && forall id :: id in w.members ==>
         && w.members[id].role.id == id
         && Fresh(w.members[id], w.now)
         && Agrees(w.server, w.members[id], w.now)
  }

  /** No member is overtaken by a wrong state in this clock step. */
  ghost predicate Calm(w: World, step: Step) {
    step.Tick? ==> forall id :: id in w.members && w.members[id].role.capable ==>
      HarmlessTick(w.server, Chain(w.members[id]), w.now, step.now)
  }

  /** What a step sends a member brings it to where the step leaves the server. */
  ghost predicate Follows(s: Server, e: Effect, now: int) {
    && TimerMatches(e.server, now)
    && forall m: Member :: Fresh(m, now) && Agrees(s, m, now) ==> Agrees(e.server, Enqueue(m, e.outs), now)
  }

  lemma RouteOne(out: Out, role: Role)
    ensures Route([out], role) == if Addressed(out, role) then [out.msg] else []
  {
    assert [out][1..] == [];
  }

  lemma RouteTwo(a: Out, b: Out, role: Role)
    ensures Route([a, b], role) == (if Addressed(a, role) then [a.msg] else []) + Route([b], role)
  {
    assert [a, b][1..] == [b];
  }

  /** Sends of at most two messages, delivered one after the other. */
  lemma EnqueueDelivers(m: Member, outs: seq<Out>, now: int)
    requires |outs| <= 2
    ensures var before := DeliverAll(m.client, m.queue, m.role.capable, now);
      var first := if |outs| > 0 && Addressed(outs[0], m.role)
                   then Receive(before, outs[0].msg, m.role.capable, now) else before;
      var second := if |outs| > 1 && Addressed(outs[1], m.role)
                    then Receive(first, outs[1].msg, m.role.capable, now) else first;
      DeliverAll(m.client, Enqueue(m, outs).queue, m.role.capable, now) == second
  {
    ConcatEmpty(m.queue);
    if |outs| > 0 {
      DeliverOneMore(m.client, m.queue, outs[0].msg, m.role.capable, now);
      if |outs| == 1 {
        assert outs == [outs[0]];
        RouteOne(outs[0], m.role);
      } else {
        assert outs == [outs[0], outs[1]];
        RouteTwo(outs[0], outs[1], m.role);
        RouteOne(outs[1], m.role);
        var queue := if Addressed(outs[0], m.role) then m.queue + [outs[0].msg] else m.queue;
        DeliverOneMore(m.client, queue, outs[1].msg, m.role.capable, now);
        ConcatAssociates(m.queue, if Addressed(outs[0], m.role) then [outs[0].msg] else [], Route([outs[1]], m.role));
      }
    }
  }

  lemma PromoteFollows(s: Server, now: int)
    requires TimerMatches(s, now)
    ensures TimerMatches(Promote(s, now), now)
    ensures Target(Promote(s, now), now) == Target(s, now)
    ensures Overdue(Promote(s, now), now) == Overdue(s, now)
  {
  }

  lemma SetFollows(s: Server, state: Option<State>, ts: Option<int>, now: int)
    requires TimerMatches(s, now)
    ensures Follows(s, Set(s, state, ts, now), now)
  {
    var e, p := Set(s, state, ts, now), Promote(s, now);
    PromoteFollows(s, now);
    forall m: Member | Fresh(m, now) && Agrees(s, m, now) ensures Agrees(e.server, Enqueue(m, e.outs), now) {
      assert Agrees(p, m, now);
      if e.outs == [] && e.server == p {
        ConcatEmpty(m.queue);
      } else if ts.Some? && ts.value > now {
        ScheduleAgrees(p, m, state.value, ts.value, now);
      } else {
        EnqueueDelivers(m, e.outs, now);
      }
    }
  }

  lemma ScheduleAgrees(p: Server, m: Member, state: State, ts: int, now: int)
    requires TimerMatches(p, now) && !Due(p, now) && ts > now
    requires Fresh(m, now) && Agrees(p, m, now)
    ensures var e := Schedule(p, state, ts, now); Agrees(e.server, Enqueue(m, e.outs), now)
  {
    EnqueueDelivers(m, Schedule(p, state, ts, now).outs, now);
  }

  lemma CancelFollows(s: Server, now: int)
    requires TimerMatches(s, now)
    ensures Follows(s, Cancel(s, now), now)
  {
    var e := Cancel(s, now);
    PromoteFollows(s, now);
    forall m: Member | Fresh(m, now) && Agrees(s, m, now) ensures Agrees(e.server, Enqueue(m, e.outs), now) {
      EnqueueDelivers(m, e.outs, now);
    }
  }

  lemma FireFollows(s: Server, now: int)
    requires TimerMatches(s, now)
    requires s.timer.DueAt? ==> s.timer.msg.ts <= now
    ensures Follows(s, Fire(s), now)
  {
    var e := Fire(s);
    forall m: Member | Fresh(m, now) && Agrees(s, m, now) ensures Agrees(e.server, Enqueue(m, e.outs), now) {
      EnqueueDelivers(m, e.outs, now);
    }
  }

  /** A joining member agrees whatever it held before; the others are sent nothing. */
  lemma JoinFollows(s: Server, role: Role, client: Client, now: int)
    requires TimerMatches(s, now)
    ensures var e := Join(s, role, now);
      && TimerMatches(e.server, now)
      && Agrees(e.server, Enqueue(Member(role, client, []), e.outs), now)
      && forall m: Member :: m.role.id != role.id && Agrees(s, m, now) ==> Agrees(e.server, Enqueue(m, e.outs), now)
  {
    var e := Join(s, role, now);
    PromoteFollows(s, now);
    EnqueueDelivers(Member(role, client, []), e.outs, now);
    forall m: Member | m.role.id != role.id && Agrees(s, m, now) ensures Agrees(e.server, Enqueue(m, e.outs), now) {
      EnqueueDelivers(m, e.outs, now);
    }
  }

  lemma LegacyTickAgrees(s: Server, m: Member, now: int, later: int)
    requires !m.role.capable && Fresh(m, now) && now <= later
    requires TimerMatches(s, now) && !(s.timer.SendAt? && Due(s, later))
    requires Agrees(s, m, now)
    ensures Agrees(s, m.(client := Elapse(m.client, later)), later)
  {
    LegacyDeliveryTimeless(m.client, m.queue, now, later);
  }

  lemma {:induction false} LegacyDeliveryTimeless(c: Client, queue: seq<Msg>, now: int, later: int)
    ensures DeliverAll(c, queue, false, now) == DeliverAll(c, queue, false, later)
    decreases |queue|
  {
    if queue != [] {
      LegacyDeliveryTimeless(c, queue[..|queue| - 1], now, later);
    }
  }

  /** Every step keeps agreement, and a clock step exactly when it is calm. */
  lemma StepKeepsAgreementIff(w: World, step: Step)
    requires Agreement(w) && Enabled(w, step)
    ensures Agreement(Next(w, step)) <==> Calm(w, step)
  {
    match step
    case SetState(state, ts) => SetFollows(w.server, state, ts, w.now);
    case CancelPending => CancelFollows(w.server, w.now);
    case Read => PromoteFollows(w.server, w.now);
    case JoinMember(role, client) => JoinFollows(w.server, role, client, w.now);
    case LeaveMember(id) =>
    case FireTimer => FireFollows(w.server, w.now);
    case Deliver(id) =>
      DeliverFirst(w.members[id].client, w.members[id].queue, w.members[id].role.capable, w.now);
    case Tick(now) => TickKeepsAgreementIff(w, now);
  }

  lemma TickKeepsAgreementIff(w: World, now: int)
    requires Agreement(w) && Enabled(w, Tick(now))
    ensures Agreement(Next(w, Tick(now))) <==> Calm(w, Tick(now))
  {
    var end := Next(w, Tick(now));
    forall id | id in w.members
      ensures Agrees(w.server, end.members[id], now)
        <==> (w.members[id].role.capable ==> HarmlessTick(w.server, Chain(w.members[id]), w.now, now))
    {
      if w.members[id].role.capable {
        TickAgreesIff(w.server, w.members[id], w.now, now);
      } else {
        LegacyTickAgrees(w.server, w.members[id], w.now, now);
      }
    }
  }

  // ---------------------------------------------------------------- whole runs

  predicate CanRun(w: World, steps: seq<Step>)
    decreases |steps|
  {
    steps == [] || (Enabled(w, steps[0]) && CanRun(Next(w, steps[0]), steps[1..]))
  }

  function RunTo(w: World, steps: seq<Step>): World
    requires CanRun(w, steps)
    decreases |steps|
  {
    if steps == [] then w else RunTo(Next(w, steps[0]), steps[1..])
  }

  ghost predicate AllCalm(w: World, steps: seq<Step>)
    requires CanRun(w, steps)
    decreases |steps|
  {
    steps == [] || (Calm(w, steps[0]) && AllCalm(Next(w, steps[0]), steps[1..]))
  }

  function Start(now: int): World { World(Server(None, None, None, false, NoTimer), map[], now) }

  /**
   Safety over whole runs: from any agreeing world, through any interleaving in which no clock
   step overtakes a member, every member agrees.
   */
  lemma {:induction false} AgreementOverCalmRuns(w: World, steps: seq<Step>)
    requires Agreement(w) && CanRun(w, steps) && AllCalm(w, steps)
    ensures Agreement(RunTo(w, steps))
    decreases |steps|
  {
    if steps != [] {
      StepKeepsAgreementIff(w, steps[0]);
      AgreementOverCalmRuns(Next(w, steps[0]), steps[1..]);
    }
  }

  /** What agreement comes to: with nothing in flight, a capable member holds exactly the target. */
  lemma {:induction false} DrainedMemberMatches(w: World, id: nat) returns (steps: seq<Step>)
    requires Agreement(w) && id in w.members && w.members[id].role.capable
    ensures CanRun(w, steps)
    ensures var end := RunTo(w, steps);
      && end.server == w.server && end.now == w.now && id in end.members
      && end.members[id].queue == []
      && end.members[id].client == Target(w.server, w.now)
    decreases |w.members[id].queue|
  {
    if w.members[id].queue == [] {
      steps := [];
    } else {
      StepKeepsAgreementIff(w, Deliver(id));
      var rest := DrainedMemberMatches(Next(w, Deliver(id)), id);
      steps := [Deliver(id)] + rest;
      assert steps[1..] == rest;
    }
  }

  // ---------------------------------------------------------------- what a set comes to

  lemma {:induction false} RunAppend(w: World, a: seq<Step>, b: seq<Step>)
    requires CanRun(w, a) && CanRun(RunTo(w, a), b)
    ensures CanRun(w, a + b) && RunTo(w, a + b) == RunTo(RunTo(w, a), b)
    decreases |a|
  {
    if a == [] {
      assert a + b == b;
    } else {
      RunAppend(Next(w, a[0]), a[1..], b);
      assert (a + b)[1..] == a[1..] + b;
    }
  }

  /** `end` is `w` once everything in flight to the members `ids` is delivered. */
  ghost predicate Drained(w: World, end: World, ids: set<nat>) {
    && Agreement(end)
    && end.server == w.server && end.now == w.now && end.members.Keys == w.members.Keys
    && (forall id :: id in w.members ==> end.members[id].role == w.members[id].role)
    && (forall id :: id in w.members && id in ids ==> end.members[id].queue == [])
    && (forall id :: id in w.members && id !in ids ==> end.members[id] == w.members[id])
  }

  lemma {:induction false} DrainOne(w: World, id: nat) returns (steps: seq<Step>)
    requires Agreement(w) && id in w.members
    ensures CanRun(w, steps) && Drained(w, RunTo(w, steps), {id})
    decreases |w.members[id].queue|
  {
    steps := [];
    if w.members[id].queue != [] {
      StepKeepsAgreementIff(w, Deliver(id));
      steps := DrainOne(Next(w, Deliver(id)), id);
      RunPrepend(w, Deliver(id), steps);
      steps := [Deliver(id)] + steps;
    }
  }

  lemma {:induction false} DrainSome(w: World, ids: set<nat>) returns (steps: seq<Step>)
    requires Agreement(w) && ids <= w.members.Keys
    ensures CanRun(w, steps) && Drained(w, RunTo(w, steps), ids)
    decreases |ids|
  {
    steps := [];
    if ids != {} {
      var id :| id in ids;
      var first := DrainOne(w, id);
      var next := RunTo(w, first);
      var rest := DrainSome(next, ids - {id});
      RunAppend(w, first, rest);
      steps := first + rest;
    }
  }

  /** Nothing is in flight, and every member holds exactly what the server wants it to. */
  ghost predicate AllHold(w: World, client: Client) {
    Agreement(w) && forall id :: id in w.members ==> w.members[id].queue == [] && w.members[id].client == client
  }

  ghost predicate Quiet(w: World) { forall id :: id in w.members ==> w.members[id].queue == [] }

  lemma DrainAll(w: World) returns (steps: seq<Step>)
    requires Agreement(w)
    ensures CanRun(w, steps)
    ensures var end := RunTo(w, steps); Agreement(end) && Quiet(end) && end.server == w.server && end.now == w.now
  {
    steps := DrainSome(w, w.members.Keys);
  }

  lemma QuietHolds(w: World, state: Option<State>)
    requires Agreement(w) && Quiet(w) && Target(w.server, w.now) == Client(state, None) && !Overdue(w.server, w.now)
    ensures AllHold(w, Client(state, None))
  {
    forall id | id in w.members ensures w.members[id].client == Client(state, None) {
      assert Agrees(w.server, w.members[id], w.now);
    }
  }

  /** A timer whose time has come fires, and what it sends is delivered. */
  lemma FireAndDrain(w: World) returns (steps: seq<Step>)
    requires Agreement(w) && Enabled(w, FireTimer)
    ensures CanRun(w, steps)
    ensures var end := RunTo(w, steps);
      Agreement(end) && Quiet(end) && end.server == Fire(w.server).server && end.now == w.now
  {
    StepKeepsAgreementIff(w, FireTimer);
    steps := DrainAll(Next(w, FireTimer));
    RunPrepend(w, FireTimer, steps);
    steps := [FireTimer] + steps;
  }

  /** With nothing in flight the clock can move on. */
  lemma QuietTick(w: World, now: int)
    requires Agreement(w) && Quiet(w) && Enabled(w, Tick(now))
    ensures Agreement(Next(w, Tick(now))) && Quiet(Next(w, Tick(now)))
  {
    forall id | id in w.members ensures HarmlessTick(w.server, Chain(w.members[id]), w.now, now) {
      assert |Chain(w.members[id])| <= 1;
    }
    StepKeepsAgreementIff(w, Tick(now));
  }

  /**
   Setting a state sets it: from any agreeing world, once what a set for now sends is delivered, and a
   timer that is due has fired, every member shows just that state.
   */
  lemma SetReachesAll(w: World, state: Option<State>, ts: Option<int>) returns (steps: seq<Step>)
    requires Agreement(w) && (ts.Some? ==> ts.value <= w.now)
    ensures CanRun(w, [SetState(state, ts)] + steps)
    ensures var end := RunTo(w, [SetState(state, ts)] + steps); end.now == w.now && AllHold(end, Client(state, None))
  {
    var next := Next(w, SetState(state, ts));
    StepKeepsAgreementIff(w, SetState(state, ts));
    SetNowShows(w.server, state, ts, w.now, w.now);
    if Overdue(next.server, next.now) {
      steps := FireAndDrain(next);
      OthersShowTheSame(next.server, Role(0, true), w.now, w.now);
    } else {
      steps := DrainAll(next);
    }
    QuietHolds(RunTo(next, steps), state);
    RunPrepend(w, SetState(state, ts), steps);
  }

  /** So does a cancel, with the state shown at that moment. */
  lemma CancelReachesAll(w: World) returns (steps: seq<Step>)
    requires Agreement(w)
    ensures CanRun(w, [CancelPending] + steps)
    ensures var end := RunTo(w, [CancelPending] + steps);
      end.now == w.now && AllHold(end, Client(ShownAt(w.server, w.now), None))
  {
    var next := Next(w, CancelPending);
    StepKeepsAgreementIff(w, CancelPending);
    CancelShows(w.server, w.now, w.now);
    if Overdue(next.server, next.now) {
      steps := FireAndDrain(next);
      OthersShowTheSame(next.server, Role(0, true), w.now, w.now);
    } else {
      steps := DrainAll(next);
    }
    QuietHolds(RunTo(next, steps), ShownAt(w.server, w.now));
    RunPrepend(w, CancelPending, steps);
  }

  /** A scheduled state that is out to the members, and due at `ts`. */
  predicate Announced(s: Server, state: State, ts: int) {
    s.pending == Some(state) && s.pendingTs == Some(ts) && s.sent && s.timer == DueAt(Msg(Some(state), ts))
  }

  /** It is announced at the latest when its timer fires. */
  lemma AnnouncedInTime(w: World, state: State, ts: int) returns (steps: seq<Step>)
    requires Agreement(w) && Quiet(w) && w.now < ts
    requires Announced(w.server, state, ts) ||
      (w.server.pending == Some(state) && w.server.pendingTs == Some(ts)
       && w.server.timer == SendAt(ts - MAX_SCHEDULED_LEAD_US) && w.now <= ts - MAX_SCHEDULED_LEAD_US)
    ensures CanRun(w, steps)
    ensures var end := RunTo(w, steps); Agreement(end) && Quiet(end) && end.now < ts && Announced(end.server, state, ts)
  {
    steps := [];
    if !Announced(w.server, state, ts) {
      var tick := Tick(ts - MAX_SCHEDULED_LEAD_US);
      QuietTick(w, tick.now);
      steps := FireAndDrain(Next(w, tick));
      RunPrepend(w, tick, steps);
      steps := [tick] + steps;
    }
  }

  lemma AnnouncedReachesAll(w: World, state: State, ts: int) returns (steps: seq<Step>)
    requires Agreement(w) && Quiet(w) && w.now < ts && Announced(w.server, state, ts)
    ensures CanRun(w, steps)
    ensures var end := RunTo(w, steps); end.now == ts && AllHold(end, Client(Some(state), None))
  {
    QuietTick(w, ts);
    steps := FireAndDrain(Next(w, Tick(ts)));
    QuietHolds(RunTo(Next(w, Tick(ts)), steps), Some(state));
    RunPrepend(w, Tick(ts), steps);
    steps := [Tick(ts)] + steps;
  }

  /**
   Scheduling a state sets it in time: from any agreeing world, with timers that fire when due and nothing
   left in flight, every member shows just that state at its timestamp, however far ahead that is.
   */
  lemma ScheduleReachesAll(w: World, state: State, ts: int) returns (steps: seq<Step>)
    requires Agreement(w) && w.now < ts
    ensures CanRun(w, [SetState(Some(state), Some(ts))] + steps)
    ensures var end := RunTo(w, [SetState(Some(state), Some(ts))] + steps);
      end.now == ts && AllHold(end, Client(Some(state), None))
  {
    var schedule := SetState(Some(state), Some(ts));
    var next := Next(w, schedule);
    StepKeepsAgreementIff(w, schedule);
    SetLaterShows(w.server, state, ts, w.now, ts);
    var drain := DrainAll(next);
    var quiet := RunTo(next, drain);
    var announce := AnnouncedInTime(quiet, state, ts);
    var announced := RunTo(quiet, announce);
    var reach := AnnouncedReachesAll(announced, state, ts);
    RunAppend(quiet, announce, reach);
    RunAppend(next, drain, announce + reach);
    steps := drain + (announce + reach);
    RunPrepend(w, schedule, steps);
  }

  // ---------------------------------------------------------------- the one race

  /**
   The race, as the caller of a set can see it coming: a pending state that the members already hold,
   and that differs from the current one, is replaced from within the lead limit by a later one.
   */
  predicate Racing(w: World, step: Step) {
    && step.SetState? && step.state.Some? && step.ts.Some?
    && var p := Promote(w.server, w.now);
    && ReplacesSent(p)
    && p.pendingTs.value < step.ts.value <= w.now + MAX_SCHEDULED_LEAD_US
    && p.pending != p.current
    && exists id :: id in w.members && w.members[id].role.capable
  }

  /** Until the last message of the chain comes due, the client shows what it shows now. */
  ghost predicate Steady(chain: seq<Msg>, before: Option<State>, now: int) {
    forall later :: now <= later && Held(chain, later).Some? ==>
      Shown(chain, before, later) == Shown(chain, before, now)
  }

  ghost predicate MemberSteady(m: Member, now: int) { Steady(Chain(m), m.client.current, now) }

  ghost predicate WorldSteady(w: World) {
    forall id :: id in w.members && w.members[id].role.capable ==> MemberSteady(w.members[id], w.now)
  }

  lemma SteadyIsCalm(s: Server, m: Member, now: int, later: int)
    requires m.role.capable && Fresh(m, now) && now <= later
    requires Agrees(s, m, now) && MemberSteady(m, now)
    ensures HarmlessTick(s, Chain(m), now, later)
  {
    var chain := Chain(m);
    DeliverShows(m.client, m.queue, now);
    forall i: nat | OvertakesAt(chain, now, later, i) ensures chain[i].state == Target(s, later).current {
      ShownLater(chain, m.client.current, now, later);
      assert Held(chain, later).Some?;
      assert Held(chain, now) == Target(s, now).pending;
    }
  }

  lemma SteadyLater(chain: seq<Msg>, before: Option<State>, now: int, later: int)
    requires Steady(chain, before, now) && now <= later
    ensures Steady(chain, before, later)
  {
  }

  lemma SteadyDueFirst(first: Msg, rest: seq<Msg>, before: Option<State>, now: int)
    requires first.ts <= now && Steady([first] + rest, before, now)
    ensures Steady(rest, first.state, now)
  {
    ShownPrefix(first, rest, before, now);
    forall later | now <= later && Held(rest, later).Some?
      ensures Shown(rest, first.state, later) == Shown(rest, first.state, now)
    {
      ShownPrefix(first, rest, before, later);
    }
  }

  /** Discarding a future first message changes what is shown only to what was shown before. */
  lemma {:induction false} ShownWithoutFirst(first: Msg, rest: seq<Msg>, before: Option<State>, now: int, later: int)
    requires first.ts > now && now <= later
    ensures Shown([first] + rest, before, now) == Shown(rest, before, now)
    ensures Shown(rest, before, later) == Shown([first] + rest, before, later)
      || Shown(rest, before, later) == Shown(rest, before, now)
    ensures rest != [] ==> Held([first] + rest, later) == Held(rest, later)
    decreases |rest|
  {
    var chain := [first] + rest;
    if rest == [] {
      assert chain[..0] == [];
    } else {
      ShownWithoutFirst(first, rest[..|rest| - 1], before, now, later);
      assert chain[..|rest|] == [first] + rest[..|rest| - 1];
    }
  }

  lemma SteadyWithoutFirst(first: Msg, rest: seq<Msg>, before: Option<State>, now: int)
    requires first.ts > now && Steady([first] + rest, before, now)
    ensures Steady(rest, before, now)
  {
    forall later | now <= later && Held(rest, later).Some?
      ensures Shown(rest, before, later) == Shown(rest, before, now)
    {
      ShownWithoutFirst(first, rest, before, now, later);
    }
  }

  /** One more message keeps a chain steady unless it outlasts a held message with a different state. */
  lemma AppendKeepsSteady(chain: seq<Msg>, route: seq<Msg>, before: Option<State>, now: int)
    requires Steady(chain, before, now) && |route| <= 1
    requires route != [] && Held(chain, now).Some? ==>
      route[0].ts <= Held(chain, now).value.ts || Held(chain, now).value.state == Shown(chain, before, now)
    ensures Steady(chain + route, before, now)
  {
    if route == [] {
      assert chain + route == chain;
      return;
    }
    var longer := chain + route;
    assert longer[..|longer| - 1] == chain;
    forall later | now <= later && Held(longer, later).Some?
      ensures Shown(longer, before, later) == Shown(longer, before, now)
    {
      if Held(chain, now).None? { NothingHeldShownForever(chain, before, now, later); }
    }
  }

  /** A server step keeps a member steady if what it sends does not outlast a held, different state. */
  lemma EnqueueKeepsSteady(s: Server, m: Member, e: Effect, now: int)
    requires m.role.capable && Fresh(m, now) && Agrees(s, m, now) && MemberSteady(m, now)
    requires |e.outs| <= 2 && (|e.outs| == 2 ==> !Addressed(e.outs[0], m.role))
    requires var held := Target(s, now);
      forall out :: out in e.outs && Addressed(out, m.role) && held.pending.Some? ==>
        out.msg.ts <= held.pending.value.ts || held.pending.value.state == held.current
    ensures MemberSteady(Enqueue(m, e.outs), now)
  {
    var chain, route := Chain(m), Route(e.outs, m.role);
    DeliverShows(m.client, m.queue, now);
    RouteAtMostOne(e.outs, m.role);
    ConcatAssociates(if m.client.pending.Some? then [m.client.pending.value] else [], m.queue, route);
    assert Chain(Enqueue(m, e.outs)) == chain + route;
    AppendKeepsSteady(chain, route, m.client.current, now);
  }

  /** Of at most two messages, the first addressed to others, at most the last is routed to a member. */
  lemma RouteAtMostOne(outs: seq<Out>, role: Role)
    requires |outs| <= 2 && (|outs| == 2 ==> !Addressed(outs[0], role))
    ensures |Route(outs, role)| <= 1
    ensures Route(outs, role) != [] ==>
      outs != [] && Addressed(outs[|outs| - 1], role) && Route(outs, role)[0] == outs[|outs| - 1].msg
  {
    if |outs| == 1 {
      assert outs == [outs[0]];
      RouteOne(outs[0], role);
    } else if |outs| == 2 {
      assert outs == [outs[0], outs[1]];
      RouteTwo(outs[0], outs[1], role);
      RouteOne(outs[1], role);
    }
  }

  lemma JoinIsSteady(s: Server, role: Role, client: Client, now: int)
    requires role.capable
    ensures MemberSteady(Enqueue(Member(role, client, []), Join(s, role, now).outs), now)
  {
    var outs := Join(s, role, now).outs;
    var m := Enqueue(Member(role, client, []), outs);
    var chain := Chain(m);
    RouteOne(outs[0], role);
    if |outs| == 2 {
      RouteTwo(outs[0], outs[1], role);
      RouteOne(outs[1], role);
      assert m.queue == [outs[0].msg, outs[1].msg];
      assert chain[|chain| - 1] == outs[1].msg;
      assert chain[..|chain| - 1][|chain| - 2] == outs[0].msg;
    } else {
      assert m.queue == [outs[0].msg];
      assert chain[|chain| - 1] == outs[0].msg;
    }
  }

  lemma NotAddressed(outs: seq<Out>, role: Role)
    requires forall out :: out in outs ==> !Addressed(out, role)
    ensures Route(outs, role) == []
  {
    if outs != [] {
      NotAddressed(outs[1..], role);
    }
  }

  lemma DeliverKeepsSteady(m: Member, now: int)
    requires m.queue != [] && m.role.capable && Fresh(m, now) && MemberSteady(m, now)
    ensures MemberSteady(Member(m.role, Receive(m.client, m.queue[0], true, now), m.queue[1..]), now)
  {
    var msg, rest := m.queue[0], m.queue[1..];
    assert m.queue == [msg] + rest;
    ConcatEmpty(m.queue);
    ConcatEmpty(rest);
    if m.client.pending.Some? { SteadyWithoutFirst(m.client.pending.value, m.queue, m.client.current, now); }
    if msg.ts <= now { SteadyDueFirst(msg, rest, m.client.current, now); }
  }

  lemma ElapseKeepsSteady(m: Member, now: int, later: int)
    requires MemberSteady(m, now) && now <= later
    ensures MemberSteady(m.(client := Elapse(m.client, later)), later)
  {
    SteadyLater(Chain(m), m.client.current, now, later);
    ConcatEmpty(m.queue);
    if Elapse(m.client, later) != m.client {
      SteadyDueFirst(m.client.pending.value, m.queue, m.client.current, later);
    }
  }

  /** The server steps of a run, by what they do to the server. */
  function ServerEffect(w: World, step: Step): Effect
    requires step.SetState? || step.CancelPending? || step.FireTimer?
  {
    match step
    case SetState(state, ts) => Set(w.server, state, ts, w.now)
    case CancelPending => Cancel(w.server, w.now)
    case _ => Fire(w.server)
  }

  lemma ServerStepKeepsSteady(w: World, id: nat, step: Step)
    requires step.SetState? || step.CancelPending? || step.FireTimer?
    requires Agreement(w) && Enabled(w, step) && !Racing(w, step)
    requires id in w.members && w.members[id].role.capable && MemberSteady(w.members[id], w.now)
    ensures MemberSteady(Enqueue(w.members[id], ServerEffect(w, step).outs), w.now)
  {
    PromoteFollows(w.server, w.now);
    EnqueueKeepsSteady(w.server, w.members[id], ServerEffect(w, step), w.now);
  }

  /** In a steady world no clock step overtakes a member with a wrong state. */
  lemma StepIsCalm(w: World, step: Step)
    requires Agreement(w) && WorldSteady(w) && Enabled(w, step)
    ensures Calm(w, step)
  {
    if step.Tick? {
      forall id | id in w.members && w.members[id].role.capable
        ensures HarmlessTick(w.server, Chain(w.members[id]), w.now, step.now)
      {
        SteadyIsCalm(w.server, w.members[id], w.now, step.now);
      }
    }
  }

  lemma StepKeepsSteady(w: World, step: Step)
    requires Agreement(w) && WorldSteady(w) && Enabled(w, step) && !Racing(w, step)
    ensures WorldSteady(Next(w, step))
  {
    var end := Next(w, step);
    forall id | id in end.members && end.members[id].role.capable
      ensures MemberSteady(end.members[id], end.now)
    {
      match step
      case SetState(_, _) => ServerStepKeepsSteady(w, id, step);
      case CancelPending => ServerStepKeepsSteady(w, id, step);
      case FireTimer => ServerStepKeepsSteady(w, id, step);
      case JoinMember(role, client) =>
        if id == role.id {
          JoinIsSteady(w.server, role, client, w.now);
        } else {
          NotAddressed(Join(w.server, role, w.now).outs, w.members[id].role);
          ConcatEmpty(w.members[id].queue);
        }
      case Read =>
      case LeaveMember(_) =>
      case Deliver(other) => if other == id { DeliverKeepsSteady(w.members[id], w.now); }
      case Tick(now) => ElapseKeepsSteady(w.members[id], w.now, now);
    }
  }

  lemma RacingSends(w: World, step: Step)
    requires Racing(w, step)
    ensures var p := Promote(w.server, w.now);
      var e := Set(w.server, step.state, step.ts, w.now);
      && e.outs == [ToCapable(Msg(step.state, step.ts.value))]
      && e.server.current == p.current && e.server.pendingTs == step.ts && !e.server.timer.SendAt?
  {
  }

  /** A held message shows when its time comes, even if a longer-held one is in flight behind it. */
  lemma HeldShows(m: Member, a: Msg, b: Msg, now: int)
    requires m.role.capable && Fresh(m, now) && Held(Chain(m), now) == Some(a) && a.ts < b.ts
    ensures var longer := m.(queue := m.queue + [b]);
      DeliverAll(Elapse(longer.client, a.ts), longer.queue, true, a.ts).current == a.state
  {
    var longer := m.(queue := m.queue + [b]);
    var after := longer.(client := Elapse(longer.client, a.ts));
    ElapsedChain(longer, a.ts);
    DeliverShows(after.client, after.queue, a.ts);
    assert Chain(longer) == Chain(m) + [b];
    assert Chain(longer)[..|Chain(m)|] == Chain(m);
  }

  /**
   After a racing step, the clock step to the replaced state's time breaks agreement with every
   schedule-capable member, whatever the channels hold.
   */
  lemma RacingBreaks(w: World, step: Step, id: nat)
    requires Agreement(w) && Racing(w, step)
    requires id in w.members && w.members[id].role.capable
    ensures var next := Next(w, step);
      var tick := Tick(Promote(w.server, w.now).pendingTs.value);
      Enabled(next, tick) && !Agrees(next.server, Next(next, tick).members[id], tick.now)
  {
    var p, m := Promote(w.server, w.now), w.members[id];
    var a, b := Msg(p.pending, p.pendingTs.value), Msg(step.state, step.ts.value);
    RacingSends(w, step);
    RouteOne(ToCapable(b), m.role);
    assert Held(Chain(m), w.now) == Some(a) by { DeliverShows(m.client, m.queue, w.now); }
    HeldShows(m, a, b, w.now);
    var next := Next(w, step);
    assert next.members[id] == m.(queue := m.queue + [b]);
    assert Target(next.server, a.ts).current == p.current;
  }

  /** The world agrees, and still does after any clock step. */
  ghost predicate AgreesHenceforth(w: World) {
    Agreement(w) && forall now :: Enabled(w, Tick(now)) ==> Agreement(Next(w, Tick(now)))
  }

  ghost predicate AlwaysAgrees(w: World, steps: seq<Step>)
    requires CanRun(w, steps)
    decreases |steps|
  {
    AgreesHenceforth(w) && (steps == [] || AlwaysAgrees(Next(w, steps[0]), steps[1..]))
  }

  predicate NeverRacing(w: World, steps: seq<Step>)
    requires CanRun(w, steps)
    decreases |steps|
  {
    steps == [] || (!Racing(w, steps[0]) && NeverRacing(Next(w, steps[0]), steps[1..]))
  }

  lemma SteadyAgreesHenceforth(w: World)
    requires Agreement(w) && WorldSteady(w)
    ensures AgreesHenceforth(w)
  {
    forall now | Enabled(w, Tick(now)) ensures Agreement(Next(w, Tick(now))) {
      StepIsCalm(w, Tick(now));
      StepKeepsAgreementIff(w, Tick(now));
    }
  }

  /**
   Safety over whole runs, exactly: whatever the delays in the channels, every member agrees
   throughout a run and at whatever time the clock is read, if and only if no step of it races.
   */
  lemma {:induction false} AgreementIffNeverRacing(w: World, steps: seq<Step>)
    requires Agreement(w) && WorldSteady(w) && CanRun(w, steps)
    ensures AlwaysAgrees(w, steps) <==> NeverRacing(w, steps)
    ensures NeverRacing(w, steps) ==> Agreement(RunTo(w, steps)) && WorldSteady(RunTo(w, steps))
    decreases |steps|
  {
    SteadyAgreesHenceforth(w);
    if steps != [] {
      var step, next := steps[0], Next(w, steps[0]);
      if Racing(w, step) {
        var id :| id in w.members && w.members[id].role.capable;
        RacingBreaks(w, step, id);
        var tick := Tick(Promote(w.server, w.now).pendingTs.value);
        assert Enabled(next, tick) && !Agreement(Next(next, tick));
        assert !AgreesHenceforth(next);
      } else {
        StepIsCalm(w, step);
        StepKeepsAgreementIff(w, step);
        StepKeepsSteady(w, step);
        AgreementIffNeverRacing(next, steps[1..]);
      }
    }
  }

  lemma AgreementFromStart(now: int, steps: seq<Step>)
    requires CanRun(Start(now), steps)
    ensures AlwaysAgrees(Start(now), steps) <==> NeverRacing(Start(now), steps)
    ensures AllCalm(Start(now), steps) ==> Agreement(RunTo(Start(now), steps))
  {
    AgreementIffNeverRacing(Start(now), steps);
    if AllCalm(Start(now), steps) { AgreementOverCalmRuns(Start(now), steps); }
  }

  // ---------------------------------------------------------------- where agreement is lost

  /** A world of one capable member. */
  function Scene(server: Server, client: Client, queue: seq<Msg>, now: int): World {
    World(server, map[0 := Member(Role(0, true), client, queue)], now)
  }

  /** The state a server is in that has sent out `state` for `ts` and shows nothing yet. */
  function Holding(state: State, ts: int): Server {
    Server(None, Some(state), Some(ts), true, DueAt(Msg(Some(state), ts)))
  }

  lemma SceneEffect(server: Server, client: Client, out: Out, now: int, e: Effect)
    requires e.outs == [out] && Addressed(out, Role(0, true))
    ensures After(Scene(server, client, [], now), e) == Scene(e.server, client, [out.msg], now)
  {
    RouteOne(out, Role(0, true));
    ConcatEmpty([out.msg]);
    assert After(Scene(server, client, [], now), e).members == Scene(e.server, client, [out.msg], now).members;
  }

  /** A set for a time at most 20 s away: the message is out before the step ends. */
  lemma SceneSchedules(server: Server, client: Client, state: State, ts: int)
    requires 0 < ts <= MAX_SCHEDULED_LEAD_US && !Due(server, 0)
    requires server.timer != NoTimer ==> server.pendingTs.Some?
    ensures Next(Scene(server, client, [], 0), SetState(Some(state), Some(ts))) ==
      Scene(Holding(state, ts).(current := server.current), client, [Msg(Some(state), ts)], 0)
  {
    SceneEffect(server, client, ToCapable(Msg(Some(state), ts)), 0, Set(server, Some(state), Some(ts), 0));
  }

  lemma SceneDelivers(server: Server, client: Client, msg: Msg, now: int)
    ensures Next(Scene(server, client, [msg], now), Deliver(0))
      == Scene(server, Receive(client, msg, true, now), [], now)
  {
    assert [msg][1..] == [];
    assert Next(Scene(server, client, [msg], now), Deliver(0)).members
      == Scene(server, Receive(client, msg, true, now), [], now).members;
  }

  lemma SceneJoined()
    ensures Next(Start(0), JoinMember(Role(0, true), Client(None, None))) ==
      Scene(Server(None, None, None, false, NoTimer), Client(None, None), [Msg(None, 0)], 0)
  {
    var role, idle := Role(0, true), Server(None, None, None, false, NoTimer);
    SceneEffect(idle, Client(None, None), ToOne(0, Msg(None, 0)), 0, Join(idle, role, 0));
    assert map[][0 := Member(role, Client(None, None), [])] == Scene(idle, Client(None, None), [], 0).members;
  }

  lemma SceneTicks(server: Server, client: Client, queue: seq<Msg>, now: int)
    requires 0 <= now && !server.timer.SendAt?
    ensures Next(Scene(server, client, queue, 0), Tick(now)) == Scene(server, Elapse(client, now), queue, now)
  {
    assert Next(Scene(server, client, queue, 0), Tick(now)).members
      == Scene(server, Elapse(client, now), queue, now).members;
  }

  lemma RunPrepend(w: World, step: Step, rest: seq<Step>)
    requires Enabled(w, step) && CanRun(Next(w, step), rest)
    ensures CanRun(w, [step] + rest) && RunTo(w, [step] + rest) == RunTo(Next(w, step), rest)
  {
    assert ([step] + rest)[1..] == rest;
  }

  /**
   The race is real, from the empty group on: a member joins, `a` is scheduled and delivered, `b`
   replaces it before its time, and `a` comes due while `b` is in flight. Everything delivered, the
   member shows `a` until `b` is due, and the group never does.
   */
  lemma ReplacedStateShown(a: State, b: State, ta: int, tb: int) returns (steps: seq<Step>)
    requires 0 < ta < tb <= MAX_SCHEDULED_LEAD_US
    ensures CanRun(Start(0), steps)
    ensures var end := RunTo(Start(0), steps);
      && 0 in end.members && end.members[0].role.capable && end.members[0].queue == []
      && end.now == ta
      && (forall now :: ta <= now < tb ==>
           && Elapse(end.members[0].client, now) == Client(Some(a), Some(Msg(Some(b), tb)))
           && Target(end.server, now) == Client(None, Some(Msg(Some(b), tb))))
      && (forall now :: tb <= now ==>
           Elapse(end.members[0].client, now) == Target(end.server, now) == Client(Some(b), None))
  {
    var nothing := Client(None, None);
    var idle := Server(None, None, None, false, NoTimer);
    var holdsA := Holding(a, ta);
    steps := RaceRun(a, b, ta, tb);
    SceneJoined();
    SceneDelivers(idle, nothing, Msg(None, 0), 0);
    SceneSchedules(idle, nothing, a, ta);
    SceneDelivers(holdsA, nothing, Msg(Some(a), ta), 0);
    RunPrepend(Scene(holdsA, nothing, [Msg(Some(a), ta)], 0), Deliver(0), steps);
    steps := [Deliver(0)] + steps;
    RunPrepend(Scene(idle, nothing, [], 0), SetState(Some(a), Some(ta)), steps);
    steps := [SetState(Some(a), Some(ta))] + steps;
    RunPrepend(Scene(idle, nothing, [Msg(None, 0)], 0), Deliver(0), steps);
    steps := [Deliver(0)] + steps;
    RunPrepend(Start(0), JoinMember(Role(0, true), nothing), steps);
    steps := [JoinMember(Role(0, true), nothing)] + steps;
    RaceEnds(a, b, ta, tb);
  }

  /** With `a` delivered, `b` replaces it, `a` comes due, and then `b` is delivered. */
  lemma RaceRun(a: State, b: State, ta: int, tb: int) returns (steps: seq<Step>)
    requires 0 < ta < tb <= MAX_SCHEDULED_LEAD_US
    ensures var start := Scene(Holding(a, ta), Client(None, Some(Msg(Some(a), ta))), [], 0);
      CanRun(start, steps) &&
      RunTo(start, steps) == Scene(Holding(b, tb), Client(Some(a), Some(Msg(Some(b), tb))), [], ta)
  {
    var awaitsA, showsA := Client(None, Some(Msg(Some(a), ta))), Client(Some(a), None);
    SceneSchedules(Holding(a, ta), awaitsA, b, tb);
    SceneTicks(Holding(b, tb), awaitsA, [Msg(Some(b), tb)], ta);
    SceneDelivers(Holding(b, tb), showsA, Msg(Some(b), tb), ta);
    steps := [];
    RunPrepend(Scene(Holding(b, tb), showsA, [Msg(Some(b), tb)], ta), Deliver(0), steps);
    steps := [Deliver(0)] + steps;
    RunPrepend(Scene(Holding(b, tb), awaitsA, [Msg(Some(b), tb)], 0), Tick(ta), steps);
    steps := [Tick(ta)] + steps;
    RunPrepend(Scene(Holding(a, ta), awaitsA, [], 0), SetState(Some(b), Some(tb)), steps);
    steps := [SetState(Some(b), Some(tb))] + steps;
  }

  lemma RaceEnds(a: State, b: State, ta: int, tb: int)
    requires ta < tb
    ensures var client := Client(Some(a), Some(Msg(Some(b), tb)));
      && (forall now :: ta <= now < tb ==>
           Elapse(client, now) == client && Target(Holding(b, tb), now) == Client(None, Some(Msg(Some(b), tb))))
      && (forall now :: tb <= now ==> Elapse(client, now) == Target(Holding(b, tb), now) == Client(Some(b), None))
  {
  }

  /**
   Why the send timer must be on time. If the clock passes the time of a pending state that was
   never sent, a capable member agrees only if that state equals the current one; and once a read
   has promoted it, the late timer sends nothing at all.
   */
  lemma LateSendIff(s: Server, m: Member, now: int, later: int)
    requires m.role.capable && Fresh(m, now) && now <= later
    requires TimerMatches(s, now) && s.timer.SendAt? && Due(s, later)
    requires Agrees(s, m, now)
    ensures Agrees(s, m.(client := Elapse(m.client, later)), later) <==> s.pending == s.current
    ensures Fire(Promote(s, later)).outs == []
  {
    var chain := Chain(m);
    var after := m.(client := Elapse(m.client, later));
    DeliverShows(m.client, m.queue, now);
    DeliverShows(after.client, after.queue, later);
    ElapsedChain(m, later);
    NothingHeldShownForever(chain, m.client.current, now, later);
  }
}
