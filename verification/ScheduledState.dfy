/**
 The server's side of scheduling: what a group shows now, what it is to show next, and when each
 member of the group learns of it.
 */
module ScheduledState {
  import opened Common

  /** The content of a role state object, such as a color palette. */
  type State(==, !new)

  const MAX_SCHEDULED_LEAD_US := 20_000_000

  /** A server/state message: `state`, or none, from `ts` on. */
  datatype Msg = Msg(state: Option<State>, ts: int)

  /** The loop timer: send the pending state at `at`, or hand it to the legacy members at its time. */
  datatype Timer = NoTimer | SendAt(at: int) | DueAt(msg: Msg)

  datatype Server = Server(
    current: Option<State>,
    pending: Option<State>,
    pendingTs: Option<int>,
    sent: bool,
    timer: Timer)

  /** Members either hold a state until its timestamp, or apply any state on receipt. */
  datatype Role = Role(id: nat, capable: bool)

  datatype Out = ToAll(msg: Msg) | ToCapable(msg: Msg) | ToLegacy(msg: Msg) | ToOne(id: nat, msg: Msg)

  predicate Addressed(out: Out, role: Role) {
    match out
    case ToAll(_) => true
    case ToCapable(_) => role.capable
    case ToLegacy(_) => !role.capable
    case ToOne(id, _) => id == role.id
  }

  /** What one member receives of a list of sends. */
  function Route(outs: seq<Out>, role: Role): seq<Msg> {
    if outs == [] then []
    else (if Addressed(outs[0], role) then [outs[0].msg] else []) + Route(outs[1..], role)
  }

  /** The outcome of one server step: its next state, and what it sends. */
  datatype Effect = Effect(server: Server, outs: seq<Out>)

  predicate Due(s: Server, now: int) { s.pendingTs.Some? && s.pendingTs.value <= now }

  function Settled(s: Server, state: Option<State>): Server {
    s.(current := state, pending := None, pendingTs := None)
  }

  function Promote(s: Server, now: int): Server { if Due(s, now) then Settled(s, s.pending) else s }

  function WithoutTimer(s: Server): Server { s.(sent := false, timer := NoTimer) }

  function Apply(s: Server, state: Option<State>, ts: int): Effect {
    Effect(WithoutTimer(Settled(s, state)), [ToAll(Msg(state, ts))])
  }

  function SendScheduled(s: Server): Effect {
    if s.pendingTs.None? then Effect(s.(timer := NoTimer), [])
    else
      var msg := Msg(s.pending, s.pendingTs.value);
      Effect(s.(sent := true, timer := DueAt(msg)), [ToCapable(msg)])
  }

  predicate ReplacesSent(s: Server) { s.sent && s.pendingTs.Some? }

  /** Hold `state` from `ts`, for a server whose due state is already promoted. */
  function Schedule(s: Server, state: State, ts: int, now: int): Effect {
    var overdue := s.sent && s.timer != NoTimer && s.pendingTs.None?;
    var catchUp := if overdue then [ToLegacy(Msg(s.current, now))] else [];
    var held := WithoutTimer(s).(pending := Some(state), pendingTs := Some(ts));
    if ts - MAX_SCHEDULED_LEAD_US - now <= 0 then
      var e := SendScheduled(held);
      Effect(e.server, catchUp + e.outs)
    else
      Effect(held.(timer := SendAt(ts - MAX_SCHEDULED_LEAD_US)),
             catchUp + if ReplacesSent(s) then [ToAll(Msg(s.current, now))] else [])
  }

  /** Set a state now, or schedule it for a future timestamp; scheduling a clear is refused. */
  function Set(s: Server, state: Option<State>, ts: Option<int>, now: int): Effect {
    var p := Promote(s, now);
    if ts.Some? && ts.value > now then
      if state.None? then Effect(p, []) else Schedule(p, state.value, ts.value, now)
    else if state == p.current && p.pendingTs.None? then Effect(p, [])
    else Apply(p, state, if ts.None? then now else ts.value)
  }

  function Cancel(s: Server, now: int): Effect {
    var p := Promote(s, now);
    if p.pendingTs.None? then Effect(p, [])
    else if p.sent then Apply(p, p.current, now)
    else Effect(WithoutTimer(Settled(p, p.current)), [])
  }

  function Join(s: Server, role: Role, now: int): Effect {
    var p := Promote(s, now);
    var current := [ToOne(role.id, Msg(p.current, now))];
    Effect(p, if p.pendingTs.Some? && p.sent && role.capable
              then current + [ToOne(role.id, Msg(p.pending, p.pendingTs.value))] else current)
  }

  function Fire(s: Server): Effect {
    match s.timer
    case NoTimer => Effect(s, [])
    case SendAt(_) => SendScheduled(s)
    case DueAt(msg) => Effect(s.(timer := NoTimer), [ToLegacy(msg)])
  }

  // ---------------------------------------------------------------- what the group shows

  /** What the group shows at `at` if nobody touches it until then. */
  function ShownAt(s: Server, at: int): Option<State> {
    if s.pendingTs.Some? && s.pendingTs.value <= at then s.pending else s.current
  }

  /**
   A state set for now is the group's state from now on, and what every member is sent says so. Nothing
   is sent only when it was that already, with nothing to come.
   */
  lemma SetNowShows(s: Server, state: Option<State>, ts: Option<int>, now: int, at: int)
    requires (ts.Some? ==> ts.value <= now) && now <= at
    ensures var e := Set(s, state, ts, now);
      && e.server.current == state && e.server.pendingTs == None && ShownAt(e.server, at) == state
      && (e.outs == [] || e.outs == [ToAll(Msg(state, if ts.None? then now else ts.value))])
      && (e.outs == [] <==> ShownAt(s, now) == state && (s.pendingTs.None? || s.pendingTs.value <= now))
  {
  }

  /**
   A state scheduled for later is the group's state from then on, near or far, and until then nothing
   changes. It is announced at once if that is within 20 s, and otherwise a timer is set for when it is.
   */
  lemma SetLaterShows(s: Server, state: State, ts: int, now: int, at: int)
    requires now < ts && now <= at
    ensures var e := Set(s, Some(state), Some(ts), now);
      && ShownAt(e.server, at) == (if at < ts then ShownAt(s, now) else Some(state))
      && (ToCapable(Msg(Some(state), ts)) in e.outs <==> ts <= now + MAX_SCHEDULED_LEAD_US)
      && (forall out :: out in e.outs ==> out.msg == Msg(Some(state), ts) || out.msg == Msg(ShownAt(s, now), now))
      && (e.server.timer == if ts <= now + MAX_SCHEDULED_LEAD_US then DueAt(Msg(Some(state), ts))
          else SendAt(ts - MAX_SCHEDULED_LEAD_US))
  {
    var e := Set(s, Some(state), Some(ts), now);
    if ts <= now + MAX_SCHEDULED_LEAD_US { assert e.outs[|e.outs| - 1] == ToCapable(Msg(Some(state), ts)); }
  }

  /** Scheduling a clear changes and sends nothing. */
  lemma ClearNotScheduled(s: Server, ts: int, now: int, at: int)
    requires now < ts && now <= at
    ensures var e := Set(s, None, Some(ts), now);
      e.outs == [] && ShownAt(e.server, at) == ShownAt(s, at) && e.server.timer == s.timer
  {
  }

  /** After a cancel the group shows for good what it showed at that moment. */
  lemma CancelShows(s: Server, now: int, at: int)
    requires now <= at
    ensures var e := Cancel(s, now);
      && ShownAt(e.server, at) == ShownAt(s, now) && e.server.pendingTs == None
      && (forall out :: out in e.outs ==> out == ToAll(Msg(ShownAt(s, now), now)))
  {
  }

  /** Timers and joining members change nothing of what the group shows; only the joining one is sent to. */
  lemma OthersShowTheSame(s: Server, role: Role, now: int, at: int)
    requires now <= at
    ensures ShownAt(Fire(s).server, at) == ShownAt(s, at)
    ensures ShownAt(Join(s, role, now).server, at) == ShownAt(s, at)
    ensures var outs := Join(s, role, now).outs;
      && outs != [] && outs[0] == ToOne(role.id, Msg(ShownAt(s, now), now))
      && (forall out :: out in outs ==> out.ToOne? && out.id == role.id)
  {
  }

  // ---------------------------------------------------------------- the classes

  /** The state cell: what holds now, and what a later read will promote. */
  class ScheduledRoleState {
    var current: Option<State>
    var pending: Option<State>
    var pendingTs: Option<int>

    constructor ()
      ensures current == None && pending == None && pendingTs == None
    {
      current, pending, pendingTs := None, None, None;
    }

    method Current(now: int) returns (state: Option<State>)
      modifies this
      ensures state == current
      ensures if old(pendingTs).Some? && old(pendingTs).value <= now
              then current == old(pending) && pending == None && pendingTs == None
              else current == old(current) && pending == old(pending) && pendingTs == old(pendingTs)
    {
      if pendingTs.Some? && pendingTs.value <= now {
        Apply(pending);
      }
      return current;
    }

    method Schedule(state: Option<State>, ts: int)
      modifies this
      ensures pending == state && pendingTs == Some(ts) && current == old(current)
    {
      pending := state;
      pendingTs := Some(ts);
    }

    method Apply(state: Option<State>)
      modifies this
      ensures current == state && pending == None && pendingTs == None
    {
      current := state;
      pending := None;
      pendingTs := None;
    }
  }

  /** Every send of a list to every addressed member, in the order the loops make them. */
  function Sends(members: seq<Role>, outs: seq<Out>): seq<(Role, Msg)> {
    if outs == [] then [] else SendsOf(members, outs[0]) + Sends(members, outs[1..])
  }

  function SendsOf(members: seq<Role>, out: Out): seq<(Role, Msg)> {
    if members == [] then []
    else (if Addressed(out, members[0]) then [(members[0], out.msg)] else []) + SendsOf(members[1..], out)
  }

  lemma {:induction false} SendsAppend(members: seq<Role>, a: seq<Out>, b: seq<Out>)
    ensures Sends(members, a + b) == Sends(members, a) + Sends(members, b)
  {
    if a == [] {
      ConcatEmpty(b);
    } else {
      assert (a + b)[1..] == a[1..] + b;
      SendsAppend(members, a[1..], b);
      ConcatAssociates(SendsOf(members, a[0]), Sends(members, a[1..]), Sends(members, b));
    }
  }

  lemma SendsOne(members: seq<Role>, out: Out)
    ensures Sends(members, [out]) == SendsOf(members, out)
  {
    assert [out][1..] == [];
    ConcatEmpty(SendsOf(members, out));
  }

  /** What was sent to one role, in order. */
  function SentTo(sends: seq<(Role, Msg)>, id: nat): seq<Msg> {
    if sends == [] then []
    else (if sends[0].0.id == id then [sends[0].1] else []) + SentTo(sends[1..], id)
  }

  lemma {:induction false} SentToAppend(a: seq<(Role, Msg)>, b: seq<(Role, Msg)>, id: nat)
    ensures SentTo(a + b, id) == SentTo(a, id) + SentTo(b, id)
  {
    if a == [] {
      ConcatEmpty(b);
    } else {
      assert (a + b)[1..] == a[1..] + b;
      SentToAppend(a[1..], b, id);
      ConcatAssociates(if a[0].0.id == id then [a[0].1] else [], SentTo(a[1..], id), SentTo(b, id));
    }
  }

  predicate DistinctIds(members: seq<Role>) {
    forall i, j :: 0 <= i < j < |members| ==> members[i].id != members[j].id
  }

  lemma {:induction false} SendsOfRouted(members: seq<Role>, out: Out, role: Role)
    requires DistinctIds(members)
    ensures role in members ==> SentTo(SendsOf(members, out), role.id) == Route([out], role)
    ensures (forall m :: m in members ==> m.id != role.id) ==> SentTo(SendsOf(members, out), role.id) == []
  {
    assert Route([out], role) == (if Addressed(out, role) then [out.msg] else []) + Route([out][1..], role);
    if members != [] {
      SendsOfRouted(members[1..], out, role);
      var head := if Addressed(out, members[0]) then [(members[0], out.msg)] else [];
      SentToAppend(head, SendsOf(members[1..], out), role.id);
      if role == members[0] {
        forall m | m in members[1..] ensures m.id != role.id {
          var i :| 0 <= i < |members[1..]| && members[1..][i] == m;
          assert members[i + 1] == m;
        }
      }
    }
  }

  /** The loops over the members deliver to each exactly what `Route` says. */
  lemma {:induction false} SendsRouted(members: seq<Role>, outs: seq<Out>, role: Role)
    requires DistinctIds(members) && role in members
    ensures SentTo(Sends(members, outs), role.id) == Route(outs, role)
  {
    if outs != [] {
      SendsOfRouted(members, outs[0], role);
      assert Route([outs[0]], role) == (if Addressed(outs[0], role) then [outs[0].msg] else []) +
        Route([outs[0]][1..], role);
      SendsRouted(members, outs[1..], role);
      SentToAppend(SendsOf(members, outs[0]), Sends(members, outs[1..]), role.id);
    }
  }

  /** The members without `role`, in order. */
  function Dropped(members: seq<Role>, role: Role): seq<Role> {
    if members == [] then []
    else if members[0] == role then members[1..]
    else [members[0]] + Dropped(members[1..], role)
  }

  /** Dropping a role takes it, and nobody else, out of the list. */
  lemma {:induction false} DroppedKeepsRest(members: seq<Role>, role: Role)
    requires DistinctIds(members)
    ensures DistinctIds(Dropped(members, role))
    ensures forall m :: m in Dropped(members, role) <==> m in members && m != role
    ensures role !in members ==> Dropped(members, role) == members
  {
    if members != [] && members[0] != role {
      DroppedKeepsRest(members[1..], role);
      assert members == [members[0]] + members[1..];
      forall m | m in Dropped(members[1..], role) ensures m.id != members[0].id {
        var i :| 0 <= i < |members[1..]| && members[1..][i] == m;
        assert members[i + 1] == m;
      }
    } else if members != [] {
      forall m | m in members[1..] ensures m != role {
        var i :| 0 <= i < |members[1..]| && members[1..][i] == m;
        assert members[i + 1] == m;
      }
    }
  }

  /** A role's update or, with no state, its clearing, announced to the group's listeners. */
  datatype GroupEvent = GroupEvent(state: Option<State>, previous: Option<State>, ts: int)

  /** The group role. `sends` is everything handed to the members' connections, in order. */
  class ScheduledStateGroupRole {
    const state: ScheduledRoleState
    var scheduledSent: bool
    var timer: Timer
    var members: seq<Role>
    var sends: seq<(Role, Msg)>

    ghost predicate Valid() reads this { DistinctIds(members) }

    ghost function Abs(): Server reads this, state {
      Server(state.current, state.pending, state.pendingTs, scheduledSent, timer)
    }

    /** The step `e` happened: the state is its server, and exactly its sends were made. */
    twostate predicate Did(e: Effect) reads this, state {
      && Abs() == e.server
      && members == old(members)
      && sends == old(sends) + Sends(members, e.outs)
    }

    constructor ()
      ensures Valid() && Abs() == Server(None, None, None, false, NoTimer) && members == [] && sends == []
      ensures fresh(state)
    {
      state := new ScheduledRoleState();
      scheduledSent, timer, members, sends := false, NoTimer, [], [];
    }

    /** One pass over the members with a message. */
    method SendTo(out: Out)
      requires Valid()
      modifies `sends
      ensures Valid() && sends == old(sends) + SendsOf(members, out)
    {
      var i := 0;
      ConcatEmpty(sends);
      while i < |members|
        invariant 0 <= i <= |members|
        invariant sends + SendsOf(members[i..], out) == old(sends) + SendsOf(members, out)
      {
        assert members[i..][1..] == members[i + 1..];
        ghost var rest := SendsOf(members[i + 1..], out);
        if Addressed(out, members[i]) {
          ConcatAssociates(sends, [(members[i], out.msg)], rest);
          sends := sends + [(members[i], out.msg)];
        } else {
          ConcatEmpty(rest);
        }
        i := i + 1;
      }
      assert members[i..] == [];
      ConcatEmpty(sends);
    }

    method CancelSendScheduled()
      requires Valid()
      modifies `scheduledSent, `timer
      ensures Valid() && Abs() == WithoutTimer(old(Abs()))
    {
      scheduledSent := false;
      timer := NoTimer;
    }

    method DoApply(newState: Option<State>, ts: int)
      requires Valid()
      modifies this, state
      ensures Valid() && Did(Apply(old(Abs()), newState, ts))
    {
      var message := Msg(newState, ts);
      state.Apply(newState);
      CancelSendScheduled();
      SendTo(ToAll(message));
      SendsOne(members, ToAll(message));
    }

    method DoSendScheduled()
      requires Valid()
      modifies this
      ensures Valid() && Did(SendScheduled(old(Abs())))
    {
      timer := NoTimer;
      if state.pendingTs.Some? {
        scheduledSent := true;
        var message := Msg(state.pending, state.pendingTs.value);
        SendTo(ToCapable(message));
        timer := DueAt(message);
        SendsOne(members, ToCapable(message));
      } else {
        ConcatEmpty(sends);
      }
    }

    method DoSendDue(message: Msg)
      requires Valid()
      modifies `timer, `sends
      ensures Valid() && Abs() == old(Abs()).(timer := NoTimer)
      ensures sends == old(sends) + Sends(members, [ToLegacy(message)])
    {
      timer := NoTimer;
      SendTo(ToLegacy(message));
      SendsOne(members, ToLegacy(message));
    }

    method DoSchedule(newState: State, ts: int, now: int)
      requires Valid() && ts > now
      requires !Due(Abs(), now)
      modifies this, state
      ensures Valid() && Did(Schedule(old(Abs()), newState, ts, now))
    {
      ghost var s := Abs();
      var replacedSent := scheduledSent && state.pendingTs.Some?;
      ghost var catchUp: seq<Out> := [];
      ConcatEmpty(sends);
      if scheduledSent && timer != NoTimer && state.pendingTs.None? {
        timer := NoTimer;
        var current := state.Current(now);
        DoSendDue(Msg(current, now));
        catchUp := [ToLegacy(Msg(s.current, now))];
      }
      CancelSendScheduled();
      state.Schedule(Some(newState), ts);
      assert sends == old(sends) + Sends(members, catchUp);
      var delay := ts - MAX_SCHEDULED_LEAD_US - now;
      ghost var mid := sends;
      ghost var more: seq<Out>;
      if delay <= 0 {
        DoSendScheduled();
        more := [ToCapable(Msg(Some(newState), ts))];
      } else {
        timer := SendAt(ts - MAX_SCHEDULED_LEAD_US);
        more := [];
        if replacedSent {
          var current := state.Current(now);
          SendTo(ToAll(Msg(current, now)));
          SendsOne(members, ToAll(Msg(current, now)));
          more := [ToAll(Msg(s.current, now))];
        } else {
          ConcatEmpty(sends);
        }
      }
      assert sends == mid + Sends(members, more);
      SendsAppend(members, catchUp, more);
      ConcatAssociates(old(sends), Sends(members, catchUp), Sends(members, more));
    }

    /** Set or schedule a state, as the color role does, and the group event that goes with it. */
    method DoSet(newState: Option<State>, ts: Option<int>, now: int) returns (refused: bool, event: Option<GroupEvent>)
      requires Valid()
      modifies this, state
      ensures Valid() && Did(Set(old(Abs()), newState, ts, now))
      ensures refused <==> newState.None? && ts.Some? && ts.value > now
      ensures var last := Promote(old(Abs()), now);
        event ==
          if refused || (!(ts.Some? && ts.value > now) && newState == last.current && last.pendingTs.None?) then None
          else Some(GroupEvent(newState, last.current, if ts.None? then now else ts.value))
    {
      refused, event := false, None;
      ConcatEmpty(sends);
      var last := state.Current(now);
      var timestamp := if ts.None? then now else ts.value;
      if ts.Some? && ts.value > now {
        if newState.None? { return true, None; }
        DoSchedule(newState.value, ts.value, now);
      } else {
        if newState == last && state.pendingTs.None? { return; }
        DoApply(newState, timestamp);
      }
      event := Some(GroupEvent(newState, last, timestamp));
    }

    method CancelScheduled(now: int)
      requires Valid()
      modifies this, state
      ensures Valid() && Did(Cancel(old(Abs()), now))
    {
      ConcatEmpty(sends);
      var current := state.Current(now);
      if state.pendingTs.None? { return; }
      if scheduledSent {
        DoApply(current, now);
        return;
      }
      state.Apply(current);
      CancelSendScheduled();
    }

    method OnMemberJoin(role: Role, now: int)
      requires Valid() && role in members
      modifies this, state
      ensures Valid() && Did(Join(old(Abs()), role, now))
    {
      var current := state.Current(now);
      SendTo(ToOne(role.id, Msg(current, now)));
      SendsOne(members, ToOne(role.id, Msg(current, now)));
      ghost var outs := [ToOne(role.id, Msg(current, now))];
      assert sends == old(sends) + Sends(members, outs);
      if state.pendingTs.Some? && scheduledSent && role.capable {
        var out := ToOne(role.id, Msg(state.pending, state.pendingTs.value));
        SendTo(out);
        SendsOne(members, out);
        SendsAppend(members, outs, [out]);
        ConcatAssociates(old(sends), Sends(members, outs), Sends(members, [out]));
      }
    }

    /** A role joins once; what it is sent on joining reaches only it. */
    method Subscribe(role: Role, now: int)
      requires Valid() && (forall m :: m in members && m.id == role.id ==> m == role)
      modifies this, state
      ensures Valid()
      ensures role in old(members) ==> members == old(members) && Abs() == old(Abs()) && sends == old(sends)
      ensures role !in old(members) ==>
        && members == old(members) + [role]
        && Abs() == Join(old(Abs()), role, now).server
        && sends == old(sends) + Sends(members, Join(old(Abs()), role, now).outs)
    {
      if role in members { return; }
      members := members + [role];
      OnMemberJoin(role, now);
    }

    method Unsubscribe(role: Role)
      requires Valid()
      modifies `members
      ensures Valid() && role !in members
      ensures members == Dropped(old(members), role)
    {
      DroppedKeepsRest(members, role);
      if role in members { members := Dropped(members, role); }
    }

    method OnTimer()
      requires Valid()
      modifies this
      ensures Valid() && Did(Fire(old(Abs())))
    {
      match timer {
        case NoTimer => ConcatEmpty(sends);
        case SendAt(_) => DoSendScheduled();
        case DueAt(msg) => DoSendDue(msg);
      }
    }
  }
}
