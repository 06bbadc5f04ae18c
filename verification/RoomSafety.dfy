/** What every step of a room keeps: the membership map, its capacity, the inactivity timer, and the
    discipline of the send channels. */
module RoomSafety {
  import opened ChatTypes
  import opened RoomMachine

  /** A channel never sent on while closed, closed at most once, and never over its capacity. */
  predicate Sound(ch: Channel) {
    ch.faults == 0 && ch.closes == (if ch.open then 0 else 1) && |ch.queue| <= SEND_CAPACITY
  }

  /** A connection's channel is sound; it is open before the loop meets it and while it is a member. */
  predicate ConnSafe(s: RoomState, d: ConnId)
    requires d in s.conns
  {
    && Sound(s.conns[d].send)
    && (!s.conns[d].offered ==> s.conns[d].send.open && !s.Member(d))
    && (s.status != Done && s.Member(d) ==> s.conns[d].send.open)
  }

  /** A key of the membership map names a known connection whose user has that ID. */
  predicate KeySafe(s: RoomState, id: string) {
    id in s.clients ==> s.clients[id] in s.conns && s.conns[s.clients[id]].user.id == id
  }

  /** Capacities hold, and a connection being rejected is no member of its non-empty room. */
  predicate LoopSafe(s: RoomState) {
    && (s.maxClients > 0 ==> |s.clients| <= s.maxClients)
    && |s.broadcast| <= BROADCAST_CAPACITY
    && (s.rejecting.Some? ==>
          && s.rejecting.value in s.conns && s.conns[s.rejecting.value].offered && !s.Member(s.rejecting.value)
          && s.clients != map[])
  }

  ghost predicate Safe(s: RoomState) {
    && (forall d | d in s.conns :: ConnSafe(s, d))
    && (forall id :: KeySafe(s, id))
    && LoopSafe(s)
  }

  /** While the loop runs, the inactivity timer is armed exactly when the room is empty. */
  predicate TimerMatches(s: RoomState) {
    s.status == Running ==> (s.timer.Some? <==> s.clients == map[])
  }

  // ----- the operations handlers are made of -----

  lemma SendKeeps(s: RoomState, c: ConnId, sender: User, payload: Payload)
    requires Safe(s) && c in s.conns && s.Chan(c).open
    ensures Safe(s.Send(c, sender, payload))
  {
    var t := s.Send(c, sender, payload);
    assert forall d | d in t.conns :: ConnSafe(s, d) ==> ConnSafe(t, d);
    assert forall k :: KeySafe(s, k) ==> KeySafe(t, k);
  }

  lemma KickKeeps(s: RoomState, c: ConnId)
    requires Safe(s) && c in s.conns && s.conns[c].offered && !s.Member(c)
    ensures Safe(s.Kick(c))
  {
    var t := s.Kick(c);
    assert forall d | d in t.conns :: ConnSafe(s, d) ==> ConnSafe(t, d);
    assert forall k :: KeySafe(s, k) ==> KeySafe(t, k);
  }

  lemma PostKeeps(s: RoomState, payload: Payload)
    requires Safe(s)
    ensures Safe(s.Post(payload))
  {
    var t := s.Post(payload);
    assert forall d | d in t.conns :: ConnSafe(s, d) ==> ConnSafe(t, d);
    assert forall k :: KeySafe(s, k) ==> KeySafe(t, k);
  }

  // ----- the loop's handlers -----

  lemma AdmitKeeps(s: RoomState, c: ConnId)
    requires Safe(s) && c in s.conns && !s.conns[c].offered && LoopReady(s) && !s.Rejects(s.conns[c].user.id)
    requires KeySafe(s, s.conns[c].user.id)
    ensures Safe(Admit(s, c)) && Admit(s, c).Member(c) && Admit(s, c).Chan(c).open
  {
    var id := s.conns[c].user.id;
    var t := Admit(s, c);
    assert ConnSafe(s, c);
    forall d | d in t.conns ensures ConnSafe(t, d) {
      assert ConnSafe(s, d);
    }
    forall k ensures KeySafe(t, k) {
      assert KeySafe(s, k);
    }
    assert t.clients.Keys == s.clients.Keys + {id};
  }

  lemma RejectKeeps(s: RoomState, c: ConnId)
    requires Safe(s) && c in s.conns && !s.conns[c].offered && LoopReady(s) && s.Rejects(s.conns[c].user.id)
    ensures Safe(Reject(s, c))
  {
    var s1 := s.(timer := None, rejecting := Some(c), conns := s.conns[c := s.conns[c].(offered := true)]);
    assert ConnSafe(s, c);
    assert forall d | d in s1.conns :: ConnSafe(s, d) ==> ConnSafe(s1, d);
    assert forall k :: KeySafe(s, k) ==> KeySafe(s1, k);
    SendKeeps(s1, c, SYSTEM_USER, Error(ERR_UNKNOWN));
  }

  lemma HangKeeps(s: RoomState)
    requires Safe(s) && s.status != Done
    ensures Safe(s.(status := Hung))
  {
    var t := s.(status := Hung);
    assert forall d | d in t.conns :: ConnSafe(s, d) ==> ConnSafe(t, d);
    assert forall k :: KeySafe(s, k) ==> KeySafe(t, k);
  }

  lemma GreetKeeps(s: RoomState, c: ConnId, online: seq<User>)
    requires Safe(s) && c in s.conns && s.Chan(c).open && s.status != Done
    ensures Safe(Greet(s, c, online))
  {
    var user := s.conns[c].user;
    var s1 := s.Send(c, SYSTEM_USER, InitData(user, online, s.maxClients));
    SendKeeps(s, c, SYSTEM_USER, InitData(user, online, s.maxClients));
    if s.Chan(c).IsFull() {
      HangKeeps(s1);
    } else {
      PostKeeps(s1, UserJoined(user));
    }
  }

  lemma RegisterKeeps(s: RoomState, c: ConnId, online: seq<User>)
    requires Safe(s) && c in s.conns && !s.conns[c].offered && LoopReady(s)
    requires KeySafe(s, s.conns[c].user.id)
    ensures Safe(Register(s, c, online))
  {
    if s.Rejects(s.conns[c].user.id) {
      RejectKeeps(s, c);
    } else {
      AdmitKeeps(s, c);
      GreetKeeps(Admit(s, c), c, online);
    }
  }

  lemma RemoveKeeps(s: RoomState, c: ConnId)
    requires Safe(s) && c in s.conns && s.Member(c) && s.rejecting.None?
    ensures Safe(s.(clients := s.clients - {s.conns[c].user.id}))
  {
    var t := s.(clients := s.clients - {s.conns[c].user.id});
    assert forall d | d in t.conns :: ConnSafe(s, d) ==> ConnSafe(t, d);
    assert forall k :: KeySafe(s, k) ==> KeySafe(t, k);
    assert t.clients.Keys <= s.clients.Keys;
  }

  lemma UnregisterKeeps(s: RoomState, c: ConnId)
    requires Safe(s) && c in s.conns && LoopReady(s)
    ensures Safe(Unregister(s, c))
  {
    if s.Member(c) {
      var s1 := s.(clients := s.clients - {s.conns[c].user.id});
      RemoveKeeps(s, c);
      assert ConnSafe(s, c);
      KickKeeps(s1, c);
      var s2 := s1.Kick(c).Post(UserLeft(s.conns[c].user));
      PostKeeps(s1.Kick(c), UserLeft(s.conns[c].user));
      var t := Unregister(s, c);
      forall d | d in t.conns ensures ConnSafe(t, d) {
        assert ConnSafe(s2, d);
      }
      forall k ensures KeySafe(t, k) {
        assert KeySafe(s2, k);
      }
    }
  }

  lemma FinishRejectKeeps(s: RoomState)
    requires Safe(s) && s.rejecting.Some?
    ensures Safe(FinishReject(s))
  {
    var c := s.rejecting.value;
    KickKeeps(s, c);
    var s1 := s.Kick(c);
    var t := FinishReject(s);
    assert forall d | d in t.conns :: ConnSafe(s1, d) ==> ConnSafe(t, d);
    assert forall k :: KeySafe(s1, k) ==> KeySafe(t, k);
  }

  lemma DispatchKeeps(s: RoomState)
    requires Safe(s) && s.broadcast != [] && s.status != Done
    ensures Safe(Dispatch(s))
  {
    var t := Dispatch(s);
    assert forall d | d in t.conns :: ConnSafe(s, d) ==> ConnSafe(t, d);
    assert forall k :: KeySafe(s, k) ==> KeySafe(t, k);
  }

  lemma ExitKeeps(s: RoomState)
    requires Safe(s) && s.status != Done
    ensures Safe(Exit(s))
  {
    var t := Exit(s);
    assert forall d | d in t.conns :: ConnSafe(s, d) ==> ConnSafe(t, d);
    assert forall k :: KeySafe(s, k) ==> KeySafe(t, k);
  }

  // ----- the connections' steps -----

  lemma ConnectKeeps(s: RoomState, user: User, c: ConnId)
    requires Safe(s) && c !in s.conns
    ensures Safe(s.(conns := s.conns[c := Conn(user, EMPTY_CHANNEL, None, false)]))
  {
    var t := s.(conns := s.conns[c := Conn(user, EMPTY_CHANNEL, None, false)]);
    assert KeySafe(s, user.id);
    forall d | d in t.conns ensures ConnSafe(t, d) {
      assert d != c ==> ConnSafe(s, d);
    }
    assert forall k :: KeySafe(s, k) ==> KeySafe(t, k);
  }

  /** Changing what a connection waits to push, the broadcast queue, the stop signal and the clock. */
  lemma OutboxKeeps(s: RoomState, t: RoomState, c: ConnId, pending: Option<Message>)
    requires Safe(s) && c in s.conns
    requires t == s.(conns := s.conns[c := s.conns[c].(pending := pending)], broadcast := t.broadcast,
             nextId := t.nextId)
    requires |t.broadcast| <= BROADCAST_CAPACITY
    ensures Safe(t)
  {
    assert forall d | d in t.conns :: ConnSafe(s, d) ==> ConnSafe(t, d);
    assert forall k :: KeySafe(s, k) ==> KeySafe(t, k);
  }

  lemma AcceptKeeps(s: RoomState, c: ConnId, payload: Payload, tempId: string)
    requires Safe(s) && c in s.conns && (tempId != "" ==> s.Chan(c).open)
    ensures Safe(Accept(s, c, payload, tempId))
  {
    var m := s.NewMessage(s.conns[c].user, payload);
    var s1 := s.(nextId := s.nextId + 1, conns := s.conns[c := s.conns[c].(pending := Some(m))]);
    OutboxKeeps(s, s1, c, Some(m));
    if tempId != "" {
      SendKeeps(s1, c, s.conns[c].user, Confirm(tempId, m.id));
    }
  }

  lemma WriteKeeps(s: RoomState, c: ConnId)
    requires Safe(s) && c in s.conns && s.Chan(c).queue != []
    ensures Safe(Write(s, c))
  {
    var t := Write(s, c);
    assert forall d | d in t.conns :: ConnSafe(s, d) ==> ConnSafe(t, d);
    assert forall k :: KeySafe(s, k) ==> KeySafe(t, k);
  }

  lemma ClockKeeps(s: RoomState, stopClosed: bool, now: int)
    requires Safe(s)
    ensures Safe(s.(stopClosed := stopClosed, now := now))
  {
    var t := s.(stopClosed := stopClosed, now := now);
    assert forall d | d in t.conns :: ConnSafe(s, d) ==> ConnSafe(t, d);
    assert forall k :: KeySafe(s, k) ==> KeySafe(t, k);
  }

  predicate IsLoopStep(e: Event) {
    e.Registering? || e.FinishingReject? || e.Unregistering? || e.Dispatching? || e.TimerFiring? || e.StopSeen?
  }

  lemma LoopKeepsSafe(s: RoomState, e: Event)
    requires Safe(s) && Enabled(s, e) && IsLoopStep(e)
    ensures Safe(Next(s, e))
  {
    match e
    case Registering(c, online) => RegisterKeeps(s, c, online);
    case FinishingReject => FinishRejectKeeps(s);
    case Unregistering(c) => UnregisterKeeps(s, c);
    case Dispatching => DispatchKeeps(s);
    case TimerFiring => ExitKeeps(s);
    case StopSeen => ExitKeeps(s);
  }

  lemma OutsideKeepsSafe(s: RoomState, e: Event)
    requires Safe(s) && Enabled(s, e) && !IsLoopStep(e)
    ensures Safe(Next(s, e))
  {
    match e
    case Connecting(user, c) => ConnectKeeps(s, user, c);
    case Stopping => ClockKeeps(s, true, s.now);
    case Accepting(c, payload, tempId) => AcceptKeeps(s, c, payload, tempId);
    case Refusing(c, code) => SendKeeps(s, c, SYSTEM_USER, Error(code));
    case Refreshing(c, token) => SendKeeps(s, c, SYSTEM_USER, TokenUpdate(token));
    case Pushing(c) => OutboxKeeps(s, Push(s, c), c, None);
    case Writing(c) => WriteKeeps(s, c);
    case Passing(d) => ClockKeeps(s, s.stopClosed, s.now + d);
  }

  lemma StepKeepsSafe(s: RoomState, e: Event)
    requires Safe(s) && Enabled(s, e)
    ensures Safe(Next(s, e))
  {
    if IsLoopStep(e) {
      LoopKeepsSafe(s, e);
    } else {
      OutsideKeepsSafe(s, e);
    }
  }
}
