/** What the close idiom does to a connection the room lets go: its channel is closed, or it loses a message. */
module RoomParting {
  import opened ChatTypes
  import opened RoomMachine
  import opened RoomSafety
  import opened RoomHistory

  /** The loop met this connection and has let go of it: replaced, unregistered, rejected, or left at the loop's end. */
  predicate Departed(s: RoomState, c: ConnId) {
    c in s.conns && s.conns[c].offered && !(s.Member(c) && s.status != Done) && s.rejecting != Some(c)
  }

  /** Each departure closed the channel or took one queued message from it; nothing else ever does either. */
  predicate Parted(w: World, c: ConnId)
    requires c in w.room.conns
  {
    w.room.Chan(c).closes + |GoneOf(w.history, c).discarded| == (if Departed(w.room, c) then 1 else 0)
  }

  function Cost(before: Channel, after: Channel, byWriter: bool): int {
    after.closes - before.closes + (if !byWriter && |after.queue| < |before.queue| then 1 else 0)
  }

  predicate Parts(s: RoomState, e: Event, t: RoomState, d: ConnId)
    requires d in s.conns && d in t.conns
  {
    Cost(s.conns[d].send, t.conns[d].send, e == Writing(d)) ==
    (if Departed(t, d) then 1 else 0) - (if Departed(s, d) then 1 else 0)
  }

  lemma RejectParts(s: RoomState, c: ConnId, online: seq<User>, d: ConnId)
    requires c in s.conns && !s.conns[c].offered && s.Rejects(s.conns[c].user.id) && s.rejecting.None?
    requires d in s.conns && ConnSafe(s, c)
    ensures d in Register(s, c, online).conns && Parts(s, Registering(c, online), Register(s, c, online), d)
  {
  }

  lemma AdmitParts(s: RoomState, c: ConnId, d: ConnId)
    requires c in s.conns && !s.conns[c].offered && LoopReady(s)
    requires d in s.conns && ConnSafe(s, c) && ConnSafe(s, d) && KeySafe(s, s.conns[c].user.id)
    ensures d in Admit(s, c).conns && Parts(s, Registering(c, []), Admit(s, c), d)
  {
  }

  lemma GreetParts(s: RoomState, c: ConnId, online: seq<User>, d: ConnId)
    requires c in s.conns && d in s.conns && KeySafe(s, s.conns[c].user.id) && !s.Rejects(s.conns[c].user.id)
    requires s.status == Running && Admit(s, c).Chan(c).open
    ensures d in Admit(s, c).conns && d in Register(s, c, online).conns
    ensures Departed(Register(s, c, online), d) == Departed(Admit(s, c), d)
    ensures Cost(Admit(s, c).Chan(d), Register(s, c, online).Chan(d), false) == 0
    ensures |Register(s, c, online).Chan(d).queue| >= |Admit(s, c).Chan(d).queue|
    ensures d != c ==> Register(s, c, online).Chan(d) == Admit(s, c).Chan(d)
  {
  }

  lemma RegisterParts(s: RoomState, c: ConnId, online: seq<User>, d: ConnId)
    requires c in s.conns && !s.conns[c].offered && LoopReady(s)
    requires d in s.conns && ConnSafe(s, c) && ConnSafe(s, d) && KeySafe(s, s.conns[c].user.id)
    ensures d in Register(s, c, online).conns && Parts(s, Registering(c, online), Register(s, c, online), d)
  {
    if s.Rejects(s.conns[c].user.id) {
      RejectParts(s, c, online, d);
    } else {
      AdmitParts(s, c, d);
      AdmitMoves(s, c, c);
      GreetParts(s, c, online, d);
    }
  }

  lemma UnregisterParts(s: RoomState, c: ConnId, d: ConnId)
    requires c in s.conns && LoopReady(s) && d in s.conns && ConnSafe(s, d) && KeySafe(s, s.conns[d].user.id)
    ensures d in Unregister(s, c).conns && Parts(s, Unregistering(c), Unregister(s, c), d)
  {
  }

  lemma ExitParts(s: RoomState, e: Event, d: ConnId)
    requires (e.TimerFiring? || e.StopSeen?) && LoopReady(s) && d in s.conns && ConnSafe(s, d)
    ensures d in Exit(s).conns && Parts(s, e, Exit(s), d)
  {
  }

  lemma FinishRejectParts(s: RoomState, d: ConnId)
    requires s.rejecting.Some? && s.rejecting.value in s.conns && s.conns[s.rejecting.value].offered
    requires !s.Member(s.rejecting.value)
    requires s.Chan(s.rejecting.value).open && d in s.conns
    ensures d in FinishReject(s).conns && Parts(s, FinishingReject, FinishReject(s), d)
  {
  }

  lemma DispatchParts(s: RoomState, d: ConnId)
    requires s.broadcast != [] && d in s.conns
    ensures d in Dispatch(s).conns && Parts(s, Dispatching, Dispatch(s), d)
  {
  }

  lemma AcceptParts(s: RoomState, c: ConnId, payload: Payload, tempId: string, d: ConnId)
    requires c in s.conns && (tempId != "" ==> s.Chan(c).open) && d in s.conns
    ensures d in Accept(s, c, payload, tempId).conns
    ensures Parts(s, Accepting(c, payload, tempId), Accept(s, c, payload, tempId), d)
  {
  }

  lemma HandlerParts(s: RoomState, e: Event, d: ConnId)
    requires Safe(s) && Enabled(s, e) && d in s.conns
    requires e.Registering? || e.Unregistering? || e.TimerFiring? || e.StopSeen?
    ensures d in Next(s, e).conns && Parts(s, e, Next(s, e), d)
  {
    assert ConnSafe(s, d) && KeySafe(s, s.conns[d].user.id);
    match e
    case Registering(c, online) =>
        assert ConnSafe(s, c) && KeySafe(s, s.conns[c].user.id); RegisterParts(s, c, online, d);
    case Unregistering(c) => UnregisterParts(s, c, d);
    case TimerFiring => ExitParts(s, e, d);
    case StopSeen => ExitParts(s, e, d);
  }

  /** A step that leaves a connection's channel alone, and whether the loop has met it and counts it in. */
  lemma QuietParts(s: RoomState, e: Event, t: RoomState, d: ConnId)
    requires d in s.conns && d in t.conns && t.conns[d].user == s.conns[d].user
    requires t.conns[d].send == s.conns[d].send && t.conns[d].offered == s.conns[d].offered
    requires t.clients == s.clients && t.status == s.status && t.rejecting == s.rejecting
    ensures Parts(s, e, t, d)
  {
  }

  lemma SendParts(s: RoomState, e: Event, c: ConnId, sender: User, payload: Payload, d: ConnId)
    requires c in s.conns && d in s.conns && s.Chan(c).open
    ensures d in s.Send(c, sender, payload).conns && Parts(s, e, s.Send(c, sender, payload), d)
  {
  }

  lemma WriteParts(s: RoomState, c: ConnId, d: ConnId)
    requires c in s.conns && d in s.conns && s.Chan(c).queue != []
    ensures d in Write(s, c).conns && Parts(s, Writing(c), Write(s, c), d)
  {
  }

  lemma OutsideParts(s: RoomState, e: Event, d: ConnId)
    requires Enabled(s, e) && d in s.conns && (e.Connecting? || e.Stopping? || e.Passing? || e.Pushing?)
    ensures d in Next(s, e).conns && Parts(s, e, Next(s, e), d)
  {
    QuietParts(s, e, Next(s, e), d);
  }

  lemma StepParts(s: RoomState, e: Event, d: ConnId)
    requires Safe(s) && Enabled(s, e) && d in s.conns
    requires s.rejecting.Some? ==> s.Chan(s.rejecting.value).open
    ensures d in Next(s, e).conns && Parts(s, e, Next(s, e), d)
  {
    if e.Registering? || e.Unregistering? || e.TimerFiring? || e.StopSeen? {
      HandlerParts(s, e, d);
    } else if e.Connecting? || e.Stopping? || e.Passing? || e.Pushing? {
      OutsideParts(s, e, d);
    } else {
      match e
      case FinishingReject => FinishRejectParts(s, d);
      case Dispatching => DispatchParts(s, d);
      case Accepting(c, payload, tempId) => AcceptParts(s, c, payload, tempId, d);
      case Refusing(c, code) => SendParts(s, e, c, SYSTEM_USER, Error(code), d);
      case Refreshing(c, token) => SendParts(s, e, c, SYSTEM_USER, TokenUpdate(token), d);
      case Writing(c) => WriteParts(s, c, d);
    }
  }

  lemma PartedKept(w: World, e: Event, w': World, c: ConnId)
    requires Moved(w, e, w') && c in w.room.conns && c in w'.room.conns
    requires Parts(w.room, e, w'.room, c) && Parted(w, c)
    ensures Parted(w', c)
  {
    assert GoneOf(w'.history, c) == GoneMap(w.room, e, w'.room, w.history)[c];
  }
}
