/** Session replacement against the plain record of who registered and unregistered, and the inactivity timer. */
module RoomSessions {
  import opened ChatTypes
  import opened RoomMachine
  import opened RoomSafety
  import opened RoomHistory
  import opened RoomPresence

  // ----- who owns an ID -----

  predicate Ends(x: Session, c: ConnId, id: string) {
    x == Unregistered(c) || (x.Admitted? && x.id == id)
  }

  /** Entry `i` admitted `c` for `id`, and nothing after it admitted another for `id` or unregistered `c`. */
  ghost predicate Holds(log: seq<Session>, id: string, c: ConnId, i: nat) {
    i < |log| && log[i] == Admitted(c, id) && forall j | i < j < |log| :: !Ends(log[j], c, id)
  }

  ghost predicate Owns(log: seq<Session>, id: string, c: ConnId) {
    exists i: nat :: Holds(log, id, c, i)
  }

  /** The membership map is the replay of the sessions. */
  ghost predicate Replays(s: RoomState, log: seq<Session>) {
    forall id, c :: (id in s.clients && s.clients[id] == c) <==> Owns(log, id, c)
  }

  lemma OwnsOneMore(log: seq<Session>, x: Session, id: string, c: ConnId)
    ensures Owns(log + [x], id, c) <==> x == Admitted(c, id) || (Owns(log, id, c) && !Ends(x, c, id))
  {
    var log' := log + [x];
    if Owns(log', id, c) {
      var i: nat :| Holds(log', id, c, i);
      if i < |log| {
        assert forall j | i < j < |log| :: log'[j] == log[j];
        assert Holds(log, id, c, i);
        assert log'[|log|] == x;
      }
    }
    if x == Admitted(c, id) {
      assert Holds(log', id, c, |log|);
    }
    if Owns(log, id, c) && !Ends(x, c, id) {
      var i: nat :| Holds(log, id, c, i);
      assert Holds(log', id, c, i);
    }
  }

  lemma AdmittedReplays(s: RoomState, t: RoomState, log: seq<Session>, c: ConnId, id: string)
    requires Replays(s, log) && t.clients == s.clients[id := c]
    ensures Replays(t, log + [Admitted(c, id)])
  {
    forall k, d ensures (k in t.clients && t.clients[k] == d) <==> Owns(log + [Admitted(c, id)], k, d) {
      OwnsOneMore(log, Admitted(c, id), k, d);
    }
  }

  lemma UnregisteredReplays(s: RoomState, t: RoomState, log: seq<Session>, c: ConnId, id: string)
    requires Replays(s, log)
    requires t.clients == if id in s.clients && s.clients[id] == c then s.clients - {id} else s.clients
    requires forall k | k in s.clients && s.clients[k] == c :: k == id
    ensures Replays(t, log + [Unregistered(c)])
  {
    forall k, d ensures (k in t.clients && t.clients[k] == d) <==> Owns(log + [Unregistered(c)], k, d) {
      OwnsOneMore(log, Unregistered(c), k, d);
    }
  }

  lemma ReplaysKept(w: World, e: Event, w': World)
    requires Moved(w, e, w') && w'.room.clients == ClientsAfter(w.room, e) && Linked(w.room)
    requires Replays(w.room, w.history.sessions)
    requires e.Registering? ==> e.c in w.room.conns && !w.room.Member(e.c)
    requires e.Unregistering? ==> e.c in w.room.conns
    ensures Replays(w'.room, w'.history.sessions)
  {
    var s, t, log := w.room, w'.room, w.history.sessions;
    if e.Registering? {
      assert ConnMoves(s, e, t, e.c);
      if t.Member(e.c) {
        AdmittedReplays(s, t, log, e.c, s.conns[e.c].user.id);
      }
    } else if e.Unregistering? {
      UnregisteredReplays(s, t, log, e.c, s.conns[e.c].user.id);
    }
  }

  // ----- the inactivity timer -----

  /** An empty running room's deadline is five minutes after it last had a member, or else after its creation. */
  predicate TimerCovers(w: World, created: int) {
    var s := w.room;
    s.status == Running && s.clients == map[] ==>
      s.timer == Some((if w.history.occupied.Some? then w.history.occupied.value else created) + INACTIVITY_TIMEOUT)
  }

  predicate OccupiedBefore(w: World, created: int) {
    created <= w.room.now && (w.history.occupied.Some? ==> created <= w.history.occupied.value <= w.room.now)
  }

  predicate TimerMoves(s: RoomState, e: Event, t: RoomState) {
    && t.now == (if e.Passing? then s.now + e.d else s.now)
    && (e.Passing? ==> t.clients == s.clients)
    && (t.status == Running ==>
          && s.status == Running
          && (t.clients != map[] ==> t.timer.None? || (s.clients != map[] && t.timer == s.timer))
          && (t.clients == map[] && s.clients != map[] ==> t.timer == Some(s.now + INACTIVITY_TIMEOUT))
          && (t.clients == map[] && s.clients == map[] ==> t.timer == s.timer))
  }

  lemma RegisterTimes(s: RoomState, c: ConnId, online: seq<User>)
    requires c in s.conns && KeySafe(s, s.conns[c].user.id) && s.status == Running
    ensures TimerMoves(s, Registering(c, online), Register(s, c, online))
  {
    var id := s.conns[c].user.id;
    assert s.Rejects(id) ==> s.clients != map[];
    assert !s.Rejects(id) ==> id in Register(s, c, online).clients;
  }

  lemma UnregisterTimes(s: RoomState, c: ConnId)
    requires c in s.conns
    ensures TimerMoves(s, Unregistering(c), Unregister(s, c))
  {
  }

  lemma StepTimes(s: RoomState, e: Event)
    requires Safe(s) && Enabled(s, e)
    ensures TimerMoves(s, e, Next(s, e))
  {
    match e
    case Registering(c, online) => assert KeySafe(s, s.conns[c].user.id); RegisterTimes(s, c, online);
    case Unregistering(c) => UnregisterTimes(s, c);
    case _ =>
  }

  lemma TimerMatchesKept(s: RoomState, e: Event, t: RoomState)
    requires TimerMoves(s, e, t) && TimerMatches(s)
    ensures TimerMatches(t)
  {
  }

  lemma TimerCoversKept(w: World, e: Event, w': World, created: int)
    requires Moved(w, e, w') && TimerMoves(w.room, e, w'.room) && TimerCovers(w, created) && OccupiedBefore(w, created)
    ensures TimerCovers(w', created) && OccupiedBefore(w', created)
  {
  }
}
