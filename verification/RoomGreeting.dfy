/** Every connection's snapshot comes first and comes once. */
module RoomGreeting {
  import opened ChatTypes
  import opened RoomMachine
  import opened RoomSafety
  import opened RoomHistory
  import opened RoomDelivery
  import opened RoomPresence

  predicate HasInit(ms: seq<Message>) {
    exists p :: 0 <= p < |ms| && ms[p].payload.InitData?
  }

  /** The snapshot names its receiver and the room's capacity, and counts the receiver among those present. */
  predicate InitFits(p: Payload, user: User, maxClients: int) {
    p.InitData? && p.currentUser == user && p.maxUsers == maxClients && user in p.onlineUsers
  }

  /** At most one snapshot, of the right content, and before every broadcast message. */
  ghost predicate InitFirst(ms: seq<Message>, user: User, maxClients: int) {
    && (forall p | 0 <= p < |ms| && ms[p].payload.InitData? ::
        InitFits(ms[p].payload, user, maxClients) && !HasInit(ms[..p]))
    && (forall q | 0 <= q < |ms| && ms[q].payload.IsBroadcast() :: HasInit(ms[..q]))
  }

  /** A connection the loop has not met has no snapshot; a member of a room whose loop is not stuck has one. */
  ghost predicate Greeted(w: World, c: ConnId)
    requires c in w.room.conns
  {
    var ms, conn := Entered(w, c), w.room.conns[c];
    && InitFirst(ms, conn.user, w.room.maxClients)
    && (!conn.offered ==> !HasInit(ms))
    && (w.room.status == Running && w.room.Member(c) ==> HasInit(ms))
  }

  predicate Joins(s: RoomState, e: Event, c: ConnId)
    requires c in s.conns
  {
    e.Registering? && e.c == c && !s.Rejects(s.conns[c].user.id)
  }

  /** How a step changes whether the loop has met a connection, and whether that is a member. */
  predicate Meets(s: RoomState, e: Event, t: RoomState, c: ConnId)
    requires c in s.conns && c in t.conns
  {
    && (t.conns[c].offered <==> s.conns[c].offered || (e.Registering? && e.c == c))
    && (t.status == Running ==> s.status == Running && !(Joins(s, e, c) && s.Chan(c).IsFull()))
    && (t.Member(c) ==> s.Member(c) || Joins(s, e, c))
  }

  lemma RegisterMeets(s: RoomState, d: ConnId, online: seq<User>, c: ConnId)
    requires d in s.conns && c in s.conns && KeySafe(s, s.conns[d].user.id) && s.status == Running
    requires !s.conns[d].offered && ConnSafe(s, d)
    ensures c in Register(s, d, online).conns && Meets(s, Registering(d, online), Register(s, d, online), c)
  {
    if !s.Rejects(s.conns[d].user.id) {
      AdmitMoves(s, d, c);
      AdmitMoves(s, d, d);
    }
  }

  lemma UnregisterMeets(s: RoomState, d: ConnId, c: ConnId)
    requires d in s.conns && c in s.conns
    ensures c in Unregister(s, d).conns && Meets(s, Unregistering(d), Unregister(s, d), c)
  {
  }

  lemma AcceptMeets(s: RoomState, d: ConnId, payload: Payload, tempId: string, c: ConnId)
    requires d in s.conns && c in s.conns
    ensures c in Accept(s, d, payload, tempId).conns
    ensures Meets(s, Accepting(d, payload, tempId), Accept(s, d, payload, tempId), c)
  {
  }

  lemma StepMeets(s: RoomState, e: Event, c: ConnId)
    requires Safe(s) && Enabled(s, e) && c in s.conns
    ensures c in Next(s, e).conns && Meets(s, e, Next(s, e), c)
  {
    if e.Registering? {
      assert ConnSafe(s, e.c) && KeySafe(s, s.conns[e.c].user.id);
      RegisterMeets(s, e.c, e.online, c);
    } else {
      OtherMeets(s, e, c);
    }
  }

  lemma OtherMeets(s: RoomState, e: Event, c: ConnId)
    requires Enabled(s, e) && c in s.conns && !e.Registering?
    ensures c in Next(s, e).conns && Meets(s, e, Next(s, e), c)
  {
    match e
    case Unregistering(d) => UnregisterMeets(s, d, c);
    case Accepting(d, payload, tempId) => AcceptMeets(s, d, payload, tempId, c);
    case _ =>
  }

  lemma HasInitMore(ms: seq<Message>, added: seq<Message>)
    requires |added| <= 1
    ensures HasInit(ms + added) <==> HasInit(ms) || (added != [] && added[0].payload.InitData?)
  {
    if added == [] {
      assert ms + added == ms;
    } else {
      assert (ms + added)[|ms|] == added[0];
      if HasInit(ms) {
        var p :| 0 <= p < |ms| && ms[p].payload.InitData?;
        assert (ms + added)[p] == ms[p];
      }
    }
  }

  lemma InitFirstMore(ms: seq<Message>, m: Message, user: User, maxClients: int)
    requires InitFirst(ms, user, maxClients)
    requires m.payload.InitData? ==> InitFits(m.payload, user, maxClients) && !HasInit(ms)
    requires m.payload.IsBroadcast() ==> HasInit(ms)
    ensures InitFirst(ms + [m], user, maxClients)
  {
    var all := ms + [m];
    assert all[..|ms|] == ms;
    assert forall p | 0 <= p < |ms| :: all[p] == ms[p] && all[..p] == ms[..p];
  }

  /** What a step adds to a channel is a snapshot exactly when its connection joins, and a broadcast message only
      when a message is dispatched to a member. */
  lemma AddedToGreeted(s: RoomState, e: Event, c: ConnId)
    requires c in s.conns && Linked(s) && Enabled(s, e)
    requires forall k | 0 <= k < |s.broadcast| :: !s.broadcast[k].payload.InitData?
    ensures var added := Added(s, e, c);
            && |added| <= 1
            && (added != [] && added[0].payload.InitData? ==>
                Joins(s, e, c) && InitFits(added[0].payload, s.conns[c].user, s.maxClients))
            && (Joins(s, e, c) && !s.Chan(c).IsFull() ==> added != [] && added[0].payload.InitData?)
            && (added != [] && added[0].payload.IsBroadcast() ==> s.status == Running && s.Member(c))
  {
    if Joins(s, e, c) {
      var id, user := s.conns[c].user.id, s.conns[c].user;
      assert Users(s)[id := user][id] == user;
    }
  }

  lemma GreetedKept(w: World, e: Event, w': World, c: ConnId)
    requires Moved(w, e, w') && c in w.room.conns && c in w'.room.conns && Greeted(w, c)
    requires Enabled(w.room, e) && Linked(w.room) && Meets(w.room, e, w'.room, c)
    requires Fifo(w) && Kinds(w)
    requires e.Registering? && e.c == c ==> !w.room.conns[c].offered
    ensures Greeted(w', c)
  {
    assert ConnMoves(w.room, e, w'.room, c);
    MovedEnters(w, e, w', c);
    var ms, added := Entered(w, c), Added(w.room, e, c);
    GreetedAdded(w, e, c);
    HasInitMore(ms, added);
    InitFirstGrows(ms, added, w.room.conns[c].user, w.room.maxClients);
  }

  lemma InitFirstGrows(ms: seq<Message>, added: seq<Message>, user: User, maxClients: int)
    requires InitFirst(ms, user, maxClients) && |added| <= 1
    requires added != [] && added[0].payload.InitData? ==> InitFits(added[0].payload, user, maxClients) && !HasInit(ms)
    requires added != [] && added[0].payload.IsBroadcast() ==> HasInit(ms)
    ensures InitFirst(ms + added, user, maxClients)
  {
    if added != [] {
      assert added == [added[0]];
      InitFirstMore(ms, added[0], user, maxClients);
    } else {
      assert ms + added == ms;
    }
  }

  lemma GreetedAdded(w: World, e: Event, c: ConnId)
    requires c in w.room.conns && Greeted(w, c) && Enabled(w.room, e) && Linked(w.room)
    requires Fifo(w) && Kinds(w)
    requires e.Registering? && e.c == c ==> !w.room.conns[c].offered
    ensures var added := Added(w.room, e, c);
            && |added| <= 1
            && (added != [] && added[0].payload.InitData? ==>
                  Joins(w.room, e, c) && InitFits(added[0].payload, w.room.conns[c].user, w.room.maxClients)
                      && !HasInit(Entered(w, c)))
            && (Joins(w.room, e, c) && !w.room.Chan(c).IsFull() ==> added != [] && added[0].payload.InitData?)
            && (added != [] && added[0].payload.IsBroadcast() ==> HasInit(Entered(w, c)))
  {
    if w.room.status != Done {
      QueuedBroadcastable(w);
      AddedToGreeted(w.room, e, c);
    } else {
      assert !e.Dispatching? && !e.Registering?;
    }
  }
}
