/** A room together with a record of its whole run, and what each step adds to that record. */
module RoomHistory {
  import opened ChatTypes
  import opened RoomMachine
  import opened RoomSafety

  /** What has left a send channel, oldest first: in all, by the write pump, and by the close idiom. */
  datatype Gone = Gone(all: seq<Message>, written: seq<Message>, discarded: seq<Message>)

  /** A dispatched message with the members at that moment and the connections whose channel was full. */
  datatype Dispatched = Dispatched(msg: Message, members: set<ConnId>, full: set<ConnId>)

  datatype Session = Admitted(c: ConnId, id: string) | Unregistered(c: ConnId)

  /** `pushed` holds every message that ever entered the broadcast channel; `lost` holds the IDs whose latest change
      of membership put no event there; `occupied` is the last time the room was seen to have a member. */
  datatype History = History(
    gone: map<ConnId, Gone>,
    pushed: seq<Message>,
    dispatched: seq<Dispatched>,
    lost: set<string>,
    sessions: seq<Session>,
    occupied: Option<int>)

  datatype World = World(room: RoomState, history: History)

  function GoneOf(h: History, c: ConnId): Gone {
    if c in h.gone then h.gone[c] else Gone([], [], [])
  }

  function GoneAfter(g: Gone, before: seq<Message>, after: seq<Message>, byWriter: bool): Gone {
    if |after| >= |before| then g
    else if byWriter then g.(all := g.all + before[..1], written := g.written + before[..1])
    else g.(all := g.all + before[..1], discarded := g.discarded + before[..1])
  }

  function GoneMap(s: RoomState, e: Event, t: RoomState, h: History): map<ConnId, Gone> {
    map c | c in s.conns :: if c in t.conns
        then GoneAfter(GoneOf(h, c), s.Chan(c).queue, t.Chan(c).queue, e == Writing(c)) else GoneOf(h, c)
  }

  function SessionsAfter(s: RoomState, e: Event, t: RoomState, sessions: seq<Session>): seq<Session> {
    match e
    case Registering(c, online) => if t.Member(c) then sessions + [Admitted(c, t.conns[c].user.id)] else sessions
    case Unregistering(c) => sessions + [Unregistered(c)]
    case _ => sessions
  }

  function DispatchedAfter(s: RoomState, e: Event, dispatched: seq<Dispatched>): seq<Dispatched> {
    if e.Dispatching? && s.broadcast != [] then
      dispatched + [Dispatched(s.broadcast[0], set c | c in s.conns && s.Member(c),
          set c | c in s.conns && |s.Chan(c).queue| >= SEND_CAPACITY)]
    else dispatched
  }

  /** The IDs that came, went, or changed hands. */
  function ChangedIds(s: RoomState, t: RoomState): set<string> {
    set id | id in s.clients.Keys + t.clients.Keys
        && (id !in s.clients || id !in t.clients || s.clients[id] != t.clients[id])
  }

  /** The record is read off the rooms before and after the step. */
  function Observe(s: RoomState, e: Event, t: RoomState, h: History): History {
    History(
      GoneMap(s, e, t, h),
      if |t.broadcast| > |s.broadcast| then h.pushed + t.broadcast[|s.broadcast|..] else h.pushed,
      DispatchedAfter(s, e, h.dispatched),
      if |t.broadcast| > |s.broadcast| then h.lost - ChangedIds(s, t) else h.lost + ChangedIds(s, t),
      SessionsAfter(s, e, t, h.sessions),
      if s.clients != map[] then Some(t.now) else h.occupied)
  }

  ghost function Step(w: World, e: Event): World
    requires Enabled(w.room, e)
  {
    World(Next(w.room, e), Observe(w.room, e, Next(w.room, e), w.history))
  }

  function Start(code: string, maxClients: int, now: int): World {
    World(NewRoom(code, maxClients, now), History(map[], [], [], {}, [], None))
  }

  ghost predicate AllEnabled(w: World, es: seq<Event>)
    decreases |es|
  {
    es == [] || (Enabled(w.room, es[0]) && AllEnabled(Step(w, es[0]), es[1..]))
  }

  ghost function Run(w: World, es: seq<Event>): World
    requires AllEnabled(w, es)
    decreases |es|
  {
    if es == [] then w else Run(Step(w, es[0]), es[1..])
  }

  /** Everything that ever entered a connection's send channel, oldest first. */
  function Entered(w: World, c: ConnId): seq<Message>
    requires c in w.room.conns
  {
    GoneOf(w.history, c).all + w.room.Chan(c).queue
  }

  // ----- what a step puts into a send channel -----

  function Added(s: RoomState, e: Event, c: ConnId): seq<Message>
    requires c in s.conns
  {
    if |s.Chan(c).queue| >= SEND_CAPACITY then [] else
    match e
    case Registering(d, online) =>
      if c != d then []
      else if s.Rejects(s.conns[c].user.id) then [s.NewMessage(SYSTEM_USER, Error(ERR_UNKNOWN))]
      else [s.NewMessage(SYSTEM_USER, InitData(s.conns[c].user, online, s.maxClients))]
    case Dispatching => if s.broadcast != [] && Due(s, c, s.broadcast[0]) then s.broadcast[..1] else []
    case Accepting(d, payload, tempId) =>
      if c != d || tempId == "" then []
      else [Message(s.nextId + 1, s.code, s.conns[c].user, Confirm(tempId, s.nextId))]
    case Refusing(d, code) => if c == d then [s.NewMessage(SYSTEM_USER, Error(code))] else []
    case Refreshing(d, token) => if c == d then [s.NewMessage(SYSTEM_USER, TokenUpdate(token))] else []
    case _ => []
  }

  /** What connection `c` waits to push after the step. */
  function PendingAfter(s: RoomState, e: Event, c: ConnId): Option<Message>
    requires c in s.conns
  {
    match e
    case Accepting(d, payload, tempId) =>
        if c == d then Some(s.NewMessage(s.conns[c].user, payload)) else s.conns[c].pending
    case Pushing(d) => if c == d then None else s.conns[c].pending
    case _ => s.conns[c].pending
  }

  /** A send channel either gains exactly what the step adds, or loses its oldest message. */
  predicate QueueMoves(before: seq<Message>, after: seq<Message>, added: seq<Message>) {
    after == before + added || (added == [] && before != [] && after == before[1..])
  }

  predicate ConnMoves(s: RoomState, e: Event, t: RoomState, d: ConnId)
    requires d in s.conns
  {
    && d in t.conns && t.conns[d].user == s.conns[d].user && t.conns[d].pending == PendingAfter(s, e, d)
    && QueueMoves(s.conns[d].send.queue, t.conns[d].send.queue, Added(s, e, d))
  }

  lemma RejectMoves(s: RoomState, c: ConnId, online: seq<User>, d: ConnId)
    requires c in s.conns && s.Chan(c).open && s.Rejects(s.conns[c].user.id) && d in s.conns
    ensures ConnMoves(s, Registering(c, online), Register(s, c, online), d)
  {
  }

  lemma AdmitMoves(s: RoomState, c: ConnId, d: ConnId)
    requires c in s.conns && KeySafe(s, s.conns[c].user.id) && !s.Member(c) && d in s.conns
    ensures d in Admit(s, c).conns && Admit(s, c).conns[d].user == s.conns[d].user
    ensures Admit(s, c).conns[d].pending == s.conns[d].pending
    ensures d == c ==> Admit(s, c).conns[d].send == s.conns[d].send
    ensures QueueMoves(s.conns[d].send.queue, Admit(s, c).conns[d].send.queue, [])
  {
  }

  lemma RegisterMoves(s: RoomState, c: ConnId, online: seq<User>, d: ConnId)
    requires c in s.conns && !s.conns[c].offered && KeySafe(s, s.conns[c].user.id)
    requires d in s.conns && ConnSafe(s, c)
    ensures ConnMoves(s, Registering(c, online), Register(s, c, online), d)
  {
    if s.Rejects(s.conns[c].user.id) {
      RejectMoves(s, c, online, d);
    } else {
      AdmitMoves(s, c, d);
      AdmitMoves(s, c, c);
      var s1 := Admit(s, c);
      var t := Register(s, c, online);
      assert d != c ==> t.conns[d] == s1.conns[d];
    }
  }

  lemma UnregisterMoves(s: RoomState, c: ConnId, d: ConnId)
    requires c in s.conns && d in s.conns
    ensures ConnMoves(s, Unregistering(c), Unregister(s, c), d)
  {
  }

  lemma ExitMoves(s: RoomState, e: Event, d: ConnId)
    requires d in s.conns && (e.TimerFiring? || e.StopSeen?)
    ensures ConnMoves(s, e, Exit(s), d)
  {
  }

  lemma DispatchMoves(s: RoomState, d: ConnId)
    requires s.broadcast != [] && s.status != Done
    requires d in s.conns && ConnSafe(s, d)
    ensures ConnMoves(s, Dispatching, Dispatch(s), d)
  {
    assert s.broadcast[..1] == [s.broadcast[0]];
  }

  lemma AcceptMoves(s: RoomState, c: ConnId, payload: Payload, tempId: string, d: ConnId)
    requires c in s.conns && (tempId != "" ==> s.Chan(c).open) && d in s.conns
    ensures ConnMoves(s, Accepting(c, payload, tempId), Accept(s, c, payload, tempId), d)
  {
  }

  lemma FinishRejectMoves(s: RoomState, d: ConnId)
    requires s.rejecting.Some? && s.rejecting.value in s.conns && d in s.conns
    ensures ConnMoves(s, FinishingReject, FinishReject(s), d)
  {
  }

  lemma OutsideMoves(s: RoomState, e: Event, d: ConnId)
    requires Enabled(s, e) && d in s.conns && !IsLoopStep(e)
    ensures ConnMoves(s, e, Next(s, e), d)
  {
    if e.Accepting? {
      AcceptMoves(s, e.c, e.payload, e.tempId, d);
    }
  }

  lemma StepMoves(s: RoomState, e: Event, d: ConnId)
    requires Safe(s) && Enabled(s, e) && d in s.conns
    ensures ConnMoves(s, e, Next(s, e), d)
  {
    if !IsLoopStep(e) {
      OutsideMoves(s, e, d);
    } else {
      assert ConnSafe(s, d);
      match e
      case Registering(c, online) => RegisterMoves(s, c, online, d);
      case FinishingReject => FinishRejectMoves(s, d);
      case Unregistering(c) => UnregisterMoves(s, c, d);
      case Dispatching => DispatchMoves(s, d);
      case TimerFiring => ExitMoves(s, e, d);
      case StopSeen => ExitMoves(s, e, d);
    }
  }

  lemma GoneEnters(g: Gone, before: seq<Message>, after: seq<Message>, byWriter: bool, added: seq<Message>)
    requires QueueMoves(before, after, added)
    ensures GoneAfter(g, before, after, byWriter).all + after == (g.all + before) + added
  {
    if |after| >= |before| {
      assert (g.all + before) + added == g.all + (before + added);
    } else {
      assert before == before[..1] + before[1..];
      assert (g.all + before[..1]) + before[1..] == g.all + (before[..1] + before[1..]);
    }
  }

  lemma ObserveEnters(s: RoomState, e: Event, t: RoomState, h: History, d: ConnId, added: seq<Message>)
    requires d in s.conns && d in t.conns
    requires QueueMoves(s.Chan(d).queue, t.Chan(d).queue, added)
    ensures Entered(World(t, Observe(s, e, t, h)), d) == Entered(World(s, h), d) + added
  {
    GoneEnters(GoneOf(h, d), s.Chan(d).queue, t.Chan(d).queue, e == Writing(d), added);
    assert GoneOf(Observe(s, e, t, h), d) == GoneMap(s, e, t, h)[d];
  }

  // ----- what a step puts into the broadcast channel -----

  function Pushed(s: RoomState, e: Event): seq<Message> {
    match e
    case Registering(c, online) =>
      if c !in s.conns || s.Rejects(s.conns[c].user.id) || |s.Chan(c).queue| >= SEND_CAPACITY
          || |s.broadcast| >= BROADCAST_CAPACITY
          then []
      else [Message(s.nextId + 1, s.code, SYSTEM_USER, UserJoined(s.conns[c].user))]
    case Unregistering(c) =>
      if c !in s.conns || !s.Member(c) || |s.broadcast| >= BROADCAST_CAPACITY then []
      else [s.NewMessage(SYSTEM_USER, UserLeft(s.conns[c].user))]
    case Pushing(c) => if c in s.conns && s.conns[c].pending.Some? then [s.conns[c].pending.value] else []
    case _ => []
  }

  predicate Takes(e: Event) {
    e.Dispatching? || e.TimerFiring? || e.StopSeen?
  }

  /** The fresh message identifiers a step hands out lie between the counter before and after it. */
  predicate FreshIds(s: RoomState, e: Event, t: RoomState) {
    && t.nextId >= s.nextId
    && (e.Accepting? ==> t.nextId > s.nextId)
    && (!e.Pushing? && Pushed(s, e) != [] ==> s.nextId <= Pushed(s, e)[0].id < t.nextId)
  }

  /** The newcomer is admitted, but its channel has no room for the snapshot. */
  predicate Hangs(s: RoomState, e: Event) {
    e.Registering? && e.c in s.conns && !s.Rejects(s.conns[e.c].user.id) && |s.Chan(e.c).queue| >= SEND_CAPACITY
  }

  predicate BroadcastMoves(s: RoomState, e: Event, t: RoomState) {
    && FreshIds(s, e, t)
    && t.code == s.code && t.maxClients == s.maxClients && t.now >= s.now
    && t.broadcast
        == (if Takes(e) then (if s.broadcast == [] then [] else s.broadcast[1..]) else s.broadcast + Pushed(s, e))
    && (t.status == Done <==> s.status == Done || e.TimerFiring? || e.StopSeen?)
    && (t.status == Running ==> s.status == Running && !Hangs(s, e))
  }

  lemma RegisterBroadcasts(s: RoomState, c: ConnId, online: seq<User>)
    requires c in s.conns && !s.conns[c].offered && KeySafe(s, s.conns[c].user.id) && ConnSafe(s, c)
    requires s.status == Running
    ensures BroadcastMoves(s, Registering(c, online), Register(s, c, online))
  {
    if !s.Rejects(s.conns[c].user.id) {
      AdmitMoves(s, c, c);
    }
  }

  lemma UnregisterBroadcasts(s: RoomState, c: ConnId)
    requires c in s.conns && s.status == Running
    ensures BroadcastMoves(s, Unregistering(c), Unregister(s, c))
  {
  }

  lemma ExitBroadcasts(s: RoomState, e: Event)
    requires e.TimerFiring? || e.StopSeen?
    ensures BroadcastMoves(s, e, Exit(s))
  {
  }

  lemma DispatchBroadcasts(s: RoomState)
    requires s.broadcast != []
    ensures BroadcastMoves(s, Dispatching, Dispatch(s))
  {
  }

  lemma AcceptBroadcasts(s: RoomState, c: ConnId, payload: Payload, tempId: string)
    requires c in s.conns
    ensures BroadcastMoves(s, Accepting(c, payload, tempId), Accept(s, c, payload, tempId))
  {
  }

  lemma OutsideBroadcasts(s: RoomState, e: Event)
    requires Enabled(s, e) && !IsLoopStep(e)
    ensures BroadcastMoves(s, e, Next(s, e))
  {
    if e.Accepting? {
      AcceptBroadcasts(s, e.c, e.payload, e.tempId);
    }
  }

  lemma StepBroadcasts(s: RoomState, e: Event)
    requires Safe(s) && Enabled(s, e)
    ensures BroadcastMoves(s, e, Next(s, e))
  {
    if !IsLoopStep(e) {
      OutsideBroadcasts(s, e);
    } else {
      match e
      case Registering(c, online) =>
          assert ConnSafe(s, c) && KeySafe(s, s.conns[c].user.id); RegisterBroadcasts(s, c, online);
      case FinishingReject =>
      case Unregistering(c) => UnregisterBroadcasts(s, c);
      case Dispatching => DispatchBroadcasts(s);
      case TimerFiring => ExitBroadcasts(s, e);
      case StopSeen => ExitBroadcasts(s, e);
    }
  }

  // ----- a step as its observable changes -----

  predicate Born(s: RoomState, e: Event, t: RoomState, d: ConnId)
    requires d in t.conns
  {
    d !in s.conns ==> e.Connecting? && t.conns[d] == Conn(e.user, EMPTY_CHANNEL, None, false)
  }

  lemma RegisterBears(s: RoomState, c: ConnId, online: seq<User>, d: ConnId)
    requires c in s.conns && KeySafe(s, s.conns[c].user.id)
    ensures d in Register(s, c, online).conns ==> d in s.conns
  {
  }

  lemma UnregisterBears(s: RoomState, c: ConnId, d: ConnId)
    requires c in s.conns
    ensures d in Unregister(s, c).conns ==> d in s.conns
  {
  }

  lemma AcceptBears(s: RoomState, c: ConnId, payload: Payload, tempId: string, d: ConnId)
    requires c in s.conns
    ensures d in Accept(s, c, payload, tempId).conns ==> d in s.conns
  {
  }

  lemma StepBears(s: RoomState, e: Event, d: ConnId)
    requires Safe(s) && Enabled(s, e) && d in Next(s, e).conns
    ensures Born(s, e, Next(s, e), d)
  {
    match e
    case Registering(c, online) => RegisterBears(s, c, online, d);
    case Unregistering(c) => UnregisterBears(s, c, d);
    case Accepting(c, payload, tempId) => AcceptBears(s, c, payload, tempId, d);
    case _ =>
  }

  /** What the lemmas about runs use of a step. */
  ghost predicate Moved(w: World, e: Event, w': World) {
    && w'.history == Observe(w.room, e, w'.room, w.history)
    && (e.Dispatching? ==> w.room.status != Done && w.room.broadcast != [])
    && BroadcastMoves(w.room, e, w'.room)
    && (forall d | d in w.room.conns :: ConnMoves(w.room, e, w'.room, d))
    && (forall d | d in w'.room.conns :: Born(w.room, e, w'.room, d))
  }

  lemma StepMoved(w: World, e: Event)
    requires Safe(w.room) && Enabled(w.room, e)
    ensures Moved(w, e, Step(w, e))
  {
    StepBroadcasts(w.room, e);
    forall d | d in w.room.conns ensures ConnMoves(w.room, e, Next(w.room, e), d) {
      StepMoves(w.room, e, d);
    }
    forall d | d in Next(w.room, e).conns ensures Born(w.room, e, Next(w.room, e), d) {
      StepBears(w.room, e, d);
    }
  }

  lemma MovedEnters(w: World, e: Event, w': World, d: ConnId)
    requires Moved(w, e, w') && d in w.room.conns
    ensures d in w'.room.conns && Entered(w', d) == Entered(w, d) + Added(w.room, e, d)
  {
    assert ConnMoves(w.room, e, w'.room, d);
    ObserveEnters(w.room, e, w'.room, w.history, d, Added(w.room, e, d));
  }
}
