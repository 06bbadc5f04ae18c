/** One room as a machine: the handlers of its event loop and the steps of its connections' goroutines. */
module RoomMachine {
  import opened ChatTypes
  import FileRules

  type ConnId = nat

  const BROADCAST_CAPACITY := 1024
  /** Five minutes, in nanoseconds. */
  const INACTIVITY_TIMEOUT := 300_000_000_000
  const ERR_UNKNOWN := 5000

  /** `Hung`: the loop blocked forever on its own unbuffered unregister channel. */
  datatype Status = Running | Hung | Done

  /** `pending` is the message the read pump waits to push; `offered` says that the loop has received
      this connection from the register channel. */
  datatype Conn = Conn(user: User, send: Channel, pending: Option<Message>, offered: bool)

  /** `timer` holds the deadline of an armed inactivity timer; `rejecting` is the connection the loop has
      refused and not yet finished with. `conns` holds every connection ever made to the room. */
  datatype RoomState = RoomState(
    code: string,
    maxClients: int,
    clients: map<string, ConnId>,
    broadcast: seq<Message>,
    broadcastOpen: bool,
    timer: Option<int>,
    stopClosed: bool,
    status: Status,
    rejecting: Option<ConnId>,
    conns: map<ConnId, Conn>,
    nextId: nat,
    now: int)
  {
    predicate Member(c: ConnId) {
      c in conns && conns[c].user.id in clients && clients[conns[c].user.id] == c
    }

    /** The capacity test made when a connection registers. */
    predicate Rejects(id: string) {
      id !in clients && maxClients > 0 && |clients| >= maxClients
    }

    /** The capacity test the HTTP handlers make beforehand. */
    predicate IsFull(checkId: string) {
      if checkId != "" && checkId in clients then false
      else maxClients > 0 && |clients| >= maxClients
    }

    function Chan(c: ConnId): Channel
      requires c in conns
    {
      conns[c].send
    }

    function WithChan(c: ConnId, ch: Channel): RoomState
      requires c in conns
    {
      this.(conns := conns[c := conns[c].(send := ch)])
    }

    function NewMessage(sender: User, payload: Payload): Message {
      Message(nextId, code, sender, payload)
    }

    /** Builds a message for one connection and offers it to that connection's send channel. */
    function Send(c: ConnId, sender: User, payload: Payload): RoomState
      requires c in conns
    {
      WithChan(c, Chan(c).TrySend(NewMessage(sender, payload))).(nextId := nextId + 1)
    }

    /** Builds a presence event and offers it to the broadcast channel, dropping it when that is full. */
    function Post(payload: Payload): RoomState {
      var m := NewMessage(SYSTEM_USER, payload);
      this.(broadcast := if |broadcast| < BROADCAST_CAPACITY then broadcast + [m] else broadcast, nextId := nextId + 1)
    }

    function Kick(c: ConnId): RoomState
      requires c in conns
    {
      WithChan(c, Chan(c).DrainOrClose())
    }
  }

  function NewRoom(code: string, maxClients: int, now: int): RoomState {
    RoomState(code, maxClients, map[], [], true, Some(now + INACTIVITY_TIMEOUT), false, Running, None, map[], 0, now)
  }

  /** Every key names a known connection whose user has that ID. */
  ghost predicate Linked(s: RoomState) {
    forall id | id in s.clients :: s.clients[id] in s.conns && s.conns[s.clients[id]].user.id == id
  }

  ghost function Users(s: RoomState): map<string, User>
    requires Linked(s)
  {
    map id | id in s.clients :: s.conns[s.clients[id]].user
  }

  /** `online` lists the users of the map, in whatever order the map was ranged over. */
  ghost predicate Lists(online: seq<User>, users: map<string, User>) {
    && |online| == |users|
    && (forall u | u in online :: u.id in users && users[u.id] == u)
    && (forall id | id in users :: users[id] in online)
  }

  // ----- the loop's handlers -----

  /** What registering does before the initial data is built: end the old session, stop the timer. */
  function Replace(s: RoomState, id: string): RoomState
    requires id in s.clients ==> s.clients[id] in s.conns
  {
    (if id in s.clients then s.Kick(s.clients[id]) else s).(timer := None)
  }

  function Admit(s: RoomState, c: ConnId): RoomState
    requires c in s.conns
    requires s.conns[c].user.id in s.clients ==> s.clients[s.conns[c].user.id] in s.conns
  {
    var s1 := Replace(s, s.conns[c].user.id);
    s1.(clients := s.clients[s.conns[c].user.id := c], conns := s1.conns[c := s1.conns[c].(offered := true)])
  }

  /** A full room queues an error for the newcomer. */
  function Reject(s: RoomState, c: ConnId): RoomState
    requires c in s.conns
  {
    var s1 := s.(timer := None, rejecting := Some(c), conns := s.conns[c := s.conns[c].(offered := true)]);
    s1.Send(c, SYSTEM_USER, Error(ERR_UNKNOWN))
  }

  /** The snapshot for the newcomer, and then its announcement; a newcomer whose channel is full hangs the loop. */
  function Greet(s: RoomState, c: ConnId, online: seq<User>): RoomState
    requires c in s.conns
  {
    var user := s.conns[c].user;
    var s1 := s.Send(c, SYSTEM_USER, InitData(user, online, s.maxClients));
    if s.Chan(c).IsFull() then s1.(status := Hung) else s1.Post(UserJoined(user))
  }

  function Register(s: RoomState, c: ConnId, online: seq<User>): RoomState
    requires c in s.conns
    requires s.conns[c].user.id in s.clients ==> s.clients[s.conns[c].user.id] in s.conns
  {
    if s.Rejects(s.conns[c].user.id) then Reject(s, c) else Greet(Admit(s, c), c, online)
  }

  function FinishReject(s: RoomState): RoomState
    requires s.rejecting.Some? && s.rejecting.value in s.conns
  {
    s.Kick(s.rejecting.value).(rejecting := None)
  }

  function Unregister(s: RoomState, c: ConnId): RoomState
    requires c in s.conns
  {
    if s.Member(c) then
      var s1 := s.(clients := s.clients - {s.conns[c].user.id}).Kick(c).Post(UserLeft(s.conns[c].user));
      if s1.clients == map[] then s1.(timer := Some(s.now + INACTIVITY_TIMEOUT)) else s1
    else s
  }

  /** Whether the loop offers message `m` to connection `c` when it dispatches it. */
  predicate Due(s: RoomState, c: ConnId, m: Message) {
    !m.payload.Error? && s.Member(c) && s.conns[c].user.id != m.sender.id
  }

  function Dispatch(s: RoomState): RoomState
    requires s.broadcast != []
  {
    var m := s.broadcast[0];
    s.(broadcast := s.broadcast[1..],
       conns := map c | c in s.conns ::
         if Due(s, c, m) then s.conns[c].(send := s.conns[c].send.TrySend(m)) else s.conns[c])
  }

  /** What is left of the room when its loop returns. */
  function Exit(s: RoomState): RoomState {
    s.(status := Done,
       timer := None,
       broadcast := if s.broadcast != [] then s.broadcast[1..] else [],
       broadcastOpen := s.broadcastOpen && s.broadcast != [],
       conns := map c | c in s.conns ::
         if s.Member(c) then s.conns[c].(send := s.conns[c].send.DrainOrClose()) else s.conns[c])
  }

  // ----- the connections' goroutines -----

  /** The read pump accepts a TEXT or ATTACHMENTS message: it names it, confirms it if the client gave it a
      temporary ID, and then holds it for the broadcast channel. */
  function Accept(s: RoomState, c: ConnId, payload: Payload, tempId: string): RoomState
    requires c in s.conns
  {
    var m := s.NewMessage(s.conns[c].user, payload);
    var s1 := s.(nextId := s.nextId + 1, conns := s.conns[c := s.conns[c].(pending := Some(m))]);
    if tempId == "" then s1 else s1.Send(c, s.conns[c].user, Confirm(tempId, m.id))
  }

  function Push(s: RoomState, c: ConnId): RoomState
    requires c in s.conns && s.conns[c].pending.Some?
  {
    s.(broadcast := s.broadcast + [s.conns[c].pending.value], conns := s.conns[c := s.conns[c].(pending := None)])
  }

  /** The write pump takes the oldest queued message. */
  function Write(s: RoomState, c: ConnId): RoomState
    requires c in s.conns && s.Chan(c).queue != []
  {
    s.WithChan(c, s.Chan(c).(queue := s.Chan(c).queue[1..]))
  }

  // ----- events -----

  datatype Event =
    | Connecting(user: User, c: ConnId)
    | Registering(c: ConnId, online: seq<User>)
    | FinishingReject
    | Unregistering(c: ConnId)
    | Dispatching
    | TimerFiring
    | StopSeen
    | Stopping
    | Accepting(c: ConnId, payload: Payload, tempId: string)
    | Refusing(c: ConnId, code: int)
    | Refreshing(c: ConnId, token: string)
    | Pushing(c: ConnId)
    | Writing(c: ConnId)
    | Passing(d: nat)

  predicate LoopReady(s: RoomState) {
    s.status == Running && s.rejecting.None?
  }

  /** When a step can happen. The loop's steps need the loop at its select; a connection's goroutines send
      on its channel only while that is open, and accept what its handlers' checks let pass; and each connection is
      offered to the loop at most once. */
  ghost predicate Enabled(s: RoomState, e: Event) {
    match e
    case Connecting(user, c) => c !in s.conns
    case Registering(c, online) =>
      LoopReady(s) && c in s.conns && !s.conns[c].offered && Linked(s)
      && (!s.Rejects(s.conns[c].user.id) ==> Lists(online, Users(s)[s.conns[c].user.id := s.conns[c].user]))
    case FinishingReject => s.status == Running && s.rejecting.Some? && s.rejecting.value in s.conns
    case Unregistering(c) => LoopReady(s) && c in s.conns
    case Dispatching => LoopReady(s) && s.broadcast != []
    case TimerFiring => LoopReady(s) && s.timer.Some? && s.now >= s.timer.value
    case StopSeen => LoopReady(s) && s.stopClosed
    case Stopping => true
    case Accepting(c, payload, tempId) =>
      c in s.conns && (tempId != "" ==> s.Chan(c).open) && s.conns[c].pending.None? && FileRules.Judged(s.code, payload)
    case Refusing(c, code) => c in s.conns && s.Chan(c).open
    case Refreshing(c, token) => c in s.conns && s.Chan(c).open
    case Pushing(c) => c in s.conns && s.conns[c].pending.Some? && s.broadcastOpen && |s.broadcast| < BROADCAST_CAPACITY
    case Writing(c) => c in s.conns && s.Chan(c).queue != []
    case Passing(d) => true
  }

  ghost function Next(s: RoomState, e: Event): RoomState
    requires Enabled(s, e)
  {
    match e
    case Connecting(user, c) => s.(conns := s.conns[c := Conn(user, EMPTY_CHANNEL, None, false)])
    case Registering(c, online) => Register(s, c, online)
    case FinishingReject => FinishReject(s)
    case Unregistering(c) => Unregister(s, c)
    case Dispatching => Dispatch(s)
    case TimerFiring => Exit(s)
    case StopSeen => Exit(s)
    case Stopping => s.(stopClosed := true)
    case Accepting(c, payload, tempId) => Accept(s, c, payload, tempId)
    case Refusing(c, code) => s.Send(c, SYSTEM_USER, Error(code))
    case Refreshing(c, token) => s.Send(c, SYSTEM_USER, TokenUpdate(token))
    case Pushing(c) => Push(s, c)
    case Writing(c) => Write(s, c)
    case Passing(d) => s.(now := s.now + d)
  }
}
