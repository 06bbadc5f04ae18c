/** The room and its connections as the objects the server updates in place. Every method is proved to take the
    room's state exactly where the corresponding step of the room machine takes it. */
module ChatRoom {
  import opened ChatTypes
  import opened RoomMachine
  import FileRules
  import Registry
  import TokenRefresh

  /** Its messages are room codes; `senders` records which rooms they came from. */
  class CleanupChannel {
    var queue: seq<string>
    var open: bool
    ghost var senders: seq<nat>

    constructor ()
      ensures queue == [] && open && senders == []
    {
      queue, open, senders := [], true, [];
    }

    method Notify(code: string, ghost sender: nat)
      modifies this
      ensures queue
              == (if old(open) && |old(queue)| < Registry.CLEANUP_CAPACITY then old(queue) + [code] else old(queue))
      ensures open == old(open)
      ensures senders == if old(open) && |old(queue)| < Registry.CLEANUP_CAPACITY then old(senders) + [sender]
              else old(senders)
    {
      if open && |queue| < Registry.CLEANUP_CAPACITY {
        queue := queue + [code];
        senders := senders + [sender];
      }
    }
  }

  class Client {
    const room: Room
    const id: ConnId
    const user: User
    var queue: seq<Message>
    var open: bool
    var pending: Option<Message>
    var tokenExpiry: int
    /** The expiry in the latest token the client was sent. */
    ghost var actualExpiry: int
    ghost var closes: nat
    ghost var faults: nat
    ghost var offered: bool

    constructor (room: Room, id: ConnId, user: User, expiry: int)
      ensures this.room == room && this.id == id && this.user == user
      ensures Value() == Conn(user, EMPTY_CHANNEL, None, false) && Token() == TokenRefresh.Token(expiry, expiry)
    {
      this.room, this.id, this.user := room, id, user;
      tokenExpiry, actualExpiry := expiry, expiry;
      queue, open, pending, closes, faults, offered := [], true, None, 0, 0, false;
    }

    ghost function Value(): Conn
      reads this
    {
      Conn(user, Channel(queue, open, closes, faults), pending, offered)
    }

    ghost function Token(): TokenRefresh.Token
      reads this
    {
      TokenRefresh.Token(tokenExpiry, actualExpiry)
    }

    /** Non-blocking send on the client's channel; on a closed channel the sender would panic. */
    method TrySend(m: Message) returns (ok: bool)
      modifies this
      ensures Value() == old(Value()).(send := old(Value().send).TrySend(m)) && Token() == old(Token())
      ensures ok <==> |old(queue)| < SEND_CAPACITY
    {
      ok := |queue| < SEND_CAPACITY;
      if !open {
        faults := faults + 1;
      } else if ok {
        queue := queue + [m];
      }
    }

    method DrainOrClose()
      modifies this
      ensures Value() == old(Value()).(send := old(Value().send).DrainOrClose())
    {
      if queue != [] {
        queue := queue[1..];
      } else if open {
        open := false;
        closes := closes + 1;
      }
    }

    // ----- the read pump -----

    /** Names a message, confirms it to a client that gave it a temporary ID, and keeps it for `Push`. */
    method AcceptMessage(payload: Payload, tempId: string)
      requires room.Valid() && room.Knows(this) && pending.None?
      modifies room`nextId, this
      ensures room.State() == Accept(old(room.State()), id, payload, tempId)
    {
      ghost var s := room.State();
      var m := NameMessage(payload);
      if tempId != "" {
        var ok := room.SendTo(this, user, Confirm(tempId, m.id));
      }
      AcceptInTwo(s, id, payload, tempId);
    }

    method NameMessage(payload: Payload) returns (m: Message)
      requires room.Valid() && room.Knows(this)
      modifies room`nextId, this
      ensures m == old(room.State()).NewMessage(user, payload)
      ensures room.State() == Named(old(room.State()), id, payload) && id in old(room.Values())
      ensures old(room.Values())[id].user == user
    {
      m := Message(room.nextId, room.code, user, payload);
      room.nextId := room.nextId + 1;
      Hold(Some(m));
    }

    method Hold(message: Option<Message>)
      requires room.Valid() && room.Knows(this)
      modifies this
      ensures room.Values() == old(room.Values())[id := old(Value()).(pending := message)]
    {
      pending := message;
      room.OnlyChanged(this);
    }

    method HandleText(content: string, tempId: string)
      requires room.Valid() && room.Knows(this) && pending.None?
      modifies room`nextId, this
      ensures room.State() == match FileRules.JudgeText(content)
                              case Refused(code) => old(room.State()).Send(id, SYSTEM_USER, Error(code))
                              case Accepted(payload) => Accept(old(room.State()), id, payload, tempId)
    {
      if |content| > FileRules.MAX_CONTENT_BYTES {
        var ok := room.SendTo(this, SYSTEM_USER, Error(FileRules.ERR_CONTENT_TOO_LONG));
      } else {
        AcceptMessage(Text(content), tempId);
      }
    }

    /** The checks on attachments, clearing each one's metadata in turn. */
    method CheckAttachments(description: string, attachments: seq<Attachment>) returns (verdict: FileRules.Verdict)
      ensures verdict == FileRules.JudgeAttachments(room.code, description, attachments)
    {
      if |attachments| == 0 || |attachments| > FileRules.MAX_ATTACHMENTS {
        return FileRules.Refused(FileRules.ERR_ATTACHMENT_COUNT);
      }
      if |description| > FileRules.MAX_CONTENT_BYTES {
        return FileRules.Refused(FileRules.ERR_CONTENT_TOO_LONG);
      }
      var items := attachments;
      var i := 0;
      while i < |items|
        invariant 0 <= i <= |items| == |attachments|
        invariant FileRules.FirstProblem(room.code, attachments) == FileRules.FirstProblem(room.code, attachments[i..])
        invariant forall j | 0 <= j < |items| :: items[j] == if j < i then attachments[j].(meta := None)
                  else attachments[j]
      {
        if !(room.code + "/" <= items[i].key) {
          return FileRules.Refused(FileRules.ERR_ATTACHMENT_KEY);
        }
        var problem := FileRules.ValidateFileType(items[i].name, items[i].mimeType);
        if problem.Some? {
          return FileRules.Refused(problem.value);
        }
        items := items[i := items[i].(meta := None)];
        i := i + 1;
      }
      assert items == FileRules.Cleared(attachments);
      return FileRules.Accepted(Attachments(description, items));
    }

    method HandleAttachments(description: string, attachments: seq<Attachment>, tempId: string)
      requires room.Valid() && room.Knows(this) && pending.None?
      modifies room`nextId, this
      ensures room.State() == match FileRules.JudgeAttachments(room.code, description, attachments)
                              case Refused(code) => old(room.State()).Send(id, SYSTEM_USER, Error(code))
                              case Accepted(payload) => Accept(old(room.State()), id, payload, tempId)
    {
      var verdict := CheckAttachments(description, attachments);
      match verdict
      case Refused(code) => var ok := room.SendTo(this, SYSTEM_USER, Error(code));
      case Accepted(payload) => AcceptMessage(payload, tempId);
    }

    /** The blocking send on the broadcast channel, at the moment it goes through. */
    method Push()
      requires room.Valid() && room.Knows(this)
      requires pending.Some? && room.broadcastOpen && |room.broadcast| < BROADCAST_CAPACITY
      modifies room`broadcast, this
      ensures room.State() == RoomMachine.Push(old(room.State()), id)
    {
      room.broadcast := room.broadcast + [pending.value];
      Hold(None);
    }

    // ----- the write pump -----

    method TakeQueued() returns (m: Message)
      requires room.Valid() && room.Knows(this) && queue != []
      modifies this
      ensures m == old(queue)[0] && queue == old(queue)[1..]
      ensures room.State() == Write(old(room.State()), id)
    {
      m := queue[0];
      queue := queue[1..];
      room.OnlyChanged(this);
    }

    /** On a tick: `signed` is what signing a new token yields, if it is due. The attempt also fails if the token
        finds no room in the client's channel. */
    method CheckAndRefreshToken(now: int, signed: Option<string>)
      requires room.Valid() && room.Knows(this)
      modifies room`nextId, this
      ensures var due := TokenRefresh.RefreshDue(old(Token()), now);
              && room.State()
                  == (if due && signed.Some? then old(room.State()).Send(id, SYSTEM_USER, TokenUpdate(signed.value))
                                  else old(room.State()))
              && Token() == TokenRefresh.Tick(old(Token()), now, signed.Some? && |old(queue)| < SEND_CAPACITY)
    {
      if now > tokenExpiry - TokenRefresh.REFRESH_WINDOW {
        if signed.None? {
          return;
        }
        var ok := room.SendTo(this, SYSTEM_USER, TokenUpdate(signed.value));
        if ok {
          RecordExpiry(now);
        }
      }
    }

    method RecordExpiry(now: int)
      requires room.Valid() && room.Knows(this)
      modifies this`tokenExpiry, this`actualExpiry
      ensures Token()
              == TokenRefresh.Token(now + TokenRefresh.ROOM_ACCESS,
                  TokenRefresh.WholeSeconds(now + TokenRefresh.ROOM_ACCESS))
      ensures room.State() == old(room.State())
    {
      tokenExpiry := now + TokenRefresh.ROOM_ACCESS;
      actualExpiry := TokenRefresh.WholeSeconds(now + TokenRefresh.ROOM_ACCESS);
      assert room.Values() == old(room.Values());
    }
  }

  class Room {
    /** Which of all the rooms ever created this is. */
    ghost const serial: nat
    const code: string
    const maxClients: int
    var clients: map<string, Client>
    var broadcast: seq<Message>
    var broadcastOpen: bool
    var timer: Option<int>
    var stopClosed: bool
    var status: Status
    var rejecting: Option<ConnId>
    var nextId: nat
    var now: int
    ghost var conns: map<ConnId, Client>
    ghost var stopCloses: nat

    ghost predicate Valid()
      reads `conns, `clients, `rejecting
    {
      && (forall c | c in conns :: conns[c].id == c && conns[c].room == this)
      && (forall id | id in clients ::
          clients[id].id in conns && conns[clients[id].id] == clients[id] && clients[id].user.id == id)
      && (rejecting.Some? ==> rejecting.value in conns)
    }

    ghost function State(): RoomState
      reads this, conns.Values
    {
      RoomState(code, maxClients, Ids(), broadcast, broadcastOpen, timer, stopClosed,
                status, rejecting, Values(), nextId, now)
    }

    ghost function Ids(): map<string, ConnId>
      reads `clients
    {
      map id | id in clients :: clients[id].id
    }

    ghost function Values(): map<ConnId, Conn>
      reads `conns, conns.Values
    {
      map c | c in conns :: conns[c].Value()
    }

    /** A change of one client's fields changes one entry of the state. */
    twostate lemma OnlyChanged(client: Client)
      requires old(Knows(client)) && conns == old(conns)
      requires forall c | c in conns && c != client.id :: conns[c].Value() == old(conns[c].Value())
      ensures Values() == old(Values())[client.id := client.Value()]
    {
    }

    constructor (code: string, maxClients: int, now: int, ghost serial: nat)
      ensures Valid() && State() == NewRoom(code, maxClients, now)
      ensures this.serial == serial && stopCloses == 0
    {
      this.serial := serial;
      this.code, this.maxClients, this.now := code, maxClients, now;
      clients, broadcast, broadcastOpen := map[], [], true;
      timer, stopClosed, status, rejecting := Some(now + INACTIVITY_TIMEOUT), false, Running, None;
      nextId, conns, stopCloses := 0, map[], 0;
    }

    ghost predicate Knows(c: Client)
      reads `conns
    {
      c.id in conns && conns[c.id] == c
    }

    /** A new connection's client joins those the room knows of; nothing else happens until it is registered. */
    ghost method Connect(client: Client)
      requires Valid() && client.id !in conns && client.room == this
      requires client.Value() == Conn(client.user, EMPTY_CHANNEL, None, false)
      modifies `conns
      ensures Valid() && Knows(client) && State() == Next(old(State()), Connecting(client.user, client.id))
    {
      conns := conns[client.id := client];
    }

    // ----- the channel operations, as changes of the whole room's state -----

    method Deliver(client: Client, m: Message) returns (ok: bool)
      requires Valid() && Knows(client)
      modifies client
      ensures client.Token() == old(client.Token())
      ensures Values() == old(Values())[client.id := old(client.Value()).(send := old(client.Value()).send.TrySend(m))]
      ensures ok <==> |old(client.queue)| < SEND_CAPACITY
    {
      ok := client.TrySend(m);
      OnlyChanged(client);
    }

    method SendTo(client: Client, sender: User, payload: Payload) returns (ok: bool)
      requires Valid() && Knows(client)
      modifies `nextId, client
      ensures State() == old(State()).Send(client.id, sender, payload) && client.Token() == old(client.Token())
      ensures ok <==> |old(client.queue)| < SEND_CAPACITY
    {
      ok := Deliver(client, Message(nextId, code, sender, payload));
      nextId := nextId + 1;
    }

    method Kick(client: Client)
      requires Valid() && Knows(client)
      modifies client
      ensures State() == old(State()).Kick(client.id)
    {
      client.DrainOrClose();
      OnlyChanged(client);
    }

    method Post(payload: Payload)
      requires Valid()
      modifies `nextId, `broadcast
      ensures State() == old(State()).Post(payload)
    {
      var m := Message(nextId, code, SYSTEM_USER, payload);
      nextId := nextId + 1;
      if |broadcast| < BROADCAST_CAPACITY {
        broadcast := broadcast + [m];
      }
    }

    // ----- the loop's handlers -----

    /** The users present, in the order in which the map happens to be ranged over. */
    method OnlineUsers() returns (online: seq<User>)
      requires Valid()
      ensures Linked(State()) && Lists(online, Users(State()))
    {
      online := [];
      var todo := clients.Keys;
      while todo != {}
        invariant todo <= clients.Keys
        invariant |online| + |todo| == |clients|
        invariant forall u | u in online :: u.id in clients && clients[u.id].user == u
        invariant forall id | id in clients && id !in todo :: clients[id].user in online
        decreases todo
      {
        var id :| id in todo;
        online := online + [clients[id].user];
        todo := todo - {id};
      }
      assert Linked(State());
      assert Users(State()).Keys == clients.Keys;
    }

    /** First half of a rejection: the error is queued. `FinishRejecting` is the second half; the client's own
        goroutines may step in between. */
    method RejectClient(client: Client)
      requires Valid() && Knows(client)
      modifies this, client
      ensures Valid() && conns == old(conns) && State() == Reject(old(State()), client.id)
    {
      MarkRejecting(client);
      var ok := SendTo(client, SYSTEM_USER, Error(ERR_UNKNOWN));
    }

    method MarkRejecting(client: Client)
      requires Valid() && Knows(client)
      modifies `timer, `rejecting, client
      ensures Valid() && client.id in old(Values())
      ensures State()
              == old(State()).(timer := None, rejecting := Some(client.id),
                  conns := old(Values())[client.id := old(client.Value()).(offered := true)])
    {
      timer := None;
      rejecting := Some(client.id);
      MarkOffered(client);
    }

    method ReplaceSession(id: string)
      requires Valid()
      modifies `timer, conns.Values
      ensures Valid() && State() == Replace(old(State()), id)
    {
      if id in clients {
        Kick(clients[id]);
      }
      timer := None;
    }

    method Enlist(client: Client)
      requires Valid() && Knows(client)
      modifies `clients
      ensures Valid() && Ids() == old(Ids())[client.user.id := client.id]
    {
      clients := clients[client.user.id := client];
    }

    method MarkOffered(client: Client)
      requires Valid() && Knows(client)
      modifies client
      ensures Values() == old(Values())[client.id := old(client.Value()).(offered := true)]
    {
      client.offered := true;
      OnlyChanged(client);
    }

    method AdmitClient(client: Client)
      requires Valid() && Knows(client)
      modifies this, conns.Values
      ensures Valid() && conns == old(conns) && State() == Admit(old(State()), client.id)
    {
      ReplaceSession(client.user.id);
      Seat(client);
    }

    method Seat(client: Client)
      requires Valid() && Knows(client)
      modifies `clients, client
      ensures Valid() && client.id in old(Values())
      ensures State() == old(State()).(clients := old(Ids())[client.user.id := client.id],
                                       conns := old(Values())[client.id := old(client.Value()).(offered := true)])
    {
      Enlist(client);
      MarkOffered(client);
    }

    method GreetClient(client: Client, online: seq<User>)
      requires Valid() && Knows(client)
      modifies this, client
      ensures Valid() && conns == old(conns) && State() == Greet(old(State()), client.id, online)
    {
      var ok := SendTo(client, SYSTEM_USER, InitData(client.user, online, maxClients));
      AnnounceOrHang(client, ok);
    }

    method AnnounceOrHang(client: Client, ok: bool)
      requires Valid()
      modifies `nextId, `broadcast, `status
      ensures State() == if ok then old(State()).Post(UserJoined(client.user)) else old(State()).(status := Hung)
    {
      if ok {
        Post(UserJoined(client.user));
      } else {
        status := Hung;
      }
    }

    method ListAndGreet(client: Client) returns (online: seq<User>)
      requires Valid() && Knows(client)
      modifies this, client
      ensures Valid() && conns == old(conns) && State() == Greet(old(State()), client.id, online)
      ensures Linked(old(State())) && Lists(online, Users(old(State())))
    {
      online := OnlineUsers();
      GreetClient(client, online);
    }

    method Join(client: Client) returns (online: seq<User>, ghost admitted: RoomState)
      requires Valid() && Knows(client)
      modifies this, conns.Values
      ensures Valid() && conns == old(conns)
      ensures admitted == Admit(old(State()), client.id) && State() == Greet(admitted, client.id, online)
      ensures Linked(admitted) && Lists(online, Users(admitted))
    {
      AdmitClient(client);
      admitted := State();
      online := ListAndGreet(client);
    }

    predicate IsFull(checkId: string)
      reads this
    {
      if checkId != "" && checkId in clients then false
      else maxClients > 0 && |clients| >= maxClients
    }

    lemma FullnessSeen(checkId: string)
      requires Valid()
      ensures IsFull(checkId) <==> State().IsFull(checkId)
      ensures (checkId !in clients && maxClients > 0 && |clients| >= maxClients) <==> State().Rejects(checkId)
    {
      assert Ids().Keys == clients.Keys;
    }

    method HandleRegister(client: Client) returns (online: seq<User>)
      requires Valid() && Knows(client) && !client.offered && LoopReady(State())
      modifies this, conns.Values
      ensures Valid() && conns == old(conns) && State() == Register(old(State()), client.id, online)
      ensures !old(State()).Rejects(client.user.id) ==>
                Linked(Admit(old(State()), client.id)) && Lists(online, Users(Admit(old(State()), client.id)))
    {
      FullnessSeen(client.user.id);
      if client.user.id !in clients && maxClients > 0 && |clients| >= maxClients {
        RejectClient(client);
        online := [];
      } else {
        ghost var admitted;
        online, admitted := Join(client);
      }
    }

    method FinishRejecting(client: Client)
      requires Valid() && Knows(client) && rejecting == Some(client.id)
      modifies this, client
      ensures Valid() && conns == old(conns)
      ensures State() == FinishReject(old(State()))
    {
      Kick(client);
      rejecting := None;
    }

    method Remove(client: Client)
      requires Valid() && Knows(client) && client.user.id in clients && clients[client.user.id] == client
      modifies `clients
      ensures Valid() && Ids() == old(Ids()) - {client.user.id}
    {
      clients := clients - {client.user.id};
    }

    /** A member leaves: it is taken off the map, its channel is closed up, and its going is announced. */
    method Leave(client: Client)
      requires Valid() && Knows(client) && client.user.id in clients && clients[client.user.id] == client
      modifies `clients, `broadcast, `nextId, client
      ensures Valid()
      ensures client.id in old(Values()) && State() == Left(old(State()), client.id)
    {
      Remove(client);
      Kick(client);
      Post(UserLeft(client.user));
    }

    lemma MembershipSeen(client: Client)
      requires Valid() && Knows(client)
      ensures client.id in State().conns
      ensures State().Member(client.id) <==> client.user.id in clients && clients[client.user.id] == client
    {
    }

    method HandleUnregister(client: Client)
      requires Valid() && Knows(client) && LoopReady(State())
      modifies this, client
      ensures Valid() && conns == old(conns) && State() == Unregister(old(State()), client.id)
    {
      MembershipSeen(client);
      LeavingInTwo(State(), client.id);
      if client.user.id in clients && clients[client.user.id] == client {
        Leave(client);
        ArmIfEmpty();
      }
    }

    method ArmIfEmpty()
      requires Valid()
      modifies `timer
      ensures State()
              == old(State()).(timer := if old(Ids()) == map[] then Some(now + INACTIVITY_TIMEOUT) else old(timer))
    {
      assert Ids().Keys == clients.Keys;
      if clients == map[] {
        timer := Some(now + INACTIVITY_TIMEOUT);
      }
    }

    /** One turn of the dispatch loop: skip the sender, offer the message to anyone else. */
    method Offer(client: Client, m: Message)
      requires Valid() && Knows(client)
      modifies client
      ensures Values() == if client.user.id == m.sender.id then old(Values())
                          else old(Values())[client.id :=
                              old(client.Value()).(send := old(client.Value()).send.TrySend(m))]
    {
      if client.user.id != m.sender.id {
        var ok := Deliver(client, m);
      }
    }

    /** Ranges over the members in no particular order. */
    method Distribute(m: Message)
      requires Valid() && !m.payload.Error?
      modifies conns.Values
      ensures Values() == DispatchedSoFar(old(State()), m, {})
    {
      ghost var s := State();
      var todo := clients.Keys;
      assert Values() == DispatchedSoFar(s, m, todo);
      while todo != {}
        invariant todo <= clients.Keys
        invariant Values() == DispatchedSoFar(s, m, todo)
        decreases todo
      {
        var id :| id in todo;
        ServeOne(s, m, todo, id);
        Offer(clients[id], m);
        todo := todo - {id};
      }
    }

    method HandleBroadcast()
      requires Valid() && LoopReady(State()) && broadcast != []
      modifies `broadcast, conns.Values
      ensures Valid() && State() == Dispatch(old(State()))
    {
      ghost var s := State();
      var m := TakeBroadcast();
      if !m.payload.Error? {
        Distribute(m);
      }
      DispatchedAll(s);
    }

    method TakeBroadcast() returns (m: Message)
      requires Valid() && broadcast != []
      modifies `broadcast
      ensures m == old(broadcast[0]) && State() == old(State()).(broadcast := old(broadcast[1..]))
    {
      m := broadcast[0];
      broadcast := broadcast[1..];
    }

    /** Closes up one member after another, in no particular order. */
    method CloseAll()
      requires Valid()
      modifies conns.Values
      ensures Values() == ClosedSoFar(old(State()), {})
    {
      ghost var s := State();
      var todo := clients.Keys;
      assert Values() == ClosedSoFar(s, todo);
      while todo != {}
        invariant todo <= clients.Keys
        invariant Values() == ClosedSoFar(s, todo)
        decreases todo
      {
        var id :| id in todo;
        CloseOne(s, todo, id);
        Kick(clients[id]);
        todo := todo - {id};
      }
    }

    method EndLoop()
      requires Valid()
      modifies `timer, `status, `broadcast, `broadcastOpen
      ensures timer == None && status == Done
      ensures broadcast == (if old(broadcast) != [] then old(broadcast)[1..] else [])
      ensures broadcastOpen == (old(broadcastOpen) && old(broadcast) != [])
    {
      timer, status := None, Done;
      if broadcast != [] {
        broadcast := broadcast[1..];
      } else if broadcastOpen {
        broadcastOpen := false;
      }
    }

    method CloseRoom()
      requires Valid()
      modifies `timer, `status, `broadcast, `broadcastOpen, conns.Values
      ensures Valid() && State() == Exit(old(State()))
    {
      ClosedAll(State());
      CloseAll();
      EndLoop();
    }

    /** What the loop leaves behind: the manager is told, the members are let go, the broadcast channel is closed up. */
    method CleanupOnExit(cleanup: CleanupChannel)
      requires Valid() && LoopReady(State())
      modifies `timer, `status, `broadcast, `broadcastOpen, conns.Values, cleanup
      ensures Valid() && State() == Exit(old(State()))
      ensures cleanup.queue == if old(cleanup.open) && |old(cleanup.queue)| < Registry.CLEANUP_CAPACITY
                               then old(cleanup.queue) + [code] else old(cleanup.queue)
      ensures cleanup.open == old(cleanup.open)
      ensures cleanup.senders == if old(cleanup.open) && |old(cleanup.queue)| < Registry.CLEANUP_CAPACITY
              then old(cleanup.senders) + [serial]
                                 else old(cleanup.senders)
    {
      cleanup.Notify(code, serial);
      CloseRoom();
    }

    method Stop()
      modifies `stopClosed, `stopCloses
      ensures stopClosed && stopCloses == old(stopCloses) + (if old(stopClosed) then 0 else 1)
    {
      if !stopClosed {
        stopClosed := true;
        stopCloses := stopCloses + 1;
      }
    }
  }

  /** The connections' states when the members whose user ID is in `todo` have yet to be offered `m`. */
  ghost function DispatchedSoFar(s: RoomState, m: Message, todo: set<string>): map<ConnId, Conn> {
    map c | c in s.conns ::
      if Due(s, c, m) && s.conns[c].user.id !in todo then s.conns[c].(send := s.conns[c].send.TrySend(m))
          else s.conns[c]
  }

  lemma ServeOne(s: RoomState, m: Message, todo: set<string>, id: string)
    requires id in todo && id in s.clients && s.clients[id] in s.conns && s.conns[s.clients[id]].user.id == id
    requires !m.payload.Error?
    ensures var c := s.clients[id];
            && DispatchedSoFar(s, m, todo)[c] == s.conns[c]
            && DispatchedSoFar(s, m, todo - {id}) ==
               if id == m.sender.id then DispatchedSoFar(s, m, todo)
               else DispatchedSoFar(s, m, todo)[c := s.conns[c].(send := s.conns[c].send.TrySend(m))]
  {
    var c := s.clients[id];
    forall d | d in s.conns && d != c ensures DispatchedSoFar(s, m, todo - {id})[d] == DispatchedSoFar(s, m, todo)[d] {
    }
  }

  lemma DispatchedAll(s: RoomState)
    requires s.broadcast != []
    ensures Dispatch(s) == s.(broadcast := s.broadcast[1..], conns := DispatchedSoFar(s, s.broadcast[0], {}))
    ensures s.broadcast[0].payload.Error? ==> DispatchedSoFar(s, s.broadcast[0], {}) == s.conns
    ensures DispatchedSoFar(s.(broadcast := s.broadcast[1..]), s.broadcast[0], {})
            == DispatchedSoFar(s, s.broadcast[0], {})
  {
  }

  /** The connections' states when the members whose user ID is in `todo` have yet to be closed up. */
  ghost function ClosedSoFar(s: RoomState, todo: set<string>): map<ConnId, Conn> {
    map c | c in s.conns ::
      if s.Member(c) && s.conns[c].user.id !in todo then s.conns[c].(send := s.conns[c].send.DrainOrClose())
          else s.conns[c]
  }

  lemma CloseOne(s: RoomState, todo: set<string>, id: string)
    requires id in todo && id in s.clients && s.clients[id] in s.conns && s.conns[s.clients[id]].user.id == id
    ensures var c := s.clients[id];
            && ClosedSoFar(s, todo)[c] == s.conns[c]
            && ClosedSoFar(s, todo - {id})
                == ClosedSoFar(s, todo)[c := s.conns[c].(send := s.conns[c].send.DrainOrClose())]
  {
    var c := s.clients[id];
    forall d | d in s.conns && d != c ensures ClosedSoFar(s, todo - {id})[d] == ClosedSoFar(s, todo)[d] {
    }
  }

  lemma ClosedAll(s: RoomState)
    ensures ClosedSoFar(s, {}) == Exit(s).conns
  {
  }

  /** A message has been named and kept, and not yet been confirmed. */
  ghost function Named(s: RoomState, c: ConnId, payload: Payload): RoomState
    requires c in s.conns
  {
    s.(nextId := s.nextId + 1,
        conns := s.conns[c := s.conns[c].(pending := Some(s.NewMessage(s.conns[c].user, payload)))])
  }

  lemma AcceptInTwo(s: RoomState, c: ConnId, payload: Payload, tempId: string)
    requires c in s.conns
    ensures Accept(s, c, payload, tempId) ==
            if tempId == "" then Named(s, c, payload)
                else Named(s, c, payload).Send(c, s.conns[c].user, Confirm(tempId, s.nextId))
  {
  }

  /** A member has been taken off the map and its going announced; the timer is as it was. */
  ghost function Left(s: RoomState, c: ConnId): RoomState
    requires c in s.conns
  {
    s.(clients := s.clients - {s.conns[c].user.id}).Kick(c).Post(UserLeft(s.conns[c].user))
  }

  lemma LeavingInTwo(s: RoomState, c: ConnId)
    requires c in s.conns
    ensures Unregister(s, c) ==
            if s.Member(c) then
              Left(s, c).(timer := if Left(s, c).clients == map[] then Some(s.now + INACTIVITY_TIMEOUT) else s.timer)
            else s
    ensures Left(s, c).timer == s.timer && Left(s, c).now == s.now
  {
  }

  /** The registering that the handler performs is a step of the room machine. */
  lemma RegisteringIsAStep(s: RoomState, c: ConnId, online: seq<User>)
    requires Linked(s) && LoopReady(s) && c in s.conns && !s.conns[c].offered
    requires !s.Rejects(s.conns[c].user.id) ==> Linked(Admit(s, c)) && Lists(online, Users(Admit(s, c)))
    ensures Enabled(s, Registering(c, online)) && Next(s, Registering(c, online)) == Register(s, c, online)
  {
    if !s.Rejects(s.conns[c].user.id) {
      AdmittedUsers(s, c);
    }
  }

  /** What the text handler does to a client whose channel is open is a step of the room machine. */
  lemma TextIsAStep(s: RoomState, c: ConnId, content: string, tempId: string)
    requires c in s.conns && s.Chan(c).open && s.conns[c].pending.None?
    ensures match FileRules.JudgeText(content)
            case Refused(code) =>
              Enabled(s, Refusing(c, code)) && Next(s, Refusing(c, code)) == s.Send(c, SYSTEM_USER, Error(code))
            case Accepted(payload) =>
              Enabled(s, Accepting(c, payload, tempId))
                  && Next(s, Accepting(c, payload, tempId)) == Accept(s, c, payload, tempId)
  {
  }

  /** And so is what the attachments handler does. */
  lemma AttachmentsAreAStep(s: RoomState, c: ConnId, description: string, items: seq<Attachment>, tempId: string)
    requires c in s.conns && s.Chan(c).open && s.conns[c].pending.None?
    ensures match FileRules.JudgeAttachments(s.code, description, items)
            case Refused(code) =>
              Enabled(s, Refusing(c, code)) && Next(s, Refusing(c, code)) == s.Send(c, SYSTEM_USER, Error(code))
            case Accepted(payload) =>
              Enabled(s, Accepting(c, payload, tempId))
                  && Next(s, Accepting(c, payload, tempId)) == Accept(s, c, payload, tempId)
  {
  }

  lemma AdmittedUsers(s: RoomState, c: ConnId)
    requires c in s.conns && Linked(s) && Linked(Admit(s, c))
    ensures Users(Admit(s, c)) == Users(s)[s.conns[c].user.id := s.conns[c].user]
  {
    AdmittedIds(s, c);
    UsersWithOne(s, Admit(s, c), s.conns[c].user.id, c);
  }

  lemma AdmittedIds(s: RoomState, c: ConnId)
    requires c in s.conns && Linked(s)
    ensures var t := Admit(s, c);
            && t.clients == s.clients[s.conns[c].user.id := c]
            && forall d | d in s.conns :: d in t.conns && t.conns[d].user == s.conns[d].user
  {
  }

  lemma UsersWithOne(s: RoomState, t: RoomState, id: string, c: ConnId)
    requires Linked(s) && Linked(t) && c in s.conns && t.clients == s.clients[id := c]
    requires forall d | d in s.conns :: d in t.conns && t.conns[d].user == s.conns[d].user
    ensures Users(t) == Users(s)[id := s.conns[c].user]
  {
    assert Users(t).Keys == Users(s).Keys + {id};
    assert forall k | k in s.clients && k != id :: t.clients[k] == s.clients[k] && s.clients[k] in s.conns;
  }
}
