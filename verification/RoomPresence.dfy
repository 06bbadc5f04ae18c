/** Every member's picture of who is present converges to the room's own membership. */
module RoomPresence {
  import opened ChatTypes
  import opened RoomMachine
  import opened RoomSafety
  import opened RoomHistory
  import opened RoomDelivery

  type Roster = map<string, User>

  function FromList(online: seq<User>): Roster {
    if online == [] then map[] else FromList(online[..|online| - 1])[online[|online| - 1].id := online[|online| - 1]]
  }

  /** What a client does with a message: take the snapshot, add whoever joined, drop whoever left. */
  function Apply(v: Roster, p: Payload): Roster {
    match p
    case InitData(current, online, max) => FromList(online)
    case UserJoined(u) => v[u.id := u]
    case UserLeft(u) => v - {u.id}
    case _ => v
  }

  function ApplyAll(v: Roster, ms: seq<Message>): Roster {
    if ms == [] then v else Apply(ApplyAll(v, ms[..|ms| - 1]), ms[|ms| - 1].payload)
  }

  function Lookup(v: Roster, id: string): Option<User> {
    if id in v then Some(v[id]) else None
  }

  // ----- what messages say about one user -----

  /** What a presence event says about `id`, if it is about `id`. */
  function Says(p: Payload, id: string): Option<Option<User>> {
    match p
    case UserJoined(u) => if u.id == id then Some(Some(u)) else None
    case UserLeft(u) => if u.id == id then Some(None) else None
    case _ => None
  }

  /** What the last presence event about `id` among `ms` says, if there is one. */
  function LastSays(ms: seq<Message>, id: string): Option<Option<User>> {
    if ms == [] then None
    else if Says(ms[|ms| - 1].payload, id).Some? then Says(ms[|ms| - 1].payload, id)
    else LastSays(ms[..|ms| - 1], id)
  }

  /** What a client knows of `id` after a message. */
  function See(known: Option<User>, p: Payload, id: string): Option<User> {
    if p.InitData? then Lookup(FromList(p.onlineUsers), id)
    else if Says(p, id).Some? then Says(p, id).value
    else known
  }

  function SeeAll(known: Option<User>, ms: seq<Message>, id: string): Option<User> {
    if ms == [] then known else See(SeeAll(known, ms[..|ms| - 1], id), ms[|ms| - 1].payload, id)
  }

  lemma {:induction false} SeeAllIsLookup(v: Roster, ms: seq<Message>, id: string)
    ensures Lookup(ApplyAll(v, ms), id) == SeeAll(Lookup(v, id), ms, id)
  {
    if ms != [] {
      SeeAllIsLookup(v, ms[..|ms| - 1], id);
    }
  }

  predicate NoSnapshots(ms: seq<Message>) {
    forall k | 0 <= k < |ms| :: !ms[k].payload.InitData?
  }

  lemma {:induction false} SeeAllLast(known: Option<User>, ms: seq<Message>, id: string)
    requires NoSnapshots(ms)
    ensures SeeAll(known, ms, id) == if LastSays(ms, id).Some? then LastSays(ms, id).value else known
  {
    if ms != [] {
      SeeAllLast(known, ms[..|ms| - 1], id);
    }
  }

  lemma SeeAllOneMore(known: Option<User>, ms: seq<Message>, m: Message, id: string)
    ensures SeeAll(known, ms + [m], id) == See(SeeAll(known, ms, id), m.payload, id)
  {
    assert (ms + [m])[..|ms|] == ms;
  }

  lemma {:induction false} SeeAllFirst(known: Option<User>, m: Message, ms: seq<Message>, id: string)
    ensures SeeAll(known, [m] + ms, id) == SeeAll(See(known, m.payload, id), ms, id)
  {
    if ms == [] {
      assert [m] + ms == [m];
      assert [m][..0] == [];
    } else {
      SeeAllFirst(known, m, ms[..|ms| - 1], id);
      assert ([m] + ms)[..|ms|] == [m] + ms[..|ms| - 1];
    }
  }

  lemma LastSaysOneMore(ms: seq<Message>, m: Message, id: string)
    ensures LastSays(ms + [m], id) == if Says(m.payload, id).Some? then Says(m.payload, id) else LastSays(ms, id)
  {
    assert (ms + [m])[..|ms|] == ms;
  }

  lemma {:induction false} LastSaysTail(ms: seq<Message>, id: string)
    requires ms != []
    ensures LastSays(ms[1..], id).None? || LastSays(ms[1..], id) == LastSays(ms, id)
    ensures Says(ms[0].payload, id).Some? ==> LastSays(ms, id).Some?
  {
    var n := |ms| - 1;
    if n > 0 {
      LastSaysTail(ms[..n], id);
      assert ms[..n][1..] == ms[1..][..n - 1];
    }
  }

  /** Every event about `id` still queued has been overtaken by a later one or agrees with the room. */
  predicate Settled(users: Roster, queue: seq<Message>, id: string) {
    LastSays(queue, id).None? || LastSays(queue, id) == Some(Lookup(users, id))
  }

  /** So events that are older than the snapshot change nothing in the end. */
  lemma SettledAbsorbs(users: Roster, queue: seq<Message>, id: string)
    requires Settled(users, queue, id) && NoSnapshots(queue)
    ensures SeeAll(Lookup(users, id), queue, id) == Lookup(users, id)
  {
    SeeAllLast(Lookup(users, id), queue, id);
  }

  lemma {:induction false} FromListHas(online: seq<User>, users: Roster)
    requires forall u | u in online :: u.id in users && users[u.id] == u
    ensures forall id | id in FromList(online) :: id in users && FromList(online)[id] == users[id]
    ensures forall u | u in online :: u.id in FromList(online)
  {
    if online != [] {
      var n := |online| - 1;
      FromListHas(online[..n], users);
      assert online == online[..n] + [online[n]];
    }
  }

  /** The order in which the snapshot lists the users does not matter. */
  lemma ListedSnapshot(online: seq<User>, users: Roster)
    requires Lists(online, users) && forall id | id in users :: users[id].id == id
    ensures FromList(online) == users
  {
    FromListHas(online, users);
    forall id | id in users ensures id in FromList(online) {
      assert users[id] in online;
    }
  }

  // ----- the room's own membership -----

  function ClientsAfter(s: RoomState, e: Event): map<string, ConnId> {
    match e
    case Registering(c, online) =>
      if c !in s.conns || s.Rejects(s.conns[c].user.id) then s.clients else s.clients[s.conns[c].user.id := c]
    case Unregistering(c) => if s.Member(c) then s.clients - {s.conns[c].user.id} else s.clients
    case _ => s.clients
  }

  lemma RegisterRosters(s: RoomState, c: ConnId, online: seq<User>)
    requires c in s.conns && KeySafe(s, s.conns[c].user.id)
    ensures Register(s, c, online).clients == ClientsAfter(s, Registering(c, online))
  {
  }

  lemma OtherRosters(s: RoomState, e: Event)
    requires Enabled(s, e) && !e.Registering?
    ensures Next(s, e).clients == ClientsAfter(s, e)
  {
  }

  lemma StepRosters(s: RoomState, e: Event)
    requires Safe(s) && Enabled(s, e)
    ensures Next(s, e).clients == ClientsAfter(s, e)
  {
    if e.Registering? {
      assert KeySafe(s, s.conns[e.c].user.id);
      RegisterRosters(s, e.c, e.online);
    } else {
      OtherRosters(s, e);
    }
  }

  /** The presence event that announces what the step does to the membership. */
  function Change(s: RoomState, e: Event): Option<Payload> {
    match e
    case Registering(c, online) =>
      if c !in s.conns || s.Rejects(s.conns[c].user.id) then None else Some(UserJoined(s.conns[c].user))
    case Unregistering(c) => if s.Member(c) then Some(UserLeft(s.conns[c].user)) else None
    case _ => None
  }

  function Changed(s: RoomState, e: Event, users: Roster): Roster {
    if Change(s, e).Some? then Apply(users, Change(s, e).value) else users
  }

  predicate SameUsers(s: RoomState, t: RoomState, d: ConnId) {
    d in s.conns ==> d in t.conns && t.conns[d].user == s.conns[d].user
  }

  lemma UserAfter(s: RoomState, e: Event, t: RoomState, id: string)
    requires Linked(s) && t.clients == ClientsAfter(s, e) && id in t.clients && SameUsers(s, t, t.clients[id])
    ensures t.clients[id] in s.conns && t.conns[t.clients[id]].user.id == id
    ensures id in Changed(s, e, Users(s)) && Changed(s, e, Users(s))[id] == t.conns[t.clients[id]].user
  {
  }

  lemma KeysAfter(s: RoomState, e: Event)
    requires Linked(s)
    ensures Changed(s, e, Users(s)).Keys == ClientsAfter(s, e).Keys
  {
    assert Users(s).Keys == s.clients.Keys;
  }

  lemma UsersAfter(s: RoomState, e: Event, t: RoomState)
    requires Linked(s) && t.clients == ClientsAfter(s, e) && forall d :: SameUsers(s, t, d)
    ensures Linked(t) && Users(t) == Changed(s, e, Users(s))
  {
    var users := Changed(s, e, Users(s));
    forall id | id in t.clients
      ensures t.clients[id] in t.conns && t.conns[t.clients[id]].user.id == id
      ensures id in users && users[id] == t.conns[t.clients[id]].user
    {
      assert SameUsers(s, t, t.clients[id]);
      UserAfter(s, e, t, id);
    }
    KeysAfter(s, e);
  }

  lemma UsersMove(w: World, e: Event, w': World)
    requires Moved(w, e, w') && Linked(w.room) && w'.room.clients == ClientsAfter(w.room, e)
    ensures Linked(w'.room) && Users(w'.room) == Changed(w.room, e, Users(w.room))
  {
    forall d ensures SameUsers(w.room, w'.room, d) {
      assert d in w.room.conns ==> ConnMoves(w.room, e, w'.room, d);
    }
    UsersAfter(w.room, e, w'.room);
  }

  // ----- the broadcast channel -----

  /** What a step that is no dispatch pushes: the event that announces the change, or a chat message, or nothing. */
  lemma PushedAnnounces(w: World, e: Event, w': World)
    requires Moved(w, e, w') && Kinds(w)
    ensures |Pushed(w.room, e)| <= 1
    ensures Pushed(w.room, e) != [] ==>
              var p := Pushed(w.room, e)[0].payload;
              !p.InitData? && if Change(w.room, e).Some? then p == Change(w.room, e).value else IsChat(p)
  {
  }

  /** The step changes what the room knows of `id`. */
  predicate Concerns(s: RoomState, e: Event, id: string) {
    Change(s, e).Some? && Says(Change(s, e).value, id).Some?
  }

  lemma ConcernsChanged(s: RoomState, e: Event, t: RoomState, id: string)
    requires t.clients == ClientsAfter(s, e) && (e.Registering? ==> e.c in s.conns && !s.Member(e.c))
    ensures Concerns(s, e, id) <==> id in ChangedIds(s, t)
  {
  }

  /** If `id` is not among the lost afterwards, its change, if there is one, was announced, and otherwise it was not
      lost before. */
  lemma NotLostAfter(w: World, e: Event, w': World, id: string)
    requires Moved(w, e, w') && w'.room.clients == ClientsAfter(w.room, e) && id !in w'.history.lost
    requires e.Registering? ==> e.c in w.room.conns && !w.room.Member(e.c)
    ensures if Concerns(w.room, e, id) then Pushed(w.room, e) != [] else id !in w.history.lost
  {
    ConcernsChanged(w.room, e, w'.room, id);
  }

  lemma UnconcernedUsers(s: RoomState, e: Event, users: Roster, id: string)
    ensures !Concerns(s, e, id) ==> Lookup(Changed(s, e, users), id) == Lookup(users, id)
    ensures Concerns(s, e, id) ==> Says(Change(s, e).value, id) == Some(Lookup(Changed(s, e, users), id))
  {
  }

  ghost predicate QueueSettled(w: World)
    requires Linked(w.room)
  {
    w.room.status != Done ==> forall id | id !in w.history.lost :: Settled(Users(w.room), w.room.broadcast, id)
  }

  lemma SettledKept(w: World, e: Event, w': World, id: string)
    requires Moved(w, e, w') && Linked(w.room) && Kinds(w) && w'.room.clients == ClientsAfter(w.room, e)
    requires QueueSettled(w)
    requires e.Registering? ==> e.c in w.room.conns && !w.room.Member(e.c)
    requires w'.room.status != Done && id !in w'.history.lost
    ensures Linked(w'.room) && Settled(Users(w'.room), w'.room.broadcast, id)
  {
    var queue, pushed := w.room.broadcast, Pushed(w.room, e);
    UsersMove(w, e, w');
    PushedAnnounces(w, e, w');
    NotLostAfter(w, e, w', id);
    UnconcernedUsers(w.room, e, Users(w.room), id);
    if e.Dispatching? {
      LastSaysTail(queue, id);
    } else if pushed != [] {
      assert pushed == [pushed[0]];
      LastSaysOneMore(queue, pushed[0], id);
    } else {
      assert queue + pushed == queue;
    }
  }

  lemma QueueSettledKept(w: World, e: Event, w': World)
    requires Moved(w, e, w') && Linked(w.room) && Kinds(w) && w'.room.clients == ClientsAfter(w.room, e)
    requires QueueSettled(w)
    requires e.Registering? ==> e.c in w.room.conns && !w.room.Member(e.c)
    ensures Linked(w'.room) && QueueSettled(w')
  {
    UsersMove(w, e, w');
    if w'.room.status != Done {
      forall id | id !in w'.history.lost ensures Settled(Users(w'.room), w'.room.broadcast, id) {
        SettledKept(w, e, w', id);
      }
    }
  }

  lemma QueuedBroadcastable(w: World)
    requires Fifo(w) && Kinds(w) && w.room.status != Done
    ensures NoSnapshots(w.room.broadcast)
  {
    var n := |w.history.dispatched|;
    forall k | 0 <= k < |w.room.broadcast| ensures !w.room.broadcast[k].payload.InitData? {
      assert w.room.broadcast[k] == w.history.pushed[n + k];
    }
  }

  // ----- a member's picture -----

  /** Whether the last event about `id` that was due to `c` was dropped because its channel was full. */
  predicate Missed(ds: seq<Dispatched>, c: ConnId, userId: string, id: string) {
    if ds == [] then false
    else
      var d := ds[|ds| - 1];
      if DueTo(d, c, userId) && Says(d.msg.payload, id).Some? then c in d.full
      else Missed(ds[..|ds| - 1], c, userId, id)
  }

  predicate Attends(s: RoomState, c: ConnId) {
    s.status == Running && s.Member(c) && s.conns[c].user.id != SYSTEM_ID
  }

  /** The latest change of `id` was announced, and the latest event about it did not miss `c`. */
  predicate InPicture(w: World, c: ConnId, id: string) {
    && Attends(w.room, c) && id !in w.history.lost
    && !Missed(w.history.dispatched, c, w.room.conns[c].user.id, id)
  }

  /** What `c` has been sent about `id`, and then what still waits in the broadcast channel. */
  function Picture(w: World, c: ConnId, id: string): Option<User>
    requires c in w.room.conns
  {
    SeeAll(SeeAll(None, Entered(w, c), id), w.room.broadcast, id)
  }

  ghost predicate Converged(w: World, c: ConnId)
    requires Linked(w.room)
  {
    forall id | InPicture(w, c, id) :: Picture(w, c, id) == Lookup(Users(w.room), id)
  }

  lemma AttendsBefore(w: World, e: Event, w': World, c: ConnId)
    requires Moved(w, e, w') && w'.room.clients == ClientsAfter(w.room, e) && c in w.room.conns && Attends(w'.room, c)
    ensures w.room.status == Running && w.room.conns[c].user.id == w'.room.conns[c].user.id
    ensures !(e.Registering? && e.c == c) ==> Attends(w.room, c)
  {
    assert ConnMoves(w.room, e, w'.room, c);
  }

  predicate Neutral(p: Payload) {
    !p.InitData? && !p.IsPresence()
  }

  /** Messages sent to one connection only leave its picture alone, save for its own snapshot. */
  lemma AddedNeutral(s: RoomState, e: Event, c: ConnId)
    requires c in s.conns && !e.Dispatching? && !(e.Registering? && e.c == c)
    ensures |Added(s, e, c)| <= 1 && (Added(s, e, c) != [] ==> Neutral(Added(s, e, c)[0].payload))
  {
  }

  lemma SeeAllGrows(known: Option<User>, ms: seq<Message>, added: seq<Message>, id: string)
    requires |added| <= 1
    ensures SeeAll(known, ms + added, id) ==
            if added == [] then SeeAll(known, ms, id) else See(SeeAll(known, ms, id), added[0].payload, id)
  {
    if added == [] {
      assert ms + added == ms;
    } else {
      assert added == [added[0]];
      SeeAllOneMore(known, ms, added[0], id);
    }
  }

  lemma QuietView(w: World, e: Event, w': World, c: ConnId, id: string)
    requires Moved(w, e, w') && c in w.room.conns && !e.Dispatching? && !(e.Registering? && e.c == c)
    ensures c in w'.room.conns && SeeAll(None, Entered(w', c), id) == SeeAll(None, Entered(w, c), id)
  {
    MovedEnters(w, e, w', c);
    AddedNeutral(w.room, e, c);
    SeeAllGrows(None, Entered(w, c), Added(w.room, e, c), id);
  }

  /** What is queued after the step about an ID that is not lost: the announcement, or what was queued before. */
  lemma QuietQueue(w: World, e: Event, w': World, known: Option<User>, id: string)
    requires Moved(w, e, w') && Linked(w.room) && Kinds(w) && w'.room.clients == ClientsAfter(w.room, e)
    requires e.Registering? ==> e.c in w.room.conns && !w.room.Member(e.c)
    requires !Takes(e) && id !in w'.history.lost
    ensures SeeAll(known, w'.room.broadcast, id) ==
            if Concerns(w.room, e, id) then Lookup(Changed(w.room, e, Users(w.room)), id)
            else SeeAll(known, w.room.broadcast, id)
  {
    PushedAnnounces(w, e, w');
    PushedTells(known, w.room.broadcast, Pushed(w.room, e), Change(w.room, e), id);
    NotLostAfter(w, e, w', id);
    UnconcernedUsers(w.room, e, Users(w.room), id);
  }

  lemma PushedTells(known: Option<User>, queue: seq<Message>, pushed: seq<Message>, change: Option<Payload>, id: string)
    requires |pushed| <= 1
    requires pushed != [] ==>
               var p := pushed[0].payload;
               !p.InitData? && if change.Some? then p == change.value else IsChat(p)
    ensures SeeAll(known, queue + pushed, id) ==
            if pushed != [] && change.Some? && Says(change.value, id).Some? then Says(change.value, id).value
            else SeeAll(known, queue, id)
  {
    SeeAllGrows(known, queue, pushed, id);
  }

  /** A step that sends the connection nothing about anybody: whoever it concerns was announced. */
  lemma QuietPicture(w: World, e: Event, w': World, c: ConnId, id: string)
    requires Moved(w, e, w') && Linked(w.room) && Kinds(w) && w'.room.clients == ClientsAfter(w.room, e)
    requires Converged(w, c)
    requires e.Registering? ==> e.c in w.room.conns && !w.room.Member(e.c) && e.c != c
    requires !e.Dispatching? && c in w.room.conns && InPicture(w', c, id)
    ensures Linked(w'.room) && Picture(w', c, id) == Lookup(Users(w'.room), id)
  {
    UsersMove(w, e, w');
    QuietView(w, e, w', c, id);
    QuietQueue(w, e, w', SeeAll(None, Entered(w, c), id), id);
    if !Concerns(w.room, e, id) {
      UnconcernedUsers(w.room, e, Users(w.room), id);
      QuietlyInPicture(w, e, w', c, id);
    }
  }

  lemma QuietlyInPicture(w: World, e: Event, w': World, c: ConnId, id: string)
    requires Moved(w, e, w') && w'.room.clients == ClientsAfter(w.room, e) && !Concerns(w.room, e, id)
    requires e.Registering? ==> e.c in w.room.conns && !w.room.Member(e.c) && e.c != c
    requires !e.Dispatching? && c in w.room.conns && InPicture(w', c, id)
    ensures InPicture(w, c, id)
  {
    AttendsBefore(w, e, w', c);
    NotLostAfter(w, e, w', id);
  }

  lemma AddedOnDispatch(s: RoomState, c: ConnId)
    requires c in s.conns && s.broadcast != []
    ensures var m := s.broadcast[0];
            Added(s, Dispatching, c) == if Due(s, c, m) && !s.Chan(c).IsFull() then [m] else []
  {
    assert s.broadcast[..1] == [s.broadcast[0]];
  }

  lemma MissedMoves(w: World, e: Event, w': World, c: ConnId, id: string)
    requires Moved(w, e, w') && c in w.room.conns && e.Dispatching?
    ensures var m, userId := w.room.broadcast[0], w.room.conns[c].user.id;
            Missed(w'.history.dispatched, c, userId, id) ==
            if Due(w.room, c, m) && Says(m.payload, id).Some? then w.room.Chan(c).IsFull()
            else Missed(w.history.dispatched, c, userId, id)
  {
    var ds := w'.history.dispatched;
    RecordedDue(w.room, ds[|ds| - 1], c);
    assert ds[..|ds| - 1] == w.history.dispatched;
  }

  lemma HeadFromSystem(w: World)
    requires Fifo(w) && Kinds(w) && w.room.status != Done && w.room.broadcast != []
    ensures w.room.broadcast[0].payload.IsPresence() ==> w.room.broadcast[0].sender.id == SYSTEM_ID
  {
    assert w.room.broadcast[0] == w.history.pushed[|w.history.dispatched|];
  }

  lemma ToldAdded(w: World, e: Event, w': World, c: ConnId, id: string)
    requires Moved(w, e, w') && Kinds(w) && Fifo(w) && w'.room.clients == ClientsAfter(w.room, e)
    requires e.Dispatching? && c in w.room.conns && InPicture(w', c, id)
    requires Says(w.room.broadcast[0].payload, id).Some?
    ensures Added(w.room, e, c) == [w.room.broadcast[0]] && w.room.status == Running
  {
    AttendsBefore(w, e, w', c);
    HeadFromSystem(w);
    MissedMoves(w, e, w', c, id);
    AddedOnDispatch(w.room, c);
  }

  /** When the first event of a settled queue is about `id`, the queue tells all there is to know of it. */
  lemma SettledTells(known: Option<User>, users: Roster, queue: seq<Message>, id: string)
    requires Settled(users, queue, id) && NoSnapshots(queue) && queue != [] && Says(queue[0].payload, id).Some?
    ensures SeeAll(See(known, queue[0].payload, id), queue[1..], id) == Lookup(users, id)
  {
    assert queue == [queue[0]] + queue[1..];
    SeeAllFirst(known, queue[0], queue[1..], id);
    SeeAllLast(known, queue, id);
    LastSaysTail(queue, id);
  }

  /** An event about `id` is dispatched to `c`, and `c` did not miss it: it and whatever is queued after it tell. */
  lemma ToldPicture(w: World, e: Event, w': World, c: ConnId, id: string)
    requires Moved(w, e, w') && Linked(w.room) && Kinds(w) && Fifo(w) && w'.room.clients == ClientsAfter(w.room, e)
    requires QueueSettled(w) && e.Dispatching? && c in w.room.conns && InPicture(w', c, id)
    requires Says(w.room.broadcast[0].payload, id).Some?
    ensures Linked(w'.room) && Picture(w', c, id) == Lookup(Users(w'.room), id)
  {
    ToldAdded(w, e, w', c, id);
    MovedEnters(w, e, w', c);
    UsersMove(w, e, w');
    NotLostAfter(w, e, w', id);
    QueuedBroadcastable(w);
    SeeAllOneMore(None, Entered(w, c), w.room.broadcast[0], id);
    SettledTells(SeeAll(None, Entered(w, c), id), Users(w.room), w.room.broadcast, id);
  }

  /** Anything else is dispatched, to `c` or not. */
  lemma UntoldPicture(w: World, e: Event, w': World, c: ConnId, id: string)
    requires Moved(w, e, w') && Linked(w.room) && Kinds(w) && Fifo(w) && w'.room.clients == ClientsAfter(w.room, e)
    requires Converged(w, c) && e.Dispatching? && c in w.room.conns && InPicture(w', c, id)
    requires Says(w.room.broadcast[0].payload, id).None?
    ensures Linked(w'.room) && Picture(w', c, id) == Lookup(Users(w'.room), id)
  {
    var m, rest := w.room.broadcast[0], w.room.broadcast[1..];
    assert w.room.broadcast == [m] + rest;
    AttendsBefore(w, e, w', c);
    MissedMoves(w, e, w', c, id);
    AddedOnDispatch(w.room, c);
    MovedEnters(w, e, w', c);
    UsersMove(w, e, w');
    NotLostAfter(w, e, w', id);
    QueuedBroadcastable(w);
    SeeAllGrows(None, Entered(w, c), Added(w.room, e, c), id);
    SeeAllFirst(SeeAll(None, Entered(w, c), id), m, rest, id);
    assert InPicture(w, c, id);
  }

  /** Dispatching moves an event from what a member has yet to be told to what it was told. */
  lemma ConvergedOnDispatch(w: World, e: Event, w': World, c: ConnId)
    requires Moved(w, e, w') && Linked(w.room) && Kinds(w) && Fifo(w) && w'.room.clients == ClientsAfter(w.room, e)
    requires QueueSettled(w) && Converged(w, c) && e.Dispatching? && c in w.room.conns
    ensures Linked(w'.room) && Converged(w', c)
  {
    UsersMove(w, e, w');
    forall id | InPicture(w', c, id) ensures Picture(w', c, id) == Lookup(Users(w'.room), id) {
      if Says(w.room.broadcast[0].payload, id).Some? {
        ToldPicture(w, e, w', c, id);
      } else {
        UntoldPicture(w, e, w', c, id);
      }
    }
  }

  lemma ConvergedQuiet(w: World, e: Event, w': World, c: ConnId)
    requires Moved(w, e, w') && Linked(w.room) && Kinds(w) && w'.room.clients == ClientsAfter(w.room, e)
    requires Converged(w, c)
    requires e.Registering? ==> e.c in w.room.conns && !w.room.Member(e.c) && e.c != c
    requires !e.Dispatching? && c in w.room.conns
    ensures Linked(w'.room) && Converged(w', c)
  {
    UsersMove(w, e, w');
    forall id | InPicture(w', c, id) ensures Picture(w', c, id) == Lookup(Users(w'.room), id) {
      QuietPicture(w, e, w', c, id);
    }
  }

  /** A newcomer that the loop does not get stuck on is sent its snapshot. */
  lemma JoinAdds(s: RoomState, e: Event, c: ConnId)
    requires e.Registering? && e.c == c && c in s.conns && !s.Rejects(s.conns[c].user.id) && !s.Chan(c).IsFull()
    ensures var added := Added(s, e, c);
            |added| == 1 && added[0].payload.InitData? && added[0].payload.onlineUsers == e.online
  {
  }

  lemma JoinPicture(w: World, e: Event, w': World, c: ConnId, id: string)
    requires Moved(w, e, w') && w'.room.clients == ClientsAfter(w.room, e) && Linked(w'.room) && Kinds(w') && Fifo(w')
    requires e.Registering? && e.c == c && c in w.room.conns && !w.room.Member(c) && InPicture(w', c, id)
    requires QueueSettled(w') && Lists(e.online, Users(w'.room))
    ensures Picture(w', c, id) == Lookup(Users(w'.room), id)
  {
    assert ConnMoves(w.room, e, w'.room, c);
    var added := Added(w.room, e, c);
    JoinAdds(w.room, e, c);
    MovedEnters(w, e, w', c);
    SeeAllGrows(None, Entered(w, c), added, id);
    ListedSnapshot(e.online, Users(w'.room));
    QueuedBroadcastable(w');
    SettledAbsorbs(Users(w'.room), w'.room.broadcast, id);
  }

  /** Events older than the snapshot that still reach the newcomer change nothing in the end. */
  lemma ConvergedOnJoin(w: World, e: Event, w': World, c: ConnId)
    requires Moved(w, e, w') && w'.room.clients == ClientsAfter(w.room, e) && Linked(w'.room) && Kinds(w') && Fifo(w')
    requires e.Registering? && e.c == c && c in w.room.conns && !w.room.Member(c)
    requires QueueSettled(w') && (Attends(w'.room, c) ==> Lists(e.online, Users(w'.room)))
    ensures Converged(w', c)
  {
    forall id | InPicture(w', c, id) ensures Picture(w', c, id) == Lookup(Users(w'.room), id) {
      JoinPicture(w, e, w', c, id);
    }
  }

  // ----- pictures as rosters -----

  lemma SameRoster(v: Roster, v': Roster)
    requires forall id :: Lookup(v, id) == Lookup(v', id)
    ensures v == v'
  {
    forall id ensures id in v <==> id in v' {
      assert Lookup(v, id) == Lookup(v', id);
    }
    forall id | id in v ensures v[id] == v'[id] {
      assert Lookup(v, id) == Lookup(v', id);
    }
  }

  /** What the client of `c` makes of all it was sent and of what still waits in the broadcast channel. */
  function Roll(w: World, c: ConnId): Roster
    requires c in w.room.conns
  {
    ApplyAll(ApplyAll(map[], Entered(w, c)), w.room.broadcast)
  }

  lemma RollShows(w: World, c: ConnId, id: string)
    requires c in w.room.conns
    ensures Lookup(Roll(w, c), id) == Picture(w, c, id)
  {
    SeeAllIsLookup(map[], Entered(w, c), id);
    SeeAllIsLookup(ApplyAll(map[], Entered(w, c)), w.room.broadcast, id);
  }
}
