/** What holds after every run of a room, however its loop and its connections' goroutines interleave. */
module RoomTheorems {
  import opened ChatTypes
  import FileRules
  import opened RoomMachine
  import opened RoomSafety
  import opened RoomHistory
  import opened RoomDelivery
  import opened RoomOrder
  import opened RoomPresence
  import opened RoomSessions
  import opened RoomParting
  import opened RoomGreeting

  // ----- one invariant for all -----

  ghost predicate Lines(w: World) {
    Fifo(w) && Ids(w) && Kinds(w) && Known(w) && AllConfined(w)
  }

  ghost predicate Hub(w: World, created: int) {
    && Safe(w.room) && Linked(w.room)
    && QueueSettled(w)
    && Replays(w.room, w.history.sessions)
    && TimerMatches(w.room) && TimerCovers(w, created) && OccupiedBefore(w, created)
  }

  ghost predicate Spoke(w: World, c: ConnId)
    requires Linked(w.room)
  {
    && c in w.room.conns
    && Delivered(w, c) && AckFirst(w, c) && Greeted(w, c) && Converged(w, c)
    && Parted(w, c) && GoneMerges(GoneOf(w.history, c))
  }

  ghost predicate Good(w: World, created: int) {
    && Lines(w) && Hub(w, created)
    && (forall c | c in w.room.conns :: Spoke(w, c))
  }

  lemma SafeIsLinked(s: RoomState)
    requires Safe(s)
    ensures Linked(s)
  {
    forall id | id in s.clients ensures s.clients[id] in s.conns && s.conns[s.clients[id]].user.id == id {
      assert KeySafe(s, id);
    }
  }

  lemma StartIsGood(code: string, maxClients: int, now: int)
    ensures Good(Start(code, maxClients, now), now)
  {
    var w := Start(code, maxClients, now);
    forall id, c ensures !Owns(w.history.sessions, id, c) {
    }
  }

  lemma LinesStep(w: World, e: Event, w': World)
    requires Moved(w, e, w') && Lines(w) && Enabled(w.room, e)
    ensures Lines(w')
  {
    FifoKept(w, e, w');
    IdsKept(w, e, w');
    KnownKept(w, e, w');
    AcceptedIsConfined(w.room, e);
    AcceptedLinesKept(w, e, w');
  }

  lemma AcceptedLinesKept(w: World, e: Event, w': World)
    requires Moved(w, e, w') && Kinds(w) && AllConfined(w)
    requires e.Accepting? ==> FileRules.Confined(w.room.code, e.payload)
    ensures Kinds(w') && AllConfined(w')
  {
    KindsKept(w, e, w');
    AllConfinedKept(w, e, w');
  }

  /** What the handlers' checks let pass may be broadcast. */
  lemma AcceptedIsConfined(s: RoomState, e: Event)
    requires Enabled(s, e)
    ensures e.Accepting? ==> FileRules.Confined(s.code, e.payload)
  {
    if e.Accepting? {
      FileRules.JudgedMeansConfined(s.code, e.payload);
    }
  }

  lemma NewcomerIsNoMember(s: RoomState, e: Event)
    requires Safe(s) && Enabled(s, e)
    ensures e.Registering? ==> e.c in s.conns && !s.Member(e.c)
    ensures e.Unregistering? ==> e.c in s.conns
  {
    if e.Registering? {
      assert ConnSafe(s, e.c);
    }
  }

  lemma HubStep(w: World, e: Event, created: int)
    requires Lines(w) && Hub(w, created) && Enabled(w.room, e)
    ensures Hub(Step(w, e), created) && Step(w, e).room.clients == ClientsAfter(w.room, e)
  {
    var w' := Step(w, e);
    StepKeepsSafe(w.room, e);
    SafeIsLinked(w'.room);
    StepMoved(w, e);
    StepRosters(w.room, e);
    StepTimes(w.room, e);
    NewcomerIsNoMember(w.room, e);
    QueueSettledKept(w, e, w');
    ReplaysKept(w, e, w');
    TimerMatchesKept(w.room, e, w'.room);
    TimerCoversKept(w, e, w', created);
  }

  lemma SnapshotListed(w: World, e: Event, w': World)
    requires Moved(w, e, w') && Linked(w.room) && w'.room.clients == ClientsAfter(w.room, e)
    requires e.Registering? && Enabled(w.room, e) && !w.room.Rejects(w.room.conns[e.c].user.id)
    ensures Linked(w'.room) && Lists(e.online, Users(w'.room))
  {
    UsersMove(w, e, w');
  }

  lemma ConvergedStep(w: World, e: Event, w': World, c: ConnId)
    requires Moved(w, e, w') && Lines(w) && Lines(w') && w'.room.clients == ClientsAfter(w.room, e)
    requires Linked(w.room) && Linked(w'.room) && QueueSettled(w) && QueueSettled(w') && c in w.room.conns
    requires Converged(w, c)
    requires e.Registering? ==> e.c in w.room.conns && !w.room.Member(e.c)
    requires e.Registering? && Attends(w'.room, e.c) ==> Lists(e.online, Users(w'.room))
    ensures Converged(w', c)
  {
    if e.Dispatching? {
      ConvergedOnDispatch(w, e, w', c);
    } else if e.Registering? && e.c == c {
      ConvergedOnJoin(w, e, w', c);
    } else {
      ConvergedQuiet(w, e, w', c);
    }
  }

  lemma SnapshotForMember(w: World, e: Event, w': World)
    requires Moved(w, e, w') && Linked(w.room) && Linked(w'.room) && w'.room.clients == ClientsAfter(w.room, e)
    requires e.Registering? && Enabled(w.room, e) && !w.room.Member(e.c) && Attends(w'.room, e.c)
    ensures Lists(e.online, Users(w'.room))
  {
    assert ConnMoves(w.room, e, w'.room, e.c);
    SnapshotListed(w, e, w');
  }

  lemma RejectedIsOpen(w: World)
    requires Safe(w.room) && (forall c | c in w.room.conns :: Parted(w, c))
    ensures w.room.rejecting.Some? ==> w.room.Chan(w.room.rejecting.value).open
  {
    if w.room.rejecting.Some? {
      assert ConnSafe(w.room, w.room.rejecting.value) && Parted(w, w.room.rejecting.value);
    }
  }

  lemma OldSpokeStep(w: World, e: Event, w': World, c: ConnId)
    requires Moved(w, e, w') && Lines(w) && Lines(w') && w'.room.clients == ClientsAfter(w.room, e)
    requires Linked(w.room) && Linked(w'.room) && QueueSettled(w) && QueueSettled(w') && Spoke(w, c)
    requires Safe(w.room) && Enabled(w.room, e) && w'.room == Next(w.room, e)
    requires e.Registering? ==> e.c in w.room.conns && !w.room.Member(e.c)
    requires w.room.rejecting.Some? ==> w.room.Chan(w.room.rejecting.value).open
    ensures Spoke(w', c)
  {
    assert ConnMoves(w.room, e, w'.room, c);
    DeliveredKept(w, e, w', c);
    AckFirstKept(w, e, w', c);
    StepMeets(w.room, e, c);
    GreetedKept(w, e, w', c);
    if e.Registering? && Attends(w'.room, e.c) {
      SnapshotForMember(w, e, w');
    }
    ConvergedStep(w, e, w', c);
    StepParts(w.room, e, c);
    PartedKept(w, e, w', c);
    GoneMergesKept(GoneOf(w.history, c), w.room.Chan(c).queue, w'.room.Chan(c).queue, e == Writing(c));
    assert GoneOf(w'.history, c) == GoneMap(w.room, e, w'.room, w.history)[c];
  }

  lemma NewSpokeStep(w: World, e: Event, w': World, c: ConnId)
    requires Moved(w, e, w') && Known(w) && c !in w.room.conns && c in w'.room.conns
    requires Linked(w.room) && Linked(w'.room) && w'.room.clients == ClientsAfter(w.room, e)
    requires e.Registering? ==> e.c in w.room.conns
    ensures Spoke(w', c)
  {
    assert Born(w.room, e, w'.room, c);
    assert c !in w.history.gone;
    DeliveredAtBirth(w, e, w', c);
    assert !w'.room.Member(c);
  }

  lemma GoodStep(w: World, e: Event, created: int)
    requires Good(w, created) && Enabled(w.room, e)
    ensures Good(Step(w, e), created)
  {
    var w' := Step(w, e);
    StepMoved(w, e);
    LinesStep(w, e, w');
    HubStep(w, e, created);
    NewcomerIsNoMember(w.room, e);
    RejectedIsOpen(w);
    forall c | c in w'.room.conns ensures Spoke(w', c) {
      if c in w.room.conns {
        OldSpokeStep(w, e, w', c);
      } else {
        NewSpokeStep(w, e, w', c);
      }
    }
  }

  lemma {:induction false} GoodRun(w: World, es: seq<Event>, created: int)
    requires Good(w, created) && AllEnabled(w, es)
    ensures Good(Run(w, es), created)
    decreases |es|
  {
    if es != [] {
      GoodStep(w, es[0], created);
      GoodRun(Step(w, es[0]), es[1..], created);
    }
  }

  /** The state a room is in after the steps `es`. */
  ghost function After(code: string, maxClients: int, created: int, es: seq<Event>): World
    requires AllEnabled(Start(code, maxClients, created), es)
  {
    Run(Start(code, maxClients, created), es)
  }

  lemma AfterIsGood(code: string, maxClients: int, created: int, es: seq<Event>)
    requires AllEnabled(Start(code, maxClients, created), es)
    ensures Good(After(code, maxClients, created, es), created)
  {
    StartIsGood(code, maxClients, created);
    GoodRun(Start(code, maxClients, created), es, created);
  }

  // ----- presence -----

  /** Presence convergence, user by user: if the latest change of `id` was announced, and the latest event about it
      did not miss the member, then the member's snapshot and the events it was sent, and after them those still
      waiting to be dispatched, tell exactly whether and as whom `id` is in the room. */
  lemma PresenceConverges(code: string, maxClients: int, created: int, es: seq<Event>, c: ConnId, id: string)
    requires AllEnabled(Start(code, maxClients, created), es)
    ensures var w := After(code, maxClients, created, es);
            Linked(w.room) && (InPicture(w, c, id) ==> Lookup(Roll(w, c), id) == Lookup(Users(w.room), id))
  {
    AfterIsGood(code, maxClients, created, es);
    var w := After(code, maxClients, created, es);
    if InPicture(w, c, id) {
      assert Spoke(w, c);
      RollShows(w, c, id);
    }
  }

  /** So a member that no event missed, in a room that lost none, has the whole membership. */
  lemma PresenceConvergesWholly(code: string, maxClients: int, created: int, es: seq<Event>, c: ConnId)
    requires AllEnabled(Start(code, maxClients, created), es)
    ensures var w := After(code, maxClients, created, es);
            Linked(w.room) && (Attends(w.room, c) && (forall id :: InPicture(w, c, id)) ==> Roll(w, c) == Users(w.room))
  {
    AfterIsGood(code, maxClients, created, es);
    var w := After(code, maxClients, created, es);
    if Attends(w.room, c) && forall id :: InPicture(w, c, id) {
      forall id ensures Lookup(Roll(w, c), id) == Lookup(Users(w.room), id) {
        PresenceConverges(code, maxClients, created, es, c, id);
      }
      SameRoster(Roll(w, c), Users(w.room));
    }
  }

  /** An announcement is lost only when the broadcast channel holds its 1024 messages, or with a newcomer for whose
      snapshot there was no room. */
  lemma LostOnlyWhenFull(w: World, e: Event, id: string)
    requires Safe(w.room) && Enabled(w.room, e) && id in Step(w, e).history.lost && id !in w.history.lost
    ensures |w.room.broadcast| >= BROADCAST_CAPACITY || Hangs(w.room, e)
  {
    StepMoved(w, e);
    StepRosters(w.room, e);
    NewcomerIsNoMember(w.room, e);
    ConcernsChanged(w.room, e, Step(w, e).room, id);
  }

  /** Once nothing is left in either channel, what the member's client has received tells the same. */
  lemma PresenceSettles(code: string, maxClients: int, created: int, es: seq<Event>, c: ConnId, id: string)
    requires AllEnabled(Start(code, maxClients, created), es)
    requires var w := After(code, maxClients, created, es);
             InPicture(w, c, id) && w.room.broadcast == [] && w.room.Chan(c).queue == []
    ensures var w := After(code, maxClients, created, es);
            Linked(w.room) && Lookup(ApplyAll(map[], GoneOf(w.history, c).written), id) == Lookup(Users(w.room), id)
  {
    PresenceConverges(code, maxClients, created, es, c, id);
    AfterIsGood(code, maxClients, created, es);
    var w := After(code, maxClients, created, es);
    assert Spoke(w, c);
    AllWritten(w, c);
  }

  lemma AllWritten(w: World, c: ConnId)
    requires c in w.room.conns && Parted(w, c) && GoneMerges(GoneOf(w.history, c)) && Attends(w.room, c)
    requires w.room.broadcast == [] && w.room.Chan(c).queue == []
    ensures Roll(w, c) == ApplyAll(map[], GoneOf(w.history, c).written)
  {
    MemberLosesNothing(w, c);
    assert Entered(w, c) == GoneOf(w.history, c).all;
  }

  /** A client's snapshot comes once and comes first: it names the client and the room's capacity, stands before
      every broadcast message of the channel, and every member of a room whose loop is not stuck was sent one. */
  lemma SnapshotFirst(code: string, maxClients: int, created: int, es: seq<Event>, c: ConnId)
    requires AllEnabled(Start(code, maxClients, created), es)
    requires c in After(code, maxClients, created, es).room.conns
    ensures var w := After(code, maxClients, created, es);
            && InitFirst(Entered(w, c), w.room.conns[c].user, maxClients)
            && (w.room.status == Running && w.room.Member(c) ==> HasInit(Entered(w, c)))
  {
    AfterIsGood(code, maxClients, created, es);
    assert Spoke(After(code, maxClients, created, es), c);
    StartIsGood(code, maxClients, created);
    RoomKeepsCode(Start(code, maxClients, created), es, created);
  }

  // ----- delivery -----

  lemma MemberLosesNothing(w: World, c: ConnId)
    requires c in w.room.conns && Parted(w, c) && GoneMerges(GoneOf(w.history, c)) && !Departed(w.room, c)
    ensures GoneOf(w.history, c).discarded == [] && GoneOf(w.history, c).written == GoneOf(w.history, c).all
  {
    NothingDiscarded(GoneOf(w.history, c).all, GoneOf(w.history, c).written);
  }

  /** Exact delivery: the broadcast messages that entered a connection's channel are exactly the messages
      dispatched while it was a member with room to spare, without errors and without its own user's, each
      once and in order. They were written or are queued, save for what its departure discarded. */
  lemma ExactDelivery(code: string, maxClients: int, created: int, es: seq<Event>, c: ConnId)
    requires AllEnabled(Start(code, maxClients, created), es)
    requires c in After(code, maxClients, created, es).room.conns
    ensures var w := After(code, maxClients, created, es);
            var g := GoneOf(w.history, c);
            && BroadcastOnly(g.all + w.room.Chan(c).queue)
                == DueMessages(w.history.dispatched, c, w.room.conns[c].user.id, false)
            && Merges(g.all, g.written, g.discarded)
            && (!Departed(w.room, c) ==> g.written == g.all)
            && |g.discarded| <= 1
  {
    AfterIsGood(code, maxClients, created, es);
    var w := After(code, maxClients, created, es);
    assert Spoke(w, c);
    if !Departed(w.room, c) {
      MemberLosesNothing(w, c);
    }
  }

  /** Everything due, whether or not the channel was full. */
  function AllDue(ds: seq<Dispatched>, c: ConnId, userId: string): seq<Message> {
    if ds == [] then []
    else AllDue(ds[..|ds| - 1], c, userId) + (if DueTo(ds[|ds| - 1], c, userId) then [ds[|ds| - 1].msg] else [])
  }

  lemma DueMore(ds: seq<Dispatched>, c: ConnId, userId: string, all: seq<Message>, kept: seq<Message>,
      dropped: seq<Message>)
    requires ds != []
             && all == AllDue(ds[..|ds| - 1], c, userId)
             && kept == DueMessages(ds[..|ds| - 1], c, userId, false)
                 && dropped == DueMessages(ds[..|ds| - 1], c, userId, true)
    ensures var d := ds[|ds| - 1];
            var all', kept', dropped' :=
                AllDue(ds, c, userId), DueMessages(ds, c, userId, false), DueMessages(ds, c, userId, true);
            || (all' == all && kept' == kept && dropped' == dropped)
            || (all' == all + [d.msg] && kept' == kept + [d.msg] && dropped' == dropped)
            || (all' == all + [d.msg] && kept' == kept && dropped' == dropped + [d.msg])
  {
  }

  lemma {:induction false} DueSplits(ds: seq<Dispatched>, c: ConnId, userId: string)
    ensures Merges(AllDue(ds, c, userId), DueMessages(ds, c, userId, false), DueMessages(ds, c, userId, true))
  {
    if ds != [] {
      var n := |ds| - 1;
      DueSplits(ds[..n], c, userId);
      var all, kept, dropped :=
          AllDue(ds[..n], c, userId), DueMessages(ds[..n], c, userId, false), DueMessages(ds[..n], c, userId, true);
      MergesMore(all, kept, dropped, ds[n].msg);
      DueMore(ds, c, userId, all, kept, dropped);
    }
  }

  ghost predicate DistinctIds(ms: seq<Message>) {
    forall i, j | 0 <= i < j < |ms| :: ms[i].id != ms[j].id
  }

  /** Messages dispatched under different IDs stay apart among those due. */
  lemma {:induction false} DueDistinct(ds: seq<Dispatched>, c: ConnId, userId: string)
    requires forall a, b | 0 <= a < b < |ds| :: ds[a].msg.id != ds[b].msg.id
    ensures DistinctIds(AllDue(ds, c, userId))
    ensures forall m | m in AllDue(ds, c, userId) :: exists a :: 0 <= a < |ds| && ds[a].msg == m
  {
    if ds != [] {
      var n := |ds| - 1;
      var rest := AllDue(ds[..n], c, userId);
      DueDistinct(ds[..n], c, userId);
      forall m | m in rest ensures m.id != ds[n].msg.id {
        var a :| 0 <= a < |ds[..n]| && ds[..n][a].msg == m;
        assert ds[a].msg == m;
      }
      if DueTo(ds[n], c, userId) {
        DistinctMore(rest, ds[n].msg);
      }
    }
  }

  lemma DistinctMore(ms: seq<Message>, m: Message)
    requires DistinctIds(ms) && forall x | x in ms :: x.id != m.id
    ensures DistinctIds(ms + [m])
  {
    assert forall i | 0 <= i < |ms| :: (ms + [m])[i] == ms[i] && ms[i] in ms;
  }

  /** A message dropped because the channel was full never entered that channel. */
  lemma DroppedNeverEntered(w: World, c: ConnId, i: nat, p: nat)
    requires Fifo(w) && Ids(w) && Kinds(w) && c in w.room.conns && Delivered(w, c) && p < |Entered(w, c)|
    requires i < |DueMessages(w.history.dispatched, c, w.room.conns[c].user.id, true)|
    ensures Entered(w, c)[p] != DueMessages(w.history.dispatched, c, w.room.conns[c].user.id, true)[i]
  {
    var ds, userId := w.history.dispatched, w.room.conns[c].user.id;
    var dropped := DueMessages(ds, c, userId, true);
    var a := DuePosition(ds, c, userId, true, i);
    if Entered(w, c)[p] == dropped[i] {
      assert IsBroadcastable(w.history.pushed[a]);
      var k := BroadcastPosition(Entered(w, c), p);
      var b := DuePosition(ds, c, userId, false, k);
      SameDispatch(w, a, b);
    }
  }

  lemma DispatchedDistinct(w: World)
    requires Fifo(w) && Ids(w)
    ensures forall a, b | 0 <= a < b < |w.history.dispatched| ::
            w.history.dispatched[a].msg.id != w.history.dispatched[b].msg.id
  {
  }

  /** In every run, what entered a connection's channel and what was dropped at it make up what was due to it: in
      dispatch order, no message twice, and none in both. */
  lemma DeliveredOrDropped(code: string, maxClients: int, created: int, es: seq<Event>, c: ConnId)
    requires AllEnabled(Start(code, maxClients, created), es)
    requires c in After(code, maxClients, created, es).room.conns
    ensures var w := After(code, maxClients, created, es);
            var ds, userId := w.history.dispatched, w.room.conns[c].user.id;
            var due, dropped := AllDue(ds, c, userId), DueMessages(ds, c, userId, true);
            && Merges(due, BroadcastOnly(Entered(w, c)), dropped)
            && DistinctIds(due)
            && forall m | m in dropped :: m !in Entered(w, c)
  {
    AfterIsGood(code, maxClients, created, es);
    var w := After(code, maxClients, created, es);
    var ds, userId := w.history.dispatched, w.room.conns[c].user.id;
    assert Spoke(w, c);
    DueSplits(ds, c, userId);
    DispatchedDistinct(w);
    DueDistinct(ds, c, userId);
    forall m | m in DueMessages(ds, c, userId, true) ensures m !in Entered(w, c) {
      DroppedStaysOut(w, c, m);
    }
  }

  lemma DroppedStaysOut(w: World, c: ConnId, m: Message)
    requires Fifo(w) && Ids(w) && Kinds(w) && c in w.room.conns && Delivered(w, c)
    requires m in DueMessages(w.history.dispatched, c, w.room.conns[c].user.id, true)
    ensures m !in Entered(w, c)
  {
    var dropped := DueMessages(w.history.dispatched, c, w.room.conns[c].user.id, true);
    var i :| 0 <= i < |dropped| && dropped[i] == m;
    forall p | 0 <= p < |Entered(w, c)| ensures Entered(w, c)[p] != m {
      DroppedNeverEntered(w, c, i, p);
    }
  }

  /** The write pump passes on the oldest message, and it is gone from the channel. */
  lemma PumpWrites(w: World, c: ConnId)
    requires Enabled(w.room, Writing(c))
    ensures var w' := Step(w, Writing(c));
            && c in w'.room.conns && w'.room.Chan(c).queue == w.room.Chan(c).queue[1..]
            && w'.room.Chan(c).open == w.room.Chan(c).open
            && GoneOf(w'.history, c).written == GoneOf(w.history, c).written + [w.room.Chan(c).queue[0]]
  {
    assert GoneOf(Step(w, Writing(c)).history, c)
           == GoneMap(w.room, Writing(c), Step(w, Writing(c)).room, w.history)[c];
    assert w.room.Chan(c).queue[..1] == [w.room.Chan(c).queue[0]];
  }

  function Pumping(c: ConnId, n: nat): seq<Event> {
    if n == 0 then [] else [Writing(c)] + Pumping(c, n - 1)
  }

  /** From whatever state, even when the loop is over, the write pump by itself can pass on all that is queued, each
      message once and in the order of the queue. */
  lemma {:induction false} PumpDrains(w: World, c: ConnId, n: nat)
    requires c in w.room.conns && n <= |w.room.Chan(c).queue|
    ensures AllEnabled(w, Pumping(c, n)) && c in Run(w, Pumping(c, n)).room.conns
    ensures var w' := Run(w, Pumping(c, n));
            && w'.room.Chan(c).queue == w.room.Chan(c).queue[n..]
            && GoneOf(w'.history, c).written == GoneOf(w.history, c).written + w.room.Chan(c).queue[..n]
    decreases n
  {
    if n > 0 {
      var queue, w1 := w.room.Chan(c).queue, Step(w, Writing(c));
      PumpWrites(w, c);
      PumpDrains(w1, c, n - 1);
      FirstOf(w, Writing(c), Pumping(c, n - 1));
      QueueSplits(GoneOf(w.history, c).written, queue, n);
    }
  }

  lemma FirstOf(w: World, e: Event, rest: seq<Event>)
    requires Enabled(w.room, e) && AllEnabled(Step(w, e), rest)
    ensures AllEnabled(w, [e] + rest) && Run(w, [e] + rest) == Run(Step(w, e), rest)
  {
    assert ([e] + rest)[1..] == rest;
  }

  lemma QueueSplits(written: seq<Message>, queue: seq<Message>, n: nat)
    requires 0 < n <= |queue|
    ensures (written + [queue[0]]) + queue[1..][..n - 1] == written + queue[..n] && queue[1..][n - 1..] == queue[n..]
  {
    assert queue[..n] == [queue[0]] + queue[1..][..n - 1];
  }

  /** The messages dispatched are those pushed, in that order, whoever pushed them and whenever. */
  lemma DispatchOrder(code: string, maxClients: int, created: int, es: seq<Event>, k: nat)
    requires AllEnabled(Start(code, maxClients, created), es)
    requires k < |After(code, maxClients, created, es).history.dispatched|
    ensures var h := After(code, maxClients, created, es).history;
            k < |h.pushed| && h.dispatched[k].msg == h.pushed[k] && forall j | 0 <= j < k ::
                h.pushed[j].id != h.pushed[k].id
  {
    AfterIsGood(code, maxClients, created, es);
  }

  /** Any two connections agree on the order of the broadcast messages both have received. */
  lemma OrderAgreed(code: string, maxClients: int, created: int, es: seq<Event>, c: ConnId, d: ConnId, i: nat, j: nat,
      k: nat, l: nat)
    requires AllEnabled(Start(code, maxClients, created), es)
    requires var w := After(code, maxClients, created, es);
             var mine, theirs := GoneOf(w.history, c).written, GoneOf(w.history, d).written;
             && c in w.room.conns && d in w.room.conns
             && i < j < |mine| && k < |theirs| && l < |theirs|
             && mine[i] == theirs[k] && mine[j] == theirs[l]
             && mine[i].payload.IsBroadcast() && mine[j].payload.IsBroadcast()
    ensures k < l
  {
    AfterIsGood(code, maxClients, created, es);
    var w := After(code, maxClients, created, es);
    WrittenInOrder(w, created, c, d, i, j, k, l);
  }

  lemma WrittenInOrder(w: World, created: int, c: ConnId, d: ConnId, i: nat, j: nat, k: nat, l: nat)
    requires Lines(w) && Linked(w.room) && Spoke(w, c) && Spoke(w, d)
    requires var mine, theirs := GoneOf(w.history, c).written, GoneOf(w.history, d).written;
             && i < j < |mine| && k < |theirs| && l < |theirs|
             && mine[i] == theirs[k] && mine[j] == theirs[l]
             && mine[i].payload.IsBroadcast() && mine[j].payload.IsBroadcast()
    ensures k < l
  {
    var g, g' := GoneOf(w.history, c), GoneOf(w.history, d);
    var p, q := MergePositions(g.all, g.written, g.discarded, i, j);
    if l < k {
      var q', p' := MergePositions(g'.all, g'.written, g'.discarded, l, k);
      SameOrder(w, c, d, p, q, p', q');
    } else if l == k {
      var p' := MergePosition(g'.all, g'.written, g'.discarded, k);
      SameOrder(w, c, d, p, q, p', p');
    }
  }

  /** Acknowledgement first: if the confirmation of a dispatched message entered a connection's channel, it stands
      there before every message dispatched after the one it confirms. */
  lemma AckPrecedes(code: string, maxClients: int, created: int, es: seq<Event>, c: ConnId, p: nat, q: nat, j: nat,
      k: nat)
    requires AllEnabled(Start(code, maxClients, created), es)
    requires var w := After(code, maxClients, created, es);
             && c in w.room.conns && p < |Entered(w, c)| && q < |Entered(w, c)| && j < k < |w.history.dispatched|
             && Confirms(Entered(w, c)[q], w.history.dispatched[j].msg.id)
             && Entered(w, c)[p] == w.history.dispatched[k].msg
    ensures q < p
  {
    AfterIsGood(code, maxClients, created, es);
    assert Spoke(After(code, maxClients, created, es), c);
  }

  /** What entered a channel stays on record, in its place. */
  lemma {:induction false} EnteredGrows(w: World, es: seq<Event>, created: int, c: ConnId)
    requires Good(w, created) && AllEnabled(w, es) && c in w.room.conns
    ensures c in Run(w, es).room.conns && Entered(w, c) <= Entered(Run(w, es), c)
    decreases |es|
  {
    if es != [] {
      GoodStep(w, es[0], created);
      StepMoved(w, es[0]);
      MovedEnters(w, es[0], Step(w, es[0]), c);
      EnteredGrows(Step(w, es[0]), es[1..], created, c);
    }
  }

  lemma AckEnters(w: World, c: ConnId, payload: Payload, tempId: string)
    requires Safe(w.room) && Enabled(w.room, Accepting(c, payload, tempId)) && tempId != ""
    requires |w.room.Chan(c).queue| < SEND_CAPACITY
    ensures var w' := Step(w, Accepting(c, payload, tempId));
            && c in w'.room.conns && w'.room.conns[c].pending == Some(w.room.NewMessage(w.room.conns[c].user, payload))
            && |Entered(w', c)| == |Entered(w, c)| + 1
                && Entered(w', c)[|Entered(w, c)|].payload == Confirm(tempId, w.room.nextId)
  {
    var e := Accepting(c, payload, tempId);
    StepMoved(w, e);
    MovedEnters(w, e, Step(w, e), c);
    StepMoves(w.room, e, c);
  }

  lemma AckStays(w: World, e: Event, es: seq<Event>, created: int, c: ConnId)
    requires Good(w, created) && e.Accepting? && e.c == c && Enabled(w.room, e) && AllEnabled(Step(w, e), es)
    requires e.tempId != "" && |w.room.Chan(c).queue| < SEND_CAPACITY
    ensures var end := Run(Step(w, e), es);
            && c in end.room.conns && |Entered(w, c)| < |Entered(end, c)|
            && Entered(end, c)[|Entered(w, c)|].payload == Confirm(e.tempId, w.room.nextId)
  {
    AckEnters(w, c, e.payload, e.tempId);
    GoodStep(w, e, created);
    EnteredGrows(Step(w, e), es, created, c);
  }

  /** Message `id` is confirmed under its temporary ID at place `q` of the connection's channel, before whatever is
      dispatched after it. */
  ghost predicate AckedAt(w: World, c: ConnId, q: nat, tempId: string, id: nat) {
    && c in w.room.conns && q < |Entered(w, c)| && Entered(w, c)[q].payload == Confirm(tempId, id)
    && forall p, j, k | 0 <= p < |Entered(w, c)| && 0 <= j < k < |w.history.dispatched|
         && w.history.dispatched[j].msg.id == id && Entered(w, c)[p] == w.history.dispatched[k].msg :: q < p
  }

  lemma AckedFromThen(w: World, e: Event, es: seq<Event>, created: int, c: ConnId)
    requires Good(w, created) && e.Accepting? && e.c == c && Enabled(w.room, e) && AllEnabled(Step(w, e), es)
    requires e.tempId != "" && |w.room.Chan(c).queue| < SEND_CAPACITY
    ensures AckedAt(Run(Step(w, e), es), c, |Entered(w, c)|, e.tempId, w.room.nextId)
  {
    AckStays(w, e, es, created, c);
    GoodStep(w, e, created);
    GoodRun(Step(w, e), es, created);
    AckedInOrder(Run(Step(w, e), es), created, c, |Entered(w, c)|, e.tempId, w.room.nextId);
  }

  lemma AckedInOrder(w: World, created: int, c: ConnId, q: nat, tempId: string, id: nat)
    requires Good(w, created) && c in w.room.conns && q < |Entered(w, c)|
    requires Entered(w, c)[q].payload == Confirm(tempId, id)
    ensures AckedAt(w, c, q, tempId, id)
  {
    assert Spoke(w, c);
  }

  /** An accepted message with a temporary ID, whose client has room for the confirmation, is confirmed at once, and
      however the run goes on, the confirmation stands before everything dispatched after the message itself. */
  lemma AcceptedIsAcknowledged(code: string, maxClients: int, created: int, es: seq<Event>, i: nat)
    requires AllEnabled(Start(code, maxClients, created), es) && i < |es| && es[i].Accepting? && es[i].tempId != ""
    ensures AllEnabled(Start(code, maxClients, created), es[..i])
    ensures var before, c := After(code, maxClients, created, es[..i]), es[i].c;
            c in before.room.conns &&
            (|before.room.Chan(c).queue| < SEND_CAPACITY ==>
               AckedAt(After(code, maxClients, created, es), c, |Entered(before, c)|, es[i].tempId, before.room.nextId))
  {
    var w0 := Start(code, maxClients, created);
    RunSplits(w0, es, i);
    assert es[i..][0] == es[i];
    var w := Run(w0, es[..i]);
    if |w.room.Chan(es[i].c).queue| < SEND_CAPACITY {
      AfterIsGood(code, maxClients, created, es[..i]);
      AckedFromThen(w, es[i], es[i..][1..], created, es[i].c);
    }
  }

  /** Attachment confinement: an ATTACHMENTS message that reaches any connection of the room passed the room's own
      checks: one to three files, each under this room's prefix, of matching type, with its metadata cleared. */
  lemma AttachmentsConfined(code: string, maxClients: int, created: int, es: seq<Event>, c: ConnId, p: nat)
    requires AllEnabled(Start(code, maxClients, created), es)
    requires var w := After(code, maxClients, created, es);
             c in w.room.conns && p < |Entered(w, c)| && Entered(w, c)[p].payload.Attachments?
    ensures var m := Entered(After(code, maxClients, created, es), c)[p];
            m.roomCode == code && FileRules.Confined(code, m.payload)
  {
    AfterIsGood(code, maxClients, created, es);
    var w := After(code, maxClients, created, es);
    assert Spoke(w, c);
    var a := EnteredWasDispatched(w, c, p);
    StartIsGood(code, maxClients, created);
    RoomKeepsCode(Start(code, maxClients, created), es, created);
    assert IsChat(w.history.pushed[a].payload);
  }

  lemma {:induction false} RoomKeepsCode(w: World, es: seq<Event>, created: int)
    requires Good(w, created) && AllEnabled(w, es)
    ensures Run(w, es).room.code == w.room.code && Run(w, es).room.maxClients == w.room.maxClients
    decreases |es|
  {
    if es != [] {
      StepMoved(w, es[0]);
      GoodStep(w, es[0], created);
      RoomKeepsCode(Step(w, es[0]), es[1..], created);
    }
  }

  // ----- channels -----

  /** Channel discipline: the loop never sends on a closed channel, no channel is closed twice, and none overflows;
      and a connection the room has let go of had its channel closed or lost exactly one queued message, never both. */
  lemma ChannelDiscipline(code: string, maxClients: int, created: int, es: seq<Event>, c: ConnId)
    requires AllEnabled(Start(code, maxClients, created), es)
    requires c in After(code, maxClients, created, es).room.conns
    ensures var w := After(code, maxClients, created, es);
            var ch := w.room.Chan(c);
            && ch.faults == 0 && ch.closes <= 1 && (ch.open <==> ch.closes == 0) && |ch.queue| <= SEND_CAPACITY
            && ch.closes + |GoneOf(w.history, c).discarded| == (if Departed(w.room, c) then 1 else 0)
  {
    AfterIsGood(code, maxClients, created, es);
    var w := After(code, maxClients, created, es);
    assert Spoke(w, c) && ConnSafe(w.room, c);
  }

  // ----- sessions and capacity -----

  /** Session replacement: an ID belongs to the connection last admitted for it, unless that very connection
      was unregistered afterwards; the unregistering of a replaced connection changes nothing. */
  lemma SessionsReplay(code: string, maxClients: int, created: int, es: seq<Event>, id: string, c: ConnId)
    requires AllEnabled(Start(code, maxClients, created), es)
    ensures var w := After(code, maxClients, created, es);
            (id in w.room.clients && w.room.clients[id] == c) <==> Owns(w.history.sessions, id, c)
  {
    AfterIsGood(code, maxClients, created, es);
  }

  /** A room never holds more users than it has places, each under the ID of its own connection's user. */
  lemma CapacityHolds(code: string, maxClients: int, created: int, es: seq<Event>)
    requires AllEnabled(Start(code, maxClients, created), es)
    ensures var s := After(code, maxClients, created, es).room;
            && (maxClients > 0 ==> |s.clients| <= maxClients)
            && forall id | id in s.clients :: s.clients[id] in s.conns && s.conns[s.clients[id]].user.id == id
  {
    AfterIsGood(code, maxClients, created, es);
    StartIsGood(code, maxClients, created);
    RoomKeepsCode(Start(code, maxClients, created), es, created);
  }

  /** The test at registration admits exactly when the earlier test would, made in the same state; the two part
      only for the empty ID, which the handlers refuse. */
  lemma AdmitsWhenNotFull(s: RoomState, c: ConnId, online: seq<User>)
    requires Safe(s) && Linked(s) && c in s.conns && !s.conns[c].offered && LoopReady(s)
    ensures var id := s.conns[c].user.id;
            (Register(s, c, online).Member(c) <==> !s.IsFull(id)) <==>
            !(id == "" && "" in s.clients && s.maxClients > 0 && |s.clients| >= s.maxClients)
  {
    AdmitsUnlessRejected(s, c, online);
  }

  lemma AdmitsUnlessRejected(s: RoomState, c: ConnId, online: seq<User>)
    requires Safe(s) && c in s.conns && !s.conns[c].offered
    ensures s.conns[c].user.id in s.clients ==> s.clients[s.conns[c].user.id] in s.conns
    ensures Register(s, c, online).Member(c) <==> !s.Rejects(s.conns[c].user.id)
  {
    assert ConnSafe(s, c) && KeySafe(s, s.conns[c].user.id);
  }

  // ----- inactivity -----

  lemma {:induction false} RunSplits(w: World, es: seq<Event>, k: nat)
    requires AllEnabled(w, es) && k <= |es|
    ensures AllEnabled(w, es[..k]) && AllEnabled(Run(w, es[..k]), es[k..])
    ensures Run(Run(w, es[..k]), es[k..]) == Run(w, es)
    decreases |es|
  {
    if k == 0 {
      assert es[..0] == [] && es[0..] == es;
    } else {
      RunSplits(Step(w, es[0]), es[1..], k - 1);
      assert es[..k][1..] == es[1..][..k - 1] && es[1..][k - 1..] == es[k..];
    }
  }

  /** The record of when the room last had a member never goes back. */
  lemma {:induction false} OccupiedLasts(w: World, es: seq<Event>, created: int, at: int)
    requires Good(w, created) && AllEnabled(w, es) && w.history.occupied.Some? && w.history.occupied.value >= at
    ensures Run(w, es).history.occupied.Some? && Run(w, es).history.occupied.value >= at
    decreases |es|
  {
    if es != [] {
      GoodStep(w, es[0], created);
      StepMoved(w, es[0]);
      OccupiedLasts(Step(w, es[0]), es[1..], created, at);
    }
  }

  /** While its loop runs, a room's inactivity timer is armed exactly when the room is empty. */
  lemma TimerArmedWhenEmpty(code: string, maxClients: int, created: int, es: seq<Event>)
    requires AllEnabled(Start(code, maxClients, created), es)
    ensures var s := After(code, maxClients, created, es).room;
            s.status == Running ==> (s.timer.Some? <==> s.clients == map[])
  {
    AfterIsGood(code, maxClients, created, es);
  }

  /** Every state of the run that lasted past `t`, and the last one, had no member. */
  ghost predicate EmptyAfter(w: World, es: seq<Event>, t: int)
    requires AllEnabled(w, es)
    decreases |es|
  {
    if es == [] then w.room.clients == map[]
    else (Step(w, es[0]).room.now > t ==> w.room.clients == map[]) && EmptyAfter(Step(w, es[0]), es[1..], t)
  }

  predicate NotPast(at: Option<int>, t: int) {
    at.Some? ==> at.value <= t
  }

  lemma {:induction false} EmptyAfterExactly(w: World, es: seq<Event>, created: int, t: int)
    requires Good(w, created) && AllEnabled(w, es) && NotPast(w.history.occupied, t)
    ensures EmptyAfter(w, es, t) <==> Run(w, es).room.clients == map[] && NotPast(Run(w, es).history.occupied, t)
    decreases |es|
  {
    if es != [] {
      var w' := Step(w, es[0]);
      GoodStep(w, es[0], created);
      if w.room.clients != map[] && w'.room.now > t {
        OccupiedLasts(w', es[1..], created, w'.room.now);
      } else {
        EmptyAfterExactly(w', es[1..], created, t);
      }
    }
  }

  /** After the run the timer can fire if and only if the room is at least five minutes old, and every state of the run
      that lasted into the last five minutes had no member. */
  ghost predicate FiresWhenEmpty(w0: World, es: seq<Event>, created: int)
    requires AllEnabled(w0, es)
  {
    var s := Run(w0, es).room;
    Enabled(s, TimerFiring) <==>
    s.now >= created + INACTIVITY_TIMEOUT && EmptyAfter(w0, es, s.now - INACTIVITY_TIMEOUT)
  }

  /** The timeout, exactly: with the loop at its select, the timer fires when the room has been empty for five minutes,
      and never otherwise. */
  lemma TimeoutMeansEmpty(code: string, maxClients: int, created: int, es: seq<Event>)
    requires AllEnabled(Start(code, maxClients, created), es)
    requires LoopReady(After(code, maxClients, created, es).room)
    ensures FiresWhenEmpty(Start(code, maxClients, created), es, created)
  {
    StartIsGood(code, maxClients, created);
    TimeoutFrom(Start(code, maxClients, created), es, created);
  }

  lemma TimeoutFrom(w0: World, es: seq<Event>, created: int)
    requires Good(w0, created) && AllEnabled(w0, es) && w0.history.occupied.None? && LoopReady(Run(w0, es).room)
    ensures FiresWhenEmpty(w0, es, created)
  {
    var t := Run(w0, es).room.now - INACTIVITY_TIMEOUT;
    EmptyAfterExactly(w0, es, created, t);
    HubAfter(w0, es, created);
    FiresFrom(w0, es, created, t);
  }

  lemma FiresFrom(w0: World, es: seq<Event>, created: int, t: int)
    requires AllEnabled(w0, es) && Hub(Run(w0, es), created) && LoopReady(Run(w0, es).room)
    requires t == Run(w0, es).room.now - INACTIVITY_TIMEOUT
    requires EmptyAfter(w0, es, t) <==> Run(w0, es).room.clients == map[] && NotPast(Run(w0, es).history.occupied, t)
    ensures FiresWhenEmpty(w0, es, created)
  {
    TimerFiresExactly(Run(w0, es), created);
  }

  lemma HubAfter(w0: World, es: seq<Event>, created: int)
    requires Good(w0, created) && AllEnabled(w0, es)
    ensures Hub(Run(w0, es), created)
  {
    GoodRun(w0, es, created);
  }

  lemma TimerFiresExactly(w: World, created: int)
    requires Hub(w, created) && LoopReady(w.room)
    ensures Enabled(w.room, TimerFiring) <==>
            && w.room.now >= created + INACTIVITY_TIMEOUT
            && w.room.clients == map[] && NotPast(w.history.occupied, w.room.now - INACTIVITY_TIMEOUT)
  {
  }

  /** A room told to stop stays so: from then on its loop can end whenever it stands at its select. */
  lemma {:induction false} StopReaches(w: World, es: seq<Event>)
    requires AllEnabled(w, es) && (w.room.stopClosed || exists i :: 0 <= i < |es| && es[i].Stopping?)
    ensures Run(w, es).room.stopClosed && (LoopReady(Run(w, es).room) ==> Enabled(Run(w, es).room, StopSeen))
    decreases |es|
  {
    if es != [] {
      if w.room.stopClosed || es[0].Stopping? {
        StopKept(w.room, es[0]);
      } else {
        var i :| 0 <= i < |es| && es[i].Stopping?;
        assert es[1..][i - 1].Stopping?;
      }
      StopReaches(Step(w, es[0]), es[1..]);
    }
  }

  lemma StopKept(s: RoomState, e: Event)
    requires Enabled(s, e)
    ensures s.stopClosed || e.Stopping? ==> Next(s, e).stopClosed
  {
  }
}
