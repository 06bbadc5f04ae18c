/** The manager as the object the server updates in place. Every method is proved to take the registry's state
    exactly where the corresponding steps of the registry's machine take it. */
module ChatManager {
  import opened ChatTypes
  import RoomMachine
  import opened ChatRoom
  import Registry

  /** Messages of the cleanup channel together with the rooms they came from. */
  ghost function Mails(queue: seq<string>, senders: seq<nat>): seq<Registry.Mail>
    requires |queue| == |senders|
  {
    seq(|queue|, i requires 0 <= i < |queue| => Registry.Mail(queue[i], senders[i]))
  }

  class Manager {
    var rooms: map<string, Room>
    const cleanup: CleanupChannel
    /** Every room ever created, by its serial number. */
    ghost var created: map<nat, Room>
    /** Those that found the cleanup channel full or closed when they ended. */
    ghost var skipped: set<nat>
    ghost var down: bool
    ghost var loopDone: bool

    ghost predicate Catalogued()
      reads `rooms, `created
    {
      && (forall id | id in created :: created[id].serial == id)
      && (forall code | code in rooms ::
          rooms[code].code == code && rooms[code].serial in created && created[rooms[code].serial] == rooms[code])
    }

    ghost predicate Valid()
      reads `rooms, `created, cleanup, created.Values`stopClosed, created.Values`stopCloses
    {
      && Catalogued()
      && (forall id | id in created :: created[id].stopCloses == if created[id].stopClosed then 1 else 0)
      && |cleanup.senders| == |cleanup.queue|
    }

    ghost function Ids(): map<string, nat>
      reads `rooms
    {
      map code | code in rooms :: rooms[code].serial
    }

    ghost function Entries(): map<nat, Registry.Entry>
      reads `created, created.Values`status, created.Values`stopCloses
    {
      map id | id in created ::
        Registry.Entry(created[id].code, if created[id].status == RoomMachine.Done then Registry.Gone
            else Registry.Running, created[id].stopCloses)
    }

    ghost function State(): Registry.State
      requires |cleanup.senders| == |cleanup.queue|
      reads this, cleanup, created.Values`status, created.Values`stopCloses
    {
      Registry.State(Ids(), Entries(), Mails(cleanup.queue, cleanup.senders), cleanup.open, None, down, loopDone,
          skipped)
    }

    constructor ()
      ensures Valid() && fresh(cleanup) && State() == Registry.INIT
    {
      rooms, created, skipped, down, loopDone := map[], map[], {}, false, false;
      cleanup := new CleanupChannel();
    }

    /** Refuses a code in use; otherwise the new room, empty and running, is the only change. */
    method CreateRoom(code: string, maxClients: int, now: int, ghost serial: nat) returns (room: Room?)
      requires Valid() && !down && serial !in created
      modifies `rooms, `created
      ensures Valid() && State() == Registry.Next(old(State()), Registry.Create(code, serial))
      ensures code in old(rooms) ==> room == null && rooms == old(rooms)
      ensures code !in old(rooms) ==>
                room != null && fresh(room) && rooms == old(rooms)[code := room]
                && room.Valid() && room.State() == RoomMachine.NewRoom(code, maxClients, now)
    {
      if code in rooms {
        return null;
      }
      room := new Room(code, maxClients, now, serial);
      Record(room);
    }

    method Record(room: Room)
      requires Valid() && room.code !in rooms && room.serial !in created
      requires room.status == RoomMachine.Running && !room.stopClosed && room.stopCloses == 0
      modifies `rooms, `created
      ensures Valid() && rooms == old(rooms)[room.code := room] && Ids() == old(Ids())[room.code := room.serial]
      ensures Entries() == old(Entries())[room.serial := Registry.Entry(room.code, Registry.Running, 0)]
    {
      Catalogue(room);
      Publish(room);
    }

    ghost method Catalogue(room: Room)
      requires Valid() && room.serial !in created
      requires room.status == RoomMachine.Running && !room.stopClosed && room.stopCloses == 0
      modifies `created
      ensures Valid() && created == old(created)[room.serial := room]
      ensures Entries() == old(Entries())[room.serial := Registry.Entry(room.code, Registry.Running, 0)]
    {
      created := created[room.serial := room];
    }

    method Publish(room: Room)
      requires Valid() && room.serial in created && created[room.serial] == room
      modifies `rooms
      ensures Valid() && rooms == old(rooms)[room.code := room] && Ids() == old(Ids())[room.code := room.serial]
    {
      rooms := rooms[room.code := room];
    }

    method GetRoom(code: string) returns (room: Room?)
      requires Valid()
      ensures if code in rooms then room == rooms[code] && rooms[code].code == code else room == null
    {
      room := if code in rooms then rooms[code] else null;
    }

    /** A room's loop returns: the room lets its members go and tries to notify the manager. */
    method RoomReturns(room: Room)
      requires Valid() && room in created.Values && room.Valid() && RoomMachine.LoopReady(room.State())
      modifies room`timer, room`status, room`broadcast, room`broadcastOpen, room.conns.Values, cleanup, `skipped
      ensures Valid() && room.State() == RoomMachine.Exit(old(room.State()))
      ensures State() == Returned(old(State()), room.serial)
    {
      ghost var s := State();
      LoopEnded(room);
      Skip(room.serial, !s.mailOpen || |s.mail| >= Registry.CLEANUP_CAPACITY);
      ReturnedInOne(s, room.serial);
    }

    method LoopEnded(room: Room)
      requires Valid() && room in created.Values && room.Valid() && RoomMachine.LoopReady(room.State())
      modifies room`timer, room`status, room`broadcast, room`broadcastOpen, room.conns.Values, cleanup
      ensures Valid() && room.State() == RoomMachine.Exit(old(room.State())) && cleanup.open == old(cleanup.open)
      ensures room.serial in old(Entries()) && old(Entries())[room.serial].phase == Registry.Running
      ensures State() == Ended(old(State()), room.serial)
    {
      LoopStops(room);
    }

    method LoopStops(room: Room)
      requires Valid() && room in created.Values && room.Valid() && RoomMachine.LoopReady(room.State())
      modifies room`timer, room`status, room`broadcast, room`broadcastOpen, room.conns.Values, cleanup
      ensures Valid() && room.State() == RoomMachine.Exit(old(room.State())) && cleanup.open == old(cleanup.open)
      ensures room.serial in old(Entries()) && old(Entries())[room.serial].code == room.code
      ensures old(Entries())[room.serial].phase == Registry.Running
      ensures Entries() == old(Entries())[room.serial := old(Entries())[room.serial].(phase := Registry.Gone)]
      ensures Mails(cleanup.queue, cleanup.senders) ==
              if old(cleanup.open) && |old(cleanup.queue)| < Registry.CLEANUP_CAPACITY
              then old(Mails(cleanup.queue, cleanup.senders)) + [Registry.Mail(room.code, room.serial)]
              else old(Mails(cleanup.queue, cleanup.senders))
    {
      ghost var queue, senders := cleanup.queue, cleanup.senders;
      room.CleanupOnExit(cleanup);
      assert room.status == RoomMachine.Done;
      OneFinished(room);
      MailsMore(queue, senders, room.code, room.serial);
    }

    ghost method Skip(serial: nat, full: bool)
      requires Valid()
      modifies `skipped
      ensures Valid()
      ensures State() == old(State()).(skipped := if full then old(skipped) + {serial} else old(skipped))
    {
      if full {
        skipped := skipped + {serial};
      }
    }

    twostate lemma OneFinished(room: Room)
      requires old(Valid()) && created == old(created) && room in created.Values
      requires old(room.status) != RoomMachine.Done && room.status == RoomMachine.Done
      requires forall r | r in created.Values ::
               r.stopCloses == old(r.stopCloses) && (r != room ==> r.status == old(r.status))
      ensures room.serial in created
      ensures Entries() == old(Entries())[room.serial := old(Entries())[room.serial].(phase := Registry.Gone)]
    {
    }

    method DeleteRoom(code: string)
      requires Valid()
      modifies `rooms
      ensures Valid() && rooms == old(rooms) - {code} && Ids() == old(Ids()) - {code}
    {
      if code in rooms {
        rooms := rooms - {code};
      }
    }

    /** One message: it is received, and the room it names is deleted. */
    method DeleteNext()
      requires Valid() && cleanup.queue != [] && !loopDone
      modifies `rooms, cleanup
      ensures Valid() && cleanup.open == old(cleanup.open) && cleanup.queue == old(cleanup.queue)[1..]
      ensures rooms == old(rooms) - {old(cleanup.queue)[0]}
      ensures State() == Registry.Next(Registry.Next(old(State()), Registry.Receive), Registry.Delete)
    {
      var code := cleanup.queue[0];
      cleanup.queue := cleanup.queue[1..];
      cleanup.senders := cleanup.senders[1..];
      DeleteRoom(code);
      assert Mails(cleanup.queue, cleanup.senders) == old(State()).mail[1..];
    }

    /** The cleanup loop, until it would wait: it deletes the rooms of all messages there are. If its channel is
        closed it then ends, and otherwise it goes on waiting for the next message. */
    method RunCleanupLoop()
      requires Valid() && !loopDone
      modifies `rooms, `loopDone, cleanup
      ensures Valid() && loopDone == !old(cleanup.open) && cleanup.open == old(cleanup.open) && cleanup.queue == []
      ensures State() == if old(cleanup.open) then Registry.Drained(old(State()))
                         else Registry.Next(Registry.Drained(old(State())), Registry.LoopEnds)
      ensures forall code :: code in rooms <==> code in old(rooms) && code !in old(cleanup.queue)
      ensures forall code | code in rooms :: rooms[code] == old(rooms)[code]
    {
      DeleteAll();
      Freed();
      if !cleanup.open {
        loopDone := true;
      }
    }

    method DeleteAll()
      requires Valid() && !loopDone
      modifies `rooms, cleanup
      ensures Valid() && cleanup.open == old(cleanup.open) && cleanup.queue == []
      ensures State() == Registry.Drained(old(State()))
      ensures forall code | code in rooms :: code in old(rooms) && rooms[code] == old(rooms)[code]
    {
      while cleanup.queue != []
        invariant Valid() && !loopDone && cleanup.open == old(cleanup.open)
        invariant Registry.Drained(State()) == Registry.Drained(old(State()))
        invariant forall code | code in rooms :: code in old(rooms) && rooms[code] == old(rooms)[code]
        decreases |cleanup.queue|
      {
        Registry.DrainedStep(State());
        DeleteNext();
      }
      assert Registry.Drained(State()) == State();
    }

    /** When the registry has been drained, the codes of the messages are free and no other. */
    twostate lemma Freed()
      requires old(Valid()) && |cleanup.senders| == |cleanup.queue| && State() == Registry.Drained(old(State()))
      ensures forall code :: code in rooms <==> code in old(rooms) && code !in old(cleanup.queue)
    {
      Registry.DrainedFrees(old(State()));
      assert Registry.InTransit(old(State())) == old(State()).mail;
      MailCodes(old(cleanup.queue), old(cleanup.senders));
      assert Ids().Keys == rooms.Keys && old(Ids()).Keys == old(rooms).Keys;
    }

    /** Every room in the registry is told to stop, whatever the order; the registry is emptied, and the cleanup
        loop is waited for. */
    method Shutdown()
      requires Valid() && cleanup.open && !down && !loopDone
      modifies `rooms, `down, `loopDone, rooms.Values`stopClosed, rooms.Values`stopCloses, cleanup
      ensures Valid() && State() == ShutDown(old(State())) && rooms == map[] && cleanup.queue == [] && !cleanup.open
      ensures forall room | room in old(rooms).Values :: room.stopClosed
    {
      CloseDown();
      FinishCleanup();
    }

    /** The rest of shutdown: the registry is empty, and its channel closed. */
    method FinishCleanup()
      requires Valid() && !cleanup.open && !loopDone && rooms == map[]
      modifies `rooms, `loopDone, cleanup
      ensures Valid() && rooms == map[] && cleanup.queue == [] && !cleanup.open
      ensures State() == Registry.Next(Registry.Drained(old(State())), Registry.LoopEnds)
    {
      RunCleanupLoop();
      assert rooms.Keys == {};
    }

    method CloseDown()
      requires Valid() && cleanup.open && !down
      modifies `rooms, `down, rooms.Values`stopClosed, rooms.Values`stopCloses, cleanup`open
      ensures Valid() && !cleanup.open && rooms == map[] && (forall room | room in old(rooms).Values :: room.stopClosed)
      ensures State() == Registry.Next(Registry.Next(old(State()), Registry.StopAll), Registry.CloseMail)
    {
      ghost var s := State();
      StopAndEmpty();
      CloseChannel();
      ClosedDown(s);
    }

    method CloseChannel()
      requires Valid()
      modifies cleanup`open
      ensures Valid() && !cleanup.open && State() == old(State()).(mailOpen := false)
    {
      cleanup.open := false;
    }

    method StopAndEmpty()
      requires Valid()
      modifies `rooms, `down, rooms.Values`stopClosed, rooms.Values`stopCloses
      ensures Valid() && rooms == map[]
      ensures State() == old(State()).(down := true, rooms := map[], all := Registry.StoppedAll(old(State())))
      ensures forall room | room in old(rooms).Values :: room.stopClosed
    {
      StopRooms();
      Empty();
    }

    method Empty()
      requires Valid()
      modifies `rooms, `down
      ensures Valid() && rooms == map[] && Ids() == map[] && down
    {
      rooms, down := map[], true;
    }

    /** Stopped, with the stop channel closed exactly once. */
    ghost predicate StoppedOnce(room: Room)
      reads room`stopClosed, room`stopCloses
    {
      room.stopClosed && room.stopCloses == 1
    }

    method StopRooms()
      requires Valid()
      modifies rooms.Values`stopClosed, rooms.Values`stopCloses
      ensures Valid() && (forall room | room in rooms.Values :: StoppedOnce(room))
      ensures Entries() == Registry.StoppedAll(old(State()))
    {
      StopEach();
      AllStopped();
    }

    twostate lemma AllStopped()
      requires old(Valid()) && rooms == old(rooms) && created == old(created)
      requires forall room | room in rooms.Values :: room.stopCloses == 1
      requires forall room | room in created.Values && room !in rooms.Values :: room.stopCloses == old(room.stopCloses)
      requires forall room | room in created.Values :: room.status == old(room.status)
      ensures Entries() == Registry.StoppedAll(old(State()))
    {
      forall id | id in created ensures Entries()[id] == Registry.StoppedAll(old(State()))[id] {
        OneStopped(created[id]);
      }
    }

    twostate lemma OneStopped(room: Room)
      requires old(Valid()) && rooms == old(rooms) && created == old(created) && room in created.Values
      requires room in rooms.Values ==> room.stopCloses == 1
      requires room !in rooms.Values ==> room.stopCloses == old(room.stopCloses)
      requires room.status == old(room.status)
      ensures Entries()[room.serial] == Registry.StoppedAll(old(State()))[room.serial]
    {
      InRegistry(room);
    }

    lemma InRegistry(room: Room)
      requires Catalogued() && room in created.Values
      ensures room in rooms.Values <==> room.serial in Ids().Values
    {
      if room.serial in Ids().Values {
        var code :| code in rooms && Ids()[code] == room.serial;
        assert rooms[code] == room;
      }
      if room in rooms.Values {
        var code :| code in rooms && rooms[code] == room;
        assert Ids()[code] == room.serial;
      }
    }

    method StopEach()
      requires Valid()
      modifies rooms.Values`stopClosed, rooms.Values`stopCloses
      ensures Valid() && (forall room | room in rooms.Values :: StoppedOnce(room))
    {
      var todo := rooms.Keys;
      while todo != {}
        invariant todo <= rooms.Keys && Valid()
        invariant forall code | code in rooms && code !in todo :: StoppedOnce(rooms[code])
        decreases todo
      {
        var code :| code in todo;
        StopOne(rooms[code]);
        todo := todo - {code};
      }
    }

    method StopOne(room: Room)
      requires Valid() && room in rooms.Values
      modifies room`stopClosed, room`stopCloses
      ensures Valid() && StoppedOnce(room)
    {
      room.Stop();
    }
  }

  lemma MailsMore(queue: seq<string>, senders: seq<nat>, code: string, serial: nat)
    requires |queue| == |senders|
    ensures Mails(queue + [code], senders + [serial]) == Mails(queue, senders) + [Registry.Mail(code, serial)]
  {
  }

  lemma MailCodes(queue: seq<string>, senders: seq<nat>)
    requires |queue| == |senders|
    ensures Registry.Codes(Mails(queue, senders)) == set code | code in queue
  {
    var mails := Mails(queue, senders);
    forall code | code in queue ensures exists m :: m in mails && m.code == code {
      var i :| 0 <= i < |queue| && queue[i] == code;
      assert mails[i] in mails;
    }
  }

  lemma ClosedDown(s: Registry.State)
    requires !s.down && s.mailOpen
    ensures Registry.Next(Registry.Next(s, Registry.StopAll), Registry.CloseMail) ==
            s.(down := true, rooms := map[], all := Registry.StoppedAll(s), mailOpen := false)
  {
  }

  /** A room's loop has returned and the manager been told, if it could be. */
  ghost function Ended(s: Registry.State, id: nat): Registry.State
    requires id in s.all
  {
    s.(all := s.all[id := s.all[id].(phase := Registry.Gone)],
       mail := if Registry.Accepts(s) then s.mail + [Registry.Mail(s.all[id].code, id)] else s.mail)
  }

  lemma ReturnedInOne(s: Registry.State, id: nat)
    requires id in s.all && s.all[id].phase == Registry.Running
    ensures Returned(s, id) == Ended(s, id).(skipped := if Registry.Accepts(s) then s.skipped else s.skipped + {id})
  {
  }

  /** The two steps of a room whose loop returns, with nothing in between. */
  ghost function Returned(s: Registry.State, id: nat): Registry.State
    requires id in s.all && s.all[id].phase == Registry.Running
  {
    Registry.Next(Registry.Next(s, Registry.LoopReturns(id)), Registry.Notify(id))
  }

  /** All of shutdown's steps, with nothing in between. */
  ghost function ShutDown(s: Registry.State): Registry.State
    requires !s.down && s.mailOpen && !s.loopDone
  {
    Registry.Next(Registry.Drained(Registry.Next(Registry.Next(s, Registry.StopAll), Registry.CloseMail)),
        Registry.LoopEnds)
  }
}
