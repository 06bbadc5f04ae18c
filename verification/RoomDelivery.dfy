/** Exact, ordered delivery of broadcast messages, and acknowledgements that come before them. */
module RoomDelivery {
  import opened ChatTypes
  import FileRules
  import opened RoomMachine
  import opened RoomSafety
  import opened RoomHistory

  /** The broadcast channel is first in, first out: what was dispatched is what was pushed, in that order,
      and while the loop is there the rest is still queued. */
  ghost predicate Fifo(w: World) {
    var h := w.history;
    && |h.dispatched| <= |h.pushed|
    && (forall k | 0 <= k < |h.dispatched| :: h.dispatched[k].msg == h.pushed[k])
    && (w.room.status != Done ==> w.room.broadcast == h.pushed[|h.dispatched|..])
  }

  ghost predicate UsedIds(ms: seq<Message>, bound: nat) {
    && (forall k | 0 <= k < |ms| :: ms[k].id < bound)
    && (forall j, k | 0 <= j < k < |ms| :: ms[j].id != ms[k].id)
  }

  predicate Waits(s: RoomState, c: ConnId) {
    c in s.conns && s.conns[c].pending.Some?
  }

  /** Message identifiers are unique among all messages pushed or waiting to be. */
  ghost predicate Ids(w: World) {
    var s, pushed := w.room, w.history.pushed;
    && UsedIds(pushed, s.nextId)
    && (forall c | Waits(s, c) :: s.conns[c].pending.value.id < s.nextId)
    && (forall c, k | Waits(s, c) && 0 <= k < |pushed| :: s.conns[c].pending.value.id != pushed[k].id)
    && (forall c, d | Waits(s, c) && Waits(s, d) && c != d ::
        s.conns[c].pending.value.id != s.conns[d].pending.value.id)
  }

  predicate IsChat(p: Payload) {
    p.Text? || p.Attachments?
  }

  /** A presence event in the system's name, or a chat message. */
  predicate IsBroadcastable(m: Message) {
    m.payload.IsBroadcast() && (m.payload.IsPresence() ==> m.sender == SYSTEM_USER)
  }

  /** Only presence events, texts and attachments are ever broadcast. */
  ghost predicate Kinds(w: World) {
    && (forall k | 0 <= k < |w.history.pushed| :: IsBroadcastable(w.history.pushed[k]))
    && (forall c | Waits(w.room, c) :: IsChat(w.room.conns[c].pending.value.payload))
  }

  ghost predicate Known(w: World) {
    && (forall c | c in w.history.gone :: c in w.room.conns)
    && (forall k, c | 0 <= k < |w.history.dispatched| && c in w.history.dispatched[k].members :: c in w.room.conns)
  }

  lemma PushedGrows(w: World, e: Event, w': World)
    requires Moved(w, e, w')
    ensures w'.history.pushed == w.history.pushed + Pushed(w.room, e)
  {
    var s, t := w.room, w'.room;
    if !Takes(e) {
      assert (s.broadcast + Pushed(s, e))[|s.broadcast|..] == Pushed(s, e);
    }
  }

  lemma FifoKept(w: World, e: Event, w': World)
    requires Moved(w, e, w') && Fifo(w)
    ensures Fifo(w')
  {
    PushedGrows(w, e, w');
    var h, h' := w.history, w'.history;
    if w.room.status != Done {
      var n := |h.dispatched|;
      assert (h.pushed + Pushed(w.room, e))[n..] == h.pushed[n..] + Pushed(w.room, e);
    }
  }

  lemma PushedKinds(s: RoomState, e: Event)
    requires forall c | Waits(s, c) :: IsChat(s.conns[c].pending.value.payload)
    ensures |Pushed(s, e)| <= 1 && (Pushed(s, e) != [] ==> IsBroadcastable(Pushed(s, e)[0]))
  {
    assert e.Pushing? && Pushed(s, e) != [] ==> Waits(s, e.c);
  }

  lemma KindsKept(w: World, e: Event, w': World)
    requires Moved(w, e, w') && Kinds(w)
    requires e.Accepting? ==> IsChat(e.payload)
    ensures Kinds(w')
  {
    PushedGrows(w, e, w');
    PushedKinds(w.room, e);
    forall c | Waits(w'.room, c) ensures IsChat(w'.room.conns[c].pending.value.payload) {
      WaitsBefore(w, e, w', c);
    }
  }

  lemma KnownKept(w: World, e: Event, w': World)
    requires Moved(w, e, w') && Known(w)
    ensures Known(w')
  {
    forall c | c in w.room.conns ensures c in w'.room.conns {
      assert ConnMoves(w.room, e, w'.room, c);
    }
  }

  /** A connection that waits after a step either waited before, or has just accepted a new message. */
  lemma WaitsBefore(w: World, e: Event, w': World, c: ConnId)
    requires Moved(w, e, w') && Waits(w'.room, c)
    ensures c in w.room.conns
    ensures !(e.Pushing? && e.c == c)
    ensures if e.Accepting? && e.c == c
            then w'.room.conns[c].pending == Some(w.room.NewMessage(w.room.conns[c].user, e.payload))
            else Waits(w.room, c) && w'.room.conns[c].pending == w.room.conns[c].pending
  {
    assert Born(w.room, e, w'.room, c);
    assert c in w.room.conns ==> ConnMoves(w.room, e, w'.room, c);
  }

  lemma UsedIdsMore(ms: seq<Message>, more: seq<Message>, bound: nat, bound': nat)
    requires UsedIds(ms, bound) && bound <= bound' && |more| <= 1
    requires more != [] ==> more[0].id < bound' && forall k | 0 <= k < |ms| :: ms[k].id != more[0].id
    ensures UsedIds(ms + more, bound')
  {
  }

  /** A message entering the broadcast channel is new to it. */
  lemma PushedIsNew(w: World, e: Event, w': World)
    requires Moved(w, e, w') && Ids(w)
    ensures |Pushed(w.room, e)| <= 1
    ensures Pushed(w.room, e) != [] ==>
              Pushed(w.room, e)[0].id < w'.room.nextId && forall k | 0 <= k < |w.history.pushed| ::
                  w.history.pushed[k].id != Pushed(w.room, e)[0].id
  {
    assert e.Pushing? && Pushed(w.room, e) != [] ==> Waits(w.room, e.c);
  }

  lemma PushedIdsKept(w: World, e: Event, w': World)
    requires Moved(w, e, w') && Ids(w)
    ensures UsedIds(w'.history.pushed, w'.room.nextId)
  {
    PushedGrows(w, e, w');
    PushedIsNew(w, e, w');
    UsedIdsMore(w.history.pushed, Pushed(w.room, e), w.room.nextId, w'.room.nextId);
  }

  lemma WaitsFresh(w: World, e: Event, w': World, c: ConnId)
    requires Moved(w, e, w') && Ids(w) && Waits(w'.room, c)
    ensures w'.room.conns[c].pending.value.id < w'.room.nextId
    ensures forall k | 0 <= k < |w'.history.pushed| :: w'.room.conns[c].pending.value.id != w'.history.pushed[k].id
  {
    WaitsBefore(w, e, w', c);
    PushedGrows(w, e, w');
    WaitsOffNew(w, e, w', c);
  }

  /** What the step pushes, if anything, is another message than the one `c` waits to push after it. */
  lemma WaitsOffNew(w: World, e: Event, w': World, c: ConnId)
    requires Moved(w, e, w') && Ids(w) && Waits(w'.room, c)
    ensures |Pushed(w.room, e)| <= 1
    ensures Pushed(w.room, e) != [] ==> w'.room.conns[c].pending.value.id != Pushed(w.room, e)[0].id
  {
    WaitsBefore(w, e, w', c);
    if e.Pushing? && Waits(w.room, e.c) && Waits(w.room, c) {
      assert e.c != c;
    }
  }

  lemma WaitsApart(w: World, e: Event, w': World, c: ConnId, d: ConnId)
    requires Moved(w, e, w') && Ids(w) && Waits(w'.room, c) && Waits(w'.room, d) && c != d
    ensures w'.room.conns[c].pending.value.id != w'.room.conns[d].pending.value.id
  {
    WaitsBefore(w, e, w', c);
    WaitsBefore(w, e, w', d);
  }

  lemma IdsKept(w: World, e: Event, w': World)
    requires Moved(w, e, w') && Ids(w)
    ensures Ids(w')
  {
    PushedIdsKept(w, e, w');
    forall c | Waits(w'.room, c)
      ensures w'.room.conns[c].pending.value.id < w'.room.nextId
      ensures forall k | 0 <= k < |w'.history.pushed| :: w'.room.conns[c].pending.value.id != w'.history.pushed[k].id
    {
      WaitsFresh(w, e, w', c);
    }
    forall c, d | Waits(w'.room, c) && Waits(w'.room, d) && c != d
      ensures w'.room.conns[c].pending.value.id != w'.room.conns[d].pending.value.id
    {
      WaitsApart(w, e, w', c, d);
    }
  }

  // ----- exact delivery -----

  /** The broadcast messages among `ms`, in order. */
  function BroadcastOnly(ms: seq<Message>): seq<Message> {
    if ms == [] then []
    else BroadcastOnly(ms[..|ms| - 1]) + (if ms[|ms| - 1].payload.IsBroadcast() then ms[|ms| - 1..] else [])
  }

  /** A dispatch is due to `c` when `c` was a member and the message was neither an error nor sent by its own user. */
  predicate DueTo(d: Dispatched, c: ConnId, userId: string) {
    c in d.members && !d.msg.payload.Error? && d.msg.sender.id != userId
  }

  /** The messages due to `c` that were dispatched while its channel was full (`full`), or was not. */
  function DueMessages(ds: seq<Dispatched>, c: ConnId, userId: string, full: bool): seq<Message> {
    if ds == [] then []
    else
      var d := ds[|ds| - 1];
      DueMessages(ds[..|ds| - 1], c, userId, full)
          + (if DueTo(d, c, userId) && (c in d.full) == full then [d.msg] else [])
  }

  /** What reached a connection's channel from the broadcast channel is what was due to it and found room. */
  ghost predicate Delivered(w: World, c: ConnId)
    requires c in w.room.conns
  {
    BroadcastOnly(Entered(w, c)) == DueMessages(w.history.dispatched, c, w.room.conns[c].user.id, false)
  }

  lemma BroadcastOnlyOneMore(ms: seq<Message>, added: seq<Message>)
    requires |added| <= 1
    ensures BroadcastOnly(ms + added) ==
            BroadcastOnly(ms) + (if added != [] && added[0].payload.IsBroadcast() then added else [])
  {
    if added != [] {
      assert (ms + added)[..|ms|] == ms;
      assert (ms + added)[|ms|..] == added;
    } else {
      assert ms + added == ms;
    }
  }

  lemma UnknownNeverDue(ds: seq<Dispatched>, c: ConnId, userId: string, full: bool)
    requires forall k | 0 <= k < |ds| :: c !in ds[k].members
    ensures DueMessages(ds, c, userId, full) == []
  {
  }

  /** Only a dispatch adds a broadcast message, and then it is the head of the broadcast channel. */
  lemma AddedKinds(s: RoomState, e: Event, c: ConnId)
    requires c in s.conns
    ensures |Added(s, e, c)| <= 1
    ensures Added(s, e, c) != [] && Added(s, e, c)[0].payload.IsBroadcast() ==>
              e.Dispatching? && s.broadcast != [] && Added(s, e, c) == s.broadcast[..1]
  {
  }

  lemma DueOneMore(ds: seq<Dispatched>, d: Dispatched, c: ConnId, userId: string, full: bool)
    ensures DueMessages(ds + [d], c, userId, full) ==
            DueMessages(ds, c, userId, full) + (if DueTo(d, c, userId) && (c in d.full) == full then [d.msg] else [])
  {
    assert (ds + [d])[..|ds|] == ds;
  }

  lemma DispatchedGrows(w: World, e: Event, w': World, c: ConnId, userId: string, full: bool)
    requires Moved(w, e, w') && c in w.room.conns && w.room.conns[c].user.id == userId
    ensures DueMessages(w'.history.dispatched, c, userId, full) ==
            DueMessages(w.history.dispatched, c, userId, full) +
            (if e.Dispatching? && Due(w.room, c, w.room.broadcast[0]) && w.room.Chan(c).IsFull() == full
                then w.room.broadcast[..1] else [])
  {
    if e.Dispatching? {
      var ds' := w'.history.dispatched;
      var d := ds'[|ds'| - 1];
      DueOneMore(w.history.dispatched, d, c, userId, full);
      RecordedDue(w.room, d, c);
      assert w.room.broadcast[..1] == [w.room.broadcast[0]];
    }
  }

  /** The record of a dispatch says of each connection what the dispatch does with it. */
  lemma RecordedDue(s: RoomState, d: Dispatched, c: ConnId)
    requires c in s.conns && s.broadcast != []
    requires d == Dispatched(s.broadcast[0], set c | c in s.conns && s.Member(c),
             set c | c in s.conns && |s.Chan(c).queue| >= SEND_CAPACITY)
    ensures DueTo(d, c, s.conns[c].user.id) <==> Due(s, c, s.broadcast[0])
    ensures c in d.full <==> |s.Chan(c).queue| >= SEND_CAPACITY
  {
  }

  lemma DeliveredKept(w: World, e: Event, w': World, c: ConnId)
    requires Moved(w, e, w') && c in w.room.conns && Delivered(w, c) && Fifo(w) && Kinds(w)
    ensures c in w'.room.conns && Delivered(w', c)
  {
    assert ConnMoves(w.room, e, w'.room, c);
    var added := Added(w.room, e, c);
    MovedEnters(w, e, w', c);
    AddedKinds(w.room, e, c);
    BroadcastOnlyOneMore(Entered(w, c), added);
    DispatchedGrows(w, e, w', c, w.room.conns[c].user.id, false);
    if e.Dispatching? {
      assert w.room.broadcast[0] == w.history.pushed[|w.history.dispatched|];
    }
  }

  lemma DeliveredAtBirth(w: World, e: Event, w': World, c: ConnId)
    requires Moved(w, e, w') && c !in w.room.conns && c in w'.room.conns && Known(w)
    ensures Delivered(w', c)
  {
    assert Born(w.room, e, w'.room, c);
    assert Entered(w', c) == [];
    UnknownNeverDue(w'.history.dispatched, c, w'.room.conns[c].user.id, false);
  }

  // ----- confinement of attachments -----

  /** Chat messages pushed to a room, or waiting to be, passed the checks of that very room. */
  ghost predicate AllConfined(w: World) {
    && (forall k | 0 <= k < |w.history.pushed| && IsChat(w.history.pushed[k].payload) ::
          w.history.pushed[k].roomCode == w.room.code && FileRules.Confined(w.room.code, w.history.pushed[k].payload))
    && (forall c | Waits(w.room, c) ::
          w.room.conns[c].pending.value.roomCode == w.room.code
              && FileRules.Confined(w.room.code, w.room.conns[c].pending.value.payload))
  }

  lemma AllConfinedKept(w: World, e: Event, w': World)
    requires Moved(w, e, w') && AllConfined(w)
    requires e.Accepting? ==> FileRules.Confined(w.room.code, e.payload)
    ensures AllConfined(w')
  {
    PushedGrows(w, e, w');
    forall c | Waits(w'.room, c)
      ensures w'.room.conns[c].pending.value.roomCode == w.room.code
      ensures FileRules.Confined(w.room.code, w'.room.conns[c].pending.value.payload)
    {
      WaitsBefore(w, e, w', c);
    }
  }
}
