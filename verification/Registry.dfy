/** The manager's registry of rooms as a machine: creation, the end of a room's loop, the asynchronous cleanup
    messages, and shutdown, in any interleaving. */
module Registry {
  import opened ChatTypes

  type RoomId = nat

  const CLEANUP_CAPACITY := 10

  /** `Ending`: the loop has returned and has not yet tried to notify the manager. */
  datatype Phase = Running | Ending | Gone

  /** `stops` counts how often the room's stop channel was closed. */
  datatype Entry = Entry(code: string, phase: Phase, stops: nat)

  /** A cleanup message carries a room code only; `sender` is kept for the record and decides nothing. */
  datatype Mail = Mail(code: string, sender: RoomId)

  /** `skipped` records the rooms whose notification found no place in the channel. */
  datatype State = State(
    rooms: map<string, RoomId>,
    all: map<RoomId, Entry>,
    mail: seq<Mail>,
    mailOpen: bool,
    inFlight: Option<Mail>,
    down: bool,
    loopDone: bool,
    skipped: set<RoomId>)

  const INIT := State(map[], map[], [], true, None, false, false, {})

  datatype Event =
    | Create(code: string, id: RoomId)
    | LoopReturns(id: RoomId)
    | Notify(id: RoomId)
    | Receive
    | Delete
    | StopAll
    | CloseMail
    | LoopEnds

  predicate Enabled(s: State, e: Event) {
    match e
    case Create(code, id) => !s.down && id !in s.all
    case LoopReturns(id) => id in s.all && s.all[id].phase == Running
    case Notify(id) => id in s.all && s.all[id].phase == Ending
    case Receive => s.mail != [] && s.inFlight.None? && !s.loopDone
    case Delete => s.inFlight.Some?
    case StopAll => !s.down
    case CloseMail => s.down && s.mailOpen
    case LoopEnds => !s.mailOpen && s.mail == [] && s.inFlight.None? && !s.loopDone
  }

  predicate Accepts(s: State) {
    s.mailOpen && |s.mail| < CLEANUP_CAPACITY
  }

  /** The rooms when each one in the registry has been told to stop; a second telling closes nothing. */
  function StoppedAll(s: State): map<RoomId, Entry> {
    map id | id in s.all :: if id in s.rooms.Values && s.all[id].stops == 0 then s.all[id].(stops := 1) else s.all[id]
  }

  function Next(s: State, e: Event): State
    requires Enabled(s, e)
  {
    match e
    case Create(code, id) =>
      if code in s.rooms then s
      else s.(rooms := s.rooms[code := id], all := s.all[id := Entry(code, Running, 0)])
    case LoopReturns(id) => s.(all := s.all[id := s.all[id].(phase := Ending)])
    case Notify(id) =>
      s.(all := s.all[id := s.all[id].(phase := Gone)],
         mail := if Accepts(s) then s.mail + [Mail(s.all[id].code, id)] else s.mail,
         skipped := if Accepts(s) then s.skipped else s.skipped + {id})
    case Receive => s.(mail := s.mail[1..], inFlight := Some(s.mail[0]))
    case Delete => s.(rooms := s.rooms - {s.inFlight.value.code}, inFlight := None)
    case StopAll =>
      s.(down := true, rooms := map[], all := StoppedAll(s))
    case CloseMail => s.(mailOpen := false)
    case LoopEnds => s.(loopDone := true)
  }

  predicate AllEnabled(s: State, es: seq<Event>)
    decreases |es|
  {
    es == [] || (Enabled(s, es[0]) && AllEnabled(Next(s, es[0]), es[1..]))
  }

  function Run(s: State, es: seq<Event>): State
    requires AllEnabled(s, es)
    decreases |es|
  {
    if es == [] then s else Run(Next(s, es[0]), es[1..])
  }

  /** The messages on their way: the one the cleanup loop holds, then those queued. */
  function InTransit(s: State): seq<Mail> {
    (if s.inFlight.Some? then [s.inFlight.value] else []) + s.mail
  }

  // ----- the invariant -----

  /** A message on its way names a code that is still mapped to its very sender, whose loop is over. */
  predicate Current(s: State, m: Mail) {
    && m.code in s.rooms && s.rooms[m.code] == m.sender
    && m.sender in s.all && s.all[m.sender] == Entry(m.code, Gone, s.all[m.sender].stops)
  }

  ghost predicate Mapped(s: State) {
    && (forall code | code in s.rooms :: s.rooms[code] in s.all && s.all[s.rooms[code]].code == code)
    && (forall id | id in s.all && s.all[id].phase != Gone ::
        s.all[id].code in s.rooms && s.rooms[s.all[id].code] == id)
  }

  ghost predicate AllCurrent(s: State, ms: seq<Mail>) {
    && (forall i | 0 <= i < |ms| :: Current(s, ms[i]))
    && (forall i, j | 0 <= i < j < |ms| :: ms[i].code != ms[j].code)
  }

  ghost predicate NoneStale(s: State) {
    AllCurrent(s, InTransit(s))
  }

  ghost predicate Stopped(s: State) {
    && (forall id | id in s.all :: s.all[id].stops <= 1)
    && (!s.down ==> forall id | id in s.all :: s.all[id].stops == 0)
    && (s.down ==> s.rooms == map[] && forall id | id in s.all && s.all[id].phase == Running :: s.all[id].stops == 1)
    && (!s.mailOpen ==> s.down)
    && (s.loopDone ==> !s.mailOpen && s.mail == [] && s.inFlight.None?)
  }

  ghost predicate Inv(s: State) {
    Stopped(s) && (!s.down ==> Mapped(s) && NoneStale(s) && forall id :: Kept(s, id))
  }

  predicate Sent(s: State, id: RoomId) {
    exists m :: m in InTransit(s) && m.sender == id
  }

  predicate IsMapped(s: State, id: RoomId) {
    id in s.all && s.all[id].code in s.rooms && s.rooms[s.all[id].code] == id
  }

  /** A finished room is still mapped exactly as long as its message is on its way, or if it could send none. */
  predicate Kept(s: State, id: RoomId) {
    && (id in s.skipped ==> id in s.all && s.all[id].phase == Gone && !Sent(s, id))
    && (id in s.all && s.all[id].phase == Gone ==> (IsMapped(s, id) <==> Sent(s, id) || id in s.skipped))
  }

  lemma NotifyKeepsOne(s: State, id: RoomId, m: Mail)
    requires Mapped(s) && Enabled(s, Notify(id)) && Current(s, m)
    ensures Current(Next(s, Notify(id)), m) && m.code != s.all[id].code
  {
  }

  lemma OneMoreCurrent(s: State, ms: seq<Mail>, m: Mail)
    requires AllCurrent(s, ms) && Current(s, m) && forall i | 0 <= i < |ms| :: ms[i].code != m.code
    ensures AllCurrent(s, ms + [m])
  {
  }

  lemma NotifyKeeps(s: State, id: RoomId)
    requires Inv(s) && Enabled(s, Notify(id)) && !s.down
    ensures NoneStale(Next(s, Notify(id)))
  {
    var t, ms, m := Next(s, Notify(id)), InTransit(s), Mail(s.all[id].code, id);
    forall i | 0 <= i < |ms| ensures Current(t, ms[i]) && ms[i].code != m.code {
      NotifyKeepsOne(s, id, ms[i]);
    }
    NewMailCurrent(s, id);
    OneMoreCurrent(t, ms, m);
    assert InTransit(t) == if Accepts(s) then ms + [m] else ms;
  }

  lemma NewMailCurrent(s: State, id: RoomId)
    requires Mapped(s) && Enabled(s, Notify(id))
    ensures Current(Next(s, Notify(id)), Mail(s.all[id].code, id))
  {
  }

  lemma DeleteKeeps(s: State)
    requires Inv(s) && Enabled(s, Delete) && !s.down
    ensures Mapped(Next(s, Delete)) && NoneStale(Next(s, Delete))
  {
    var t, ms := Next(s, Delete), InTransit(s);
    assert Current(s, ms[0]);
    assert InTransit(t) == ms[1..];
    forall i | 0 <= i < |ms[1..]| ensures Current(t, ms[1..][i]) {
      assert Current(s, ms[i + 1]);
    }
  }

  lemma OtherKeepsMail(s: State, e: Event)
    requires Inv(s) && Enabled(s, e) && !s.down && !e.Notify? && !e.Delete? && !e.StopAll?
    ensures NoneStale(Next(s, e))
  {
    var t, ms := Next(s, e), InTransit(s);
    assert InTransit(t) == ms;
    forall i | 0 <= i < |ms| ensures Current(t, ms[i]) {
      assert Current(s, ms[i]);
    }
  }

  lemma SentIsGone(s: State, id: RoomId)
    requires Inv(s) && !s.down
    ensures Sent(s, id) ==> id in s.all && s.all[id].phase == Gone
  {
    if Sent(s, id) {
      var i :| 0 <= i < |InTransit(s)| && InTransit(s)[i].sender == id;
      assert Current(s, InTransit(s)[i]);
    }
  }

  lemma NotifySent(s: State, id: RoomId, k: RoomId)
    requires Inv(s) && Enabled(s, Notify(id)) && !s.down
    ensures Sent(Next(s, Notify(id)), k) <==> Sent(s, k) || (k == id && Accepts(s))
    ensures !Sent(s, id) && id !in s.skipped
  {
    var ms, m := InTransit(s), Mail(s.all[id].code, id);
    assert InTransit(Next(s, Notify(id))) == if Accepts(s) then ms + [m] else ms;
    assert Kept(s, id);
    if Accepts(s) {
      assert forall x :: x in ms + [m] <==> x in ms || x == m;
    }
    SentIsGone(s, id);
  }

  lemma NotifyKept(s: State, id: RoomId, k: RoomId)
    requires Inv(s) && Enabled(s, Notify(id)) && !s.down
    ensures Kept(Next(s, Notify(id)), k)
  {
    assert Kept(s, k);
    NotifySent(s, id, k);
  }

  lemma HeadAndTail(ms: seq<Mail>, x: Mail)
    requires ms != []
    ensures x in ms <==> x == ms[0] || x in ms[1..]
  {
    assert ms == [ms[0]] + ms[1..];
  }

  lemma OthersSenders(s: State, ms: seq<Mail>, x: Mail)
    requires AllCurrent(s, ms) && ms != [] && x in ms[1..]
    ensures x.sender != ms[0].sender
  {
    var i :| 0 <= i < |ms[1..]| && ms[1..][i] == x;
    assert ms[i + 1] == x && Current(s, ms[i + 1]) && Current(s, ms[0]);
  }

  /** The deleted message's sender has no other message on its way. */
  lemma DeleteSent(s: State, k: RoomId)
    requires NoneStale(s) && Enabled(s, Delete)
    ensures Sent(Next(s, Delete), k) <==> Sent(s, k) && k != s.inFlight.value.sender
    ensures Sent(s, s.inFlight.value.sender)
  {
    var ms, m := InTransit(s), s.inFlight.value;
    assert ms[0] == m && InTransit(Next(s, Delete)) == ms[1..];
    forall x ensures (x in ms <==> x == m || x in ms[1..]) && (x in ms[1..] ==> x.sender != m.sender) {
      HeadAndTail(ms, x);
      if x in ms[1..] {
        OthersSenders(s, ms, x);
      }
    }
  }

  /** Its room, and no other, is unmapped. */
  lemma DeleteUnmaps(s: State, k: RoomId)
    requires NoneStale(s) && Enabled(s, Delete)
    ensures IsMapped(Next(s, Delete), k) <==> IsMapped(s, k) && k != s.inFlight.value.sender
  {
    assert InTransit(s)[0] == s.inFlight.value;
    assert Current(s, s.inFlight.value);
  }

  lemma DeleteKept(s: State, k: RoomId)
    requires Inv(s) && Enabled(s, Delete) && !s.down
    ensures Kept(Next(s, Delete), k)
  {
    assert Kept(s, k);
    DeleteSent(s, k);
    DeleteUnmaps(s, k);
  }

  lemma OtherKept(s: State, e: Event, k: RoomId)
    requires Inv(s) && Enabled(s, e) && !s.down && !e.Notify? && !e.Delete? && !e.StopAll?
    ensures Kept(Next(s, e), k)
  {
    assert Kept(s, k);
    assert InTransit(Next(s, e)) == InTransit(s);
    assert Sent(Next(s, e), k) <==> Sent(s, k);
    SentIsGone(s, k);
  }

  lemma StepKept(s: State, e: Event, k: RoomId)
    requires Inv(s) && Enabled(s, e) && !s.down && !e.StopAll?
    ensures Kept(Next(s, e), k)
  {
    match e
    case Notify(id) => NotifyKept(s, id, k);
    case Delete => DeleteKept(s, k);
    case _ => OtherKept(s, e, k);
  }

  lemma StepKeeps(s: State, e: Event)
    requires Inv(s) && Enabled(s, e)
    ensures Inv(Next(s, e))
  {
    if !s.down && !e.StopAll? {
      forall k ensures Kept(Next(s, e), k) {
        StepKept(s, e, k);
      }
    }
    if !s.down {
      match e
      case Notify(id) => NotifyKeeps(s, id);
      case Delete => DeleteKeeps(s);
      case StopAll =>
      case _ => OtherKeepsMail(s, e);
    }
  }

  lemma {:induction false} RunKeeps(s: State, es: seq<Event>)
    requires Inv(s) && AllEnabled(s, es)
    ensures Inv(Run(s, es))
    decreases |es|
  {
    if es != [] {
      StepKeeps(s, es[0]);
      RunKeeps(Next(s, es[0]), es[1..]);
    }
  }

  // ----- what follows for every run -----

  /** No ABA: before shutdown, each cleanup message on its way names a code that is still mapped to the finished
      room that sent it, no two name the same code, and every room not yet finished is mapped under its code. */
  lemma CleanupIsNeverStale(es: seq<Event>)
    requires AllEnabled(INIT, es) && !Run(INIT, es).down
    ensures Mapped(Run(INIT, es)) && NoneStale(Run(INIT, es))
  {
    RunKeeps(INIT, es);
  }

  /** A finished room gives up its code: before shutdown it is still mapped exactly as long as its message is on its
      way, unless the channel took no message of it; then it stays mapped. */
  lemma FinishedRoomsAreFreed(es: seq<Event>, id: RoomId)
    requires AllEnabled(INIT, es) && !Run(INIT, es).down
    requires id in Run(INIT, es).all && Run(INIT, es).all[id].phase == Gone
    ensures var s := Run(INIT, es);
            && (IsMapped(s, id) <==> Sent(s, id) || id in s.skipped)
            && !(Sent(s, id) && id in s.skipped)
  {
    RunKeeps(INIT, es);
    assert Kept(Run(INIT, es), id);
  }

  /** A room is skipped only at a channel that is closed or holds its ten messages. */
  lemma SkippedWhenFull(s: State, e: Event, id: RoomId)
    requires Enabled(s, e)
    ensures id in Next(s, e).skipped <==>
            id in s.skipped || (e == Notify(id) && (!s.mailOpen || |s.mail| >= CLEANUP_CAPACITY))
  {
  }

  /** Deleting by code alone never removes a room whose loop still runs. */
  lemma DeleteSparesRunning(es: seq<Event>, code: string)
    requires AllEnabled(INIT, es) && Enabled(Run(INIT, es), Delete)
    ensures var s := Run(INIT, es);
            var t := Next(s, Delete);
            code in s.rooms && s.rooms[code] in s.all && s.all[s.rooms[code]].phase == Running ==>
              code in t.rooms && t.rooms[code] == s.rooms[code]
  {
    RunKeeps(INIT, es);
    var s := Run(INIT, es);
    if !s.down {
      assert Current(s, InTransit(s)[0]);
    }
  }

  /** Shutdown reaches everything: afterwards every room ever created has finished its loop or has had its stop
      channel closed, and no stop channel is ever closed twice. */
  lemma ShutdownReachesAll(es: seq<Event>, id: RoomId)
    requires AllEnabled(INIT, es) && id in Run(INIT, es).all
    ensures var s := Run(INIT, es);
            && s.all[id].stops <= 1
            && (s.down ==> s.all[id].phase != Running || s.all[id].stops == 1)
  {
    RunKeeps(INIT, es);
  }

  /** The steps of the cleanup loop alone, as long as there are messages. */
  function Drained(s: State): (t: State)
    ensures t.inFlight.None? && t.mail == [] && t.mailOpen == s.mailOpen && t.loopDone == s.loopDone
    decreases |s.mail|
  {
    var s1 := if s.inFlight.Some? then Next(s, Delete) else s;
    if s1.mail == [] then s1
    else Drained(s1.(mail := s1.mail[1..], inFlight := Some(s1.mail[0])))
  }

  function Codes(ms: seq<Mail>): set<string> {
    set m | m in ms :: m.code
  }

  lemma CodesInTransit(s: State)
    ensures Codes(InTransit(s)) == (if s.inFlight.Some? then {s.inFlight.value.code} else {}) + Codes(s.mail)
  {
    if s.inFlight.Some? {
      forall x ensures x in InTransit(s) <==> x == s.inFlight.value || x in s.mail {
      }
    } else {
      assert InTransit(s) == s.mail;
    }
  }

  /** Draining unmaps the codes of all messages on their way and no other. */
  lemma {:induction false} DrainedFrees(s: State)
    ensures Drained(s).rooms == s.rooms - Codes(InTransit(s))
    decreases |s.mail|
  {
    CodesInTransit(s);
    var s1 := if s.inFlight.Some? then Next(s, Delete) else s;
    if s1.mail != [] {
      var s2 := s1.(mail := s1.mail[1..], inFlight := Some(s1.mail[0]));
      assert InTransit(s2) == s.mail;
      DrainedFrees(s2);
    } else {
      assert Codes(s.mail) == {};
    }
  }

  lemma DrainedStep(s: State)
    requires s.inFlight.None? && s.mail != [] && !s.loopDone
    ensures Drained(Next(Next(s, Receive), Delete)) == Drained(s)
  {
  }

  lemma {:induction false} DrainedByLoop(s: State) returns (es: seq<Event>)
    requires !s.loopDone
    ensures AllEnabled(s, es) && Run(s, es) == Drained(s)
    ensures forall i | 0 <= i < |es| :: es[i] == Receive || es[i] == Delete
    ensures |es| == 2 * |s.mail| + (if s.inFlight.Some? then 1 else 0)
    decreases |s.mail|, s.inFlight.Some?
  {
    if s.inFlight.Some? {
      var rest := DrainedByLoop(Next(s, Delete));
      es := [Delete] + rest;
      assert es[1..] == rest;
    } else if s.mail == [] {
      es := [];
    } else {
      var rest := DrainedByLoop(Next(s, Receive));
      es := [Receive] + rest;
      assert es[1..] == rest;
    }
  }

  // ----- the end of the cleanup loop -----

  predicate IsLoopStep(e: Event) {
    e.Receive? || e.Delete? || e.LoopEnds?
  }

  function LoopSteps(es: seq<Event>): nat {
    if es == [] then 0 else (if IsLoopStep(es[0]) then 1 else 0) + LoopSteps(es[1..])
  }

  /** How many steps the cleanup loop still has before it. */
  function LoopWork(s: State): nat {
    2 * |s.mail| + (if s.inFlight.Some? then 1 else 0) + (if s.loopDone then 0 else 1)
  }

  /** Once the channel is closed, each step of the loop does one unit of its work, and nobody else's adds any. */
  lemma StepWorks(s: State, e: Event)
    requires Enabled(s, e) && !s.mailOpen
    ensures LoopWork(s) == LoopWork(Next(s, e)) + (if IsLoopStep(e) then 1 else 0) && !Next(s, e).mailOpen
  {
  }

  lemma {:induction false} RunWorks(s: State, es: seq<Event>)
    requires AllEnabled(s, es) && !s.mailOpen
    ensures LoopWork(s) == LoopWork(Run(s, es)) + LoopSteps(es) && !Run(s, es).mailOpen
    decreases |es|
  {
    if es != [] {
      StepWorks(s, es[0]);
      RunWorks(Next(s, es[0]), es[1..]);
    }
  }

  /** The step the loop can take next, whatever the others do, until it is over. */
  function LoopNext(s: State): Event {
    if s.inFlight.Some? then Delete else if s.mail != [] then Receive else LoopEnds
  }

  /** The cleanup loop consumes everything and ends: in every continuation of a run in which its channel is closed,
      the loop's own steps are as many as the work they do, the next of them is possible until the loop is over, and
      once it is over no message is left. */
  lemma LoopTerminates(es: seq<Event>, more: seq<Event>)
    requires AllEnabled(INIT, es) && !Run(INIT, es).mailOpen && AllEnabled(Run(INIT, es), more)
    ensures var s := Run(INIT, es);
            var t := Run(s, more);
            && LoopSteps(more) + LoopWork(t) == LoopWork(s)
            && (!t.loopDone ==> IsLoopStep(LoopNext(t)) && Enabled(t, LoopNext(t)))
            && (t.loopDone ==> t.mail == [] && t.inFlight.None? && LoopSteps(more) == LoopWork(s))
  {
    var s := Run(INIT, es);
    RunKeeps(INIT, es);
    RunWorks(s, more);
    RunKeeps(s, more);
  }
}
