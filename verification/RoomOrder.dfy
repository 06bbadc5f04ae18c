/** Consequences of exact delivery: acknowledgements come first, and all members agree on the order. */
module RoomOrder {
  import opened ChatTypes
  import opened RoomMachine
  import opened RoomSafety
  import opened RoomHistory
  import opened RoomDelivery

  // ----- from positions in a channel to positions in the dispatch order -----

  lemma {:induction false} BroadcastPosition(ms: seq<Message>, p: nat) returns (i: nat)
    requires p < |ms| && ms[p].payload.IsBroadcast()
    ensures i < |BroadcastOnly(ms)| && BroadcastOnly(ms)[i] == ms[p]
    ensures BroadcastOnly(ms)[..i] == BroadcastOnly(ms[..p])
  {
    var n := |ms| - 1;
    if p == n {
      i := |BroadcastOnly(ms[..n])|;
    } else {
      i := BroadcastPosition(ms[..n], p);
      assert ms[..n][..p] == ms[..p];
    }
  }

  lemma {:induction false} BroadcastOnlyPrefix(ms: seq<Message>, p: nat, q: nat)
    requires p <= q <= |ms|
    ensures BroadcastOnly(ms[..p]) <= BroadcastOnly(ms[..q])
  {
    if p < q {
      BroadcastOnlyPrefix(ms, p, q - 1);
      assert ms[..q][..q - 1] == ms[..q - 1];
    }
  }

  /** Where the i-th due message, delivered or dropped, stands in the dispatch order; later ones stand later. */
  lemma {:induction false} DuePosition(ds: seq<Dispatched>, c: ConnId, userId: string, full: bool, i: nat)
    returns (a: nat)
    requires i < |DueMessages(ds, c, userId, full)|
    ensures a < |ds| && ds[a].msg == DueMessages(ds, c, userId, full)[i] && (c in ds[a].full) == full
    ensures |DueMessages(ds[..a], c, userId, full)| == i
  {
    var n := |ds| - 1;
    var rest := DueMessages(ds[..n], c, userId, full);
    if i == |rest| {
      a := n;
    } else {
      a := DuePosition(ds[..n], c, userId, full, i);
      assert ds[..n][..a] == ds[..a];
    }
  }

  lemma {:induction false} DueMonotone(ds: seq<Dispatched>, c: ConnId, userId: string, a: nat, b: nat)
    requires a <= b <= |ds|
    ensures |DueMessages(ds[..a], c, userId, false)| <= |DueMessages(ds[..b], c, userId, false)|
  {
    if a < b {
      DueMonotone(ds, c, userId, a, b - 1);
      assert ds[..b][..b - 1] == ds[..b - 1];
    }
  }

  /** A broadcast message that entered a channel was dispatched. */
  lemma EnteredWasDispatched(w: World, c: ConnId, p: nat) returns (a: nat)
    requires c in w.room.conns && Delivered(w, c)
    requires p < |Entered(w, c)| && Entered(w, c)[p].payload.IsBroadcast()
    ensures a < |w.history.dispatched| && w.history.dispatched[a].msg == Entered(w, c)[p]
  {
    var i := BroadcastPosition(Entered(w, c), p);
    a := DuePosition(w.history.dispatched, c, w.room.conns[c].user.id, false, i);
  }

  /** Broadcast messages stand in a channel in the order in which they were dispatched. */
  lemma EnteredInOrder(w: World, c: ConnId, p: nat, q: nat) returns (a: nat, b: nat)
    requires c in w.room.conns && Delivered(w, c)
    requires p < q < |Entered(w, c)| && Entered(w, c)[p].payload.IsBroadcast() && Entered(w, c)[q].payload.IsBroadcast()
    ensures a < b < |w.history.dispatched|
    ensures w.history.dispatched[a].msg == Entered(w, c)[p] && w.history.dispatched[b].msg == Entered(w, c)[q]
  {
    var ms, ds, userId := Entered(w, c), w.history.dispatched, w.room.conns[c].user.id;
    var i := BroadcastPosition(ms, p);
    var j := BroadcastPosition(ms, q);
    BroadcastOnlyPrefix(ms, p + 1, q);
    BroadcastOnlyOneMore(ms[..p], ms[p..p + 1]);
    assert ms[..p] + ms[p..p + 1] == ms[..p + 1];
    assert i < j;
    a := DuePosition(ds, c, userId, false, i);
    b := DuePosition(ds, c, userId, false, j);
    if b <= a {
      DueMonotone(ds, c, userId, b, a);
    }
  }

  lemma SameDispatch(w: World, a: nat, b: nat)
    requires Fifo(w) && Ids(w)
    requires a < |w.history.dispatched| && b < |w.history.dispatched|
    requires w.history.dispatched[a].msg.id == w.history.dispatched[b].msg.id
    ensures a == b
  {
  }

  /** Two connections that both were given messages x and y were given them in the same order. */
  lemma SameOrder(w: World, c: ConnId, d: ConnId, p: nat, q: nat, p': nat, q': nat)
    requires Fifo(w) && Ids(w) && c in w.room.conns && d in w.room.conns && Delivered(w, c) && Delivered(w, d)
    requires p < q < |Entered(w, c)| && p' < |Entered(w, d)| && q' < |Entered(w, d)|
    requires Entered(w, c)[p] == Entered(w, d)[p'] && Entered(w, c)[q] == Entered(w, d)[q']
    requires Entered(w, c)[p].payload.IsBroadcast() && Entered(w, c)[q].payload.IsBroadcast()
    ensures p' < q'
  {
    var a, b := EnteredInOrder(w, c, p, q);
    if q' < p' {
      var b', a' := EnteredInOrder(w, d, q', p');
      SameDispatch(w, a, a');
      SameDispatch(w, b, b');
    } else if p' == q' {
      SameDispatch(w, a, b);
    }
  }

  // ----- acknowledgements -----

  predicate Confirms(m: Message, id: nat) {
    m.payload.Confirm? && m.payload.confirmed == id
  }

  /** The confirmation of a dispatched message stands before everything dispatched after that message. */
  ghost predicate AckOrder(ms: seq<Message>, ds: seq<Dispatched>) {
    forall p, q, j, k | 0 <= p < |ms| && 0 <= q < |ms| && 0 <= j < k < |ds| && ms[p] == ds[k].msg
        && Confirms(ms[q], ds[j].msg.id) ::
      q < p
  }

  ghost predicate AckFirst(w: World, c: ConnId)
    requires c in w.room.conns
  {
    AckOrder(Entered(w, c), w.history.dispatched)
  }

  /** A direct message that confirms nothing dispatched so far, and is not itself a dispatched one. */
  lemma DirectKeepsOrder(ms: seq<Message>, m: Message, ds: seq<Dispatched>)
    requires AckOrder(ms, ds)
    requires forall k | 0 <= k < |ds| :: ds[k].msg != m && !Confirms(m, ds[k].msg.id)
    ensures AckOrder(ms + [m], ds)
  {
  }

  lemma DispatchKeepsOrder(ms: seq<Message>, ds: seq<Dispatched>, d: Dispatched)
    requires AckOrder(ms, ds)
    requires forall p | 0 <= p < |ms| :: ms[p] != d.msg
    ensures AckOrder(ms, ds + [d])
  {
  }

  lemma DeliveryKeepsOrder(ms: seq<Message>, ds: seq<Dispatched>, d: Dispatched)
    requires AckOrder(ms, ds + [d])
    requires forall k | 0 <= k < |ds| :: ds[k].msg != d.msg
    requires !d.msg.payload.Confirm?
    ensures AckOrder(ms + [d.msg], ds + [d])
  {
  }

  lemma AddedDirect(s: RoomState, e: Event, c: ConnId)
    requires c in s.conns && !e.Dispatching? && Added(s, e, c) != []
    ensures !Added(s, e, c)[0].payload.IsBroadcast()
    ensures forall id :: Confirms(Added(s, e, c)[0], id) ==> id == s.nextId
  {
  }

  /** The head of the broadcast channel never entered any send channel before. */
  lemma HeadIsNew(w: World, c: ConnId, p: nat)
    requires c in w.room.conns && Delivered(w, c) && Fifo(w) && Ids(w) && Kinds(w)
    requires w.room.status != Done && w.room.broadcast != [] && p < |Entered(w, c)|
    ensures Entered(w, c)[p] != w.room.broadcast[0]
  {
    var n := |w.history.dispatched|;
    assert w.room.broadcast[0] == w.history.pushed[n];
    if Entered(w, c)[p] == w.room.broadcast[0] {
      var a := EnteredWasDispatched(w, c, p);
      assert false;
    }
  }

  lemma AckOrderGrows(ms: seq<Message>, added: seq<Message>, ds: seq<Dispatched>, d: Dispatched)
    requires AckOrder(ms, ds) && (added == [] || added == [d.msg]) && !d.msg.payload.Confirm?
    requires forall p | 0 <= p < |ms| :: ms[p] != d.msg
    requires forall k | 0 <= k < |ds| :: ds[k].msg != d.msg
    ensures AckOrder(ms + added, ds + [d])
  {
    DispatchKeepsOrder(ms, ds, d);
    if added != [] {
      DeliveryKeepsOrder(ms, ds, d);
    } else {
      assert ms + added == ms;
    }
  }

  lemma DispatchRecorded(w: World, e: Event, w': World) returns (d: Dispatched)
    requires Moved(w, e, w') && e.Dispatching? && Fifo(w) && Kinds(w)
    ensures w'.history.dispatched == w.history.dispatched + [d]
    ensures d.msg == w.room.broadcast[0] && !d.msg.payload.Confirm?
  {
    var n := |w.history.dispatched|;
    d := w'.history.dispatched[n];
    assert w.room.broadcast[0] == w.history.pushed[n];
  }

  /** Neither a channel nor the dispatch order has seen the head of the broadcast channel. */
  lemma HeadIsFresh(w: World, c: ConnId, k: nat)
    requires c in w.room.conns && Fifo(w) && Ids(w) && w.room.status != Done && w.room.broadcast != []
    requires k < |w.history.dispatched|
    ensures w.history.dispatched[k].msg != w.room.broadcast[0]
  {
    assert w.room.broadcast[0] == w.history.pushed[|w.history.dispatched|];
  }

  lemma AddedOnDispatching(s: RoomState, e: Event, c: ConnId)
    requires c in s.conns && e.Dispatching? && s.broadcast != []
    ensures Added(s, e, c) == [] || Added(s, e, c) == [s.broadcast[0]]
  {
    assert s.broadcast[..1] == [s.broadcast[0]];
  }

  lemma AckFirstOnDispatch(w: World, e: Event, w': World, c: ConnId)
    requires Moved(w, e, w') && e.Dispatching? && c in w.room.conns && c in w'.room.conns
    requires Fifo(w) && Ids(w) && Kinds(w) && Delivered(w, c) && AckFirst(w, c)
    ensures AckOrder(Entered(w, c) + Added(w.room, e, c), w'.history.dispatched)
  {
    var ms, ds := Entered(w, c), w.history.dispatched;
    var d := DispatchRecorded(w, e, w');
    AddedOnDispatching(w.room, e, c);
    forall p | 0 <= p < |ms| ensures ms[p] != d.msg {
      HeadIsNew(w, c, p);
    }
    forall k | 0 <= k < |ds| ensures ds[k].msg != d.msg {
      HeadIsFresh(w, c, k);
    }
    AckOrderGrows(ms, Added(w.room, e, c), ds, d);
  }

  lemma AckFirstOnDirect(w: World, e: Event, w': World, c: ConnId)
    requires Moved(w, e, w') && !e.Dispatching? && c in w.room.conns
    requires Fifo(w) && Ids(w) && Kinds(w) && AckFirst(w, c)
    ensures AckOrder(Entered(w, c) + Added(w.room, e, c), w'.history.dispatched)
  {
    var ms, ds, added := Entered(w, c), w.history.dispatched, Added(w.room, e, c);
    AddedKinds(w.room, e, c);
    if added != [] {
      AddedDirect(w.room, e, c);
      assert added == [added[0]];
      DirectKeepsOrder(ms, added[0], ds);
    } else {
      assert ms + added == ms;
    }
  }

  lemma AckFirstKept(w: World, e: Event, w': World, c: ConnId)
    requires Moved(w, e, w') && c in w.room.conns && c in w'.room.conns
    requires Fifo(w) && Ids(w) && Kinds(w) && Delivered(w, c) && AckFirst(w, c)
    ensures AckFirst(w', c)
  {
    if e.Dispatching? {
      AckFirstOnDispatch(w, e, w', c);
    } else {
      AckFirstOnDirect(w, e, w', c);
    }
    MovedEnters(w, e, w', c);
  }

  // ----- what the write pump has passed on -----

  /** `all` is a merge of `a` and `b`. */
  ghost predicate Merges(all: seq<Message>, a: seq<Message>, b: seq<Message>) {
    if all == [] then a == [] && b == []
    else
      var n := |all| - 1;
      || (a != [] && a[|a| - 1] == all[n] && Merges(all[..n], a[..|a| - 1], b))
      || (b != [] && b[|b| - 1] == all[n] && Merges(all[..n], a, b[..|b| - 1]))
  }

  ghost predicate GoneMerges(g: Gone) {
    Merges(g.all, g.written, g.discarded)
  }

  lemma MergesMore(all: seq<Message>, a: seq<Message>, b: seq<Message>, x: Message)
    requires Merges(all, a, b)
    ensures Merges(all + [x], a + [x], b) && Merges(all + [x], a, b + [x])
  {
    assert (all + [x])[..|all|] == all && (a + [x])[..|a|] == a && (b + [x])[..|b|] == b;
  }

  lemma GoneMergesKept(g: Gone, before: seq<Message>, after: seq<Message>, byWriter: bool)
    requires GoneMerges(g)
    ensures GoneMerges(GoneAfter(g, before, after, byWriter))
  {
    if |after| < |before| {
      assert before[..1] == [before[0]];
      MergesMore(g.all, g.written, g.discarded, before[0]);
    }
  }

  lemma {:induction false} NothingDiscarded(all: seq<Message>, a: seq<Message>)
    requires Merges(all, a, [])
    ensures a == all
  {
    if all != [] {
      NothingDiscarded(all[..|all| - 1], a[..|a| - 1]);
      assert a == a[..|a| - 1] + [a[|a| - 1]] && all == all[..|all| - 1] + [all[|all| - 1]];
    }
  }

  lemma {:induction false} MergePosition(all: seq<Message>, a: seq<Message>, b: seq<Message>, i: nat) returns (p: nat)
    requires Merges(all, a, b) && i < |a|
    ensures p < |all| && all[p] == a[i]
    decreases |all|
  {
    var n := |all| - 1;
    if a[|a| - 1] == all[n] && Merges(all[..n], a[..|a| - 1], b) {
      if i == |a| - 1 {
        p := n;
      } else {
        p := MergePosition(all[..n], a[..|a| - 1], b, i);
      }
    } else {
      p := MergePosition(all[..n], a, b[..|b| - 1], i);
    }
  }

  /** Messages in `a` stand in `all` in the same order. */
  lemma {:induction false} MergePositions(all: seq<Message>, a: seq<Message>, b: seq<Message>, i: nat, j: nat)
    returns (p: nat, q: nat)
    requires Merges(all, a, b) && i < j < |a|
    ensures p < q < |all| && all[p] == a[i] && all[q] == a[j]
    decreases |all|
  {
    var n := |all| - 1;
    if a[|a| - 1] == all[n] && Merges(all[..n], a[..|a| - 1], b) {
      if j == |a| - 1 {
        p := MergePosition(all[..n], a[..|a| - 1], b, i);
        q := n;
      } else {
        p, q := MergePositions(all[..n], a[..|a| - 1], b, i, j);
      }
    } else {
      p, q := MergePositions(all[..n], a, b[..|b| - 1], i, j);
    }
  }
}
