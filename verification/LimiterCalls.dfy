/** The rate limiter with its calls taken apart: a request first finds its bucket and later asks it, and the cleanup
    may delete the bucket in between. A deleted bucket lives on for the calls that still hold it. */
module LimiterCalls {
  import L = IpLimiter

  type CallId = nat

  datatype Call = Call(ip: string, bucket: nat)

  /** `limits` maps an address to the number of its bucket; `buckets` holds every bucket ever made. */
  datatype Store = Store(limits: map<string, nat>, buckets: seq<L.Bucket>, calls: map<CallId, Call>)

  ghost predicate Formed(s: Store) {
    && (forall ip | ip in s.limits :: s.limits[ip] < |s.buckets|)
    && (forall call | call in s.calls :: s.calls[call].bucket < |s.buckets|)
  }

  type State = s: Store | Formed(s) witness Store(map[], [], map[])

  datatype Event = Find(call: CallId, ip: string, at: real) | Ask(call: CallId, at: real) | Sweep(ip: string, at: real)

  function Found(cfg: L.Config, s: State, call: CallId, ip: string, t: real): State {
    if ip in s.limits then s.(calls := s.calls[call := Call(ip, s.limits[ip])])
    else
      var n := |s.buckets|;
      Store(s.limits[ip := n], s.buckets + [L.Bucket(cfg.burst as real, t)], s.calls[call := Call(ip, n)])
  }

  predicate Grants(cfg: L.Config, b: L.Bucket, t: real) {
    L.TokensAt(cfg, b, t) >= 1.0 && cfg.burst >= 1
  }

  function Spent(cfg: L.Config, b: L.Bucket, t: real): L.Bucket {
    if Grants(cfg, b, t) then L.Bucket(L.TokensAt(cfg, b, t) - 1.0, t) else b
  }

  function Asked(cfg: L.Config, s: State, call: CallId, t: real): State
    requires call in s.calls
  {
    var n := s.calls[call].bucket;
    s.(buckets := s.buckets[n := Spent(cfg, s.buckets[n], t)], calls := s.calls - {call})
  }

  /** Whether a cleanup pass that looks at the address deletes its bucket. */
  predicate Deletes(cfg: L.Config, s: State, ip: string, t: real) {
    ip in s.limits && L.TokensAt(cfg, s.buckets[s.limits[ip]], t) >= cfg.burst as real
  }

  function Swept(cfg: L.Config, s: State, ip: string, t: real): State {
    if Deletes(cfg, s, ip, t) then s.(limits := s.limits - {ip}) else s
  }

  /** `log` is what was allowed; `asked` lists the requests in the order in which they asked their buckets. */
  datatype World = World(state: State, log: seq<L.Pass>, asked: seq<L.Event>)

  const START := World(Store(map[], [], map[]), [], [])

  /** A call is identified by a number that no other call in flight has. */
  predicate Enabled(s: State, e: Event) {
    match e
    case Find(call, ip, t) => call !in s.calls
    case Ask(call, t) => call in s.calls
    case Sweep(ip, t) => true
  }

  function Step(cfg: L.Config, w: World, e: Event): World {
    var s := w.state;
    if !Enabled(s, e) then w
    else
      match e
      case Find(call, ip, t) => w.(state := Found(cfg, s, call, ip, t))
      case Ask(call, t) =>
        var ip := s.calls[call].ip;
        World(Asked(cfg, s, call, t),
              if Grants(cfg, s.buckets[s.calls[call].bucket], t) then w.log + [L.Pass(ip, t)] else w.log,
              w.asked + [L.Request(ip, t)])
      case Sweep(ip, t) => w.(state := Swept(cfg, s, ip, t))
  }

  function Run(cfg: L.Config, w: World, es: seq<Event>): World
    decreases |es|
  {
    if es == [] then w else Run(cfg, Step(cfg, w, es[0]), es[1..])
  }

  predicate AllEnabled(cfg: L.Config, w: World, es: seq<Event>)
    decreases |es|
  {
    es != [] ==> Enabled(w.state, es[0]) && AllEnabled(cfg, Step(cfg, w, es[0]), es[1..])
  }

  predicate Ordered(es: seq<Event>) {
    forall i, j | 0 <= i < j < |es| :: es[i].at <= es[j].at
  }

  predicate Holds(s: State, call: CallId, ip: string) {
    ip in s.limits && call in s.calls && s.calls[call] == Call(ip, s.limits[ip])
  }

  /** A sweep overtakes a call when it deletes the bucket that the call has found and not yet asked. */
  ghost predicate Overtakes(cfg: L.Config, s: State, e: Event) {
    e.Sweep? && Deletes(cfg, s, e.ip, e.at) && exists call :: Holds(s, call, e.ip)
  }

  ghost predicate NeverOvertaken(cfg: L.Config, w: World, es: seq<Event>)
    decreases |es|
  {
    es != [] ==> !Overtakes(cfg, w.state, es[0]) && NeverOvertaken(cfg, Step(cfg, w, es[0]), es[1..])
  }

  lemma {:induction false} RunJoins(cfg: L.Config, w: World, es: seq<Event>, more: seq<Event>)
    ensures Run(cfg, w, es + more) == Run(cfg, Run(cfg, w, es), more)
    ensures AllEnabled(cfg, w, es + more) <==> AllEnabled(cfg, w, es) && AllEnabled(cfg, Run(cfg, w, es), more)
    ensures NeverOvertaken(cfg, w, es + more) <==>
            NeverOvertaken(cfg, w, es) && NeverOvertaken(cfg, Run(cfg, w, es), more)
    decreases |es|
  {
    if es == [] {
      assert es + more == more;
    } else {
      assert (es + more)[0] == es[0] && (es + more)[1..] == es[1..] + more;
      RunJoins(cfg, Step(cfg, w, es[0]), es[1..], more);
    }
  }

  // ----- a run that no sweep overtakes is one of requests in one step -----

  /** The limiter as the one-step machine sees it. */
  function Mapped(s: State): L.Limits {
    map ip | ip in s.limits :: s.buckets[s.limits[ip]]
  }

  /** Calls hold buckets that are still mapped, and different addresses have different ones. */
  ghost predicate Held(s: State) {
    && (forall call | call in s.calls :: Holds(s, call, s.calls[call].ip))
    && (forall ip, jp | ip in s.limits && jp in s.limits && ip != jp :: s.limits[ip] != s.limits[jp])
  }

  ghost predicate Settled(cfg: L.Config, m: L.Limits, now: real) {
    forall ip | ip in m :: m[ip].last <= now && m[ip].tokens <= cfg.burst as real
  }

  /** The addresses have the same levels here and there. */
  ghost predicate SameLevels(cfg: L.Config, m: L.Limits, m': L.Limits, now: real) {
    forall ip :: L.Level(cfg, m, ip, now) == L.Level(cfg, m', ip, now)
  }

  ghost predicate Alike(cfg: L.Config, w: World, now: real) {
    var one := L.Run(cfg, L.START, w.asked);
    && L.Ordered(w.asked) && L.Ends(w.asked, now)
    && w.log == one.log && Held(w.state)
    && Settled(cfg, Mapped(w.state), now) && Settled(cfg, one.limits, now)
    && SameLevels(cfg, Mapped(w.state), one.limits, now)
  }

  lemma LevelsWait(cfg: L.Config, m: L.Limits, m': L.Limits, now: real, t: real)
    requires cfg.rate >= 0.0 && now <= t && Settled(cfg, m, now) && Settled(cfg, m', now) && SameLevels(cfg, m, m', now)
    ensures Settled(cfg, m, t) && Settled(cfg, m', t) && SameLevels(cfg, m, m', t)
  {
    forall ip ensures L.Level(cfg, m, ip, t) == L.Level(cfg, m', ip, t) {
      L.LevelGrows(cfg, m, ip, now, t);
      L.LevelGrows(cfg, m', ip, now, t);
    }
  }

  lemma AlikeWaits(cfg: L.Config, w: World, now: real, t: real)
    requires cfg.rate >= 0.0 && now <= t && Alike(cfg, w, now)
    ensures Alike(cfg, w, t)
  {
    LevelsWait(cfg, Mapped(w.state), L.Run(cfg, L.START, w.asked).limits, now, t);
  }

  lemma FoundMapped(cfg: L.Config, s: State, call: CallId, ip: string, t: real)
    requires Held(s) && call !in s.calls
    ensures Held(Found(cfg, s, call, ip, t))
    ensures Mapped(Found(cfg, s, call, ip, t)) == Mapped(s)[ip := L.BucketOf(cfg, Mapped(s), ip, t)]
  {
    FoundHeld(cfg, s, call, ip, t);
    if ip in s.limits {
      assert Mapped(s)[ip := Mapped(s)[ip]] == Mapped(s);
    } else {
      NewMapped(cfg, s, ip, L.Bucket(cfg.burst as real, t), s.calls[call := Call(ip, |s.buckets|)]);
    }
  }

  lemma NewMapped(cfg: L.Config, s: State, ip: string, b: L.Bucket, calls: map<CallId, Call>)
    requires ip !in s.limits && forall call | call in calls :: calls[call].bucket <= |s.buckets|
    ensures Mapped(Store(s.limits[ip := |s.buckets|], s.buckets + [b], calls)) == Mapped(s)[ip := b]
  {
  }

  lemma FoundHeld(cfg: L.Config, s: State, call: CallId, ip: string, t: real)
    requires Held(s) && call !in s.calls
    ensures Held(Found(cfg, s, call, ip, t))
  {
    var s' := Found(cfg, s, call, ip, t);
    forall c | c in s'.calls ensures Holds(s', c, s'.calls[c].ip) {
      assert c != call ==> Holds(s, c, s.calls[c].ip);
    }
  }

  lemma FindKeeps(cfg: L.Config, w: World, e: Event)
    requires Alike(cfg, w, e.at) && e.Find? && Enabled(w.state, e)
    ensures Alike(cfg, Step(cfg, w, e), e.at)
  {
    FoundMapped(cfg, w.state, e.call, e.ip, e.at);
  }

  lemma AskedMapped(cfg: L.Config, s: State, call: CallId, t: real)
    requires Held(s) && call in s.calls
    ensures Held(Asked(cfg, s, call, t))
    ensures Mapped(Asked(cfg, s, call, t)) == L.AfterRequest(cfg, Mapped(s), s.calls[call].ip, t)
    ensures Grants(cfg, s.buckets[s.calls[call].bucket], t) <==> L.Allows(cfg, Mapped(s), s.calls[call].ip, t)
  {
    var held := s.calls[call];
    assert Holds(s, call, held.ip);
    AskedHeld(cfg, s, call, t);
    OneChanged(s, held.ip, Spent(cfg, s.buckets[held.bucket], t), s.calls - {call});
  }

  lemma AskedHeld(cfg: L.Config, s: State, call: CallId, t: real)
    requires Held(s) && call in s.calls
    ensures Held(Asked(cfg, s, call, t))
  {
    var s' := Asked(cfg, s, call, t);
    forall c | c in s'.calls ensures Holds(s', c, s'.calls[c].ip) {
      assert Holds(s, c, s.calls[c].ip);
    }
  }

  lemma OneChanged(s: State, ip: string, b: L.Bucket, calls: map<CallId, Call>)
    requires Held(s) && ip in s.limits && forall call | call in calls :: calls[call].bucket < |s.buckets|
    ensures Mapped(Store(s.limits, s.buckets[s.limits[ip] := b], calls)) == Mapped(s)[ip := b]
  {
  }

  lemma RequestKeepsLevels(cfg: L.Config, m: L.Limits, m': L.Limits, ip: string, t: real)
    requires Settled(cfg, m, t) && Settled(cfg, m', t) && SameLevels(cfg, m, m', t)
    ensures var e := L.Request(ip, t);
            && Settled(cfg, L.Next(cfg, m, e), t) && Settled(cfg, L.Next(cfg, m', e), t)
            && SameLevels(cfg, L.Next(cfg, m, e), L.Next(cfg, m', e), t)
            && (L.Allows(cfg, m, ip, t) <==> L.Allows(cfg, m', ip, t))
  {
    var e := L.Request(ip, t);
    assert L.Level(cfg, m, ip, t) == L.Level(cfg, m', ip, t);
    forall jp ensures L.Level(cfg, L.Next(cfg, m, e), jp, t) == L.Level(cfg, L.Next(cfg, m', e), jp, t) {
      L.LevelAfter(cfg, m, e, jp);
      L.LevelAfter(cfg, m', e, jp);
    }
  }

  lemma AskKeeps(cfg: L.Config, w: World, e: Event)
    requires Alike(cfg, w, e.at) && e.Ask? && Enabled(w.state, e)
    ensures Alike(cfg, Step(cfg, w, e), e.at)
  {
    var ip, w' := w.state.calls[e.call].ip, Step(cfg, w, e);
    AskedMapped(cfg, w.state, e.call, e.at);
    RequestKeepsLevels(cfg, Mapped(w.state), L.Run(cfg, L.START, w.asked).limits, ip, e.at);
    assert w'.asked[..|w.asked|] == w.asked;
  }

  lemma SweptMapped(cfg: L.Config, s: State, e: Event)
    requires Held(s) && e.Sweep? && !Overtakes(cfg, s, e)
    ensures Held(Swept(cfg, s, e.ip, e.at))
    ensures Mapped(Swept(cfg, s, e.ip, e.at)) == L.AfterSweep(cfg, Mapped(s), e.ip, e.at)
  {
    var s' := Swept(cfg, s, e.ip, e.at);
    forall c | c in s'.calls ensures Holds(s', c, s'.calls[c].ip) {
      assert Holds(s, c, s.calls[c].ip);
    }
    assert Deletes(cfg, s, e.ip, e.at) ==> Mapped(s').Keys == Mapped(s).Keys - {e.ip};
  }

  lemma SweepKeeps(cfg: L.Config, w: World, e: Event)
    requires Alike(cfg, w, e.at) && e.Sweep? && !Overtakes(cfg, w.state, e)
    ensures Alike(cfg, Step(cfg, w, e), e.at)
  {
    SweptMapped(cfg, w.state, e);
    forall ip ensures L.Level(cfg, Mapped(Step(cfg, w, e).state), ip, e.at) == L.Level(cfg, Mapped(w.state), ip, e.at) {
      L.LevelAfter(cfg, Mapped(w.state), L.Event.Sweep(e.ip, e.at), ip);
    }
  }

  lemma StepKeeps(cfg: L.Config, w: World, e: Event, now: real)
    requires cfg.rate >= 0.0 && Alike(cfg, w, now) && now <= e.at && !Overtakes(cfg, w.state, e)
    ensures Alike(cfg, Step(cfg, w, e), e.at)
  {
    AlikeWaits(cfg, w, now, e.at);
    if Enabled(w.state, e) {
      match e
      case Find(call, ip, t) => FindKeeps(cfg, w, e);
      case Ask(call, t) => AskKeeps(cfg, w, e);
      case Sweep(ip, t) => SweepKeeps(cfg, w, e);
    }
  }

  lemma {:induction false} RunKeeps(cfg: L.Config, w: World, es: seq<Event>, now: real)
    requires cfg.rate >= 0.0 && Alike(cfg, w, now) && Ordered(es) && (es != [] ==> now <= es[0].at)
    requires NeverOvertaken(cfg, w, es)
    ensures Alike(cfg, Run(cfg, w, es), if es == [] then now else es[|es| - 1].at)
    decreases |es|
  {
    if es != [] {
      StepKeeps(cfg, w, es[0], now);
      RunKeeps(cfg, Step(cfg, w, es[0]), es[1..], es[0].at);
    }
  }

  lemma StartKeeps(cfg: L.Config, es: seq<Event>)
    requires cfg.rate >= 0.0 && Ordered(es) && NeverOvertaken(cfg, START, es)
    ensures Run(cfg, START, es).log == L.Run(cfg, L.START, Run(cfg, START, es).asked).log
    ensures L.Ordered(Run(cfg, START, es).asked)
  {
    RunKeeps(cfg, START, es, if es == [] then 0.0 else es[0].at);
  }

  /** As long as no sweep overtakes a call, taking the requests apart cannot be seen: what is allowed is what a limiter
      that never deletes allows, asked in one step by each request in the order in which they ask here. */
  lemma CallsAreRequests(cfg: L.Config, es: seq<Event>)
    requires cfg.rate >= 0.0 && Ordered(es) && NeverOvertaken(cfg, START, es)
    ensures Run(cfg, START, es).log == L.Run(cfg, L.START, Run(cfg, START, es).asked).log
  {
    StartKeeps(cfg, es);
  }

  predicate WindowHolds(cfg: L.Config, log: seq<L.Pass>, ip: string, s: real, t: real) {
    s <= t ==> L.CountBetween(log, ip, s, t) as real <= L.Bound(cfg, s, t)
  }

  /** And then no window holds more than its bound. */
  lemma BoundedUnlessOvertaken(cfg: L.Config, es: seq<Event>, ip: string, s: real, t: real)
    requires cfg.rate >= 0.0 && cfg.burst >= 0 && Ordered(es) && NeverOvertaken(cfg, START, es)
    ensures WindowHolds(cfg, Run(cfg, START, es).log, ip, s, t)
  {
    StartKeeps(cfg, es);
    LogBounded(cfg, Run(cfg, START, es).asked, ip, s, t);
  }

  lemma LogBounded(cfg: L.Config, asked: seq<L.Event>, ip: string, s: real, t: real)
    requires cfg.rate >= 0.0 && cfg.burst >= 0 && L.Ordered(asked)
    ensures WindowHolds(cfg, L.Run(cfg, L.START, asked).log, ip, s, t)
  {
    if s <= t {
      L.WindowBound(cfg, asked, ip, s, t);
      L.BoundGrows(cfg, s, t);
    }
  }

  // ----- a sweep that overtakes a call breaks the bound -----

  /** How many requests of the address were allowed at just this moment. */
  function Count(w: World, ip: string, t: real): int {
    L.CountBetween(w.log, ip, t, t)
  }

  lemma CountMore(log: seq<L.Pass>, ip: string, t: real)
    ensures L.CountBetween(log + [L.Pass(ip, t)], ip, t, t) == L.CountBetween(log, ip, t, t) + 1
  {
    assert (log + [L.Pass(ip, t)])[..|log|] == log;
  }

  lemma {:induction false} CountNonNegative(log: seq<L.Pass>, ip: string, s: real, t: real)
    ensures L.CountBetween(log, ip, s, t) >= 0
  {
    if log != [] {
      CountNonNegative(log[..|log| - 1], ip, s, t);
    }
  }

  /** The address has `left` tokens at the moment, and the call is not in flight. */
  predicate Ready(cfg: L.Config, s: State, call: CallId, ip: string, t: real, left: int) {
    && call !in s.calls
    && if ip in s.limits then s.buckets[s.limits[ip]] == L.Bucket(left as real, t) else left == cfg.burst
  }

  /** A whole request at one moment, while tokens are left. */
  lemma OneMore(cfg: L.Config, w: World, call: CallId, ip: string, t: real, left: int)
    requires 1 <= left <= cfg.burst && Ready(cfg, w.state, call, ip, t, left)
    ensures var found := Step(cfg, w, Find(call, ip, t));
            var asked := Step(cfg, found, Ask(call, t));
            && Enabled(found.state, Ask(call, t)) && Ready(cfg, asked.state, call, ip, t, left - 1)
            && Count(asked, ip, t) == Count(w, ip, t) + 1
  {
    L.AtOnce(cfg, left as real, t);
    CountMore(w.log, ip, t);
  }

  function Visits(call: CallId, ip: string, t: real, n: nat): (es: seq<Event>)
    ensures Requests(es) && forall i | 0 <= i < |es| :: es[i].at == t
  {
    if n == 0 then [] else [Find(call, ip, t), Ask(call, t)] + Visits(call, ip, t, n - 1)
  }

  lemma {:induction false} AllMore(cfg: L.Config, w: World, call: CallId, ip: string, t: real, left: int, n: nat)
    requires n <= left <= cfg.burst && Ready(cfg, w.state, call, ip, t, left)
    ensures AllEnabled(cfg, w, Visits(call, ip, t, n))
    ensures Count(Run(cfg, w, Visits(call, ip, t, n)), ip, t) == Count(w, ip, t) + n
    decreases n
  {
    if n > 0 {
      var find, ask, rest := Find(call, ip, t), Ask(call, t), Visits(call, ip, t, n - 1);
      var found := Step(cfg, w, find);
      OneMore(cfg, w, call, ip, t, left);
      AllMore(cfg, Step(cfg, found, ask), call, ip, t, left - 1, n - 1);
      TwoSteps(cfg, w, find, ask, rest);
    }
  }

  lemma TwoSteps(cfg: L.Config, w: World, a: Event, b: Event, rest: seq<Event>)
    ensures var es, w1 := [a, b] + rest, Step(cfg, w, a);
            && Run(cfg, w, es) == Run(cfg, Step(cfg, w1, b), rest)
            && (AllEnabled(cfg, w, es) <==>
                Enabled(w.state, a) && Enabled(w1.state, b) && AllEnabled(cfg, Step(cfg, w1, b), rest))
  {
    var es := [a, b] + rest;
    assert es[0] == a && es[1..] == [b] + rest;
    assert ([b] + rest)[0] == b && ([b] + rest)[1..] == rest;
  }

  /** The sweep and the call it overtakes, and then as many requests as the burst size. */
  function Rush(cfg: L.Config, sweep: Event, call: CallId): seq<Event>
    requires cfg.burst >= 0 && sweep.Sweep?
  {
    [sweep, Ask(call, sweep.at)] + Visits(call, sweep.ip, sweep.at, cfg.burst)
  }

  lemma OvertakenAsks(cfg: L.Config, w: World, sweep: Event, call: CallId)
    requires cfg.burst >= 1 && sweep.Sweep? && Deletes(cfg, w.state, sweep.ip, sweep.at)
    requires Holds(w.state, call, sweep.ip)
    ensures var swept := Step(cfg, w, sweep);
            var asked := Step(cfg, swept, Ask(call, sweep.at));
            && Enabled(swept.state, Ask(call, sweep.at))
            && Ready(cfg, asked.state, call, sweep.ip, sweep.at, cfg.burst) && Count(asked, sweep.ip, sweep.at) >= 1
  {
    CountMore(w.log, sweep.ip, sweep.at);
    CountNonNegative(w.log, sweep.ip, sweep.at, sweep.at);
  }

  /** A sweep that overtakes a call lets more through than the bound allows, even at a single moment: the call itself,
      and `burst` requests that find a new bucket. */
  lemma OvertakenBreaks(cfg: L.Config, w: World, sweep: Event, call: CallId)
    requires cfg.burst >= 1 && sweep.Sweep? && Deletes(cfg, w.state, sweep.ip, sweep.at)
    requires Holds(w.state, call, sweep.ip)
    ensures AllEnabled(cfg, w, Rush(cfg, sweep, call))
    ensures Count(Run(cfg, w, Rush(cfg, sweep, call)), sweep.ip, sweep.at) >= cfg.burst + 1
  {
    var ask := Ask(call, sweep.at);
    OvertakenAsks(cfg, w, sweep, call);
    AllMore(cfg, Step(cfg, Step(cfg, w, sweep), ask), call, sweep.ip, sweep.at, cfg.burst, cfg.burst);
    TwoSteps(cfg, w, sweep, ask, Visits(call, sweep.ip, sweep.at, cfg.burst));
  }

  // ----- the exact condition -----

  /** Requests and nothing else. */
  predicate Requests(es: seq<Event>) {
    forall i | 0 <= i < |es| :: !es[i].Sweep?
  }

  /** However the run goes on by requests, no window will hold more than its bound. */
  ghost predicate BoundedFrom(cfg: L.Config, es: seq<Event>) {
    forall more | Requests(more) && Ordered(es + more) && AllEnabled(cfg, Run(cfg, START, es), more) ::
        BoundedAfter(cfg, es, more)
  }

  ghost predicate BoundedAfter(cfg: L.Config, es: seq<Event>, more: seq<Event>) {
    forall ip, s, t :: WindowHolds(cfg, Run(cfg, Run(cfg, START, es), more).log, ip, s, t)
  }

  lemma {:induction false} RequestsOvertakeNothing(cfg: L.Config, w: World, es: seq<Event>)
    requires Requests(es)
    ensures NeverOvertaken(cfg, w, es)
    decreases |es|
  {
    if es != [] {
      RequestsOvertakeNothing(cfg, Step(cfg, w, es[0]), es[1..]);
    }
  }

  lemma NeverOvertakenIsBounded(cfg: L.Config, es: seq<Event>, k: nat, more: seq<Event>)
    requires cfg.rate >= 0.0 && cfg.burst >= 0 && k <= |es| && NeverOvertaken(cfg, START, es)
    requires Requests(more) && Ordered(es[..k] + more)
    ensures BoundedAfter(cfg, es[..k], more)
  {
    assert es == es[..k] + es[k..];
    RunJoins(cfg, START, es[..k], es[k..]);
    RequestsOvertakeNothing(cfg, Run(cfg, START, es[..k]), more);
    RunJoins(cfg, START, es[..k], more);
    forall ip, s, t ensures WindowHolds(cfg, Run(cfg, Run(cfg, START, es[..k]), more).log, ip, s, t) {
      BoundedUnlessOvertaken(cfg, es[..k] + more, ip, s, t);
    }
  }

  /** The run up to a sweep that overtakes a call. */
  lemma {:induction false} SomeOvertaken(cfg: L.Config, w: World, es: seq<Event>) returns (k: nat)
    requires !NeverOvertaken(cfg, w, es)
    ensures k < |es| && Overtakes(cfg, Run(cfg, w, es[..k]).state, es[k])
    decreases |es|
  {
    if Overtakes(cfg, w.state, es[0]) {
      k := 0;
    } else {
      k := SomeOvertaken(cfg, Step(cfg, w, es[0]), es[1..]);
      k := k + 1;
      assert es[..k][0] == es[0] && es[..k][1..] == es[1..][..k - 1];
    }
  }

  lemma RushAfter(cfg: L.Config, w: World, sweep: Event, call: CallId) returns (more: seq<Event>)
    requires cfg.burst >= 1 && sweep.Sweep? && Deletes(cfg, w.state, sweep.ip, sweep.at)
    requires Holds(w.state, call, sweep.ip)
    ensures Requests(more) && forall i | 0 <= i < |more| :: more[i].at == sweep.at
    ensures AllEnabled(cfg, Step(cfg, w, sweep), more)
    ensures Count(Run(cfg, Step(cfg, w, sweep), more), sweep.ip, sweep.at) > cfg.burst
  {
    more := [Ask(call, sweep.at)] + Visits(call, sweep.ip, sweep.at, cfg.burst);
    OvertakenBreaks(cfg, w, sweep, call);
    assert Rush(cfg, sweep, call)[0] == sweep && Rush(cfg, sweep, call)[1..] == more;
  }

  /** A run that a sweep brings to the point of overtaking a call can break the bound right after it. */
  lemma OvertakenIsUnbounded(cfg: L.Config, es: seq<Event>, sweep: Event)
    requires cfg.burst >= 1 && Ordered(es + [sweep]) && Overtakes(cfg, Run(cfg, START, es).state, sweep)
    ensures !BoundedFrom(cfg, es + [sweep])
  {
    var w := Run(cfg, START, es);
    var call :| Holds(w.state, call, sweep.ip);
    var more := RushAfter(cfg, w, sweep, call);
    RunJoins(cfg, START, es, [sweep]);
    OneStep(cfg, w, sweep);
    OrderedMore(es + [sweep], more, sweep.at);
    CountBreaks(cfg, es + [sweep], more, sweep.ip, sweep.at);
  }

  lemma OrderedMore(es: seq<Event>, more: seq<Event>, t: real)
    requires Ordered(es) && es != [] && es[|es| - 1].at == t && forall i | 0 <= i < |more| :: more[i].at == t
    ensures Ordered(es + more)
  {
    var all := es + more;
    forall i, j | 0 <= i < j < |all| ensures all[i].at <= all[j].at {
      assert i < |es| ==> es[i].at <= t;
    }
  }

  lemma OneStep(cfg: L.Config, w: World, e: Event)
    ensures Run(cfg, w, [e]) == Step(cfg, w, e)
  {
    assert [e][1..] == [];
  }

  lemma CountBreaks(cfg: L.Config, es: seq<Event>, more: seq<Event>, ip: string, t: real)
    requires Requests(more) && Ordered(es + more) && AllEnabled(cfg, Run(cfg, START, es), more)
    requires Count(Run(cfg, Run(cfg, START, es), more), ip, t) > cfg.burst
    ensures !BoundedFrom(cfg, es)
  {
    L.NoWait(cfg.rate, t);
    assert !WindowHolds(cfg, Run(cfg, Run(cfg, START, es), more).log, ip, t, t);
    assert !BoundedAfter(cfg, es, more);
  }

  /** The exact condition, for every ordered run: at each moment of it the bound will hold in every continuation by
      requests, if and only if no sweep of the run overtakes a call. */
  lemma BoundHeldExactly(cfg: L.Config, es: seq<Event>)
    requires cfg.rate >= 0.0 && cfg.burst >= 1 && Ordered(es)
    ensures NeverOvertaken(cfg, START, es) <==> forall k | 0 <= k <= |es| :: BoundedFrom(cfg, es[..k])
  {
    if NeverOvertaken(cfg, START, es) {
      forall k, more | 0 <= k <= |es| && Requests(more) && Ordered(es[..k] + more)
          ensures BoundedAfter(cfg, es[..k], more) {
        NeverOvertakenIsBounded(cfg, es, k, more);
      }
    } else {
      var k := SomeOvertaken(cfg, START, es);
      assert es[..k + 1] == es[..k] + [es[k]];
      OvertakenIsUnbounded(cfg, es[..k], es[k]);
    }
  }

  /** The smallest such run: with a burst of one and no refill, two requests of one address are allowed at once. */
  lemma SweepCanBeSeen()
    ensures var cfg := L.Config(0.0, 1);
            var es := [Find(0, "a", 0.0), Sweep("a", 0.0), Ask(0, 0.0), Find(0, "a", 0.0), Ask(0, 0.0)];
            && Ordered(es) && AllEnabled(cfg, START, es)
            && Count(Run(cfg, START, es), "a", 0.0) >= 2 && L.Bound(cfg, 0.0, 0.0) == 1.0
  {
    var cfg := L.Config(0.0, 1);
    var find, sweep := Find(0, "a", 0.0), Sweep("a", 0.0);
    var es := [find, sweep, Ask(0, 0.0), find, Ask(0, 0.0)];
    var found := Step(cfg, START, find);
    L.AtOnce(cfg, 1.0, 0.0);
    assert Holds(found.state, 0, "a") && Deletes(cfg, found.state, "a", 0.0);
    OvertakenBreaks(cfg, found, sweep, 0);
    assert Visits(0, "a", 0.0, 1) == [find, Ask(0, 0.0)] + Visits(0, "a", 0.0, 0);
    assert es[1..] == Rush(cfg, sweep, 0);
  }
}
