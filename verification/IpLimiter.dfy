/** The per-address rate limiter: token buckets in real arithmetic, created on demand and evicted when full. */
module IpLimiter {
  /** Tokens as they were at time `last`. */
  datatype Bucket = Bucket(tokens: real, last: real)

  datatype Config = Config(rate: real, burst: int)

  type Limits = map<string, Bucket>

  datatype Event = Request(ip: string, at: real) | Sweep(ip: string, at: real)

  function Later(a: real, b: real): real {
    if a < b then b else a
  }

  function Refill(rate: real, elapsed: real): real {
    rate * elapsed
  }

  /** Refill since `last`, capped at the burst size. */
  function TokensAt(cfg: Config, b: Bucket, t: real): real {
    var full := cfg.burst as real;
    var tokens := b.tokens + Refill(cfg.rate, Later(t, b.last) - b.last);
    if tokens > full then full else tokens
  }

  /** The bucket an address has, or the full one it would be given. */
  function BucketOf(cfg: Config, m: Limits, ip: string, t: real): Bucket {
    if ip in m then m[ip] else Bucket(cfg.burst as real, t)
  }

  function Level(cfg: Config, m: Limits, ip: string, t: real): real {
    TokensAt(cfg, BucketOf(cfg, m, ip, t), t)
  }

  predicate Allows(cfg: Config, m: Limits, ip: string, t: real) {
    Level(cfg, m, ip, t) >= 1.0 && cfg.burst >= 1
  }

  function AfterRequest(cfg: Config, m: Limits, ip: string, t: real): Limits {
    m[ip := if Allows(cfg, m, ip, t) then Bucket(Level(cfg, m, ip, t) - 1.0, t) else BucketOf(cfg, m, ip, t)]
  }

  /** The cleanup pass looks at one address. */
  function AfterSweep(cfg: Config, m: Limits, ip: string, t: real): Limits {
    if ip in m && TokensAt(cfg, m[ip], t) >= cfg.burst as real then m - {ip} else m
  }

  function Next(cfg: Config, m: Limits, e: Event): Limits {
    match e
    case Request(ip, t) => AfterRequest(cfg, m, ip, t)
    case Sweep(ip, t) => AfterSweep(cfg, m, ip, t)
  }

  // ----- runs, with a log of what was allowed -----

  datatype Pass = Pass(ip: string, at: real)

  datatype Watched = Watched(limits: Limits, log: seq<Pass>)

  function Step(cfg: Config, w: Watched, e: Event): Watched {
    Watched(Next(cfg, w.limits, e),
            if e.Request? && Allows(cfg, w.limits, e.ip, e.at) then w.log + [Pass(e.ip, e.at)] else w.log)
  }

  function Run(cfg: Config, w: Watched, es: seq<Event>): Watched {
    if es == [] then w else Step(cfg, Run(cfg, w, es[..|es| - 1]), es[|es| - 1])
  }

  const START := Watched(map[], [])

  /** Time does not run backwards. */
  predicate Ordered(es: seq<Event>) {
    forall i, j | 0 <= i < j < |es| :: es[i].at <= es[j].at
  }

  predicate Ends(es: seq<Event>, t: real) {
    es == [] || es[|es| - 1].at <= t
  }

  /** How many requests of `ip` were allowed at time `s` or later. */
  function CountFrom(log: seq<Pass>, ip: string, s: real): int {
    if log == [] then 0
    else CountFrom(log[..|log| - 1], ip, s) + (if log[|log| - 1].ip == ip && log[|log| - 1].at >= s then 1 else 0)
  }

  /** The independent rule: allowing one more request now keeps every window that ends now within its bound. */
  ghost predicate WithinEveryWindow(cfg: Config, log: seq<Pass>, ip: string, t: real) {
    forall s: real | s <= t :: CountFrom(log, ip, s) as real + 1.0 <= Bound(cfg, s, t)
  }

  function Bound(cfg: Config, s: real, t: real): real {
    cfg.burst as real + cfg.rate * (t - s)
  }

  // ----- the level of a bucket is the tightest window -----

  predicate Below(cfg: Config, level: real, log: seq<Pass>, ip: string, s: real, t: real) {
    level <= Bound(cfg, s, t) - CountFrom(log, ip, s) as real
  }

  /** The window in which `level` is reached exactly. */
  predicate Reaches(cfg: Config, level: real, log: seq<Pass>, ip: string, s: real, t: real) {
    s <= t && level == Bound(cfg, s, t) - CountFrom(log, ip, s) as real
  }

  ghost predicate Tight(cfg: Config, level: real, log: seq<Pass>, ip: string, t: real) {
    && (forall s: real | s <= t :: Below(cfg, level, log, ip, s, t))
    && (exists s: real :: Reaches(cfg, level, log, ip, s, t))
  }

  lemma Spread(rate: real, a: real, b: real, c: real)
    ensures Refill(rate, c - a) == Refill(rate, c - b) + Refill(rate, b - a)
  {
  }

  lemma NonNegative(rate: real, d: real)
    requires rate >= 0.0 && d >= 0.0
    ensures Refill(rate, d) >= 0.0
  {
  }

  lemma BoundGrows(cfg: Config, s: real, t: real)
    requires cfg.rate >= 0.0 && s <= t
    ensures Bound(cfg, s, t) >= cfg.burst as real && Bound(cfg, t, t) == cfg.burst as real
  {
    NonNegative(cfg.rate, t - s);
    NoWait(cfg.rate, t);
    assert Bound(cfg, s, t) == cfg.burst as real + Refill(cfg.rate, t - s);
  }

  lemma NoWait(rate: real, t: real)
    ensures Refill(rate, t - t) == 0.0
  {
  }

  lemma {:induction false} NoneLater(log: seq<Pass>, ip: string, s: real)
    requires forall i | 0 <= i < |log| :: log[i].at < s
    ensures CountFrom(log, ip, s) == 0
  {
    if log != [] {
      NoneLater(log[..|log| - 1], ip, s);
    }
  }

  lemma CountOneMore(log: seq<Pass>, p: Pass, ip: string, s: real)
    ensures CountFrom(log + [p], ip, s) == CountFrom(log, ip, s) + (if p.ip == ip && p.at >= s then 1 else 0)
  {
    assert (log + [p])[..|log|] == log;
  }

  /** Waiting refills by the elapsed time, up to the burst size. */
  lemma LevelGrows(cfg: Config, m: Limits, ip: string, u: real, t: real)
    requires cfg.rate >= 0.0 && u <= t && (ip in m ==> m[ip].last <= u && m[ip].tokens <= cfg.burst as real)
    ensures var grown := Level(cfg, m, ip, u) + Refill(cfg.rate, t - u);
            Level(cfg, m, ip, t) == if grown > cfg.burst as real then cfg.burst as real else grown
  {
    NonNegative(cfg.rate, t - u);
    if ip in m {
      Spread(cfg.rate, m[ip].last, u, t);
      NonNegative(cfg.rate, u - m[ip].last);
    }
  }

  lemma BelowWaits(cfg: Config, level: real, grown: real, log: seq<Pass>, ip: string, u: real, t: real, s: real)
    requires cfg.rate >= 0.0 && u <= t && s <= t && (s <= u ==> Below(cfg, level, log, ip, s, u))
    requires forall i | 0 <= i < |log| :: log[i].at <= u
    requires grown <= cfg.burst as real && grown <= level + Refill(cfg.rate, t - u)
    ensures Below(cfg, grown, log, ip, s, t)
  {
    if s <= u {
      Spread(cfg.rate, s, u, t);
    } else {
      NoneLater(log, ip, s);
      NonNegative(cfg.rate, t - s);
    }
  }

  lemma ReachesWaits(cfg: Config, level: real, grown: real, log: seq<Pass>, ip: string, u: real, t: real, s: real)
    returns (s': real)
    requires cfg.rate >= 0.0 && u < t && Reaches(cfg, level, log, ip, s, u)
    requires forall i | 0 <= i < |log| :: log[i].at <= u
    requires grown
             == (if level + Refill(cfg.rate, t - u) > cfg.burst as real then cfg.burst as real
                 else level + Refill(cfg.rate, t - u))
    ensures Reaches(cfg, grown, log, ip, s', t)
  {
    if level + Refill(cfg.rate, t - u) > cfg.burst as real {
      s' := t;
      NoneLater(log, ip, t);
      assert Refill(cfg.rate, t - t) == 0.0;
    } else {
      s' := s;
      Spread(cfg.rate, s, u, t);
    }
  }

  lemma TightWaits(cfg: Config, level: real, grown: real, log: seq<Pass>, ip: string, u: real, t: real)
    requires cfg.rate >= 0.0 && u < t && Tight(cfg, level, log, ip, u)
    requires forall i | 0 <= i < |log| :: log[i].at <= u
    requires grown
             == (if level + Refill(cfg.rate, t - u) > cfg.burst as real then cfg.burst as real
                 else level + Refill(cfg.rate, t - u))
    ensures Tight(cfg, grown, log, ip, t)
  {
    forall s: real | s <= t ensures Below(cfg, grown, log, ip, s, t) {
      BelowWaits(cfg, level, grown, log, ip, u, t, s);
    }
    var s: real :| Reaches(cfg, level, log, ip, s, u);
    var s' := ReachesWaits(cfg, level, grown, log, ip, u, t, s);
  }

  lemma TightPasses(cfg: Config, level: real, log: seq<Pass>, ip: string, t: real)
    requires Tight(cfg, level, log, ip, t)
    ensures Tight(cfg, level - 1.0, log + [Pass(ip, t)], ip, t)
  {
    var log', spent := log + [Pass(ip, t)], level - 1.0;
    forall s: real | s <= t ensures Below(cfg, spent, log', ip, s, t) {
      assert Below(cfg, level, log, ip, s, t);
      CountOneMore(log, Pass(ip, t), ip, s);
    }
    var s: real :| Reaches(cfg, level, log, ip, s, t);
    CountOneMore(log, Pass(ip, t), ip, s);
    assert Reaches(cfg, spent, log', ip, s, t);
  }

  lemma TightIgnores(cfg: Config, level: real, log: seq<Pass>, p: Pass, ip: string, t: real)
    requires Tight(cfg, level, log, ip, t) && p.ip != ip
    ensures Tight(cfg, level, log + [p], ip, t)
  {
    forall s: real | s <= t ensures Below(cfg, level, log + [p], ip, s, t) {
      assert Below(cfg, level, log, ip, s, t);
      CountOneMore(log, p, ip, s);
    }
    var s: real :| Reaches(cfg, level, log, ip, s, t);
    CountOneMore(log, p, ip, s);
    assert Reaches(cfg, level, log + [p], ip, s, t);
  }

  lemma AtOnce(cfg: Config, tokens: real, t: real)
    requires tokens <= cfg.burst as real
    ensures TokensAt(cfg, Bucket(tokens, t), t) == tokens
  {
    var d := Later(t, t) - t;
    assert d == 0.0 && Refill(cfg.rate, d) == 0.0;
  }

  lemma Spent(cfg: Config, m: Limits, ip: string, t: real)
    ensures TokensAt(cfg, Bucket(cfg.burst as real, t), t) == cfg.burst as real
    ensures TokensAt(cfg, Bucket(Level(cfg, m, ip, t) - 1.0, t), t) == Level(cfg, m, ip, t) - 1.0
  {
    AtOnce(cfg, cfg.burst as real, t);
    AtOnce(cfg, Level(cfg, m, ip, t) - 1.0, t);
  }

  /** The level just after an event at the same moment: one less if a request was allowed; eviction changes nothing. */
  lemma LevelAfter(cfg: Config, m: Limits, e: Event, ip: string)
    requires forall k | k in m :: m[k].last <= e.at && m[k].tokens <= cfg.burst as real
    ensures var t := e.at;
            Level(cfg, Next(cfg, m, e), ip, t) ==
            if e.Request? && e.ip == ip && Allows(cfg, m, ip, t) then Level(cfg, m, ip, t) - 1.0
                else Level(cfg, m, ip, t)
  {
    Spent(cfg, m, e.ip, e.at);
    Spent(cfg, m, ip, e.at);
  }

  /** No bucket is fuller than full, below empty, or newer than the present. */
  ghost predicate Sane(cfg: Config, w: Watched, now: real) {
    && (forall k | k in w.limits :: w.limits[k].last <= now && w.limits[k].tokens <= cfg.burst as real)
    && (forall k | k in w.limits :: cfg.burst >= 0 ==> w.limits[k].tokens >= 0.0)
    && (forall i | 0 <= i < |w.log| :: w.log[i].at <= now)
    && (w.log != [] ==> cfg.burst >= 1)
  }

  lemma SaneStep(cfg: Config, w: Watched, e: Event, now: real)
    requires cfg.rate >= 0.0 && Sane(cfg, w, now) && now <= e.at
    ensures Sane(cfg, Step(cfg, w, e), e.at)
  {
  }

  ghost predicate Exact(cfg: Config, w: Watched, ip: string, now: real) {
    Tight(cfg, Level(cfg, w.limits, ip, now), w.log, ip, now)
  }

  lemma ExactWaits(cfg: Config, w: Watched, ip: string, u: real, t: real)
    requires cfg.rate >= 0.0 && Sane(cfg, w, u) && Exact(cfg, w, ip, u) && u <= t
    ensures Exact(cfg, w, ip, t)
  {
    if u < t {
      LevelGrows(cfg, w.limits, ip, u, t);
      TightWaits(cfg, Level(cfg, w.limits, ip, u), Level(cfg, w.limits, ip, t), w.log, ip, u, t);
    }
  }

  lemma ExactStep(cfg: Config, w: Watched, e: Event, ip: string, now: real)
    requires cfg.rate >= 0.0 && Sane(cfg, w, now) && Exact(cfg, w, ip, now) && now <= e.at
    ensures Exact(cfg, Step(cfg, w, e), ip, e.at)
  {
    var t := e.at;
    ExactWaits(cfg, w, ip, now, t);
    LevelAfter(cfg, w.limits, e, ip);
    if e.Request? && Allows(cfg, w.limits, e.ip, t) {
      if e.ip == ip {
        TightPasses(cfg, Level(cfg, w.limits, ip, t), w.log, ip, t);
      } else {
        TightIgnores(cfg, Level(cfg, w.limits, ip, t), w.log, Pass(e.ip, t), ip, t);
      }
    }
  }

  lemma ExactAtStart(cfg: Config, ip: string, t: real)
    requires cfg.rate >= 0.0
    ensures Sane(cfg, START, t) && Exact(cfg, START, ip, t)
  {
    var full := cfg.burst as real;
    forall s: real | s <= t ensures Below(cfg, full, [], ip, s, t) {
      NonNegative(cfg.rate, t - s);
    }
    assert Refill(cfg.rate, t - t) == 0.0;
    assert Reaches(cfg, full, [], ip, t, t);
  }

  lemma {:induction false} ExactRun(cfg: Config, es: seq<Event>, ip: string, now: real)
    requires cfg.rate >= 0.0 && Ordered(es) && Ends(es, now)
    ensures Sane(cfg, Run(cfg, START, es), now) && Exact(cfg, Run(cfg, START, es), ip, now)
  {
    if es == [] {
      ExactAtStart(cfg, ip, now);
    } else {
      var n := |es| - 1;
      var w := Run(cfg, START, es[..n]);
      ExactRun(cfg, es[..n], ip, es[n].at);
      SaneStep(cfg, w, es[n], es[n].at);
      ExactStep(cfg, w, es[n], ip, es[n].at);
      ExactWaits(cfg, Run(cfg, START, es), ip, es[n].at, now);
    }
  }

  // ----- what follows for every run -----

  /** The limiter is exact: whatever was requested and evicted before, a request is allowed if and only if letting
      it through keeps every window that ends now within burst plus rate times length. */
  lemma AllowsExactly(cfg: Config, es: seq<Event>, ip: string, t: real)
    requires cfg.rate >= 0.0 && Ordered(es) && Ends(es, t)
    ensures Allows(cfg, Run(cfg, START, es).limits, ip, t) <==> WithinEveryWindow(cfg, Run(cfg, START, es).log, ip, t)
  {
    ExactRun(cfg, es, ip, t);
    var w := Run(cfg, START, es);
    var level := Level(cfg, w.limits, ip, t);
    var s: real :| Reaches(cfg, level, w.log, ip, s, t);
    if level >= 1.0 {
      forall s: real | s <= t ensures CountFrom(w.log, ip, s) as real + 1.0 <= Bound(cfg, s, t) {
        assert Below(cfg, level, w.log, ip, s, t);
      }
    } else {
      assert CountFrom(w.log, ip, s) as real + 1.0 > Bound(cfg, s, t);
    }
  }

  function CountBetween(log: seq<Pass>, ip: string, s: real, t: real): int {
    if log == [] then 0
    else
      CountBetween(log[..|log| - 1], ip, s, t)
      + (if log[|log| - 1].ip == ip && s <= log[|log| - 1].at <= t then 1 else 0)
  }

  lemma {:induction false} CountUpToNow(log: seq<Pass>, ip: string, s: real, t: real)
    requires forall i | 0 <= i < |log| :: log[i].at <= t
    ensures CountBetween(log, ip, s, t) == CountFrom(log, ip, s)
  {
    if log != [] {
      CountUpToNow(log[..|log| - 1], ip, s, t);
    }
  }

  lemma OrderedInit(es: seq<Event>)
    requires es != [] && Ordered(es)
    ensures Ordered(es[..|es| - 1]) && Ends(es[..|es| - 1], es[|es| - 1].at)
  {
  }

  /** The bound: in any window of any run, at most burst plus rate times length requests of one address are allowed,
      however often its bucket was evicted in between. */
  lemma {:induction false} WindowBound(cfg: Config, es: seq<Event>, ip: string, s: real, t: real)
    requires cfg.rate >= 0.0 && Ordered(es) && s <= t
    ensures var n := CountBetween(Run(cfg, START, es).log, ip, s, t);
            n == 0 || n as real <= Bound(cfg, s, t)
  {
    if es == [] || es[|es| - 1].at <= t {
      EndBound(cfg, es, ip, s, t);
    } else {
      OrderedInit(es);
      WindowBound(cfg, es[..|es| - 1], ip, s, t);
      LateStep(cfg, Run(cfg, START, es[..|es| - 1]), es[|es| - 1], ip, s, t);
    }
  }

  lemma LateStep(cfg: Config, w: Watched, e: Event, ip: string, s: real, t: real)
    requires e.at > t
    ensures CountBetween(Step(cfg, w, e).log, ip, s, t) == CountBetween(w.log, ip, s, t)
  {
    if e.Request? {
      assert (w.log + [Pass(e.ip, e.at)])[..|w.log|] == w.log;
    }
  }

  lemma EndBound(cfg: Config, es: seq<Event>, ip: string, s: real, t: real)
    requires cfg.rate >= 0.0 && Ordered(es) && Ends(es, t) && s <= t
    ensures var n := CountBetween(Run(cfg, START, es).log, ip, s, t);
            n == 0 || n as real <= Bound(cfg, s, t)
  {
    ExactRun(cfg, es, ip, t);
    var w := Run(cfg, START, es);
    CountUpToNow(w.log, ip, s, t);
    if w.log != [] {
      LevelNonNegative(cfg, w, ip, t);
      assert Below(cfg, Level(cfg, w.limits, ip, t), w.log, ip, s, t);
    }
  }

  lemma RefilledNonNegative(cfg: Config, b: Bucket, t: real)
    requires cfg.rate >= 0.0 && cfg.burst >= 0 && b.tokens >= 0.0
    ensures TokensAt(cfg, b, t) >= 0.0
  {
    var waited := Later(t, b.last) - b.last;
    NonNegative(cfg.rate, waited);
    assert cfg.burst as real >= 0.0;
  }

  lemma LevelNonNegative(cfg: Config, w: Watched, ip: string, t: real)
    requires cfg.rate >= 0.0 && Sane(cfg, w, t) && w.log != []
    ensures Level(cfg, w.limits, ip, t) >= 0.0
  {
    RefilledNonNegative(cfg, BucketOf(cfg, w.limits, ip, t), t);
  }

  /** The same requests without the cleanup passes. */
  function WithoutSweeps(es: seq<Event>): seq<Event> {
    if es == [] then []
    else WithoutSweeps(es[..|es| - 1]) + (if es[|es| - 1].Request? then [es[|es| - 1]] else [])
  }

  lemma {:induction false} WithoutSweepsOrdered(es: seq<Event>, t: real)
    requires Ordered(es) && Ends(es, t)
    ensures Ordered(WithoutSweeps(es)) && Ends(WithoutSweeps(es), t)
  {
    if es != [] {
      OrderedInit(es);
      WithoutSweepsOrdered(es[..|es| - 1], es[|es| - 1].at);
      var rest := WithoutSweeps(es[..|es| - 1]);
      assert rest != [] ==> forall i | 0 <= i < |rest| :: rest[i].at <= rest[|rest| - 1].at;
    }
  }

  /** Eviction is invisible: the limiter lets through exactly the requests that one without cleanup lets through,
      and answers the next request as that one would. */
  lemma {:induction false} EvictionIsInvisible(cfg: Config, es: seq<Event>, ip: string, t: real)
    requires cfg.rate >= 0.0 && Ordered(es) && Ends(es, t)
    ensures Run(cfg, START, es).log == Run(cfg, START, WithoutSweeps(es)).log
    ensures Allows(cfg, Run(cfg, START, es).limits, ip, t) <==>
            Allows(cfg, Run(cfg, START, WithoutSweeps(es)).limits, ip, t)
  {
    if es != [] {
      var e := es[|es| - 1];
      OrderedInit(es);
      EvictionIsInvisible(cfg, es[..|es| - 1], e.ip, e.at);
      var kept := WithoutSweeps(es[..|es| - 1]);
      assert (kept + [e])[..|kept|] == kept;
      assert kept + [] == kept;
    }
    WithoutSweepsOrdered(es, t);
    AllowsExactly(cfg, es, ip, t);
    AllowsExactly(cfg, WithoutSweeps(es), ip, t);
  }

  // ----- the limiter as the object the server updates in place -----

  class RateLimiter {
    const cfg: Config
    var tokens: real
    var last: real

    constructor (cfg: Config, now: real)
      ensures this.cfg == cfg && Value() == Bucket(cfg.burst as real, now)
    {
      this.cfg := cfg;
      tokens, last := cfg.burst as real, now;
    }

    function Value(): Bucket
      reads this
    {
      Bucket(tokens, last)
    }

    method Allow(now: real) returns (ok: bool)
      modifies this
      ensures ok <==> TokensAt(cfg, old(Value()), now) >= 1.0 && cfg.burst >= 1
      ensures Value() == if ok then Bucket(TokensAt(cfg, old(Value()), now) - 1.0, now) else old(Value())
    {
      var available := TokensAt(cfg, Value(), now);
      ok := available >= 1.0 && cfg.burst >= 1;
      if ok {
        tokens, last := available - 1.0, now;
      }
    }
  }

  /** Finding or making the bucket and then asking it is the one step `AfterRequest`. */
  lemma Answered(cfg: Config, m: Limits, ip: string, now: real, ok: bool, left: Bucket)
    requires var b := BucketOf(cfg, m, ip, now);
             && (ok <==> TokensAt(cfg, b, now) >= 1.0 && cfg.burst >= 1)
             && left == if ok then Bucket(TokensAt(cfg, b, now) - 1.0, now) else b
    ensures ok <==> Allows(cfg, m, ip, now)
    ensures m[ip := BucketOf(cfg, m, ip, now)][ip := left] == AfterRequest(cfg, m, ip, now)
  {
  }

  class IPRateLimiter {
    const cfg: Config
    var limits: map<string, RateLimiter>

    constructor (cfg: Config)
      ensures this.cfg == cfg && Valid() && State() == map[]
    {
      this.cfg := cfg;
      limits := map[];
    }

    ghost predicate Valid()
      reads `limits
    {
      && (forall ip | ip in limits :: limits[ip].cfg == cfg)
      && (forall ip, jp | ip in limits && jp in limits && ip != jp :: limits[ip] != limits[jp])
    }

    ghost function State(): Limits
      reads `limits, limits.Values
    {
      map ip | ip in limits :: limits[ip].Value()
    }

    method GetLimiter(ip: string, now: real) returns (limiter: RateLimiter)
      requires Valid()
      modifies `limits
      ensures Valid() && ip in limits && limits[ip] == limiter && limiter.cfg == cfg
      ensures limits.Values <= old(limits).Values + {limiter} && (limiter in old(limits).Values || fresh(limiter))
      ensures State() == old(State())[ip := BucketOf(cfg, old(State()), ip, now)]
    {
      if ip in limits {
        limiter := limits[ip];
      } else {
        limiter := new RateLimiter(cfg, now);
        limits := limits[ip := limiter];
      }
    }

    /** The decision of the middleware for a request from `address`; an address that is empty gets a name. */
    method Serve(address: string, now: real) returns (ok: bool)
      requires Valid()
      modifies `limits, limits.Values
      ensures Valid()
      ensures var ip := if address == "" then "unknown_ip" else address;
              State() == AfterRequest(cfg, old(State()), ip, now) && (ok <==> Allows(cfg, old(State()), ip, now))
    {
      var ip := if address == "" then "unknown_ip" else address;
      ok := Decide(ip, now);
    }

    method Decide(ip: string, now: real) returns (ok: bool)
      requires Valid()
      modifies `limits, limits.Values
      ensures Valid()
      ensures State() == AfterRequest(cfg, old(State()), ip, now) && (ok <==> Allows(cfg, old(State()), ip, now))
    {
      ghost var before := State();
      var limiter := GetLimiter(ip, now);
      assert limiter.Value() == State()[ip];
      ok := Ask(limiter, ip, now);
      Answered(cfg, before, ip, now, ok, limiter.Value());
    }

    method Ask(limiter: RateLimiter, ip: string, now: real) returns (ok: bool)
      requires Valid() && ip in limits && limits[ip] == limiter
      modifies limiter
      ensures ok <==> TokensAt(cfg, old(limiter.Value()), now) >= 1.0 && cfg.burst >= 1
      ensures limiter.Value() == if ok then Bucket(TokensAt(cfg, old(limiter.Value()), now) - 1.0, now)
              else old(limiter.Value())
      ensures State() == old(State())[ip := limiter.Value()]
    {
      ok := limiter.Allow(now);
      assert forall k | k in limits && k != ip :: limits[k].Value() == old(State())[k];
    }

    method SweepOne(ip: string, now: real)
      requires Valid() && ip in limits
      modifies `limits
      ensures Valid() && State() == AfterSweep(cfg, old(State()), ip, now)
      ensures ip in limits <==> TokensAt(cfg, old(State())[ip], now) < cfg.burst as real
      ensures old(limits).Keys - {ip} <= limits.Keys <= old(limits).Keys
    {
      if TokensAt(cfg, limits[ip].Value(), now) >= cfg.burst as real {
        limits := limits - {ip};
      }
    }

    /** One cleanup pass: it looks at the addresses in no particular order, reading the clock for each. `order` says
        in which order; the pass is the sequence of those sweeps. */
    method CleanUpVisitors(clock: seq<real>) returns (ghost order: seq<string>)
      requires Valid() && |clock| == |limits|
      modifies `limits
      ensures Valid() && |order| == |clock| && (forall ip :: ip in order <==> ip in old(limits))
      ensures State() == Swept(cfg, old(State()), order, clock)
      ensures forall i | 0 <= i < |order| ::
                order[i] in limits <==> TokensAt(cfg, old(State())[order[i]], clock[i]) < cfg.burst as real
    {
      order := [];
      var todo := limits.Keys;
      var i := 0;
      while todo != {}
        invariant Valid() && todo <= limits.Keys
        invariant i == |order| && i + |todo| == |clock|
        invariant forall ip :: ip in order <==> ip in old(limits) && ip !in todo
        invariant Distinct(order)
        invariant State() == Swept(cfg, old(State()), order, clock[..i])
        decreases todo
      {
        var ip :| ip in todo;
        SweptMore(cfg, old(State()), order, clock, ip);
        SweepOne(ip, clock[i]);
        order := order + [ip];
        todo := todo - {ip};
        i := i + 1;
      }
      assert clock[..i] == clock;
      forall j | 0 <= j < |order|
        ensures order[j] in limits <==> TokensAt(cfg, old(State())[order[j]], clock[j]) < cfg.burst as real
      {
        SweptExactly(cfg, old(State()), order, clock, j);
        assert order[j] in limits <==> order[j] in State();
      }
    }
  }

  predicate Distinct(order: seq<string>) {
    forall i, j | 0 <= i < j < |order| :: order[i] != order[j]
  }

  /** A pass deletes an address's bucket exactly if the bucket is full at the moment the pass looks at it. */
  lemma {:induction false} SweptExactly(cfg: Config, m: Limits, order: seq<string>, clock: seq<real>, i: nat)
    requires |order| == |clock| && Distinct(order) && i < |order| && order[i] in m
    ensures order[i] in Swept(cfg, m, order, clock) <==> TokensAt(cfg, m[order[i]], clock[i]) < cfg.burst as real
  {
    var n := |order| - 1;
    if i < n {
      SweptExactly(cfg, m, order[..n], clock[..n], i);
    } else {
      UnsweptStays(cfg, m, order[..n], clock[..n], order[n]);
    }
  }

  lemma {:induction false} UnsweptStays(cfg: Config, m: Limits, order: seq<string>, clock: seq<real>, ip: string)
    requires |order| == |clock| && ip !in order && ip in m
    ensures ip in Swept(cfg, m, order, clock) && Swept(cfg, m, order, clock)[ip] == m[ip]
  {
    if order != [] {
      UnsweptStays(cfg, m, order[..|order| - 1], clock[..|order| - 1], ip);
    }
  }

  lemma SweptMore(cfg: Config, m: Limits, order: seq<string>, clock: seq<real>, ip: string)
    requires |order| < |clock|
    ensures Swept(cfg, m, order + [ip], clock[..|order| + 1]) ==
            AfterSweep(cfg, Swept(cfg, m, order, clock[..|order|]), ip, clock[|order|])
  {
    var n := |order|;
    assert (order + [ip])[..n] == order && clock[..n + 1][..n] == clock[..n];
  }

  /** Sweeping the addresses of `order` in turn, at the times of `clock`. */
  function Swept(cfg: Config, m: Limits, order: seq<string>, clock: seq<real>): Limits
    requires |order| == |clock|
  {
    if order == [] then m
    else
      var before := Swept(cfg, m, order[..|order| - 1], clock[..|clock| - 1]);
      AfterSweep(cfg, before, order[|order| - 1], clock[|clock| - 1])
  }
}
