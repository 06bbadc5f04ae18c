/** The proof-of-work store: nonces that are checked under one lock and consumed under another, the tokens issued
    for them, and the cleanup of both. Times are in nanoseconds. */
module ProofOfWork {
  import opened ChatTypes

  const NONCE_EXPIRY := 300_000_000_000
  const TOKEN_DURATION := 30_000_000_000

  type CallId = nat

  /** `calls` holds the calls of ValidateProof that have passed the check and not yet consumed their nonce. */
  datatype Store = Store(nonces: map<string, int>, tokens: map<string, int>, calls: map<CallId, string>)

  /** `nonce` and `token` are random UUIDs; `meets` says whether the hash has the zeros it needs. */
  datatype Event =
    | Generate(nonce: string, now: int)
    | Check(call: CallId, nonce: string, meets: bool, now: int)
    | Consume(call: CallId, token: string, now: int)
    | Clean(now: int)

  /** Which of the two maps the cleanup passes prune; the server prunes both. */
  datatype Pruning = Pruning(nonces: bool, tokens: bool)

  const PRUNE_ALL := Pruning(true, true)
  const KEEP_NONCES := Pruning(false, true)
  const KEEP_TOKENS := Pruning(true, false)

  function Unexpired(m: map<string, int>, now: int): map<string, int> {
    map k | k in m && !(now > m[k]) :: m[k]
  }

  predicate Passes(s: Store, nonce: string, meets: bool, now: int) {
    nonce in s.nonces && !(now > s.nonces[nonce]) && meets
  }

  /** Whether consuming succeeds, and a token is issued. */
  predicate Succeeds(s: Store, call: CallId) {
    call in s.calls && s.calls[call] in s.nonces
  }

  function Next(prune: Pruning, s: Store, e: Event): Store {
    match e
    case Generate(nonce, now) => s.(nonces := s.nonces[nonce := now + NONCE_EXPIRY])
    case Check(call, nonce, meets, now) =>
        if Passes(s, nonce, meets, now) then s.(calls := s.calls[call := nonce]) else s
    case Consume(call, token, now) =>
      if !Succeeds(s, call) then s.(calls := s.calls - {call})
      else Store(s.nonces - {s.calls[call]}, s.tokens[token := now + TOKEN_DURATION], s.calls - {call})
    case Clean(now) =>
      s.(nonces := if prune.nonces then Unexpired(s.nonces, now) else s.nonces,
         tokens := if prune.tokens then Unexpired(s.tokens, now) else s.tokens)
  }

  /** The answer of CheckProofToken to a request that carries `token`. */
  predicate Valid(s: Store, token: string, now: int) {
    token != "" && token in s.tokens && !(now > s.tokens[token])
  }

  // ----- runs -----

  /** Every nonce generated, every token issued with the nonce it was issued for, every nonce removed by cleanup. */
  datatype Ledger = Ledger(generated: set<string>, issued: map<string, string>, cleaned: set<string>)

  datatype World = World(store: Store, ledger: Ledger)

  const START := World(Store(map[], map[], map[]), Ledger({}, map[], {}))

  /** UUIDs do not repeat, and a call is identified by a number no other call in flight has. */
  predicate Enabled(w: World, e: Event) {
    match e
    case Generate(nonce, now) => nonce !in w.ledger.generated
    case Check(call, nonce, meets, now) => call !in w.store.calls
    case Consume(call, token, now) => call in w.store.calls && token !in w.ledger.issued
    case Clean(now) => true
  }

  function Step(prune: Pruning, w: World, e: Event): World {
    var s, l := w.store, w.ledger;
    World(Next(prune, s, e),
      match e
      case Generate(nonce, now) => l.(generated := l.generated + {nonce})
      case Check(call, nonce, meets, now) => l
      case Consume(call, token, now) => if Succeeds(s, call) then l.(issued := l.issued[token := s.calls[call]]) else l
      case Clean(now) => l.(cleaned := l.cleaned + (s.nonces.Keys - Next(prune, s, e).nonces.Keys)))
  }

  predicate AllEnabled(prune: Pruning, w: World, es: seq<Event>)
    decreases |es|
  {
    es == [] || (Enabled(w, es[0]) && AllEnabled(prune, Step(prune, w, es[0]), es[1..]))
  }

  function Run(prune: Pruning, w: World, es: seq<Event>): World
    decreases |es|
  {
    if es == [] then w else Run(prune, Step(prune, w, es[0]), es[1..])
  }

  // ----- conservation and single use -----

  ghost predicate OneTokenPerNonce(l: Ledger) {
    forall t, u | t in l.issued && u in l.issued && l.issued[t] == l.issued[u] :: t == u
  }

  /** `all` falls into three parts that have nothing in common. */
  ghost predicate Parts(all: set<string>, live: set<string>, used: set<string>, cleaned: set<string>) {
    all == live + used + cleaned && live !! used && live !! cleaned && used !! cleaned
  }

  /** Every nonce ever generated is live, or was turned into a token, or was removed by cleanup; never two of these. */
  ghost predicate Conserved(w: World) {
    Parts(w.ledger.generated, w.store.nonces.Keys, w.ledger.issued.Values, w.ledger.cleaned)
        && OneTokenPerNonce(w.ledger)
  }

  lemma PartsAddUp(all: set<string>, live: set<string>, used: set<string>, cleaned: set<string>)
    requires Parts(all, live, used, cleaned)
    ensures |all| == |live| + |used| + |cleaned|
  {
    assert |live + used| == |live| + |used|;
  }

  lemma ValuesAfter(issued: map<string, string>, token: string, nonce: string)
    requires token !in issued
    ensures issued[token := nonce].Values == issued.Values + {nonce}
  {
    var after := issued[token := nonce];
    assert after[token] == nonce;
    forall t | t in issued ensures t in after && after[t] == issued[t] {
    }
  }

  lemma RestApart(issued: map<string, string>, token: string)
    requires token in issued && forall t, u | t in issued && u in issued && issued[t] == issued[u] :: t == u
    ensures var rest := issued - {token};
            && issued.Values == rest.Values + {issued[token]} && issued[token] !in rest.Values && |rest| == |issued| - 1
  {
    var rest := issued - {token};
    assert rest.Keys == issued.Keys - {token};
    assert rest[token := issued[token]] == issued;
    ValuesAfter(rest, token, issued[token]);
  }

  lemma {:induction false} OneEach(issued: map<string, string>)
    requires forall t, u | t in issued && u in issued && issued[t] == issued[u] :: t == u
    ensures |issued.Values| == |issued|
    decreases |issued|
  {
    if issued != map[] {
      var token :| token in issued;
      RestApart(issued, token);
      OneEach(issued - {token});
    } else {
      assert issued.Values == {};
    }
  }

  lemma ConsumeKeeps(prune: Pruning, w: World, e: Event)
    requires Conserved(w) && Enabled(w, e) && e.Consume? && Succeeds(w.store, e.call)
    ensures Conserved(Step(prune, w, e))
  {
    var nonce, live := w.store.calls[e.call], w.store.nonces;
    assert (live - {nonce}).Keys == live.Keys - {nonce};
    ValuesAfter(w.ledger.issued, e.token, nonce);
    forall t | t in w.ledger.issued ensures w.ledger.issued[t] != nonce {
      assert w.ledger.issued[t] in w.ledger.issued.Values;
    }
  }

  lemma CleanKeeps(prune: Pruning, w: World, e: Event)
    requires Conserved(w) && e.Clean?
    ensures Conserved(Step(prune, w, e))
  {
    var live, live' := w.store.nonces, Step(prune, w, e).store.nonces;
    assert live'.Keys <= live.Keys;
  }

  lemma GenerateKeeps(prune: Pruning, w: World, e: Event)
    requires Conserved(w) && Enabled(w, e) && e.Generate?
    ensures Conserved(Step(prune, w, e))
  {
    assert Step(prune, w, e).store.nonces.Keys == w.store.nonces.Keys + {e.nonce};
  }

  lemma StepConserves(prune: Pruning, w: World, e: Event)
    requires Conserved(w) && Enabled(w, e)
    ensures Conserved(Step(prune, w, e))
  {
    match e
    case Generate(nonce, now) => GenerateKeeps(prune, w, e);
    case Consume(call, token, now) => if Succeeds(w.store, call) { ConsumeKeeps(prune, w, e); }
    case Clean(now) => CleanKeeps(prune, w, e);
    case _ =>
  }

  lemma {:induction false} RunConserves(prune: Pruning, w: World, es: seq<Event>)
    requires Conserved(w) && AllEnabled(prune, w, es)
    ensures Conserved(Run(prune, w, es))
    decreases |es|
  {
    if es != [] {
      StepConserves(prune, w, es[0]);
      RunConserves(prune, Step(prune, w, es[0]), es[1..]);
    }
  }

  /** Single use and conservation, under every interleaving of any number of calls with generation and cleanup. */
  lemma NoncesAreConserved(es: seq<Event>)
    requires AllEnabled(PRUNE_ALL, START, es)
    ensures var w := Run(PRUNE_ALL, START, es);
            && (forall t, u | t in w.ledger.issued && u in w.ledger.issued
                && w.ledger.issued[t] == w.ledger.issued[u] :: t == u)
            && |w.ledger.generated| == |w.store.nonces| + |w.ledger.issued| + |w.ledger.cleaned|
            && w.ledger.generated == w.store.nonces.Keys + w.ledger.issued.Values + w.ledger.cleaned
  {
    RunConserves(PRUNE_ALL, START, es);
    var w := Run(PRUNE_ALL, START, es);
    PartsAddUp(w.ledger.generated, w.store.nonces.Keys, w.ledger.issued.Values, w.ledger.cleaned);
    OneEach(w.ledger.issued);
  }

  // ----- what cleanup can and cannot be seen by -----

  predicate Ordered(es: seq<Event>) {
    forall i, j | 0 <= i < j < |es| :: es[i].now <= es[j].now
  }

  /** The stores of two runs that differ in tokens long expired only. */
  ghost predicate AgreeOnTokens(a: Store, b: Store, now: int) {
    && (forall token | token in a.tokens :: token in b.tokens && b.tokens[token] == a.tokens[token])
    && (forall token | token in b.tokens && token !in a.tokens :: b.tokens[token] < now)
    && a.nonces == b.nonces && a.calls == b.calls
  }

  lemma AgreeStep(a: Store, b: Store, e: Event, now: int)
    requires AgreeOnTokens(a, b, now) && now <= e.now
    ensures AgreeOnTokens(Next(PRUNE_ALL, a, e), Next(KEEP_TOKENS, b, e), e.now)
  {
  }

  lemma {:induction false} AgreeRun(a: World, b: World, es: seq<Event>, now: int)
    requires AgreeOnTokens(a.store, b.store, now) && Ordered(es) && (es != [] ==> now <= es[0].now)
    ensures AgreeOnTokens(Run(PRUNE_ALL, a, es).store, Run(KEEP_TOKENS, b, es).store, if es == [] then now
            else es[|es| - 1].now)
    decreases |es|
  {
    if es != [] {
      AgreeStep(a.store, b.store, es[0], now);
      AgreeRun(Step(PRUNE_ALL, a, es[0]), Step(KEEP_TOKENS, b, es[0]), es[1..], es[0].now);
    }
  }

  /** Pruning tokens is invisible: at every moment every token check answers as if tokens were never pruned. */
  lemma TokenCleanupIsInvisible(es: seq<Event>, token: string, now: int)
    requires Ordered(es) && (es != [] ==> es[|es| - 1].now <= now)
    ensures Valid(Run(PRUNE_ALL, START, es).store, token, now) <==> Valid(Run(KEEP_TOKENS, START, es).store, token, now)
  {
    AgreeRun(START, START, es, if es == [] then now else es[0].now);
  }

  // ----- pruning nonces -----

  /** A cleanup pass overtakes a call when it prunes a nonce that the call has checked and not yet consumed. */
  predicate Overtakes(s: Store, call: CallId, now: int) {
    Succeeds(s, call) && now > s.nonces[s.calls[call]]
  }

  /** The one way in which pruning nonces can be seen: the next consume differs exactly when it was overtaken. */
  lemma PruningSeenByConsume(s: Store, call: CallId, now: int)
    ensures Succeeds(Next(PRUNE_ALL, s, Clean(now)), call) != Succeeds(s, call) <==> Overtakes(s, call, now)
  {
  }

  /** It does happen: a proof found just in time is refused because the cleanup pass came in between. */
  lemma PruningCanBeSeen()
    ensures var es := [Generate("n", 0), Check(0, "n", true, NONCE_EXPIRY), Clean(NONCE_EXPIRY + 1)];
            && AllEnabled(PRUNE_ALL, START, es)
            && !Succeeds(Run(PRUNE_ALL, START, es).store, 0)
            && Succeeds(Run(KEEP_NONCES, START, es).store, 0)
  {
    var es := [Generate("n", 0), Check(0, "n", true, NONCE_EXPIRY), Clean(NONCE_EXPIRY + 1)];
    assert es[1..] == [es[1], es[2]] && es[1..][1..] == [es[2]] && es[1..][1..][1..] == [];
    var w1 := Step(PRUNE_ALL, START, es[0]);
    var w2 := Step(PRUNE_ALL, w1, es[1]);
    assert w2.store.calls == map[0 := "n"];
    assert Run(PRUNE_ALL, w2, [es[2]]) == Step(PRUNE_ALL, w2, es[2]);
    assert AllEnabled(PRUNE_ALL, w2, [es[2]]);
    assert AllEnabled(PRUNE_ALL, w1, es[1..]);
    var v1 := Step(KEEP_NONCES, START, es[0]);
    var v2 := Step(KEEP_NONCES, v1, es[1]);
    assert Run(KEEP_NONCES, v2, [es[2]]) == Step(KEEP_NONCES, v2, es[2]);
  }

  /** No pass of the run overtakes a call. */
  predicate NeverOvertakes(s: Store, es: seq<Event>)
    decreases |es|
  {
    es != [] ==>
      && (es[0].Clean? ==> forall call | call in s.calls :: !Overtakes(s, call, es[0].now))
      && NeverOvertakes(Next(PRUNE_ALL, s, es[0]), es[1..])
  }

  /** The stores of two runs that differ in expired nonces only, none of them held by a call. */
  ghost predicate AgreeOnNonces(a: Store, b: Store, now: int) {
    && (forall nonce | nonce in a.nonces :: nonce in b.nonces && b.nonces[nonce] == a.nonces[nonce])
    && (forall nonce | nonce in b.nonces && nonce !in a.nonces :: b.nonces[nonce] < now && nonce !in a.calls.Values)
    && a.tokens == b.tokens && a.calls == b.calls
  }

  lemma AgreeOnNoncesStep(a: Store, b: Store, e: Event, now: int)
    requires AgreeOnNonces(a, b, now) && now <= e.now
    requires e.Clean? ==> forall call | call in a.calls :: !Overtakes(a, call, e.now)
    ensures AgreeOnNonces(Next(PRUNE_ALL, a, e), Next(KEEP_NONCES, b, e), e.now)
    ensures e.Check? ==> (Passes(a, e.nonce, e.meets, e.now) <==> Passes(b, e.nonce, e.meets, e.now))
    ensures e.Consume? ==> (Succeeds(a, e.call) <==> Succeeds(b, e.call))
  {
  }

  lemma {:induction false} AgreeOnNoncesRun(a: World, b: World, es: seq<Event>, now: int)
    requires AgreeOnNonces(a.store, b.store, now) && a.ledger.issued == b.ledger.issued
    requires Ordered(es) && (es != [] ==> now <= es[0].now) && NeverOvertakes(a.store, es)
    ensures Run(PRUNE_ALL, a, es).ledger.issued == Run(KEEP_NONCES, b, es).ledger.issued
    ensures AgreeOnNonces(Run(PRUNE_ALL, a, es).store, Run(KEEP_NONCES, b, es).store, if es == [] then now
            else es[|es| - 1].now)
    decreases |es|
  {
    if es != [] {
      AgreeOnNoncesStep(a.store, b.store, es[0], now);
      AgreeOnNoncesRun(Step(PRUNE_ALL, a, es[0]), Step(KEEP_NONCES, b, es[0]), es[1..], es[0].now);
    }
  }

  /** At every moment of the run, every call would fare alike with and without the pruning of nonces. */
  ghost predicate SameOutcomes(es: seq<Event>) {
    forall k, call | 0 <= k <= |es| ::
      Succeeds(Run(PRUNE_ALL, START, es[..k]).store, call) <==> Succeeds(Run(KEEP_NONCES, START, es[..k]).store, call)
  }

  lemma RunFirst(prune: Pruning, w: World, es: seq<Event>, k: nat)
    requires 0 < k <= |es|
    ensures Run(prune, w, es[..k]) == Run(prune, Step(prune, w, es[0]), es[1..][..k - 1])
  {
    assert es[..k][0] == es[0] && es[..k][1..] == es[1..][..k - 1];
  }

  lemma {:induction false} NeverOvertakesPrefix(s: Store, es: seq<Event>, k: nat)
    requires NeverOvertakes(s, es) && k <= |es|
    ensures NeverOvertakes(s, es[..k])
    decreases |es|
  {
    if k > 0 {
      NeverOvertakesPrefix(Next(PRUNE_ALL, s, es[0]), es[1..], k - 1);
      assert es[..k][0] == es[0] && es[..k][1..] == es[1..][..k - 1];
    }
  }

  /** The first pass that overtakes a call makes that call fail which would have succeeded without it. */
  lemma {:induction false} OvertakenShows(a: World, b: World, es: seq<Event>, now: int) returns (k: nat, call: CallId)
    requires AgreeOnNonces(a.store, b.store, now) && Ordered(es) && (es != [] ==> now <= es[0].now)
    requires !NeverOvertakes(a.store, es)
    ensures k <= |es| && !Succeeds(Run(PRUNE_ALL, a, es[..k]).store, call)
    ensures Succeeds(Run(KEEP_NONCES, b, es[..k]).store, call)
    decreases |es|
  {
    var a', b' := Step(PRUNE_ALL, a, es[0]), Step(KEEP_NONCES, b, es[0]);
    if c :| es[0].Clean? && c in a.store.calls && Overtakes(a.store, c, es[0].now) {
      k, call := 1, c;
      PruningSeenByConsume(a.store, c, es[0].now);
    } else {
      AgreeOnNoncesStep(a.store, b.store, es[0], now);
      k, call := OvertakenShows(a', b', es[1..], es[0].now);
      k := k + 1;
    }
    RunFirst(PRUNE_ALL, a, es, k);
    RunFirst(KEEP_NONCES, b, es, k);
  }

  /** The pruning of nonces goes unnoticed in a run, by every call at every moment of it, if and only if no pass
      overtakes a call; and then the same tokens are issued for the same nonces. */
  lemma NonceCleanupIsInvisible(es: seq<Event>)
    requires Ordered(es)
    ensures SameOutcomes(es) <==> NeverOvertakes(START.store, es)
    ensures NeverOvertakes(START.store, es) ==>
            Run(PRUNE_ALL, START, es).ledger.issued == Run(KEEP_NONCES, START, es).ledger.issued
  {
    var begin := if es == [] then 0 else es[0].now;
    if NeverOvertakes(START.store, es) {
      AgreeOnNoncesRun(START, START, es, begin);
      forall k, call | 0 <= k <= |es|
        ensures Succeeds(Run(PRUNE_ALL, START, es[..k]).store, call) <==>
                Succeeds(Run(KEEP_NONCES, START, es[..k]).store, call)
      {
        NeverOvertakesPrefix(START.store, es, k);
        AgreeOnNoncesRun(START, START, es[..k], begin);
      }
    } else {
      var k, call := OvertakenShows(START, START, es, begin);
    }
  }

  // ----- what no pass can change -----

  /** The stores of two runs, one behind the other by expired nonces only. */
  ghost predicate Lags(a: Store, b: Store, now: int) {
    && (forall nonce | nonce in a.nonces :: nonce in b.nonces && b.nonces[nonce] == a.nonces[nonce])
    && (forall nonce | nonce in b.nonces && nonce !in a.nonces :: b.nonces[nonce] < now)
    && a.calls == b.calls
  }

  lemma LagsStep(a: Store, b: Store, e: Event, now: int)
    requires Lags(a, b, now) && now <= e.now
    ensures Lags(Next(PRUNE_ALL, a, e), Next(KEEP_NONCES, b, e), e.now)
  {
    if e.Check? {
      assert Passes(a, e.nonce, e.meets, e.now) <==> Passes(b, e.nonce, e.meets, e.now);
    }
  }

  lemma {:induction false} LagsRun(a: World, b: World, es: seq<Event>, now: int)
    requires Lags(a.store, b.store, now) && Ordered(es) && (es != [] ==> now <= es[0].now)
    ensures Lags(Run(PRUNE_ALL, a, es).store, Run(KEEP_NONCES, b, es).store, if es == [] then now else es[|es| - 1].now)
    decreases |es|
  {
    if es != [] {
      LagsStep(a.store, b.store, es[0], now);
      LagsRun(Step(PRUNE_ALL, a, es[0]), Step(KEEP_NONCES, b, es[0]), es[1..], es[0].now);
    }
  }

  /** In every run, overtaken calls or not, the check of a proof answers as if nonces were never pruned. */
  lemma ChecksNeverNotice(es: seq<Event>, nonce: string, meets: bool, now: int)
    requires Ordered(es) && (es != [] ==> es[|es| - 1].now <= now)
    ensures Passes(Run(PRUNE_ALL, START, es).store, nonce, meets, now) <==>
            Passes(Run(KEEP_NONCES, START, es).store, nonce, meets, now)
  {
    LagsRun(START, START, es, if es == [] then 0 else es[0].now);
  }

  /** Nonce `n`, generated at time `g`: while live it expires when it should, and it is cleaned up only after that. */
  predicate Dated(w: World, n: string, g: int, now: int) {
    && n in w.ledger.generated
    && (n in w.store.nonces ==> w.store.nonces[n] == g + NONCE_EXPIRY)
    && (n in w.ledger.cleaned ==> g + NONCE_EXPIRY < now)
  }

  lemma DatedStep(w: World, e: Event, n: string, g: int, now: int)
    requires Dated(w, n, g, now) && Enabled(w, e) && now <= e.now
    ensures Dated(Step(PRUNE_ALL, w, e), n, g, e.now)
  {
  }

  lemma {:induction false} DatedRun(w: World, es: seq<Event>, n: string, g: int, now: int)
    requires Dated(w, n, g, now) && AllEnabled(PRUNE_ALL, w, es) && Ordered(es) && (es != [] ==> now <= es[0].now)
    ensures Dated(Run(PRUNE_ALL, w, es), n, g, if es == [] then now else es[|es| - 1].now)
    decreases |es|
  {
    if es != [] {
      DatedStep(w, es[0], n, g, now);
      DatedRun(Step(PRUNE_ALL, w, es[0]), es[1..], n, g, es[0].now);
    }
  }

  lemma {:induction false} DatedSince(w: World, es: seq<Event>, i: nat)
    requires Conserved(w) && AllEnabled(PRUNE_ALL, w, es) && Ordered(es) && i < |es| && es[i].Generate?
    ensures Dated(Run(PRUNE_ALL, w, es), es[i].nonce, es[i].now, es[|es| - 1].now)
    decreases |es|
  {
    StepConserves(PRUNE_ALL, w, es[0]);
    var w' := Step(PRUNE_ALL, w, es[0]);
    if i == 0 {
      DatedRun(w', es[1..], es[0].nonce, es[0].now, es[0].now);
    } else {
      DatedSince(w', es[1..], i - 1);
    }
  }

  /** What a caller can count on: a call that consumes no later than five minutes after its nonce was generated is
      refused only if the nonce has already been turned into a token, whatever passes came in between. */
  lemma PromptProofCounts(es: seq<Event>, i: nat, call: CallId, now: int)
    requires AllEnabled(PRUNE_ALL, START, es) && Ordered(es) && i < |es| && es[i].Generate?
    requires es[|es| - 1].now <= now <= es[i].now + NONCE_EXPIRY
    requires var w := Run(PRUNE_ALL, START, es);
             call in w.store.calls && w.store.calls[call] == es[i].nonce
    ensures var w := Run(PRUNE_ALL, START, es);
            Succeeds(w.store, call) <==> es[i].nonce !in w.ledger.issued.Values
  {
    RunConserves(PRUNE_ALL, START, es);
    DatedSince(START, es, i);
  }

  // ----- what gets a token, and what a token is good for -----

  lemma {:induction false} RunJoins(prune: Pruning, w: World, es: seq<Event>, more: seq<Event>)
    ensures Run(prune, w, es + more) == Run(prune, Run(prune, w, es), more)
    ensures AllEnabled(prune, w, es + more) <==>
            AllEnabled(prune, w, es) && AllEnabled(prune, Run(prune, w, es), more)
    decreases |es|
  {
    if es == [] {
      assert es + more == more;
    } else {
      assert (es + more)[0] == es[0] && (es + more)[1..] == es[1..] + more;
      RunJoins(prune, Step(prune, w, es[0]), es[1..], more);
    }
  }

  lemma LastStep(es: seq<Event>)
    requires es != [] && AllEnabled(PRUNE_ALL, START, es)
    ensures var n := |es| - 1;
            && AllEnabled(PRUNE_ALL, START, es[..n]) && Enabled(Run(PRUNE_ALL, START, es[..n]), es[n])
            && Run(PRUNE_ALL, START, es) == Step(PRUNE_ALL, Run(PRUNE_ALL, START, es[..n]), es[n])
  {
    var n := |es| - 1;
    assert es == es[..n] + [es[n]];
    RunJoins(PRUNE_ALL, START, es[..n], [es[n]]);
    assert [es[n]][1..] == [];
  }

  /** When the check passes, over whole runs: for a proof good enough, made no later than five minutes after its nonce
      was generated, of a nonce that is not used up. */
  lemma ChecksPassExactly(es: seq<Event>, i: nat, meets: bool, now: int)
    requires AllEnabled(PRUNE_ALL, START, es) && Ordered(es) && i < |es| && es[i].Generate? && es[|es| - 1].now <= now
    ensures var w := Run(PRUNE_ALL, START, es);
            Passes(w.store, es[i].nonce, meets, now) <==>
            meets && now <= es[i].now + NONCE_EXPIRY && es[i].nonce !in w.ledger.issued.Values
  {
    RunConserves(PRUNE_ALL, START, es);
    DatedSince(START, es, i);
  }

  /** The run holds a check of the nonce, by a proof good enough, made in time. */
  ghost predicate Proved(es: seq<Event>, nonce: string) {
    exists i, j | 0 <= i < j < |es| :: ProvedBy(es, nonce, i, j)
  }

  predicate ProvedBy(es: seq<Event>, nonce: string, i: nat, j: nat)
    requires i < |es| && j < |es|
  {
    && es[i].Generate? && es[i].nonce == nonce
    && es[j].Check? && es[j].nonce == nonce && es[j].meets && es[j].now <= es[i].now + NONCE_EXPIRY
  }

  predicate MadeBy(es: seq<Event>, nonce: string, i: nat) {
    i < |es| && es[i].Generate? && es[i].nonce == nonce
  }

  ghost predicate Made(es: seq<Event>, nonce: string) {
    exists i: nat :: MadeBy(es, nonce, i)
  }

  ghost predicate AllProved(es: seq<Event>, w: World) {
    && (forall nonce | nonce in w.ledger.generated :: Made(es, nonce))
    && (forall call | call in w.store.calls :: Proved(es, w.store.calls[call]))
    && (forall token | token in w.ledger.issued :: Proved(es, w.ledger.issued[token]))
  }

  lemma ProvedMore(es: seq<Event>, e: Event, nonce: string)
    ensures Proved(es, nonce) ==> Proved(es + [e], nonce)
    ensures Made(es, nonce) ==> Made(es + [e], nonce)
  {
    if Proved(es, nonce) {
      var i, j :| 0 <= i < j < |es| && ProvedBy(es, nonce, i, j);
      assert ProvedBy(es + [e], nonce, i, j);
    }
    if i: nat :| MadeBy(es, nonce, i) {
      assert MadeBy(es + [e], nonce, i);
    }
  }

  lemma CheckProves(es: seq<Event>, e: Event)
    requires AllEnabled(PRUNE_ALL, START, es) && Ordered(es + [e]) && e.Check?
    requires AllProved(es, Run(PRUNE_ALL, START, es))
    requires Passes(Run(PRUNE_ALL, START, es).store, e.nonce, e.meets, e.now)
    ensures Proved(es + [e], e.nonce)
  {
    var w := Run(PRUNE_ALL, START, es);
    RunConserves(PRUNE_ALL, START, es);
    assert e.nonce in w.store.nonces.Keys;
    var i: nat :| MadeBy(es, e.nonce, i);
    assert forall k | 0 <= k < |es| :: (es + [e])[k] == es[k];
    assert (es + [e])[|es|] == e && (es + [e])[|es| - 1].now <= (es + [e])[|es|].now;
    ChecksPassExactly(es, i, e.meets, e.now);
    assert ProvedBy(es + [e], e.nonce, i, |es|);
  }

  lemma StepProves(es: seq<Event>, e: Event)
    requires AllEnabled(PRUNE_ALL, START, es) && Ordered(es + [e])
    requires AllProved(es, Run(PRUNE_ALL, START, es))
    ensures AllProved(es + [e], Step(PRUNE_ALL, Run(PRUNE_ALL, START, es), e))
  {
    var w := Run(PRUNE_ALL, START, es);
    forall nonce
      ensures (Proved(es, nonce) ==> Proved(es + [e], nonce)) && (Made(es, nonce) ==> Made(es + [e], nonce))
    {
      ProvedMore(es, e, nonce);
    }
    if e.Generate? {
      assert MadeBy(es + [e], e.nonce, |es|);
    }
    if e.Check? && Passes(w.store, e.nonce, e.meets, e.now) {
      CheckProves(es, e);
    }
  }

  lemma {:induction false} RunProves(es: seq<Event>)
    requires AllEnabled(PRUNE_ALL, START, es) && Ordered(es)
    ensures AllProved(es, Run(PRUNE_ALL, START, es))
  {
    if es != [] {
      var n := |es| - 1;
      LastStep(es);
      RunProves(es[..n]);
      assert es == es[..n] + [es[n]];
      StepProves(es[..n], es[n]);
    }
  }

  /** No token without work: whatever the interleaving, for every token issued the run holds a check of its nonce by a
      proof that meets the difficulty, made no later than five minutes after the nonce was generated. */
  lemma TokensAreEarned(es: seq<Event>, token: string)
    requires AllEnabled(PRUNE_ALL, START, es) && Ordered(es) && token in Run(PRUNE_ALL, START, es).ledger.issued
    ensures var nonce := Run(PRUNE_ALL, START, es).ledger.issued[token];
            exists i, j | 0 <= i < j < |es| ::
              && es[i].Generate? && es[i].nonce == nonce
              && es[j].Check? && es[j].nonce == nonce && es[j].meets && es[j].now <= es[i].now + NONCE_EXPIRY
  {
    RunProves(es);
    var nonce := Run(PRUNE_ALL, START, es).ledger.issued[token];
    var i, j :| 0 <= i < j < |es| && ProvedBy(es, nonce, i, j);
  }

  /** A token issued at time `u`: it expires when it should, and is cleaned up only after that. */
  predicate TokenDated(w: World, token: string, u: int, now: int) {
    && token in w.ledger.issued
    && if token in w.store.tokens then w.store.tokens[token] == u + TOKEN_DURATION else u + TOKEN_DURATION < now
  }

  lemma TokenDatedStep(w: World, e: Event, token: string, u: int, now: int)
    requires TokenDated(w, token, u, now) && Enabled(w, e) && now <= e.now
    ensures TokenDated(Step(PRUNE_ALL, w, e), token, u, e.now)
  {
  }

  lemma {:induction false} TokenDatedRun(w: World, es: seq<Event>, token: string, u: int, now: int)
    requires TokenDated(w, token, u, now) && AllEnabled(PRUNE_ALL, w, es) && Ordered(es)
    requires (es != [] ==> now <= es[0].now)
    ensures TokenDated(Run(PRUNE_ALL, w, es), token, u, if es == [] then now else es[|es| - 1].now)
    decreases |es|
  {
    if es != [] {
      TokenDatedStep(w, es[0], token, u, now);
      TokenDatedRun(Step(PRUNE_ALL, w, es[0]), es[1..], token, u, es[0].now);
    }
  }

  lemma {:induction false} TokenDatedSince(w: World, es: seq<Event>, k: nat)
    requires AllEnabled(PRUNE_ALL, w, es) && Ordered(es) && k < |es|
    requires es[k].Consume? && Succeeds(Run(PRUNE_ALL, w, es[..k]).store, es[k].call)
    ensures TokenDated(Run(PRUNE_ALL, w, es), es[k].token, es[k].now, es[|es| - 1].now)
    decreases |es|
  {
    var w' := Step(PRUNE_ALL, w, es[0]);
    if k == 0 {
      TokenDatedRun(w', es[1..], es[0].token, es[0].now, es[0].now);
    } else {
      RunFirst(PRUNE_ALL, w, es, k);
      TokenDatedSince(w', es[1..], k - 1);
    }
  }

  /** What a token is good for: a token issued at time `u` is accepted at any later moment of the run exactly until
      thirty seconds have passed. */
  lemma TokensLastExactly(es: seq<Event>, k: nat, now: int)
    requires AllEnabled(PRUNE_ALL, START, es) && Ordered(es) && k < |es| && es[|es| - 1].now <= now
    requires es[k].Consume? && Succeeds(Run(PRUNE_ALL, START, es[..k]).store, es[k].call)
    ensures Valid(Run(PRUNE_ALL, START, es).store, es[k].token, now) <==>
            es[k].token != "" && now <= es[k].now + TOKEN_DURATION
  {
    TokenDatedSince(START, es, k);
  }

  predicate TokensIssued(w: World) {
    forall token | token in w.store.tokens :: token in w.ledger.issued
  }

  lemma {:induction false} TokensIssuedRun(w: World, es: seq<Event>)
    requires TokensIssued(w)
    ensures TokensIssued(Run(PRUNE_ALL, w, es))
    decreases |es|
  {
    if es != [] {
      TokensIssuedRun(Step(PRUNE_ALL, w, es[0]), es[1..]);
    }
  }

  /** And nothing else is ever accepted. */
  lemma OnlyIssuedAccepted(es: seq<Event>, token: string, now: int)
    ensures Valid(Run(PRUNE_ALL, START, es).store, token, now) ==> token in Run(PRUNE_ALL, START, es).ledger.issued
  {
    TokensIssuedRun(START, es);
  }

  // ----- the store as the object the server updates in place -----

  class PoWManager {
    const difficulty: nat
    var nonceStore: map<string, int>
    var tokenStore: map<string, int>

    constructor (difficulty: nat)
      ensures this.difficulty == difficulty && nonceStore == map[] && tokenStore == map[]
    {
      this.difficulty := difficulty;
      nonceStore, tokenStore := map[], map[];
    }

    /** The store with the calls of ValidateProof now in flight. */
    ghost function State(calls: map<CallId, string>): Store
      reads this
    {
      Store(nonceStore, tokenStore, calls)
    }

    method GenerateNonce(uuid: string, now: int) returns (nonce: string)
      modifies this
      ensures nonce == uuid && nonceStore == old(nonceStore)[uuid := now + NONCE_EXPIRY]
      ensures tokenStore == old(tokenStore)
      ensures forall calls :: State(calls) == Next(PRUNE_ALL, old(State(calls)), Generate(uuid, now))
    {
      nonce := uuid;
      nonceStore := nonceStore[nonce := now + NONCE_EXPIRY];
    }

    /** The first half of ValidateProof, under the read lock; `hash` is the digest of nonce and counter in hex. */
    method CheckNonce(nonce: string, hash: string, now: int) returns (ok: bool)
      ensures ok <==> Passes(State(map[]), nonce, MeetsDifficulty(hash, difficulty), now)
      ensures ok <==>
              && nonce in nonceStore && now <= nonceStore[nonce]
              && difficulty <= |hash| && forall i | 0 <= i < difficulty :: hash[i] == '0'
    {
      if nonce !in nonceStore || now > nonceStore[nonce] {
        return false;
      }
      ok := MeetsDifficulty(hash, difficulty);
    }

    /** The second half, under the write lock. */
    method ConsumeNonce(nonce: string, uuid: string, now: int, ghost call: CallId) returns (token: Option<string>)
      modifies this
      ensures var s := old(State(map[call := nonce]));
              State(map[]) == Next(PRUNE_ALL, s, Consume(call, uuid, now)) && token == if Succeeds(s, call)
                  then Some(uuid) else None
    {
      if nonce !in nonceStore {
        return None;
      }
      nonceStore := nonceStore - {nonce};
      tokenStore := tokenStore[uuid := now + TOKEN_DURATION];
      token := Some(uuid);
    }

    /** Both halves with nothing in between: a token for a live nonce with a good hash, and the nonce is gone. */
    method ValidateProof(nonce: string, hash: string, uuid: string, checked: int, now: int)
      returns (token: Option<string>)
      modifies this
      ensures token == Some(uuid) || token == None
      ensures token.Some? <==>
              && nonce in old(nonceStore) && checked <= old(nonceStore)[nonce]
              && difficulty <= |hash| && forall i | 0 <= i < difficulty :: hash[i] == '0'
      ensures token.Some? ==> nonceStore == old(nonceStore) - {nonce}
      ensures token.Some? ==> tokenStore == old(tokenStore)[uuid := now + TOKEN_DURATION]
      ensures token.None? ==> nonceStore == old(nonceStore) && tokenStore == old(tokenStore)
    {
      var ok := CheckNonce(nonce, hash, checked);
      if !ok {
        return None;
      }
      token := ConsumeNonce(nonce, uuid, now, 0);
    }

    /** The token comes from the header, or failing that from the query. */
    method CheckProofToken(header: string, query: string, now: int) returns (ok: bool)
      ensures ok <==> Valid(State(map[]), if header != "" then header else query, now)
      ensures var token := if header != "" then header else query;
              ok <==> token != "" && token in tokenStore && now <= tokenStore[token]
    {
      var token := header;
      if token == "" {
        token := query;
      }
      if token == "" || token !in tokenStore {
        return false;
      }
      ok := !(now > tokenStore[token]);
    }

    method Prune(entries: map<string, int>, now: int) returns (left: map<string, int>)
      ensures left == Unexpired(entries, now)
    {
      left := entries;
      var todo := entries.Keys;
      while todo != {}
        invariant todo <= left.Keys
        invariant left == map k | k in entries && (k in todo || !(now > entries[k])) :: entries[k]
        decreases todo
      {
        var k :| k in todo;
        if now > entries[k] {
          left := left - {k};
        }
        todo := todo - {k};
      }
    }

    method CleanupExpiredEntries(now: int)
      modifies this
      ensures forall calls :: State(calls) == Next(PRUNE_ALL, old(State(calls)), Clean(now))
      ensures forall k :: k in nonceStore <==> k in old(nonceStore) && now <= old(nonceStore)[k]
      ensures forall k :: k in tokenStore <==> k in old(tokenStore) && now <= old(tokenStore)[k]
      ensures forall k | k in nonceStore :: nonceStore[k] == old(nonceStore)[k]
      ensures forall k | k in tokenStore :: tokenStore[k] == old(tokenStore)[k]
    {
      nonceStore := Prune(nonceStore, now);
      tokenStore := Prune(tokenStore, now);
    }
  }

  /** The hash starts with as many zeros as the difficulty asks for. */
  predicate MeetsDifficulty(hash: string, difficulty: nat) {
    difficulty <= |hash| && forall i | 0 <= i < difficulty :: hash[i] == '0'
  }
}
