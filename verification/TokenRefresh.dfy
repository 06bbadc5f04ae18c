/** Refreshing a connection's room token on the ticks of its write pump. Times are in nanoseconds. */
module TokenRefresh {

  const SECOND := 1_000_000_000
  const PING_PERIOD := 54 * SECOND
  const REFRESH_WINDOW := 120 * SECOND
  const ROOM_ACCESS := 900 * SECOND

  /** `recorded` is the expiry the connection keeps; `actual` is the one in the latest token the client was sent,
      which holds whole seconds only. */
  datatype Token = Token(recorded: int, actual: int)

  function WholeSeconds(t: int): int {
    t / SECOND * SECOND
  }

  predicate RefreshDue(t: Token, now: int) {
    now > t.recorded - REFRESH_WINDOW
  }

  /** One tick; `ok` says whether an attempt, if one is due, gets a new token into the client's channel. */
  function Tick(t: Token, now: int, ok: bool): Token {
    if RefreshDue(t, now) && ok then Token(now + ROOM_ACCESS, WholeSeconds(now + ROOM_ACCESS)) else t
  }

  /** Whether the token is still good at `at`: the token library compares whole seconds, and accepts a token through
      the second of its expiry. */
  predicate Unexpired(t: Token, at: int) {
    at / SECOND <= t.actual / SECOND
  }

  /** The latest token is unexpired at this tick and at every one that follows. */
  predicate AllUnexpired(t: Token, at: int, outcomes: seq<bool>)
    decreases |outcomes|
  {
    Unexpired(t, at) && (outcomes != [] ==> AllUnexpired(Tick(t, at, outcomes[0]), at + PING_PERIOD, outcomes[1..]))
  }

  predicate Fails(t: Token, now: int, ok: bool) {
    RefreshDue(t, now) && !ok
  }

  /** No two refresh attempts in a row fail; `failed` says that the last one did. */
  predicate NeverTwice(t: Token, at: int, failed: bool, outcomes: seq<bool>)
    decreases |outcomes|
  {
    outcomes != [] ==>
      && !(failed && Fails(t, at, outcomes[0]))
      && NeverTwice(Tick(t, at, outcomes[0]), at + PING_PERIOD, Fails(t, at, outcomes[0]), outcomes[1..])
  }

  /** What a token has in hand at a tick: it is good at the next one too, unless the last attempt failed. */
  predicate Margin(t: Token, at: int, failed: bool) {
    && t.actual > t.recorded - SECOND
    && Unexpired(t, if failed then at else at + PING_PERIOD)
    && (failed ==> RefreshDue(t, at))
  }

  lemma MarginKept(t: Token, at: int, failed: bool, ok: bool)
    requires Margin(t, at, failed) && !(failed && Fails(t, at, ok))
    ensures Unexpired(t, at) && Margin(Tick(t, at, ok), at + PING_PERIOD, Fails(t, at, ok))
  {
  }

  lemma {:induction false} MarginSuffices(t: Token, at: int, failed: bool, outcomes: seq<bool>)
    requires Margin(t, at, failed) && NeverTwice(t, at, failed, outcomes)
    ensures AllUnexpired(t, at, outcomes)
    decreases |outcomes|
  {
    if outcomes == [] {
      MarginKept(t, at, failed, true);
    } else {
      MarginKept(t, at, failed, outcomes[0]);
      MarginSuffices(Tick(t, at, outcomes[0]), at + PING_PERIOD, Fails(t, at, outcomes[0]), outcomes[1..]);
    }
  }

  /** A connection that starts at `start` with a token that expires at `expiry`, and then has these outcomes. */
  predicate Plausible(expiry: int, start: int, outcomes: seq<bool>) {
    NeverTwice(Token(expiry, expiry), start + PING_PERIOD, false, outcomes)
  }

  predicate Continuous(expiry: int, start: int, outcomes: seq<bool>) {
    AllUnexpired(Token(expiry, expiry), start + PING_PERIOD, outcomes)
  }

  /** The second tick falls in or before the second in which the token expires. */
  predicate TwoTicksCovered(expiry: int, start: int) {
    (start + 2 * PING_PERIOD) / SECOND <= expiry / SECOND
  }

  lemma MarginNeeded(expiry: int, start: int)
    requires !TwoTicksCovered(expiry, start)
    ensures Plausible(expiry, start, [false]) && !Continuous(expiry, start, [false])
  {
    assert [false][1..] == [];
  }

  /** Token continuity, with its exact condition: a connection whose token covers its second tick when it starts, and
      only such a one, holds an unexpired token at every tick, whatever attempts fail, as long as no two in a row do. */
  lemma TokenContinuity(expiry: int, start: int)
    ensures (forall outcomes | Plausible(expiry, start, outcomes) :: Continuous(expiry, start, outcomes))
            <==> TwoTicksCovered(expiry, start)
  {
    if TwoTicksCovered(expiry, start) {
      forall outcomes | Plausible(expiry, start, outcomes) ensures Continuous(expiry, start, outcomes) {
        MarginSuffices(Token(expiry, expiry), start + PING_PERIOD, false, outcomes);
      }
    } else {
      MarginNeeded(expiry, start);
    }
  }

  /** When an attempt is made: within two minutes of the recorded expiry, and not before. */
  lemma DueInWindow(t: Token, now: int)
    ensures RefreshDue(t, now) <==> t.recorded - now < REFRESH_WINDOW
  {
  }

  function TokenAfter(t: Token, at: int, outcomes: seq<bool>): Token
    decreases |outcomes|
  {
    if outcomes == [] then t else TokenAfter(Tick(t, at, outcomes[0]), at + PING_PERIOD, outcomes[1..])
  }

  /** Refreshing is sparing: a token renewed at `at` is renewed again at none of the ticks of the next thirteen
      minutes, whatever the outcomes would be. */
  lemma {:induction false} RenewedLasts(t: Token, at: int, next: int, outcomes: seq<bool>)
    requires t.recorded == at + ROOM_ACCESS
    requires next + (|outcomes| - 1) * PING_PERIOD <= at + ROOM_ACCESS - REFRESH_WINDOW
    ensures TokenAfter(t, next, outcomes) == t
    decreases |outcomes|
  {
    if outcomes != [] {
      assert Tick(t, next, outcomes[0]) == t;
      RenewedLasts(t, at, next + PING_PERIOD, outcomes[1..]);
    }
  }

  /** A renewal is recorded as lasting fifteen minutes from the tick, and the token itself ends within the second. */
  lemma RenewalRecorded(t: Token, now: int, ok: bool)
    ensures var t' := Tick(t, now, ok);
            if t.recorded - now < REFRESH_WINDOW && ok
            then t'.recorded == now + ROOM_ACCESS && t'.actual <= t'.recorded < t'.actual + SECOND
                && t'.actual % SECOND == 0
            else t' == t
  {
  }

  /** A token with the refresh window of two minutes left at the start is enough. */
  lemma WindowSuffices(expiry: int, start: int, outcomes: seq<bool>)
    requires expiry - start >= REFRESH_WINDOW && Plausible(expiry, start, outcomes)
    ensures Continuous(expiry, start, outcomes)
  {
    TokenContinuity(expiry, start);
  }
}
