/** The heartbeat of one open connection: pings every pingPeriod from the writer, and two sixty-second limits that
    each pong renews, the read deadline (gateway/ws/ws_conn.go) and the online key in Redis
    (gateway/ws/ws_server.go, store/user_redis.go). Times are seconds since the writer made its ticker. */
module Heartbeat {
  const PONG_WAIT: real := 60.0
  const PING_PERIOD: real := PONG_WAIT * 9.0 / 10.0
  const ONLINE_TTL: real := 60.0

  /** unanswered is the tick of the oldest ping without a pong. */
  datatype Unanswered = Nothing | Since(tick: real)
  datatype State = State(now: real, deadline: real, keyExpiry: real, tick: real, unanswered: Unanswered)

  datatype Label = Wait(until: real) | Ping | Pong

  /** Reader, writer and onConnect have all begun before the first tick, the reader and onConnect at most skew
      seconds before the ticker was made. */
  predicate Begun(skew: real, s: State) {
    && 0.0 <= s.now < PING_PERIOD
    && -skew <= s.deadline - PONG_WAIT <= s.now
    && -skew <= s.keyExpiry - ONLINE_TTL <= s.now
    && s.tick == PING_PERIOD && s.unanswered == Nothing
  }

  /** d bounds how long after its tick a ping's pong may take, the time to write the ping included. */
  predicate Enabled(d: real, s: State, l: Label) {
    match l
    case Wait(t) => s.now <= t <= s.tick && (s.unanswered.Since? ==> t < s.unanswered.tick + d)
    case Ping => s.now == s.tick
    case Pong => s.unanswered.Since?
  }

  function Next(s: State, l: Label): State {
    match l
    case Wait(t) => s.(now := t)
    case Ping =>
      s.(tick := s.tick + PING_PERIOD, unanswered := if s.unanswered.Since? then s.unanswered else Since(s.tick))
    case Pong => s.(deadline := s.now + PONG_WAIT, keyExpiry := s.now + ONLINE_TTL, unanswered := Nothing)
  }

  ghost predicate ValidRun(d: real, s: State, r: seq<Label>)
    decreases |r|
  {
    r == [] || (Enabled(d, s, r[0]) && ValidRun(d, Next(s, r[0]), r[1..]))
  }

  function After(s: State, r: seq<Label>): State
    decreases |r|
  {
    if r == [] then s else After(Next(s, r[0]), r[1..])
  }

  predicate Lapsed(s: State) { s.now >= s.deadline || s.now >= s.keyExpiry }

  ghost predicate NeverLapses(d: real, skew: real) {
    forall s, r :: Begun(skew, s) && ValidRun(d, s, r) ==> !Lapsed(After(s, r))
  }

  /** Both limits reach past the moment the next pong is due at the latest. */
  ghost predicate Ahead(d: real, s: State) {
    && s.now <= s.tick
    && match s.unanswered
       case Nothing => s.tick + d <= s.deadline && s.tick + d <= s.keyExpiry
       case Since(t) =>
         s.now < t + d <= s.deadline && t + d <= s.keyExpiry && t <= s.now && s.tick == t + PING_PERIOD
  }

  lemma AheadStep(d: real, s: State, l: Label)
    requires 0.0 < d <= 6.0 && Ahead(d, s) && Enabled(d, s, l)
    ensures Ahead(d, Next(s, l))
  {
  }

  lemma {:induction false} AheadRun(d: real, s: State, r: seq<Label>)
    requires 0.0 < d <= 6.0 && Ahead(d, s) && ValidRun(d, s, r)
    ensures !Lapsed(After(s, r))
    decreases |r|
  {
    if r != [] {
      AheadStep(d, s, r[0]);
      AheadRun(d, Next(s, r[0]), r[1..]);
    }
  }

  /** A run in which a limit passes before the first pong comes. */
  lemma LapseReached(d: real, skew: real) returns (s: State, r: seq<Label>)
    requires 0.0 < d && 0.0 <= skew && d + skew > 6.0
    ensures Begun(skew, s) && ValidRun(d, s, r) && Lapsed(After(s, r))
  {
    s := State(0.0, PONG_WAIT - skew, ONLINE_TTL - skew, PING_PERIOD, Nothing);
    var due := if skew <= 6.0 then PONG_WAIT - skew else PING_PERIOD;
    r := [Wait(PING_PERIOD), Ping, Wait(due)];
    var s1 := Next(s, Wait(PING_PERIOD));
    var s2 := Next(s1, Ping);
    assert [Wait(due)][1..] == [] && [Ping, Wait(due)][1..] == [Wait(due)] && r[1..] == [Ping, Wait(due)];
    var s3 := Next(s2, Wait(due));
    assert After(s3, []) == s3 && After(s2, [Wait(due)]) == After(s3, []);
    assert ValidRun(d, s2, [Wait(due)]);
    assert ValidRun(d, s1, [Ping, Wait(due)]) && After(s1, [Ping, Wait(due)]) == s3;
  }

  /** Over runs of any length, an open connection keeps its read deadline and its online key exactly when the six
      seconds between pingPeriod and pongWait cover the slowest pong and the ticker's late start together. With the
      three started at once that is a pong delay in [0, 6). */
  lemma HeartbeatExactlyWhen(d: real, skew: real)
    requires 0.0 < d && 0.0 <= skew
    ensures NeverLapses(d, skew) <==> d + skew <= 6.0
  {
    if d + skew <= 6.0 {
      forall s, r | Begun(skew, s) && ValidRun(d, s, r)
        ensures !Lapsed(After(s, r))
      {
        AheadRun(d, s, r);
      }
    } else {
      var s, r := LapseReached(d, skew);
    }
  }

  /** With no pong after s, where one has just come, both limits stand until sixty seconds have passed and neither
      stands any longer, however many pings went out. */
  lemma {:induction false} SilenceLapses(d: real, s: State, since: real, r: seq<Label>)
    requires s.deadline == since + PONG_WAIT && s.keyExpiry == since + ONLINE_TTL
    requires ValidRun(d, s, r) && Pong !in r
    ensures var e := After(s, r);
      && (e.now >= e.deadline <==> e.now >= since + 60.0)
      && (e.now >= e.keyExpiry <==> e.now >= since + 60.0)
    decreases |r|
  {
    if r != [] {
      assert r[0] != Pong;
      SilenceLapses(d, Next(s, r[0]), since, r[1..]);
    }
  }
}
