/** The way of a message through Redis, one step at a time: a publish puts a copy before each subscriber loop on the
    channel, and each loop routes its copies one after the other to whoever is registered at that moment
    (service/router/redis_router.go, gateway/conn_manager.go). Sessions come and go meanwhile. */
module RedisBus {
  import opened Types
  import S = Sessions
  import R = Routing

  /** One publish, and the loops that heard it. */
  datatype Published = Published(channel: string, m: Message, heard: set<nat>)

  /** The copy of the n-th publish for one loop. */
  datatype Copy = Copy(n: nat, sub: nat)

  datatype State = State(
    sessions: S.State,
    sent: seq<Published>,
    queues: map<nat, seq<nat>>,          // for each running loop, the publishes it has not routed yet
    routed: map<Copy, Option<nat>>,      // the session each routed copy was pushed to, if any was registered
    lost: set<Copy>)                     // copies before a loop when it ended

  const INIT := State(S.INIT, [], map[], map[], {})

  datatype Label =
    | Session(l: S.Label)
    | Publish(channel: string, m: Message)
    | Route(sub: nat)

  ghost predicate Enabled(b: State, l: Label) {
    match l
    case Session(l) => S.Enabled(b.sessions, l)
    case Publish(_, _) => true
    case Route(sub) => sub in b.queues && b.queues[sub] != [] && b.queues[sub][0] < |b.sent|
  }

  /** ConnManager.Route as it finds the registry. */
  function Registered(s: S.State, m: Message): Option<nat> {
    if m.toId in s.conns then Some(s.conns[m.toId]) else None
  }

  /** The push that a copy of m came to. */
  function PushOf(session: Option<nat>, m: Message): R.Pushes {
    if session.Some? then multiset{(session.value, m)} else multiset{}
  }

  lemma RegisteredIsLocalRoute(s: S.State, m: Message)
    ensures forall at: Option<nat> :: PushOf(at, m) == R.LocalRoute(s.conns, m) <==> at == Registered(s, m)
  {
    forall at: Option<nat> ensures PushOf(at, m) == R.LocalRoute(s.conns, m) <==> at == Registered(s, m) {
      if at.Some? {
        assert (at.value, m) in PushOf(at, m);
        assert PushOf(at, m) == R.LocalRoute(s.conns, m) ==> (at.value, m) in R.LocalRoute(s.conns, m);
      }
      if m.toId in s.conns {
        assert (s.conns[m.toId], m) in R.LocalRoute(s.conns, m);
      }
    }
  }

  ghost function Next(b: State, l: Label): State
    requires Enabled(b, l)
  {
    match l
    case Session(l) =>
      var s' := S.Next(b.sessions, l);
      b.(sessions := s',
         queues := map x | x in s'.loops :: if x in b.queues then b.queues[x] else [],
         lost := b.lost + LostWith(b, s'))
    case Publish(c, m) =>
      var heard := S.LiveOf(b.sessions, c);
      b.(sent := b.sent + [Published(c, m, heard)],
         queues := map x | x in b.queues :: if x in heard then b.queues[x] + [|b.sent|] else b.queues[x])
    case Route(sub) =>
      var n := b.queues[sub][0];
      b.(queues := b.queues[sub := b.queues[sub][1..]],
         routed := b.routed[Copy(n, sub) := Registered(b.sessions, b.sent[n].m)])
  }

  /** The copies before the loops that s' no longer has. */
  ghost function LostWith(b: State, s': S.State): set<Copy> {
    set x, n | x in b.queues && x !in s'.loops && n in b.queues[x] :: Copy(n, x)
  }

  datatype Run = Start | Then(before: Run, last: Label)

  ghost predicate ValidRun(b: State, r: Run)
    decreases r, 0
  {
    r.Then? ==> ValidRun(b, r.before) && Enabled(After(b, r.before), r.last)
  }

  ghost function After(b: State, r: Run): State
    requires ValidRun(b, r)
    decreases r, 1
  {
    if r.Start? then b else Next(After(b, r.before), r.last)
  }

  // ---- what every run keeps

  ghost predicate Waits(b: State, c: Copy) { c.sub in b.queues && c.n in b.queues[c.sub] }

  function B(b: bool): nat { if b then 1 else 0 }

  /** In how many of its three situations a copy is. */
  ghost function Places(b: State, c: Copy): nat { B(Waits(b, c)) + B(c in b.routed) + B(c in b.lost) }

  ghost predicate Made(b: State, c: Copy) { c.n < |b.sent| && c.sub in b.sent[c.n].heard }

  ghost predicate Ascending(q: seq<nat>) { forall i, j :: 0 <= i < j < |q| ==> q[i] < q[j] }

  ghost predicate Listed(b: State) {
    && S.Recorded(b.sessions)
    && b.queues.Keys == b.sessions.loops.Keys
    && (forall x :: x in b.queues ==> Ascending(b.queues[x]) && forall n :: n in b.queues[x] ==> n < |b.sent|)
    && (forall n, x :: 0 <= n < |b.sent| && x in b.sent[n].heard ==> x in b.sessions.issued)
  }

  /** A copy that was made is in one place, one that was not is in none; lost copies have no loop any more, and a loop
      has routed what came before what waits. */
  ghost predicate CopyOk(b: State, c: Copy) {
    && Places(b, c) == B(Made(b, c))
    && (c in b.lost ==> c.sub !in b.sessions.loops)
  }

  ghost predicate InOrder(b: State, x: nat) {
    x in b.queues ==> forall c, n :: c in b.routed && c.sub == x && n in b.queues[x] ==> c.n < n
  }

  lemma SessionListed(b: State, l: S.Label)
    requires Listed(b) && Enabled(b, Session(l))
    ensures Listed(Next(b, Session(l)))
    ensures b.sessions.issued <= S.Next(b.sessions, l).issued
  {
    S.StepRecorded(b.sessions, l);
  }

  /** A new loop is one nobody has heard of. */
  lemma NewLoops(b: State, l: S.Label, x: nat)
    requires Listed(b) && Enabled(b, Session(l)) && x in S.Next(b.sessions, l).loops && x !in b.queues
    ensures x !in b.sessions.issued
  {
  }

  lemma SessionCopy(b: State, l: S.Label, c: Copy)
    requires Listed(b) && CopyOk(b, c) && Enabled(b, Session(l))
    ensures CopyOk(Next(b, Session(l)), c)
  {
    var b' := Next(b, Session(l));
    if c.sub in b'.sessions.loops && c.sub !in b.queues {
      NewLoops(b, l, c.sub);
      assert !Made(b, c);
    }
    assert Made(b', c) <==> Made(b, c);
  }

  lemma PublishListed(b: State, ch: string, m: Message)
    requires Listed(b)
    ensures Listed(Next(b, Publish(ch, m)))
  {
    var b' := Next(b, Publish(ch, m));
    forall x | x in b'.queues ensures Ascending(b'.queues[x]) && forall n :: n in b'.queues[x] ==> n < |b'.sent| {
      Queued(b.queues[x], |b.sent|);
    }
  }

  lemma Queued(q: seq<nat>, k: nat)
    requires Ascending(q) && forall n :: n in q ==> n < k
    ensures Ascending(q + [k]) && forall n :: n in q + [k] ==> n < k + 1
  {
    forall i, j | 0 <= i < j < |q + [k]| ensures (q + [k])[i] < (q + [k])[j] {
      assert q[i] in q;
    }
  }

  lemma PublishCopy(b: State, ch: string, m: Message, c: Copy)
    requires Listed(b) && CopyOk(b, c)
    ensures CopyOk(Next(b, Publish(ch, m)), c)
  {
    var b' := Next(b, Publish(ch, m));
    if c.n == |b.sent| {
      assert !Made(b, c);
    } else {
      assert Waits(b', c) <==> Waits(b, c);
      assert Made(b', c) <==> Made(b, c);
    }
  }

  lemma RouteListed(b: State, x: nat)
    requires Listed(b) && Enabled(b, Route(x))
    ensures Listed(Next(b, Route(x)))
  {
    var b' := Next(b, Route(x));
    var q := b.queues[x];
    assert forall i :: 0 <= i < |q| - 1 ==> q[1..][i] == q[i + 1];
    assert forall n :: n in q[1..] ==> n in q;
  }

  lemma RouteCopy(b: State, x: nat, c: Copy)
    requires Listed(b) && CopyOk(b, c) && Enabled(b, Route(x))
    ensures CopyOk(Next(b, Route(x)), c)
  {
    var q := b.queues[x];
    assert q == [q[0]] + q[1..];
    assert q[0] !in q[1..];
    assert c.sub == x ==> (c.n in q <==> c.n == q[0] || c.n in q[1..]);
  }

  lemma StepListed(b: State, l: Label)
    requires Listed(b) && Enabled(b, l)
    ensures Listed(Next(b, l))
  {
    match l
    case Session(l) => SessionListed(b, l);
    case Publish(ch, m) => PublishListed(b, ch, m);
    case Route(x) => RouteListed(b, x);
  }

  lemma StepCopy(b: State, l: Label, c: Copy)
    requires Listed(b) && CopyOk(b, c) && Enabled(b, l)
    ensures CopyOk(Next(b, l), c)
  {
    match l
    case Session(l) => SessionCopy(b, l, c);
    case Publish(ch, m) => PublishCopy(b, ch, m, c);
    case Route(x) => RouteCopy(b, x, c);
  }

  lemma RoutedWasMade(b: State, c: Copy)
    requires CopyOk(b, c) && (c in b.routed || Waits(b, c) || c in b.lost)
    ensures Made(b, c)
  {
  }

  lemma StepInOrder(b: State, l: Label, x: nat)
    requires Listed(b) && InOrder(b, x) && Enabled(b, l)
    requires forall c :: c in b.routed ==> CopyOk(b, c)
    ensures InOrder(Next(b, l), x)
  {
    var b' := Next(b, l);
    if x in b'.queues {
      forall c, n | c in b'.routed && c.sub == x && n in b'.queues[x] ensures c.n < n {
        if c in b.routed { RoutedWasMade(b, c); }
        if l.Route? && l.sub == x { RouteHead(b.queues[x], n); }
      }
    }
  }

  lemma RouteHead(q: seq<nat>, n: nat)
    requires Ascending(q) && q != [] && n in q[1..]
    ensures q[0] < n && n in q
  {
  }

  lemma {:induction false} RunKeeps(r: Run, c: Copy)
    requires ValidRun(INIT, r)
    ensures Listed(After(INIT, r)) && CopyOk(After(INIT, r), c)
  {
    if r.Then? {
      RunKeeps(r.before, c);
      StepListed(After(INIT, r.before), r.last);
      StepCopy(After(INIT, r.before), r.last, c);
    }
  }

  /** Every copy of every run is routed once, or waits, or is lost; and it waits only before a running loop and is lost
      exactly when its loop ended first. */
  lemma {:induction false} CopyFate(r: Run, c: Copy)
    requires ValidRun(INIT, r) && Made(After(INIT, r), c)
    ensures var b := After(INIT, r);
      && (c.sub in b.sessions.loops ==> (c in b.routed <==> !Waits(b, c)) && c !in b.lost)
      && (c.sub !in b.sessions.loops ==> (c in b.routed <==> c !in b.lost) && !Waits(b, c))
  {
    RunKeeps(r, c);
  }

  /** A loop routes its copies in the order of the publishes. */
  lemma {:induction false} RoutedInOrder(r: Run, x: nat)
    requires ValidRun(INIT, r)
    ensures InOrder(After(INIT, r), x)
  {
    if r.Then? {
      var b := After(INIT, r.before);
      RoutedInOrder(r.before, x);
      RunKeeps(r.before, Copy(0, 0));
      forall c | c in b.routed ensures CopyOk(b, c) {
        RunKeeps(r.before, c);
      }
      StepInOrder(b, r.last, x);
    }
  }

  /** What a routed copy was pushed to never changes, and it is the session registered for its recipient when the loop
      came to it. */
  lemma RoutedStays(b: State, l: Label, c: Copy)
    requires Listed(b) && CopyOk(b, c) && Enabled(b, l) && c in Next(b, l).routed
    ensures if c in b.routed then Next(b, l).routed[c] == b.routed[c]
            else
              && l == Route(c.sub) && Next(b, l).routed[c] == Registered(b.sessions, b.sent[c.n].m)
              && PushOf(Next(b, l).routed[c], b.sent[c.n].m) == R.LocalRoute(b.sessions.conns, b.sent[c.n].m)
  {
    if c !in b.routed { RegisteredIsLocalRoute(b.sessions, b.sent[c.n].m); }
  }

  // ---- while no session moves

  predicate Quiet(r: Run) { r.Then? ==> Quiet(r.before) && !r.last.Session? }

  lemma {:induction false} QuietKeeps(b: State, r: Run)
    requires Listed(b) && ValidRun(b, r) && Quiet(r)
    ensures var e := After(b, r);
      && Listed(e) && e.sessions == b.sessions && e.lost == b.lost
      && b.sent <= e.sent
      && forall n :: |b.sent| <= n < |e.sent| ==> e.sent[n].heard == S.LiveOf(b.sessions, e.sent[n].channel)
  {
    if r.Then? {
      QuietKeeps(b, r.before);
      StepListed(After(b, r.before), r.last);
    }
  }

  lemma {:induction false} QuietCopy(b: State, r: Run, c: Copy)
    requires Listed(b) && CopyOk(b, c) && ValidRun(b, r) && Quiet(r)
    ensures CopyOk(After(b, r), c)
    ensures c in After(b, r).routed && c !in b.routed ==>
              c.n < |After(b, r).sent| && After(b, r).routed[c] == Registered(b.sessions, After(b, r).sent[c.n].m)
  {
    if r.Then? {
      var e := After(b, r.before);
      QuietCopy(b, r.before, c);
      QuietKeeps(b, r.before);
      StepCopy(e, r.last, c);
      if c in After(b, r).routed { RoutedStays(e, r.last, c); }
      if c in e.routed && c !in b.routed { RoutedWasMade(e, c); }
    }
  }

  /** Redis routing refines direct routing: a message published to its recipient while no session moves makes, once the
      loops have caught up, one push for each of the recipient's loops, to the very session ConnManager.Route would
      have pushed to. With one loop that is the same push. */
  lemma {:induction false} PublishIsDirectRouting(b: State, r: Run, n: nat, x: nat)
    requires Listed(b) && CopyOk(b, Copy(n, x)) && ValidRun(b, r) && Quiet(r) && |b.sent| <= n < |After(b, r).sent|
    requires forall y :: y in After(b, r).queues ==> After(b, r).queues[y] == []
    ensures var e := After(b, r);
      if x in S.LiveOf(b.sessions, e.sent[n].channel)
      then Copy(n, x) in e.routed
           && PushOf(e.routed[Copy(n, x)], e.sent[n].m) == R.LocalRoute(b.sessions.conns, e.sent[n].m)
      else Copy(n, x) !in e.routed
  {
    var c := Copy(n, x);
    QuietKeeps(b, r);
    QuietCopy(b, r, c);
    RegisteredIsLocalRoute(b.sessions, After(b, r).sent[n].m);
    assert !Made(b, c);
  }

  /** A loop with something before it can always go on. */
  lemma LoopsGoOn(b: State, x: nat)
    requires Listed(b) && x in b.queues && b.queues[x] != []
    ensures Enabled(b, Route(x))
  {
    assert b.queues[x][0] in b.queues[x];
  }
}
