/** The life of WebSocket sessions: the connection registry (gateway/conn_manager.go), the online keys
    (store/user_redis.go) and the Redis subscriptions (service/router/redis_router.go), under the callbacks of
    gateway/ws/ws_server.go. Every session runs onConnect, onClose and its reader concurrently with all others. */
module Sessions {
  import opened Types

  /** How far onConnect has come. */
  datatype Up = Added | MarkedOnline | Subscribed

  /** How far onClose has come. */
  datatype Down = NotClosing | Closing | Deregistered | MarkedOffline | Closed

  /** reading: the reader has not left. It may handle pongs while another goroutine is in onClose, and what it has
      buffered even later. undone: onClose unsubscribed, with success, when onConnect had subscribed. */
  datatype Session = Session(user: string, up: Up, down: Down, reading: bool, undone: bool)

  datatype Event =
    | SubscribedTo(user: string, sub: nat)
    | UnsubscribedFrom(user: string, sub: nat)
    | LoopEnded(user: string, sub: nat)

  datatype State = State(
    sessions: map<nat, Session>,
    conns: map<string, nat>,       // ConnManager.conns: the session registered for a user
    subs: map<string, nat>,        // userChannlsMap: the subscription recorded for a user
    loops: map<nat, string>,       // running subscriber loops and the channel they listen on
    online: set<string>,           // users whose online key is there
    issued: set<nat>,              // subscriptions made so far
    trace: seq<Event>)

  const INIT := State(map[], map[], map[], map[], {}, {}, [])

  datatype Label =
    | AddConn(c: nat, user: string)
    | SetOnline(c: nat, ok: bool)
    | Subscribe(c: nat, sub: nat)
    | BeginClose(c: nat, byReader: bool)   // Close: by the reader, the writer or a logout
    | RemoveConn(c: nat)
    | SetOffline(c: nat, ok: bool)
    | Unsubscribe(c: nat, ok: bool)        // ok: closing the pubsub succeeded
    | Pong(c: nat, ok: bool)
    | ReaderLeaves(c: nat)
    | KeyExpires(user: string)             // sixty seconds without a renewal; how long that is, Heartbeat says
    | LoopDies(sub: nat)                   // ReceiveMessage returned an error

  predicate OfSession(l: Label) { !l.KeyExpires? && !l.LoopDies? }

  predicate Enabled(s: State, l: Label) {
    if l.AddConn? then l.c !in s.sessions && l.user != ""
    else if l.KeyExpires? then l.user in s.online
    else if l.LoopDies? then l.sub in s.loops
    else
      l.c in s.sessions &&
      var x := s.sessions[l.c];
      match l
      case SetOnline(_, _) => x.up.Added?
      case Subscribe(_, sub) => x.up.MarkedOnline? && sub !in s.issued
      case BeginClose(_, byReader) => x.down.NotClosing? && (byReader ==> x.reading)
      case RemoveConn(_) => x.down.Closing?
      case SetOffline(_, _) => x.down.Deregistered?
      case Unsubscribe(_, _) => x.down.MarkedOffline?
      case Pong(_, _) => x.reading
      case ReaderLeaves(_) => x.reading
  }

  function Next(s: State, l: Label): State
    requires Enabled(s, l)
  {
    if l.AddConn? then
      s.(sessions := s.sessions[l.c := Session(l.user, Added, NotClosing, true, false)],
         conns := s.conns[l.user := l.c])
    else if l.KeyExpires? then s.(online := s.online - {l.user})
    else if l.LoopDies? then
      s.(loops := s.loops - {l.sub}, trace := s.trace + [LoopEnded(s.loops[l.sub], l.sub)])
    else
      var x := s.sessions[l.c];
      var u := x.user;
      match l
      case SetOnline(c, ok) =>
        s.(sessions := s.sessions[c := x.(up := MarkedOnline)], online := if ok then s.online + {u} else s.online)
      case Subscribe(c, sub) =>
        s.(sessions := s.sessions[c := x.(up := Subscribed)],
           subs := s.subs[u := sub], loops := s.loops[sub := u], issued := s.issued + {sub},
           trace := s.trace + [SubscribedTo(u, sub)])
      case BeginClose(c, byReader) =>
        s.(sessions := s.sessions[c := x.(down := Closing, reading := x.reading && !byReader)])
      case RemoveConn(c) => s.(sessions := s.sessions[c := x.(down := Deregistered)], conns := s.conns - {u})
      case SetOffline(c, ok) =>
        s.(sessions := s.sessions[c := x.(down := if ok then MarkedOffline else Closed)],
           online := if ok then s.online - {u} else s.online)
      case Unsubscribe(c, ok) =>
        if u in s.subs && ok then
          s.(sessions := s.sessions[c := x.(down := Closed, undone := x.up.Subscribed?)],
             subs := s.subs - {u}, loops := s.loops - {s.subs[u]},
             trace := s.trace + [UnsubscribedFrom(u, s.subs[u])])
        else s.(sessions := s.sessions[c := x.(down := Closed)])
      case Pong(c, ok) => s.(online := if ok then s.online + {u} else s.online)
      case ReaderLeaves(c) => s.(sessions := s.sessions[c := x.(reading := false)])
  }

  datatype Run = Start | Then(before: Run, last: Label)

  predicate ValidRun(s: State, r: Run)
    decreases r, 0
  {
    r.Then? ==> ValidRun(s, r.before) && Enabled(After(s, r.before), r.last)
  }

  function After(s: State, r: Run): State
    requires ValidRun(s, r)
    decreases r, 1
  {
    if r.Start? then s else Next(After(s, r.before), r.last)
  }

  /** The user a step is about. */
  function UserOf(s: State, l: Label): string
    requires Enabled(s, l)
  {
    if l.AddConn? || l.KeyExpires? then l.user
    else if l.LoopDies? then s.loops[l.sub]
    else s.sessions[l.c].user
  }

  /** The subscriber loops listening on a user's channel. */
  function LiveOf(s: State, u: string): set<nat> { set l | l in s.loops && s.loops[l] == u }

  // ---- the ledger of subscriptions

  function Made(t: seq<Event>, u: string): set<nat> { set e | e in t && e.SubscribedTo? && e.user == u :: e.sub }

  function Unmade(t: seq<Event>, u: string): set<nat> { set e | e in t && e.UnsubscribedFrom? && e.user == u :: e.sub }

  function Died(t: seq<Event>, u: string): set<nat> { set e | e in t && e.LoopEnded? && e.user == u :: e.sub }

  lemma LedgerSnoc(t: seq<Event>, e: Event, u: string)
    ensures Made(t + [e], u) == Made(t, u) + if e.SubscribedTo? && e.user == u then {e.sub} else {}
    ensures Unmade(t + [e], u) == Unmade(t, u) + if e.UnsubscribedFrom? && e.user == u then {e.sub} else {}
    ensures Died(t + [e], u) == Died(t, u) + if e.LoopEnded? && e.user == u then {e.sub} else {}
  {
    assert forall x :: x in t + [e] <==> x in t || x == e;
  }

  /** A recorded subscription whose loop still runs listens to the user it is recorded for. */
  predicate Recorded(s: State) {
    && (forall u :: u in s.subs ==> s.subs[u] in s.issued && (s.subs[u] in s.loops ==> s.loops[s.subs[u]] == u))
    && s.loops.Keys <= s.issued
    && "" !in s.conns
  }

  lemma StepRecorded(s: State, l: Label)
    requires Recorded(s) && Enabled(s, l)
    ensures Recorded(Next(s, l))
  {
  }

  predicate Ledger(s: State, u: string) {
    && LiveOf(s, u) == Made(s.trace, u) - Unmade(s.trace, u) - Died(s.trace, u)
    && Unmade(s.trace, u) <= Made(s.trace, u) <= s.issued
    && Died(s.trace, u) <= Made(s.trace, u)
    && (u in s.subs ==> s.subs[u] in Made(s.trace, u) - Unmade(s.trace, u))
  }

  lemma SubscribeLives(s: State, l: Label, u: string)
    requires Recorded(s) && Enabled(s, l) && l.Subscribe?
    ensures LiveOf(Next(s, l), u) == if u == UserOf(s, l) then LiveOf(s, u) + {l.sub} else LiveOf(s, u)
  {
  }

  lemma UnsubscribeLives(s: State, l: Label, u: string)
    requires Recorded(s) && Enabled(s, l) && l.Unsubscribe?
    ensures LiveOf(Next(s, l), u) ==
      if u == UserOf(s, l) && u in s.subs && l.ok then LiveOf(s, u) - {s.subs[u]} else LiveOf(s, u)
  {
  }

  lemma DeathLives(s: State, l: Label, u: string)
    requires Recorded(s) && Enabled(s, l) && l.LoopDies?
    ensures LiveOf(Next(s, l), u) == if u == UserOf(s, l) then LiveOf(s, u) - {l.sub} else LiveOf(s, u)
  {
  }

  lemma OtherLives(s: State, l: Label, u: string)
    requires Enabled(s, l) && !l.Subscribe? && !l.Unsubscribe? && !l.LoopDies?
    ensures LiveOf(Next(s, l), u) == LiveOf(s, u) && Next(s, l).trace == s.trace && Next(s, l).subs == s.subs
    ensures Next(s, l).issued == s.issued
  {
    assert Next(s, l).loops == s.loops;
  }

  lemma SubscribeLedger(s: State, l: Label, u: string)
    requires Recorded(s) && Ledger(s, u) && Enabled(s, l) && l.Subscribe?
    ensures Ledger(Next(s, l), u)
  {
    SubscribeLives(s, l, u);
    LedgerSnoc(s.trace, SubscribedTo(UserOf(s, l), l.sub), u);
  }

  lemma UnsubscribeLedger(s: State, l: Label, u: string)
    requires Recorded(s) && Ledger(s, u) && Enabled(s, l) && l.Unsubscribe?
    ensures Ledger(Next(s, l), u)
  {
    UnsubscribeLives(s, l, u);
    var v := UserOf(s, l);
    if v in s.subs && l.ok {
      LedgerSnoc(s.trace, UnsubscribedFrom(v, s.subs[v]), u);
    }
  }

  lemma DeathLedger(s: State, l: Label, u: string)
    requires Recorded(s) && Ledger(s, u) && Enabled(s, l) && l.LoopDies?
    ensures Ledger(Next(s, l), u)
  {
    DeathLives(s, l, u);
    LedgerSnoc(s.trace, LoopEnded(s.loops[l.sub], l.sub), u);
    assert s.loops[l.sub] == u ==> l.sub in LiveOf(s, u);
  }

  lemma StepLedger(s: State, l: Label, u: string)
    requires Recorded(s) && Ledger(s, u) && Enabled(s, l)
    ensures Ledger(Next(s, l), u)
  {
    if l.Subscribe? {
      SubscribeLedger(s, l, u);
    } else if l.Unsubscribe? {
      UnsubscribeLedger(s, l, u);
    } else if l.LoopDies? {
      DeathLedger(s, l, u);
    } else {
      OtherLives(s, l, u);
    }
  }

  /** In every run the loops alive for a user are those subscribed for him, less those successfully unsubscribed and
      those that died of a read error. */
  lemma {:induction false} LoopsAreSubscribedLessStopped(r: Run, u: string)
    requires ValidRun(INIT, r)
    ensures Recorded(After(INIT, r)) && Ledger(After(INIT, r), u)
  {
    if r.Then? {
      LoopsAreSubscribedLessStopped(r.before, u);
      StepRecorded(After(INIT, r.before), r.last);
      StepLedger(After(INIT, r.before), r.last, u);
    } else {
      assert LiveOf(INIT, u) == {};
    }
  }

  /** Calls in a run, by their events. */
  function Count(t: seq<Event>, u: string, kind: Event -> bool): nat {
    if t == [] then 0
    else Count(t[..|t| - 1], u, kind) + if kind(t[|t| - 1]) && t[|t| - 1].user == u then 1 else 0
  }

  function Subscribes(t: seq<Event>, u: string): nat { Count(t, u, (e: Event) => e.SubscribedTo?) }

  function Unsubscribes(t: seq<Event>, u: string): nat { Count(t, u, (e: Event) => e.UnsubscribedFrom?) }

  function Deaths(t: seq<Event>, u: string): nat { Count(t, u, (e: Event) => e.LoopEnded?) }

  predicate Tallied(s: State, u: string) {
    && Subscribes(s.trace, u) == |Made(s.trace, u)|
    && Unsubscribes(s.trace, u) == |Unmade(s.trace, u)|
    && Deaths(s.trace, u) == |Died(s.trace, u)|
  }

  lemma CountSnoc(t: seq<Event>, e: Event, u: string)
    ensures Subscribes(t + [e], u) == Subscribes(t, u) + if e.SubscribedTo? && e.user == u then 1 else 0
    ensures Unsubscribes(t + [e], u) == Unsubscribes(t, u) + if e.UnsubscribedFrom? && e.user == u then 1 else 0
    ensures Deaths(t + [e], u) == Deaths(t, u) + if e.LoopEnded? && e.user == u then 1 else 0
  {
    assert (t + [e])[..|t|] == t;
  }

  lemma TallySnoc(s: State, s': State, e: Event, u: string)
    requires Tallied(s, u) && s'.trace == s.trace + [e]
    requires e.user == u ==>
               && (e.SubscribedTo? ==> e.sub !in Made(s.trace, u))
               && (e.UnsubscribedFrom? ==> e.sub !in Unmade(s.trace, u))
               && (e.LoopEnded? ==> e.sub !in Died(s.trace, u))
    ensures Tallied(s', u)
  {
    CountSnoc(s.trace, e, u);
    LedgerSnoc(s.trace, e, u);
  }

  lemma StepTallied(s: State, l: Label, u: string)
    requires Recorded(s) && Ledger(s, u) && Tallied(s, u) && Enabled(s, l)
    ensures Tallied(Next(s, l), u)
  {
    var s' := Next(s, l);
    if l.Subscribe? {
      TallySnoc(s, s', SubscribedTo(UserOf(s, l), l.sub), u);
    } else if l.Unsubscribe? {
      var v := UserOf(s, l);
      if v in s.subs && l.ok { TallySnoc(s, s', UnsubscribedFrom(v, s.subs[v]), u); }
    } else if l.LoopDies? {
      assert s.loops[l.sub] == u ==> l.sub in LiveOf(s, u);
      TallySnoc(s, s', LoopEnded(s.loops[l.sub], l.sub), u);
    } else {
      OtherLives(s, l, u);
    }
  }

  /** By number: Subscribes less successful Unsubscribes less deaths, where one Unsubscribe of a loop that had died
      already stops nothing. */
  lemma {:induction false} LoopCount(r: Run, u: string)
    requires ValidRun(INIT, r)
    ensures var s := After(INIT, r);
      && Tallied(s, u)
      && |LiveOf(s, u)| == Subscribes(s.trace, u) - Unsubscribes(s.trace, u) - Deaths(s.trace, u)
           + |Unmade(s.trace, u) * Died(s.trace, u)|
  {
    TalliedRun(r, u);
    LoopsAreSubscribedLessStopped(r, u);
    var t := After(INIT, r).trace;
    SetArithmetic(Made(t, u), Unmade(t, u), Died(t, u));
  }

  lemma {:induction false} TalliedRun(r: Run, u: string)
    requires ValidRun(INIT, r)
    ensures Tallied(After(INIT, r), u)
  {
    if r.Then? {
      TalliedRun(r.before, u);
      LoopsAreSubscribedLessStopped(r.before, u);
      StepTallied(After(INIT, r.before), r.last, u);
    }
  }

  lemma SetArithmetic(a: set<nat>, b: set<nat>, c: set<nat>)
    requires b <= a && c <= a
    ensures |a - b - c| == |a| - |b| - |c| + |b * c|
  {
    assert a == (a - b - c) + (b + c);
    assert |b + c| + |b * c| == |b| + |c|;
    assert (a - b - c) !! (b + c);
  }

  // ---- sessions one after the other

  /** The user's sessions come one after the other, onClose waits for onConnect, and Redis answers. What other users
      do is free. */
  predicate Orderly(s: State, l: Label, u: string)
    requires Enabled(s, l)
  {
    UserOf(s, l) == u ==>
    match l
    case AddConn(_, _) => forall c :: c in s.sessions && s.sessions[c].user == u ==> s.sessions[c].down.Closed?
    case BeginClose(c, _) => s.sessions[c].up.Subscribed?
    case SetOnline(_, ok) => ok
    case SetOffline(_, ok) => ok
    case Unsubscribe(_, ok) => ok
    case _ => true
  }

  predicate OrderlyRun(s: State, r: Run, u: string)
    requires ValidRun(s, r)
  {
    r.Then? ==> OrderlyRun(s, r.before, u) && Orderly(After(s, r.before), r.last, u)
  }

  /** What belongs to a user whose one open session is x, under number c. */
  predicate Belongs(s: State, c: nat, x: Session) {
    var u := x.user;
    && (x.down.NotClosing? || x.up.Subscribed?)
    && (x.down.NotClosing? || x.down.Closing? ==> u in s.conns && s.conns[u] == c)
    && (x.down.Deregistered? || x.down.MarkedOffline? ==> u !in s.conns)
    && (u in s.subs <==> x.up.Subscribed?)
    && LiveOf(s, u) <= (if u in s.subs then {s.subs[u]} else {})
  }

  predicate Nothing(s: State, u: string) {
    u !in s.conns && u !in s.subs && LiveOf(s, u) == {}
  }

  /** Open sessions of one user. */
  function OpenOf(s: State, u: string): set<nat> {
    set c | c in s.sessions && s.sessions[c].user == u && !s.sessions[c].down.Closed?
  }

  predicate TidyFor(s: State, u: string) {
    && (forall c, d :: c in OpenOf(s, u) && d in OpenOf(s, u) ==> c == d)
    && (forall c :: c in OpenOf(s, u) ==> Belongs(s, c, s.sessions[c]))
    && (OpenOf(s, u) == {} ==> Nothing(s, u))
    && (forall c :: c in s.sessions && s.sessions[c].user == u && s.sessions[c].down.Closed? ==>
          s.sessions[c].up.Subscribed?)
  }

  /** The steps of other users' sessions leave alone what is u's. */
  lemma OthersApart(s: State, l: Label, u: string)
    requires Recorded(s) && Enabled(s, l) && u != UserOf(s, l)
    ensures var s' := Next(s, l);
      && (u in s'.conns <==> u in s.conns) && (u in s.conns ==> s'.conns[u] == s.conns[u])
      && (u in s'.subs <==> u in s.subs) && (u in s.subs ==> s'.subs[u] == s.subs[u])
      && (u in s'.online <==> u in s.online)
      && LiveOf(s', u) == LiveOf(s, u)
    ensures forall c :: c in Next(s, l).sessions && Next(s, l).sessions[c].user == u ==>
              c in s.sessions && Next(s, l).sessions[c] == s.sessions[c]
    ensures forall c :: c in s.sessions && s.sessions[c].user == u ==> c in Next(s, l).sessions
  {
    OthersSessions(s, l, u);
    if l.Subscribe? {
      SubscribeLives(s, l, u);
    } else if l.Unsubscribe? {
      UnsubscribeLives(s, l, u);
    } else if l.LoopDies? {
      DeathLives(s, l, u);
    } else {
      OtherLives(s, l, u);
    }
  }

  lemma OthersSessions(s: State, l: Label, u: string)
    requires Enabled(s, l) && u != UserOf(s, l)
    ensures forall c :: c in Next(s, l).sessions && Next(s, l).sessions[c].user == u ==>
              c in s.sessions && Next(s, l).sessions[c] == s.sessions[c]
    ensures forall c :: c in s.sessions && s.sessions[c].user == u ==> c in Next(s, l).sessions
  {
  }

  lemma StepOther(s: State, l: Label, u: string)
    requires Recorded(s) && Enabled(s, l) && TidyFor(s, u) && u != UserOf(s, l)
    ensures TidyFor(Next(s, l), u)
  {
    var s' := Next(s, l);
    OthersApart(s, l, u);
    assert OpenOf(s', u) == OpenOf(s, u);
    forall c | c in OpenOf(s', u) ensures Belongs(s', c, s'.sessions[c]) {
      assert c in OpenOf(s, u);
    }
  }

  lemma OwnAdd(s: State, l: Label, u: string)
    requires Recorded(s) && Enabled(s, l) && TidyFor(s, u) && Orderly(s, l, u) && l.AddConn? && u == l.user
    ensures TidyFor(Next(s, l), u)
  {
    assert OpenOf(s, u) == {};
    assert OpenOf(Next(s, l), u) == {l.c};
    OtherLives(s, l, u);
  }

  /** Steps of u's that leave the sessions and the registry alone, but for the reader. */
  predicate Passive(l: Label) {
    l.KeyExpires? || l.LoopDies? || l.Pong? || l.ReaderLeaves?
  }

  lemma OwnPassive(s: State, l: Label, u: string)
    requires Recorded(s) && Enabled(s, l) && TidyFor(s, u) && Passive(l)
    ensures TidyFor(Next(s, l), u)
  {
    var s' := Next(s, l);
    assert LiveOf(s', u) <= LiveOf(s, u) by {
      if l.LoopDies? { DeathLives(s, l, u); } else { OtherLives(s, l, u); }
    }
    assert OpenOf(s', u) == OpenOf(s, u);
    forall c | c in OpenOf(s', u) ensures Belongs(s', c, s'.sessions[c]) {
      assert c in OpenOf(s, u) && Belongs(s, c, s.sessions[c]);
    }
  }

  lemma OwnOpen(s: State, l: Label, u: string)
    requires Recorded(s) && Enabled(s, l) && TidyFor(s, u) && OfSession(l) && !Passive(l) && !l.AddConn?
    requires u == UserOf(s, l)
    ensures OpenOf(s, u) == {l.c} && Belongs(s, l.c, s.sessions[l.c])
    ensures OpenOf(Next(s, l), u) == if Next(s, l).sessions[l.c].down.Closed? then {} else {l.c}
  {
    assert l.c in OpenOf(s, u);
    assert OpenOf(s, u) == {l.c};
    var n := Next(s, l);
    assert n.sessions == s.sessions[l.c := n.sessions[l.c]] && n.sessions[l.c].user == u;
    forall c | c in OpenOf(n, u) && c != l.c ensures c in OpenOf(s, u) { }
  }

  lemma OwnLives(s: State, l: Label, u: string)
    requires Recorded(s) && Enabled(s, l) && TidyFor(s, u) && OfSession(l) && !Passive(l) && !l.AddConn?
    requires u == UserOf(s, l) && Orderly(s, l, u)
    ensures var n := Next(s, l);
      LiveOf(n, u) <= (if u in n.subs then {n.subs[u]} else {})
  {
    OwnOpen(s, l, u);
    if l.Subscribe? {
      SubscribeLives(s, l, u);
    } else if l.Unsubscribe? {
      UnsubscribeLives(s, l, u);
    } else {
      OtherLives(s, l, u);
    }
  }

  lemma OwnBelongs(s: State, l: Label, u: string)
    requires Recorded(s) && Enabled(s, l) && TidyFor(s, u) && OfSession(l) && !Passive(l) && !l.AddConn?
    requires u == UserOf(s, l) && Orderly(s, l, u)
    ensures var n := Next(s, l);
      if n.sessions[l.c].down.Closed? then Nothing(n, u) else Belongs(n, l.c, n.sessions[l.c])
  {
    OwnOpen(s, l, u);
    OwnLives(s, l, u);
  }

  lemma StepTidy(s: State, l: Label, u: string)
    requires Recorded(s) && Enabled(s, l) && TidyFor(s, u) && Orderly(s, l, u)
    ensures TidyFor(Next(s, l), u)
  {
    if u != UserOf(s, l) {
      StepOther(s, l, u);
    } else if l.AddConn? {
      OwnAdd(s, l, u);
    } else if Passive(l) {
      OwnPassive(s, l, u);
    } else {
      OwnOpen(s, l, u);
      OwnBelongs(s, l, u);
    }
  }

  lemma {:induction false} OrderlyIsTidy(r: Run, u: string)
    requires ValidRun(INIT, r) && OrderlyRun(INIT, r, u)
    ensures TidyFor(After(INIT, r), u)
  {
    if r.Then? {
      OrderlyIsTidy(r.before, u);
      LoopsAreSubscribedLessStopped(r.before, u);
      StepTidy(After(INIT, r.before), r.last, u);
    }
  }

  /** For a user whose sessions come one after the other: once connected, the session is the registered one and its
      subscription the recorded one, and the only loop alive is the recorded one's, unless it has died; after the last
      close nothing of the three is left. What is then left of the online key is in SessionRaces. */
  lemma {:induction false} ConnectedMeansBoth(r: Run, u: string, c: nat)
    requires ValidRun(INIT, r) && OrderlyRun(INIT, r, u)
    ensures var s := After(INIT, r);
      && (c in OpenOf(s, u) && s.sessions[c].up.Subscribed? && s.sessions[c].down.NotClosing? ==>
            && u in s.conns && s.conns[u] == c && u in s.subs
            && LiveOf(s, u) == {s.subs[u]} - Died(s.trace, u))
      && (OpenOf(s, u) == {} ==> Nothing(s, u))
  {
    OrderlyIsTidy(r, u);
    LoopsAreSubscribedLessStopped(r, u);
  }
}
