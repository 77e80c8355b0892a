/** Sessions of one user that overlap, close before they have connected, or hear a pong while closing
    (gateway/ws/ws_conn.go, gateway/ws/ws_server.go): exactly what each leaves registered, subscribed and online. */
module SessionRaces {
  import opened Types
  import opened Sessions

  // ---- exactly who is registered, recorded and online, in every run

  /** Session c was added for u and since then nobody has added or removed a connection of u. */
  ghost predicate EntryStands(r: Run, c: nat, u: string)
    requires ValidRun(INIT, r)
  {
    r.Then? &&
    (r.last == AddConn(c, u) ||
     (!((r.last.AddConn? || r.last.RemoveConn?) && UserOf(After(INIT, r.before), r.last) == u)
      && EntryStands(r.before, c, u)))
  }

  /** A session is its user's registered one exactly when no other session of the user has been added, and none has
      been closed, itself included, since it was added. */
  lemma {:induction false} RegisteredIff(r: Run, c: nat, u: string)
    requires ValidRun(INIT, r)
    ensures u in After(INIT, r).conns && After(INIT, r).conns[u] == c <==> EntryStands(r, c, u)
    ensures forall v :: v in After(INIT, r).conns ==> After(INIT, r).conns[v] in After(INIT, r).sessions
  {
    if r.Then? {
      RegisteredIff(r.before, c, u);
      EntryStep(After(INIT, r.before), r.last, c, u);
    }
  }

  lemma EntryStep(s: State, l: Label, c: nat, u: string)
    requires Enabled(s, l) && forall v :: v in s.conns ==> s.conns[v] in s.sessions
    ensures var s' := Next(s, l);
      && (u in s'.conns && s'.conns[u] == c <==>
            l == AddConn(c, u) ||
            (!((l.AddConn? || l.RemoveConn?) && UserOf(s, l) == u) && u in s.conns && s.conns[u] == c))
      && (forall v :: v in s'.conns ==> s'.conns[v] in s'.sessions)
  {
  }

  /** Subscription sub was made by a session of u and since then none of them has subscribed, or unsubscribed with
      success. */
  ghost predicate RecordStands(r: Run, sub: nat, u: string)
    requires ValidRun(INIT, r)
  {
    r.Then? &&
    var mine := UserOf(After(INIT, r.before), r.last) == u;
    if mine && r.last.Subscribe? then r.last.sub == sub
    else !(mine && r.last.Unsubscribe? && r.last.ok) && RecordStands(r.before, sub, u)
  }

  lemma {:induction false} RecordedIff(r: Run, sub: nat, u: string)
    requires ValidRun(INIT, r)
    ensures u in After(INIT, r).subs && After(INIT, r).subs[u] == sub <==> RecordStands(r, sub, u)
  {
    if r.Then? {
      RecordedIff(r.before, sub, u);
      RecordStep(After(INIT, r.before), r.last, sub, u);
    }
  }

  lemma RecordStep(s: State, l: Label, sub: nat, u: string)
    requires Enabled(s, l)
    ensures var mine := UserOf(s, l) == u;
      u in Next(s, l).subs && Next(s, l).subs[u] == sub <==>
      if mine && l.Subscribe? then l.sub == sub
      else !(mine && l.Unsubscribe? && l.ok) && u in s.subs && s.subs[u] == sub
  {
  }

  ghost predicate SetsKey(s: State, l: Label, u: string)
    requires Enabled(s, l)
  {
    (l.SetOnline? || l.Pong?) && l.ok && UserOf(s, l) == u
  }

  ghost predicate ClearsKey(s: State, l: Label, u: string)
    requires Enabled(s, l)
  {
    (l.KeyExpires? || (l.SetOffline? && l.ok)) && UserOf(s, l) == u
  }

  /** Of what has set and cleared the user's key, the last has set it. */
  ghost predicate KeyStands(r: Run, u: string)
    requires ValidRun(INIT, r)
  {
    r.Then? &&
    (SetsKey(After(INIT, r.before), r.last, u) ||
     (!ClearsKey(After(INIT, r.before), r.last, u) && KeyStands(r.before, u)))
  }

  lemma {:induction false} OnlineIff(r: Run, u: string)
    requires ValidRun(INIT, r)
    ensures u in After(INIT, r).online <==> KeyStands(r, u)
  {
    if r.Then? {
      OnlineIff(r.before, u);
      KeyStep(After(INIT, r.before), r.last, u);
    }
  }

  lemma KeyStep(s: State, l: Label, u: string)
    requires Enabled(s, l)
    ensures u in Next(s, l).online <==> SetsKey(s, l, u) || (!ClearsKey(s, l, u) && u in s.online)
  {
  }

  // ---- the online key of a user's sessions one after the other

  /** A pong of u came after every SetOffline of u, and the key has not expired since. */
  ghost predicate PongStands(r: Run, u: string)
    requires ValidRun(INIT, r)
  {
    r.Then? &&
    var s := After(INIT, r.before);
    ((r.last.Pong? && r.last.ok && UserOf(s, r.last) == u) ||
     (!ClearsKey(s, r.last, u) && PongStands(r.before, u)))
  }

  /** The key has expired since it was last set. */
  ghost predicate KeyExpired(r: Run, u: string)
    requires ValidRun(INIT, r)
  {
    r.Then? &&
    (r.last == KeyExpires(u) || (!SetsKey(After(INIT, r.before), r.last, u) && KeyExpired(r.before, u)))
  }

  /** A session between its SetOnline and its SetOffline. */
  ghost predicate MarkedBy(s: State, u: string, c: nat) {
    c in OpenOf(s, u) && !s.sessions[c].up.Added? && !s.sessions[c].down.MarkedOffline?
  }

  ghost predicate Marked(s: State, u: string) { exists c: nat :: MarkedBy(s, u, c) }

  lemma MarkedStep(s: State, l: Label, u: string)
    requires Recorded(s) && TidyFor(s, u) && Enabled(s, l) && Orderly(s, l, u)
    ensures l.SetOnline? && UserOf(s, l) == u ==> Marked(Next(s, l), u)
    ensures l.SetOffline? && UserOf(s, l) == u ==> !Marked(Next(s, l), u)
    ensures !((l.SetOnline? || l.SetOffline?) && UserOf(s, l) == u) ==> (Marked(Next(s, l), u) <==> Marked(s, u))
  {
    if UserOf(s, l) != u {
      MarkedOther(s, l, u);
    } else if l.AddConn? {
      MarkedAdd(s, l, u);
    } else if Passive(l) {
      MarkedPassive(s, l, u);
    } else {
      MarkedOwn(s, l, u);
    }
  }

  lemma MarkedOther(s: State, l: Label, u: string)
    requires Recorded(s) && Enabled(s, l) && UserOf(s, l) != u
    ensures Marked(Next(s, l), u) <==> Marked(s, u)
  {
    OthersApart(s, l, u);
    forall c: nat ensures MarkedBy(Next(s, l), u, c) <==> MarkedBy(s, u, c) { }
  }

  lemma MarkedAdd(s: State, l: Label, u: string)
    requires Enabled(s, l) && l.AddConn? && l.user == u
    ensures Marked(Next(s, l), u) <==> Marked(s, u)
  {
    forall c: nat ensures MarkedBy(Next(s, l), u, c) <==> MarkedBy(s, u, c) { }
  }

  lemma MarkedPassive(s: State, l: Label, u: string)
    requires Enabled(s, l) && Passive(l)
    ensures Marked(Next(s, l), u) <==> Marked(s, u)
  {
    forall c: nat ensures MarkedBy(Next(s, l), u, c) <==> MarkedBy(s, u, c) { }
  }

  lemma MarkedOwn(s: State, l: Label, u: string)
    requires Recorded(s) && TidyFor(s, u) && Enabled(s, l) && Orderly(s, l, u)
    requires OfSession(l) && !Passive(l) && !l.AddConn? && UserOf(s, l) == u
    ensures l.SetOnline? ==> Marked(Next(s, l), u)
    ensures l.SetOffline? ==> !Marked(Next(s, l), u)
    ensures !l.SetOnline? && !l.SetOffline? ==> (Marked(Next(s, l), u) <==> Marked(s, u))
  {
    OwnOpen(s, l, u);
    assert Marked(s, u) <==> MarkedBy(s, u, l.c);
    assert Marked(Next(s, l), u) <==> MarkedBy(Next(s, l), u, l.c);
  }

  /** For sessions one after the other. While one is marked online the key is there exactly unless it has expired
      since it was last set. Outside, in particular after the last close, it is there exactly when a pong was handled
      after the last SetOffline, and has not expired since. */
  lemma {:induction false} OrderlyKey(r: Run, u: string)
    requires ValidRun(INIT, r) && OrderlyRun(INIT, r, u)
    ensures var s := After(INIT, r);
      if Marked(s, u) then u in s.online <==> !KeyExpired(r, u) else u in s.online <==> PongStands(r, u)
  {
    if r.Then? {
      var s := After(INIT, r.before);
      OrderlyKey(r.before, u);
      OrderlyIsTidy(r.before, u);
      LoopsAreSubscribedLessStopped(r.before, u);
      MarkedStep(s, r.last, u);
      KeyStep(s, r.last, u);
    } else {
      assert !Marked(INIT, u);
    }
  }

  lemma {:induction false} OnlineAfterClose(r: Run, u: string)
    requires ValidRun(INIT, r) && OrderlyRun(INIT, r, u) && OpenOf(After(INIT, r), u) == {}
    ensures u in After(INIT, r).online <==> PongStands(r, u)
  {
    OrderlyKey(r, u);
  }

  lemma RunTo(s: State, r: Run, l: Label)
    requires ValidRun(s, r) && Enabled(After(s, r), l)
    ensures ValidRun(s, Then(r, l)) && After(s, Then(r, l)) == Next(After(s, r), l)
  {
  }

  /** Session c of u, connected, on a server without anything of u's. */
  ghost function Connect(r: Run, c: nat, u: string, sub: nat): Run {
    Then(Then(Then(r, AddConn(c, u)), SetOnline(c, true)), Subscribe(c, sub))
  }

  lemma ConnectRuns(r: Run, c: nat, u: string, sub: nat)
    requires ValidRun(INIT, r) && u != ""
    requires c !in After(INIT, r).sessions && sub !in After(INIT, r).issued
    ensures ValidRun(INIT, Connect(r, c, u, sub))
    ensures var s := After(INIT, r);
      After(INIT, Connect(r, c, u, sub)) == s.(
        sessions := s.sessions[c := Session(u, Subscribed, NotClosing, true, false)],
        conns := s.conns[u := c], online := s.online + {u},
        subs := s.subs[u := sub], loops := s.loops[sub := u], issued := s.issued + {sub},
        trace := s.trace + [SubscribedTo(u, sub)])
  {
    var s := After(INIT, r);
    RunTo(INIT, r, AddConn(c, u));
    var r1 := Then(r, AddConn(c, u));
    RunTo(INIT, r1, SetOnline(c, true));
    var r2 := Then(r1, SetOnline(c, true));
    RunTo(INIT, r2, Subscribe(c, sub));
    assert s.sessions[c := Session(u, Added, NotClosing, true, false)]
      [c := Session(u, MarkedOnline, NotClosing, true, false)]
      [c := Session(u, Subscribed, NotClosing, true, false)]
      == s.sessions[c := Session(u, Subscribed, NotClosing, true, false)];
  }

  /** One orderly session, closed by its writer while its reader handles a pong: it is over, and its user online. */
  lemma PongLeavesKey(u: string) returns (r: Run)
    requires u != ""
    ensures ValidRun(INIT, r) && OrderlyRun(INIT, r, u)
    ensures OpenOf(After(INIT, r), u) == {} && u in After(INIT, r).online
  {
    var r0 := Connect(Start, 0, u, 0);
    ConnectRuns(Start, 0, u, 0);
    OrderlyConnect(u);
    var r1 := OrderlyTo(r0, BeginClose(0, false), u);
    var r2 := OrderlyTo(r1, RemoveConn(0), u);
    var r3 := OrderlyTo(r2, SetOffline(0, true), u);
    var r4 := OrderlyTo(r3, Pong(0, true), u);
    r := OrderlyTo(r4, Unsubscribe(0, true), u);
  }

  lemma OrderlyConnect(u: string)
    requires u != ""
    ensures ValidRun(INIT, Connect(Start, 0, u, 0)) && OrderlyRun(INIT, Connect(Start, 0, u, 0), u)
  {
    ConnectRuns(Start, 0, u, 0);
    assert OrderlyRun(INIT, Then(Start, AddConn(0, u)), u);
  }

  lemma OrderlyTo(r: Run, l: Label, u: string) returns (r': Run)
    requires ValidRun(INIT, r) && OrderlyRun(INIT, r, u) && Enabled(After(INIT, r), l) && Orderly(After(INIT, r), l, u)
    ensures r' == Then(r, l) && ValidRun(INIT, r') && After(INIT, r') == Next(After(INIT, r), l)
    ensures OrderlyRun(INIT, r', u)
  {
    r' := Then(r, l);
  }

  // ---- sessions that overlap

  /** The old session's onClose, while a newer session of the same user is registered and connected:
      it takes the new session's entry, online key and subscription away, and the new session stays up. */
  lemma OldCloseHitsNewSession(s: State, old_: nat, new_: nat)
    requires Recorded(s) && old_ in s.sessions && new_ in s.sessions && old_ != new_
    requires s.sessions[old_].user == s.sessions[new_].user && s.sessions[old_].down.Closing?
    requires s.sessions[new_].up.Subscribed? && s.sessions[new_].down.NotClosing?
    requires var u := s.sessions[new_].user;
      u in s.conns && s.conns[u] == new_ && u in s.subs
    ensures var u := s.sessions[new_].user;
      var r := Then(Then(Then(Start, RemoveConn(old_)), SetOffline(old_, true)), Unsubscribe(old_, true));
      && ValidRun(s, r)
      && var s' := After(s, r);
      && new_ in s'.sessions && s'.sessions[new_] == s.sessions[new_]
      && u !in s'.conns && u !in s'.online && u !in s'.subs
      && s.subs[u] !in s'.loops
      && LiveOf(s', u) == LiveOf(s, u) - {s.subs[u]}
  {
    var u := s.sessions[new_].user;
    var s1 := Next(s, RemoveConn(old_));
    var s2 := Next(s1, SetOffline(old_, true));
    var s3 := Next(s2, Unsubscribe(old_, true));
    assert After(s, Start) == s;
    RunTo(s, Start, RemoveConn(old_));
    RunTo(s, Then(Start, RemoveConn(old_)), SetOffline(old_, true));
    RunTo(s, Then(Then(Start, RemoveConn(old_)), SetOffline(old_, true)), Unsubscribe(old_, true));
    UnsubscribeLives(s2, Unsubscribe(old_, true), u);
    assert LiveOf(s2, u) == LiveOf(s, u);
  }

  ghost function OldClosing(u: string): Run {
    Then(Connect(Connect(Start, 0, u, 0), 1, u, 1), BeginClose(0, true))
  }

  /** Such a state is reached by connecting twice and then losing the first connection. */
  lemma OldClosingReached(u: string)
    requires u != ""
    ensures ValidRun(INIT, OldClosing(u))
    ensures var s := After(INIT, OldClosing(u));
      && Recorded(s) && 0 in s.sessions && 1 in s.sessions
      && s.sessions[0].user == u && s.sessions[0].down.Closing?
      && s.sessions[1] == Session(u, Subscribed, NotClosing, true, false)
      && u in s.conns && s.conns[u] == 1 && u in s.subs && s.subs[u] == 1
  {
    ConnectRuns(Start, 0, u, 0);
    ConnectRuns(Connect(Start, 0, u, 0), 1, u, 1);
    RunTo(INIT, Connect(Connect(Start, 0, u, 0), 1, u, 1), BeginClose(0, true));
    LoopsAreSubscribedLessStopped(OldClosing(u), u);
  }

  lemma {:induction false} JoinRuns(r: Run, q: Run) returns (rq: Run)
    requires ValidRun(INIT, r) && ValidRun(After(INIT, r), q)
    ensures ValidRun(INIT, rq) && After(INIT, rq) == After(After(INIT, r), q)
  {
    if q.Start? {
      rq := r;
    } else {
      var before := JoinRuns(r, q.before);
      rq := Then(before, q.last);
    }
  }

  /** So there is a run that leaves a connected session open without entry, key and subscription. */
  lemma OverlapLosesNewSession(u: string) returns (r: Run)
    requires u != ""
    ensures ValidRun(INIT, r)
    ensures var s := After(INIT, r);
      && 1 in s.sessions && s.sessions[1] == Session(u, Subscribed, NotClosing, true, false)
      && u !in s.conns && u !in s.online && u !in s.subs && 1 !in s.loops
  {
    OldClosingReached(u);
    OldCloseHitsNewSession(After(INIT, OldClosing(u)), 0, 1);
    r := JoinRuns(OldClosing(u),
                  Then(Then(Then(Start, RemoveConn(0)), SetOffline(0, true)), Unsubscribe(0, true)));
  }

  /** A loop whose record has been overwritten. */
  ghost predicate Orphaned(s: State, sub: nat) {
    sub in s.loops && sub in s.issued && !(s.loops[sub] in s.subs && s.subs[s.loops[sub]] == sub)
  }

  /** Reconnecting before the old close orphans the old loop, if it is still alive ... */
  lemma ResubscribeOrphans(s: State, c: nat, sub: nat)
    requires Recorded(s) && Enabled(s, Subscribe(c, sub)) && s.sessions[c].user in s.subs
    ensures var old_ := s.subs[s.sessions[c].user];
      Orphaned(Next(s, Subscribe(c, sub)), old_) <==> old_ in s.loops
  {
  }

  ghost predicate DiesIn(r: Run, sub: nat) {
    r.Then? && (DiesIn(r.before, sub) || r.last == LoopDies(sub))
  }

  /** ... and nothing but a read error of its own ever ends an orphaned loop: no Unsubscribe of any later run does. */
  lemma {:induction false} OrphansLiveOn(s: State, r: Run, sub: nat)
    requires Recorded(s) && Orphaned(s, sub) && ValidRun(s, r)
    ensures Recorded(After(s, r)) && sub in After(s, r).issued
    ensures Orphaned(After(s, r), sub) <==> !DiesIn(r, sub)
    ensures sub in After(s, r).loops <==> !DiesIn(r, sub)
    ensures sub in After(s, r).loops ==> After(s, r).loops[sub] == s.loops[sub]
  {
    if r.Then? {
      OrphansLiveOn(s, r.before, sub);
      StepRecorded(After(s, r.before), r.last);
    }
  }

  // ---- sessions that do not overlap, however they end

  /** Both callbacks have returned. */
  ghost predicate Over(x: Session) { x.up.Subscribed? && x.down.Closed? }

  /** User u connects again only when all his sessions are over; other users are free. onClose may come before, inside
      or after onConnect, and Redis may fail. */
  ghost predicate Apart(s: State, l: Label, u: string) {
    l.AddConn? && l.user == u ==> forall c :: c in s.sessions && s.sessions[c].user == u ==> Over(s.sessions[c])
  }

  ghost predicate ApartRun(r: Run, u: string)
    requires ValidRun(INIT, r)
  {
    r.Then? ==> ApartRun(r.before, u) && Apart(After(INIT, r.before), r.last, u)
  }

  /** Made and never unsubscribed with success. */
  function Kept(s: State, u: string): set<nat> { Made(s.trace, u) - Unmade(s.trace, u) }

  ghost predicate LeftBy(s: State, u: string, c: nat) {
    c in s.sessions && s.sessions[c].user == u && Over(s.sessions[c]) && !s.sessions[c].undone
  }

  /** Some session of u is over without having undone its own subscription. */
  ghost predicate SomeLeft(s: State, u: string) { exists c: nat :: LeftBy(s, u, c) }

  ghost predicate Current(s: State, u: string, c: nat) {
    c in s.sessions && s.sessions[c].user == u && !Over(s.sessions[c])
  }

  /** What is kept, by where the user's current session c stands. */
  ghost predicate ResidueAt(s: State, u: string, c: nat)
    requires Current(s, u, c)
  {
    var x := s.sessions[c];
    && (u in s.conns <==> x.down.NotClosing? || x.down.Closing?)
    && (!x.up.Subscribed? && !x.down.Closed? ==> (Kept(s, u) != {} <==> SomeLeft(s, u)))
    && (x.up.Subscribed? && !x.down.Closed? ==>
          u in s.subs && s.subs[u] in Kept(s, u) && (Kept(s, u) - {s.subs[u]} != {} <==> SomeLeft(s, u)))
    && (!x.up.Subscribed? || !x.down.Closed? ==> !x.undone)
  }

  ghost predicate Residue(s: State, u: string) {
    && (forall c, d :: Current(s, u, c) && Current(s, u, d) ==> c == d)
    && (forall c :: Current(s, u, c) ==> ResidueAt(s, u, c))
    && ((forall c: nat :: !Current(s, u, c)) ==> u !in s.conns && (Kept(s, u) != {} <==> SomeLeft(s, u)))
  }

  lemma SameLeft(s: State, s': State, u: string)
    requires forall c: nat :: LeftBy(s, u, c) <==> LeftBy(s', u, c)
    ensures SomeLeft(s, u) <==> SomeLeft(s', u)
  {
    if SomeLeft(s, u) {
      var c: nat :| LeftBy(s, u, c);
      assert LeftBy(s', u, c);
    }
    if SomeLeft(s', u) {
      var c: nat :| LeftBy(s', u, c);
      assert LeftBy(s, u, c);
    }
  }

  /** Steps that touch neither u's registry, nor the progress of u's sessions, nor u's ledger but by deaths. */
  lemma ResidueFrame(s: State, s': State, u: string)
    requires Residue(s, u)
    requires u in s'.conns <==> u in s.conns
    requires (u in s'.subs <==> u in s.subs) && (u in s.subs ==> s'.subs[u] == s.subs[u])
    requires Kept(s', u) == Kept(s, u)
    requires forall c: nat ::
               c in s'.sessions && s'.sessions[c].user == u <==> c in s.sessions && s.sessions[c].user == u
    requires forall c :: c in s.sessions && s.sessions[c].user == u ==>
               s'.sessions[c] == s.sessions[c].(reading := s'.sessions[c].reading)
    ensures Residue(s', u)
  {
    forall c: nat ensures (LeftBy(s, u, c) <==> LeftBy(s', u, c)) && (Current(s, u, c) <==> Current(s', u, c)) { }
    SameLeft(s, s', u);
    forall c | Current(s', u, c) ensures ResidueAt(s', u, c) {
      assert Current(s, u, c);
    }
  }

  lemma KeptOther(s: State, l: Label, u: string)
    requires Enabled(s, l) && (UserOf(s, l) != u || Passive(l))
    ensures Kept(Next(s, l), u) == Kept(s, u)
  {
    var s' := Next(s, l);
    if l.Subscribe? {
      LedgerSnoc(s.trace, SubscribedTo(UserOf(s, l), l.sub), u);
    } else if l.Unsubscribe? {
      if s'.trace != s.trace { LedgerSnoc(s.trace, UnsubscribedFrom(UserOf(s, l), s.subs[UserOf(s, l)]), u); }
    } else if l.LoopDies? {
      LedgerSnoc(s.trace, LoopEnded(UserOf(s, l), l.sub), u);
    }
  }

  lemma ResidueAside(s: State, l: Label, u: string)
    requires Recorded(s) && Enabled(s, l) && Residue(s, u) && (UserOf(s, l) != u || Passive(l))
    ensures Residue(Next(s, l), u)
  {
    KeptOther(s, l, u);
    if UserOf(s, l) != u { OthersApart(s, l, u); }
    ResidueFrame(s, Next(s, l), u);
  }

  lemma ResidueAdd(s: State, l: Label, u: string)
    requires Enabled(s, l) && Residue(s, u) && Apart(s, l, u) && l.AddConn? && l.user == u
    ensures Residue(Next(s, l), u)
  {
    var s' := Next(s, l);
    forall c: nat ensures !Current(s, u, c) && (LeftBy(s, u, c) <==> LeftBy(s', u, c)) { }
    SameLeft(s, s', u);
    forall c: nat ensures Current(s', u, c) <==> c == l.c { }
    assert Current(s', u, l.c);
  }

  /** A step of the current session that is not one of its last two, of either callback. */
  lemma ResidueMoves(s: State, l: Label, u: string)
    requires Enabled(s, l) && Residue(s, u) && OfSession(l) && !Passive(l) && !l.AddConn? && UserOf(s, l) == u
    requires !l.Subscribe? && !l.Unsubscribe? && !(l.SetOffline? && !l.ok)
    ensures Residue(Next(s, l), u)
  {
    var s' := Next(s, l);
    OtherLives(s, l, u);
    assert Current(s, u, l.c);
    forall c: nat ensures (Current(s', u, c) <==> c == l.c) && (LeftBy(s, u, c) <==> LeftBy(s', u, c)) {
      if c != l.c { assert !Current(s, u, c); }
    }
    SameLeft(s, s', u);
    assert Current(s', u, l.c) && ResidueAt(s, u, l.c) && ResidueAt(s', u, l.c);
  }

  lemma OnlyCurrent(s: State, l: Label, u: string)
    requires Enabled(s, l) && Residue(s, u) && OfSession(l) && !Passive(l) && !l.AddConn? && UserOf(s, l) == u
    ensures Current(s, u, l.c) && ResidueAt(s, u, l.c)
    ensures forall c: nat :: c != l.c ==> !Current(s, u, c) && !Current(Next(s, l), u, c)
    ensures forall c: nat :: c != l.c ==> (LeftBy(s, u, c) <==> LeftBy(Next(s, l), u, c))
    ensures !LeftBy(s, u, l.c)
  {
    assert Current(s, u, l.c);
    forall c: nat | c != l.c
      ensures !Current(s, u, c) && !Current(Next(s, l), u, c) && (LeftBy(s, u, c) <==> LeftBy(Next(s, l), u, c))
    {
    }
  }

  /** SomeLeft after a step of the current session l.c. */
  lemma LeftAfter(s: State, l: Label, u: string)
    requires Enabled(s, l) && Residue(s, u) && OfSession(l) && !Passive(l) && !l.AddConn? && UserOf(s, l) == u
    ensures SomeLeft(Next(s, l), u) <==> SomeLeft(s, u) || LeftBy(Next(s, l), u, l.c)
  {
    OnlyCurrent(s, l, u);
    if SomeLeft(s, u) {
      var c: nat :| LeftBy(s, u, c);
      assert LeftBy(Next(s, l), u, c);
    }
    if SomeLeft(Next(s, l), u) {
      var c: nat :| LeftBy(Next(s, l), u, c);
      if c != l.c { assert LeftBy(s, u, c); }
    }
  }

  lemma ResidueSubscribe(s: State, l: Label, u: string)
    requires Ledger(s, u) && Enabled(s, l) && Residue(s, u) && l.Subscribe? && UserOf(s, l) == u
    ensures Residue(Next(s, l), u)
  {
    var s' := Next(s, l);
    OnlyCurrent(s, l, u);
    LeftAfter(s, l, u);
    LedgerSnoc(s.trace, SubscribedTo(u, l.sub), u);
    assert Kept(s', u) == Kept(s, u) + {l.sub} && l.sub !in Kept(s, u);
    assert Kept(s', u) - {l.sub} == Kept(s, u);
    if s.sessions[l.c].down.Closed? {
      assert LeftBy(s', u, l.c);
      assert l.sub in Kept(s', u);
    } else {
      assert Current(s', u, l.c) && ResidueAt(s', u, l.c);
    }
  }

  lemma ResidueUnsubscribe(s: State, l: Label, u: string)
    requires Ledger(s, u) && Enabled(s, l) && Residue(s, u) && l.Unsubscribe? && UserOf(s, l) == u
    ensures Residue(Next(s, l), u)
  {
    var s' := Next(s, l);
    OnlyCurrent(s, l, u);
    LeftAfter(s, l, u);
    if u in s.subs && l.ok {
      LedgerSnoc(s.trace, UnsubscribedFrom(u, s.subs[u]), u);
      assert Kept(s', u) == Kept(s, u) - {s.subs[u]};
    } else {
      assert Kept(s', u) == Kept(s, u);
    }
    if !s.sessions[l.c].up.Subscribed? {
      assert Current(s', u, l.c) && ResidueAt(s', u, l.c);
    } else {
      assert forall c: nat :: !Current(s', u, c);
    }
  }

  lemma ResidueGivesUp(s: State, l: Label, u: string)
    requires Ledger(s, u) && Enabled(s, l) && Residue(s, u) && l.SetOffline? && !l.ok && UserOf(s, l) == u
    ensures Residue(Next(s, l), u)
  {
    var s' := Next(s, l);
    OnlyCurrent(s, l, u);
    LeftAfter(s, l, u);
    assert Kept(s', u) == Kept(s, u);
    if !s.sessions[l.c].up.Subscribed? {
      assert Current(s', u, l.c) && ResidueAt(s', u, l.c);
    } else {
      assert forall c: nat :: !Current(s', u, c);
    }
  }

  lemma StepResidue(s: State, l: Label, u: string)
    requires Recorded(s) && Ledger(s, u) && Enabled(s, l) && Residue(s, u) && Apart(s, l, u)
    ensures Residue(Next(s, l), u)
  {
    if UserOf(s, l) != u || Passive(l) {
      ResidueAside(s, l, u);
    } else if l.AddConn? {
      ResidueAdd(s, l, u);
    } else if l.Subscribe? {
      ResidueSubscribe(s, l, u);
    } else if l.Unsubscribe? {
      ResidueUnsubscribe(s, l, u);
    } else if l.SetOffline? && !l.ok {
      ResidueGivesUp(s, l, u);
    } else {
      ResidueMoves(s, l, u);
    }
  }

  lemma {:induction false} RunResidue(r: Run, u: string)
    requires ValidRun(INIT, r) && ApartRun(r, u)
    ensures Residue(After(INIT, r), u)
  {
    if r.Then? {
      RunResidue(r.before, u);
      LoopsAreSubscribedLessStopped(r.before, u);
      StepResidue(After(INIT, r.before), r.last, u);
    } else {
      assert !SomeLeft(INIT, u) && Kept(INIT, u) == {};
    }
  }

  /** When all sessions of a user who never had two at once are over, no entry is left; and no subscription is left,
      recorded or listening, exactly when each session's successful Unsubscribe came after its own Subscribe. What is
      left listens, but for loops that died. */
  lemma {:induction false} LeftoverIff(r: Run, u: string)
    requires ValidRun(INIT, r) && ApartRun(r, u)
    requires forall c :: c in After(INIT, r).sessions && After(INIT, r).sessions[c].user == u ==>
               Over(After(INIT, r).sessions[c])
    ensures var s := After(INIT, r);
      && u !in s.conns
      && (Kept(s, u) == {} <==> forall c :: c in s.sessions && s.sessions[c].user == u ==> s.sessions[c].undone)
      && LiveOf(s, u) == Kept(s, u) - Died(s.trace, u)
      && (u in s.subs ==> s.subs[u] in Kept(s, u))
  {
    var s := After(INIT, r);
    RunResidue(r, u);
    LoopsAreSubscribedLessStopped(r, u);
    assert forall c: nat :: !Current(s, u, c);
    if SomeLeft(s, u) {
      var c: nat :| LeftBy(s, u, c);
      assert !s.sessions[c].undone;
    } else {
      forall c | c in s.sessions && s.sessions[c].user == u ensures s.sessions[c].undone {
        assert !LeftBy(s, u, c);
      }
    }
  }

  ghost predicate SubscribedIn(r: Run, c: nat) {
    r.Then? && (SubscribedIn(r.before, c) || (r.last.Subscribe? && r.last.c == c))
  }

  /** Session c unsubscribed with success, a record being there, after it had subscribed. */
  ghost predicate UndidIn(r: Run, c: nat)
    requires ValidRun(INIT, r)
  {
    r.Then? &&
    (UndidIn(r.before, c) ||
     (r.last == Unsubscribe(c, true) && SubscribedIn(r.before, c)
      && After(INIT, r.before).sessions[c].user in After(INIT, r.before).subs))
  }

  lemma UndoneStep(s: State, l: Label, c: nat)
    requires Enabled(s, l) && c in Next(s, l).sessions
    ensures var x' := Next(s, l).sessions[c];
      if c !in s.sessions then !x'.undone && !x'.up.Subscribed? && l.AddConn?
      else
        var x := s.sessions[c];
        && (x'.up.Subscribed? <==> x.up.Subscribed? || (l.Subscribe? && l.c == c))
        && (x.undone ==> x.down.Closed?)
        ==> (x'.undone <==> x.undone || (l == Unsubscribe(c, true) && x.up.Subscribed? && x.user in s.subs))
            && (x'.undone ==> x'.down.Closed?)
  {
  }

  /** The two flags of a session are what its run says of it. */
  lemma {:induction false} UndoneIff(r: Run, c: nat)
    requires ValidRun(INIT, r)
    ensures c !in After(INIT, r).sessions ==> !SubscribedIn(r, c) && !UndidIn(r, c)
    ensures c in After(INIT, r).sessions ==>
              var x := After(INIT, r).sessions[c];
              && (x.up.Subscribed? <==> SubscribedIn(r, c))
              && (x.undone <==> UndidIn(r, c))
              && (x.undone ==> x.down.Closed?)
  {
    if r.Then? {
      UndoneIff(r.before, c);
      if c in After(INIT, r).sessions { UndoneStep(After(INIT, r.before), r.last, c); }
      SessionsStay(After(INIT, r.before), r.last, c);
    }
  }

  lemma SessionsStay(s: State, l: Label, c: nat)
    requires Enabled(s, l)
    ensures c in s.sessions ==> c in Next(s, l).sessions
  {
  }

  /** A connection lost at once: the reader closes before onConnect has run. The session is over, its user online and
      subscribed. */
  lemma EarlyCloseLeaves(u: string) returns (r: Run)
    requires u != ""
    ensures ValidRun(INIT, r) && ApartRun(r, u)
    ensures var s := After(INIT, r);
      0 in s.sessions && Over(s.sessions[0]) && u in s.online && u in s.subs && LiveOf(s, u) == {0} && u !in s.conns
  {
    var r0 := Then(Start, AddConn(0, u));
    RunTo(INIT, Start, AddConn(0, u));
    assert ApartRun(r0, u) by { assert ApartRun(Start, u); }
    var r1 := ApartTo(r0, BeginClose(0, true), u);
    var r2 := ApartTo(r1, RemoveConn(0), u);
    var r3 := ApartTo(r2, SetOffline(0, true), u);
    var r4 := ApartTo(r3, Unsubscribe(0, true), u);
    var r5 := ApartTo(r4, SetOnline(0, true), u);
    r := ApartTo(r5, Subscribe(0, 0), u);
  }

  lemma ApartTo(r: Run, l: Label, u: string) returns (r': Run)
    requires ValidRun(INIT, r) && ApartRun(r, u) && Enabled(After(INIT, r), l) && !l.AddConn?
    ensures r' == Then(r, l) && ValidRun(INIT, r') && After(INIT, r') == Next(After(INIT, r), l) && ApartRun(r', u)
  {
    r' := Then(r, l);
  }
}
