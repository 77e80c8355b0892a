/** Delivery to sockets: ConnManager's direct routing (gateway/conn_manager.go) and the same through Redis
    (service/router/redis_router.go), where a subscriber loop hands what it hears to the local router. */
module Routing {
  import opened Types
  import S = Sessions

  /** One attempt to push a message to the connection of a session. */
  type Pushes = multiset<(nat, Message)>

  function LocalRoute(conns: map<string, nat>, m: Message): Pushes {
    if m.toId in conns then multiset{(conns[m.toId], m)} else multiset{}
  }

  function Copies(n: nat, ps: Pushes): Pushes {
    if n == 0 then multiset{} else Copies(n - 1, ps) + ps
  }

  function ToMember(conns: map<string, nat>, m: Message, id: string): Pushes {
    if id == m.fromId || id !in conns then multiset{} else multiset{(conns[id], m)}
  }

  function ToMembers(conns: map<string, nat>, m: Message): string -> Pushes { id => ToMember(conns, m, id) }

  /** What the goroutines of an errgroup push, one for each id, once those with an index in done have run. */
  function Gathered(each: string -> Pushes, ids: seq<string>, done: set<nat>): Pushes {
    if ids == [] then multiset{}
    else
      var n := |ids| - 1;
      Gathered(each, ids[..n], done) + if n in done then each(ids[n]) else multiset{}
  }

  function AllOf(each: string -> Pushes, ids: seq<string>): Pushes {
    if ids == [] then multiset{} else AllOf(each, ids[..|ids| - 1]) + each(ids[|ids| - 1])
  }

  function LocalGroup(conns: map<string, nat>, m: Message, ids: seq<string>): Pushes {
    AllOf(ToMembers(conns, m), ids)
  }

  lemma {:induction false} OneMoreDone(each: string -> Pushes, ids: seq<string>, done: set<nat>, i: nat)
    requires i < |ids| && i !in done
    ensures Gathered(each, ids, done + {i}) == Gathered(each, ids, done) + each(ids[i])
  {
    var n := |ids| - 1;
    var rest := ids[..n];
    var last := if n in done then each(ids[n]) else multiset{};
    assert Gathered(each, ids, done) == Gathered(each, rest, done) + last;
    if i < n {
      OneMoreDone(each, rest, done, i);
      assert rest[i] == ids[i];
      assert Gathered(each, ids, done + {i}) == Gathered(each, rest, done + {i}) + last;
    } else {
      BeyondEnd(each, rest, done, i);
      assert Gathered(each, ids, done + {i}) == Gathered(each, rest, done + {i}) + each(ids[i]);
    }
  }

  lemma OneMorePushed(before: Pushes, each: string -> Pushes, ids: seq<string>, done: set<nat>, i: nat)
    requires i < |ids| && i !in done
    ensures before + Gathered(each, ids, done + {i}) == before + Gathered(each, ids, done) + each(ids[i])
  {
    OneMoreDone(each, ids, done, i);
  }

  lemma {:induction false} BeyondEnd(each: string -> Pushes, ids: seq<string>, done: set<nat>, i: nat)
    requires i >= |ids|
    ensures Gathered(each, ids, done + {i}) == Gathered(each, ids, done)
  {
    if ids != [] {
      BeyondEnd(each, ids[..|ids| - 1], done, i);
    }
  }

  lemma {:induction false} AllDone(each: string -> Pushes, ids: seq<string>, done: set<nat>)
    requires forall i :: 0 <= i < |ids| ==> i in done
    ensures Gathered(each, ids, done) == AllOf(each, ids)
  {
    if ids != [] {
      AllDone(each, ids[..|ids| - 1], done);
    }
  }

  lemma {:induction false} OnlyIndices(each: string -> Pushes, ids: seq<string>, a: set<nat>, b: set<nat>)
    requires forall i: nat :: i < |ids| ==> (i in a <==> i in b)
    ensures Gathered(each, ids, a) == Gathered(each, ids, b)
  {
    if ids != [] {
      OnlyIndices(each, ids[..|ids| - 1], a, b);
    }
  }

  lemma {:induction false} NoneDone(each: string -> Pushes, ids: seq<string>)
    ensures Gathered(each, ids, {}) == multiset{}
  {
    if ids != [] {
      NoneDone(each, ids[..|ids| - 1]);
    }
  }

  /** Publish to a user's channel: each loop listening there routes the message locally, by its ToId. */
  function Publish(s: S.State, channel: string, m: Message): Pushes {
    Copies(|S.LiveOf(s, channel)|, LocalRoute(s.conns, m))
  }

  function RedisRoute(s: S.State, m: Message): Pushes { Publish(s, m.toId, m) }

  function ToChannels(s: S.State, m: Message): string -> Pushes { id => Publish(s, id, m) }

  function RedisGroup(s: S.State, m: Message, ids: seq<string>): Pushes {
    AllOf(ToChannels(s, m), ids)
  }

  lemma CopiesCount(n: nat, ps: Pushes, p: (nat, Message))
    ensures Copies(n, ps)[p] == n * ps[p]
  {
  }

  lemma CopiesAdd(n: nat, k: nat, ps: Pushes)
    ensures Copies(n + k, ps) == Copies(n, ps) + Copies(k, ps)
  {
    if k > 0 {
      CopiesAdd(n, k - 1, ps);
    }
  }

  /** Going through Redis delivers what direct routing delivers exactly when the recipient has no
      connection here, or one subscriber loop. */
  lemma RedisRefinesLocalIff(s: S.State, m: Message)
    ensures RedisRoute(s, m) == LocalRoute(s.conns, m) <==> m.toId !in s.conns || |S.LiveOf(s, m.toId)| == 1
  {
    var n := |S.LiveOf(s, m.toId)|;
    if m.toId in s.conns {
      var p := (s.conns[m.toId], m);
      CopiesCount(n, LocalRoute(s.conns, m), p);
      if n == 1 {
        assert Copies(1, LocalRoute(s.conns, m)) == Copies(0, LocalRoute(s.conns, m)) + LocalRoute(s.conns, m);
      }
    } else {
      CopiesNone(n);
    }
  }

  lemma CopiesNone(n: nat)
    ensures Copies(n, multiset{}) == multiset{}
  {
  }

  /** So for a connected user whose own sessions do not overlap, Redis routing is direct routing until the user's loop
      dies, and nothing from then on. */
  lemma {:induction false} ConnectedUsersRouted(r: S.Run, m: Message, c: nat)
    requires S.ValidRun(S.INIT, r) && S.OrderlyRun(S.INIT, r, m.toId)
    requires var s := S.After(S.INIT, r);
      c in S.OpenOf(s, m.toId) && s.sessions[c].up.Subscribed? && s.sessions[c].down.NotClosing?
    ensures var s := S.After(S.INIT, r);
      && m.toId in s.subs
      && RedisRoute(s, m) == if s.subs[m.toId] in S.Died(s.trace, m.toId) then multiset{} else multiset{(c, m)}
  {
    var s := S.After(S.INIT, r);
    S.ConnectedMeansBoth(r, m.toId, c);
    var sub := s.subs[m.toId];
    if sub in S.Died(s.trace, m.toId) {
      assert S.LiveOf(s, m.toId) == {};
    } else {
      assert S.LiveOf(s, m.toId) == {sub};
      RedisRefinesLocalIff(s, m);
    }
  }

  /** Sessions are registered under their own user only, so under at most one. */
  predicate OneUserEach(conns: map<string, nat>) {
    forall u, v :: u in conns && v in conns && conns[u] == conns[v] ==> u == v
  }

  predicate Owned(s: S.State) {
    forall u :: u in s.conns ==> s.conns[u] in s.sessions && s.sessions[s.conns[u]].user == u
  }

  lemma StepOwned(s: S.State, l: S.Label)
    requires Owned(s) && S.Enabled(s, l)
    ensures Owned(S.Next(s, l))
  {
  }

  lemma {:induction false} RegisteredUnderOwnUser(r: S.Run)
    requires S.ValidRun(S.INIT, r)
    ensures Owned(S.After(S.INIT, r)) && OneUserEach(S.After(S.INIT, r).conns)
  {
    if r.Then? {
      RegisteredUnderOwnUser(r.before);
      StepOwned(S.After(S.INIT, r.before), r.last);
    }
  }

  /** Direct group routing attempts one push for each registered member other than the sender, and no
      other push. */
  lemma {:induction false} GroupOnceEach(conns: map<string, nat>, m: Message, ids: seq<string>, c: nat, m': Message)
    requires Distinct(ids) && OneUserEach(conns)
    ensures LocalGroup(conns, m, ids)[(c, m')] ==
      if m' == m && (exists u :: u in ids && u != m.fromId && u in conns && conns[u] == c) then 1 else 0
  {
    if ids != [] {
      var n := |ids| - 1;
      var rest := ids[..n];
      GroupOnceEach(conns, m, rest, c, m');
      var hit := exists u :: u in rest && u != m.fromId && u in conns && conns[u] == c;
      var last := ids[n] != m.fromId && ids[n] in conns && conns[ids[n]] == c;
      assert ids == rest + [ids[n]];
      assert ids[n] !in rest;
      assert (exists u :: u in ids && u != m.fromId && u in conns && conns[u] == c) <==> hit || last;
      assert !(hit && last);
    }
  }

  function LoopsFor(s: S.State, ids: seq<string>): nat {
    if ids == [] then 0 else LoopsFor(s, ids[..|ids| - 1]) + |S.LiveOf(s, ids[|ids| - 1])|
  }

  /** Through Redis a group message is routed once more by its ToId: whoever the members are, all that
      comes out is copies of one direct routing, one for each loop of a member, the sender's included. */
  lemma {:induction false} RedisGroupIsCopies(s: S.State, m: Message, ids: seq<string>)
    ensures RedisGroup(s, m, ids) == Copies(LoopsFor(s, ids), LocalRoute(s.conns, m))
  {
    if ids != [] {
      var n := |ids| - 1;
      var rest := ids[..n];
      RedisGroupIsCopies(s, m, rest);
      CopiesAdd(LoopsFor(s, rest), |S.LiveOf(s, ids[n])|, LocalRoute(s.conns, m));
      assert RedisGroup(s, m, ids) == RedisGroup(s, m, rest) + Publish(s, ids[n], m);
    }
  }

  /** A room message has an empty ToId, and no user has an empty id: it reaches no socket. */
  lemma {:induction false} RoomMessagesReachNobody(r: S.Run, m: Message, ids: seq<string>)
    requires S.ValidRun(S.INIT, r) && m.toId == ""
    ensures RedisGroup(S.After(S.INIT, r), m, ids) == multiset{}
  {
    var s := S.After(S.INIT, r);
    S.LoopsAreSubscribedLessStopped(r, "");
    RedisGroupIsCopies(s, m, ids);
    CopiesNone(LoopsFor(s, ids));
  }

  /** Exactly when it reaches a socket at all. */
  lemma RedisGroupReachesIff(s: S.State, m: Message, ids: seq<string>)
    ensures RedisGroup(s, m, ids) != multiset{} <==> m.toId in s.conns && LoopsFor(s, ids) > 0
  {
    RedisGroupIsCopies(s, m, ids);
    if m.toId in s.conns {
      CopiesCount(LoopsFor(s, ids), LocalRoute(s.conns, m), (s.conns[m.toId], m));
    } else {
      CopiesNone(LoopsFor(s, ids));
    }
  }
}
