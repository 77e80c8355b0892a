/** The registry, the Redis router and the callbacks of handleWs as the objects they are. Pushes are attempts: what
    a full or closed connection does with one is in WsConnection. The callbacks extend one run of Sessions. */
module Gateway {
  import opened Types
  import opened Routing
  import S = Sessions

  function Below(n: nat): (s: set<nat>)
    ensures forall i: nat :: i in s <==> i < n
  {
    if n == 0 then {} else Below(n - 1) + {n - 1}
  }

  class ConnManager {
    var conns: map<string, nat>
    ghost var pushed: Pushes

    constructor ()
      ensures conns == map[] && pushed == multiset{}
    {
      conns := map[];
      pushed := multiset{};
    }

    method AddConn(id: string, conn: nat)
      modifies this`conns
      ensures conns == old(conns)[id := conn]
    {
      conns := conns[id := conn];
    }

    /** Only the map: nothing is closed. */
    method RemoveConn(id: string)
      modifies this`conns
      ensures conns == old(conns) - {id}
    {
      conns := conns - {id};
    }

    method GetConn(id: string) returns (conn: Option<nat>)
      ensures conn == if id in conns then Some(conns[id]) else None
    {
      conn := if id in conns then Some(conns[id]) else None;
    }

    ghost method Push(conn: nat, m: Message)
      modifies this`pushed
      ensures pushed == old(pushed) + multiset{(conn, m)}
    {
      pushed := pushed + multiset{(conn, m)};
    }

    method Route(m: Message)
      modifies this`pushed
      ensures pushed == old(pushed) + LocalRoute(conns, m)
    {
      var conn := GetConn(m.toId);
      if conn.None? {
        return;
      }
      Push(conn.value, m);
    }

    /** One of the errgroup's goroutines. */
    method RouteMember(m: Message, memberId: string)
      modifies this`pushed
      ensures pushed == old(pushed) + ToMembers(conns, m)(memberId)
    {
      if memberId == m.fromId {
        return;
      }
      var conn := GetConn(memberId);
      if conn.None? {
        return;
      }
      Push(conn.value, m);
    }

    /** The errgroup's goroutines, in whatever order they come to run. */
    method RouteGroup(m: Message, memberIds: seq<string>)
      modifies this`pushed
      ensures pushed == old(pushed) + LocalGroup(conns, m, memberIds)
    {
      var pending := Below(|memberIds|);
      ghost var done: set<nat> := {};
      ghost var each := ToMembers(conns, m);
      NoneDone(each, memberIds);
      while pending != {}
        invariant each == ToMembers(conns, m)
        invariant forall i: nat :: i in pending ==> i < |memberIds| && i !in done
        invariant forall i: nat :: i < |memberIds| ==> i in pending || i in done
        invariant pushed == old(pushed) + Gathered(each, memberIds, done)
        decreases |pending|
      {
        var i: nat :| i in pending;
        OneMorePushed(old(pushed), each, memberIds, done, i);
        RouteMember(m, memberIds[i]);
        done := done + {i};
        pending := pending - {i};
      }
      AllDone(each, memberIds, done);
    }
  }

  /** Enough of a session state to say who listens where. */
  function Listening(conns: map<string, nat>, loops: map<nat, string>): S.State {
    S.INIT.(conns := conns, loops := loops)
  }

  class RedisMsgRouter {
    const localRouter: ConnManager
    var userChannlsMap: map<string, nat>
    var loops: map<nat, string>          // the subscriber goroutines, by subscription

    constructor (localRouter: ConnManager)
      ensures this.localRouter == localRouter && userChannlsMap == map[] && loops == map[]
    {
      this.localRouter := localRouter;
      userChannlsMap := map[];
      loops := map[];
    }

    /** sub is the new PubSub; the old record, if any, is overwritten and its loop goes on. */
    method Subscribe(userId: string, sub: nat)
      requires sub !in loops
      modifies this
      ensures userChannlsMap == old(userChannlsMap)[userId := sub]
      ensures loops == old(loops)[sub := userId]
    {
      userChannlsMap := userChannlsMap[userId := sub];
      loops := loops[sub := userId];
    }

    method Unsubscribe(userId: string, closes: bool) returns (ok: bool)
      modifies this
      ensures ok <==> userId in old(userChannlsMap) && closes
      ensures ok ==> userChannlsMap == old(userChannlsMap) - {userId}
      ensures ok ==> loops == old(loops) - {old(userChannlsMap)[userId]}
      ensures !ok ==> userChannlsMap == old(userChannlsMap) && loops == old(loops)
    {
      if userId !in userChannlsMap {
        return false;
      }
      var pubsub := userChannlsMap[userId];
      if !closes {
        return false;
      }
      loops := loops - {pubsub};
      userChannlsMap := userChannlsMap - {userId};
      ok := true;
    }

    /** Redis takes the message or does not; the bus hands it to every loop on the channel; each routes it locally. */
    method Publish(channel: string, m: Message, taken: bool) returns (ok: bool)
      modifies localRouter`pushed
      ensures ok == taken
      ensures localRouter.pushed == old(localRouter.pushed)
        + if ok then ToChannels(Listening(localRouter.conns, loops), m)(channel) else multiset{}
    {
      if !taken {
        return false;
      }
      var hearing: set<nat> := set l: nat | l in loops && loops[l] == channel;
      ghost var n := 0;
      assert hearing == S.LiveOf(Listening(localRouter.conns, loops), channel);
      ghost var all := |hearing|;
      while hearing != {}
        invariant |hearing| + n == all
        invariant localRouter.pushed == old(localRouter.pushed) + Copies(n, LocalRoute(localRouter.conns, m))
        decreases |hearing|
      {
        var l: nat :| l in hearing;
        localRouter.Route(m);
        n := n + 1;
        hearing := hearing - {l};
      }
      ok := true;
    }

    method Route(m: Message, taken: bool) returns (ok: bool)
      modifies localRouter`pushed
      ensures ok == taken
      ensures localRouter.pushed == old(localRouter.pushed)
        + if ok then RedisRoute(Listening(localRouter.conns, loops), m) else multiset{}
    {
      ok := Publish(m.toId, m, taken);
    }

    /** The errgroup's goroutines in any order; taken are the members whose publish Redis accepts. The group
        reports an error when one of them fails, and the others are published all the same. */
    method RouteGroup(m: Message, memberIds: seq<string>, taken: set<nat>) returns (ok: bool)
      modifies localRouter`pushed
      ensures ok <==> forall i :: 0 <= i < |memberIds| ==> i in taken
      ensures localRouter.pushed == old(localRouter.pushed)
        + Gathered(ToChannels(Listening(localRouter.conns, loops), m), memberIds, taken)
      ensures ok ==>
        localRouter.pushed == old(localRouter.pushed) + RedisGroup(Listening(localRouter.conns, loops), m, memberIds)
    {
      var pending := Below(|memberIds|);
      ghost var done: set<nat> := {};
      ghost var each := ToChannels(Listening(localRouter.conns, loops), m);
      NoneDone(each, memberIds);
      ok := true;
      while pending != {}
        invariant each == ToChannels(Listening(localRouter.conns, loops), m)
        invariant forall i: nat :: i in pending ==> i < |memberIds| && i !in done
        invariant forall i: nat :: i < |memberIds| && i !in pending ==> (i in done <==> i in taken)
        invariant ok <==> forall i: nat :: i < |memberIds| && i !in pending ==> i in taken
        invariant localRouter.pushed == old(localRouter.pushed) + Gathered(each, memberIds, done)
        decreases |pending|
      {
        var i: nat :| i in pending;
        var sent := Publish(memberIds[i], m, i in taken);
        if sent {
          OneMorePushed(old(localRouter.pushed), each, memberIds, done, i);
          done := done + {i};
        } else {
          ok := false;
        }
        pending := pending - {i};
      }
      OnlyIndices(each, memberIds, done, taken);
      if ok { AllDone(each, memberIds, done); }
    }
  }

  /** The user service's part of the callbacks: the online keys. */
  class OnlineKeys {
    var online: set<string>

    constructor ()
      ensures online == {}
    {
      online := {};
    }

    method SetOnlineStatus(userId: string, on: bool, answers: bool) returns (ok: bool)
      modifies this
      ensures ok == answers
      ensures online == if !ok then old(online) else if on then old(online) + {userId} else old(online) - {userId}
    {
      if answers {
        online := if on then online + {userId} else online - {userId};
      }
      ok := answers;
    }
  }

  /** handleWs and the callbacks it gives to a connection; run is the history they write in the three objects.
      Each callback runs here without interruption. Its steps interleaved with others are in Sessions. */
  class WsServer {
    const connManager: ConnManager
    const redisMsgRouter: RedisMsgRouter
    const userService: OnlineKeys
    ghost var run: S.Run

    ghost predicate Valid()
      reads this, connManager, redisMsgRouter, userService
    {
      && redisMsgRouter.localRouter == connManager
      && S.ValidRun(S.INIT, run)
      && var s := S.After(S.INIT, run);
        && s.conns == connManager.conns && s.online == userService.online
        && s.subs == redisMsgRouter.userChannlsMap && s.loops == redisMsgRouter.loops
    }

    constructor (connManager: ConnManager, redisMsgRouter: RedisMsgRouter, userService: OnlineKeys)
      requires redisMsgRouter.localRouter == connManager && connManager.conns == map[] && userService.online == {}
      requires redisMsgRouter.userChannlsMap == map[] && redisMsgRouter.loops == map[]
      ensures Valid() && run == S.Start
      ensures this.connManager == connManager && this.redisMsgRouter == redisMsgRouter
      ensures this.userService == userService
    {
      this.connManager := connManager;
      this.redisMsgRouter := redisMsgRouter;
      this.userService := userService;
      run := S.Start;
    }

    /** A request without a user is turned away, and so is one that cannot be upgraded; c is the new connection, sub
        the PubSub that onConnect makes. */
    method HandleWs(id: string, upgrades: bool, c: nat, sub: nat, answers: bool) returns (connected: bool)
      requires Valid() && c !in S.After(S.INIT, run).sessions && sub !in S.After(S.INIT, run).issued
      modifies this, connManager`conns, redisMsgRouter, userService
      ensures Valid() && connected == (id != "" && upgrades)
      ensures run == if !connected then old(run)
        else S.Then(S.Then(S.Then(old(run), S.AddConn(c, id)), S.SetOnline(c, answers)), S.Subscribe(c, sub))
    {
      if id == "" {
        return false;
      }
      if !upgrades {
        return false;
      }
      connManager.AddConn(id, c);
      run := S.Then(run, S.AddConn(c, id));
      assert Valid();
      OnConnect(id, c, sub, answers);
      connected := true;
    }

    method OnConnect(id: string, c: nat, sub: nat, answers: bool)
      requires Valid() && sub !in S.After(S.INIT, run).issued
      requires var s := S.After(S.INIT, run); c in s.sessions && s.sessions[c].user == id && s.sessions[c].up.Added?
      modifies this, redisMsgRouter, userService
      ensures Valid()
      ensures run == S.Then(S.Then(old(run), S.SetOnline(c, answers)), S.Subscribe(c, sub))
    {
      S.LoopsAreSubscribedLessStopped(run, id);
      var _ := userService.SetOnlineStatus(id, true, answers);
      run := S.Then(run, S.SetOnline(c, answers));
      assert Valid();
      redisMsgRouter.Subscribe(id, sub);
      run := S.Then(run, S.Subscribe(c, sub));
    }

    /** The first two calls of onClose. */
    method Deregister(id: string, c: nat, answers: bool) returns (ok: bool)
      requires Valid()
      requires var s := S.After(S.INIT, run); c in s.sessions && s.sessions[c].user == id && s.sessions[c].down.Closing?
      modifies this, connManager`conns, userService
      ensures Valid() && ok == answers
      ensures run == S.Then(S.Then(old(run), S.RemoveConn(c)), S.SetOffline(c, answers))
      ensures var s := S.After(S.INIT, run);
        c in s.sessions && s.sessions[c].user == id && s.sessions[c].down == if ok then S.MarkedOffline else S.Closed
    {
      connManager.RemoveConn(id);
      run := S.Then(run, S.RemoveConn(c));
      assert Valid();
      ok := userService.SetOnlineStatus(id, false, answers);
      run := S.Then(run, S.SetOffline(c, answers));
    }

    /** It stops at the first call that fails. */
    method OnClose(id: string, c: nat, answers: bool, closes: bool)
      requires Valid()
      requires var s := S.After(S.INIT, run); c in s.sessions && s.sessions[c].user == id && s.sessions[c].down.Closing?
      modifies this, connManager`conns, redisMsgRouter, userService
      ensures Valid() && c in S.After(S.INIT, run).sessions && S.After(S.INIT, run).sessions[c].down.Closed?
      ensures var off := S.Then(S.Then(old(run), S.RemoveConn(c)), S.SetOffline(c, answers));
        run == if answers then S.Then(off, S.Unsubscribe(c, closes)) else off
    {
      var ok := Deregister(id, c, answers);
      if !ok {
        return;
      }
      var _ := redisMsgRouter.Unsubscribe(id, closes);
      run := S.Then(run, S.Unsubscribe(c, closes));
    }

    method OnPong(id: string, c: nat, answers: bool)
      requires Valid()
      requires var s := S.After(S.INIT, run); c in s.sessions && s.sessions[c].user == id && s.sessions[c].reading
      modifies this, userService
      ensures Valid() && run == S.Then(old(run), S.Pong(c, answers))
    {
      var _ := userService.SetOnlineStatus(id, true, answers);
      run := S.Then(run, S.Pong(c, answers));
    }
  }
}
