/** From messages to conversations: the updateConversation calls that SendMessage starts (service/message.go), and
    what the table holds when all of them are through. */
module MessageUpdates {
  import opened Types
  import MS = MessageService
  import opened ConversationTable
  import opened ConversationUpdates

  /** What the model does not have: display names, and the members a room has when the i-th action sends to it. */
  datatype Directory = Directory(names: string -> string, members: (nat, string) -> seq<string>)

  function KeyFor(user: string, peer: string, group: bool): Key {
    if group then RoomKey(user, peer) else PeerKey(user, peer)
  }

  /** The two updates of a message that has passed the online check, started just before it is routed. */
  function Direct(d: Directory, m: Message): seq<Request> {
    [Update(KeyFor(m.fromId, m.toId, m.roomId != ""), m, d.names(m.fromId), 0),
     Update(KeyFor(m.toId, m.fromId, m.roomId != ""), m, d.names(m.fromId), 1)]
  }

  /** sendGroupMessage: one update for each member. */
  function ForMembers(d: Directory, m: Message, ids: seq<string>): seq<Request> {
    if ids == [] then []
    else
      var id := ids[|ids| - 1];
      ForMembers(d, m, ids[..|ids| - 1])
      + [Update(RoomKey(id, m.roomId), m, d.names(m.fromId), if id == m.fromId then 0 else 1)]
  }

  function Started(d: Directory, i: nat, a: MS.Act): seq<Request> {
    if !a.Did? then []
    else if a.kind.Deliver? then Direct(d, a.m)
    else if a.kind.Group? then ForMembers(d, a.m, d.members(i, a.m.roomId))
    else []
  }

  function AllStarted(d: Directory, acts: seq<MS.Act>): seq<Request> {
    if acts == [] then [] else AllStarted(d, acts[..|acts| - 1]) + Started(d, |acts| - 1, acts[|acts| - 1])
  }

  function Waiting(reqs: seq<Request>): seq<Worker> {
    seq(|reqs|, i requires 0 <= i < |reqs| => Worker(reqs[i], Start))
  }

  function B(b: bool): nat { if b then 1 else 0 }

  /** What one action owes the counter of a direct conversation: one for its message, on the recipient's side. */
  function OwedDirect(a: MS.Act, user: string, peer: string): nat {
    B(a.Did? && a.kind.Deliver? && a.m.roomId == "" && a.m.toId == user && a.m.fromId == peer)
  }

  function AllOwed(acts: seq<MS.Act>, user: string, peer: string): nat {
    if acts == [] then 0 else AllOwed(acts[..|acts| - 1], user, peer) + OwedDirect(acts[|acts| - 1], user, peer)
  }

  /** How often an id is listed. */
  function Times(ids: seq<string>, id: string): nat {
    if ids == [] then 0 else Times(ids[..|ids| - 1], id) + B(ids[|ids| - 1] == id)
  }

  /** A room message counts once for a member who did not send it. A message that has a room and still was sent
      directly, which only kinds that are not saved can be, counts under its sender as if that were a room. */
  function OwedRoom(d: Directory, i: nat, a: MS.Act, user: string, room: string): nat {
    if !a.Did? then 0
    else if a.kind.Deliver? then B(a.m.roomId != "" && a.m.toId == user && a.m.fromId == room)
    else if a.kind.Group? && a.m.roomId == room && user != a.m.fromId then Times(d.members(i, room), user)
    else 0
  }

  function AllOwedRoom(d: Directory, acts: seq<MS.Act>, user: string, room: string): nat {
    if acts == [] then 0
    else
      var i := |acts| - 1;
      AllOwedRoom(d, acts[..i], user, room) + OwedRoom(d, i, acts[i], user, room)
  }

  lemma {:induction false} AskedJoins(a: seq<Worker>, b: seq<Worker>, k: Key)
    ensures Asked(a + b, k) == Asked(a, k) + Asked(b, k)
  {
    if b == [] {
      assert a + b == a;
    } else {
      var n := |b| - 1;
      AskedJoins(a, b[..n], k);
      assert (a + b)[..|a + b| - 1] == a + b[..n];
    }
  }

  lemma WaitingJoins(a: seq<Request>, b: seq<Request>, k: Key)
    ensures Asked(Waiting(a + b), k) == Asked(Waiting(a), k) + Asked(Waiting(b), k)
  {
    assert Waiting(a + b) == Waiting(a) + Waiting(b);
    AskedJoins(Waiting(a), Waiting(b), k);
  }

  lemma OneAsked(r: Request, k: Key)
    ensures Asked(Waiting([r]), k) == if r.Update? && r.key == k then r.delta else 0
  {
    var w := Waiting([r]);
    assert w == [Worker(r, Start)];
    assert w[..0] == [] && Asked([], k) == 0;
  }

  lemma DirectAsked(d: Directory, m: Message, k: Key)
    ensures Asked(Waiting(Direct(d, m)), k) == B(k == KeyFor(m.toId, m.fromId, m.roomId != ""))
  {
    var both := Direct(d, m);
    assert both == [both[0]] + [both[1]];
    WaitingJoins([both[0]], [both[1]], k);
    OneAsked(both[0], k);
    OneAsked(both[1], k);
  }

  lemma {:induction false} MembersAsked(d: Directory, m: Message, ids: seq<string>, k: Key)
    ensures Asked(Waiting(ForMembers(d, m, ids)), k) ==
      if k.RoomKey? && k.roomId == m.roomId && k.userId != m.fromId then Times(ids, k.userId) else 0
  {
    if ids == [] {
      assert Waiting([]) == [];
    } else {
      var n := |ids| - 1;
      MembersAsked(d, m, ids[..n], k);
      var last := Update(RoomKey(ids[n], m.roomId), m, d.names(m.fromId), if ids[n] == m.fromId then 0 else 1);
      WaitingJoins(ForMembers(d, m, ids[..n]), [last], k);
      OneAsked(last, k);
    }
  }

  lemma ActAsked(d: Directory, i: nat, a: MS.Act, u: string, p: string)
    ensures Asked(Waiting(Started(d, i, a)), PeerKey(u, p)) == OwedDirect(a, u, p)
    ensures Asked(Waiting(Started(d, i, a)), RoomKey(u, p)) == OwedRoom(d, i, a, u, p)
  {
    if a.Did? && a.kind.Deliver? {
      DirectAsked(d, a.m, PeerKey(u, p));
      DirectAsked(d, a.m, RoomKey(u, p));
    } else if a.Did? && a.kind.Group? {
      MembersAsked(d, a.m, d.members(i, a.m.roomId), PeerKey(u, p));
      MembersAsked(d, a.m, d.members(i, a.m.roomId), RoomKey(u, p));
    } else {
      assert Waiting([]) == [];
    }
  }

  lemma {:induction false} AllAsked(d: Directory, acts: seq<MS.Act>, u: string, p: string)
    ensures Asked(Waiting(AllStarted(d, acts)), PeerKey(u, p)) == AllOwed(acts, u, p)
    ensures Asked(Waiting(AllStarted(d, acts)), RoomKey(u, p)) == AllOwedRoom(d, acts, u, p)
  {
    if acts == [] {
      assert Waiting([]) == [];
    } else {
      var n := |acts| - 1;
      AllAsked(d, acts[..n], u, p);
      ActAsked(d, n, acts[n], u, p);
      WaitingJoins(AllStarted(d, acts[..n]), Started(d, n, acts[n]), PeerKey(u, p));
      WaitingJoins(AllStarted(d, acts[..n]), Started(d, n, acts[n]), RoomKey(u, p));
    }
  }

  lemma {:induction false} NothingAsked(others: seq<Worker>, k: Key)
    requires forall i :: 0 <= i < |others| ==> !others[i].request.Update?
    ensures Asked(others, k) == 0
  {
    if others != [] {
      NothingAsked(others[..|others| - 1], k);
    }
  }

  /** End to end: let the server run, and let the updates its messages started run, in any interleaving with one
      another and with whatever API requests come in. Once those of a direct conversation have succeeded, its unread
      counter has grown by the number of messages from the peer that passed the online check; and that of a room by
      the number of messages others sent to it at moments when the user was a member. What went to an offline
      recipient is not counted. */
  lemma {:induction false} UnreadIsMessagesHandedOver(o: MS.P.Opts, r: MS.Run, d: Directory, others: seq<Worker>,
                                                      s: State, q: Run, u: string, p: string)
    requires MS.ValidRun(o, MS.INIT, r)
    requires Initial(s) && s.workers == Waiting(AllStarted(d, MS.After(o, MS.INIT, r).acts)) + others
    requires forall i :: 0 <= i < |others| ==> !others[i].request.Update?
    requires ValidRun(s, q)
    ensures var acts := MS.After(o, MS.INIT, r).acts;
      var done := After(s, q);
      && (AllWrote(done.workers, PeerKey(u, p)) ==>
            UnreadAt(done.table, PeerKey(u, p)) == UnreadAt(s.table, PeerKey(u, p)) + AllOwed(acts, u, p))
      && (AllWrote(done.workers, RoomKey(u, p)) ==>
            UnreadAt(done.table, RoomKey(u, p)) == UnreadAt(s.table, RoomKey(u, p)) + AllOwedRoom(d, acts, u, p))
  {
    var acts := MS.After(o, MS.INIT, r).acts;
    AllAsked(d, acts, u, p);
    forall k | k in {PeerKey(u, p), RoomKey(u, p)} && AllWrote(After(s, q).workers, k)
      ensures UnreadAt(After(s, q).table, k) == UnreadAt(s.table, k) + Asked(Waiting(AllStarted(d, acts)), k)
    {
      FinalUnread(s, q, k);
      AskedJoins(Waiting(AllStarted(d, acts)), others, k);
      NothingAsked(others, k);
    }
  }

  // ---- what the conversations show

  /** One of the updates that action i starts is of the conversation under k. */
  predicate Touches(d: Directory, i: nat, a: MS.Act, k: Key) {
    exists n :: 0 <= n < |Started(d, i, a)| && Started(d, i, a)[n].key == k
  }

  lemma {:induction false} MembersTouched(d: Directory, m: Message, ids: seq<string>)
    ensures forall n :: 0 <= n < |ForMembers(d, m, ids)| ==>
              var t := ForMembers(d, m, ids)[n];
              t.Update? && t.msg == m && t.sender == d.names(m.fromId) && t.key.RoomKey? && t.key.userId in ids
              && t.key.roomId == m.roomId
    ensures forall id :: id in ids ==>
              exists n :: 0 <= n < |ForMembers(d, m, ids)| && ForMembers(d, m, ids)[n].key == RoomKey(id, m.roomId)
  {
    if ids != [] {
      var last := |ids| - 1;
      MembersTouched(d, m, ids[..last]);
      var before, all := ForMembers(d, m, ids[..last]), ForMembers(d, m, ids);
      assert all[|before|].key == RoomKey(ids[last], m.roomId);
      forall id | id in ids ensures exists n :: 0 <= n < |all| && all[n].key == RoomKey(id, m.roomId) {
        if id != ids[last] {
          assert id in ids[..last];
          var n :| 0 <= n < |before| && before[n].key == RoomKey(id, m.roomId);
          assert all[n] == before[n];
        }
      }
    }
  }

  /** The conversations an action touches: those of its two ends, or those of the members with the room. */
  lemma TouchesWhom(d: Directory, i: nat, a: MS.Act, k: Key)
    ensures Touches(d, i, a, k) <==>
      a.Did? &&
      if a.kind.Deliver? then
        if a.m.roomId == "" then k == PeerKey(a.m.fromId, a.m.toId) || k == PeerKey(a.m.toId, a.m.fromId)
        else k == RoomKey(a.m.fromId, a.m.toId) || k == RoomKey(a.m.toId, a.m.fromId)
      else a.kind.Group? && k.RoomKey? && k.roomId == a.m.roomId && k.userId in d.members(i, a.m.roomId)
    ensures forall n :: 0 <= n < |Started(d, i, a)| ==>
              var t := Started(d, i, a)[n]; t.Update? && t.msg == a.m && t.sender == d.names(a.m.fromId)
  {
    if a.Did? && a.kind.Group? {
      MembersTouched(d, a.m, d.members(i, a.m.roomId));
      if k.RoomKey? && k.roomId == a.m.roomId && k.userId in d.members(i, a.m.roomId) {
        var n :| 0 <= n < |Started(d, i, a)| && Started(d, i, a)[n].key == RoomKey(k.userId, a.m.roomId);
      }
    } else if a.Did? && a.kind.Deliver? {
      assert Started(d, i, a) == Direct(d, a.m);
      assert Touches(d, i, a, Direct(d, a.m)[0].key) && Touches(d, i, a, Direct(d, a.m)[1].key);
    }
  }

  lemma {:induction false} FromAction(d: Directory, acts: seq<MS.Act>, n: nat) returns (j: nat)
    requires n < |AllStarted(d, acts)|
    ensures j < |acts| && Touches(d, j, acts[j], AllStarted(d, acts)[n].key)
    ensures var t := AllStarted(d, acts)[n]; t.Update? && t.msg == acts[j].m && t.sender == d.names(acts[j].m.fromId)
  {
    var last := |acts| - 1;
    var before := AllStarted(d, acts[..last]);
    if n < |before| {
      j := FromAction(d, acts[..last], n);
    } else {
      j := last;
      var t := Started(d, j, acts[j])[n - |before|];
      TouchesWhom(d, j, acts[j], t.key);
    }
  }

  lemma {:induction false} ByAction(d: Directory, acts: seq<MS.Act>, i: nat, k: Key) returns (n: nat)
    requires i < |acts| && Touches(d, i, acts[i], k)
    ensures n < |AllStarted(d, acts)| && AllStarted(d, acts)[n].key == k
  {
    var last := |acts| - 1;
    if i < last {
      n := ByAction(d, acts[..last], i, k);
    } else {
      var j :| 0 <= j < |Started(d, i, acts[i])| && Started(d, i, acts[i])[j].key == k;
      n := |AllStarted(d, acts[..last])| + j;
    }
  }

  lemma UpdatesOnly(d: Directory, acts: seq<MS.Act>, others: seq<Worker>, k: Key)
    requires forall i :: 0 <= i < |others| ==> others[i].request.key != k
    ensures var ws := Waiting(AllStarted(d, acts)) + others;
      forall n :: 0 <= n < |ws| && ws[n].request.key == k ==> n < |AllStarted(d, acts)| && ws[n].request.Update?
  {
    forall n | 0 <= n < |AllStarted(d, acts)| ensures AllStarted(d, acts)[n].Update? {
      var j := FromAction(d, acts, n);
    }
  }

  /** Once action i has touched a conversation, and all its updates have succeeded, its row shows a message that did:
      with its time and text and its sender's name. So both ends of a direct message find it, the sender too. */
  lemma {:induction false} MessageShown(o: MS.P.Opts, r: MS.Run, d: Directory, others: seq<Worker>,
                                        s: State, q: Run, i: nat, k: Key) returns (j: nat)
    requires MS.ValidRun(o, MS.INIT, r) && i < |MS.After(o, MS.INIT, r).acts|
    requires Initial(s) && s.workers == Waiting(AllStarted(d, MS.After(o, MS.INIT, r).acts)) + others
    requires forall i :: 0 <= i < |others| ==> others[i].request.key != k
    requires ValidRun(s, q) && AllWrote(After(s, q).workers, k)
    requires Touches(d, i, MS.After(o, MS.INIT, r).acts[i], k)
    ensures var acts := MS.After(o, MS.INIT, r).acts;
      var row := RowAt(After(s, q).table, k);
      && j < |acts| && Touches(d, j, acts[j], k)
      && row.Some? && row.value.lastMsgTime == acts[j].m.sendAt && row.value.lastMsgContent == acts[j].m.content
      && row.value.lastSenderName == d.names(acts[j].m.fromId)
  {
    var acts := MS.After(o, MS.INIT, r).acts;
    var n := ByAction(d, acts, i, k);
    UpdatesOnly(d, acts, others, k);
    var w := LastMessageShown(s, q, n, k);
    j := FromAction(d, acts, w);
  }
}
