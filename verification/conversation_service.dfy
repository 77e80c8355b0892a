/** The conversation store, service and handlers as the objects they are, over a table they write in
    place: store/conversation_db.go, service/conversation.go, api/conversation.go and, for one call at a
    time, updateConversation of service/message.go. */
module ConversationService {
  import opened Types
  import opened ChannelIds
  import opened ConversationTable
  import opened ConversationUpdates
  import opened ConversationSerial

  datatype OpenReply = BadRequest | InternalError | Opened(conv: Conversation)

  /** What a lookup comes back with: an error, no row, or a row. */
  datatype Lookup = LookupFailed | NoRow | Found(conv: Conversation)

  /** Which statements of one updateConversation or one open the database would answer. */
  datatype Answers = Answers(look: bool, make: bool, write: bool)

  /** The notice at the end of an update; id is uuid.New() and now the clock. */
  function UpdateNotice(id: string, userId: string, peerId: string, channelId: ChannelId, now: int): Message {
    Message(id, "", peerId, channelId, userId, "", "\U{5DF2}\U{8BFB}", MessageType.ConversationUpdate, now, false)
  }

  class ConversationStore {
    var rows: Table

    constructor ()
      ensures rows == map[] && Sound(rows)
    {
      rows := map[];
    }

    /** The statement's WHERE clause, row by row. */
    method FindRow(k: Key) returns (c: Option<string>)
      requires Sound(rows)
      ensures c == Find(rows, k)
    {
      var rest := rows.Keys;
      while rest != {}
        invariant rest <= rows.Keys
        invariant forall d :: d in rows && d !in rest ==> !HasKey(rows[d], k)
        decreases |rest|
      {
        var d :| d in rest;
        if HasKey(rows[d], k) {
          FindUnique(rows, k, d);
          return Some(d);
        }
        rest := rest - {d};
      }
      c := None;
    }

    /** Both lookups by key; no row is not an error. */
    method GetByKey(k: Key, answers: bool) returns (found: Lookup)
      requires Sound(rows)
      ensures !answers ==> found == LookupFailed
      ensures answers ==> (found.NoRow? <==> RowAt(rows, k).None?) && (found.Found? <==> RowAt(rows, k).Some?)
      ensures found.Found? ==>
        && found.conv == Scanned(RowAt(rows, k).value)
        && Returns(found.conv, RowAt(rows, k).value) && RowOf(found.conv) == RowAt(rows, k).value
    {
      if !answers {
        return LookupFailed;
      }
      var c := FindRow(k);
      found := if c.None? then NoRow else Found(Scanned(rows[c.value]));
    }

    method InsertOrUpdate(c: Conversation, answers: bool) returns (ok: bool)
      requires Sound(rows)
      modifies this
      ensures ok <==> answers && Upsert(old(rows), c).Some?
      ensures rows == if ok then Upsert(old(rows), c).value else old(rows)
    {
      var r := RowOf(c);
      if !answers || !OneTarget(r) {
        return false;
      }
      if r.cid in rows {
        rows := rows[r.cid := Updated(rows[r.cid], r)];
      } else {
        var d := FindRow(KeyOf(r));
        if d.Some? {
          rows := rows[d.value := Updated(rows[d.value], r)];
        } else {
          rows := rows[r.cid := r];
        }
      }
      ok := true;
    }

    /** newId is uuid.New(). */
    method CreateConversation(userId: string, peerId: string, roomId: string, newId: string, answers: bool)
      returns (conv: Option<Conversation>)
      requires Sound(rows)
      modifies this
      ensures conv.None? ==> rows == old(rows)
      ensures conv.Some? <==> answers && (peerId == "") != (roomId == "")
      ensures conv.Some? ==>
        && conv.value == NewConversation(newId, KeyFor(userId, peerId, roomId))
        && IsEmpty(conv.value, newId, userId, peerId, roomId)
        && Upsert(old(rows), conv.value) == Some(rows)
    {
      var channelId: ChannelId;
      if roomId != "" {
        channelId := CalcRoomChannelId(roomId);
      } else {
        channelId := CalcChannelId(userId, peerId);
      }
      var conversation := Conversation(newId, userId, channelId, peerId, roomId, "", "", 0, "", 0);
      var ok := InsertOrUpdate(conversation, answers);
      conv := if ok then Some(conversation) else None;
    }

    /** Get or create: the row's conversation, a new empty one under an id not in the table, or an error that has
        left the table alone. */
    method GetOrCreate(k: Key, newId: string, answers: Answers) returns (conv: Option<Conversation>)
      requires Sound(rows) && newId !in rows
      modifies this
      ensures Sound(rows)
      ensures conv.Some? <==> answers.look && (RowAt(old(rows), k).Some? || (answers.make && RealKey(k)))
      ensures conv.None? ==> rows == old(rows)
      ensures conv.Some? ==>
        && Writable(rows, conv.value, k) && RealKey(k)
        && if RowAt(old(rows), k).Some?
           then rows == old(rows) && conv.value == Scanned(RowAt(rows, k).value)
           else rows == old(rows)[newId := EmptyRow(newId, k)] && conv.value == NewConversation(newId, k)
                && RowAt(rows, k) == Some(EmptyRow(newId, k))
      ensures forall j :: j != k ==> RowAt(rows, j) == RowAt(old(rows), j)
    {
      ghost var t0 := rows;
      NoEmptyKey(t0, k);
      var found := GetByKey(k, answers.look);
      if found.LookupFailed? {
        return None;
      }
      if found.Found? {
        ScannedWritable(t0, k);
        return Some(found.conv);
      }
      match k {
        case PeerKey(u, p) => conv := CreateConversation(u, p, "", newId, answers.make);
        case RoomKey(u, r) => conv := CreateConversation(u, "", r, newId, answers.make);
      }
      if conv.Some? {
        assert conv.value == NewConversation(newId, k) && RowOf(conv.value) == EmptyRow(newId, k);
        WriteEverywhere(t0, conv.value, k);
        UpsertAt(t0, conv.value, k);
      }
    }

    /** The last part of updateConversation: fill in what the message says and write it over the row. */
    method FillIn(found: Conversation, k: Key, message: Message, sender: string, unreadCnt: int, answers: bool)
      returns (ok: bool)
      requires Sound(rows) && Writable(rows, found, k) && RowAt(rows, k).Some?
      modifies this
      ensures Sound(rows) && ok == answers
      ensures !ok ==> rows == old(rows)
      ensures ok ==> RowAt(rows, k) == Some(FoldOne(RowAt(old(rows), k), k, Update(k, message, sender, unreadCnt), ""))
      ensures forall j :: j != k ==> RowAt(rows, j) == RowAt(old(rows), j)
    {
      var conversation := found;
      conversation := conversation.(lastMsgId := message.msgId);
      conversation := conversation.(lastMsgTime := message.sendAt);
      conversation := conversation.(lastMsgContent := message.content);
      conversation := conversation.(lastSenderName := sender);
      conversation := conversation.(unreadCount := unreadCnt);
      conversation := conversation.(channelId := message.channelId);
      FilledWritable(rows, found, k, message, sender, unreadCnt);
      WriteEverywhere(rows, conversation, k);
      ok := InsertOrUpdate(conversation, answers);
    }

    /** updateConversation for one message, nobody else at the table. sender is the user lookup. The guard
        against repeats stops only messages without an id, and reports them as done. */
    method UpdateConversation(userId: string, peerId: string, isGroup: bool, message: Message,
                              sender: Option<string>, unreadCnt: int, newId: string, answers: Answers,
                              noticeId: string, now: int)
      returns (ok: bool, routed: seq<Message>)
      requires Sound(rows) && newId !in rows
      modifies this
      ensures Sound(rows)
      ensures var k := if isGroup then RoomKey(userId, peerId) else PeerKey(userId, peerId);
        var was := RowAt(old(rows), k);
        var had := answers.look && (was.Some? || (answers.make && peerId != ""));
        && (ok <==> had && (message.msgId == "" || (sender.Some? && answers.write)))
        && (forall j :: j != k ==> RowAt(rows, j) == RowAt(old(rows), j))
        && (!had ==> rows == old(rows))
        && (had && ok && message.msgId != "" ==>
              RowAt(rows, k) == Some(FoldOne(was, k, Update(k, message, sender.value, unreadCnt), newId)))
        && (had && !(ok && message.msgId != "") ==>
              RowAt(rows, k) == if was.Some? then was else Some(EmptyRow(newId, k)))
      ensures routed == if ok && message.msgId != ""
        then [UpdateNotice(noticeId, userId, peerId, message.channelId, now)] else []
      ensures forall n :: n in routed ==>
        && n.toId == userId && n.fromId == peerId && n.typ == MessageType.ConversationUpdate
        && n.msgId == noticeId && n.channelId == message.channelId && n.sendAt == now && n.roomId == ""
    {
      var k := if isGroup then RoomKey(userId, peerId) else PeerKey(userId, peerId);
      routed := [];
      var found := GetOrCreate(k, newId, answers);
      if found.None? {
        return false, [];
      }
      if found.value.lastMsgId == message.msgId {
        return true, [];
      }
      if sender.None? {
        return false, [];
      }
      ok := FillIn(found.value, k, message, sender.value, unreadCnt, answers.write);
      if ok {
        routed := [UpdateNotice(noticeId, userId, peerId, message.channelId, now)];
      }
    }

    /** POST /conversation/open: exactly one target, then get or create. */
    method Open(userId: string, peerId: string, roomId: string, newId: string, answers: Answers)
      returns (reply: OpenReply)
      requires Sound(rows) && newId !in rows
      modifies this
      ensures Sound(rows)
      ensures reply.BadRequest? <==> (peerId == "") == (roomId == "")
      ensures !reply.BadRequest? ==>
        (reply.Opened? <==> answers.look && (answers.make || RowAt(old(rows), KeyFor(userId, peerId, roomId)).Some?))
      ensures !reply.Opened? ==> rows == old(rows)
      ensures reply.Opened? ==>
        var k := KeyFor(userId, peerId, roomId);
        && reply.conv.userId == userId && reply.conv.peerId == peerId && reply.conv.roomId == roomId
        && RowAt(rows, k) == Some(RowOf(reply.conv)) && Returns(reply.conv, RowAt(rows, k).value)
        && (RowAt(old(rows), k).Some? ==> rows == old(rows))
        && (RowAt(old(rows), k).None? ==>
              && IsEmpty(reply.conv, newId, userId, peerId, roomId)
              && rows == old(rows)[newId := RowOf(reply.conv)])
    {
      if (peerId == "" && roomId == "") || (peerId != "" && roomId != "") {
        return BadRequest;
      }
      var k := KeyFor(userId, peerId, roomId);
      var found := GetOrCreate(k, newId, answers);
      reply := if found.None? then InternalError else Opened(found.value);
    }
  }

  /** A conversation nobody has written in: no preview, no unread messages, the channel of its two users or room. */
  predicate IsEmpty(c: Conversation, id: string, userId: string, peerId: string, roomId: string) {
    && c.cid == id && c.userId == userId && c.peerId == peerId && c.roomId == roomId
    && c.channelId == (if roomId != "" then Md5(roomId) else CalcChannelId(userId, peerId))
    && c.lastMsgId == "" && c.lastMsgTime == 0 && c.lastMsgContent == "" && c.lastSenderName == ""
    && c.unreadCount == 0
  }

  function KeyFor(userId: string, peerId: string, roomId: string): Key {
    if peerId != "" then PeerKey(userId, peerId) else RoomKey(userId, roomId)
  }

  lemma NoEmptyKey(t: Table, k: Key)
    requires Sound(t)
    ensures !RealKey(k) ==> RowAt(t, k).None?
  {
  }

  /** What is under j once c has been written under k. */
  ghost function Seen(t: Table, c: Conversation, k: Key, j: Key): Option<Row> {
    if j != k then RowAt(t, j)
    else if RowAt(t, k).Some? then Some(Updated(RowAt(t, k).value, RowOf(c)))
    else Some(RowOf(c))
  }

  lemma WriteEverywhere(t: Table, c: Conversation, k: Key)
    requires Sound(t) && Writable(t, c, k)
    ensures Upsert(t, c).Some? && Sound(Upsert(t, c).value)
    ensures forall j :: RowAt(Upsert(t, c).value, j) == Seen(t, c, k, j)
    ensures Writable(Upsert(t, c).value, c, k)
  {
    UpsertAt(t, c, k);
    forall j ensures RowAt(Upsert(t, c).value, j) == Seen(t, c, k, j) {
      WriteAt(t, c, k, j);
    }
  }
}
