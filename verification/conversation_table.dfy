/** The conversations table: store/conversation_db.go against the keys and the check of migration 10. */
module ConversationTable {
  import opened Types
  import opened ChannelIds

  /** types.Conversation. */
  datatype Conversation = Conversation(
    cid: string, userId: string, channelId: ChannelId, peerId: string, roomId: string,
    lastSenderName: string, lastMsgId: string, lastMsgTime: int, lastMsgContent: string, unreadCount: int)

  /** One row. There is a last_msg_id column, but no statement writes or reads it. */
  datatype Row = Row(
    cid: string, userId: string, peerId: Option<string>, roomId: Option<string>,
    lastMsgTime: int, lastMsgContent: string, lastSenderName: string, unreadCount: int, channelId: ChannelId)

  /** Rows by primary key. */
  type Table = map<string, Row>

  /** What a conversation is about: one of the two unique keys. */
  datatype Key = PeerKey(userId: string, peerId: string) | RoomKey(userId: string, roomId: string)

  function Null(s: string): Option<string> { if s == "" then None else Some(s) }

  function Str(s: Option<string>): string { if s.None? then "" else s.value }

  function RowOf(c: Conversation): Row {
    Row(c.cid, c.userId, Null(c.peerId), Null(c.roomId),
        c.lastMsgTime, c.lastMsgContent, c.lastSenderName, c.unreadCount, c.channelId)
  }

  /** scanConversation: LastMsgId is not among the columns. */
  function Scanned(r: Row): Conversation {
    Conversation(r.cid, r.userId, r.channelId, Str(r.peerId), Str(r.roomId),
                 r.lastSenderName, "", r.lastMsgTime, r.lastMsgContent, r.unreadCount)
  }

  /** c is what the store returns for row r: every column, the empty text for NULL, and no last message id. */
  predicate Returns(c: Conversation, r: Row) {
    && c.cid == r.cid && c.userId == r.userId && c.channelId == r.channelId
    && c.peerId == (if r.peerId.None? then "" else r.peerId.value)
    && c.roomId == (if r.roomId.None? then "" else r.roomId.value)
    && c.lastMsgTime == r.lastMsgTime && c.lastMsgContent == r.lastMsgContent
    && c.lastSenderName == r.lastSenderName && c.unreadCount == r.unreadCount
    && c.lastMsgId == ""
  }

  /** What is read from a row can be written back exactly when no column holds an empty text where NULL was meant;
      what was written comes back as it was, but for the last message id. */
  lemma ReadWrite(r: Row, c: Conversation)
    ensures Returns(Scanned(r), r) && Returns(Scanned(RowOf(c)), RowOf(c))
    ensures RowOf(Scanned(r)) == r <==> r.peerId != Some("") && r.roomId != Some("")
    ensures Scanned(RowOf(c)) == c.(lastMsgId := "")
  {
  }

  /** chk_conv_type. */
  predicate OneTarget(r: Row) { r.peerId.Some? <==> r.roomId.None? }

  function KeyOf(r: Row): Key
    requires OneTarget(r)
  {
    if r.peerId.Some? then PeerKey(r.userId, r.peerId.value) else RoomKey(r.userId, r.roomId.value)
  }

  /** CreateConversation's channel id for a conversation under this key. */
  function ChannelOf(k: Key): ChannelId {
    match k
    case PeerKey(u, p) => CalcChannelId(u, p)
    case RoomKey(_, r) => CalcRoomChannelId(r)
  }

  /** UNIQUE(user_id, peer_id) and UNIQUE(user_id, room_id); NULLs never collide. */
  predicate HasKey(r: Row, k: Key) {
    match k
    case PeerKey(u, p) => r.userId == u && r.peerId == Some(p)
    case RoomKey(u, m) => r.userId == u && r.roomId == Some(m)
  }

  predicate SameUnique(a: Row, b: Row) {
    a.userId == b.userId && ((a.peerId.Some? && a.peerId == b.peerId) || (a.roomId.Some? && a.roomId == b.roomId))
  }

  /** What the constraints of the table guarantee. */
  ghost predicate Sound(t: Table) {
    && (forall c :: c in t ==> t[c].cid == c && OneTarget(t[c]) && t[c].peerId != Some("") && t[c].roomId != Some(""))
    && (forall c, d :: c in t && d in t && SameUnique(t[c], t[d]) ==> c == d)
  }

  /** SELECT ... WHERE user_id = ? AND peer_id = ? (or room_id = ?): the primary key of a match. */
  ghost function Find(t: Table, k: Key): (c: Option<string>)
    ensures c.Some? ==> c.value in t && HasKey(t[c.value], k)
    ensures c.None? ==> forall d :: d in t ==> !HasKey(t[d], k)
  {
    if c :| c in t && HasKey(t[c], k) then Some(c) else None
  }

  function Updated(old_: Row, r: Row): Row {
    old_.(lastMsgTime := r.lastMsgTime, lastMsgContent := r.lastMsgContent, lastSenderName := r.lastSenderName,
          unreadCount := old_.unreadCount + r.unreadCount)
  }

  /** INSERT ... ON DUPLICATE KEY UPDATE; None when the check rejects the row. The primary key is
      looked at first. */
  ghost function Upsert(t: Table, c: Conversation): (t': Option<Table>)
  {
    var r := RowOf(c);
    if !OneTarget(r) then None
    else if r.cid in t then Some(t[r.cid := Updated(t[r.cid], r)])
    else
      match Find(t, KeyOf(r))
      case Some(d) => Some(t[d := Updated(t[d], r)])
      case None => Some(t[r.cid := r])
  }

  /** The row under a key, if any. */
  ghost function RowAt(t: Table, k: Key): Option<Row> {
    var c := Find(t, k);
    if c.None? then None else Some(t[c.value])
  }

  ghost function UnreadAt(t: Table, k: Key): int {
    var r := RowAt(t, k);
    if r.None? then 0 else r.value.unreadCount
  }

  lemma FindUnique(t: Table, k: Key, c: string)
    requires Sound(t) && c in t && HasKey(t[c], k)
    ensures Find(t, k) == Some(c)
  {
  }

  lemma KeyOfHas(r: Row, k: Key)
    requires OneTarget(r)
    ensures HasKey(r, k) <==> KeyOf(r) == k
  {
  }

  /** The conversation may be written under its key: its cid is either the row's or nobody's. */
  ghost predicate Writable(t: Table, c: Conversation, k: Key) {
    && OneTarget(RowOf(c)) && KeyOf(RowOf(c)) == k
    && (c.cid in t ==> HasKey(t[c.cid], k))
  }

  /** Overwriting the preview and counter of a row. */
  lemma OverwriteSound(t: Table, d: string, r: Row, k: Key)
    requires Sound(t) && d in t && HasKey(t[d], k)
    ensures var t' := t[d := Updated(t[d], r)];
      Sound(t') && RowAt(t, k) == Some(t[d]) && RowAt(t', k) == Some(Updated(t[d], r)) && t'.Keys == t.Keys
  {
    FindUnique(t, k, d);
    FindUnique(t[d := Updated(t[d], r)], k, d);
  }

  lemma InsertSound(t: Table, r: Row, k: Key)
    requires Sound(t) && r.cid !in t && OneTarget(r) && KeyOf(r) == k && Find(t, k).None?
    requires r.peerId != Some("") && r.roomId != Some("")
    ensures Sound(t[r.cid := r]) && RowAt(t[r.cid := r], k) == Some(r)
  {
    forall d | d in t ensures !SameUnique(t[d], r) && !SameUnique(r, t[d]) {
      assert !HasKey(t[d], k);
    }
    FindUnique(t[r.cid := r], k, r.cid);
  }

  /** What an upsert does, seen through the keys: one row under one key, everything else as it was. */
  lemma UpsertAt(t: Table, c: Conversation, k: Key)
    requires Sound(t) && Writable(t, c, k)
    ensures Upsert(t, c).Some?
    ensures var t' := Upsert(t, c).value;
      && Sound(t')
      && RowAt(t', k) == Some(if RowAt(t, k).Some? then Updated(RowAt(t, k).value, RowOf(c)) else RowOf(c))
      && (RowAt(t, k).Some? ==> t'.Keys == t.Keys)
      && (RowAt(t, k).None? ==> t'.Keys == t.Keys + {c.cid} && c.cid !in t)
  {
    var r := RowOf(c);
    if c.cid in t {
      OverwriteSound(t, c.cid, r, k);
    } else if Find(t, k).Some? {
      OverwriteSound(t, Find(t, k).value, r, k);
    } else {
      InsertSound(t, r, k);
    }
  }

  /** Writing one row under key k leaves what is under any other key. */
  lemma PutElsewhere(t: Table, d: string, r: Row, k: Key, j: Key)
    requires Sound(t) && Sound(t[d := r]) && OneTarget(r) && KeyOf(r) == k && j != k
    requires d in t ==> HasKey(t[d], k)
    ensures RowAt(t[d := r], j) == RowAt(t, j)
  {
    KeyOfHas(r, j);
    if d in t { KeyOfHas(t[d], j); KeyOfHas(t[d], k); }
    if Find(t, j).Some? {
      FindUnique(t[d := r], j, Find(t, j).value);
    }
  }

  lemma UpsertElsewhere(t: Table, c: Conversation, k: Key, j: Key)
    requires Sound(t) && Writable(t, c, k) && j != k
    ensures Upsert(t, c).Some? && RowAt(Upsert(t, c).value, j) == RowAt(t, j)
  {
    UpsertAt(t, c, k);
    var r := RowOf(c);
    if c.cid in t {
      KeyOfHas(t[c.cid], k);
      PutElsewhere(t, c.cid, Updated(t[c.cid], r), k, j);
    } else if Find(t, k).Some? {
      var d := Find(t, k).value;
      KeyOfHas(t[d], k);
      PutElsewhere(t, d, Updated(t[d], r), k, j);
    } else {
      PutElsewhere(t, c.cid, r, k, j);
    }
  }

  /** No upsert rewrites what a row is about or its channel. */
  ghost predicate IdentityKept(t: Table, t': Table) {
    forall c :: c in t ==>
      c in t' && t'[c] == t[c].(lastMsgTime := t'[c].lastMsgTime, lastMsgContent := t'[c].lastMsgContent,
                                lastSenderName := t'[c].lastSenderName, unreadCount := t'[c].unreadCount)
  }

  lemma UpsertKeepsIdentity(t: Table, c: Conversation)
    requires Upsert(t, c).Some?
    ensures IdentityKept(t, Upsert(t, c).value)
  {
  }
}
