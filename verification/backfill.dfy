/** Migrations 14 to 17: channel ids for rows written before the column existed. */
module Backfill {
  import opened Types
  import opened ChannelIds
  import opened ConversationTable

  /** The columns of messages that the migrations read or write; room_id may be NULL. */
  datatype MessageRow = MessageRow(
    msgId: string, fromId: string, toId: string, roomId: Option<string>, channelId: ChannelId)

  function Least(a: string, b: string): string { if Less(b, a) then b else a }

  function Greatest(a: string, b: string): string { if Less(b, a) then a else b }

  /** MD5(CONCAT(LEAST(a, b), '_', GREATEST(a, b))). */
  function SqlDirect(a: string, b: string): ChannelId { Md5(Least(a, b) + "_" + Greatest(a, b)) }

  predicate NoRoom(r: MessageRow) { r.roomId.None? || r.roomId.value == "" }

  function Fill14(r: MessageRow): MessageRow {
    if NoRoom(r) && r.channelId.Unset? then r.(channelId := SqlDirect(r.fromId, r.toId)) else r
  }

  function Fill15(r: MessageRow): MessageRow {
    if !NoRoom(r) && r.channelId.Unset? then r.(channelId := Md5(r.roomId.value)) else r
  }

  function Fill16(r: Row): Row {
    if r.peerId.Some? && r.channelId.Unset? then r.(channelId := SqlDirect(r.userId, r.peerId.value)) else r
  }

  function Fill17(r: Row): Row {
    if r.roomId.Some? && r.channelId.Unset? then r.(channelId := Md5(r.roomId.value)) else r
  }

  /** UPDATE over the whole table, in place. */
  method UpdateAll<T>(table: array<T>, set_: T -> T)
    modifies table
    ensures forall i :: 0 <= i < table.Length ==> table[i] == set_(old(table[i]))
  {
    for i := 0 to table.Length
      invariant forall j :: 0 <= j < i ==> table[j] == set_(old(table[j]))
      invariant forall j :: i <= j < table.Length ==> table[j] == old(table[j])
    {
      table[i] := set_(table[i]);
    }
  }

  /** What getChannelId computes for the message of this row. */
  function MessageChannel(r: MessageRow): ChannelId { GetChannelId(r.fromId, r.toId, Str(r.roomId)) }

  /** SQL's LEAST and GREATEST build the key that CalcChannelId builds. */
  lemma SqlDirectIsCalc(a: string, b: string)
    ensures SqlDirect(a, b) == CalcChannelId(a, b)
  {
    LessIsTotal(a, b);
  }

  /** Migrations 14 and 15 together: an unset channel id becomes what getChannelId computes, every other
      stays. So the column is right afterwards exactly when it was unset or right before. */
  lemma MessagesBackfilled(r: MessageRow)
    ensures Fill15(Fill14(r)) == if r.channelId.Unset? then r.(channelId := MessageChannel(r)) else r
    ensures Fill15(Fill14(r)).channelId == MessageChannel(r) <==> r.channelId.Unset? || r.channelId == MessageChannel(r)
  {
    SqlDirectIsCalc(r.fromId, r.toId);
  }

  /** Migrations 16 and 17 together, against CreateConversation's channel id. */
  lemma ConversationsBackfilled(r: Row)
    requires OneTarget(r)
    ensures Fill17(Fill16(r)) == if r.channelId.Unset? then r.(channelId := ChannelOf(KeyOf(r))) else r
    ensures var right := ChannelOf(KeyOf(r));
      Fill17(Fill16(r)).channelId == right <==> r.channelId.Unset? || r.channelId == right
  {
    if r.peerId.Some? { SqlDirectIsCalc(r.userId, r.peerId.value); }
  }

  /** The message migrations commute and change nothing when run again. */
  lemma MessageMigrationsCommute(r: MessageRow)
    ensures Fill15(Fill14(r)) == Fill14(Fill15(r))
    ensures Fill14(Fill14(r)) == Fill14(r) && Fill15(Fill15(r)) == Fill15(r)
    ensures Fill15(Fill14(Fill15(Fill14(r)))) == Fill15(Fill14(r))
  {
  }

  /** The conversation migrations are idempotent; they commute exactly on rows that chk_conv_type
      admits, or whose channel is set, or where both migrations write the same thing. */
  lemma ConversationMigrationsCommute(r: Row)
    ensures Fill16(Fill16(r)) == Fill16(r) && Fill17(Fill17(r)) == Fill17(r)
    ensures Fill17(Fill16(r)) == Fill16(Fill17(r)) <==>
      || r.peerId.None? || r.roomId.None? || !r.channelId.Unset?
      || Least(r.userId, r.peerId.value) + "_" + Greatest(r.userId, r.peerId.value) == r.roomId.value
  {
  }

  /** The four migrations in order over the two tables. */
  method Migrate(messages: array<MessageRow>, conversations: array<Row>)
    requires forall i :: 0 <= i < conversations.Length ==> OneTarget(conversations[i])
    modifies messages, conversations
    ensures forall i :: 0 <= i < messages.Length ==>
      var r := old(messages[i]);
      messages[i] == if r.channelId.Unset? then r.(channelId := MessageChannel(r)) else r
    ensures forall i :: 0 <= i < conversations.Length ==>
      var r := old(conversations[i]);
      conversations[i] == if r.channelId.Unset? then r.(channelId := ChannelOf(KeyOf(r))) else r
  {
    ghost var ms, cs := messages[..], conversations[..];
    UpdateAll(messages, Fill14);
    UpdateAll(messages, Fill15);
    UpdateAll(conversations, Fill16);
    UpdateAll(conversations, Fill17);
    forall i | 0 <= i < messages.Length
      ensures messages[i] == if ms[i].channelId.Unset? then ms[i].(channelId := MessageChannel(ms[i])) else ms[i]
    {
      MessagesBackfilled(ms[i]);
    }
    forall i | 0 <= i < conversations.Length
      ensures conversations[i] == if cs[i].channelId.Unset? then cs[i].(channelId := ChannelOf(KeyOf(cs[i]))) else cs[i]
    {
      ConversationsBackfilled(cs[i]);
    }
  }

  /** The row Save inserts for a message that SendMessage has prepared: room_id is never NULL here. */
  function SavedRow(m: Message): MessageRow {
    MessageRow(m.msgId, m.fromId, m.toId, Some(m.roomId), m.channelId)
  }

  /** Saves after the migrations keep the column right, and no later run of them touches such a row. */
  lemma SavedRowsStayRight(m: Message)
    requires m.channelId == GetChannelId(m.fromId, m.toId, m.roomId)
    ensures var r := SavedRow(m);
      && r.msgId == m.msgId && r.fromId == m.fromId && r.toId == m.toId && Str(r.roomId) == m.roomId
      && r.channelId == m.channelId == MessageChannel(r)
    ensures Fill15(Fill14(SavedRow(m))) == SavedRow(m)
  {
  }
}
