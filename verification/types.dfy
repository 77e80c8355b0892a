/** The entities of types/ that travel between the layers, and a few facts about finite
    sequences and sets that several modules need. */
module Types {

  datatype Option<+T> = None | Some(value: T)

  /** A channel id is an MD5 digest, named here by the text that was hashed; the column default
      is the empty string, which no digest equals. */
  datatype ChannelId = Unset | Md5(key: string)

  /** MessageType is a Go int: a client may send a code without a name. */
  datatype MessageType =
    | Text | Image | Audio | System
    | Ack | Failed | ConversationUpdate | Sent
    | Unnamed(code: int)

  datatype Message = Message(
    msgId: string, clientMsgId: string, fromId: string, channelId: ChannelId,
    toId: string, roomId: string, content: string, typ: MessageType,
    sendAt: int, isDelivered: bool)

  /** The messages that SendMessage saves. */
  predicate IsContent(m: Message) {
    !m.typ.Failed? && !m.typ.Ack? && !m.typ.ConversationUpdate? && !m.typ.Sent?
  }

  ghost predicate Distinct<T>(xs: seq<T>) {
    forall i, j :: 0 <= i < j < |xs| ==> xs[i] != xs[j]
  }
}
