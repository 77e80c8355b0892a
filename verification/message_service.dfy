/** SendMessage of service/message.go run by any number of goroutines, composed with the pender, the
    messages table, the three pender callbacks and the gateway's onMessage, one shared action at a time. */
module MessageService {
  import opened Types
  import opened ChannelIds
  import P = PenderProtocol

  /** Where one execution of SendMessage is. */
  datatype Pc =
    | Entry          // called
    | Saving         // a content message; channel id assigned
    | Saved          // row inserted
    | Receipted      // the Sent receipt is out
    | Grouping       // about to read the room's members
    | Checking       // at the test for Ack
    | Acking         // an Ack, waiting for the pender's lock
    | InUnPend
    | Noticing       // a failure notice, about to be routed
    | Waiting        // recipient online, waiting for the pender's lock
    | InPend
    | Delivering     // Pend has returned
    | Done

  /** content: the message was saved-type when the call started; notice: called by OnMsgFailed;
      ack: it was an Ack when the call was made. */
  datatype Call = Call(cell: P.MessageCell, pc: Pc, content: bool, notice: bool, ack: bool)

  datatype Kind = Save | Receipt | Pend | Deliver | Notice | Group

  /** What left a goroutine: t names the SendMessage call. */
  datatype Act =
    | Did(t: nat, kind: Kind, content: bool, m: Message)
    | AckSent(m: Message)
    | RetrySent(m: Message)

  datatype Server = Server(
    pender: P.State,
    table: map<string, Message>,    // messages, by primary key msg_id
    calls: map<nat, Call>,
    uuids: set<string>,             // ids onMessage has given out
    acts: seq<Act>)

  const INIT := Server(P.INIT, map[], map[], {}, [])

  ghost predicate Closed(y: Server) {
    P.Closed(y.pender) && forall t :: t in y.calls ==> y.calls[t].cell in y.pender.cells
  }

  function Msg(y: Server, t: nat): Message
    requires t in y.calls && y.calls[t].cell in y.pender.cells
  {
    y.pender.cells[y.calls[t].cell]
  }

  function SentReceipt(m: Message): Message {
    Message(m.msgId, m.clientMsgId, m.toId, Unset, m.fromId, "", "", MessageType.Sent, m.sendAt, false)
  }

  function FailureNotice(m: Message, now: int): Message {
    Message(m.msgId, "", m.toId, Unset, m.fromId, m.roomId, "", MessageType.Failed, now, false)
  }

  function AckToSender(m: Message, now: int): Message {
    Message(m.msgId, "", m.toId, Unset, m.fromId, "", "", MessageType.Ack, now, false)
  }

  datatype Label =
    | Clock(d: nat)
    | Frame(t: nat, cell: P.MessageCell, m: Message)    // onMessage: a client frame under a fresh id
    | Direct(t: nat, cell: P.MessageCell, m: Message)   // any other caller of SendMessage
    | Open(t: nat)
    | SaveRow(t: nat, ok: bool)
    | SendReceipt(t: nat)
    | Turn(t: nat)
    | SendGroup(t: nat, ok: bool)
    | Dispatch(t: nat, online: bool)
    | LockCall(t: nat)
    | PendBody(t: nat, p: P.PendMessage)
    | RefuseBody(t: nat)
    | UnPendBody(t: nat)
    | Send(t: nat)
    | Sweep
    | Scan(readings: map<string, P.Reading>, end: int, fails: seq<P.PendMessage>, retries: seq<P.PendMessage>)
    | AckBack(p: P.PendMessage, ok: bool)
    | FailBack(t: nat, cell: P.MessageCell)
    | RetryBack

  ghost predicate At(y: Server, t: nat, pc: Pc) {
    t in y.calls && y.calls[t].pc == pc
  }

  ghost predicate CanStep(o: P.Opts, y: Server, l: Label)
    requires Closed(y)
  {
    match l
    case Clock(_) => true
    case Frame(t, c, m) =>
      && t !in y.calls && c !in y.pender.cells
      && m.msgId !in y.uuids && m.fromId != "" && m.sendAt == y.pender.now
    case Direct(t, c, _) => t !in y.calls && c !in y.pender.cells
    case Open(t) => At(y, t, Entry)
    case SaveRow(t, ok) => At(y, t, Saving) && (ok ==> Msg(y, t).msgId !in y.table)
    case SendReceipt(t) => At(y, t, Saved)
    case Turn(t) => At(y, t, Receipted)
    case SendGroup(t, _) => At(y, t, Grouping)
    case Dispatch(t, _) => At(y, t, Checking)
    case LockCall(t) => (At(y, t, Acking) || At(y, t, Waiting)) && y.pender.owner.None?
    case PendBody(t, p) =>
      At(y, t, InPend) && y.pender.owner == Some(P.PendOp(y.calls[t].cell)) && P.Enabled(o, y.pender, P.DoPend(p))
    case RefuseBody(t) =>
      At(y, t, InPend) && y.pender.owner == Some(P.PendOp(y.calls[t].cell)) && P.Enabled(o, y.pender, P.RefusePend)
    case UnPendBody(t) =>
      At(y, t, InUnPend) && y.pender.owner == Some(P.UnPendOp(Msg(y, t).msgId)) && P.Enabled(o, y.pender, P.DoUnPend)
    case Send(t) => At(y, t, Noticing) || At(y, t, Delivering)
    case Sweep => P.Enabled(o, y.pender, P.Lock(P.SweepOp))
    case Scan(readings, end, fails, retries) => P.Enabled(o, y.pender, P.DoScan(readings, end, fails, retries))
    case AckBack(p, _) => P.Enabled(o, y.pender, P.AckCallback(p))
    case FailBack(t, c) => P.Enabled(o, y.pender, P.FailCallback) && t !in y.calls && c !in y.pender.cells
    case RetryBack => P.Enabled(o, y.pender, P.RetryCallback)
  }

  /** The pender's share of a step. */
  ghost function PenderLabels(y: Server, l: Label): seq<P.Label>
    requires Closed(y)
    requires l.LockCall? || l.Open? ==> l.t in y.calls
    requires l.FailBack? ==> y.pender.toFail != []
  {
    match l
    case Clock(d) => [P.Tick(d)]
    case Frame(_, c, m) => [P.Alloc(c, m)]
    case Direct(_, c, m) => [P.Alloc(c, m)]
    case Open(t) =>
      var m := Msg(y, t);
      if IsContent(m) && !(m.toId == "" && m.roomId == "")
      then [P.Write(y.calls[t].cell, m.(channelId := GetChannelId(m.fromId, m.toId, m.roomId)))] else []
    case LockCall(t) =>
      [P.Lock(if y.calls[t].pc.Acking? then P.UnPendOp(Msg(y, t).msgId) else P.PendOp(y.calls[t].cell))]
    case PendBody(_, p) => [P.DoPend(p)]
    case RefuseBody(_) => [P.RefusePend]
    case UnPendBody(_) => [P.DoUnPend]
    case Sweep => [P.Lock(P.SweepOp)]
    case Scan(readings, end, fails, retries) => [P.DoScan(readings, end, fails, retries)]
    case AckBack(p, _) => [P.AckCallback(p)]
    case FailBack(_, c) =>
      [P.FailCallback, P.Alloc(c, FailureNotice(y.pender.cells[y.pender.pends[y.pender.toFail[0]].msg], y.pender.now))]
    case RetryBack => [P.RetryCallback]
    case _ => []
  }

  lemma SharesEnabled(o: P.Opts, y: Server, l: Label)
    requires Closed(y) && CanStep(o, y, l)
    ensures var ls := PenderLabels(y, l);
      && (|ls| >= 1 ==> P.Enabled(o, y.pender, ls[0]))
      && (|ls| == 2 ==> l.FailBack? && P.Enabled(o, P.Next(o, y.pender, ls[0]), ls[1]))
      && |ls| <= 2
  {
  }

  ghost function PenderAfter(o: P.Opts, y: Server, l: Label): (s': P.State)
    requires Closed(y) && CanStep(o, y, l)
    ensures P.Closed(s') && forall c :: c in y.pender.cells ==> c in s'.cells
  {
    SharesEnabled(o, y, l);
    var ls := PenderLabels(y, l);
    if |ls| == 0 then y.pender
    else if |ls| == 1 then P.Next(o, y.pender, ls[0])
    else P.Next(o, P.Next(o, y.pender, ls[0]), ls[1])
  }

  /** Where a call goes next. */
  function PcAfter(c: Call, m: Message, l: Label): Pc {
    match l
    case Open(_) => if m.toId == "" && m.roomId == "" then Done else if IsContent(m) then Saving else Checking
    case SaveRow(_, ok) => if ok then Saved else Done
    case SendReceipt(_) => Receipted
    case Turn(_) => if m.roomId != "" then Grouping else Checking
    case Dispatch(_, online) =>
      if m.typ == MessageType.Ack then Acking
      else if m.typ == MessageType.Failed then Noticing
      else if online then Waiting else Done
    case LockCall(_) => if c.pc.Acking? then InUnPend else InPend
    case PendBody(_, _) => Delivering
    case RefuseBody(_) => Delivering
    case _ => Done
  }

  ghost function CallsAfter(o: P.Opts, y: Server, l: Label): map<nat, Call>
    requires Closed(y) && CanStep(o, y, l)
  {
    match l
    case Frame(t, c, m) => y.calls[t := Call(c, Entry, false, false, m.typ == MessageType.Ack)]
    case Direct(t, c, m) => y.calls[t := Call(c, Entry, false, false, m.typ == MessageType.Ack)]
    case FailBack(t, c) => y.calls[t := Call(c, Entry, false, true, false)]
    case Clock(_) => y.calls
    case Sweep => y.calls
    case Scan(_, _, _, _) => y.calls
    case AckBack(_, _) => y.calls
    case RetryBack => y.calls
    case _ =>
      var c := y.calls[l.t];
      var m := Msg(y, l.t);
      y.calls[l.t := c.(pc := PcAfter(c, m, l),
                        content := if l.Open? then IsContent(m) && !(m.toId == "" && m.roomId == "") else c.content)]
  }

  ghost function ActsAfter(o: P.Opts, y: Server, l: Label): seq<Act>
    requires Closed(y) && CanStep(o, y, l)
  {
    match l
    case SaveRow(t, ok) => if ok then y.acts + [Did(t, Save, true, Msg(y, t))] else y.acts
    case SendReceipt(t) => y.acts + [Did(t, Receipt, true, SentReceipt(Msg(y, t)))]
    case SendGroup(t, ok) => if ok then y.acts + [Did(t, Group, true, Msg(y, t))] else y.acts
    case PendBody(t, _) => y.acts + [Did(t, Pend, y.calls[t].content, Msg(y, t))]
    case Send(t) =>
      y.acts + [Did(t, if y.calls[t].pc.Noticing? then Notice else Deliver, y.calls[t].content, Msg(y, t))]
    case AckBack(p, ok) =>
      var m := y.pender.cells[y.pender.pends[p].msg];
      if ok && m.msgId in y.table && !y.table[m.msgId].isDelivered
      then y.acts + [AckSent(AckToSender(m, y.pender.now))] else y.acts
    case RetryBack => y.acts + [RetrySent(y.pender.cells[y.pender.pends[y.pender.toRetry[0]].msg])]
    case _ => y.acts
  }

  /** UPDATE ... SET is_delivered = true reports a changed row only where it was false. */
  ghost function TableAfter(o: P.Opts, y: Server, l: Label): map<string, Message>
    requires Closed(y) && CanStep(o, y, l)
  {
    match l
    case SaveRow(t, ok) => if ok then y.table[Msg(y, t).msgId := Msg(y, t)] else y.table
    case AckBack(p, ok) =>
      var id := y.pender.cells[y.pender.pends[p].msg].msgId;
      if ok && id in y.table then y.table[id := y.table[id].(isDelivered := true)] else y.table
    case _ => y.table
  }

  ghost function Step(o: P.Opts, y: Server, l: Label): (y': Server)
    requires Closed(y) && CanStep(o, y, l)
    ensures Closed(y')
  {
    Server(
      PenderAfter(o, y, l),
      TableAfter(o, y, l),
      CallsAfter(o, y, l),
      if l.Frame? then y.uuids + {l.m.msgId} else y.uuids,
      ActsAfter(o, y, l))
  }

  datatype Run = Start | Then(before: Run, last: Label)

  ghost predicate ValidRun(o: P.Opts, y: Server, r: Run)
    requires Closed(y)
    decreases r, 0
  {
    r.Then? ==> ValidRun(o, y, r.before) && CanStep(o, After(o, y, r.before), r.last)
  }

  ghost function After(o: P.Opts, y: Server, r: Run): (y': Server)
    requires Closed(y) && ValidRun(o, y, r)
    ensures Closed(y')
    decreases r, 1
  {
    if r.Start? then y else Step(o, After(o, y, r.before), r.last)
  }
}
