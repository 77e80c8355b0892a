/** The acknowledgement and retry protocol of service/message.go: every interleaving of Pend,
    UnPend and the clearUp goroutine, as a state machine over one shared mutex, one shared map
    and the heap objects its entries point to. */
module PenderProtocol {
  import opened Types

  /** A *types.Message: whoever holds the reference may write through it. */
  class MessageCell {
    var value: Message

    constructor (value: Message)
      ensures this.value == value
    {
      this.value := value;
    }
  }

  /** A *PendMessage, allocated by each successful Pend. */
  class PendMessage {
    var retryCount: nat
    var lastRetryAt: int
    const msg: MessageCell

    constructor (msg: MessageCell, now: int)
      ensures this.msg == msg && retryCount == 0 && lastRetryAt == now
    {
      this.msg := msg;
      retryCount := 0;
      lastRetryAt := now;
    }
  }

  /** MessagePendOpts, durations in whole seconds. */
  datatype Opts = Opts(ttl: int, maxRetry: int, retryInterval: int)

  const SERVICE_OPTS := Opts(30, 3, 5)

  /** The fields of a PendMessage at one moment. */
  datatype Entry = Entry(retryCount: nat, lastRetryAt: int, msg: MessageCell)

  datatype Op = PendOp(cell: MessageCell) | UnPendOp(id: string) | SweepOp

  datatype Event =
    | Accepted(p: PendMessage, at: int)
    | Removed(p: PendMessage)
    | AckFired(p: PendMessage)
    | FailFired(p: PendMessage)
    | RetryFired(p: PendMessage, at: int)

  datatype State = State(
    now: int,
    owner: Option<Op>,                    // the operation that locked mx and has not unlocked it
    stuck: bool,                          // that operation has already returned
    msgList: map<string, PendMessage>,
    pends: map<PendMessage, Entry>,       // the heap: every PendMessage ever stored
    cells: map<MessageCell, Message>,     // the heap: every message
    acking: set<PendMessage>,             // UnPend calls between Unlock and OnMsgAcked
    toFail: seq<PendMessage>,             // the batch clearUp still has to fail
    toRetry: seq<PendMessage>,            // the batch clearUp still has to retry
    trace: seq<Event>)

  const INIT := State(0, None, false, map[], map[], map[], {}, [], [], [])

  /** Every reference leads somewhere. */
  ghost predicate Closed(s: State) {
    && (forall k :: k in s.msgList ==> s.msgList[k] in s.pends)
    && (forall p :: p in s.pends ==> s.pends[p].msg in s.cells)
    && (forall p :: p in s.acking ==> p in s.pends)
    && (forall p :: p in s.toFail ==> p in s.pends)
    && (forall p :: p in s.toRetry ==> p in s.pends)
    && (s.owner.Some? && s.owner.value.PendOp? ==> s.owner.value.cell in s.cells)
  }

  /** The two time.Now() calls clearUp may make for one entry. */
  datatype Reading = Reading(expiry: int, retry: int)

  datatype Verdict = Fail | Retry | Keep

  function Judge(o: Opts, m: Message, e: Entry, r: Reading): Verdict {
    if r.expiry >= m.sendAt + o.ttl || e.retryCount >= o.maxRetry then Fail
    else if r.retry >= e.lastRetryAt + o.retryInterval then Retry
    else Keep
  }

  function JudgeAt(o: Opts, s: State, k: string, readings: map<string, Reading>): Verdict
    requires Closed(s) && k in s.msgList && k in readings
  {
    var e := s.pends[s.msgList[k]];
    Judge(o, s.cells[e.msg], e, readings[k])
  }

  ghost function Selected(o: Opts, s: State, readings: map<string, Reading>, v: Verdict): set<PendMessage>
    requires Closed(s) && readings.Keys == s.msgList.Keys
  {
    set k | k in s.msgList && JudgeAt(o, s, k, readings) == v :: s.msgList[k]
  }

  /** xs lists the set once each, in the order a Go map iteration happened to give. */
  ghost predicate Lists(xs: seq<PendMessage>, ps: set<PendMessage>) {
    Distinct(xs) && (forall p :: p in xs ==> p in ps) && (forall p :: p in ps ==> p in xs)
  }

  datatype Label =
    | Tick(d: nat)
    | Alloc(cell: MessageCell, value: Message)   // a new message object
    | Write(cell: MessageCell, value: Message)   // some holder of the reference writes through it
    | Lock(op: Op)
    | RefusePend                                 // the rest of Pend when the id is already there
    | DoPend(p: PendMessage)                     // the rest of Pend otherwise; p is the object it allocates
    | DoUnPend                                   // UnPend up to its Unlock
    | DoScan(readings: map<string, Reading>, end: int, fails: seq<PendMessage>, retries: seq<PendMessage>)
    | AckCallback(p: PendMessage)
    | FailCallback
    | RetryCallback

  ghost predicate Enabled(o: Opts, s: State, l: Label)
    requires Closed(s)
  {
    match l
    case Tick(_) => true
    case Alloc(c, _) => c !in s.cells
    case Write(c, v) => c in s.cells && v.msgId == s.cells[c].msgId && v.sendAt == s.cells[c].sendAt
    case Lock(op) =>
      && s.owner.None?
      && (op.PendOp? ==> op.cell in s.cells)
      && (op.SweepOp? ==> s.toFail == [] && s.toRetry == [])
    case RefusePend =>
      !s.stuck && s.owner.Some? && s.owner.value.PendOp? && s.cells[s.owner.value.cell].msgId in s.msgList
    case DoPend(p) =>
      && !s.stuck && s.owner.Some? && s.owner.value.PendOp? && s.cells[s.owner.value.cell].msgId !in s.msgList
      && p !in s.pends
    case DoUnPend => !s.stuck && s.owner.Some? && s.owner.value.UnPendOp?
    case DoScan(readings, end, fails, retries) =>
      && !s.stuck && s.owner == Some(SweepOp)
      && readings.Keys == s.msgList.Keys
      && s.now <= end
      && (forall k :: k in readings ==> s.now <= readings[k].expiry <= readings[k].retry <= end)
      && Lists(fails, Selected(o, s, readings, Fail))
      && Lists(retries, Selected(o, s, readings, Retry))
    case AckCallback(p) => p in s.acking
    case FailCallback => s.toFail != []
    case RetryCallback => s.toFail == [] && s.toRetry != []
  }

  /** The ids under which clearUp deletes: read from the message objects at that moment. */
  ghost function CurrentIds(s: State, ps: seq<PendMessage>): set<string>
    requires Closed(s) && forall p :: p in ps ==> p in s.pends
  {
    set p | p in ps :: s.cells[s.pends[p].msg].msgId
  }

  ghost function Next(o: Opts, s: State, l: Label): (s': State)
    requires Closed(s) && Enabled(o, s, l)
    ensures Closed(s')
  {
    match l
    case Tick(d) => s.(now := s.now + d)
    case Alloc(c, v) => s.(cells := s.cells[c := v])
    case Write(c, v) => s.(cells := s.cells[c := v])
    case Lock(op) => s.(owner := Some(op))
    case RefusePend => s.(owner := None)
    case DoPend(p) =>
      var c := s.owner.value.cell;
      s.(owner := None,
         msgList := s.msgList[s.cells[c].msgId := p],
         pends := s.pends[p := Entry(0, s.now, c)],
         trace := s.trace + [Accepted(p, s.now)])
    case DoUnPend =>
      var id := s.owner.value.id;
      if id !in s.msgList then s.(stuck := true)
      else s.(owner := None,
              msgList := s.msgList - {id},
              acking := s.acking + {s.msgList[id]},
              trace := s.trace + [Removed(s.msgList[id])])
    case DoScan(_, end, fails, retries) =>
      s.(owner := None,
         now := end,
         msgList := s.msgList - CurrentIds(s, fails),
         toFail := fails,
         toRetry := retries)
    case AckCallback(p) =>
      var c := s.pends[p].msg;
      s.(acking := s.acking - {p},
         cells := s.cells[c := s.cells[c].(isDelivered := true)],
         trace := s.trace + [AckFired(p)])
    case FailCallback =>
      var p := s.toFail[0];
      var c := s.pends[p].msg;
      s.(toFail := s.toFail[1..],
         cells := s.cells[c := s.cells[c].(typ := MessageType.Failed)],
         trace := s.trace + [FailFired(p)])
    case RetryCallback =>
      var p := s.toRetry[0];
      var e := s.pends[p];
      s.(toRetry := s.toRetry[1..],
         pends := s.pends[p := Entry(e.retryCount + 1, s.now, e.msg)],
         trace := s.trace + [RetryFired(p, s.now)])
  }

  /** A finite interleaving, oldest step first. */
  datatype Run = Start | Then(before: Run, last: Label)

  ghost predicate ValidRun(o: Opts, s: State, r: Run)
    requires Closed(s)
    decreases r, 0
  {
    r.Then? ==> ValidRun(o, s, r.before) && Enabled(o, After(o, s, r.before), r.last)
  }

  ghost function After(o: Opts, s: State, r: Run): (s': State)
    requires Closed(s) && ValidRun(o, s, r)
    ensures Closed(s')
    decreases r, 1
  {
    if r.Start? then s else Next(o, After(o, s, r.before), r.last)
  }

  predicate Prefix(q: Run, r: Run) {
    q == r || (r.Then? && Prefix(q, r.before))
  }
}
