/** One WebSocket connection (gateway/ws/ws_conn.go): the bounded write queue, its writer, and Close, as the
    interleaving of any number of pushers and closers with the reader and the writer goroutines. */
module WsConnection {
  import opened Types

  const WRITE_CH_SIZE: nat := 256

  /** Who may call Close: the writer, the reader, and anybody else, each call under its own number. */
  const WRITER: nat := 0
  const READER: nat := 1

  type Frame = string

  /** Where the body given to closeOnce stands: what it does next. */
  datatype Phase = ToCloseCh | ToOnClose | ToCloseSocket
  datatype Once = Fresh | In(caller: nat, at: Phase) | Finished

  datatype State = State(
    closed: bool, once: Once, socketOpen: bool, onCloses: nat,
    waiting: set<nat>, returned: set<nat>,
    queue: seq<Frame>, holding: Option<Frame>, writing: bool, reading: bool,
    accepted: seq<Frame>, written: seq<Frame>, lost: seq<Frame>)

  const INIT := State(false, Fresh, true, 0, {}, {}, [], None, true, true, [], [], [])

  datatype Label =
    | PushOk(f: Frame) | PushClosed | PushFull
    | CallClose(t: nat) | Enter(t: nat) | Body | Return(t: nat)
    | Take | WriteOk | WriteFails | PingFails | WriterStops
    | ReadFails | ReaderStops

  predicate Enabled(s: State, l: Label) {
    match l
    case PushOk(_) => |s.queue| < WRITE_CH_SIZE
    case PushClosed => s.closed
    case PushFull => |s.queue| >= WRITE_CH_SIZE && !s.closed
    case CallClose(t) => t > READER && t !in Callers(s)
    case Enter(t) => t in s.waiting && s.once == Fresh
    case Body => s.once.In?
    case Return(t) => t in s.waiting && s.once == Finished
    case Take => s.writing && s.holding.None? && s.queue != []
    case WriteOk => s.holding.Some? && s.socketOpen
    case WriteFails => s.holding.Some?
    case PingFails => s.writing && s.holding.None?
    case WriterStops => s.writing && s.holding.None? && s.closed
    case ReadFails => s.reading
    case ReaderStops => s.reading && s.closed
  }

  function Callers(s: State): set<nat> {
    s.waiting + s.returned + if s.once.In? then {s.once.caller} else {}
  }

  function Next(s: State, l: Label): State
    requires Enabled(s, l)
  {
    match l
    case PushOk(f) => s.(queue := s.queue + [f], accepted := s.accepted + [f])
    case PushClosed => s
    case PushFull => s
    case CallClose(t) => s.(waiting := s.waiting + {t})
    case Enter(t) => s.(waiting := s.waiting - {t}, once := In(t, ToCloseCh))
    case Body => NextPhase(s)
    case Return(t) => s.(waiting := s.waiting - {t}, returned := s.returned + {t})
    case Take => s.(holding := Some(s.queue[0]), queue := s.queue[1..])
    case WriteOk => s.(holding := None, written := s.written + [s.holding.value])
    case WriteFails =>
      s.(holding := None, lost := s.lost + [s.holding.value], writing := false, waiting := s.waiting + {WRITER})
    case PingFails => s.(writing := false, waiting := s.waiting + {WRITER})
    case WriterStops => s.(writing := false)
    case ReadFails => s.(reading := false, waiting := s.waiting + {READER})
    case ReaderStops => s.(reading := false)
  }

  /** onClose (RemoveConn, SetOnlineStatus, Unsubscribe) calls Close on nothing. */
  function NextPhase(s: State): State
    requires s.once.In?
  {
    match s.once.at
    case ToCloseCh => s.(closed := true, once := s.once.(at := ToOnClose))
    case ToOnClose => s.(onCloses := s.onCloses + 1, once := s.once.(at := ToCloseSocket))
    case ToCloseSocket => s.(socketOpen := false, once := Finished, returned := s.returned + {s.once.caller})
  }

  datatype Run = Start | Then(before: Run, last: Label)

  ghost predicate ValidRun(r: Run)
    decreases r, 0
  {
    r.Then? ==> ValidRun(r.before) && Enabled(After(r.before), r.last)
  }

  ghost function After(r: Run): State
    requires ValidRun(r)
    decreases r, 1
  {
    if r.Start? then INIT else Next(After(r.before), r.last)
  }

  ghost predicate Prefix(r: Run, q: Run) {
    r == q || (q.Then? && Prefix(r, q.before))
  }

  lemma {:induction false} PrefixValid(r: Run, q: Run)
    requires ValidRun(q) && Prefix(r, q)
    ensures ValidRun(r)
  {
    if r != q {
      PrefixValid(r, q.before);
    }
  }

  /** The queue's side. */
  ghost predicate Fifo(s: State) {
    && s.accepted == s.written + s.lost + Held(s) + s.queue
    && |s.queue| <= WRITE_CH_SIZE
    && |s.lost| <= 1
    && (s.writing ==> s.lost == [])
    && (s.holding.Some? ==> s.writing)
  }

  function Held(s: State): seq<Frame> {
    if s.holding.Some? then [s.holding.value] else []
  }

  lemma FifoPush(s: State, f: Frame)
    requires Fifo(s) && Enabled(s, PushOk(f))
    ensures Fifo(Next(s, PushOk(f)))
  {
    var w := s.written + s.lost + Held(s);
    assert (w + s.queue) + [f] == w + (s.queue + [f]);
  }

  lemma FifoTake(s: State)
    requires Fifo(s) && Enabled(s, Take)
    ensures Fifo(Next(s, Take))
  {
    assert s.queue == [s.queue[0]] + s.queue[1..];
  }

  lemma FifoWrite(s: State, l: Label)
    requires Fifo(s) && Enabled(s, l) && (l.WriteOk? || l.WriteFails?)
    ensures Fifo(Next(s, l))
  {
    assert s.lost == [] && s.written + s.lost == s.written;
  }

  lemma FifoStep(s: State, l: Label)
    requires Fifo(s) && Enabled(s, l)
    ensures Fifo(Next(s, l))
  {
    match l
    case PushOk(f) => FifoPush(s, f);
    case Take => FifoTake(s);
    case WriteOk => FifoWrite(s, l);
    case WriteFails => FifoWrite(s, l);
    case _ => FifoElse(s, l);
  }

  lemma FifoElse(s: State, l: Label)
    requires Fifo(s) && Enabled(s, l) && !l.PushOk? && !l.Take? && !l.WriteOk? && !l.WriteFails?
    ensures Fifo(Next(s, l))
  {
    var n := Next(s, l);
    assert n.accepted == s.accepted && n.written == s.written && n.lost == s.lost && n.queue == s.queue;
    assert n.holding == s.holding && Held(n) == Held(s);
  }

  /** Close's side. */
  ghost predicate OnceOnly(s: State) {
    && (s.closed <==> s.once == Finished || (s.once.In? && s.once.at != ToCloseCh))
    && s.onCloses == (if s.once == Finished || (s.once.In? && s.once.at == ToCloseSocket) then 1 else 0)
    && (s.socketOpen <==> s.once != Finished)
    && (s.returned != {} ==> s.once == Finished)
    && (WRITER in Callers(s) ==> !s.writing)
    && (READER in Callers(s) ==> !s.reading)
    && (s.once.In? ==> s.once.caller !in s.waiting)
    && s.waiting !! s.returned
  }

  lemma OnceOnlyStep(s: State, l: Label)
    requires OnceOnly(s) && Enabled(s, l) && Fifo(s)
    ensures OnceOnly(Next(s, l))
  {
    match l
    case CallClose(t) => OnceOnlyCall(s, t);
    case Enter(t) =>
    case Body => OnceOnlyBody(s);
    case Return(t) =>
    case _ => OnceOnlyElse(s, l);
  }

  lemma OnceOnlyCall(s: State, t: nat)
    requires OnceOnly(s) && Enabled(s, CallClose(t))
    ensures OnceOnly(Next(s, CallClose(t)))
  {
  }

  lemma OnceOnlyBody(s: State)
    requires OnceOnly(s) && Enabled(s, Body)
    ensures OnceOnly(Next(s, Body))
  {
  }

  lemma OnceOnlyElse(s: State, l: Label)
    requires OnceOnly(s) && Enabled(s, l) && Fifo(s)
    requires !l.CallClose? && !l.Enter? && !l.Body? && !l.Return?
    ensures OnceOnly(Next(s, l))
  {
  }

  lemma {:induction false} RunKeeps(r: Run)
    requires ValidRun(r)
    ensures Fifo(After(r)) && OnceOnly(After(r))
  {
    if r.Then? {
      RunKeeps(r.before);
      FifoStep(After(r.before), r.last);
      OnceOnlyStep(After(r.before), r.last);
    }
  }

  /** What reached the socket is the first so many accepted pushes, in their order and each once; all but one of
      the others still wait in the queue, which never holds more than it was made for. */
  lemma {:induction false} WrittenIsPrefix(r: Run)
    requires ValidRun(r)
    ensures var s := After(r);
      && s.written <= s.accepted
      && |s.queue| <= 256
      && |s.written| + |s.queue| <= |s.accepted| <= |s.written| + |s.queue| + 1
      && s.accepted[|s.accepted| - |s.queue|..] == s.queue
  {
    RunKeeps(r);
  }

  lemma HistoryStep(s: State, l: Label)
    requires Enabled(s, l)
    ensures s.written <= Next(s, l).written && s.accepted <= Next(s, l).accepted
  {
  }

  /** Later steps only append: nothing written or accepted is taken back or moves. */
  lemma {:induction false} HistoryGrows(r: Run, q: Run)
    requires ValidRun(q) && Prefix(r, q)
    ensures ValidRun(r)
    ensures After(r).written <= After(q).written && After(r).accepted <= After(q).accepted
  {
    PrefixValid(r, q);
    if r != q {
      HistoryGrows(r, q.before);
      HistoryStep(After(q.before), q.last);
    }
  }

  /** Once the writer has left, nothing more is written: every accepted frame not yet written is lost, and so is
      every later one. Push accepts them all the same while the queue has room. */
  lemma {:induction false} StoppedWriterLoses(r: Run, q: Run)
    requires ValidRun(q) && Prefix(r, q)
    requires ValidRun(r) && !After(r).writing
    ensures After(q).written == After(r).written && !After(q).writing
  {
    if r != q {
      PrefixValid(r, q.before);
      StoppedWriterLoses(r, q.before);
      RunKeeps(q.before);
    }
  }

  /** The steps of the waiting caller that gets to run the body. */
  ghost function Closing(r: Run, t: nat): Run {
    Then(Then(Then(Then(r, Enter(t)), Body), Body), Body)
  }

  lemma FirstClose(r: Run, t: nat)
    requires ValidRun(r) && After(r).once == Fresh && t in After(r).waiting
    ensures ValidRun(Closing(r, t)) && Prefix(r, Closing(r, t))
    ensures After(Closing(r, t)) == After(r).(
              closed := true, once := Finished, socketOpen := false, onCloses := After(r).onCloses + 1,
              waiting := After(r).waiting - {t}, returned := After(r).returned + {t})
  {
    var a := Then(r, Enter(t));
    assert ValidRun(a) && Prefix(r, a);
    assert After(a) == After(r).(waiting := After(r).waiting - {t}, once := In(t, ToCloseCh));
    var b := Then(Then(a, Body), Body);
    assert ValidRun(b) && Prefix(r, b);
    assert After(b).once == In(t, ToCloseSocket);
  }

  /** A whole call of Close with nobody else inside it. */
  ghost function CloseRun(r: Run, t: nat): Run
    requires ValidRun(r)
  {
    var c := if t in After(r).waiting then r else Then(r, CallClose(t));
    if After(r).once == Fresh then Closing(c, t) else Then(c, Return(t))
  }

  lemma CloseRunDone(r: Run, t: nat)
    requires ValidRun(r) && !After(r).once.In?
    requires t in After(r).waiting || (t > READER && t !in Callers(After(r)))
    ensures var q := CloseRun(r, t);
      && ValidRun(q) && Prefix(r, q) && Bodies(q) == 3
      && After(q) == After(r).(
           closed := true, once := Finished, socketOpen := false, onCloses := 1,
           waiting := After(r).waiting - {t}, returned := After(r).returned + {t})
  {
    var c := if t in After(r).waiting then r else Then(r, CallClose(t));
    assert ValidRun(c) && Prefix(r, c);
    assert After(c).waiting - {t} == After(r).waiting - {t};
    RunKeeps(r);
    if After(r).once == Fresh {
      FirstClose(c, t);
      PrefixJoins(r, c, Closing(c, t));
    }
    CloseBodyRunsOnce(CloseRun(r, t));
  }

  lemma {:induction false} PrefixJoins(r: Run, p: Run, q: Run)
    requires Prefix(r, p) && Prefix(p, q)
    ensures Prefix(r, q)
    decreases q
  {
    if p != q {
      PrefixJoins(r, p, q.before);
    }
  }

  lemma WriteRun(r: Run)
    requires ValidRun(r) && Enabled(After(r), Take)
    ensures ValidRun(Then(Then(r, Take), WriteFails))
    ensures After(r).socketOpen ==>
              var q := Then(Then(r, Take), WriteOk);
              && ValidRun(q)
              && After(q) == After(r).(queue := After(r).queue[1..], written := After(r).written + [After(r).queue[0]])
    ensures var q := After(Then(Then(r, Take), WriteFails));
      && q.queue == After(r).queue[1..] && q.written == After(r).written && q.accepted == After(r).accepted
      && q.once == After(r).once && q.closed == After(r).closed && q.socketOpen == After(r).socketOpen
      && q.holding.None? && !q.writing && WRITER in q.waiting
  {
    assert ValidRun(Then(r, Take));
  }

  /** A frame accepted after Close has returned and never written. */
  lemma {:induction false} AcceptedAfterClose(f: Frame) returns (r: Run, q: Run)
    ensures ValidRun(r) && ValidRun(q) && q == Then(r, PushOk(f))
    ensures 2 in After(r).returned && !After(r).writing
    ensures forall more: Run :: ValidRun(more) && Prefix(q, more) ==>
              After(more).accepted != [] && After(more).written == []
  {
    var c := Then(Start, CallClose(2));
    assert ValidRun(c);
    FirstClose(c, 2);
    r := Then(Closing(c, 2), WriterStops);
    q := Then(r, PushOk(f));
    forall more: Run | ValidRun(more) && Prefix(q, more)
      ensures After(more).accepted != [] && After(more).written == []
    {
      HistoryGrows(q, more);
      StoppedWriterLoses(q, more);
    }
  }

  /** Push always has an outcome, and only after a close with room left does it have two. */
  lemma {:induction false} PushNeverBlocks(r: Run, f: Frame)
    requires ValidRun(r)
    ensures var s := After(r);
      && (Enabled(s, PushOk(f)) || Enabled(s, PushClosed) || Enabled(s, PushFull))
      && (Enabled(s, PushFull) ==> !Enabled(s, PushOk(f)) && !Enabled(s, PushClosed) && |s.queue| == 256)
      && (Enabled(s, PushOk(f)) && Enabled(s, PushClosed) <==> s.closed && |s.queue| != 256)
  {
    RunKeeps(r);
  }

  function Bodies(r: Run): nat {
    if r.Start? then 0 else Bodies(r.before) + if r.last == Body then 1 else 0
  }

  function BodiesDone(s: State): nat {
    match s.once
    case Fresh => 0
    case Finished => 3
    case In(_, ToCloseCh) => 0
    case In(_, ToOnClose) => 1
    case In(_, ToCloseSocket) => 2
  }

  lemma BodyCount(s: State, l: Label)
    requires Enabled(s, l)
    ensures BodiesDone(Next(s, l)) == BodiesDone(s) + if l == Body then 1 else 0
  {
  }

  /** The body's three statements run once each in any run, whoever and however many call Close: closeCh is never
      closed twice, and a call that has returned, the body's own or a later one, finds all three done. */
  lemma {:induction false} CloseBodyRunsOnce(r: Run)
    requires ValidRun(r)
    ensures Bodies(r) == BodiesDone(After(r)) <= 3
    ensures After(r).onCloses <= 1
    ensures After(r).once.In? && After(r).once.at == ToCloseCh ==> !After(r).closed
    ensures After(r).returned != {} ==>
              After(r).closed && After(r).onCloses == 1 && !After(r).socketOpen && Bodies(r) == 3
  {
    RunKeeps(r);
    if r.Then? {
      CloseBodyRunsOnce(r.before);
      BodyCount(After(r.before), r.last);
    }
  }

  function Pending(s: State): nat {
    4 * |s.waiting| + if s.once.In? then 3 - BodiesDone(s) else 0
  }

  ghost predicate ClosingOnly(r: Run, q: Run) {
    r == q || (q.Then? && (q.last.Enter? || q.last.Body? || q.last.Return?) && ClosingOnly(r, q.before))
  }

  lemma {:induction false} ClosingOnlyJoins(r: Run, p: Run, q: Run)
    requires ClosingOnly(r, p) && ClosingOnly(p, q)
    ensures ClosingOnly(r, q)
    decreases q
  {
    if p != q {
      ClosingOnlyJoins(r, p, q.before);
    }
  }

  lemma EnterStep(s: State, t: nat)
    requires OnceOnly(s) && Enabled(s, Enter(t))
    ensures Pending(Next(s, Enter(t))) < Pending(s) && Callers(Next(s, Enter(t))) == Callers(s)
  {
    assert |s.waiting - {t}| == |s.waiting| - 1;
    assert s.waiting - {t} + s.returned + {t} == s.waiting + s.returned;
  }

  lemma ReturnStep(s: State, t: nat)
    requires OnceOnly(s) && Enabled(s, Return(t))
    ensures Pending(Next(s, Return(t))) < Pending(s) && Callers(Next(s, Return(t))) == Callers(s)
  {
    assert |s.waiting - {t}| == |s.waiting| - 1;
    assert (s.waiting - {t}) + (s.returned + {t}) == s.waiting + s.returned;
  }

  lemma BodyStep(s: State)
    requires OnceOnly(s) && Enabled(s, Body)
    ensures Pending(Next(s, Body)) < Pending(s) && Callers(Next(s, Body)) == Callers(s)
  {
  }

  /** No Close hangs: from every reachable state the closers, stepping alone, all return. */
  lemma {:induction false} EveryCloseReturns(r: Run) returns (q: Run)
    requires ValidRun(r)
    ensures ValidRun(q) && ClosingOnly(r, q)
    ensures After(q).waiting == {} && !After(q).once.In?
    ensures After(q).returned == Callers(After(r))
    decreases Pending(After(r))
  {
    var s := After(r);
    RunKeeps(r);
    if s.once.In? {
      BodyStep(s);
      q := EveryCloseReturns(Then(r, Body));
      ClosingOnlyJoins(r, Then(r, Body), q);
    } else if s.waiting != {} {
      var t: nat :| t in s.waiting;
      var l := if s.once == Fresh then Enter(t) else Return(t);
      if s.once == Fresh {
        EnterStep(s, t);
      } else {
        ReturnStep(s, t);
      }
      q := EveryCloseReturns(Then(r, l));
      ClosingOnlyJoins(r, Then(r, l), q);
    } else {
      q := r;
    }
  }

  /** The connection object. closeCh is represented by whether it is closed, writeCh by what it buffers; run is the
      history of the steps its methods stand for. */
  class WsConn {
    var closeCh: bool
    var closeOnce: bool
    var writeCh: seq<Frame>
    var conn: bool
    ghost var run: Run

    ghost predicate Valid()
      reads this
    {
      && ValidRun(run)
      && var s := After(run);
        && s.closed == closeCh && s.queue == writeCh && s.socketOpen == conn
        && (if closeOnce then s.once == Finished else s.once == Fresh)
        && s.holding.None?
    }

    constructor ()
      ensures Valid() && run == Start && writeCh == [] && !closeCh && !closeOnce && conn
    {
      closeCh, closeOnce, writeCh, conn, run := false, false, [], true, Start;
    }

    /** The select: of the ready cases any may be chosen, and the default only when none is ready. */
    method Push(data: Frame) returns (ok: bool)
      requires Valid()
      modifies this`writeCh, this`run
      ensures Valid()
      ensures |writeCh| <= 256
      ensures ok ==> writeCh == old(writeCh) + [data] && run == Then(old(run), PushOk(data))
      ensures !ok ==> writeCh == old(writeCh) && (closeCh || |writeCh| == 256)
      ensures !ok ==> run == Then(old(run), if closeCh then PushClosed else PushFull)
    {
      RunKeeps(run);
      if {
        case |writeCh| < WRITE_CH_SIZE =>
          writeCh := writeCh + [data];
          run := Then(run, PushOk(data));
          ok := true;
        case closeCh =>
          run := Then(run, PushClosed);
          ok := false;
        case |writeCh| >= WRITE_CH_SIZE && !closeCh =>
          run := Then(run, PushFull);
          ok := false;
      }
    }

    /** One caller at a time; t is its number, new or, for the writer and the reader, already given. */
    method Close(ghost t: nat)
      requires Valid() && (t in After(run).waiting || (t > READER && t !in Callers(After(run))))
      modifies this`closeCh, this`closeOnce, this`conn, this`run
      ensures Valid() && Prefix(old(run), run)
      ensures closeCh && closeOnce && !conn
      ensures After(run).onCloses == 1 && Bodies(run) == 3 && t in After(run).returned
      ensures After(run) == old(After(run)).(
                closed := true, once := Finished, socketOpen := false, onCloses := 1,
                waiting := old(After(run)).waiting - {t}, returned := old(After(run)).returned + {t})
    {
      CloseRunDone(run, t);
      if !closeOnce {
        closeCh := true;
        // onClose: what it does to the registry, the online key and the subscription is not this object's state
        conn := false;
        closeOnce := true;
      }
      run := CloseRun(run, t);
    }

    /** The writer takes one message and writes it; ok says whether the peer lets it through, and a closed socket
        lets nothing through. A failed write closes the connection. */
    method WriteMessage(ok: bool) returns (err: bool)
      requires Valid() && After(run).writing && writeCh != []
      modifies this
      ensures Valid() && err == !After(run).writing
      ensures err <==> !ok || !old(conn)
      ensures err ==> closeCh && closeOnce
      ensures writeCh == old(writeCh)[1..]
      ensures After(run).written == old(After(run).written) + if err then [] else [old(writeCh)[0]]
      ensures After(run).accepted == old(After(run).accepted)
    {
      WriteRun(run);
      writeCh := writeCh[1..];
      err := !ok || !conn;
      if err {
        run := Then(Then(run, Take), WriteFails);
        Close(WRITER);
      } else {
        run := Then(Then(run, Take), WriteOk);
      }
    }

    /** The writer sees closeCh closed and leaves. */
    method StopWriter()
      requires Valid() && After(run).writing && closeCh
      modifies this`run
      ensures Valid() && run == Then(old(run), WriterStops)
      ensures After(run) == old(After(run)).(writing := false)
    {
      run := Then(run, WriterStops);
    }

    /** A tick of the ping ticker. */
    method Ping(ok: bool) returns (err: bool)
      requires Valid() && After(run).writing
      modifies this`closeCh, this`closeOnce, this`conn, this`run
      ensures Valid() && err == !After(run).writing
      ensures err <==> !ok || !old(conn)
      ensures err ==> closeCh && closeOnce
      ensures After(run).written == old(After(run).written) && After(run).accepted == old(After(run).accepted)
    {
      err := !ok || !conn;
      if err {
        PingRun(run);
        run := Then(run, PingFails);
        Close(WRITER);
      }
    }

    /** One pass of the writer's select: what is ready is a message or a tick, or closeCh. */
    method Select(turn: Turn) returns (wrote: bool, stopped: bool)
      requires Valid() && After(run).writing
      modifies this
      ensures Valid() && stopped == !After(run).writing
      ensures stopped ==> closeCh && !wrote
      ensures !stopped ==> (wrote <==> turn.Ready? && old(writeCh) != [])
      ensures !wrote && !stopped ==> writeCh == old(writeCh)
      ensures stopped ==> writeCh == old(writeCh) || (old(writeCh) != [] && writeCh == old(writeCh)[1..])
      ensures wrote ==> old(writeCh) != [] && writeCh == old(writeCh)[1..]
      ensures After(run).written == old(After(run).written) + if wrote then [old(writeCh)[0]] else []
      ensures After(run).accepted == old(After(run).accepted)
    {
      wrote, stopped := false, false;
      if {
        case closeCh =>
          StopWriter();
          stopped := true;
        case turn.Ticks? =>
          stopped := Ping(turn.ok);
        case turn.Ready? =>
          if writeCh != [] {
            stopped := WriteMessage(turn.ok);
            wrote := !stopped;
          }
      }
    }

    /** The writer's loop. It ends on a closed closeCh or a failed write. */
    method Write(turns: seq<Turn>) returns (sent: nat, stopped: bool)
      requires Valid() && After(run).writing
      modifies this
      ensures Valid() && stopped == !After(run).writing
      ensures Drained(old(writeCh), sent, stopped, writeCh)
      ensures sent <= |old(writeCh)| && After(run).written == old(After(run).written) + old(writeCh)[..sent]
      ensures After(run).accepted == old(After(run).accepted)
      ensures stopped ==> closeCh
      ensures !stopped ==> writeCh == [] || sent == Messages(turns)
    {
      sent, stopped := 0, false;
      var i := 0;
      while i < |turns|
        invariant i <= |turns| && Valid() && After(run).writing
        invariant Drained(old(writeCh), sent, false, writeCh)
        invariant After(run).written == old(After(run).written) + old(writeCh)[..sent]
        invariant After(run).accepted == old(After(run).accepted)
        invariant writeCh == [] || sent == Messages(turns[..i])
      {
        DrainedOn(old(writeCh), sent, writeCh);
        MessagesSnoc(turns, i);
        var wrote;
        wrote, stopped := Select(turns[i]);
        if stopped {
          return;
        }
        sent := if wrote then sent + 1 else sent;
        i := i + 1;
      }
      assert turns[..i] == turns;
    }
  }

  /** What one pass of the writer's select finds. */
  datatype Turn = Ready(ok: bool) | Ticks(ok: bool)

  function Messages(turns: seq<Turn>): nat {
    if turns == [] then 0 else Messages(turns[..|turns| - 1]) + if turns[|turns| - 1].Ready? then 1 else 0
  }

  lemma MessagesSnoc(turns: seq<Turn>, i: nat)
    requires i < |turns|
    ensures Messages(turns[..i + 1]) == Messages(turns[..i]) + if turns[i].Ready? then 1 else 0
  {
    assert turns[..i + 1][..i] == turns[..i];
  }

  /** The queue after the first sent frames have gone out, and perhaps one more with a writer that stopped. */
  predicate Drained(before: seq<Frame>, sent: nat, stopped: bool, now: seq<Frame>) {
    && sent <= |before|
    && (now == before[sent..] || (stopped && sent < |before| && now == before[sent + 1..]))
  }

  lemma DrainedOn(before: seq<Frame>, sent: nat, now: seq<Frame>)
    requires Drained(before, sent, false, now)
    ensures now != [] ==> sent < |before| && now[0] == before[sent] && now[1..] == before[sent + 1..]
    ensures now != [] ==> before[..sent] + [now[0]] == before[..sent + 1]
  {
  }

  lemma PingRun(r: Run)
    requires ValidRun(r) && Enabled(After(r), PingFails)
    ensures ValidRun(Then(r, PingFails))
    ensures After(Then(r, PingFails)) == After(r).(writing := false, waiting := After(r).waiting + {WRITER})
  {
  }
}
