/** A reader caught by the lost lock: onMessage runs in the reader's own goroutine (gateway/ws/ws_conn.go), so a
    SendMessage that never gets the pender's lock stops the pongs of its connection too. */
module LostLock {
  import opened Types
  import MS = MessageService
  import MA = MessageAcks
  import P = PenderProtocol
  import PS = PenderSafety
  import PT = PenderTheorems
  import H = Heartbeat

  /** A call in front of the pender's lock. */
  ghost predicate AtLock(y: MS.Server, t: nat) {
    MS.At(y, t, MS.Waiting) || MS.At(y, t, MS.Acking)
  }

  lemma StepAtLock(o: P.Opts, y: MS.Server, l: MS.Label, t: nat)
    requires MS.Closed(y) && PS.Inv(o, y.pender) && y.pender.stuck && MS.CanStep(o, y, l) && AtLock(y, t)
    ensures AtLock(MS.Step(o, y, l), t)
  {
    MA.CallPath(o, y, l, t);
    MA.StepOfCall(o, y, l, t);
  }

  /** After the lock is lost, a call that waits for it waits for ever. */
  lemma {:induction false} WaitsForEver(o: P.Opts, y: MS.Server, r: MS.Run, t: nat)
    requires MS.Closed(y) && PS.Inv(o, y.pender) && y.pender.stuck && MS.ValidRun(o, y, r) && AtLock(y, t)
    ensures AtLock(MS.After(o, y, r), t)
  {
    if r.Then? {
      MA.LockLossSilences(o, y, r.before);
      WaitsForEver(o, y, r.before, t);
      StepAtLock(o, MS.After(o, y, r.before), r.last, t);
    }
  }

  /** The reader that made call t handles a pong only when the call has returned: if the connection's heartbeat h has
      had a pong by the end of run r, the call is done by then. */
  ghost predicate ReaderIsOne(o: P.Opts, y: MS.Server, r: MS.Run, t: nat, h: seq<H.Label>)
    requires MS.Closed(y) && MS.ValidRun(o, y, r)
  {
    H.Pong in h ==> MS.At(MS.After(o, y, r), t, MS.Done)
  }

  /** So its user goes offline while the connection stays open: the online key and the read deadline stand until sixty
      seconds after the last pong before the call, and no longer, however long the connection is pinged. */
  lemma {:induction false} CaughtReaderGoesOffline(o: P.Opts, y: MS.Server, r: MS.Run, t: nat,
                                                   d: real, s: H.State, since: real, h: seq<H.Label>)
    requires MS.Closed(y) && PS.Inv(o, y.pender) && y.pender.stuck && MS.ValidRun(o, y, r) && AtLock(y, t)
    requires s.deadline == since + H.PONG_WAIT && s.keyExpiry == since + H.ONLINE_TTL
    requires H.ValidRun(d, s, h) && ReaderIsOne(o, y, r, t, h)
    ensures Pongless(h)
    ensures var e := H.After(s, h);
      && (e.now >= e.keyExpiry <==> e.now >= since + 60.0)
      && (e.now >= e.deadline <==> e.now >= since + 60.0)
  {
    WaitsForEver(o, y, r, t);
    H.SilenceLapses(d, s, since, h);
  }

  predicate Pongless(h: seq<H.Label>) { H.Pong !in h }

  /** A frame gets there: one Ack frame has lost the lock, and the next Ack frame, of any connection, is caught. */
  lemma AckIsCaught(o: P.Opts, y: MS.Server, t: nat, online: bool)
    requires MS.Closed(y) && MS.At(y, t, MS.Checking) && MS.Msg(y, t).typ == MessageType.Ack
    ensures MS.CanStep(o, y, MS.Dispatch(t, online)) && AtLock(MS.Step(o, y, MS.Dispatch(t, online)), t)
  {
  }

  /** And so is the next message to an online recipient. */
  lemma MessageIsCaught(o: P.Opts, y: MS.Server, t: nat)
    requires MS.Closed(y) && MS.At(y, t, MS.Checking) && IsContent(MS.Msg(y, t))
    ensures MS.CanStep(o, y, MS.Dispatch(t, true)) && AtLock(MS.Step(o, y, MS.Dispatch(t, true)), t)
  {
  }
}
