/** The pender's theorems, told of runs of the whole server: every server run contains a run of the pender. */
module MessageRuns {
  import opened Types
  import opened MessageService
  import opened MessageSafety
  import P = PenderProtocol
  import PS = PenderSafety
  import PT = PenderTheorems

  /** The pender's steps of a server run, in their order. */
  ghost function PenderRun(o: P.Opts, y: Server, r: Run): (q: P.Run)
    requires Closed(y) && ValidRun(o, y, r)
    ensures P.ValidRun(o, y.pender, q) && P.After(o, y.pender, q) == After(o, y, r).pender
  {
    if r.Start? then P.Start
    else
      var q := PenderRun(o, y, r.before);
      var ls := PenderLabels(After(o, y, r.before), r.last);
      SharesEnabled(o, After(o, y, r.before), r.last);
      if |ls| == 0 then q
      else if |ls| == 1 then P.Then(q, ls[0])
      else P.Then(P.Then(q, ls[0]), ls[1])
  }

  /** However SendMessage and the callbacks interleave, a pended message is acked or failed at most once and never
      both, and exactly when it has left the map and both hand-overs. */
  lemma {:induction false} OneOutcome(o: P.Opts, r: Run, p: P.PendMessage)
    requires ValidRun(o, INIT, r) && p in After(o, INIT, r).pender.pends
    ensures var s := After(o, INIT, r).pender;
      && PS.Acks(s.trace, p) + PS.Fails(s.trace, p) <= 1
      && (PS.Acks(s.trace, p) + PS.Fails(s.trace, p) == 1 <==>
            p !in s.msgList.Values && p !in s.toFail && p !in s.acking)
  {
    PT.OneOutcome(o, PenderRun(o, INIT, r), p);
  }

  lemma {:induction false} Conservation(o: P.Opts, r: Run)
    requires ValidRun(o, INIT, r)
    ensures PT.Conserved(After(o, INIT, r).pender)
  {
    PT.Conservation(o, PenderRun(o, INIT, r));
  }

  lemma {:induction false} RetriesBounded(o: P.Opts, r: Run, p: P.PendMessage)
    requires ValidRun(o, INIT, r)
    ensures var t := After(o, INIT, r).pender.trace;
      && PS.Retries(t, p) <= PT.RetryLimit(o)
      && PS.FinalFailure(t)
      && (forall i :: 0 <= i < |t| && (t[i] == P.Removed(p) || t[i] == P.AckFired(p)) ==> PS.Retries(t[i..], p) <= 1)
      && PS.SpacedTrace(o, t)
  {
    PT.RetriesBounded(o, PenderRun(o, INIT, r), p);
  }

  /** With the options NewMessageService gives: three retries at the most, five seconds apart. */
  lemma {:induction false} ServiceRetries(r: Run, p: P.PendMessage)
    requires ValidRun(P.SERVICE_OPTS, INIT, r)
    ensures var t := After(P.SERVICE_OPTS, INIT, r).pender.trace;
      && PS.Retries(t, p) <= 3
      && forall i, j :: 0 <= i < j < |t| && t[i].p == p == t[j].p && t[j].RetryFired? ==>
           t[i].Accepted? || t[i].RetryFired? ==> t[j].at >= t[i].at + 5
  {
    RetriesBounded(P.SERVICE_OPTS, r, p);
  }

  /** After a scan that reads the clock at or after its deadline, a message is out of the map for good, whatever the
      server does next. */
  lemma {:induction false} DeadlineRemoves(o: P.Opts, y: Server, l: Label, r: Run, p: P.PendMessage)
    requires Closed(y) && PS.Inv(o, y.pender) && p in y.pender.pends && l.Scan? && CanStep(o, y, l)
    requires var m := y.pender.cells[y.pender.pends[p].msg];
      m.msgId in l.readings ==> l.readings[m.msgId].expiry >= m.sendAt + o.ttl
    requires ValidRun(o, Step(o, y, l), r)
    ensures var s := After(o, Step(o, y, l), r).pender; p in s.pends && !PS.Held(s, p)
  {
    var y' := Step(o, y, l);
    var scan := P.DoScan(l.readings, l.end, l.fails, l.retries);
    assert PenderLabels(y, l) == [scan];
    PS.StepInv(o, y.pender, scan);
    PT.LateScan(o, y.pender, scan, p);
    PT.LeftForGood(o, y'.pender, PenderRun(o, y', r), p);
  }

  /** With the service's options the deadline is thirty seconds after the message was sent. */
  lemma {:induction false} ServiceDeadline(y: Server, l: Label, r: Run, p: P.PendMessage)
    requires Closed(y) && PS.Inv(P.SERVICE_OPTS, y.pender) && p in y.pender.pends && l.Scan?
    requires CanStep(P.SERVICE_OPTS, y, l)
    requires var m := y.pender.cells[y.pender.pends[p].msg];
      m.msgId in l.readings ==> l.readings[m.msgId].expiry >= m.sendAt + 30
    requires ValidRun(P.SERVICE_OPTS, Step(P.SERVICE_OPTS, y, l), r)
    ensures var s := After(P.SERVICE_OPTS, Step(P.SERVICE_OPTS, y, l), r).pender; p in s.pends && !PS.Held(s, p)
  {
    DeadlineRemoves(P.SERVICE_OPTS, y, l, r, p);
  }

  predicate NoPendBody(r: Run) {
    r.Then? ==> NoPendBody(r.before) && !r.last.PendBody?
  }

  lemma {:induction false} NoPendKept(o: P.Opts, y: Server, r: Run)
    requires Closed(y) && ValidRun(o, y, r) && NoPendBody(r)
    ensures PT.NoPend(PenderRun(o, y, r))
  {
    if r.Then? {
      NoPendKept(o, y, r.before);
      NoPendLabels(o, After(o, y, r.before), r.last);
    }
  }

  lemma NoPendLabels(o: P.Opts, y: Server, l: Label)
    requires Closed(y) && CanStep(o, y, l) && !l.PendBody?
    ensures forall k :: k in PenderLabels(y, l) ==> !k.DoPend?
  {
  }

  /** While nothing new is pended, the scans of a server run empty the map. */
  lemma {:induction false} MapDrains(o: P.Opts, y: Server, r: Run)
    requires Closed(y) && PS.Inv(o, y.pender) && ValidRun(o, y, r) && NoPendBody(r)
    requires forall k :: k in y.pender.msgList ==>
               var p := y.pender.msgList[k];
               || PT.PacedScans(o, y.pender, PenderRun(o, y, r), p) > PT.RetryLimit(o)
               || exists q :: P.Prefix(q, PenderRun(o, y, r)) && PT.LateFor(o, y.pender, q, p)
    ensures After(o, y, r).pender.msgList == map[]
  {
    NoPendKept(o, y, r);
    PT.MapDrains(o, y.pender, PenderRun(o, y, r));
  }

  // ---- the lock

  /** Some UnPend of the run did not find its id. */
  ghost predicate Missed(o: P.Opts, y: Server, r: Run)
    requires Closed(y) && ValidRun(o, y, r)
  {
    r.Then? && (Missed(o, y, r.before) || Misses(After(o, y, r.before), r.last))
  }

  ghost predicate Misses(y: Server, l: Label)
    requires Closed(y)
  {
    l.UnPendBody? && l.t in y.calls && Msg(y, l.t).msgId !in y.pender.msgList
  }

  lemma StepLoss(o: P.Opts, y: Server, l: Label)
    requires Closed(y) && PS.Inv(o, y.pender) && CanStep(o, y, l)
    ensures Step(o, y, l).pender.stuck <==> y.pender.stuck || Misses(y, l)
  {
    SharesEnabled(o, y, l);
    var ls := PenderLabels(y, l);
    if |ls| >= 1 {
      OneLoss(o, y.pender, ls[0]);
    }
    if |ls| == 2 {
      PS.StepInv(o, y.pender, ls[0]);
      OneLoss(o, P.Next(o, y.pender, ls[0]), ls[1]);
    }
  }

  lemma OneLoss(o: P.Opts, s: P.State, l: P.Label)
    requires PS.Inv(o, s) && P.Enabled(o, s, l)
    ensures P.Next(o, s, l).stuck <==> s.stuck || (l.DoUnPend? && s.owner.value.id !in s.msgList)
  {
    if s.stuck {
      PT.MissStep(o, s, l);
    } else {
      PT.LossStep(o, s, l);
    }
  }

  /** The server loses the pender's lock exactly when some UnPend has missed. */
  lemma {:induction false} LockLostIffMissed(o: P.Opts, r: Run)
    requires ValidRun(o, INIT, r)
    ensures After(o, INIT, r).pender.stuck <==> Missed(o, INIT, r)
  {
    if r.Then? {
      LockLostIffMissed(o, r.before);
      PenderKeepsInv(o, r.before);
      StepLoss(o, After(o, INIT, r.before), r.last);
    }
  }
}
