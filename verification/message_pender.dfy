/** defaultMessagePender of service/message.go as the object it is: a mutex, a map of references, and
    PendMessage and Message objects written in place. Every method extends one run of the protocol's
    state machine, so what is proved of runs holds of every sequence of calls. */
module MessagePender {
  import opened Types
  import opened PenderProtocol
  import opened PenderSafety
  import PenderTheorems

  /** The run leads from the initial state to s. The quantifier over a dummy k makes the verifier look inside only
      where Unfold is mentioned, which keeps the methods below cheap to verify. */
  ghost predicate Reaches(o: Opts, r: Run, s: State) {
    forall k {:trigger Unfold(k)} :: Unfold(k) ==> ValidRun(o, INIT, r) && After(o, INIT, r) == s
  }

  ghost predicate Unfold(k: int) { true }

  ghost predicate Unmirror(k: int) { true }

  /** The objects hold what the protocol's state says they hold. Like Reaches it is a quantifier over a dummy, so that
      the verifier looks inside only where Unmirror is mentioned. */
  ghost predicate Mirrored(pends: map<PendMessage, Entry>, cells: map<MessageCell, Message>)
    reads pends.Keys, cells.Keys
  {
    forall k {:trigger Unmirror(k)} :: Unmirror(k) ==>
      && (forall p :: p in pends ==> pends[p] == Entry(p.retryCount, p.lastRetryAt, p.msg))
      && (forall c :: c in cells ==> cells[c] == c.value)
  }

  lemma MirrorAt(pends: map<PendMessage, Entry>, cells: map<MessageCell, Message>, p: PendMessage)
    requires Mirrored(pends, cells) && p in pends
    ensures pends[p] == Entry(p.retryCount, p.lastRetryAt, p.msg)
    ensures p.msg in cells ==> cells[p.msg] == p.msg.value
  {
    assert Unmirror(0);
  }

  lemma MirrorCell(pends: map<PendMessage, Entry>, cells: map<MessageCell, Message>, c: MessageCell)
    requires Mirrored(pends, cells) && c in cells
    ensures cells[c] == c.value
  {
    assert Unmirror(0);
  }

  // A write to one object: leave it out before, put it back after.

  lemma MirrorWithout(pends: map<PendMessage, Entry>, cells: map<MessageCell, Message>,
                      p: set<PendMessage>, c: set<MessageCell>)
    requires Mirrored(pends, cells)
    ensures Mirrored(pends - p, cells - c)
  {
    assert Unmirror(0);
  }

  lemma MirrorAdd(pends: map<PendMessage, Entry>, cells: map<MessageCell, Message>, p: PendMessage)
    requires Mirrored(pends - {p}, cells)
    ensures Mirrored(pends[p := Entry(p.retryCount, p.lastRetryAt, p.msg)], cells)
  {
    assert Unmirror(0);
  }

  lemma MirrorPut(pends: map<PendMessage, Entry>, cells: map<MessageCell, Message>, c: MessageCell)
    requires Mirrored(pends, cells - {c})
    ensures Mirrored(pends, cells[c := c.value])
  {
    assert Unmirror(0);
  }

  lemma Known(o: Opts, r: Run, s: State)
    requires Reaches(o, r, s)
    ensures ValidRun(o, INIT, r) && After(o, INIT, r) == s && Inv(o, s)
  {
    assert Unfold(0);
    PenderTheorems.InitInv(o);
    RunInv(o, INIT, r);
  }

  lemma KnownClosed(o: Opts, r: Run, s: State)
    requires Reaches(o, r, s)
    ensures Closed(s)
  {
    assert Unfold(0);
  }

  lemma Extend(o: Opts, r: Run, s: State, l: Label)
    requires Reaches(o, r, s) && Closed(s) && Enabled(o, s, l)
    ensures Reaches(o, Then(r, l), Next(o, s, l))
  {
    assert Unfold(0);
  }

  /** clearUp's two lists once every entry outside rest has been judged. */
  ghost predicate Sorted(o: Opts, s: State, readings: map<string, Reading>, rest: set<string>,
                         fails: seq<PendMessage>, retries: seq<PendMessage>)
    requires Closed(s) && readings.Keys == s.msgList.Keys
  {
    && Distinct(fails) && Distinct(retries)
    && (forall k :: k in s.msgList ==>
          (s.msgList[k] in fails <==> k !in rest && JudgeAt(o, s, k, readings) == Verdict.Fail) &&
          (s.msgList[k] in retries <==> k !in rest && JudgeAt(o, s, k, readings) == Verdict.Retry))
    && (forall p :: p in fails ==> p in s.msgList.Values)
    && (forall p :: p in retries ==> p in s.msgList.Values)
  }

  lemma SortOne(o: Opts, s: State, readings: map<string, Reading>, rest: set<string>,
                fails: seq<PendMessage>, retries: seq<PendMessage>, k: string)
    requires Closed(s) && Keyed(s) && readings.Keys == s.msgList.Keys && k in rest && k in s.msgList
    requires Sorted(o, s, readings, rest, fails, retries)
    ensures var v := JudgeAt(o, s, k, readings);
      Sorted(o, s, readings, rest - {k},
             if v.Fail? then fails + [s.msgList[k]] else fails,
             if v.Retry? then retries + [s.msgList[k]] else retries)
  {
  }

  lemma SortedAll(o: Opts, s: State, readings: map<string, Reading>, fails: seq<PendMessage>, retries: seq<PendMessage>)
    requires Closed(s) && Keyed(s) && readings.Keys == s.msgList.Keys && Sorted(o, s, readings, {}, fails, retries)
    ensures Lists(fails, Selected(o, s, readings, Verdict.Fail))
    ensures Lists(retries, Selected(o, s, readings, Verdict.Retry))
  {
  }

  lemma ScanReady(o: Opts, s: State, readings: map<string, Reading>, end: int,
                  fails: seq<PendMessage>, retries: seq<PendMessage>)
    requires Closed(s) && !s.stuck && s.owner == Some(SweepOp) && readings.Keys == s.msgList.Keys && s.now <= end
    requires forall k :: k in readings ==> s.now <= readings[k].expiry <= readings[k].retry <= end
    requires Lists(fails, Selected(o, s, readings, Verdict.Fail))
    requires Lists(retries, Selected(o, s, readings, Verdict.Retry))
    ensures Enabled(o, s, DoScan(readings, end, fails, retries))
    ensures forall p :: p in fails ==> p in s.pends
  {
    SelectedStored(o, s, readings, fails);
  }

  lemma SelectedStored(o: Opts, s: State, readings: map<string, Reading>, ps: seq<PendMessage>)
    requires Closed(s) && readings.Keys == s.msgList.Keys && Lists(ps, Selected(o, s, readings, Verdict.Fail))
    ensures forall p :: p in ps ==> p in s.pends
  {
    forall p | p in ps ensures p in s.pends {
      assert p in Selected(o, s, readings, Verdict.Fail);
    }
  }

  lemma NotYetAcking(o: Opts, r: Run, s: State, id: string)
    requires Reaches(o, r, s) && id in s.msgList
    ensures s.msgList[id] in s.pends && s.msgList[id] !in s.acking && s.pends[s.msgList[id]].msg in s.cells
  {
    Known(o, r, s);
    PenderTheorems.HeldNotAcking(o, s, id);
  }

  /** The ids the messages of a batch carry now. */
  ghost function IdsIn(ps: seq<PendMessage>): set<string>
    reads set p | p in ps :: p.msg
  {
    set p | p in ps :: p.msg.value.msgId
  }

  lemma IdsAreCurrent(s: State, ps: seq<PendMessage>)
    requires Closed(s) && Mirrored(s.pends, s.cells) && forall p :: p in ps ==> p in s.pends
    ensures IdsIn(ps) == CurrentIds(s, ps)
  {
    forall p | p in ps ensures s.cells[s.pends[p].msg].msgId == p.msg.value.msgId {
      MirrorAt(s.pends, s.cells, p);
    }
  }

  lemma BatchStored(o: Opts, r: Run, s: State)
    requires Reaches(o, r, s)
    ensures forall p :: p in s.toFail ==> p in s.pends && s.pends[p].msg in s.cells
    ensures forall p :: p in s.toRetry ==> p in s.pends && s.pends[p].msg in s.cells
  {
    KnownClosed(o, r, s);
  }

  class DefaultMessagePender {
    const opt: Opts
    var locked: bool
    var msgList: map<string, PendMessage>
    ghost var st: State
    ghost var run: Run

    ghost predicate Valid()
      reads this, st.pends.Keys, st.cells.Keys
    {
      && Reaches(opt, run, st)
      && msgList == st.msgList
      && locked == st.owner.Some?
      && Mirrored(st.pends, st.cells)
    }

    constructor (opt: Opts)
      ensures Valid() && !locked && msgList == map[] && run == Start && this.opt == opt
    {
      this.opt := opt;
      locked := false;
      msgList := map[];
      st := INIT;
      run := Start;
    }

    // The ghost side of each step: the protocol state and the run that reaches it.

    ghost method Step(l: Label)
      requires Reaches(opt, run, st) && Closed(st) && Enabled(opt, st, l)
      modifies this`st, this`run
      ensures Reaches(opt, run, st) && Closed(st) && run == Then(old(run), l) && st == Next(opt, old(st), l)
    {
      Extend(opt, run, st, l);
      st := Next(opt, st, l);
      run := Then(run, l);
    }

    ghost method StepRefused(c: MessageCell, now: int)
      requires Reaches(opt, run, st) && st.owner.None? && !st.stuck && st.now <= now
      requires c in st.cells && st.cells[c].msgId in st.msgList
      modifies this`st, this`run
      ensures Reaches(opt, run, st) && st == old(st).(now := now)
      ensures run == Then(Then(Then(old(run), Tick(now - old(st).now)), Lock(PendOp(c))), RefusePend)
    {
      KnownClosed(opt, run, st);
      Step(Tick(now - st.now));
      Step(Lock(PendOp(c)));
      Step(RefusePend);
    }

    ghost method StepPended(c: MessageCell, p: PendMessage, now: int)
      requires Reaches(opt, run, st) && st.owner.None? && !st.stuck && st.now <= now
      requires c in st.cells && st.cells[c].msgId !in st.msgList && p !in st.pends
      modifies this`st, this`run
      ensures Reaches(opt, run, st)
      ensures st == old(st).(
        now := now,
        msgList := old(st).msgList[old(st).cells[c].msgId := p],
        pends := old(st).pends[p := Entry(0, now, c)],
        trace := old(st).trace + [Accepted(p, now)])
      ensures run == Then(Then(Then(old(run), Tick(now - old(st).now)), Lock(PendOp(c))), DoPend(p))
    {
      KnownClosed(opt, run, st);
      Step(Tick(now - st.now));
      Step(Lock(PendOp(c)));
      Step(DoPend(p));
    }

    /** Lock() on a held mutex waits, so a call that gets anywhere starts with it free. */
    method Pend(msg: MessageCell, now: int) returns (ok: bool)
      requires Valid() && !locked && !st.stuck && msg in st.cells && st.now <= now
      modifies this
      ensures Valid() && !locked && st.now == now
      ensures ok <==> msg.value.msgId !in old(msgList)
      ensures !ok ==>
        && msgList == old(msgList)
        && run == Then(Then(Then(old(run), Tick(now - old(st).now)), Lock(PendOp(msg))), RefusePend)
      ensures ok ==>
        && msg.value.msgId in msgList
        && fresh(msgList[msg.value.msgId])
        && msgList == old(msgList)[msg.value.msgId := msgList[msg.value.msgId]]
        && run ==
           Then(Then(Then(old(run), Tick(now - old(st).now)), Lock(PendOp(msg))), DoPend(msgList[msg.value.msgId]))
    {
      MirrorCell(st.pends, st.cells, msg);
      if msg.value.msgId in msgList {
        locked := true;
        StepRefused(msg, now);
        locked := false;
        ok := false;
      } else {
        var p := Insert(msg, now);
        ok := true;
      }
    }

    /** Pend's second half, for an id not in the map. */
    method Insert(msg: MessageCell, now: int) returns (pMsg: PendMessage)
      requires Valid() && !locked && !st.stuck && msg in st.cells && st.now <= now && msg.value.msgId !in msgList
      modifies this
      ensures Valid() && !locked && st.now == now && fresh(pMsg)
      ensures msgList == old(msgList)[msg.value.msgId := pMsg]
      ensures run == Then(Then(Then(old(run), Tick(now - old(st).now)), Lock(PendOp(msg))), DoPend(pMsg))
    {
      MirrorCell(st.pends, st.cells, msg);
      locked := true;
      pMsg := new PendMessage(msg, now);
      msgList := msgList[msg.value.msgId := pMsg];
      assert st.pends - {pMsg} == st.pends;
      MirrorAdd(st.pends, st.cells, pMsg);
      StepPended(msg, pMsg, now);
      locked := false;
    }

    ghost method StepMissed(id: string)
      requires Reaches(opt, run, st) && st.owner.None? && !st.stuck && id !in st.msgList
      modifies this`st, this`run
      ensures Reaches(opt, run, st) && st == old(st).(owner := Some(UnPendOp(id)), stuck := true)
      ensures run == Then(Then(old(run), Lock(UnPendOp(id))), DoUnPend)
    {
      KnownClosed(opt, run, st);
      Step(Lock(UnPendOp(id)));
      Step(DoUnPend);
    }

    ghost method StepRemoved(id: string)
      requires Reaches(opt, run, st) && st.owner.None? && !st.stuck && id in st.msgList
      modifies this`st, this`run
      ensures var p := old(st).msgList[id];
        && Reaches(opt, run, st)
        && st == old(st).(
          msgList := old(st).msgList - {id},
          acking := old(st).acking + {p},
          trace := old(st).trace + [Removed(p)])
        && run == Then(Then(old(run), Lock(UnPendOp(id))), DoUnPend)
    {
      KnownClosed(opt, run, st);
      Step(Lock(UnPendOp(id)));
      Step(DoUnPend);
    }

    ghost method StepAcked(p: PendMessage)
      requires Reaches(opt, run, st) && p in st.acking && p in st.pends && st.pends[p].msg in st.cells
      modifies this`st, this`run
      ensures Reaches(opt, run, st) && run == Then(old(run), AckCallback(p))
      ensures st == old(st).(
          acking := old(st).acking - {p},
          cells := old(st).cells[old(st).pends[p].msg := old(st).cells[old(st).pends[p].msg].(isDelivered := true)],
          trace := old(st).trace + [AckFired(p)])
    {
      KnownClosed(opt, run, st);
      Step(AckCallback(p));
    }

    ghost method StepUnPend(id: string)
      requires Reaches(opt, run, st) && st.owner.None? && !st.stuck && id in st.msgList
      modifies this`st, this`run
      ensures var p := old(st).msgList[id];
        && Reaches(opt, run, st) && p in old(st).pends && old(st).pends[p].msg in old(st).cells
        && st == old(st).(
          msgList := old(st).msgList - {id},
          cells := old(st).cells[old(st).pends[p].msg := old(st).cells[old(st).pends[p].msg].(isDelivered := true)],
          trace := old(st).trace + [Removed(p)] + [AckFired(p)])
        && run == Then(Then(Then(old(run), Lock(UnPendOp(id))), DoUnPend), AckCallback(p))
    {
      KnownClosed(opt, run, st);
      var p := st.msgList[id];
      NotYetAcking(opt, run, st, id);
      StepRemoved(id);
      StepAcked(p);
      assert old(st).acking + {p} - {p} == old(st).acking;
    }

    /** The miss returns with the mutex held; the hit unlocks and then runs OnMsgAcked. */
    method UnPend(msgId: string) returns (ok: bool)
      requires Valid() && !locked && !st.stuck
      modifies this, st.cells.Keys
      ensures Valid() && st.now == old(st).now
      ensures ok <==> msgId in old(msgList)
      ensures locked <==> !ok
      ensures !ok ==> msgList == old(msgList) && run == Then(Then(old(run), Lock(UnPendOp(msgId))), DoUnPend)
      ensures ok ==>
        var p := old(msgList)[msgId];
        && msgList == old(msgList) - {msgId}
        && p.msg.value == old(p.msg.value).(isDelivered := true)
        && run == Then(Then(Then(old(run), Lock(UnPendOp(msgId))), DoUnPend), AckCallback(p))
    {
      locked := true;
      if msgId !in msgList {
        StepMissed(msgId);
        return false;
      }
      NotYetAcking(opt, run, st, msgId);
      MirrorAt(st.pends, st.cells, msgList[msgId]);
      var msg := msgList[msgId].msg;
      ghost var cells := st.cells;
      MirrorWithout(st.pends, cells, {}, {msg});
      msgList := msgList - {msgId};
      locked := false;
      StepUnPend(msgId);
      msg.value := msg.value.(isDelivered := true);
      MirrorPut(st.pends - {}, cells, msg);
      assert st.pends - {} == st.pends;
      ok := true;
    }

    ghost predicate Clocked(readings: map<string, Reading>, end: int)
      reads this
    {
      && readings.Keys == msgList.Keys && st.now <= end
      && forall k :: k in readings ==> st.now <= readings[k].expiry <= readings[k].retry <= end
    }

    /** Sort the entries, in whatever order the map yields them. */
    method Collect(readings: map<string, Reading>) returns (toFail: seq<PendMessage>, toRetry: seq<PendMessage>)
      requires Valid() && Closed(st) && readings.Keys == msgList.Keys
      ensures Lists(toFail, Selected(opt, st, readings, Verdict.Fail))
      ensures Lists(toRetry, Selected(opt, st, readings, Verdict.Retry))
    {
      assert Unmirror(0);
      assert Keyed(st) by { Known(opt, run, st); }
      toFail, toRetry := [], [];
      var rest := msgList.Keys;
      while rest != {}
        invariant rest <= msgList.Keys
        invariant Sorted(opt, st, readings, rest, toFail, toRetry)
        decreases |rest|
      {
        var k :| k in rest;
        var msg := msgList[k];
        assert st.pends[msg] == Entry(msg.retryCount, msg.lastRetryAt, msg.msg) && st.cells[msg.msg] == msg.msg.value;
        SortOne(opt, st, readings, rest, toFail, toRetry, k);
        var expiredAt := msg.msg.value.sendAt + opt.ttl;
        var lastExpiredAt := msg.lastRetryAt + opt.retryInterval;
        if readings[k].expiry >= expiredAt || msg.retryCount >= opt.maxRetry {
          toFail := toFail + [msg];
        } else if readings[k].retry >= lastExpiredAt {
          toRetry := toRetry + [msg];
        }
        rest := rest - {k};
      }
      SortedAll(opt, st, readings, toFail, toRetry);
    }

    ghost method StepLockSweep()
      requires Reaches(opt, run, st) && st.owner.None? && st.toFail == [] && st.toRetry == []
      modifies this`st, this`run
      ensures Reaches(opt, run, st) && st == old(st).(owner := Some(SweepOp)) && run == Then(old(run), Lock(SweepOp))
    {
      KnownClosed(opt, run, st);
      Step(Lock(SweepOp));
    }

    ghost method StepScan(readings: map<string, Reading>, end: int, fails: seq<PendMessage>, retries: seq<PendMessage>)
      requires Reaches(opt, run, st) && Closed(st) && Enabled(opt, st, DoScan(readings, end, fails, retries))
      requires forall p :: p in fails ==> p in st.pends
      modifies this`st, this`run
      ensures Reaches(opt, run, st) && run == Then(old(run), DoScan(readings, end, fails, retries))
      ensures st == old(st).(
        owner := None,
        now := end,
        msgList := old(st).msgList - CurrentIds(old(st), fails),
        toFail := fails,
        toRetry := retries)
    {
      Step(DoScan(readings, end, fails, retries));
    }

    /** delete(p.msgList, msg.msg.MsgId) for each failed message. */
    method DeleteAll(toFail: seq<PendMessage>)
      requires Valid() && Closed(st) && forall p :: p in toFail ==> p in st.pends
      modifies this`msgList
      ensures msgList == old(msgList) - CurrentIds(st, toFail)
    {
      var i := 0;
      while i < |toFail|
        invariant 0 <= i <= |toFail|
        invariant msgList == old(msgList) - IdsIn(toFail[..i])
      {
        assert toFail[..i + 1] == toFail[..i] + [toFail[i]];
        msgList := msgList - {toFail[i].msg.value.msgId};
        i := i + 1;
      }
      assert toFail[..i] == toFail;
      IdsAreCurrent(st, toFail);
    }

    /** The locked half of a clearUp tick. */
    method Scan(readings: map<string, Reading>, end: int) returns (toFail: seq<PendMessage>, toRetry: seq<PendMessage>)
      requires Valid() && !locked && !st.stuck && st.toFail == [] && st.toRetry == [] && Clocked(readings, end)
      modifies this
      ensures Valid() && !locked && !st.stuck && st.now == end && st.toFail == toFail && st.toRetry == toRetry
      ensures st.cells == old(st).cells && st.pends == old(st).pends
      ensures run == Then(Then(old(run), Lock(SweepOp)), DoScan(readings, end, toFail, toRetry))
    {
      locked := true;
      StepLockSweep();
      KnownClosed(opt, run, st);
      toFail, toRetry := Collect(readings);
      ScanReady(opt, st, readings, end, toFail, toRetry);
      DeleteAll(toFail);
      StepScan(readings, end, toFail, toRetry);
      locked := false;
    }

    ghost method StepFailed()
      requires Reaches(opt, run, st) && st.toFail != []
      modifies this`st, this`run
      ensures var p := old(st).toFail[0];
        && Reaches(opt, run, st) && run == Then(old(run), FailCallback)
        && p in old(st).pends && old(st).pends[p].msg in old(st).cells
        && st == old(st).(
          toFail := old(st).toFail[1..],
          cells := old(st).cells[old(st).pends[p].msg :=
                     old(st).cells[old(st).pends[p].msg].(typ := MessageType.Failed)],
          trace := old(st).trace + [FailFired(p)])
    {
      KnownClosed(opt, run, st);
      Step(FailCallback);
    }

    /** OnMsgFailed for each message of the batch: here, the write through the shared reference. */
    method FireFailures(toFail: seq<PendMessage>)
      requires Valid() && !locked && st.toFail == toFail
      modifies this, st.cells.Keys
      ensures Valid() && !locked && st.toFail == [] && st.toRetry == old(st).toRetry && st.now == old(st).now
      ensures st.pends == old(st).pends && st.cells.Keys == old(st).cells.Keys
      ensures st.stuck == old(st).stuck && msgList == old(msgList)
      ensures run == FailRun(old(run), |toFail|)
      ensures forall p :: p in toFail ==> p.msg.value.typ == MessageType.Failed
    {
      var i := 0;
      while i < |toFail|
        invariant 0 <= i <= |toFail|
        invariant Valid() && !locked && st.toFail == toFail[i..]
        invariant st.toRetry == old(st).toRetry && st.now == old(st).now
        invariant st.pends == old(st).pends && st.cells.Keys == old(st).cells.Keys
        invariant st.stuck == old(st).stuck && msgList == old(msgList)
        invariant run == FailRun(old(run), i)
        invariant forall j :: 0 <= j < i ==> toFail[j].msg.value.typ == MessageType.Failed
      {
        FireFailure(toFail[i]);
        i := i + 1;
      }
    }

    method FireFailure(p: PendMessage)
      requires Valid() && !locked && st.toFail != [] && st.toFail[0] == p
      modifies this, st.cells.Keys
      ensures Valid() && !locked && st.toFail == old(st).toFail[1..]
      ensures st.toRetry == old(st).toRetry && st.now == old(st).now
      ensures st.pends == old(st).pends && st.cells.Keys == old(st).cells.Keys
      ensures st.stuck == old(st).stuck && msgList == old(msgList)
      ensures run == Then(old(run), FailCallback)
      ensures p.msg.value == old(p.msg.value).(typ := MessageType.Failed)
      ensures forall c :: c in st.cells && c != p.msg ==> c.value == old(c.value)
    {
      BatchStored(opt, run, st);
      MirrorAt(st.pends, st.cells, p);
      ghost var cells := st.cells;
      MirrorWithout(st.pends, cells, {}, {p.msg});
      StepFailed();
      p.msg.value := p.msg.value.(typ := MessageType.Failed);
      MirrorPut(st.pends - {}, cells, p.msg);
      assert st.pends - {} == st.pends;
    }

    ghost method StepRetried(now: int)
      requires Reaches(opt, run, st) && st.toFail == [] && st.toRetry != [] && st.now <= now
      modifies this`st, this`run
      ensures var p := old(st).toRetry[0];
        && Reaches(opt, run, st) && run == Then(Then(old(run), Tick(now - old(st).now)), RetryCallback)
        && p in old(st).pends
        && st == old(st).(
          now := now,
          toRetry := old(st).toRetry[1..],
          pends := old(st).pends[p := Entry(old(st).pends[p].retryCount + 1, now, old(st).pends[p].msg)],
          trace := old(st).trace + [RetryFired(p, now)])
    {
      KnownClosed(opt, run, st);
      Step(Tick(now - st.now));
      Step(RetryCallback);
    }

    method FireRetry(p: PendMessage, now: int)
      requires Valid() && !locked && st.toFail == [] && st.toRetry != [] && st.toRetry[0] == p && st.now <= now
      modifies this, st.pends.Keys
      ensures Valid() && !locked && st.toFail == [] && st.toRetry == old(st).toRetry[1..] && st.now == now
      ensures st.pends.Keys == old(st).pends.Keys && st.cells == old(st).cells
      ensures st.stuck == old(st).stuck && msgList == old(msgList)
      ensures run == Then(Then(old(run), Tick(now - old(st).now)), RetryCallback)
      ensures p.lastRetryAt == now && p.retryCount == old(p.retryCount) + 1
      ensures forall q :: q in st.pends && q != p ==> unchanged(q)
    {
      BatchStored(opt, run, st);
      MirrorAt(st.pends, st.cells, p);
      ghost var pends := st.pends;
      MirrorWithout(pends, st.cells, {p}, {});
      StepRetried(now);
      p.lastRetryAt := now;
      p.retryCount := p.retryCount + 1;
      MirrorAdd(pends, st.cells - {}, p);
      assert st.cells - {} == st.cells;
    }

    /** OnMsgRetry for each message of the batch; clock gives the successive readings of the time. */
    method FireRetries(toRetry: seq<PendMessage>, clock: nat -> int)
      requires Valid() && !locked && st.toFail == [] && st.toRetry == toRetry && Rising(st.now, clock)
      modifies this, st.pends.Keys
      ensures Valid() && !locked && st.toFail == [] && st.toRetry == [] && st.stuck == old(st).stuck
      ensures run == RetryRun(old(run), old(st).now, clock, |toRetry|)
    {
      ghost var from := st.now;
      var i := 0;
      while i < |toRetry|
        invariant 0 <= i <= |toRetry|
        invariant Valid() && !locked && st.toFail == [] && st.toRetry == toRetry[i..] && st.stuck == old(st).stuck
        invariant st.now == Reached(from, clock, i) && st.pends.Keys == old(st).pends.Keys
        invariant run == RetryRun(old(run), from, clock, i)
      {
        RisingAt(from, clock, i);
        FireRetry(toRetry[i], clock(i));
        i := i + 1;
      }
    }

    /** One tick of clearUp: the locked scan, then the callbacks outside the lock. */
    method ClearUp(readings: map<string, Reading>, end: int, clock: nat -> int)
      returns (toFail: seq<PendMessage>, toRetry: seq<PendMessage>)
      requires Valid() && !locked && !st.stuck && st.toFail == [] && st.toRetry == [] && Clocked(readings, end)
      requires Rising(end, clock)
      modifies this, st.pends.Keys, st.cells.Keys
      ensures Valid() && !locked && !st.stuck && st.toFail == [] && st.toRetry == []
      ensures run ==
        RetryRun(
          FailRun(Then(Then(old(run), Lock(SweepOp)), DoScan(readings, end, toFail, toRetry)), |toFail|),
          end, clock, |toRetry|)
    {
      toFail, toRetry := Scan(readings, end);
      FireFailures(toFail);
      FireRetries(toRetry, clock);
    }
  }

  ghost predicate Rising(from: int, clock: nat -> int) {
    from <= clock(0) && forall i: nat, j: nat :: i <= j ==> clock(i) <= clock(j)
  }

  lemma RisingAt(from: int, clock: nat -> int, n: nat)
    requires Rising(from, clock)
    ensures Reached(from, clock, n) <= clock(n)
  {
  }

  function FailRun(r: Run, n: nat): Run {
    if n == 0 then r else Then(FailRun(r, n - 1), FailCallback)
  }

  function Reached(from: int, clock: nat -> int, n: nat): int {
    if n == 0 then from else clock(n - 1)
  }

  ghost function RetryRun(r: Run, from: int, clock: nat -> int, n: nat): Run
    requires Rising(from, clock)
  {
    if n == 0 then r
    else Then(Then(RetryRun(r, from, clock, n - 1), Tick(clock(n - 1) - Reached(from, clock, n - 1))), RetryCallback)
  }
}
