/** What stands behind everything the server hands over, in every run: the row of a content message, the Pend of a
    retry, the UnPend of an acknowledgement (service/message.go). */
module MessageDeliveries {
  import opened Types
  import opened MessageService
  import opened MessageSafety
  import MessageAcks
  import P = PenderProtocol
  import PS = PenderSafety
  import PT = PenderTheorems

  // ---- rows

  /** The row of message m: what m was when it was saved, up to what may change later. */
  predicate RowOf(table: map<string, Message>, m: Message) {
    m.msgId in table && SameButState(table[m.msgId], m)
  }

  predicate SameButState(a: Message, b: Message) {
    a == b.(typ := a.typ, isDelivered := a.isDelivered, channelId := a.channelId)
  }

  lemma RowKept(o: P.Opts, y: Server, l: Label, m: Message)
    requires Closed(y) && CanStep(o, y, l) && RowOf(y.table, m)
    ensures RowOf(Step(o, y, l).table, m)
    ensures y.table[m.msgId].isDelivered ==> Step(o, y, l).table[m.msgId].isDelivered
  {
  }

  /** A call that has begun to act on a content message has its row. */
  ghost predicate CallsSaved(y: Server)
    requires Closed(y)
  {
    forall t :: t in y.calls && y.calls[t].content && Proj(y.acts, t) != [] ==> RowOf(y.table, Msg(y, t))
  }

  lemma FirstActIsSave(c: Call, l: Label, ks: seq<Kind>)
    requires Script(c, ks) && Serves(c, l) && Adds(c, l) != [] && c.content && ks == []
    ensures l.SaveRow? && l.ok
  {
  }

  lemma SaveMakesRow(o: P.Opts, y: Server, t: nat)
    requires Closed(y) && CanStep(o, y, SaveRow(t, true))
    ensures RowOf(Step(o, y, SaveRow(t, true)).table, Msg(Step(o, y, SaveRow(t, true)), t))
  {
  }

  lemma CallSaved(o: P.Opts, y: Server, l: Label, t: nat)
    requires Closed(y) && CanStep(o, y, l) && Scripted(y) && CallsSaved(y)
    requires t in y.calls && Step(o, y, l).calls[t].content && Proj(Step(o, y, l).acts, t) != []
    ensures RowOf(Step(o, y, l).table, Msg(Step(o, y, l), t))
  {
    MessageAcks.StepOfCall(o, y, l, t);
    assert Script(y.calls[t], Proj(y.acts, t));
    CellsKept(o, y, l, y.calls[t].cell);
    if Proj(y.acts, t) != [] {
      if OfCall(l) && l.t == t { OpenIsFirst(y.calls[t], l, Proj(y.acts, t)); }
      RowKept(o, y, l, Msg(y, t));
    } else {
      FirstActIsSave(y.calls[t], l, Proj(y.acts, t));
      SaveMakesRow(o, y, t);
    }
  }

  lemma OpenIsFirst(c: Call, l: Label, ks: seq<Kind>)
    requires Script(c, ks) && Serves(c, l) && ks != []
    ensures !l.Open?
  {
  }

  lemma StepCallsSaved(o: P.Opts, y: Server, l: Label)
    requires Closed(y) && CanStep(o, y, l) && Scripted(y) && CallsSaved(y)
    ensures CallsSaved(Step(o, y, l))
  {
    var y' := Step(o, y, l);
    forall t | t in y'.calls && y'.calls[t].content && Proj(y'.acts, t) != [] ensures RowOf(y'.table, Msg(y', t)) {
      if t !in y.calls {
        NewHasNoContent(o, y, l, t);
      }
      CallSaved(o, y, l, t);
    }
  }

  lemma NewHasNoContent(o: P.Opts, y: Server, l: Label, t: nat)
    requires Closed(y) && CanStep(o, y, l) && t in Step(o, y, l).calls && t !in y.calls
    ensures !Step(o, y, l).calls[t].content
  {
  }

  // ---- actions

  /** A content message that has been saved, pended, routed or sent to its room has its row. */
  ghost predicate ActSaved(y: Server, i: nat)
    requires i < |y.acts|
  {
    y.acts[i].Did? && y.acts[i].content && !y.acts[i].kind.Receipt? ==> RowOf(y.table, y.acts[i].m)
  }

  ghost predicate ActsSaved(y: Server) {
    forall i :: 0 <= i < |y.acts| ==> ActSaved(y, i)
  }

  lemma NewAct(o: P.Opts, y: Server, l: Label, a: Act)
    requires Closed(y) && CanStep(o, y, l) && Step(o, y, l).acts == y.acts + [a] && a.Did? && !a.kind.Receipt?
    ensures OfCall(l) && l.t == a.t && a.t in y.calls
    ensures a.m == Msg(y, a.t) == Msg(Step(o, y, l), a.t)
    ensures a.content ==> y.calls[a.t].content || l.SaveRow? || l.SendGroup?
  {
    assert a == Step(o, y, l).acts[|y.acts|];
  }

  lemma NewActSaved(o: P.Opts, y: Server, l: Label)
    requires Closed(y) && CanStep(o, y, l) && Scripted(y) && CallsSaved(y) && |Step(o, y, l).acts| > |y.acts|
    ensures ActSaved(Step(o, y, l), |y.acts|)
  {
    var y' := Step(o, y, l);
    var a := y'.acts[|y.acts|];
    if a.Did? && a.content && !a.kind.Receipt? {
      ActsGrow(o, y, l);
      assert y'.acts == y.acts + [a];
      NewAct(o, y, l, a);
      StepActs(o, y, l);
      MessageAcks.StepOfCall(o, y, l, a.t);
      ScriptGoesOn(y.calls[a.t], Msg(y, a.t), l, Proj(y.acts, a.t));
      CallSaved(o, y, l, a.t);
    }
  }

  lemma OldActSaved(o: P.Opts, y: Server, l: Label, i: nat)
    requires Closed(y) && CanStep(o, y, l) && i < |y.acts| && ActSaved(y, i)
    ensures |y.acts| <= |Step(o, y, l).acts| <= |y.acts| + 1 && ActSaved(Step(o, y, l), i)
  {
    ActsGrow(o, y, l);
    assert Step(o, y, l).acts[i] == y.acts[i];
    if y.acts[i].Did? && y.acts[i].content && !y.acts[i].kind.Receipt? {
      RowKept(o, y, l, y.acts[i].m);
    }
  }

  lemma StepActsSaved(o: P.Opts, y: Server, l: Label)
    requires Closed(y) && CanStep(o, y, l) && Scripted(y) && CallsSaved(y) && ActsSaved(y)
    ensures ActsSaved(Step(o, y, l))
  {
    var y' := Step(o, y, l);
    ActsGrow(o, y, l);
    forall i | 0 <= i < |y'.acts| ensures ActSaved(y', i) {
      if i < |y.acts| {
        assert ActSaved(y, i);
        OldActSaved(o, y, l, i);
      } else {
        NewActSaved(o, y, l);
      }
    }
  }

  lemma {:induction false} RunSaved(o: P.Opts, r: Run)
    requires ValidRun(o, INIT, r)
    ensures CallsSaved(After(o, INIT, r)) && ActsSaved(After(o, INIT, r))
  {
    if r.Then? {
      RunSaved(o, r.before);
      RunScripted(o, r.before);
      StepCallsSaved(o, After(o, INIT, r.before), r.last);
      StepActsSaved(o, After(o, INIT, r.before), r.last);
    }
  }

  // ---- entries and retries

  /** Action j is the Pend of message m, as m was then. */
  ghost predicate PendOf(acts: seq<Act>, j: nat, m: Message) {
    j < |acts| && acts[j].Did? && acts[j].kind.Pend? && SameMessage(acts[j].m, m)
  }

  ghost predicate EntriesPended(y: Server)
    requires Closed(y)
  {
    forall p :: p in y.pender.pends ==> exists j: nat :: PendOf(y.acts, j, y.pender.cells[y.pender.pends[p].msg])
  }

  lemma PendBodyActs(o: P.Opts, y: Server, t: nat, p: P.PendMessage)
    requires Closed(y) && CanStep(o, y, PendBody(t, p))
    ensures Step(o, y, PendBody(t, p)).acts == y.acts + [Did(t, Pend, y.calls[t].content, Msg(y, t))]
  {
  }

  lemma EntryPended(o: P.Opts, y: Server, l: Label, p: P.PendMessage) returns (j: nat)
    requires Closed(y) && CanStep(o, y, l) && EntriesPended(y) && p in Step(o, y, l).pender.pends
    ensures var s' := Step(o, y, l).pender; PendOf(Step(o, y, l).acts, j, s'.cells[s'.pends[p].msg])
  {
    ActsGrow(o, y, l);
    MessageAcks.StepPends(o, y, l, p);
    var s' := Step(o, y, l).pender;
    var c := s'.pends[p].msg;
    CellsKept(o, y, l, c);
    if p in y.pender.pends {
      j :| PendOf(y.acts, j, y.pender.cells[c]);
      assert Step(o, y, l).acts[j] == y.acts[j];
    } else {
      j := |y.acts|;
      PendBodyActs(o, y, l.t, p);
    }
  }

  lemma StepEntriesPended(o: P.Opts, y: Server, l: Label)
    requires Closed(y) && CanStep(o, y, l) && EntriesPended(y)
    ensures EntriesPended(Step(o, y, l))
  {
    var y' := Step(o, y, l);
    forall p | p in y'.pender.pends
      ensures exists j: nat :: PendOf(y'.acts, j, y'.pender.cells[y'.pender.pends[p].msg])
    {
      var j := EntryPended(o, y, l, p);
    }
  }

  lemma {:induction false} RunEntriesPended(o: P.Opts, r: Run)
    requires ValidRun(o, INIT, r)
    ensures EntriesPended(After(o, INIT, r))
  {
    if r.Then? {
      RunEntriesPended(o, r.before);
      StepEntriesPended(o, After(o, INIT, r.before), r.last);
    }
  }

  /** In every run, whatever is pended is there because of a Pend, and if it is a content message its row is in the
      table. */
  lemma {:induction false} PendedIsSaved(o: P.Opts, r: Run, p: P.PendMessage) returns (j: nat)
    requires ValidRun(o, INIT, r) && p in After(o, INIT, r).pender.pends
    ensures var y := After(o, INIT, r);
      var m := y.pender.cells[y.pender.pends[p].msg];
      PendOf(y.acts, j, m) && (y.acts[j].content ==> RowOf(y.table, m))
  {
    var y := After(o, INIT, r);
    RunEntriesPended(o, r);
    RunSaved(o, r);
    j :| PendOf(y.acts, j, y.pender.cells[y.pender.pends[p].msg]);
    assert ActSaved(y, j);
  }

  lemma RetryAct(o: P.Opts, y: Server, l: Label)
    requires Closed(y) && CanStep(o, y, l) && |Step(o, y, l).acts| > |y.acts| && Step(o, y, l).acts[|y.acts|].RetrySent?
    ensures l.RetryBack? && y.pender.toRetry != [] && y.pender.toRetry[0] in y.pender.pends
    ensures Step(o, y, l).acts[|y.acts|].m == y.pender.cells[y.pender.pends[y.pender.toRetry[0]].msg]
  {
  }

  /** Every retry follows the Pend of the message it routes. */
  lemma {:induction false} RetryFollowsPend(o: P.Opts, r: Run, i: nat) returns (j: nat)
    requires ValidRun(o, INIT, r) && i < |After(o, INIT, r).acts| && After(o, INIT, r).acts[i].RetrySent?
    ensures j < i && PendOf(After(o, INIT, r).acts, j, After(o, INIT, r).acts[i].m)
  {
    var y := After(o, INIT, r.before);
    var acts := After(o, INIT, r).acts;
    ActsGrow(o, y, r.last);
    if i < |y.acts| {
      assert acts[i] == y.acts[i];
      j := RetryFollowsPend(o, r.before, i);
      assert acts[j] == y.acts[j];
    } else {
      RetryAct(o, y, r.last);
      RunEntriesPended(o, r.before);
      j :| PendOf(y.acts, j, y.pender.cells[y.pender.pends[y.pender.toRetry[0]].msg]);
      assert acts[j] == y.acts[j];
    }
  }

  /** A retry of a content message, too, routes it only after its row was saved and one Sent receipt went out, and
      the row is in the table. */
  lemma {:induction false} RetriedAfterSaved(o: P.Opts, r: Run, i: nat) returns (p: nat, j: nat, k: nat)
    requires ValidRun(o, INIT, r) && i < |After(o, INIT, r).acts| && After(o, INIT, r).acts[i].RetrySent?
    ensures var y := After(o, INIT, r);
      && p < i && PendOf(y.acts, p, y.acts[i].m)
      && (y.acts[p].content ==>
            SavedThenReceipted(y.acts, y.acts[p].t, p, j, k) && RowOf(y.table, y.acts[i].m))
  {
    var y := After(o, INIT, r);
    p := RetryFollowsPend(o, r, i);
    j, k := 0, 0;
    if y.acts[p].content {
      j, k := SavedBeforeDelivered(o, r, p);
      RunSaved(o, r);
      assert ActSaved(y, p);
    }
  }

  /** The ids of the messages that these events retry, in order. */
  ghost function RetriedIds(s: P.State, t: seq<P.Event>): seq<string>
    requires P.Closed(s) && forall i :: 0 <= i < |t| ==> t[i].p in s.pends
  {
    if t == [] then []
    else
      var e := t[|t| - 1];
      RetriedIds(s, t[..|t| - 1]) + if e.RetryFired? then [s.cells[s.pends[e.p].msg].msgId] else []
  }

  /** The ids of the messages routed again, in order. */
  function ResentIds(acts: seq<Act>): seq<string> {
    if acts == [] then []
    else
      var a := acts[|acts| - 1];
      ResentIds(acts[..|acts| - 1]) + if a.RetrySent? then [a.m.msgId] else []
  }

  lemma OneIdKept(o: P.Opts, s: P.State, l: P.Label, p: P.PendMessage)
    requires P.Closed(s) && P.Enabled(o, s, l) && p in s.pends
    ensures var s' := P.Next(o, s, l);
      p in s'.pends && s'.cells[s'.pends[p].msg].msgId == s.cells[s.pends[p].msg].msgId
  {
  }

  lemma {:induction false} IdsKept(o: P.Opts, s: P.State, l: P.Label, t: seq<P.Event>)
    requires P.Closed(s) && P.Enabled(o, s, l) && forall i :: 0 <= i < |t| ==> t[i].p in s.pends
    ensures forall i :: 0 <= i < |t| ==> t[i].p in P.Next(o, s, l).pends
    ensures RetriedIds(P.Next(o, s, l), t) == RetriedIds(s, t)
  {
    if t != [] {
      IdsKept(o, s, l, t[..|t| - 1]);
      OneIdKept(o, s, l, t[|t| - 1].p);
    }
  }

  lemma OneEvent(o: P.Opts, s: P.State, l: P.Label)
    requires P.Closed(s) && P.Enabled(o, s, l)
    ensures var t, t' := s.trace, P.Next(o, s, l).trace;
      if l.RetryCallback? then t' == t + [P.RetryFired(s.toRetry[0], s.now)]
      else t' == t || (|t'| == |t| + 1 && t' == t + [t'[|t|]] && !t'[|t|].RetryFired?)
  {
  }

  lemma RetriedSnoc(s: P.State, t: seq<P.Event>, e: P.Event)
    requires P.Closed(s) && (forall i :: 0 <= i < |t| ==> t[i].p in s.pends) && e.p in s.pends
    ensures RetriedIds(s, t + [e]) ==
      RetriedIds(s, t) + if e.RetryFired? then [s.cells[s.pends[e.p].msg].msgId] else []
  {
    assert (t + [e])[..|t|] == t;
  }

  lemma OneRetried(o: P.Opts, s: P.State, l: P.Label)
    requires P.Closed(s) && PS.Tracked(s) && P.Enabled(o, s, l) && PS.Tracked(P.Next(o, s, l))
    ensures var s' := P.Next(o, s, l);
      RetriedIds(s', s'.trace) == RetriedIds(s, s.trace)
        + if l.RetryCallback? then [s.cells[s.pends[s.toRetry[0]].msg].msgId] else []
  {
    var s' := P.Next(o, s, l);
    IdsKept(o, s, l, s.trace);
    OneEvent(o, s, l);
    if s'.trace != s.trace {
      RetriedSnoc(s', s.trace, s'.trace[|s.trace|]);
    }
    if l.RetryCallback? { OneIdKept(o, s, l, s.toRetry[0]); }
  }

  lemma RetryLabels(o: P.Opts, y: Server, l: Label)
    requires Closed(y) && CanStep(o, y, l)
    ensures var ls := PenderLabels(y, l);
      if l.RetryBack? then ls == [P.RetryCallback] else forall k :: k in ls ==> !k.RetryCallback?
  {
  }

  lemma TrackedKept(o: P.Opts, s: P.State, l: P.Label)
    requires P.Closed(s) && PS.Tracked(s) && P.Enabled(o, s, l)
    ensures PS.Tracked(P.Next(o, s, l))
  {
  }

  lemma StepRetried(o: P.Opts, y: Server, l: Label)
    requires Closed(y) && CanStep(o, y, l) && PS.Tracked(y.pender)
    ensures var s' := Step(o, y, l).pender;
      PS.Tracked(s') && RetriedIds(s', s'.trace) == RetriedIds(y.pender, y.pender.trace)
        + if l.RetryBack? then [y.pender.cells[y.pender.pends[y.pender.toRetry[0]].msg].msgId] else []
  {
    SharesEnabled(o, y, l);
    RetryLabels(o, y, l);
    var ls := PenderLabels(y, l);
    if |ls| >= 1 {
      TrackedKept(o, y.pender, ls[0]);
      OneRetried(o, y.pender, ls[0]);
    }
    if |ls| == 2 {
      TrackedKept(o, P.Next(o, y.pender, ls[0]), ls[1]);
      OneRetried(o, P.Next(o, y.pender, ls[0]), ls[1]);
    }
  }

  lemma StepResent(o: P.Opts, y: Server, l: Label)
    requires Closed(y) && CanStep(o, y, l)
    ensures ResentIds(Step(o, y, l).acts) == ResentIds(y.acts)
        + if l.RetryBack? then [y.pender.cells[y.pender.pends[y.pender.toRetry[0]].msg].msgId] else []
  {
    var acts' := Step(o, y, l).acts;
    ActsGrow(o, y, l);
    if |acts'| > |y.acts| {
      assert acts'[..|acts'| - 1] == y.acts;
      if acts'[|y.acts|].RetrySent? { RetryAct(o, y, l); }
    } else {
      assert acts' == y.acts;
    }
  }

  /** What has been routed again is what the pender has retried. */
  ghost predicate Resent(y: Server)
    requires Closed(y)
  {
    PS.Tracked(y.pender) && ResentIds(y.acts) == RetriedIds(y.pender, y.pender.trace)
  }

  lemma StepSent(o: P.Opts, y: Server, l: Label)
    requires Closed(y) && CanStep(o, y, l) && Resent(y)
    ensures Resent(Step(o, y, l))
  {
    StepRetried(o, y, l);
    StepResent(o, y, l);
  }

  /** In every run the messages routed again are, one for one and in order, those that the pender retries. */
  lemma {:induction false} RetriesAreSent(o: P.Opts, r: Run)
    requires ValidRun(o, INIT, r)
    ensures Resent(After(o, INIT, r))
  {
    if r.Then? {
      RetriesAreSent(o, r.before);
      StepSent(o, After(o, INIT, r.before), r.last);
    }
  }

  /** Whenever a content message has been handed to anyone, its row is in the table. */
  lemma {:induction false} DeliveredIsSaved(o: P.Opts, r: Run, i: nat)
    requires ValidRun(o, INIT, r) && i < |After(o, INIT, r).acts|
    requires var a := After(o, INIT, r).acts[i];
      a.Did? && a.content && !a.kind.Receipt?
    ensures RowOf(After(o, INIT, r).table, After(o, INIT, r).acts[i].m)
  {
    RunSaved(o, r);
    assert ActSaved(After(o, INIT, r), i);
  }

  // ---- acknowledgements

  /** The effect of OnMsgAcked for a message whose row is there. */
  ghost predicate AckEffect(y: Server, y': Server, m: Message, ok: bool) {
    && RowOf(y.table, m)
    && y'.table == (if ok then y.table[m.msgId := y.table[m.msgId].(isDelivered := true)] else y.table)
    && var ack := AckToSender(m, y.pender.now);
      && ack.toId == y.table[m.msgId].fromId && ack.fromId == y.table[m.msgId].toId && ack.msgId == m.msgId
      && ack.typ == MessageType.Ack && ack.sendAt == y.pender.now && ack.roomId == "" && ack.content == ""
      && y'.acts == y.acts + if ok && !y.table[m.msgId].isDelivered then [AckSent(ack)] else []
  }

  lemma AckBackStep(o: P.Opts, y: Server, p: P.PendMessage, ok: bool)
    requires Closed(y) && CanStep(o, y, AckBack(p, ok)) && RowOf(y.table, y.pender.cells[y.pender.pends[p].msg])
    ensures AckEffect(y, Step(o, y, AckBack(p, ok)), y.pender.cells[y.pender.pends[p].msg], ok)
  {
  }

  ghost predicate LeadsTo(o: P.Opts, r: Run, y: Server) {
    ValidRun(o, INIT, r) && After(o, INIT, r) == y
  }

  /** What OnMsgAcked does at any moment of any run: for a content message the row is there; it becomes delivered,
      and one Ack goes from the recipient to the sender if and only if it was not delivered already. */
  lemma {:induction false} AckBackExactly(o: P.Opts, r: Run, y: Server, p: P.PendMessage, ok: bool, j: nat)
    requires Closed(y) && LeadsTo(o, r, y) && CanStep(o, y, AckBack(p, ok))
    requires PendOf(y.acts, j, y.pender.cells[y.pender.pends[p].msg]) && y.acts[j].content
    ensures AckEffect(y, Step(o, y, AckBack(p, ok)), y.pender.cells[y.pender.pends[p].msg], ok)
  {
    RunSaved(o, r);
    assert ActSaved(y, j);
    AckBackStep(o, y, p, ok);
  }

  /** An Ack for a pended content message at any moment of any run, if nothing comes between its steps: out of the map,
      and the effect of OnMsgAcked on the row that is there. */
  lemma {:induction false} AckEndToEnd(o: P.Opts, r: Run, y: Server, t: nat, online: bool, j: nat)
    requires Closed(y) && LeadsTo(o, r, y)
    requires At(y, t, Checking) && Msg(y, t).typ == MessageType.Ack && y.pender.owner.None? && !y.pender.stuck
    requires Msg(y, t).msgId in y.pender.msgList
    requires var p := y.pender.msgList[Msg(y, t).msgId];
      PendOf(y.acts, j, y.pender.cells[y.pender.pends[p].msg]) && y.acts[j].content
    ensures var id := Msg(y, t).msgId;
      var p := y.pender.msgList[id];
      var m := y.pender.cells[y.pender.pends[p].msg];
      var q := Then(Then(Then(Then(Start, Dispatch(t, online)), LockCall(t)), UnPendBody(t)), AckBack(p, true));
      && m.msgId == id && ValidRun(o, y, q)
      && After(o, y, q).pender.msgList == y.pender.msgList - {id} && After(o, y, q).pender.owner.None?
      && AckEffect(y, After(o, y, q), m, true)
  {
    var id := Msg(y, t).msgId;
    var p := y.pender.msgList[id];
    var m := y.pender.cells[y.pender.pends[p].msg];
    RunSaved(o, r);
    assert ActSaved(y, j);
    PenderKeepsInv(o, r);
    AckFromSaved(o, y, t, online);
  }

  lemma AckFromSaved(o: P.Opts, y: Server, t: nat, online: bool)
    requires Closed(y) && PS.Inv(o, y.pender)
    requires At(y, t, Checking) && Msg(y, t).typ == MessageType.Ack && y.pender.owner.None? && !y.pender.stuck
    requires Msg(y, t).msgId in y.pender.msgList
    requires RowOf(y.table, y.pender.cells[y.pender.pends[y.pender.msgList[Msg(y, t).msgId]].msg])
    ensures var id := Msg(y, t).msgId;
      var p := y.pender.msgList[id];
      var m := y.pender.cells[y.pender.pends[p].msg];
      var q := Then(Then(Then(Then(Start, Dispatch(t, online)), LockCall(t)), UnPendBody(t)), AckBack(p, true));
      && m.msgId == id && ValidRun(o, y, q)
      && After(o, y, q).pender.msgList == y.pender.msgList - {id} && After(o, y, q).pender.owner.None?
      && AckEffect(y, After(o, y, q), m, true)
  {
    var id := Msg(y, t).msgId;
    var p := y.pender.msgList[id];
    var r1 := Then(Start, Dispatch(t, online));
    var r2 := Then(r1, LockCall(t));
    var r3 := Then(r2, UnPendBody(t));
    MessageAcks.AckLocks(o, y, t, online);
    MessageAcks.RunTo(o, y, Start, Dispatch(t, online));
    MessageAcks.RunTo(o, y, r1, LockCall(t));
    MessageAcks.AckRemoves(o, After(o, y, r2), t, id);
    MessageAcks.RunTo(o, y, r2, UnPendBody(t));
    var y3 := After(o, y, r3);
    AckBackReady(o, y3, p);
    MessageAcks.RunTo(o, y, r3, AckBack(p, true));
    AckBackStep(o, y3, p, true);
  }

  lemma AckBackReady(o: P.Opts, y: Server, p: P.PendMessage)
    requires Closed(y) && p in y.pender.acking
    ensures CanStep(o, y, AckBack(p, true))
    ensures var s' := Step(o, y, AckBack(p, true)).pender;
      s'.msgList == y.pender.msgList && s'.owner == y.pender.owner
  {
  }

  /** Acks already sent: each for its own id, whose row is delivered. */
  ghost predicate AcksDelivered(y: Server) {
    && (forall i :: 0 <= i < |y.acts| && y.acts[i].AckSent? ==>
          y.acts[i].m.msgId in y.table && y.table[y.acts[i].m.msgId].isDelivered)
    && (forall i, j :: 0 <= i < j < |y.acts| && y.acts[i].AckSent? && y.acts[j].AckSent? ==>
          y.acts[i].m.msgId != y.acts[j].m.msgId)
  }

  lemma AckAct(o: P.Opts, y: Server, l: Label)
    requires Closed(y) && CanStep(o, y, l) && |Step(o, y, l).acts| > |y.acts| && Step(o, y, l).acts[|y.acts|].AckSent?
    ensures var id := Step(o, y, l).acts[|y.acts|].m.msgId;
      && l.AckBack? && id in y.table && !y.table[id].isDelivered
      && Step(o, y, l).table == y.table[id := y.table[id].(isDelivered := true)]
  {
  }

  lemma TableKept(o: P.Opts, y: Server, l: Label, id: string)
    requires Closed(y) && CanStep(o, y, l) && id in y.table && y.table[id].isDelivered
    ensures id in Step(o, y, l).table && Step(o, y, l).table[id].isDelivered
  {
  }

  /** An Ack among the actions after a step: an old one, or the step's own for a row not delivered before. */
  lemma AckAfter(o: P.Opts, y: Server, l: Label, i: nat)
    requires Closed(y) && CanStep(o, y, l) && AcksDelivered(y)
    requires i < |Step(o, y, l).acts| && Step(o, y, l).acts[i].AckSent?
    ensures var y' := Step(o, y, l);
      var id := y'.acts[i].m.msgId;
      && id in y'.table && y'.table[id].isDelivered && i <= |y.acts|
      && (if i < |y.acts| then y.acts[i] == y'.acts[i] && id in y.table && y.table[id].isDelivered
          else id in y.table && !y.table[id].isDelivered)
  {
    ActsGrow(o, y, l);
    if i < |y.acts| {
      assert Step(o, y, l).acts[i] == y.acts[i];
      TableKept(o, y, l, y.acts[i].m.msgId);
    } else {
      AckAct(o, y, l);
    }
  }

  lemma StepAcksDelivered(o: P.Opts, y: Server, l: Label)
    requires Closed(y) && CanStep(o, y, l) && AcksDelivered(y)
    ensures AcksDelivered(Step(o, y, l))
  {
    var acts' := Step(o, y, l).acts;
    forall i | 0 <= i < |acts'| && acts'[i].AckSent?
      ensures acts'[i].m.msgId in Step(o, y, l).table && Step(o, y, l).table[acts'[i].m.msgId].isDelivered
    {
      AckAfter(o, y, l, i);
    }
    forall i, j | 0 <= i < j < |acts'| && acts'[i].AckSent? && acts'[j].AckSent?
      ensures acts'[i].m.msgId != acts'[j].m.msgId
    {
      AckAfter(o, y, l, i);
      AckAfter(o, y, l, j);
    }
  }

  /** In every run of the server a message is acknowledged to its sender at most once, whatever is pended, acked and
      pended again under its id, and then its row says delivered. */
  lemma {:induction false} AckedOnce(o: P.Opts, r: Run)
    requires ValidRun(o, INIT, r)
    ensures AcksDelivered(After(o, INIT, r))
  {
    if r.Then? {
      AckedOnce(o, r.before);
      StepAcksDelivered(o, After(o, INIT, r.before), r.last);
    }
  }

  ghost predicate Hits(y: Server, l: Label)
    requires Closed(y)
  {
    l.UnPendBody? && l.t in y.calls && Msg(y, l.t).msgId in y.pender.msgList
  }

  /** UnPends of the run that found their id. */
  ghost function HitCount(o: P.Opts, y: Server, r: Run): nat
    requires Closed(y) && ValidRun(o, y, r)
  {
    if r.Start? then 0
    else HitCount(o, y, r.before) + if Hits(After(o, y, r.before), r.last) then 1 else 0
  }

  function AckCount(acts: seq<Act>): nat {
    if acts == [] then 0 else AckCount(acts[..|acts| - 1]) + if acts[|acts| - 1].AckSent? then 1 else 0
  }

  lemma OneHandover(o: P.Opts, s: P.State, l: P.Label)
    requires P.Closed(s) && P.Enabled(o, s, l) && forall k :: k in s.msgList ==> s.msgList[k] !in s.acking
    ensures |P.Next(o, s, l).acking| == |s.acking|
      + (if l.DoUnPend? && s.owner.value.id in s.msgList then 1 else 0) - (if l.AckCallback? then 1 else 0)
  {
  }

  lemma HandOversApart(o: P.Opts, s: P.State)
    requires PS.Inv(o, s)
    ensures forall k :: k in s.msgList ==> s.msgList[k] !in s.acking
  {
    forall k | k in s.msgList ensures s.msgList[k] !in s.acking {
      PT.HeldNotAcking(o, s, k);
    }
  }

  lemma HitLabels(o: P.Opts, y: Server, l: Label)
    requires Closed(y) && CanStep(o, y, l)
    ensures var ls := PenderLabels(y, l);
      && (Hits(y, l) <==> l.UnPendBody? && ls == [P.DoUnPend] && y.pender.owner.value.id in y.pender.msgList)
      && (l.UnPendBody? ==> ls == [P.DoUnPend])
      && (forall k :: k in ls ==> (k.DoUnPend? ==> l.UnPendBody?) && (k.AckCallback? ==> l.AckBack?))
      && (l.AckBack? ==> ls == [P.AckCallback(l.p)])
  {
  }

  lemma StepHandover(o: P.Opts, y: Server, l: Label)
    requires Closed(y) && PS.Inv(o, y.pender) && CanStep(o, y, l)
    ensures |Step(o, y, l).pender.acking| == |y.pender.acking|
      + (if Hits(y, l) then 1 else 0) - (if l.AckBack? then 1 else 0)
  {
    SharesEnabled(o, y, l);
    HitLabels(o, y, l);
    var ls := PenderLabels(y, l);
    if |ls| >= 1 {
      HandOversApart(o, y.pender);
      OneHandover(o, y.pender, ls[0]);
    }
    if |ls| == 2 {
      PS.StepInv(o, y.pender, ls[0]);
      HandOversApart(o, P.Next(o, y.pender, ls[0]));
      OneHandover(o, P.Next(o, y.pender, ls[0]), ls[1]);
    }
  }

  lemma StepAckCount(o: P.Opts, y: Server, l: Label)
    requires Closed(y) && CanStep(o, y, l)
    ensures AckCount(Step(o, y, l).acts) <= AckCount(y.acts) + if l.AckBack? then 1 else 0
  {
    var acts' := Step(o, y, l).acts;
    ActsGrow(o, y, l);
    if |acts'| > |y.acts| {
      assert acts'[..|acts'| - 1] == y.acts;
      if acts'[|y.acts|].AckSent? { AckAct(o, y, l); }
    } else {
      assert acts' == y.acts;
    }
  }

  /** In every interleaving each UnPend that hits leads to at most one Ack to a sender: the Acks sent and the
      hand-overs still waiting are no more than the hits. */
  lemma {:induction false} EachHitOneAck(o: P.Opts, r: Run)
    requires ValidRun(o, INIT, r)
    ensures AckCount(After(o, INIT, r).acts) + |After(o, INIT, r).pender.acking| <= HitCount(o, INIT, r)
  {
    if r.Then? {
      var y := After(o, INIT, r.before);
      EachHitOneAck(o, r.before);
      PenderKeepsInv(o, r.before);
      StepHandover(o, y, r.last);
      StepAckCount(o, y, r.last);
    }
  }

  ghost predicate AckRan(r: Run, p: P.PendMessage) {
    r.Then? && (AckRan(r.before, p) || (r.last.AckBack? && r.last.p == p))
  }

  lemma OneWaits(o: P.Opts, s: P.State, l: P.Label, p: P.PendMessage)
    requires P.Closed(s) && P.Enabled(o, s, l) && p in s.acking
    ensures p in P.Next(o, s, l).acking <==> l != P.AckCallback(p)
  {
  }

  lemma StepWaits(o: P.Opts, y: Server, l: Label, p: P.PendMessage)
    requires Closed(y) && CanStep(o, y, l) && p in y.pender.acking
    ensures p in Step(o, y, l).pender.acking || (l.AckBack? && l.p == p)
  {
    SharesEnabled(o, y, l);
    var ls := PenderLabels(y, l);
    if |ls| >= 1 {
      OneWaits(o, y.pender, ls[0], p);
    }
    if |ls| == 2 {
      OneWaits(o, P.Next(o, y.pender, ls[0]), ls[1], p);
    }
  }

  /** And it is not lost: what UnPend has taken out waits, able to run, until OnMsgAcked runs for it. */
  lemma {:induction false} HandoverWaits(o: P.Opts, y: Server, r: Run, p: P.PendMessage, ok: bool)
    requires Closed(y) && ValidRun(o, y, r) && p in y.pender.acking && !AckRan(r, p)
    ensures p in After(o, y, r).pender.acking && CanStep(o, After(o, y, r), AckBack(p, ok))
  {
    if r.Then? {
      HandoverWaits(o, y, r.before, p, ok);
      StepWaits(o, After(o, y, r.before), r.last, p);
    }
  }
}
