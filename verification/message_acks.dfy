/** Failure notices and acknowledgements end to end: what SendMessage and the pender promise together,
    and what is left of it behind onMessage, which renames every frame. */
module MessageAcks {
  import opened Types
  import opened MessageService
  import opened MessageSafety
  import P = PenderProtocol
  import PS = PenderSafety
  import PT = PenderTheorems
  import MessageRuns

  // ---- failure notices

  /** A call made by OnMsgFailed only ever checks, routes its notice and ends. */
  ghost predicate NoticeOk(y: Server, t: nat)
    requires Closed(y) && t in y.calls
  {
    var c := y.calls[t];
    c.notice ==>
      && !c.content && Msg(y, t).typ == MessageType.Failed
      && (c.pc.Entry? || c.pc.Checking? || c.pc.Noticing? || c.pc.Done?)
      && (Proj(y.acts, t) == [] || (c.pc.Done? && Proj(y.acts, t) == [Notice]))
  }

  lemma ProjOwn(acts: seq<Act>, acts': seq<Act>, t: nat, ks: seq<Kind>)
    requires |ks| <= 1 && |acts'| == |acts| + |ks| && acts'[..|acts|] == acts
    requires ks != [] ==> By(acts'[|acts|], t, ks[0])
    ensures Proj(acts', t) == Proj(acts, t) + ks
  {
    if ks == [] {
      assert acts' == acts;
    } else {
      assert acts' == acts + [acts'[|acts|]];
      ProjSnoc(acts, acts'[|acts|], t);
    }
  }

  lemma ProjOther(acts: seq<Act>, acts': seq<Act>, t: nat)
    requires |acts| <= |acts'| <= |acts| + 1 && acts'[..|acts|] == acts
    requires |acts'| > |acts| ==> !(acts'[|acts|].Did? && acts'[|acts|].t == t)
    ensures Proj(acts', t) == Proj(acts, t)
  {
    if |acts'| == |acts| {
      assert acts' == acts;
    } else {
      assert acts' == acts + [acts'[|acts|]];
      ProjSnoc(acts, acts'[|acts|], t);
    }
  }

  lemma StepOtherActs(o: P.Opts, y: Server, l: Label, t: nat)
    requires Closed(y) && CanStep(o, y, l) && !(OfCall(l) && l.t == t)
    ensures Proj(Step(o, y, l).acts, t) == Proj(y.acts, t)
  {
    ActsGrow(o, y, l);
    if !OfCall(l) {
      StepNoCall(o, y, l);
    } else if l.t in y.calls {
      StepActs(o, y, l);
    } else {
      StepNewCall(o, y, l);
    }
    ProjOther(y.acts, Step(o, y, l).acts, t);
  }

  /** One step, seen from a call that already exists: it stays or moves by its script, and the actions are
      those of others or what the script adds. */
  lemma StepOfCall(o: P.Opts, y: Server, l: Label, t: nat)
    requires Closed(y) && CanStep(o, y, l) && t in y.calls
    ensures var y' := Step(o, y, l);
      && t in y'.calls
      && (if OfCall(l) && l.t == t
          then Serves(y.calls[t], l) && y'.calls[t] == Moved(y.calls[t], Msg(y, t), l)
               && Proj(y'.acts, t) == Proj(y.acts, t) + Adds(y.calls[t], l)
          else y'.calls[t] == y.calls[t] && Proj(y'.acts, t) == Proj(y.acts, t))
  {
    if OfCall(l) && l.t == t {
      StepActs(o, y, l);
      ProjOwn(y.acts, Step(o, y, l).acts, t, Adds(y.calls[t], l));
    } else {
      StepOtherActs(o, y, l, t);
      OtherCallStays(o, y, l, t);
    }
  }

  lemma OtherCallStays(o: P.Opts, y: Server, l: Label, t: nat)
    requires Closed(y) && CanStep(o, y, l) && t in y.calls && !(OfCall(l) && l.t == t)
    ensures t in Step(o, y, l).calls && Step(o, y, l).calls[t] == y.calls[t]
  {
    if !OfCall(l) {
      StepNoCall(o, y, l);
    } else if l.t in y.calls {
      StepActs(o, y, l);
    } else {
      StepNewCall(o, y, l);
    }
  }

  lemma StepNotice(o: P.Opts, y: Server, l: Label, t: nat)
    requires Closed(y) && CanStep(o, y, l) && t in y.calls && NoticeOk(y, t)
    ensures t in Step(o, y, l).calls && NoticeOk(Step(o, y, l), t)
  {
    CellsKept(o, y, l, y.calls[t].cell);
    StepOfCall(o, y, l, t);
  }

  lemma NewNotice(o: P.Opts, y: Server, l: Label)
    requires Closed(y) && CanStep(o, y, l) && l.FailBack? && Scripted(y)
    ensures l.t in Step(o, y, l).calls && NoticeOk(Step(o, y, l), l.t)
    ensures var m := y.pender.cells[y.pender.pends[y.pender.toFail[0]].msg];
      Msg(Step(o, y, l), l.t) == FailureNotice(m, y.pender.now)
  {
    ProjAbsent(y.acts, l.t);
  }

  lemma {:induction false} NoticesInert(o: P.Opts, r: Run, t: nat)
    requires ValidRun(o, INIT, r) && t in After(o, INIT, r).calls
    ensures NoticeOk(After(o, INIT, r), t)
  {
    var y := After(o, INIT, r.before);
    if t in y.calls {
      NoticesInert(o, r.before, t);
      StepNotice(o, y, r.last, t);
    } else if r.last.FailBack? {
      RunScripted(o, r.before);
      NewNotice(o, y, r.last);
    } else {
      NewPlain(o, y, r.last);
    }
  }

  lemma NewPlain(o: P.Opts, y: Server, l: Label)
    requires Closed(y) && CanStep(o, y, l) && !l.FailBack?
    ensures forall t :: t in Step(o, y, l).calls && t !in y.calls ==>
              (l.Frame? || l.Direct?) && l.t == t && !Step(o, y, l).calls[t].notice
  {
  }

  /** How many steps a notice still has. */
  function NoticeRank(pc: Pc): nat {
    match pc case Entry => 3 case Checking => 2 case Noticing => 1 case _ => 0
  }

  function NoticeStep(pc: Pc, t: nat): Label {
    match pc case Entry => Open(t) case Checking => Dispatch(t, false) case _ => Send(t)
  }

  /** A notice never waits: its next step is enabled whoever holds the lock, brings it closer to the
      end, calls nothing and touches neither the table nor the pender's map. So the chain from
      OnMsgFailed through SendMessage ends after at most three steps. */
  lemma NoticeAdvances(o: P.Opts, y: Server, t: nat)
    requires Closed(y) && t in y.calls && NoticeOk(y, t) && y.calls[t].notice && !y.calls[t].pc.Done?
    ensures CanStep(o, y, NoticeStep(y.calls[t].pc, t))
    ensures var y' := Step(o, y, NoticeStep(y.calls[t].pc, t));
      && t in y'.calls && NoticeRank(y'.calls[t].pc) < NoticeRank(y.calls[t].pc)
      && y'.calls.Keys == y.calls.Keys && y'.table == y.table && y'.pender == y.pender
      && y'.acts == y.acts + if y.calls[t].pc.Noticing? then [Did(t, Notice, false, Msg(y, t))] else []
  {
  }

  // ---- offline recipients

  /** Not yet past Pend. */
  predicate Early(pc: Pc) {
    pc.Entry? || pc.Saving? || pc.Saved? || pc.Receipted? || pc.Grouping? || pc.Checking? || pc.Waiting? || pc.InPend?
  }

  /** Each call has a message object of its own, and until it is past Pend the pender does not have it. */
  ghost predicate Unshared(y: Server)
    requires Closed(y)
  {
    && (forall t, u :: t in y.calls && u in y.calls && t != u ==> y.calls[t].cell != y.calls[u].cell)
    && (forall t, p :: t in y.calls && Early(y.calls[t].pc) && p in y.pender.pends ==>
          y.pender.pends[p].msg != y.calls[t].cell)
  }

  lemma EarlyMoves(c: Call, m: Message, l: Label)
    requires Serves(c, l)
    ensures Early(Moved(c, m, l).pc) ==> Early(c.pc) && !l.PendBody?
  {
  }

  /** A call after a step: an old one, early only if it was, or a new one with an object nobody had. */
  lemma CallBefore(o: P.Opts, y: Server, l: Label, t: nat)
    requires Closed(y) && CanStep(o, y, l) && t in Step(o, y, l).calls
    ensures var c' := Step(o, y, l).calls[t];
      if t in y.calls
      then c'.cell == y.calls[t].cell && (Early(c'.pc) ==> Early(y.calls[t].pc) && !(l.PendBody? && l.t == t))
      else OfCall(l) && l.t == t && c'.cell !in y.pender.cells && !c'.content
  {
    if t in y.calls {
      CallPath(o, y, l, t);
      if OfCall(l) && l.t == t && Serves(y.calls[t], l) { EarlyMoves(y.calls[t], Msg(y, t), l); }
    } else {
      NewCallCell(o, y, l, t);
    }
  }

  lemma NewCallCell(o: P.Opts, y: Server, l: Label, t: nat)
    requires Closed(y) && CanStep(o, y, l) && t in Step(o, y, l).calls && t !in y.calls
    ensures var c' := Step(o, y, l).calls[t];
      OfCall(l) && l.t == t && c'.cell !in y.pender.cells && !c'.content
  {
  }

  lemma StepUnshared(o: P.Opts, y: Server, l: Label)
    requires Closed(y) && CanStep(o, y, l) && Unshared(y)
    ensures Unshared(Step(o, y, l))
  {
    var y' := Step(o, y, l);
    forall t, u | t in y'.calls && u in y'.calls && t != u ensures y'.calls[t].cell != y'.calls[u].cell {
      CallBefore(o, y, l, t);
      CallBefore(o, y, l, u);
    }
    forall t, p | t in y'.calls && Early(y'.calls[t].pc) && p in y'.pender.pends
      ensures y'.pender.pends[p].msg != y'.calls[t].cell
    {
      CallBefore(o, y, l, t);
      StepPends(o, y, l, p);
    }
  }

  /** An early content message has kept a content type. */
  ghost predicate EarlyContent(y: Server)
    requires Closed(y)
  {
    forall t :: t in y.calls && y.calls[t].content && Early(y.calls[t].pc) ==> IsContent(Msg(y, t))
  }

  /** A step changes the type of a message only by failing an entry that has it. */
  lemma OneTypeKept(o: P.Opts, s: P.State, l: P.Label, c: P.MessageCell)
    requires P.Closed(s) && P.Enabled(o, s, l) && c in s.cells
    requires forall p :: p in s.pends ==> s.pends[p].msg != c
    requires l.Write? ==> l.value.typ == s.cells[l.cell].typ
    ensures c in P.Next(o, s, l).cells && P.Next(o, s, l).cells[c].typ == s.cells[c].typ
  {
  }

  lemma WriteKeepsType(o: P.Opts, y: Server, l: Label)
    requires Closed(y) && CanStep(o, y, l)
    ensures var ls := PenderLabels(y, l);
      && (|ls| >= 1 && ls[0].Write? ==>
            ls[0].cell in y.pender.cells && ls[0].value.typ == y.pender.cells[ls[0].cell].typ)
      && (|ls| == 2 ==> ls[0].FailCallback? && ls[1].Alloc?)
  {
  }

  lemma TypeKept(o: P.Opts, y: Server, l: Label, c: P.MessageCell)
    requires Closed(y) && CanStep(o, y, l) && c in y.pender.cells
    requires forall p :: p in y.pender.pends ==> y.pender.pends[p].msg != c
    ensures c in Step(o, y, l).pender.cells && Step(o, y, l).pender.cells[c].typ == y.pender.cells[c].typ
  {
    SharesEnabled(o, y, l);
    WriteKeepsType(o, y, l);
    var ls := PenderLabels(y, l);
    if |ls| >= 1 {
      OneTypeKept(o, y.pender, ls[0], c);
    }
    if |ls| == 2 {
      OneTypeKept(o, P.Next(o, y.pender, ls[0]), ls[1], c);
    }
  }

  lemma StepEarlyContent(o: P.Opts, y: Server, l: Label)
    requires Closed(y) && CanStep(o, y, l) && Unshared(y) && EarlyContent(y)
    ensures EarlyContent(Step(o, y, l))
  {
    var y' := Step(o, y, l);
    forall t | t in y'.calls && y'.calls[t].content && Early(y'.calls[t].pc) ensures IsContent(Msg(y', t)) {
      CallBefore(o, y, l, t);
      CallPath(o, y, l, t);
      TypeKept(o, y, l, y.calls[t].cell);
    }
  }

  lemma {:induction false} RunEarlyContent(o: P.Opts, r: Run)
    requires ValidRun(o, INIT, r)
    ensures Unshared(After(o, INIT, r)) && EarlyContent(After(o, INIT, r))
  {
    if r.Then? {
      RunEarlyContent(o, r.before);
      StepUnshared(o, After(o, INIT, r.before), r.last);
      StepEarlyContent(o, After(o, INIT, r.before), r.last);
    }
  }

  lemma {:induction false} DoneIsDone(o: P.Opts, y: Server, r: Run, t: nat)
    requires Closed(y) && ValidRun(o, y, r) && At(y, t, Done)
    ensures At(After(o, y, r), t, Done) && Proj(After(o, y, r).acts, t) == Proj(y.acts, t)
  {
    if r.Then? {
      DoneIsDone(o, y, r.before, t);
      StepOfCall(o, After(o, y, r.before), r.last, t);
    }
  }

  lemma {:induction false} OfflineEnds(o: P.Opts, y: Server, r: Run, t: nat)
    requires Closed(y) && Scripted(y) && At(y, t, Checking) && y.calls[t].content && IsContent(Msg(y, t))
    requires ValidRun(o, Step(o, y, Dispatch(t, false)), r)
    ensures Proj(After(o, Step(o, y, Dispatch(t, false)), r).acts, t) == [Save, Receipt]
  {
    assert Script(y.calls[t], Proj(y.acts, t));
    StepOfCall(o, y, Dispatch(t, false), t);
    DoneIsDone(o, Step(o, y, Dispatch(t, false)), r, t);
  }

  /** A direct content message whose recipient is offline is over: in every continuation of every run it has been
      saved and receipted and nothing else, neither pended nor routed. */
  lemma {:induction false} OfflineIsOnlySaved(o: P.Opts, q: Run, y: Server, r: Run, t: nat)
    requires Closed(y) && ValidRun(o, INIT, q) && After(o, INIT, q) == y
    requires At(y, t, Checking) && y.calls[t].content && ValidRun(o, Step(o, y, Dispatch(t, false)), r)
    ensures Proj(After(o, Step(o, y, Dispatch(t, false)), r).acts, t) == [Save, Receipt]
  {
    RunScripted(o, q);
    RunEarlyContent(o, q);
    OfflineEnds(o, y, r, t);
  }

  // ---- the intended acknowledgement

  lemma AckLocks(o: P.Opts, y: Server, t: nat, online: bool)
    requires Closed(y) && At(y, t, Checking) && Msg(y, t).typ == MessageType.Ack && y.pender.owner.None?
    ensures CanStep(o, y, Dispatch(t, online)) && CanStep(o, Step(o, y, Dispatch(t, online)), LockCall(t))
    ensures var y' := Step(o, Step(o, y, Dispatch(t, online)), LockCall(t));
      && At(y', t, InUnPend) && y'.calls[t].cell == y.calls[t].cell && y'.table == y.table && y'.acts == y.acts
      && y'.pender == y.pender.(owner := Some(P.UnPendOp(Msg(y, t).msgId)))
  {
    var y1 := Step(o, y, Dispatch(t, online));
    assert y1 == y.(calls := y1.calls);
  }

  lemma AckRemoves(o: P.Opts, y: Server, t: nat, id: string)
    requires Closed(y) && At(y, t, InUnPend) && Msg(y, t).msgId == id && id in y.pender.msgList
    requires y.pender.owner == Some(P.UnPendOp(id)) && !y.pender.stuck
    ensures CanStep(o, y, UnPendBody(t))
    ensures var y' := Step(o, y, UnPendBody(t));
      && y'.table == y.table && y'.acts == y.acts && y'.pender.owner.None? && !y'.pender.stuck
      && y'.pender.msgList == y.pender.msgList - {id} && y.pender.msgList[id] in y'.pender.acking
      && y'.pender.pends == y.pender.pends && y'.pender.cells == y.pender.cells && y'.pender.now == y.pender.now
  {
  }

  lemma AckTells(o: P.Opts, y: Server, p: P.PendMessage, m: Message)
    requires Closed(y) && p in y.pender.acking && y.pender.cells[y.pender.pends[p].msg] == m
    requires m.msgId in y.table && !y.table[m.msgId].isDelivered
    ensures CanStep(o, y, AckBack(p, true))
    ensures var y' := Step(o, y, AckBack(p, true));
      && y'.table == y.table[m.msgId := y.table[m.msgId].(isDelivered := true)]
      && y'.acts == y.acts + [AckSent(AckToSender(m, y.pender.now))]
      && y'.pender.owner == y.pender.owner && y'.pender.stuck == y.pender.stuck && y'.pender.msgList == y.pender.msgList
  {
  }

  lemma RunTo(o: P.Opts, y: Server, r: Run, l: Label)
    requires Closed(y) && ValidRun(o, y, r) && CanStep(o, After(o, y, r), l)
    ensures ValidRun(o, y, Then(r, l)) && After(o, y, Then(r, l)) == Step(o, After(o, y, r), l)
  {
  }

  /** An Ack handed to SendMessage under the id of a pended message: run undisturbed, it takes the entry
      out, marks the row delivered and routes one Ack from the recipient to the sender. */
  lemma AckRoundTrip(o: P.Opts, y: Server, t: nat, online: bool)
    requires Closed(y) && PS.Inv(o, y.pender)
    requires At(y, t, Checking) && Msg(y, t).typ == MessageType.Ack
    requires y.pender.owner.None? && !y.pender.stuck
    requires Msg(y, t).msgId in y.pender.msgList && Msg(y, t).msgId in y.table && !y.table[Msg(y, t).msgId].isDelivered
    ensures var id := Msg(y, t).msgId;
      var p := y.pender.msgList[id];
      var m := y.pender.cells[y.pender.pends[p].msg];
      var r := Then(Then(Then(Then(Start, Dispatch(t, online)), LockCall(t)), UnPendBody(t)), AckBack(p, true));
      && m.msgId == id
      && ValidRun(o, y, r)
      && var y' := After(o, y, r);
      && y'.pender.msgList == y.pender.msgList - {id}
      && y'.pender.owner.None? && !y'.pender.stuck
      && y'.table == y.table[id := y.table[id].(isDelivered := true)]
      && y'.acts == y.acts + [AckSent(AckToSender(m, y.pender.now))]
  {
    var id := Msg(y, t).msgId;
    var p := y.pender.msgList[id];
    var m := y.pender.cells[y.pender.pends[p].msg];
    assert m.msgId == id;
    var r1 := Then(Start, Dispatch(t, online));
    var r2 := Then(r1, LockCall(t));
    var r3 := Then(r2, UnPendBody(t));
    AckLocks(o, y, t, online);
    RunTo(o, y, Start, Dispatch(t, online));
    RunTo(o, y, r1, LockCall(t));
    var y2 := After(o, y, r2);
    AckRemoves(o, y2, t, id);
    RunTo(o, y, r2, UnPendBody(t));
    AckTells(o, After(o, y, r3), p, m);
    RunTo(o, y, r3, AckBack(p, true));
  }

  // ---- behind onMessage

  /** Every call comes from onMessage or from OnMsgFailed. */
  ghost predicate FramesOnly(r: Run) {
    r.Then? ==> FramesOnly(r.before) && !r.last.Direct?
  }

  ghost predicate FreshIds(y: Server)
    requires Closed(y)
  {
    && (forall t :: t in y.calls && !y.calls[t].notice ==> Msg(y, t).msgId in y.uuids)
    && (forall t, u :: t in y.calls && u in y.calls && t != u && !y.calls[t].notice && !y.calls[u].notice ==>
          Msg(y, t).msgId != Msg(y, u).msgId)
  }

  ghost predicate PendedIds(y: Server)
    requires Closed(y)
  {
    forall p :: p in y.pender.pends ==>
      var id := y.pender.cells[y.pender.pends[p].msg].msgId;
      && id in y.uuids
      && forall t :: t in y.calls && y.calls[t].ack ==> Msg(y, t).msgId != id
  }

  /** Only Acks reach UnPend, and no Ack reaches Pend. */
  predicate PathOk(c: Call, typ: MessageType) {
    if c.ack then
      && !c.notice
      && (c.pc.Entry? || c.pc.Checking? || c.pc.Acking? || c.pc.InUnPend? || c.pc.Noticing? || c.pc.Done?)
      && (typ == MessageType.Ack || typ == MessageType.Failed)
    else
      && !c.pc.Acking? && !c.pc.InUnPend? && typ != MessageType.Ack
      && (c.notice ==> c.pc.Entry? || c.pc.Checking? || c.pc.Noticing? || c.pc.Done?)
      && (c.notice ==> typ == MessageType.Failed)
  }

  ghost predicate AckPaths(y: Server)
    requires Closed(y)
  {
    forall t :: t in y.calls ==> PathOk(y.calls[t], Msg(y, t).typ)
  }

  /** No entry has ever been taken out by an acknowledgement. */
  ghost predicate NoAcks(s: P.State) {
    s.acking == {} && forall i :: 0 <= i < |s.trace| ==> !s.trace[i].Removed? && !s.trace[i].AckFired?
  }

  ghost predicate FrameInv(o: P.Opts, y: Server) {
    && Closed(y) && PS.Inv(o, y.pender)
    && FreshIds(y) && PendedIds(y) && AckPaths(y) && NoAcks(y.pender)
  }

  lemma PendsKept(o: P.Opts, s: P.State, l: P.Label, p: P.PendMessage)
    requires P.Closed(s) && P.Enabled(o, s, l) && p in P.Next(o, s, l).pends
    ensures if p in s.pends then P.Next(o, s, l).pends[p].msg == s.pends[p].msg
            else l == P.DoPend(p) && P.Next(o, s, l).pends[p].msg == s.owner.value.cell
  {
  }

  lemma StepPends(o: P.Opts, y: Server, l: Label, p: P.PendMessage)
    requires Closed(y) && CanStep(o, y, l) && p in Step(o, y, l).pender.pends
    ensures var s' := Step(o, y, l).pender;
      if p in y.pender.pends then s'.pends[p].msg == y.pender.pends[p].msg
      else l == PendBody(l.t, p) && At(y, l.t, InPend) && s'.pends[p].msg == y.calls[l.t].cell
  {
    var ls := PenderLabels(y, l);
    if |ls| == 2 {
      PendsKept(o, P.Next(o, y.pender, ls[0]), ls[1], p);
    }
    if |ls| >= 1 && p in P.Next(o, y.pender, ls[0]).pends {
      PendsKept(o, y.pender, ls[0], p);
    }
  }

  /** What a step does to the set of calls. */
  lemma StepCalls(o: P.Opts, y: Server, l: Label, t: nat)
    requires Closed(y) && CanStep(o, y, l) && !l.Direct? && t in Step(o, y, l).calls
    ensures var y' := Step(o, y, l);
      && y.uuids <= y'.uuids
      && if t in y.calls then
           && y'.calls[t].cell == y.calls[t].cell
           && y'.calls[t].ack == y.calls[t].ack && y'.calls[t].notice == y.calls[t].notice
           && SameMessage(Msg(y, t), Msg(y', t))
         else
           && (l.Frame? || l.FailBack?) && l.t == t && y'.calls[t].pc.Entry?
           && (l.Frame? ==>
                 && !y'.calls[t].notice && Msg(y', t) == l.m && l.m.msgId !in y.uuids && l.m.msgId in y'.uuids
                 && (y'.calls[t].ack <==> l.m.typ == MessageType.Ack))
           && (l.FailBack? ==> y'.calls[t].notice && !y'.calls[t].ack && Msg(y', t).typ == MessageType.Failed)
  {
    if t in y.calls {
      CellsKept(o, y, l, y.calls[t].cell);
    }
  }

  lemma StepFreshIds(o: P.Opts, y: Server, l: Label)
    requires FrameInv(o, y) && CanStep(o, y, l) && !l.Direct?
    ensures FreshIds(Step(o, y, l))
  {
    var y' := Step(o, y, l);
    forall t | t in y'.calls && !y'.calls[t].notice ensures Msg(y', t).msgId in y'.uuids {
      StepCalls(o, y, l, t);
    }
    forall t, u | t in y'.calls && u in y'.calls && t != u && !y'.calls[t].notice && !y'.calls[u].notice
      ensures Msg(y', t).msgId != Msg(y', u).msgId
    {
      StepCalls(o, y, l, t);
      StepCalls(o, y, l, u);
    }
  }

  lemma StepPendedIds(o: P.Opts, y: Server, l: Label)
    requires FrameInv(o, y) && CanStep(o, y, l) && !l.Direct?
    ensures PendedIds(Step(o, y, l))
  {
    var y' := Step(o, y, l);
    forall p | p in y'.pender.pends
      ensures var id := y'.pender.cells[y'.pender.pends[p].msg].msgId;
        id in y'.uuids && forall t :: t in y'.calls && y'.calls[t].ack ==> Msg(y', t).msgId != id
    {
      var c := y'.pender.pends[p].msg;
      StepPends(o, y, l, p);
      CellsKept(o, y, l, c);
      var id := y'.pender.cells[c].msgId;
      assert id in y.uuids;
      forall t | t in y'.calls && y'.calls[t].ack ensures Msg(y', t).msgId != id {
        StepCalls(o, y, l, t);
      }
      StepUuids(o, y, l);
    }
  }

  lemma StepUuids(o: P.Opts, y: Server, l: Label)
    requires Closed(y) && CanStep(o, y, l)
    ensures y.uuids <= Step(o, y, l).uuids
  {
  }

  lemma PathGoesOn(c: Call, m: Message, l: Label)
    requires PathOk(c, m.typ) && Serves(c, l)
    ensures PathOk(Moved(c, m, l), m.typ)
  {
  }

  lemma StepPath(o: P.Opts, y: Server, l: Label, t: nat)
    requires FrameInv(o, y) && CanStep(o, y, l) && !l.Direct? && t in Step(o, y, l).calls
    ensures PathOk(Step(o, y, l).calls[t], Msg(Step(o, y, l), t).typ)
  {
    StepCalls(o, y, l, t);
    CallPath(o, y, l, t);
    if t in y.calls && Serves(y.calls[t], l) {
      PathGoesOn(y.calls[t], Msg(y, t), l);
    }
  }

  lemma StepAckPaths(o: P.Opts, y: Server, l: Label)
    requires FrameInv(o, y) && CanStep(o, y, l) && !l.Direct?
    ensures AckPaths(Step(o, y, l))
  {
    forall t | t in Step(o, y, l).calls
      ensures PathOk(Step(o, y, l).calls[t], Msg(Step(o, y, l), t).typ)
    {
      StepPath(o, y, l, t);
    }
  }

  lemma CallPath(o: P.Opts, y: Server, l: Label, t: nat)
    requires Closed(y) && CanStep(o, y, l) && t in Step(o, y, l).calls
    ensures var c' := Step(o, y, l).calls[t];
      t in y.calls ==>
        c' == y.calls[t] || (OfCall(l) && l.t == t && Serves(y.calls[t], l) && c' == Moved(y.calls[t], Msg(y, t), l))
  {
    if t in y.calls {
      if OfCall(l) && l.t == t {
        StepActs(o, y, l);
      } else {
        OtherCallStays(o, y, l, t);
      }
    }
  }

  /** An Ack frame never finds the id it carries: UnPend misses. */
  lemma AckFrameMisses(o: P.Opts, y: Server, t: nat)
    requires FrameInv(o, y) && CanStep(o, y, UnPendBody(t))
    ensures Msg(y, t).msgId !in y.pender.msgList
    ensures Step(o, y, UnPendBody(t)).pender.stuck
  {
    var id := Msg(y, t).msgId;
    assert y.calls[t].ack;
    forall k | k in y.pender.msgList ensures k != id {
      assert y.pender.cells[y.pender.pends[y.pender.msgList[k]].msg].msgId == k;
    }
  }

  lemma StepNoAcks(o: P.Opts, y: Server, l: Label)
    requires FrameInv(o, y) && CanStep(o, y, l) && !l.Direct?
    ensures NoAcks(Step(o, y, l).pender)
  {
    if l.UnPendBody? {
      AckFrameMisses(o, y, l.t);
    }
    var ls := PenderLabels(y, l);
    if |ls| >= 1 {
      NoAcksKept(o, y.pender, ls[0]);
    }
    if |ls| == 2 {
      NoAcksKept(o, P.Next(o, y.pender, ls[0]), ls[1]);
    }
  }

  lemma NoAcksKept(o: P.Opts, s: P.State, l: P.Label)
    requires P.Closed(s) && P.Enabled(o, s, l) && NoAcks(s)
    requires l.DoUnPend? ==> s.owner.value.id !in s.msgList
    ensures NoAcks(P.Next(o, s, l))
  {
  }

  lemma {:induction false} FramesKeepInv(o: P.Opts, r: Run)
    requires ValidRun(o, INIT, r) && FramesOnly(r)
    ensures FrameInv(o, After(o, INIT, r))
  {
    PenderKeepsInv(o, r);
    if r.Then? {
      FramesKeepInv(o, r.before);
      var y := After(o, INIT, r.before);
      StepFreshIds(o, y, r.last);
      StepPendedIds(o, y, r.last);
      StepAckPaths(o, y, r.last);
      StepNoAcks(o, y, r.last);
    }
  }

  ghost predicate RowsStay(y: Server, y': Server) {
    forall id :: id in y.table ==> id in y'.table && y'.table[id] == y.table[id]
  }

  lemma StepRows(o: P.Opts, y: Server, l: Label)
    requires FrameInv(o, y) && CanStep(o, y, l)
    ensures RowsStay(y, Step(o, y, l))
  {
  }

  predicate Prefix(q: Run, r: Run) {
    q == r || (r.Then? && Prefix(q, r.before))
  }

  /** Behind onMessage no run acknowledges anything: OnMsgAcked never runs, no Ack is routed back, and a
      saved row never changes again, so is_delivered stays what the client's frame said. */
  lemma {:induction false} NothingIsAcked(o: P.Opts, r: Run, q: Run)
    requires ValidRun(o, INIT, r) && FramesOnly(r) && Prefix(q, r) && ValidRun(o, INIT, q)
    ensures NoAcks(After(o, INIT, r).pender)
    ensures RowsStay(After(o, INIT, q), After(o, INIT, r))
    ensures forall i :: 0 <= i < |After(o, INIT, r).acts| ==> !After(o, INIT, r).acts[i].AckSent?
  {
    FramesKeepInv(o, r);
    if r.Then? {
      FramesKeepInv(o, r.before);
      NothingIsAcked(o, r.before, if q == r then r.before else q);
      StepRows(o, After(o, INIT, r.before), r.last);
      NoAckSent(o, After(o, INIT, r.before), r.last);
    }
  }

  lemma NoAckSent(o: P.Opts, y: Server, l: Label)
    requires FrameInv(o, y) && CanStep(o, y, l)
    requires forall i :: 0 <= i < |y.acts| ==> !y.acts[i].AckSent?
    ensures forall i :: 0 <= i < |Step(o, y, l).acts| ==> !Step(o, y, l).acts[i].AckSent?
  {
  }

  /** The first Ack frame to reach UnPend leaves the pender locked for good. */
  lemma {:induction false} FirstAckFrameLocks(o: P.Opts, r: Run)
    requires ValidRun(o, INIT, r) && FramesOnly(r) && r.Then? && r.last.UnPendBody?
    ensures After(o, INIT, r).pender.stuck
  {
    FramesKeepInv(o, r.before);
    AckFrameMisses(o, After(o, INIT, r.before), r.last.t);
  }

  predicate UnPendRan(r: Run) {
    r.Then? && (UnPendRan(r.before) || r.last.UnPendBody?)
  }

  /** Behind onMessage the pender is locked for good exactly when some Ack frame has got to UnPend. */
  lemma {:induction false} LockedIffUnPendRan(o: P.Opts, r: Run)
    requires ValidRun(o, INIT, r) && FramesOnly(r)
    ensures After(o, INIT, r).pender.stuck <==> UnPendRan(r)
  {
    if r.Then? {
      LockedIffUnPendRan(o, r.before);
      FramesKeepInv(o, r.before);
      MessageRuns.StepLoss(o, After(o, INIT, r.before), r.last);
      if r.last.UnPendBody? {
        AckFrameMisses(o, After(o, INIT, r.before), r.last.t);
      }
    }
  }

  lemma AckFrameChecks(o: P.Opts, c: P.MessageCell, m: Message)
    requires m.typ == MessageType.Ack && m.fromId != "" && m.sendAt == 0 && (m.toId != "" || m.roomId != "")
    ensures var r := Then(Then(Start, Frame(0, c, m)), Open(0));
      && ValidRun(o, INIT, r)
      && var y := After(o, INIT, r);
        At(y, 0, Checking) && Msg(y, 0) == m && y.pender.owner.None? && !y.pender.stuck
  {
    FrameArrives(o, INIT, 0, c, m);
    RunTo(o, INIT, Start, Frame(0, c, m));
    var r1 := Then(Start, Frame(0, c, m));
    AckOpens(o, After(o, INIT, r1), 0);
    RunTo(o, INIT, r1, Open(0));
  }

  lemma AckReachesUnPend(o: P.Opts, r: Run, t: nat, online: bool)
    requires ValidRun(o, INIT, r)
    requires var y := After(o, INIT, r);
      At(y, t, Checking) && Msg(y, t).typ == MessageType.Ack && y.pender.owner.None? && !y.pender.stuck
    ensures ValidRun(o, INIT, Then(Then(Then(r, Dispatch(t, online)), LockCall(t)), UnPendBody(t)))
  {
    var r1 := Then(r, Dispatch(t, online));
    AckLocks(o, After(o, INIT, r), t, online);
    RunTo(o, INIT, r, Dispatch(t, online));
    RunTo(o, INIT, r1, LockCall(t));
    UnPendEnabled(o, After(o, INIT, Then(r1, LockCall(t))), t);
  }

  /** One Ack frame is enough: m is what onMessage makes of it, on a server that has done nothing else. */
  lemma OneAckFrame(o: P.Opts, c: P.MessageCell, m: Message, online: bool) returns (r: Run)
    requires m.typ == MessageType.Ack && m.fromId != "" && m.sendAt == 0 && (m.toId != "" || m.roomId != "")
    ensures var checked := Then(Then(Start, Frame(0, c, m)), Open(0));
      r == Then(Then(Then(checked, Dispatch(0, online)), LockCall(0)), UnPendBody(0))
    ensures ValidRun(o, INIT, r) && FramesOnly(r) && After(o, INIT, r).pender.stuck
  {
    var r2 := Then(Then(Start, Frame(0, c, m)), Open(0));
    AckFrameChecks(o, c, m);
    AckReachesUnPend(o, r2, 0, online);
    r := Then(Then(Then(r2, Dispatch(0, online)), LockCall(0)), UnPendBody(0));
    FramesOf(r2, online);
    FirstAckFrameLocks(o, r);
  }

  lemma FramesOf(r: Run, online: bool)
    requires FramesOnly(r)
    ensures FramesOnly(Then(Then(Then(r, Dispatch(0, online)), LockCall(0)), UnPendBody(0)))
  {
    assert FramesOnly(Then(r, Dispatch(0, online)));
  }

  lemma FrameArrives(o: P.Opts, y: Server, t: nat, c: P.MessageCell, m: Message)
    requires Closed(y) && CanStep(o, y, Frame(t, c, m))
    ensures var y' := Step(o, y, Frame(t, c, m));
      && At(y', t, Entry) && Msg(y', t) == m
      && y'.pender == y.pender.(cells := y.pender.cells[c := m])
  {
  }

  lemma AckOpens(o: P.Opts, y: Server, t: nat)
    requires Closed(y) && At(y, t, Entry) && Msg(y, t).typ == MessageType.Ack
    requires Msg(y, t).toId != "" || Msg(y, t).roomId != ""
    ensures CanStep(o, y, Open(t))
    ensures var y' := Step(o, y, Open(t)); At(y', t, Checking) && Msg(y', t) == Msg(y, t) && y'.pender == y.pender
  {
  }

  lemma UnPendEnabled(o: P.Opts, y: Server, t: nat)
    requires Closed(y) && At(y, t, InUnPend) && y.pender.owner == Some(P.UnPendOp(Msg(y, t).msgId)) && !y.pender.stuck
    ensures CanStep(o, y, UnPendBody(t))
  {
  }

  /** What the lost lock leaves: a call is in Delivering only if it already was. */
  ghost predicate Silenced(y: Server, y': Server) {
    && y'.pender.stuck && y'.pender.owner == y.pender.owner && y'.pender.msgList == y.pender.msgList
    && (forall t :: At(y', t, Delivering) ==> At(y, t, Delivering))
    && |y.acts| <= |y'.acts| && y'.acts[..|y.acts|] == y.acts
    && (forall i :: |y.acts| <= i < |y'.acts| && y'.acts[i].Did? ==>
          !y'.acts[i].kind.Pend? && (y'.acts[i].kind.Deliver? ==> At(y, y'.acts[i].t, Delivering)))
  }

  lemma SilentPender(o: P.Opts, y: Server, l: Label)
    requires Closed(y) && PS.Inv(o, y.pender) && CanStep(o, y, l) && y.pender.stuck
    ensures var s' := Step(o, y, l).pender;
      s'.stuck && s'.owner == y.pender.owner && s'.msgList == y.pender.msgList
  {
    var ls := PenderLabels(y, l);
    if |ls| >= 1 {
      PT.MissStep(o, y.pender, ls[0]);
    }
    if |ls| == 2 {
      PS.StepInv(o, y.pender, ls[0]);
      PT.MissStep(o, P.Next(o, y.pender, ls[0]), ls[1]);
    }
  }

  lemma StepSilenced(o: P.Opts, y0: Server, y: Server, l: Label)
    requires Closed(y) && PS.Inv(o, y.pender) && CanStep(o, y, l) && Silenced(y0, y)
    ensures Silenced(y0, Step(o, y, l))
  {
    var y' := Step(o, y, l);
    SilentPender(o, y, l);
    ActsGrow(o, y, l);
    SilentAct(o, y, l);
    SilentCalls(o, y, l);
    SilencedOn(y0, y, y');
  }

  lemma SilencedOn(y0: Server, y: Server, y': Server)
    requires Silenced(y0, y)
    requires y'.pender.stuck && y'.pender.owner == y.pender.owner && y'.pender.msgList == y.pender.msgList
    requires |y.acts| <= |y'.acts| <= |y.acts| + 1 && y'.acts[..|y.acts|] == y.acts
    requires |y'.acts| > |y.acts| && y'.acts[|y.acts|].Did? ==>
        !y'.acts[|y.acts|].kind.Pend? && (y'.acts[|y.acts|].kind.Deliver? ==> At(y, y'.acts[|y.acts|].t, Delivering))
    requires forall t :: At(y', t, Delivering) ==> At(y, t, Delivering)
    ensures Silenced(y0, y')
  {
    assert y'.acts[..|y0.acts|] == y.acts[..|y0.acts|];
    forall i | |y0.acts| <= i < |y'.acts| && y'.acts[i].Did?
      ensures !y'.acts[i].kind.Pend? && (y'.acts[i].kind.Deliver? ==> At(y0, y'.acts[i].t, Delivering))
    {
      if i < |y.acts| { assert y'.acts[i] == y.acts[i]; }
    }
  }

  lemma SilentAct(o: P.Opts, y: Server, l: Label)
    requires Closed(y) && CanStep(o, y, l) && y.pender.stuck
    ensures var acts' := Step(o, y, l).acts;
      |acts'| > |y.acts| && acts'[|y.acts|].Did? ==>
        !acts'[|y.acts|].kind.Pend? && (acts'[|y.acts|].kind.Deliver? ==> At(y, acts'[|y.acts|].t, Delivering))
  {
  }

  lemma SilentCalls(o: P.Opts, y: Server, l: Label)
    requires Closed(y) && CanStep(o, y, l) && y.pender.stuck
    ensures forall t :: At(Step(o, y, l), t, Delivering) ==> At(y, t, Delivering)
  {
    assert !l.PendBody? && !l.RefuseBody?;
    forall t | At(Step(o, y, l), t, Delivering) ensures At(y, t, Delivering) {
      if t in y.calls {
        CallPath(o, y, l, t);
      } else {
        NewCallEntry(o, y, l, t);
      }
    }
  }

  lemma NewCallEntry(o: P.Opts, y: Server, l: Label, t: nat)
    requires Closed(y) && CanStep(o, y, l) && t in Step(o, y, l).calls && t !in y.calls
    ensures Step(o, y, l).calls[t].pc.Entry?
  {
  }

  /** After it, in every continuation the map is frozen, nothing more is pended, and SendMessage routes
      no further message to an online recipient: only the calls that had already left Pend still do. */
  lemma {:induction false} LockLossSilences(o: P.Opts, y: Server, r: Run)
    requires Closed(y) && PS.Inv(o, y.pender) && y.pender.stuck && ValidRun(o, y, r)
    ensures Silenced(y, After(o, y, r)) && PS.Inv(o, After(o, y, r).pender)
  {
    if r.Then? {
      LockLossSilences(o, y, r.before);
      StepSilenced(o, y, After(o, y, r.before), r.last);
      StepPender(o, After(o, y, r.before), r.last);
    }
  }
}
