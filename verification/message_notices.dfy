/** The failure notices of OnMsgFailed (service/message.go): to whom they go, what they say and how many there are. */
module MessageNotices {
  import opened Types
  import opened MessageService
  import opened MessageSafety
  import opened MessageAcks
  import opened MessageSends
  import P = PenderProtocol
  import PT = PenderTheorems

  /** The message that OnMsgFailed is about to be called with. */
  ghost function Failing(y: Server): Message
    requires Closed(y) && y.pender.toFail != []
  {
    y.pender.cells[y.pender.pends[y.pender.toFail[0]].msg]
  }

  /** x tells the sender of m, in the recipient's name, that m has failed. */
  predicate TellsSender(m: Message, now: int, x: Message) {
    && x.toId == m.fromId && x.fromId == m.toId && x.msgId == m.msgId && x.roomId == m.roomId
    && x.typ == MessageType.Failed && x.content == "" && x.sendAt == now
  }

  /** OnMsgFailed marks the message failed and calls SendMessage with a notice to its sender. */
  lemma NoticeMade(o: P.Opts, y: Server, t: nat, c: P.MessageCell)
    requires Closed(y) && CanStep(o, y, FailBack(t, c))
    ensures var y' := Step(o, y, FailBack(t, c));
      && At(y', t, Entry) && y'.calls[t].notice && y'.table == y.table && y'.acts == y.acts
      && TellsSender(Failing(y), y.pender.now, Msg(y', t))
      && y'.pender.toFail == y.pender.toFail[1..] && y'.pender.msgList == y.pender.msgList
      && y'.pender.cells[y.pender.pends[y.pender.toFail[0]].msg] == Failing(y).(typ := MessageType.Failed)
  {
  }

  lemma TellsOn(m: Message, now: int, x: Message, x': Message)
    requires TellsSender(m, now, x) && SameMessage(x, x')
    ensures TellsSender(m, now, x')
  {
  }

  /** Call t is the notice that m has failed, and routes nothing else. */
  ghost predicate Tells(y: Server, t: nat, m: Message, now: int)
    requires Closed(y)
  {
    && t in y.calls && y.calls[t].notice && NoticeOk(y, t) && TellsSender(m, now, Msg(y, t))
    && forall i :: 0 <= i < |y.acts| && y.acts[i].Did? && y.acts[i].t == t ==>
         y.acts[i].kind == Notice && TellsSender(m, now, y.acts[i].m)
  }

  lemma NewNoticeAct(o: P.Opts, y: Server, l: Label, t: nat, m: Message, now: int)
    requires Closed(y) && CanStep(o, y, l) && Tells(y, t, m, now)
    requires |Step(o, y, l).acts| > |y.acts|
    ensures var a := Step(o, y, l).acts[|y.acts|];
      a.Did? && a.t == t ==> a.kind == Notice && TellsSender(m, now, a.m)
  {
  }

  lemma StepTells(o: P.Opts, y: Server, l: Label, t: nat, m: Message, now: int)
    requires Closed(y) && CanStep(o, y, l) && Tells(y, t, m, now)
    ensures Tells(Step(o, y, l), t, m, now)
  {
    var y' := Step(o, y, l);
    StepNotice(o, y, l, t);
    StepOfCall(o, y, l, t);
    CellsKept(o, y, l, y.calls[t].cell);
    TellsOn(m, now, Msg(y, t), Msg(y', t));
    ActsGrow(o, y, l);
    forall i | 0 <= i < |y'.acts| && y'.acts[i].Did? && y'.acts[i].t == t
      ensures y'.acts[i].kind == Notice && TellsSender(m, now, y'.acts[i].m)
    {
      if i < |y.acts| {
        assert y'.acts[i] == y.acts[i];
      } else {
        NewNoticeAct(o, y, l, t, m, now);
      }
    }
  }

  /** OnMsgFailed is to be called next for m, and the clock shows now. */
  ghost predicate FailsNext(y: Server, m: Message, now: int) {
    Closed(y) && y.pender.toFail != [] && m == Failing(y) && now == y.pender.now
  }

  lemma FirstTells(o: P.Opts, y: Server, t: nat, c: P.MessageCell, m: Message, now: int)
    requires FailsNext(y, m, now) && CanStep(o, y, FailBack(t, c)) && Scripted(y)
    ensures Tells(Step(o, y, FailBack(t, c)), t, m, now)
  {
    NoticeMade(o, y, t, c);
    NewNotice(o, y, FailBack(t, c));
  }

  /** In every run in which, after q, OnMsgFailed is called for m: all that its call of SendMessage ever routes is a
      notice to the sender of m with its id and room, the name of its recipient and the time of the call. */
  lemma {:induction false} NoticeTellsSender(o: P.Opts, q: Run, t: nat, c: P.MessageCell, r: Run, m: Message, now: int)
    requires ValidRun(o, INIT, q) && FailsNext(After(o, INIT, q), m, now)
    requires ValidRun(o, INIT, r) && Prefix(Then(q, FailBack(t, c)), r)
    ensures Tells(After(o, INIT, r), t, m, now)
  {
    var y := After(o, INIT, r.before);
    if r == Then(q, FailBack(t, c)) {
      RunScripted(o, q);
      FirstTells(o, y, t, c, m, now);
    } else {
      NoticeTellsSender(o, q, t, c, r.before, m, now);
      StepTells(o, y, r.last, t, m, now);
    }
  }

  /** And undisturbed it does route it: a failed message that has a sender is told to that sender. */
  lemma NoticeArrives(o: P.Opts, y: Server, t: nat, c: P.MessageCell, online: bool)
    requires Closed(y) && y.pender.toFail != [] && t !in y.calls && c !in y.pender.cells
    requires Failing(y).fromId != "" || Failing(y).roomId != ""
    ensures CanStep(o, y, FailBack(t, c))
    ensures var z := Step(o, y, FailBack(t, c));
      && ValidRun(o, z, NoticeRun(Start, t, online))
      && var y' := After(o, z, NoticeRun(Start, t, online));
        && At(y', t, Done) && y'.table == y.table && y'.pender.msgList == y.pender.msgList
        && |y'.acts| == |y.acts| + 1 && y'.acts[..|y.acts|] == y.acts
        && By(y'.acts[|y.acts|], t, Notice) && TellsSender(Failing(y), y.pender.now, y'.acts[|y.acts|].m)
  {
    NoticeMade(o, y, t, c);
    FailedRouted(o, Step(o, y, FailBack(t, c)), t, online);
  }

  // ---- as many as failures

  ghost function Notices(calls: map<nat, Call>): set<nat> {
    set t | t in calls && calls[t].notice
  }

  lemma NoticeAfter(o: P.Opts, y: Server, l: Label, t: nat)
    requires Closed(y) && CanStep(o, y, l)
    ensures t in Notices(Step(o, y, l).calls) <==> t in Notices(y.calls) || (l.FailBack? && t == l.t)
  {
    if t in y.calls {
      StepOfCall(o, y, l, t);
    } else if t in Step(o, y, l).calls && !l.FailBack? {
      NewPlain(o, y, l);
    }
  }

  lemma StepNotices(o: P.Opts, y: Server, l: Label)
    requires Closed(y) && CanStep(o, y, l)
    ensures Notices(Step(o, y, l).calls) == Notices(y.calls) + if l.FailBack? then {l.t} else {}
    ensures l.FailBack? ==> l.t !in y.calls
  {
    forall t ensures t in Notices(Step(o, y, l).calls) <==> t in Notices(y.calls) || (l.FailBack? && t == l.t) {
      NoticeAfter(o, y, l, t);
    }
  }

  lemma PenderFails(o: P.Opts, s: P.State, l: P.Label)
    requires P.Closed(s) && P.Enabled(o, s, l)
    ensures PT.FailCalls(P.Next(o, s, l).trace) == PT.FailCalls(s.trace) + if l.FailCallback? then 1 else 0
  {
    var s' := P.Next(o, s, l);
    if s'.trace != s.trace {
      PT.CallsSnoc(s.trace, s'.trace[|s.trace|]);
    }
  }

  lemma FailLabels(o: P.Opts, y: Server, l: Label)
    requires Closed(y) && CanStep(o, y, l)
    ensures var ls := PenderLabels(y, l);
      if l.FailBack? then |ls| == 2 && ls[0].FailCallback? && ls[1].Alloc?
      else |ls| < 2 && (|ls| == 1 ==> !ls[0].FailCallback?)
  {
  }

  lemma StepFails(o: P.Opts, y: Server, l: Label)
    requires Closed(y) && CanStep(o, y, l)
    ensures PT.FailCalls(Step(o, y, l).pender.trace) == PT.FailCalls(y.pender.trace) + if l.FailBack? then 1 else 0
  {
    SharesEnabled(o, y, l);
    FailLabels(o, y, l);
    var ls := PenderLabels(y, l);
    if |ls| >= 1 {
      PenderFails(o, y.pender, ls[0]);
    }
    if |ls| == 2 {
      PenderFails(o, P.Next(o, y.pender, ls[0]), ls[1]);
    }
  }

  /** In every run there are as many notices as calls of OnMsgFailed. */
  lemma {:induction false} OneNoticeEach(o: P.Opts, r: Run)
    requires ValidRun(o, INIT, r)
    ensures |Notices(After(o, INIT, r).calls)| == PT.FailCalls(After(o, INIT, r).pender.trace)
  {
    if r.Start? {
      assert Notices(INIT.calls) == {};
    } else {
      var y := After(o, INIT, r.before);
      OneNoticeEach(o, r.before);
      StepNotices(o, y, r.last);
      StepFails(o, y, r.last);
    }
  }
}
