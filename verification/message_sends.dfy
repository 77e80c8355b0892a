/** What SendMessage of service/message.go does with a message, by its type, its target and the answers it gets:
    in every run a call that has ended has done exactly that, and each of the ways it can go is open to it. */
module MessageSends {
  import opened Types
  import opened ChannelIds
  import opened MessageService
  import opened MessageSafety
  import opened MessageAcks
  import P = PenderProtocol
  import MessageRows

  // ---- what a call was asked, and what it was answered

  /** Call t of the run is SendMessage(m), made by onMessage for a client's frame or by any other caller. */
  predicate Asked(r: Run, t: nat, m: Message) {
    r.Then? && (Asked(r.before, t, m) || ((r.last.Frame? || r.last.Direct?) && r.last.t == t && r.last.m == m))
  }

  /** The answers call t has had, oldest first: did Save succeed, could the members be read, is the recipient
      online, did Pend accept. */
  function Answers(r: Run, t: nat): seq<bool> {
    if r.Start? then [] else Answers(r.before, t) + (if OfCall(r.last) && r.last.t == t then Answer(r.last) else [])
  }

  function Answer(l: Label): seq<bool> {
    match l
    case SaveRow(_, ok) => [ok]
    case SendGroup(_, ok) => [ok]
    case Dispatch(_, online) => [online]
    case PendBody(_, _) => [true]
    case RefuseBody(_) => [false]
    case _ => []
  }

  // ---- what SendMessage is to do

  /** SendMessage(m) from its first statement to its return, one case for each way out. */
  predicate Sends(m: Message, answers: seq<bool>, did: seq<Kind>) {
    if m.toId == "" && m.roomId == "" then answers == [] && did == []
    else
      match m.typ
      case Ack => |answers| == 1 && did == []
      case Failed => |answers| == 1 && did == [Notice]
      case ConversationUpdate => Forwards(answers, did)
      case Sent => Forwards(answers, did)
      case _ =>
        || (answers == [false] && did == [])
        || (if m.roomId != "" then ToRoomMembers(answers, did) else ToRecipient(answers, did))
  }

  /** A message that needs no row goes to nobody when the recipient is offline, otherwise to the recipient, and is
      pended unless its id is pended already. */
  predicate Forwards(answers: seq<bool>, did: seq<Kind>) {
    || (answers == [false] && did == [])
    || (answers == [true, true] && did == [Pend, Deliver])
    || (answers == [true, false] && did == [Deliver])
  }

  /** The same after the row and the receipt. */
  predicate ToRecipient(answers: seq<bool>, did: seq<Kind>) {
    || (answers == [true, false] && did == [Save, Receipt])
    || (answers == [true, true, true] && did == [Save, Receipt, Pend, Deliver])
    || (answers == [true, true, false] && did == [Save, Receipt, Deliver])
  }

  predicate ToRoomMembers(answers: seq<bool>, did: seq<Kind>) {
    || (answers == [true, false] && did == [Save, Receipt])
    || (answers == [true, true] && did == [Save, Receipt, Group])
  }

  // ---- the way there

  predicate Targeted(m: Message) { m.toId != "" || m.roomId != "" }

  /** At the test for Ack. */
  predicate Checked(m: Message, answers: seq<bool>, did: seq<Kind>) {
    if IsContent(m) then m.roomId == "" && answers == [true] && did == [Save, Receipt] else answers == [] && did == []
  }

  /** The recipient is online. */
  predicate Forwarding(m: Message, answers: seq<bool>, did: seq<Kind>) {
    && !m.typ.Ack? && !m.typ.Failed?
    && if IsContent(m) then m.roomId == "" && answers == [true, true] && did == [Save, Receipt]
       else answers == [true] && did == []
  }

  /** Pend has accepted or refused. */
  predicate Delivers(m: Message, answers: seq<bool>, did: seq<Kind>) {
    && !m.typ.Ack? && !m.typ.Failed?
    && if IsContent(m) then
         && m.roomId == ""
         && ((answers == [true, true, true] && did == [Save, Receipt, Pend])
             || (answers == [true, true, false] && did == [Save, Receipt]))
       else (answers == [true, true] && did == [Pend]) || (answers == [true, false] && did == [])
  }

  /** Where a call on m has got with these answers and these actions. */
  predicate Trail(pc: Pc, m: Message, answers: seq<bool>, did: seq<Kind>) {
    match pc
    case Entry => answers == [] && did == []
    case Saving => Targeted(m) && IsContent(m) && answers == [] && did == []
    case Saved => Targeted(m) && IsContent(m) && answers == [true] && did == [Save]
    case Receipted => Targeted(m) && IsContent(m) && answers == [true] && did == [Save, Receipt]
    case Grouping => Targeted(m) && IsContent(m) && m.roomId != "" && answers == [true] && did == [Save, Receipt]
    case Checking => Targeted(m) && Checked(m, answers, did)
    case Acking => Targeted(m) && m.typ.Ack? && |answers| == 1 && did == []
    case InUnPend => Targeted(m) && m.typ.Ack? && |answers| == 1 && did == []
    case Noticing => Targeted(m) && m.typ.Failed? && |answers| == 1 && did == []
    case Waiting => Targeted(m) && Forwarding(m, answers, did)
    case InPend => Targeted(m) && Forwarding(m, answers, did)
    case Delivering => Targeted(m) && Delivers(m, answers, did)
    case Done => Sends(m, answers, did)
  }

  lemma TrailGoesOn(c: Call, m: Message, x: Message, l: Label, answers: seq<bool>, did: seq<Kind>)
    requires Trail(c.pc, m, answers, did) && Serves(c, l)
    requires x.toId == m.toId && x.roomId == m.roomId && (Early(c.pc) ==> x.typ == m.typ)
    ensures Trail(Moved(c, x, l).pc, m, answers + Answer(l), did + Adds(c, l))
  {
  }

  // ---- the message on its way

  /** What SendMessage makes of a message that it saves: its channel id is set and nothing else. */
  function Prepared(m: Message): Message {
    if IsContent(m) && Targeted(m) then m.(channelId := GetChannelId(m.fromId, m.toId, m.roomId)) else m
  }

  /** x is m as it is handed on: only a callback of the pender may have marked it failed or delivered. */
  predicate HandedOn(m: Message, x: Message) {
    && x == Prepared(m).(typ := x.typ, isDelivered := x.isDelivered)
    && (x.typ == m.typ || x.typ == MessageType.Failed)
  }

  predicate Intact(pc: Pc, m: Message, x: Message) {
    if pc.Entry? then x == m else if Early(pc) then x == Prepared(m) else HandedOn(m, x)
  }

  /** What a step does to a message object that Open does not write. */
  lemma PenderHandsOn(o: P.Opts, s: P.State, l: P.Label, c: P.MessageCell)
    requires P.Closed(s) && P.Enabled(o, s, l) && c in s.cells && (l.Write? ==> l.cell != c)
    ensures c in P.Next(o, s, l).cells
    ensures var x, x' := s.cells[c], P.Next(o, s, l).cells[c];
      && x' == x.(typ := x'.typ, isDelivered := x'.isDelivered)
      && (x'.typ == x.typ || x'.typ == MessageType.Failed)
      && ((forall p :: p in s.pends ==> s.pends[p].msg != c) ==> x' == x)
  {
  }

  lemma OpenWrites(o: P.Opts, y: Server, l: Label)
    requires Closed(y) && CanStep(o, y, l)
    ensures var ls := PenderLabels(y, l);
      && (|ls| == 2 ==> !ls[1].Write?)
      && (|ls| >= 1 && ls[0].Write? ==> l.Open? && ls[0].cell == y.calls[l.t].cell)
  {
  }

  lemma FailKeepsPends(o: P.Opts, y: Server, l: Label, c: P.MessageCell)
    requires Closed(y) && CanStep(o, y, l) && |PenderLabels(y, l)| == 2
    requires forall p :: p in y.pender.pends ==> y.pender.pends[p].msg != c
    ensures var s' := P.Next(o, y.pender, PenderLabels(y, l)[0]); forall p :: p in s'.pends ==> s'.pends[p].msg != c
  {
  }

  lemma StepHandsOn(o: P.Opts, y: Server, l: Label, c: P.MessageCell)
    requires Closed(y) && CanStep(o, y, l) && c in y.pender.cells && (l.Open? ==> y.calls[l.t].cell != c)
    ensures c in Step(o, y, l).pender.cells
    ensures var x, x' := y.pender.cells[c], Step(o, y, l).pender.cells[c];
      && x' == x.(typ := x'.typ, isDelivered := x'.isDelivered)
      && (x'.typ == x.typ || x'.typ == MessageType.Failed)
      && ((forall p :: p in y.pender.pends ==> y.pender.pends[p].msg != c) ==> x' == x)
  {
    SharesEnabled(o, y, l);
    OpenWrites(o, y, l);
    var ls := PenderLabels(y, l);
    if |ls| >= 1 {
      PenderHandsOn(o, y.pender, ls[0], c);
    }
    if |ls| == 2 {
      if forall p :: p in y.pender.pends ==> y.pender.pends[p].msg != c {
        FailKeepsPends(o, y, l, c);
      }
      PenderHandsOn(o, P.Next(o, y.pender, ls[0]), ls[1], c);
    }
  }

  lemma OpenPrepares(o: P.Opts, y: Server, t: nat)
    requires Closed(y) && CanStep(o, y, Open(t))
    ensures Msg(Step(o, y, Open(t)), t) == Prepared(Msg(y, t))
  {
  }

  lemma IntactOn(pc: Pc, pc': Pc, m: Message, x: Message, x': Message)
    requires Intact(pc, m, x) && (pc.Entry? <==> pc'.Entry?) && (Early(pc') ==> Early(pc)) && (Early(pc) ==> x' == x)
    requires x' == x.(typ := x'.typ, isDelivered := x'.isDelivered) && (x'.typ == x.typ || x'.typ == MessageType.Failed)
    ensures Intact(pc', m, x')
  {
  }

  lemma EntryOpens(c: Call, m: Message, l: Label)
    requires Serves(c, l) && !l.Open?
    ensures !c.pc.Entry? && !Moved(c, m, l).pc.Entry?
  {
  }

  lemma StepEarly(o: P.Opts, y: Server, l: Label, t: nat)
    requires Closed(y) && CanStep(o, y, l) && t in y.calls && l != Open(t)
    ensures t in Step(o, y, l).calls
    ensures var pc, pc' := y.calls[t].pc, Step(o, y, l).calls[t].pc;
      (pc.Entry? <==> pc'.Entry?) && (Early(pc') ==> Early(pc))
  {
    CallBefore(o, y, l, t);
    StepOfCall(o, y, l, t);
    if OfCall(l) && l.t == t {
      EntryOpens(y.calls[t], Msg(y, t), l);
    }
  }

  lemma StepIntact(o: P.Opts, y: Server, l: Label, t: nat, m: Message)
    requires Closed(y) && CanStep(o, y, l) && Unshared(y) && t in y.calls
    requires Intact(y.calls[t].pc, m, Msg(y, t))
    ensures t in Step(o, y, l).calls
    ensures Intact(Step(o, y, l).calls[t].pc, m, Msg(Step(o, y, l), t))
  {
    StepOfCall(o, y, l, t);
    if l == Open(t) {
      OpenPrepares(o, y, t);
    } else {
      StepHandsOn(o, y, l, y.calls[t].cell);
      StepEarly(o, y, l, t);
      IntactOn(y.calls[t].pc, Step(o, y, l).calls[t].pc, m, Msg(y, t), Msg(Step(o, y, l), t));
    }
  }

  // ---- every run

  /** Call t on m has followed SendMessage so far. */
  ghost predicate Follows(y: Server, t: nat, m: Message, answers: seq<bool>)
    requires Closed(y)
  {
    && t in y.calls && !y.calls[t].notice
    && Trail(y.calls[t].pc, m, answers, Proj(y.acts, t))
    && Intact(y.calls[t].pc, m, Msg(y, t))
  }

  lemma {:induction false} NotYet(o: P.Opts, r: Run, t: nat, m: Message)
    requires ValidRun(o, INIT, r) && t !in After(o, INIT, r).calls
    ensures Answers(r, t) == [] && !Asked(r, t, m) && Proj(After(o, INIT, r).acts, t) == []
  {
    if r.Then? {
      var y := After(o, INIT, r.before);
      if t in y.calls { StepOfCall(o, y, r.last, t); }
      NotYet(o, r.before, t, m);
      NewWhenMissing(o, y, r.last, t);
      StepOtherActs(o, y, r.last, t);
    }
  }

  lemma NewWhenMissing(o: P.Opts, y: Server, l: Label, t: nat)
    requires Closed(y) && CanStep(o, y, l) && t !in Step(o, y, l).calls
    ensures !(OfCall(l) && l.t == t)
  {
    if OfCall(l) && l.t == t && t in y.calls { StepOfCall(o, y, l, t); }
    if OfCall(l) && l.t == t && t !in y.calls { StepNewCall(o, y, l); }
  }

  lemma NewFollows(o: P.Opts, y: Server, l: Label)
    requires Closed(y) && CanStep(o, y, l) && (l.Frame? || l.Direct?) && Proj(y.acts, l.t) == []
    ensures Follows(Step(o, y, l), l.t, l.m, [])
  {
    StepNewCall(o, y, l);
  }

  lemma StepFollows(o: P.Opts, y: Server, l: Label, t: nat, m: Message, answers: seq<bool>)
    requires Closed(y) && CanStep(o, y, l) && Unshared(y) && Follows(y, t, m, answers)
    ensures Follows(Step(o, y, l), t, m, answers + if OfCall(l) && l.t == t then Answer(l) else [])
  {
    StepIntact(o, y, l, t, m);
    StepOfCall(o, y, l, t);
    if OfCall(l) && l.t == t {
      TrailGoesOn(y.calls[t], m, Msg(y, t), l, answers, Proj(y.acts, t));
    } else {
      assert answers + [] == answers;
    }
  }

  lemma {:induction false} RunFollows(o: P.Opts, r: Run, t: nat, m: Message)
    requires ValidRun(o, INIT, r) && Asked(r, t, m)
    ensures Follows(After(o, INIT, r), t, m, Answers(r, t))
  {
    var y := After(o, INIT, r.before);
    if Asked(r.before, t, m) {
      RunFollows(o, r.before, t, m);
      RunEarlyContent(o, r.before);
      StepFollows(o, y, r.last, t, m, Answers(r.before, t));
    } else {
      NotYet(o, r.before, t, m);
      NewFollows(o, y, r.last);
    }
  }

  /** In every run, a call of SendMessage that has ended has done exactly what SendMessage is to do with the message
      it was handed and the answers it had. */
  lemma {:induction false} DoneAsAsked(o: P.Opts, r: Run, t: nat, m: Message)
    requires ValidRun(o, INIT, r) && Asked(r, t, m) && At(After(o, INIT, r), t, Done)
    ensures Sends(m, Answers(r, t), Proj(After(o, INIT, r).acts, t))
  {
    RunFollows(o, r, t, m);
  }

  // ---- what the actions carry

  /** The message of an action of SendMessage(m). */
  predicate Carries(kind: Kind, m: Message, x: Message) {
    match kind
    case Receipt =>
      && x.fromId == m.toId && x.toId == m.fromId && x.msgId == m.msgId && x.clientMsgId == m.clientMsgId
      && x.typ == MessageType.Sent && x.sendAt == m.sendAt && x.content == "" && x.roomId == ""
    case Deliver => HandedOn(m, x)
    case Notice => HandedOn(m, x)
    case _ => x == Prepared(m)
  }

  ghost predicate AllCarry(acts: seq<Act>, t: nat, m: Message) {
    forall i :: 0 <= i < |acts| && acts[i].Did? && acts[i].t == t ==> Carries(acts[i].kind, m, acts[i].m)
  }

  lemma NewCarries(o: P.Opts, y: Server, l: Label, t: nat, m: Message)
    requires Closed(y) && CanStep(o, y, l) && t in y.calls && Intact(y.calls[t].pc, m, Msg(y, t))
    requires |Step(o, y, l).acts| > |y.acts|
    ensures var a := Step(o, y, l).acts[|y.acts|];
      a.Did? && a.t == t ==> Carries(a.kind, m, a.m)
  {
  }

  lemma StepCarries(o: P.Opts, y: Server, l: Label, t: nat, m: Message)
    requires Closed(y) && CanStep(o, y, l) && AllCarry(y.acts, t, m)
    requires t in y.calls && Intact(y.calls[t].pc, m, Msg(y, t))
    ensures AllCarry(Step(o, y, l).acts, t, m)
  {
    var acts' := Step(o, y, l).acts;
    ActsGrow(o, y, l);
    forall i | 0 <= i < |acts'| && acts'[i].Did? && acts'[i].t == t ensures Carries(acts'[i].kind, m, acts'[i].m) {
      if i < |y.acts| {
        assert acts'[i] == y.acts[i];
      } else {
        NewCarries(o, y, l, t, m);
      }
    }
  }

  /** In every run, the receipt goes back to the sender with both ids of the message, and whatever else the call
      hands over is the message it was handed, in its channel. */
  lemma {:induction false} CarriesTheMessage(o: P.Opts, r: Run, t: nat, m: Message)
    requires ValidRun(o, INIT, r) && Asked(r, t, m)
    ensures AllCarry(After(o, INIT, r).acts, t, m)
  {
    var y := After(o, INIT, r.before);
    if Asked(r.before, t, m) {
      CarriesTheMessage(o, r.before, t, m);
      RunFollows(o, r.before, t, m);
      StepCarries(o, y, r.last, t, m);
    } else {
      NotYet(o, r.before, t, m);
      NoAct(y.acts, t);
      StepNewCall(o, y, r.last);
    }
  }

  // ---- each way can be gone

  /** Call t has just been made, the lock is free, and the id of its message is not in the table. */
  ghost predicate Ready(y: Server, t: nat)
    requires Closed(y)
  {
    && At(y, t, Entry) && y.pender.owner.None? && !y.pender.stuck
    && Msg(y, t).msgId !in y.table
  }

  /** y' is y except that call t is at pc, its message is x, and these actions were added. */
  ghost predicate MovedTo(y: Server, y': Server, t: nat, pc: Pc, x: Message, acts: seq<Act>)
    requires Closed(y) && t in y.calls
  {
    && y'.calls == y.calls[t := y.calls[t].(pc := pc, content := IsContent(x))]
    && y'.pender == y.pender.(cells := y.pender.cells[y.calls[t].cell := x])
    && y'.acts == y.acts + acts
  }

  lemma OpenStep(o: P.Opts, y: Server, t: nat)
    requires Closed(y) && At(y, t, Entry)
    ensures CanStep(o, y, Open(t))
    ensures var m := Msg(y, t);
      var y' := Step(o, y, Open(t));
      && y'.table == y.table
      && (Targeted(m) ==> MovedTo(y, y', t, if IsContent(m) then Saving else Checking, Prepared(m), []))
      && (!Targeted(m) ==> At(y', t, Done) && y'.pender == y.pender && y'.acts == y.acts)
  {
    var m := Msg(y, t);
    assert y.pender.cells == y.pender.cells[y.calls[t].cell := m];
  }

  lemma SaveStep(o: P.Opts, y: Server, t: nat, ok: bool)
    requires Closed(y) && At(y, t, Saving) && y.calls[t].content && IsContent(Msg(y, t)) && Msg(y, t).msgId !in y.table
    ensures CanStep(o, y, SaveRow(t, ok))
    ensures var m := Msg(y, t);
      var y' := Step(o, y, SaveRow(t, ok));
      && y'.table == (if ok then y.table[m.msgId := m] else y.table)
      && MovedTo(y, y', t, if ok then Saved else Done, m, if ok then [Did(t, Save, true, m)] else [])
  {
    assert y.pender.cells == y.pender.cells[y.calls[t].cell := Msg(y, t)];
  }

  lemma ReceiptStep(o: P.Opts, y: Server, t: nat)
    requires Closed(y) && At(y, t, Saved) && y.calls[t].content && IsContent(Msg(y, t))
    ensures CanStep(o, y, SendReceipt(t))
    ensures var m := Msg(y, t);
      var y' := Step(o, y, SendReceipt(t));
      && y'.table == y.table
      && MovedTo(y, y', t, Receipted, m, [Did(t, Receipt, true, SentReceipt(m))])
  {
    assert y.pender.cells == y.pender.cells[y.calls[t].cell := Msg(y, t)];
  }

  lemma TurnStep(o: P.Opts, y: Server, t: nat)
    requires Closed(y) && At(y, t, Receipted) && y.calls[t].content && IsContent(Msg(y, t))
    ensures CanStep(o, y, Turn(t))
    ensures var m := Msg(y, t);
      var y' := Step(o, y, Turn(t));
      && y'.table == y.table
      && MovedTo(y, y', t, if m.roomId != "" then Grouping else Checking, m, [])
  {
    assert y.pender.cells == y.pender.cells[y.calls[t].cell := Msg(y, t)];
  }

  lemma GroupStep(o: P.Opts, y: Server, t: nat, ok: bool)
    requires Closed(y) && At(y, t, Grouping) && y.calls[t].content && IsContent(Msg(y, t))
    ensures CanStep(o, y, SendGroup(t, ok))
    ensures var m := Msg(y, t);
      var y' := Step(o, y, SendGroup(t, ok));
      && y'.table == y.table
      && MovedTo(y, y', t, Done, m, if ok then [Did(t, Group, true, m)] else [])
  {
    assert y.pender.cells == y.pender.cells[y.calls[t].cell := Msg(y, t)];
  }

  lemma DispatchStep(o: P.Opts, y: Server, t: nat, online: bool)
    requires Closed(y) && At(y, t, Checking) && y.calls[t].content == IsContent(Msg(y, t)) && !Msg(y, t).typ.Ack?
    ensures CanStep(o, y, Dispatch(t, online))
    ensures var m := Msg(y, t);
      var y' := Step(o, y, Dispatch(t, online));
      && y'.table == y.table
      && MovedTo(y, y', t, if m.typ.Failed? then Noticing else if online then Waiting else Done, m, [])
  {
    assert y.pender.cells == y.pender.cells[y.calls[t].cell := Msg(y, t)];
  }

  /** Pend accepts the message of call t as the entry p. */
  ghost predicate PendedAs(s: P.State, s': P.State, c: P.MessageCell, p: P.PendMessage)
    requires c in s.cells
  {
    && s'.msgList == s.msgList[s.cells[c].msgId := p]
    && s'.pends == s.pends[p := P.Entry(0, s.now, c)]
    && s'.cells == s.cells && s'.owner.None? && s'.stuck == s.stuck && s'.now == s.now
  }

  lemma LockStep(o: P.Opts, y: Server, t: nat)
    requires Closed(y) && At(y, t, Waiting) && y.pender.owner.None?
    ensures CanStep(o, y, LockCall(t))
    ensures var y' := Step(o, y, LockCall(t));
      && y'.calls == y.calls[t := y.calls[t].(pc := InPend)] && y'.table == y.table && y'.acts == y.acts
      && y'.pender == y.pender.(owner := Some(P.PendOp(y.calls[t].cell)))
  {
  }

  ghost predicate Locked(y: Server, t: nat) {
    At(y, t, InPend) && y.pender.owner == Some(P.PendOp(y.calls[t].cell)) && !y.pender.stuck
  }

  lemma PendStep(o: P.Opts, y: Server, t: nat, p: P.PendMessage)
    requires Closed(y) && Locked(y, t) && Msg(y, t).msgId !in y.pender.msgList && p !in y.pender.pends
    ensures CanStep(o, y, PendBody(t, p))
    ensures var y' := Step(o, y, PendBody(t, p));
      && y'.calls == y.calls[t := y.calls[t].(pc := Delivering)] && y'.table == y.table
      && y'.acts == y.acts + [Did(t, Pend, y.calls[t].content, Msg(y, t))]
      && PendedAs(y.pender, y'.pender, y.calls[t].cell, p)
  {
  }

  lemma RefuseStep(o: P.Opts, y: Server, t: nat)
    requires Closed(y) && Locked(y, t) && Msg(y, t).msgId in y.pender.msgList
    ensures CanStep(o, y, RefuseBody(t))
    ensures var y' := Step(o, y, RefuseBody(t));
      && y'.calls == y.calls[t := y.calls[t].(pc := Delivering)] && y'.table == y.table && y'.acts == y.acts
      && y'.pender == y.pender.(owner := None)
  {
  }

  lemma SendStep(o: P.Opts, y: Server, t: nat)
    requires Closed(y) && (At(y, t, Delivering) || At(y, t, Noticing))
    ensures CanStep(o, y, Send(t))
    ensures var y' := Step(o, y, Send(t));
      && At(y', t, Done) && y'.pender == y.pender && y'.table == y.table
      && y'.acts == y.acts +
         [Did(t, if y.calls[t].pc.Noticing? then Notice else Deliver, y.calls[t].content, Msg(y, t))]
  {
  }

  function SavedRun(t: nat): Run {
    Then(Then(Start, Open(t)), SaveRow(t, true))
  }

  lemma Saves(o: P.Opts, y: Server, t: nat)
    requires Closed(y) && Ready(y, t) && IsContent(Msg(y, t)) && Targeted(Msg(y, t))
    ensures ValidRun(o, y, SavedRun(t))
    ensures var x := Prepared(Msg(y, t));
      var y' := After(o, y, SavedRun(t));
      y'.table == y.table[x.msgId := x] && MovedTo(y, y', t, Saved, x, [Did(t, Save, true, x)])
  {
    OpenStep(o, y, t);
    RunTo(o, y, Start, Open(t));
    var r1 := Then(Start, Open(t));
    SaveStep(o, After(o, y, r1), t, true);
    RunTo(o, y, r1, SaveRow(t, true));
  }

  /** The first steps of a content message: it is saved and receipted. */
  function ReceiptedRun(t: nat): Run {
    Then(Then(SavedRun(t), SendReceipt(t)), Turn(t))
  }

  ghost predicate ReceiptedAs(y: Server, y': Server, t: nat, x: Message)
    requires Closed(y) && t in y.calls
  {
    && y'.table == y.table[x.msgId := x]
    && MovedTo(y, y', t, if x.roomId != "" then Grouping else Checking, x,
               [Did(t, Save, true, x), Did(t, Receipt, true, SentReceipt(x))])
  }

  lemma ReceiptThenTurn(o: P.Opts, y: Server, z: Server, t: nat, x: Message)
    requires Closed(y) && t in y.calls && Closed(z) && IsContent(x)
    requires z.table == y.table[x.msgId := x] && MovedTo(y, z, t, Saved, x, [Did(t, Save, true, x)])
    ensures CanStep(o, z, SendReceipt(t)) && CanStep(o, Step(o, z, SendReceipt(t)), Turn(t))
    ensures ReceiptedAs(y, Step(o, Step(o, z, SendReceipt(t)), Turn(t)), t, x)
  {
    ReceiptStep(o, z, t);
    TurnStep(o, Step(o, z, SendReceipt(t)), t);
  }

  lemma Receipts(o: P.Opts, y: Server, t: nat)
    requires Closed(y) && Ready(y, t) && IsContent(Msg(y, t)) && Targeted(Msg(y, t))
    ensures ValidRun(o, y, ReceiptedRun(t))
    ensures ReceiptedAs(y, After(o, y, ReceiptedRun(t)), t, Prepared(Msg(y, t)))
  {
    Saves(o, y, t);
    var r := SavedRun(t);
    ReceiptThenTurn(o, y, After(o, y, r), t, Prepared(Msg(y, t)));
    RunTo(o, y, r, SendReceipt(t));
    RunTo(o, y, Then(r, SendReceipt(t)), Turn(t));
  }

  /** At the test for Ack with a message that is neither Ack nor Failed, and the lock free. */
  ghost predicate AtForward(y: Server, t: nat)
    requires Closed(y)
  {
    && At(y, t, Checking) && y.calls[t].content == IsContent(Msg(y, t))
    && !Msg(y, t).typ.Ack? && !Msg(y, t).typ.Failed? && y.pender.owner.None? && !y.pender.stuck
  }

  function LockedRun(r: Run, t: nat): Run {
    Then(Then(r, Dispatch(t, true)), LockCall(t))
  }

  ghost predicate LockedAs(y: Server, y': Server, t: nat)
    requires Closed(y) && t in y.calls
  {
    && Locked(y', t) && y'.calls == y.calls[t := y.calls[t].(pc := InPend)]
    && y'.table == y.table && y'.acts == y.acts
    && y'.pender == y.pender.(owner := Some(P.PendOp(y.calls[t].cell)))
  }

  lemma DispatchThenLock(o: P.Opts, y: Server, t: nat)
    requires Closed(y) && AtForward(y, t)
    ensures CanStep(o, y, Dispatch(t, true)) && CanStep(o, Step(o, y, Dispatch(t, true)), LockCall(t))
    ensures LockedAs(y, Step(o, Step(o, y, Dispatch(t, true)), LockCall(t)), t)
  {
    DispatchStep(o, y, t, true);
    assert y.pender.cells == y.pender.cells[y.calls[t].cell := Msg(y, t)];
    LockStep(o, Step(o, y, Dispatch(t, true)), t);
  }

  lemma ToPend(o: P.Opts, y: Server, r: Run, t: nat)
    requires Closed(y) && ValidRun(o, y, r) && AtForward(After(o, y, r), t)
    ensures ValidRun(o, y, LockedRun(r, t))
    ensures LockedAs(After(o, y, r), After(o, y, LockedRun(r, t)), t)
  {
    DispatchThenLock(o, After(o, y, r), t);
    RunTo(o, y, r, Dispatch(t, true));
    RunTo(o, y, Then(r, Dispatch(t, true)), LockCall(t));
  }

  /** From the test for Ack on: the recipient is online, and the message pended and routed. */
  function ForwardedRun(r: Run, t: nat, p: P.PendMessage): Run {
    Then(Then(LockedRun(r, t), PendBody(t, p)), Send(t))
  }

  ghost predicate PendedAndSent(y: Server, y': Server, t: nat, p: P.PendMessage)
    requires Closed(y) && t in y.calls
  {
    && At(y', t, Done) && y'.table == y.table && PendedAs(y.pender, y'.pender, y.calls[t].cell, p)
    && y'.acts == y.acts + [Did(t, Pend, y.calls[t].content, Msg(y, t)), Did(t, Deliver, y.calls[t].content, Msg(y, t))]
  }

  lemma PendThenSend(o: P.Opts, y: Server, t: nat, p: P.PendMessage)
    requires Closed(y) && Locked(y, t) && Msg(y, t).msgId !in y.pender.msgList && p !in y.pender.pends
    ensures CanStep(o, y, PendBody(t, p)) && CanStep(o, Step(o, y, PendBody(t, p)), Send(t))
    ensures PendedAndSent(y, Step(o, Step(o, y, PendBody(t, p)), Send(t)), t, p)
  {
    PendStep(o, y, t, p);
    SendStep(o, Step(o, y, PendBody(t, p)), t);
  }

  lemma PendAndSend(o: P.Opts, y: Server, r: Run, t: nat, p: P.PendMessage)
    requires Closed(y) && ValidRun(o, y, r) && Locked(After(o, y, r), t)
    requires var s := After(o, y, r).pender; Msg(After(o, y, r), t).msgId !in s.msgList && p !in s.pends
    ensures ValidRun(o, y, Then(Then(r, PendBody(t, p)), Send(t)))
    ensures PendedAndSent(After(o, y, r), After(o, y, Then(Then(r, PendBody(t, p)), Send(t))), t, p)
  {
    PendThenSend(o, After(o, y, r), t, p);
    RunTo(o, y, r, PendBody(t, p));
    RunTo(o, y, Then(r, PendBody(t, p)), Send(t));
  }

  lemma Forward(o: P.Opts, y: Server, r: Run, t: nat, p: P.PendMessage)
    requires Closed(y) && ValidRun(o, y, r) && AtForward(After(o, y, r), t)
    requires var s := After(o, y, r).pender; Msg(After(o, y, r), t).msgId !in s.msgList && p !in s.pends
    ensures ValidRun(o, y, ForwardedRun(r, t, p))
    ensures PendedAndSent(After(o, y, r), After(o, y, ForwardedRun(r, t, p)), t, p)
  {
    ToPend(o, y, r, t);
    PendAndSend(o, y, LockedRun(r, t), t, p);
  }

  /** The same with an id that is pended already: Pend refuses, and the message is routed all the same. */
  function RefusedRun(r: Run, t: nat): Run {
    Then(Then(LockedRun(r, t), RefuseBody(t)), Send(t))
  }

  ghost predicate OnlySent(y: Server, y': Server, t: nat)
    requires Closed(y) && t in y.calls
  {
    && At(y', t, Done) && y'.table == y.table && y'.pender == y.pender.(owner := None)
    && y'.acts == y.acts + [Did(t, Deliver, y.calls[t].content, Msg(y, t))]
  }

  lemma RefuseThenSend(o: P.Opts, y: Server, t: nat)
    requires Closed(y) && Locked(y, t) && Msg(y, t).msgId in y.pender.msgList
    ensures CanStep(o, y, RefuseBody(t)) && CanStep(o, Step(o, y, RefuseBody(t)), Send(t))
    ensures OnlySent(y, Step(o, Step(o, y, RefuseBody(t)), Send(t)), t)
  {
    RefuseStep(o, y, t);
    SendStep(o, Step(o, y, RefuseBody(t)), t);
  }

  lemma ForwardRefused(o: P.Opts, y: Server, r: Run, t: nat)
    requires Closed(y) && ValidRun(o, y, r) && AtForward(After(o, y, r), t)
    requires Msg(After(o, y, r), t).msgId in After(o, y, r).pender.msgList
    ensures ValidRun(o, y, RefusedRun(r, t))
    ensures OnlySent(After(o, y, r), After(o, y, RefusedRun(r, t)), t)
  {
    ToPend(o, y, r, t);
    var r2 := LockedRun(r, t);
    RefuseThenSend(o, After(o, y, r2), t);
    RunTo(o, y, r2, RefuseBody(t));
    RunTo(o, y, Then(r2, RefuseBody(t)), Send(t));
  }

  // ---- content messages

  /** What a direct message to a recipient who is online leaves: its row, an entry p under its id, one receipt for
      the sender, and the message routed. */
  ghost predicate SentDirect(y: Server, y': Server, t: nat, p: P.PendMessage)
    requires Closed(y) && t in y.calls
  {
    var m := Msg(y, t);
    var x := m.(channelId := CalcChannelId(m.fromId, m.toId));
    var receipt := Message(m.msgId, m.clientMsgId, m.toId, Unset, m.fromId, "", "", MessageType.Sent, m.sendAt, false);
    && At(y', t, Done) && y'.table == y.table[m.msgId := x]
    && y'.pender.msgList == y.pender.msgList[m.msgId := p]
    && y'.pender.pends == y.pender.pends[p := P.Entry(0, y.pender.now, y.calls[t].cell)]
    && y'.pender.owner.None? && !y'.pender.stuck
    && y'.acts == y.acts +
       [Did(t, Save, true, x), Did(t, Receipt, true, receipt), Did(t, Pend, true, x), Did(t, Deliver, true, x)]
  }

  lemma DirectSum(y: Server, z: Server, y': Server, t: nat, p: P.PendMessage)
    requires Closed(y) && t in y.calls && Closed(z) && t in z.calls
    requires IsContent(Msg(y, t)) && Msg(y, t).toId != "" && Msg(y, t).roomId == ""
    requires ReceiptedAs(y, z, t, Prepared(Msg(y, t))) && PendedAndSent(z, y', t, p)
    requires !y.pender.stuck
    ensures SentDirect(y, y', t, p)
  {
  }

  /** Undisturbed, such a message goes just that way, from any state in which the lock is free and its id new. */
  lemma DirectOnline(o: P.Opts, y: Server, t: nat, p: P.PendMessage)
    requires Closed(y) && Ready(y, t) && IsContent(Msg(y, t)) && Msg(y, t).toId != "" && Msg(y, t).roomId == ""
    requires Msg(y, t).msgId !in y.pender.msgList && p !in y.pender.pends
    ensures ValidRun(o, y, ForwardedRun(ReceiptedRun(t), t, p))
    ensures SentDirect(y, After(o, y, ForwardedRun(ReceiptedRun(t), t, p)), t, p)
  {
    var r := ReceiptedRun(t);
    Receipts(o, y, t);
    Forward(o, y, r, t, p);
    DirectSum(y, After(o, y, r), After(o, y, ForwardedRun(r, t, p)), t, p);
  }

  /** To a recipient who is offline: the row and the receipt, and nothing else. */
  lemma DirectOffline(o: P.Opts, y: Server, t: nat)
    requires Closed(y) && Ready(y, t) && IsContent(Msg(y, t)) && Msg(y, t).toId != "" && Msg(y, t).roomId == ""
    ensures ValidRun(o, y, Then(ReceiptedRun(t), Dispatch(t, false)))
    ensures var m := Msg(y, t);
      var x := m.(channelId := CalcChannelId(m.fromId, m.toId));
      var y' := After(o, y, Then(ReceiptedRun(t), Dispatch(t, false)));
      && y'.table == y.table[m.msgId := x] && At(y', t, Done)
      && y'.pender == y.pender.(cells := y.pender.cells[y.calls[t].cell := x])
      && y'.acts == y.acts + [Did(t, Save, true, x), Did(t, Receipt, true, SentReceipt(m))]
  {
    Receipts(o, y, t);
    var r := ReceiptedRun(t);
    DispatchStep(o, After(o, y, r), t, false);
    RunTo(o, y, r, Dispatch(t, false));
  }

  /** To a room: the row, the receipt, and one routing to the members if they could be read. */
  lemma ToRoom(o: P.Opts, y: Server, t: nat, ok: bool)
    requires Closed(y) && Ready(y, t) && IsContent(Msg(y, t)) && Msg(y, t).roomId != ""
    ensures ValidRun(o, y, Then(ReceiptedRun(t), SendGroup(t, ok)))
    ensures var m := Msg(y, t);
      var x := m.(channelId := Md5(m.roomId));
      var y' := After(o, y, Then(ReceiptedRun(t), SendGroup(t, ok)));
      && y'.table == y.table[m.msgId := x] && At(y', t, Done)
      && y'.pender == y.pender.(cells := y.pender.cells[y.calls[t].cell := x])
      && y'.acts == y.acts + [Did(t, Save, true, x), Did(t, Receipt, true, SentReceipt(m))]
                   + if ok then [Did(t, Group, true, x)] else []
  {
    Receipts(o, y, t);
    var r := ReceiptedRun(t);
    GroupStep(o, After(o, y, r), t, ok);
    RunTo(o, y, r, SendGroup(t, ok));
  }

  /** When its id is still pended, Pend refuses: the message is saved, receipted and routed, and the entry stays. */
  lemma DirectRefused(o: P.Opts, y: Server, t: nat)
    requires Closed(y) && Ready(y, t) && IsContent(Msg(y, t)) && Msg(y, t).toId != "" && Msg(y, t).roomId == ""
    requires Msg(y, t).msgId in y.pender.msgList
    ensures ValidRun(o, y, RefusedRun(ReceiptedRun(t), t))
    ensures var y' := After(o, y, RefusedRun(ReceiptedRun(t), t));
      && y'.pender.msgList == y.pender.msgList && y'.pender.pends == y.pender.pends && y'.pender.owner.None?
      && At(y', t, Done) && Proj(y'.acts, t) == Proj(y.acts, t) + [Save, Receipt, Deliver]
  {
    var r := ReceiptedRun(t);
    Receipts(o, y, t);
    ForwardRefused(o, y, r, t);
    RefusedSum(y, After(o, y, r), After(o, y, RefusedRun(r, t)), t);
  }

  lemma RefusedSum(y: Server, z: Server, y': Server, t: nat)
    requires Closed(y) && t in y.calls && Closed(z) && t in z.calls && y.pender.owner.None?
    requires ReceiptedAs(y, z, t, Prepared(Msg(y, t))) && OnlySent(z, y', t)
    ensures y'.pender.msgList == y.pender.msgList && y'.pender.pends == y.pender.pends && y'.pender.owner.None?
    ensures Proj(y'.acts, t) == Proj(y.acts, t) + [Save, Receipt, Deliver]
  {
    var x := Prepared(Msg(y, t));
    var a, b := Did(t, Save, true, x), Did(t, Receipt, true, SentReceipt(x));
    assert z.acts == (y.acts + [a]) + [b];
    ProjSnoc(y.acts, a, t);
    ProjSnoc(y.acts + [a], b, t);
    ProjSnoc(z.acts, y'.acts[|z.acts|], t);
  }

  /** A row under an id is saved once: when the id is taken, or the store fails, the call ends with nothing done. */
  lemma NotSaved(o: P.Opts, y: Server, t: nat)
    requires Closed(y) && At(y, t, Entry) && IsContent(Msg(y, t)) && Targeted(Msg(y, t))
    ensures ValidRun(o, y, Then(Then(Start, Open(t)), SaveRow(t, false)))
    ensures Msg(y, t).msgId in y.table ==> !CanStep(o, After(o, y, Then(Start, Open(t))), SaveRow(t, true))
    ensures var y' := After(o, y, Then(Then(Start, Open(t)), SaveRow(t, false)));
      At(y', t, Done) && y'.table == y.table && y'.acts == y.acts && y'.pender.msgList == y.pender.msgList
  {
    OpenStep(o, y, t);
    RunTo(o, y, Start, Open(t));
    RunTo(o, y, Then(Start, Open(t)), SaveRow(t, false));
  }

  // ---- messages that are not saved

  lemma Opens(o: P.Opts, y: Server, t: nat)
    requires Closed(y) && At(y, t, Entry) && !IsContent(Msg(y, t)) && Targeted(Msg(y, t))
    ensures ValidRun(o, y, Then(Start, Open(t)))
    ensures var z := After(o, y, Then(Start, Open(t)));
      && At(z, t, Checking) && z.calls[t].cell == y.calls[t].cell && !z.calls[t].content
      && z.table == y.table && z.pender == y.pender && z.acts == y.acts
  {
    OpenStep(o, y, t);
    assert y.pender.cells == y.pender.cells[y.calls[t].cell := Msg(y, t)];
    RunTo(o, y, Start, Open(t));
  }

  /** A conversation update or a receipt handed to SendMessage is pended and routed without a row. */
  lemma UnsavedOnline(o: P.Opts, y: Server, t: nat, p: P.PendMessage)
    requires Closed(y) && At(y, t, Entry) && Targeted(Msg(y, t)) && y.pender.owner.None? && !y.pender.stuck
    requires Msg(y, t).typ == MessageType.ConversationUpdate || Msg(y, t).typ == MessageType.Sent
    requires Msg(y, t).msgId !in y.pender.msgList && p !in y.pender.pends
    ensures ValidRun(o, y, ForwardedRun(Then(Start, Open(t)), t, p))
    ensures var y' := After(o, y, ForwardedRun(Then(Start, Open(t)), t, p));
      && At(y', t, Done) && y'.table == y.table && PendedAs(y.pender, y'.pender, y.calls[t].cell, p)
      && y'.acts == y.acts + [Did(t, Pend, false, Msg(y, t)), Did(t, Deliver, false, Msg(y, t))]
  {
    Opens(o, y, t);
    Forward(o, y, Then(Start, Open(t)), t, p);
  }

  function NoticeRun(r: Run, t: nat, online: bool): Run {
    Then(Then(Then(r, Open(t)), Dispatch(t, online)), Send(t))
  }

  ghost predicate Routed(y: Server, y': Server, t: nat)
    requires Closed(y) && t in y.calls
  {
    && At(y', t, Done) && y'.table == y.table && y'.pender == y.pender
    && y'.acts == y.acts + [Did(t, Notice, false, Msg(y, t))]
  }

  lemma DispatchThenRoute(o: P.Opts, y: Server, t: nat, online: bool)
    requires Closed(y) && At(y, t, Checking) && !y.calls[t].content && Msg(y, t).typ == MessageType.Failed
    ensures CanStep(o, y, Dispatch(t, online)) && CanStep(o, Step(o, y, Dispatch(t, online)), Send(t))
    ensures Routed(y, Step(o, Step(o, y, Dispatch(t, online)), Send(t)), t)
  {
    DispatchStep(o, y, t, online);
    assert y.pender.cells == y.pender.cells[y.calls[t].cell := Msg(y, t)];
    SendStep(o, Step(o, y, Dispatch(t, online)), t);
  }

  /** A failure notice is routed, whoever is online, with no row and no entry. */
  lemma FailedRouted(o: P.Opts, y: Server, t: nat, online: bool)
    requires Closed(y) && At(y, t, Entry) && Targeted(Msg(y, t)) && Msg(y, t).typ == MessageType.Failed
    ensures ValidRun(o, y, NoticeRun(Start, t, online))
    ensures Routed(y, After(o, y, NoticeRun(Start, t, online)), t)
  {
    Opens(o, y, t);
    var r := Then(Start, Open(t));
    DispatchThenRoute(o, After(o, y, r), t, online);
    RunTo(o, y, r, Dispatch(t, online));
    RunTo(o, y, Then(r, Dispatch(t, online)), Send(t));
  }

  /** A message to nobody is refused: nothing is done for it. */
  lemma NobodyRefused(o: P.Opts, y: Server, t: nat)
    requires Closed(y) && At(y, t, Entry) && Msg(y, t).toId == "" && Msg(y, t).roomId == ""
    ensures CanStep(o, y, Open(t))
    ensures var y' := Step(o, y, Open(t));
      At(y', t, Done) && y'.table == y.table && y'.pender == y.pender && y'.acts == y.acts
  {
  }
}
