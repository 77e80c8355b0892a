/** What every run of the composed server keeps: saved before delivered, one receipt in between, rooms
    and failure notices never pended, and what becomes of acknowledgements. */
module MessageSafety {
  import opened Types
  import opened MessageService
  import P = PenderProtocol
  import PS = PenderSafety
  import PT = PenderTheorems

  // ---- the pender inside the server

  lemma StepPender(o: P.Opts, y: Server, l: Label)
    requires Closed(y) && CanStep(o, y, l) && PS.Inv(o, y.pender)
    ensures PS.Inv(o, Step(o, y, l).pender)
  {
    SharesEnabled(o, y, l);
    var ls := PenderLabels(y, l);
    if |ls| >= 1 {
      PS.StepInv(o, y.pender, ls[0]);
    }
    if |ls| == 2 {
      PS.StepInv(o, P.Next(o, y.pender, ls[0]), ls[1]);
    }
  }

  /** Whatever SendMessage does around it, the pender keeps all its promises. */
  lemma {:induction false} PenderKeepsInv(o: P.Opts, r: Run)
    requires ValidRun(o, INIT, r)
    ensures PS.Inv(o, After(o, INIT, r).pender)
  {
    if r.Start? {
      PT.InitInv(o);
    } else {
      PenderKeepsInv(o, r.before);
      StepPender(o, After(o, INIT, r.before), r.last);
    }
  }

  // ---- the order of one call's actions

  ghost function Proj(acts: seq<Act>, t: nat): seq<Kind> {
    if acts == [] then []
    else
      var a := acts[|acts| - 1];
      Proj(acts[..|acts| - 1], t) + if a.Did? && a.t == t then [a.kind] else []
  }

  lemma ProjSnoc(acts: seq<Act>, a: Act, t: nat)
    ensures Proj(acts + [a], t) == Proj(acts, t) + if a.Did? && a.t == t then [a.kind] else []
  {
    assert (acts + [a])[..|acts|] == acts;
  }

  lemma ProjAbsent(acts: seq<Act>, t: nat)
    requires forall i :: 0 <= i < |acts| && acts[i].Did? ==> acts[i].t != t
    ensures Proj(acts, t) == []
  {
  }

  /** A content message is saved and receipted before anything else happens to it. */
  function Before(content: bool): seq<Kind> {
    if content then [Save, Receipt] else []
  }

  /** What a call may have done by the time it is at its pc. */
  predicate Script(c: Call, ks: seq<Kind>) {
    match c.pc
    case Entry => ks == [] && !c.content
    case Saving => ks == [] && c.content
    case Saved => ks == [Save] && c.content
    case Receipted => ks == [Save, Receipt] && c.content
    case Grouping => ks == [Save, Receipt] && c.content
    case Delivering => ks == Before(c.content) || ks == Before(c.content) + [Pend]
    case Done =>
      || ks == [] || ks == Before(c.content)
      || ks == Before(c.content) + [Deliver]
      || ks == Before(c.content) + [Notice]
      || ks == Before(c.content) + [Pend, Deliver]
      || (c.content && ks == [Save, Receipt, Group])
    case _ => ks == Before(c.content)
  }

  /** At each hand-over, the call has so far saved, receipted and perhaps pended, in that order. */
  ghost predicate HandedOver(acts: seq<Act>, i: nat)
    requires i < |acts|
  {
    acts[i].Did? && !acts[i].kind.Save? && !acts[i].kind.Receipt? ==>
      var so := Proj(acts[..i], acts[i].t);
      so == Before(acts[i].content) || (acts[i].kind.Deliver? && so == Before(acts[i].content) + [Pend])
  }

  ghost predicate Scripted(y: Server) {
    && (forall t :: t in y.calls ==> Script(y.calls[t], Proj(y.acts, t)))
    && (forall i :: 0 <= i < |y.acts| && y.acts[i].Did? ==> y.acts[i].t in y.calls)
    && (forall i :: 0 <= i < |y.acts| ==> HandedOver(y.acts, i))
  }

  predicate OfCall(l: Label) {
    !l.Clock? && !l.Sweep? && !l.Scan? && !l.AckBack? && !l.RetryBack?
  }

  function Adds(c: Call, l: Label): seq<Kind> {
    match l
    case SaveRow(_, ok) => if ok then [Save] else []
    case SendReceipt(_) => [Receipt]
    case SendGroup(_, ok) => if ok then [Group] else []
    case PendBody(_, _) => [Pend]
    case Send(_) => [if c.pc.Noticing? then Notice else Deliver]
    case _ => []
  }

  predicate Serves(c: Call, l: Label) {
    match l
    case Open(_) => c.pc.Entry?
    case SaveRow(_, _) => c.pc.Saving?
    case SendReceipt(_) => c.pc.Saved?
    case Turn(_) => c.pc.Receipted?
    case SendGroup(_, _) => c.pc.Grouping?
    case Dispatch(_, _) => c.pc.Checking?
    case LockCall(_) => c.pc.Acking? || c.pc.Waiting?
    case PendBody(_, _) => c.pc.InPend?
    case RefuseBody(_) => c.pc.InPend?
    case UnPendBody(_) => c.pc.InUnPend?
    case Send(_) => c.pc.Noticing? || c.pc.Delivering?
    case _ => false
  }

  function Moved(c: Call, m: Message, l: Label): Call {
    c.(pc := PcAfter(c, m, l),
       content := if l.Open? then IsContent(m) && !(m.toId == "" && m.roomId == "") else c.content)
  }

  lemma ScriptGoesOn(c: Call, m: Message, l: Label, ks: seq<Kind>)
    requires Script(c, ks) && Serves(c, l)
    ensures Script(Moved(c, m, l), ks + Adds(c, l))
    ensures Adds(c, l) != [] && !l.SaveRow? && !l.SendReceipt? ==>
              ks == Before(c.content) || (Adds(c, l) == [Deliver] && ks == Before(c.content) + [Pend])
    ensures l.SaveRow? || l.SendReceipt? || l.SendGroup? ==> c.content
  {
  }

  /** An existing call that moves does what its script allows, and nothing else. */
  lemma StepActs(o: P.Opts, y: Server, l: Label)
    requires Closed(y) && CanStep(o, y, l) && OfCall(l) && l.t in y.calls
    ensures var y' := Step(o, y, l);
      var c := y.calls[l.t];
      && Serves(c, l)
      && y'.calls == y.calls[l.t := Moved(c, Msg(y, l.t), l)]
      && |y'.acts| == |y.acts| + |Adds(c, l)|
      && y'.acts[..|y.acts|] == y.acts
      && (Adds(c, l) != [] ==>
            var a := y'.acts[|y.acts|];
            && a.Did? && a.t == l.t && [a.kind] == Adds(c, l)
            && (a.content <==> c.content || l.SaveRow? || l.SendReceipt? || l.SendGroup?))
  {
  }

  lemma StepNewCall(o: P.Opts, y: Server, l: Label)
    requires Closed(y) && CanStep(o, y, l) && OfCall(l) && l.t !in y.calls
    ensures var y' := Step(o, y, l);
      && y'.acts == y.acts && l.t in y'.calls && y'.calls == y.calls[l.t := y'.calls[l.t]]
      && y'.calls[l.t].pc.Entry? && !y'.calls[l.t].content
  {
  }

  lemma StepNoCall(o: P.Opts, y: Server, l: Label)
    requires Closed(y) && CanStep(o, y, l) && !OfCall(l)
    ensures var y' := Step(o, y, l);
      && y'.calls == y.calls
      && (y'.acts == y.acts ||
          (|y'.acts| == |y.acts| + 1 && y'.acts[..|y.acts|] == y.acts && !y'.acts[|y.acts|].Did?))
  {
  }

  lemma ScriptedSnoc(y: Server, y': Server, a: Act)
    requires Scripted(y) && y'.acts == y.acts + [a] && y.calls.Keys <= y'.calls.Keys
    requires forall t :: t in y'.calls && !(a.Did? && a.t == t) ==> t in y.calls && y'.calls[t] == y.calls[t]
    requires a.Did? ==> a.t in y'.calls && Script(y'.calls[a.t], Proj(y.acts, a.t) + [a.kind])
    requires a.Did? && !a.kind.Save? && !a.kind.Receipt? ==>
               var so := Proj(y.acts, a.t);
               so == Before(a.content) || (a.kind.Deliver? && so == Before(a.content) + [Pend])
    ensures Scripted(y')
  {
    forall t | t in y'.calls ensures Script(y'.calls[t], Proj(y'.acts, t)) {
      ProjSnoc(y.acts, a, t);
    }
    forall i | 0 <= i < |y'.acts| ensures HandedOver(y'.acts, i) && (y'.acts[i].Did? ==> y'.acts[i].t in y'.calls) {
      if i < |y.acts| {
        assert y'.acts[..i] == y.acts[..i] && y'.acts[i] == y.acts[i];
        assert HandedOver(y.acts, i);
      } else {
        assert y'.acts[..i] == y.acts;
      }
    }
  }

  lemma ScriptAdds(c: Call, m: Message, l: Label, ks: seq<Kind>, a: Act)
    requires Script(c, ks) && Serves(c, l) && a.Did? && Adds(c, l) == [a.kind]
    requires a.content <==> c.content || l.SaveRow? || l.SendReceipt? || l.SendGroup?
    ensures Script(Moved(c, m, l), ks + [a.kind])
    ensures !a.kind.Save? && !a.kind.Receipt? ==>
              ks == Before(a.content) || (a.kind.Deliver? && ks == Before(a.content) + [Pend])
  {
    ScriptGoesOn(c, m, l, ks);
  }

  lemma ScriptedAct(y: Server, y': Server, l: Label, m: Message, a: Act)
    requires Scripted(y) && OfCall(l) && l.t in y.calls && Serves(y.calls[l.t], l)
    requires y'.calls == y.calls[l.t := Moved(y.calls[l.t], m, l)] && y'.acts == y.acts + [a]
    requires a.Did? && a.t == l.t && Adds(y.calls[l.t], l) == [a.kind]
    requires a.content <==> y.calls[l.t].content || l.SaveRow? || l.SendReceipt? || l.SendGroup?
    ensures Scripted(y')
  {
    ScriptAdds(y.calls[l.t], m, l, Proj(y.acts, l.t), a);
    ScriptedSnoc(y, y', a);
  }

  lemma ScriptedQuiet(y: Server, y': Server, t: nat)
    requires Scripted(y) && y'.acts == y.acts && t in y.calls && t in y'.calls && y'.calls == y.calls[t := y'.calls[t]]
    requires Script(y'.calls[t], Proj(y.acts, t))
    ensures Scripted(y')
  {
  }

  lemma StepScriptedCall(o: P.Opts, y: Server, l: Label)
    requires Closed(y) && CanStep(o, y, l) && Scripted(y) && OfCall(l) && l.t in y.calls
    ensures Scripted(Step(o, y, l))
  {
    var y' := Step(o, y, l);
    var c := y.calls[l.t];
    StepActs(o, y, l);
    if Adds(c, l) == [] {
      ScriptGoesOn(c, Msg(y, l.t), l, Proj(y.acts, l.t));
      assert y'.acts == y.acts;
      ScriptedQuiet(y, y', l.t);
    } else {
      assert y'.acts == y.acts + [y'.acts[|y.acts|]];
      ScriptedAct(y, y', l, Msg(y, l.t), y'.acts[|y.acts|]);
    }
  }

  lemma StepScripted(o: P.Opts, y: Server, l: Label)
    requires Closed(y) && CanStep(o, y, l) && Scripted(y)
    ensures Scripted(Step(o, y, l))
  {
    var y' := Step(o, y, l);
    if !OfCall(l) {
      StepNoCall(o, y, l);
      if y'.acts != y.acts {
        assert y'.acts == y.acts + [y'.acts[|y.acts|]];
        ScriptedSnoc(y, y', y'.acts[|y.acts|]);
      }
    } else if l.t !in y.calls {
      StepNewCall(o, y, l);
      ProjAbsent(y.acts, l.t);
    } else {
      StepScriptedCall(o, y, l);
    }
  }

  lemma {:induction false} RunScripted(o: P.Opts, r: Run)
    requires ValidRun(o, INIT, r)
    ensures Scripted(After(o, INIT, r))
  {
    if r.Then? {
      RunScripted(o, r.before);
      StepScripted(o, After(o, INIT, r.before), r.last);
    }
  }

  predicate By(a: Act, t: nat, k: Kind) {
    a.Did? && a.t == t && a.kind == k
  }

  /** The last action of t is where its projection ends. */
  lemma {:induction false} LastAct(acts: seq<Act>, t: nat, ks: seq<Kind>, k: Kind) returns (i: nat)
    requires Proj(acts, t) == ks + [k]
    ensures i < |acts| && By(acts[i], t, k) && Proj(acts[..i], t) == ks
    ensures forall n :: i < n < |acts| ==> !(acts[n].Did? && acts[n].t == t)
  {
    i := |acts| - 1;
    var a := acts[i];
    if a.Did? && a.t == t {
      var so := Proj(acts[..i], t);
      assert so == (so + [a.kind])[..|ks|] == ks;
      assert (so + [a.kind])[|ks|] == k;
    } else {
      assert Proj(acts[..i], t) == ks + [k];
      var before := acts[..i];
      i := LastAct(before, t, ks, k);
      assert acts[..i] == before[..i];
    }
  }

  lemma NoAct(acts: seq<Act>, t: nat)
    requires Proj(acts, t) == []
    ensures forall n :: 0 <= n < |acts| ==> !(acts[n].Did? && acts[n].t == t)
  {
  }

  /** j and k are the only save and the only receipt of call t among the first i actions, in this order. */
  ghost predicate SavedThenReceipted(acts: seq<Act>, t: nat, i: nat, j: nat, k: nat)
    requires i <= |acts|
  {
    && j < k < i && By(acts[j], t, Save) && By(acts[k], t, Receipt)
    && forall n :: 0 <= n < i ==> (By(acts[n], t, Save) ==> n == j) && (By(acts[n], t, Receipt) ==> n == k)
  }

  lemma FindBoth(acts: seq<Act>, t: nat) returns (j: nat, k: nat)
    requires Proj(acts, t) == [Save, Receipt]
    ensures SavedThenReceipted(acts, t, |acts|, j, k)
  {
    assert Proj(acts, t) == [Save] + [Receipt];
    k := LastAct(acts, t, [Save], Receipt);
    var first := acts[..k];
    assert Proj(first, t) == [] + [Save];
    j := LastAct(first, t, [], Save);
    NoAct(first[..j], t);
    assert acts[j] == first[j];
    forall n | 0 <= n < |acts|
      ensures (By(acts[n], t, Save) ==> n == j) && (By(acts[n], t, Receipt) ==> n == k)
    {
      if n < k { assert first[n] == acts[n]; }
      if n < j { assert first[..j][n] == acts[n]; }
    }
  }

  lemma FindBothBeforePend(acts: seq<Act>, t: nat) returns (j: nat, k: nat)
    requires Proj(acts, t) == [Save, Receipt] + [Pend]
    ensures SavedThenReceipted(acts, t, |acts|, j, k)
  {
    var p := LastAct(acts, t, [Save, Receipt], Pend);
    var first := acts[..p];
    j, k := FindBoth(first, t);
    forall n | 0 <= n < |acts|
      ensures (By(acts[n], t, Save) ==> n == j) && (By(acts[n], t, Receipt) ==> n == k)
    {
      if n < p { assert first[n] == acts[n]; }
    }
  }

  /** In every run a content message is pended, routed or sent to its room only after its row is saved,
      and between the two exactly one Sent receipt goes out. */
  lemma {:induction false} SavedBeforeDelivered(o: P.Opts, r: Run, i: nat) returns (j: nat, k: nat)
    requires ValidRun(o, INIT, r) && i < |After(o, INIT, r).acts|
    requires var a := After(o, INIT, r).acts[i];
      a.Did? && a.content && !a.kind.Save? && !a.kind.Receipt?
    ensures var acts := After(o, INIT, r).acts;
      SavedThenReceipted(acts, acts[i].t, i, j, k)
  {
    var acts := After(o, INIT, r).acts;
    var t := acts[i].t;
    assert HandedOver(acts, i) by { RunScripted(o, r); }
    var sofar := acts[..i];
    if Proj(sofar, t) == Before(true) {
      j, k := FindBoth(sofar, t);
    } else {
      j, k := FindBothBeforePend(sofar, t);
    }
    forall n | 0 <= n < i
      ensures (By(acts[n], t, Save) ==> n == j) && (By(acts[n], t, Receipt) ==> n == k)
    {
      assert acts[n] == sofar[n];
    }
  }

  // ---- the message objects

  /** m' is m up to what the callbacks and SendMessage itself write. */
  predicate SameMessage(m: Message, m': Message) {
    && m' == m.(typ := m'.typ, isDelivered := m'.isDelivered, channelId := m'.channelId)
    && (m'.typ == m.typ || m'.typ == MessageType.Failed)
  }

  lemma PenderCellsKept(o: P.Opts, s: P.State, l: P.Label, c: P.MessageCell)
    requires P.Closed(s) && P.Enabled(o, s, l) && c in s.cells
    requires l.Write? ==> SameMessage(s.cells[l.cell], l.value)
    ensures c in P.Next(o, s, l).cells && SameMessage(s.cells[c], P.Next(o, s, l).cells[c])
  {
  }

  /** No step changes who a message is between, its room, its id or its time; the type can only become
      Failed. */
  lemma CellsKept(o: P.Opts, y: Server, l: Label, c: P.MessageCell)
    requires Closed(y) && CanStep(o, y, l) && c in y.pender.cells
    ensures c in Step(o, y, l).pender.cells && SameMessage(y.pender.cells[c], Step(o, y, l).pender.cells[c])
  {
    var ls := PenderLabels(y, l);
    if |ls| >= 1 {
      PenderCellsKept(o, y.pender, ls[0], c);
    }
    if |ls| == 2 {
      PenderCellsKept(o, P.Next(o, y.pender, ls[0]), ls[1], c);
    }
  }

  predicate Past(pc: Pc) {
    pc.Checking? || pc.Acking? || pc.InUnPend? || pc.Noticing? || pc.Waiting? || pc.InPend? || pc.Delivering?
  }

  /** Content messages that are past the room test have no room. */
  ghost predicate Roomless(y: Server)
    requires Closed(y)
  {
    forall t :: t in y.calls && y.calls[t].content && Past(y.calls[t].pc) ==> Msg(y, t).roomId == ""
  }

  lemma RoomTest(c: Call, m: Message, l: Label)
    requires Serves(c, l) && (c.content && Past(c.pc) ==> m.roomId == "")
    requires c.pc.Entry? ==> !c.content
    ensures Moved(c, m, l).content && Past(Moved(c, m, l).pc) ==> m.roomId == ""
  {
  }

  lemma CallRoomless(o: P.Opts, y: Server, l: Label, t: nat)
    requires Closed(y) && CanStep(o, y, l) && Roomless(y) && Scripted(y) && t in Step(o, y, l).calls
    requires Step(o, y, l).calls[t].content && Past(Step(o, y, l).calls[t].pc)
    ensures Msg(Step(o, y, l), t).roomId == ""
  {
    if !OfCall(l) {
      StepNoCall(o, y, l);
    } else if l.t !in y.calls {
      StepNewCall(o, y, l);
    } else {
      StepActs(o, y, l);
      assert Script(y.calls[l.t], Proj(y.acts, l.t));
      RoomTest(y.calls[l.t], Msg(y, l.t), l);
    }
    CellsKept(o, y, l, y.calls[t].cell);
  }

  lemma StepRoomless(o: P.Opts, y: Server, l: Label)
    requires Closed(y) && CanStep(o, y, l) && Roomless(y) && Scripted(y)
    ensures Roomless(Step(o, y, l))
  {
    var y' := Step(o, y, l);
    forall t | t in y'.calls && y'.calls[t].content && Past(y'.calls[t].pc) ensures Msg(y', t).roomId == "" {
      CallRoomless(o, y, l, t);
    }
  }

  lemma {:induction false} RunRoomless(o: P.Opts, r: Run)
    requires ValidRun(o, INIT, r)
    ensures Roomless(After(o, INIT, r))
  {
    if r.Then? {
      RunRoomless(o, r.before);
      RunScripted(o, r.before);
      StepRoomless(o, After(o, INIT, r.before), r.last);
    }
  }

  /** A content message that is pended has no room. */
  lemma {:induction false} RoomsNeverPended(o: P.Opts, r: Run, i: nat)
    requires ValidRun(o, INIT, r) && i < |After(o, INIT, r).acts|
    requires var a := After(o, INIT, r).acts[i];
      a.Did? && a.content && a.kind.Pend?
    ensures After(o, INIT, r).acts[i].m.roomId == ""
  {
    var y := After(o, INIT, r.before);
    var acts := After(o, INIT, r).acts;
    ActsGrow(o, y, r.last);
    if i < |y.acts| {
      assert acts[i] == y.acts[i];
      RoomsNeverPended(o, r.before, i);
    } else {
      RunRoomless(o, r.before);
      NewPendRoomless(o, y, r.last);
    }
  }

  lemma NewPendRoomless(o: P.Opts, y: Server, l: Label)
    requires Closed(y) && CanStep(o, y, l) && Roomless(y) && |Step(o, y, l).acts| > |y.acts|
    ensures var a := Step(o, y, l).acts[|y.acts|];
      a.Did? && a.content && a.kind.Pend? ==> a.m.roomId == ""
  {
    PendAct(o, y, l);
  }

  lemma ActsGrow(o: P.Opts, y: Server, l: Label)
    requires Closed(y) && CanStep(o, y, l)
    ensures var acts' := Step(o, y, l).acts;
      |y.acts| <= |acts'| <= |y.acts| + 1 && acts'[..|y.acts|] == y.acts
  {
  }

  lemma PendAct(o: P.Opts, y: Server, l: Label)
    requires Closed(y) && CanStep(o, y, l)
    ensures var acts' := Step(o, y, l).acts;
      |acts'| > |y.acts| && acts'[|y.acts|].Did? && acts'[|y.acts|].kind.Pend? ==>
        l.PendBody? && At(y, l.t, InPend) && acts'[|y.acts|] == Did(l.t, Pend, y.calls[l.t].content, Msg(y, l.t))
  {
  }
}
