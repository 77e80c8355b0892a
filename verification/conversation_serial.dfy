/** Updates run one at a time: the table is a fold over the processed messages. */
module ConversationSerial {
  import opened Types
  import opened ConversationTable
  import opened ConversationUpdates

  predicate RealKey(k: Key) {
    match k case PeerKey(_, p) => p != "" case RoomKey(_, r) => r != ""
  }

  /** The row a conversation starts from. */
  function EmptyRow(cid: string, k: Key): Row {
    match k
    case PeerKey(u, p) => Row(cid, u, Some(p), None, 0, "", "", 0, ChannelOf(k))
    case RoomKey(u, r) => Row(cid, u, None, Some(r), 0, "", "", 0, ChannelOf(k))
  }

  /** One message more. */
  function FoldOne(r: Option<Row>, k: Key, t: Request, cid: string): Row
    requires t.Update?
  {
    var base := if r.None? then EmptyRow(cid, k) else r.value;
    base.(lastMsgTime := t.msg.sendAt, lastMsgContent := t.msg.content, lastSenderName := t.sender,
          unreadCount := base.unreadCount + t.delta)
  }

  /** Worker i from start to end, alone. */
  ghost function Alone(s: State, i: nat, cid: string): Run
    requires i < |s.workers|
  {
    var looked := Then(Begin, Look(i, true));
    if RowAt(s.table, s.workers[i].request.key).Some? then Then(looked, Finish(i, true))
    else Then(Then(looked, Make(i, cid, true)), Finish(i, true))
  }

  ghost predicate Ready(s: State, i: nat, cid: string) {
    && i < |s.workers| && s.workers[i].stage.Start? && s.workers[i].request.Update?
    && RealKey(s.workers[i].request.key) && s.workers[i].request.msg.msgId != "" && cid !in s.issued
  }

  lemma RunTo(s: State, r: Run, l: Label)
    requires ValidRun(s, r) && Enabled(After(s, r), l)
    ensures ValidRun(s, Then(r, l)) && After(s, Then(r, l)) == Next(After(s, r), l)
  {
  }

  /** The result of a finished update, seen at k. */
  ghost predicate Folded(s: State, s': State, i: nat, cid: string, k: Key)
    requires i < |s.workers| && s.workers[i].request.Update?
  {
    var t := s.workers[i].request;
    && TableOk(s') && s'.issued <= s.issued + {cid} && s'.workers == s.workers[i := Worker(t, Ended(true))]
    && RowAt(s'.table, k) == if k == t.key then Some(FoldOne(RowAt(s.table, k), k, t, cid)) else RowAt(s.table, k)
  }

  lemma LookFound(s: State, i: nat, cid: string)
    requires TableOk(s) && Ready(s, i, cid) && RowAt(s.table, s.workers[i].request.key).Some?
    ensures var s' := Next(s, Look(i, true));
      var w := s.workers[i];
      var held := Holding(Scanned(RowAt(s.table, w.request.key).value), false);
      TableOk(s') && Enabled(s', Finish(i, true)) && s' == s.(workers := s.workers[i := Worker(w.request, held)])
  {
    StepTableOk(s, Look(i, true));
  }

  lemma FinishFolds(s: State, i: nat, k: Key)
    requires TableOk(s) && Enabled(s, Finish(i, true)) && s.workers[i].request.msg.msgId != ""
    ensures var s' := Next(s, Finish(i, true));
      var t := s.workers[i].request;
      && TableOk(s') && s'.issued == s.issued && s'.workers == s.workers[i := Worker(t, Ended(true))]
      && RowAt(s.table, t.key).Some?
      && RowAt(s'.table, k) == if k == t.key then Some(FoldOne(RowAt(s.table, k), k, t, "")) else RowAt(s.table, k)
  {
    var w := s.workers[i];
    FinishTableOk(s, Finish(i, true));
    assert HoldsOk(s, i);
    WriteAt(s.table, Filled(w.stage.conv, w.request.msg, w.request.sender, w.request.delta), w.request.key, k);
  }

  lemma AloneExisting(s: State, i: nat, cid: string, k: Key)
    requires TableOk(s) && Ready(s, i, cid) && RowAt(s.table, s.workers[i].request.key).Some?
    ensures ValidRun(s, Alone(s, i, cid)) && Folded(s, After(s, Alone(s, i, cid)), i, cid, k)
  {
    LookFound(s, i, cid);
    FinishFolds(Next(s, Look(i, true)), i, k);
    assert After(s, Begin) == s;
    RunTo(s, Begin, Look(i, true));
    RunTo(s, Then(Begin, Look(i, true)), Finish(i, true));
  }

  lemma LookMakes(s: State, i: nat, cid: string, k: Key)
    requires TableOk(s) && Ready(s, i, cid) && RowAt(s.table, s.workers[i].request.key).None?
    ensures var s1 := Next(s, Look(i, true));
      var t := s.workers[i].request;
      && Enabled(s1, Make(i, cid, true))
      && var s' := Next(s1, Make(i, cid, true));
      && TableOk(s') && s'.issued == s.issued + {cid}
      && s'.workers == s.workers[i := Worker(t, Holding(NewConversation(cid, t.key), true))]
      && RowAt(s'.table, k) == if k == t.key then Some(EmptyRow(cid, k)) else RowAt(s.table, k)
  {
    var s1 := Next(s, Look(i, true));
    LookTableOk(s, Look(i, true));
    var t := s.workers[i].request;
    NewWritable(s1, cid, t.key);
    var c := NewConversation(cid, t.key);
    WriteAt(s1.table, c, t.key, k);
    assert RowOf(c) == EmptyRow(cid, t.key);
    MakeTableOk(s1, Make(i, cid, true));
  }

  lemma LookMakesRun(s: State, i: nat, cid: string)
    requires TableOk(s) && Ready(s, i, cid) && RowAt(s.table, s.workers[i].request.key).None?
    ensures var s1 := Next(s, Look(i, true));
      var r := Then(Then(Begin, Look(i, true)), Make(i, cid, true));
      && Enabled(s1, Make(i, cid, true)) && ValidRun(s, r) && After(s, r) == Next(s1, Make(i, cid, true))
  {
    LookMakes(s, i, cid, s.workers[i].request.key);
    assert After(s, Begin) == s;
    RunTo(s, Begin, Look(i, true));
    RunTo(s, Then(Begin, Look(i, true)), Make(i, cid, true));
  }

  lemma AloneNew(s: State, i: nat, cid: string, k: Key)
    requires TableOk(s) && Ready(s, i, cid) && RowAt(s.table, s.workers[i].request.key).None?
    ensures ValidRun(s, Alone(s, i, cid)) && Folded(s, After(s, Alone(s, i, cid)), i, cid, k)
  {
    var r := Then(Then(Begin, Look(i, true)), Make(i, cid, true));
    LookMakes(s, i, cid, k);
    LookMakesRun(s, i, cid);
    var s2 := After(s, r);
    assert Enabled(s2, Finish(i, true));
    FinishFolds(s2, i, k);
    RunTo(s, r, Finish(i, true));
    FoldsTwice(s, s2, i, cid, k);
  }

  /** Created empty and then finished, the row is the fold of nothing and the message. */
  lemma FoldsTwice(s: State, s2: State, i: nat, cid: string, k: Key)
    requires TableOk(s2) && Ready(s, i, cid) && RowAt(s.table, s.workers[i].request.key).None?
    requires s2.issued == s.issued + {cid} && Enabled(s2, Finish(i, true))
    requires s2.workers == s.workers[i := Worker(s.workers[i].request, s2.workers[i].stage)]
    requires var t := s.workers[i].request;
      RowAt(s2.table, k) == if k == t.key then Some(EmptyRow(cid, k)) else RowAt(s.table, k)
    ensures Folded(s, Next(s2, Finish(i, true)), i, cid, k)
  {
    var t := s.workers[i].request;
    assert s2.workers[i].request == t && t.msg.msgId != "";
    FinishFolds(s2, i, k);
    var s' := Next(s2, Finish(i, true));
    assert s'.workers == s.workers[i := Worker(t, Ended(true))];
    if k == t.key {
      assert RowAt(s.table, k).None? && FoldOne(None, k, t, cid) == FoldOne(Some(EmptyRow(cid, k)), k, t, "");
    }
  }

  lemma AloneAt(s: State, i: nat, cid: string, k: Key)
    requires TableOk(s) && Ready(s, i, cid)
    ensures ValidRun(s, Alone(s, i, cid)) && Folded(s, After(s, Alone(s, i, cid)), i, cid, k)
  {
    if RowAt(s.table, s.workers[i].request.key).Some? { AloneExisting(s, i, cid, k); } else { AloneNew(s, i, cid, k); }
  }

  /** The row under k after the first n requests, folded in order; cids[i] is the id request i would create with. */
  function Fold(r: Option<Row>, ws: seq<Worker>, cids: seq<string>, k: Key): Option<Row>
    requires |cids| >= |ws| && forall i :: 0 <= i < |ws| ==> ws[i].request.Update?
  {
    if ws == [] then r
    else
      var n := |ws| - 1;
      var sofar := Fold(r, ws[..n], cids, k);
      if ws[n].request.key == k then Some(FoldOne(sofar, k, ws[n].request, cids[n])) else sofar
  }

  ghost predicate AllReady(s: State, cids: seq<string>) {
    && |cids| == |s.workers|
    && (forall i :: 0 <= i < |cids| ==> Ready(s, i, cids[i]))
    && Distinct(cids)
  }

  ghost predicate Progress(s: State, s': State, cids: seq<string>, n: nat)
    requires n <= |cids|
  {
    && TableOk(s') && |s'.workers| == |s.workers|
    && (forall i :: 0 <= i < |s.workers| && i >= n ==> s'.workers[i] == s.workers[i])
    && (forall c :: c in s'.issued ==> c in s.issued || c in cids[..n])
  }

  /** Workers 0 to n - 1, one after the other. */
  ghost function InTurn(s: State, cids: seq<string>, n: nat): (s': State)
    requires TableOk(s) && AllReady(s, cids) && n <= |cids|
    ensures Progress(s, s', cids, n)
  {
    if n == 0 then s else TakeTurn(s, InTurn(s, cids, n - 1), cids, n - 1)
  }

  ghost function TakeTurn(s: State, m: State, cids: seq<string>, n: nat): (s': State)
    requires AllReady(s, cids) && n < |cids| && Progress(s, m, cids, n)
    ensures Progress(s, s', cids, n + 1)
  {
    TurnTaken(s, m, cids, n);
    After(m, Alone(m, n, cids[n]))
  }

  lemma TurnReady(s: State, m: State, cids: seq<string>, n: nat)
    requires AllReady(s, cids) && n < |cids| && Progress(s, m, cids, n)
    ensures Ready(m, n, cids[n])
  {
    assert Ready(s, n, cids[n]);
  }

  lemma TurnDone(s: State, m: State, s': State, cids: seq<string>, n: nat)
    requires AllReady(s, cids) && n < |cids| && Progress(s, m, cids, n) && TableOk(s')
    requires TableOk(s') && s'.issued <= m.issued + {cids[n]}
    requires |s'.workers| == |m.workers| && s'.workers == m.workers[n := s'.workers[n]]
    ensures Progress(s, s', cids, n + 1)
  {
    assert cids[..n + 1] == cids[..n] + [cids[n]];
  }

  lemma TurnTaken(s: State, m: State, cids: seq<string>, n: nat)
    requires AllReady(s, cids) && n < |cids| && Progress(s, m, cids, n)
    ensures Ready(m, n, cids[n]) && ValidRun(m, Alone(m, n, cids[n]))
    ensures Progress(s, After(m, Alone(m, n, cids[n])), cids, n + 1)
  {
    TurnReady(s, m, cids, n);
    AloneAt(m, n, cids[n], s.workers[n].request.key);
    TurnDone(s, m, After(m, Alone(m, n, cids[n])), cids, n);
  }

  /** Serial refinement: run one at a time, the updates leave under every key the fold of the messages. */
  lemma {:induction false} SerialIsFold(s: State, cids: seq<string>, n: nat, k: Key)
    requires TableOk(s) && AllReady(s, cids) && n <= |cids|
    ensures forall i :: 0 <= i < n ==> s.workers[i].request.Update?
    ensures RowAt(InTurn(s, cids, n).table, k) == Fold(RowAt(s.table, k), s.workers[..n], cids, k)
  {
    forall i | 0 <= i < n ensures s.workers[i].request.Update? { assert Ready(s, i, cids[i]); }
    if n > 0 {
      SerialIsFold(s, cids, n - 1, k);
      var m := InTurn(s, cids, n - 1);
      TurnReady(s, m, cids, n - 1);
      AloneAt(m, n - 1, cids[n - 1], k);
      assert s.workers[..n][..n - 1] == s.workers[..n - 1];
    }
  }

  lemma {:induction false} FoldSums(r: Option<Row>, ws: seq<Worker>, cids: seq<string>, k: Key)
    requires |cids| >= |ws| && forall i :: 0 <= i < |ws| ==> ws[i].request.Update?
    ensures var f := Fold(r, ws, cids, k);
      (if f.None? then 0 else f.value.unreadCount) == (if r.None? then 0 else r.value.unreadCount) + Asked(ws, k)
  {
    if ws != [] {
      FoldSums(r, ws[..|ws| - 1], cids, k);
    }
  }

  /** Request i is the last under its key. */
  predicate LastUnder(ws: seq<Worker>, k: Key, i: nat) {
    i < |ws| && ws[i].request.key == k && forall j :: i < j < |ws| ==> ws[j].request.key != k
  }

  lemma {:induction false} FoldShowsLast(r: Option<Row>, ws: seq<Worker>, cids: seq<string>, k: Key, i: nat)
    requires |cids| >= |ws| && forall i :: 0 <= i < |ws| ==> ws[i].request.Update?
    requires LastUnder(ws, k, i)
    ensures Fold(r, ws, cids, k).Some? && Shows(Fold(r, ws, cids, k).value, ws[i].request)
  {
    var n := |ws| - 1;
    if i < n {
      assert ws[n].request.key != k && ws[..n][i] == ws[i];
      FoldShowsLast(r, ws[..n], cids, k, i);
    }
  }

  /** What the fold amounts to: the sum of the deltas, and the last message under the key. */
  lemma {:induction false} FoldSumsAndShowsLast(r: Option<Row>, ws: seq<Worker>, cids: seq<string>, k: Key)
    requires |cids| >= |ws| && forall i :: 0 <= i < |ws| ==> ws[i].request.Update?
    ensures var f := Fold(r, ws, cids, k);
      && (if f.None? then 0 else f.value.unreadCount) == (if r.None? then 0 else r.value.unreadCount) + Asked(ws, k)
      && forall i: nat :: LastUnder(ws, k, i) ==> f.Some? && Shows(f.value, ws[i].request)
  {
    FoldSums(r, ws, cids, k);
    forall i: nat | LastUnder(ws, k, i)
      ensures Fold(r, ws, cids, k).Some? && Shows(Fold(r, ws, cids, k).value, ws[i].request)
    {
      FoldShowsLast(r, ws, cids, k, i);
    }
  }
}
