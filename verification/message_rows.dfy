/** The rows that runs of the composed server save (service/message.go): filed under their own id, with the
    channel id getChannelId computes from their own sender, recipient and room. */
module MessageRows {
  import opened Types
  import opened ChannelIds
  import opened MessageService
  import opened MessageSafety
  import P = PenderProtocol
  import Backfill

  predicate Channelled(m: Message) {
    m.channelId == GetChannelId(m.fromId, m.toId, m.roomId)
  }

  /** A step that touches a message's channel id computes it. */
  lemma PenderChannel(o: P.Opts, s: P.State, l: P.Label, c: P.MessageCell)
    requires P.Closed(s) && P.Enabled(o, s, l) && c in s.cells
    requires l.Write? ==> Channelled(l.value)
    ensures var m' := P.Next(o, s, l).cells[c];
      m'.channelId == s.cells[c].channelId || Channelled(m')
  {
  }

  lemma StepChannel(o: P.Opts, y: Server, l: Label, c: P.MessageCell)
    requires Closed(y) && CanStep(o, y, l) && c in y.pender.cells && Channelled(y.pender.cells[c])
    ensures c in Step(o, y, l).pender.cells && Channelled(Step(o, y, l).pender.cells[c])
  {
    CellsKept(o, y, l, c);
    var ls := PenderLabels(y, l);
    SharesEnabled(o, y, l);
    if |ls| >= 1 {
      PenderCellsKept(o, y.pender, ls[0], c);
      PenderChannel(o, y.pender, ls[0], c);
    }
    if |ls| == 2 {
      PenderChannel(o, P.Next(o, y.pender, ls[0]), ls[1], c);
    }
  }

  /** From Open on, a content message carries its channel. */
  ghost predicate ContentChannelled(y: Server)
    requires Closed(y)
  {
    forall t :: t in y.calls && y.calls[t].content ==> Channelled(Msg(y, t))
  }

  lemma OpenChannels(o: P.Opts, y: Server, t: nat)
    requires Closed(y) && CanStep(o, y, Open(t)) && Step(o, y, Open(t)).calls[t].content && !y.calls[t].content
    ensures Channelled(Msg(Step(o, y, Open(t)), t))
  {
  }

  lemma CallChannelled(o: P.Opts, y: Server, l: Label, t: nat)
    requires Closed(y) && CanStep(o, y, l) && Scripted(y) && ContentChannelled(y)
    requires t in Step(o, y, l).calls && Step(o, y, l).calls[t].content
    ensures Channelled(Msg(Step(o, y, l), t))
  {
    if !OfCall(l) {
      StepNoCall(o, y, l);
    } else if l.t !in y.calls {
      StepNewCall(o, y, l);
    } else {
      StepActs(o, y, l);
    }
    assert t in y.calls;
    if y.calls[t].content {
      StepChannel(o, y, l, y.calls[t].cell);
    } else {
      OpenChannels(o, y, t);
    }
  }

  /** Every row is under its own id and in its own channel. */
  ghost predicate RowsRight(y: Server) {
    forall id :: id in y.table ==> y.table[id].msgId == id && Channelled(y.table[id])
  }

  lemma StepRowsRight(o: P.Opts, y: Server, l: Label)
    requires Closed(y) && CanStep(o, y, l) && Scripted(y) && ContentChannelled(y) && RowsRight(y)
    ensures RowsRight(Step(o, y, l))
  {
    if l.SaveRow? {
      assert Script(y.calls[l.t], Proj(y.acts, l.t));
      assert Channelled(Msg(y, l.t));
    }
  }

  /** In every run of the server, whatever frames, callbacks and failures it interleaves, each row of the message
      table has the channel id of its own sender, recipient and room, and stays so. */
  lemma {:induction false} RowsKeepTheirChannel(o: P.Opts, r: Run)
    requires ValidRun(o, INIT, r)
    ensures RowsRight(After(o, INIT, r)) && ContentChannelled(After(o, INIT, r))
  {
    if r.Then? {
      RowsKeepTheirChannel(o, r.before);
      RunScripted(o, r.before);
      var y := After(o, INIT, r.before);
      StepRowsRight(o, y, r.last);
      forall t | t in Step(o, y, r.last).calls && Step(o, y, r.last).calls[t].content
        ensures Channelled(Msg(Step(o, y, r.last), t))
      {
        CallChannelled(o, y, r.last, t);
      }
    }
  }

  /** So every row any run of the server saves is one that migrations 14 and 15 would have made, and pass by. */
  lemma {:induction false} RowsOutlastMigrations(o: P.Opts, r: Run, id: string)
    requires ValidRun(o, INIT, r) && id in After(o, INIT, r).table
    ensures var row := Backfill.SavedRow(After(o, INIT, r).table[id]);
      && row.channelId == Backfill.MessageChannel(row)
      && Backfill.Fill15(Backfill.Fill14(row)) == row
      && Backfill.Fill15(Backfill.Fill14(row.(channelId := Unset))) == row
  {
    RowsKeepTheirChannel(o, r);
    var row := Backfill.SavedRow(After(o, INIT, r).table[id]);
    Backfill.SavedRowsStayRight(After(o, INIT, r).table[id]);
    Backfill.MessagesBackfilled(row.(channelId := Unset));
  }
}
