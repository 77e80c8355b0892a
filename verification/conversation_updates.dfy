/** Any number of updateConversation calls (service/message.go) and of /conversation/create and
    /conversation/open requests at work on one conversations table, one statement at a time. */
module ConversationUpdates {
  import opened Types
  import opened ChannelIds
  import opened ConversationTable

  datatype Request =
    | Update(key: Key, msg: Message, sender: string, delta: int)   // one updateConversation call
    | Create(key: Key)                                              // POST /conversation/create
    | OpenIt(key: Key)                                              // POST /conversation/open

  datatype Stage =
    | Start
    | Missing                                       // the lookup found no row
    | Holding(conv: Conversation, created: bool)    // the row it read, or the one it just created
    | Ended(wrote: bool)

  datatype Worker = Worker(request: Request, stage: Stage)

  /** Who wrote last_msg_* of a row last. */
  datatype Writer = ByApi(i: nat) | ByCreate(i: nat) | ByUpdate(i: nat)

  datatype State = State(table: Table, issued: set<string>, workers: seq<Worker>, writer: map<Key, Writer>)

  /** CreateConversation's argument for a key, under a fresh cid. */
  function NewConversation(cid: string, k: Key): Conversation {
    match k
    case PeerKey(u, p) => Conversation(cid, u, CalcChannelId(u, p), p, "", "", "", 0, "", 0)
    case RoomKey(u, r) =>
      Conversation(cid, u, if r != "" then CalcRoomChannelId(r) else CalcChannelId(u, ""), "", r, "", "", 0, "", 0)
  }

  /** updateConversation's assignments before the second write. */
  function Filled(c: Conversation, m: Message, sender: string, delta: int): Conversation {
    c.(lastMsgId := m.msgId, lastMsgTime := m.sendAt, lastMsgContent := m.content, lastSenderName := sender,
       unreadCount := delta, channelId := m.channelId)
  }

  /** ok is false when the statement, or the user lookup before it, returns an error. */
  datatype Label = Look(i: nat, ok: bool) | Make(i: nat, cid: string, ok: bool) | Finish(i: nat, ok: bool)

  ghost predicate Enabled(s: State, l: Label) {
    && l.i < |s.workers|
    && var w := s.workers[l.i];
       match l
       case Look(_, _) => w.stage.Start? && !w.request.Create?
       case Make(_, cid, _) => (w.stage.Missing? || (w.stage.Start? && w.request.Create?)) && cid !in s.issued
       case Finish(_, _) => w.stage.Holding? && w.request.Update?
  }

  ghost function Next(s: State, l: Label): State
    requires Enabled(s, l)
  {
    var w := s.workers[l.i];
    var k := w.request.key;
    match l
    case Look(i, ok) =>
      var r := RowAt(s.table, k);
      var stage :=
        if !ok then Ended(false)
        else if r.None? then Missing
        else if w.request.OpenIt? then Ended(true)
        else Holding(Scanned(r.value), false);
      s.(workers := s.workers[i := w.(stage := stage)])
    case Make(i, cid, ok) =>
      var c := NewConversation(cid, k);
      var t := Upsert(s.table, c);
      if !ok || t.None? then
        s.(issued := s.issued + {cid}, workers := s.workers[i := w.(stage := Ended(false))])
      else
        State(t.value, s.issued + {cid},
              s.workers[i := w.(stage := if w.request.Update? then Holding(c, true) else Ended(true))],
              s.writer[k := if w.request.Update? then ByCreate(i) else ByApi(i)])
    case Finish(i, ok) =>
      var c := w.stage.conv;
      var t := Upsert(s.table, Filled(c, w.request.msg, w.request.sender, w.request.delta));
      if c.lastMsgId == w.request.msg.msgId || !ok || t.None? then
        s.(workers := s.workers[i := w.(stage := Ended(false))])
      else
        s.(table := t.value, workers := s.workers[i := w.(stage := Ended(true))], writer := s.writer[k := ByUpdate(i)])
  }

  datatype Run = Begin | Then(before: Run, last: Label)

  ghost predicate ValidRun(s: State, r: Run)
    decreases r, 0
  {
    r.Then? ==> ValidRun(s, r.before) && Enabled(After(s, r.before), r.last)
  }

  ghost function After(s: State, r: Run): State
    requires ValidRun(s, r)
    decreases r, 1
  {
    if r.Begin? then s else Next(After(s, r.before), r.last)
  }

  /** Everyone about to start, on a sound table. */
  ghost predicate Initial(s: State) {
    && Sound(s.table) && s.table.Keys <= s.issued && s.writer == map[]
    && forall i :: 0 <= i < |s.workers| ==> s.workers[i].stage.Start?
  }

  // ---- what every interleaving keeps

  /** The conversation a worker holds can still be written, and only over its own row. */
  ghost predicate HoldsOk(s: State, i: nat)
    requires i < |s.workers|
  {
    var w := s.workers[i];
    w.stage.Holding? ==>
      && w.request.Update? && w.stage.conv.lastMsgId == ""
      && w.stage.conv.cid in s.issued
      && RowAt(s.table, w.request.key).Some?
      && Writable(s.table, w.stage.conv, w.request.key)
  }

  ghost predicate TableOk(s: State) {
    && Sound(s.table) && s.table.Keys <= s.issued
    && forall i :: 0 <= i < |s.workers| ==> HoldsOk(s, i)
  }

  /** A write by worker i to its own key. */
  lemma WriteKeepsHolds(s: State, c: Conversation, k: Key, cids: set<string>, i: nat)
    requires TableOk(s) && Writable(s.table, c, k) && i < |s.workers|
    requires c.cid in cids && s.issued <= cids && (c.cid in s.issued || c.cid !in s.table)
    requires c.cid !in s.issued || RowAt(s.table, k).Some?
    ensures Upsert(s.table, c).Some?
    ensures HoldsOk(s.(table := Upsert(s.table, c).value, issued := cids), i)
  {
    UpsertAt(s.table, c, k);
    var w := s.workers[i];
    assert HoldsOk(s, i);
    if w.stage.Holding? && w.request.key != k {
      UpsertElsewhere(s.table, c, k, w.request.key);
    }
  }

  lemma NewWritable(s: State, cid: string, k: Key)
    requires TableOk(s) && cid !in s.issued
    ensures Upsert(s.table, NewConversation(cid, k)).Some? ==> Writable(s.table, NewConversation(cid, k), k)
  {
  }

  lemma FilledWritable(t: Table, c: Conversation, k: Key, m: Message, sender: string, delta: int)
    requires Writable(t, c, k)
    ensures Writable(t, Filled(c, m, sender, delta), k)
  {
  }

  lemma ScannedWritable(t: Table, k: Key)
    requires Sound(t) && RowAt(t, k).Some?
    ensures Writable(t, Scanned(RowAt(t, k).value), k) && Scanned(RowAt(t, k).value).cid in t
  {
  }

  lemma LookTableOk(s: State, l: Label)
    requires TableOk(s) && Enabled(s, l) && l.Look?
    ensures TableOk(Next(s, l))
  {
    var s' := Next(s, l);
    var k := s.workers[l.i].request.key;
    if RowAt(s.table, k).Some? { ScannedWritable(s.table, k); }
    forall j | 0 <= j < |s'.workers| ensures HoldsOk(s', j) {
      assert HoldsOk(s, j);
    }
  }

  lemma MakeTableOk(s: State, l: Label)
    requires TableOk(s) && Enabled(s, l) && l.Make?
    ensures TableOk(Next(s, l))
  {
    var s' := Next(s, l);
    var k := s.workers[l.i].request.key;
    var c := NewConversation(l.cid, k);
    NewWritable(s, l.cid, k);
    var wrote := l.ok && Upsert(s.table, c).Some?;
    if wrote { UpsertAt(s.table, c, k); }
    forall j | 0 <= j < |s'.workers| ensures HoldsOk(s', j) {
      assert HoldsOk(s, j);
      if wrote { WriteKeepsHolds(s, c, k, s'.issued, j); }
    }
  }

  lemma FinishTableOk(s: State, l: Label)
    requires TableOk(s) && Enabled(s, l) && l.Finish?
    ensures TableOk(Next(s, l))
    ensures var w := s.workers[l.i];
      var c := Filled(w.stage.conv, w.request.msg, w.request.sender, w.request.delta);
      Writable(s.table, c, w.request.key) && RowAt(s.table, w.request.key).Some? && Upsert(s.table, c).Some?
  {
    var s' := Next(s, l);
    var w := s.workers[l.i];
    var k := w.request.key;
    assert HoldsOk(s, l.i);
    var c := Filled(w.stage.conv, w.request.msg, w.request.sender, w.request.delta);
    FilledWritable(s.table, w.stage.conv, k, w.request.msg, w.request.sender, w.request.delta);
    UpsertAt(s.table, c, k);
    forall j | 0 <= j < |s'.workers| ensures HoldsOk(s', j) {
      assert HoldsOk(s, j);
      WriteKeepsHolds(s, c, k, s.issued, j);
    }
  }

  lemma StepTableOk(s: State, l: Label)
    requires TableOk(s) && Enabled(s, l)
    ensures TableOk(Next(s, l))
  {
    match l
    case Look(_, _) => LookTableOk(s, l);
    case Make(_, _, _) => MakeTableOk(s, l);
    case Finish(_, _) => FinishTableOk(s, l);
  }

  lemma {:induction false} RunTableOk(s: State, r: Run)
    requires Initial(s) && ValidRun(s, r)
    ensures TableOk(After(s, r))
  {
    if r.Then? {
      RunTableOk(s, r.before);
      StepTableOk(After(s, r.before), r.last);
    }
  }

  // ---- unread counters

  function Contribution(w: Worker, k: Key): int {
    if w.request.Update? && w.request.key == k && w.stage == Ended(true) then w.request.delta else 0
  }

  /** What the finished updates have added under k. */
  function Written(ws: seq<Worker>, k: Key): int {
    if ws == [] then 0 else Written(ws[..|ws| - 1], k) + Contribution(ws[|ws| - 1], k)
  }

  lemma {:induction false} WrittenAfter(ws: seq<Worker>, i: nat, w: Worker, k: Key)
    requires i < |ws|
    ensures Written(ws[i := w], k) == Written(ws, k) - Contribution(ws[i], k) + Contribution(w, k)
  {
    var n := |ws| - 1;
    if i < n {
      WrittenAfter(ws[..n], i, w, k);
      assert ws[i := w][..n] == ws[..n][i := w];
    } else {
      assert ws[i := w][..n] == ws[..n];
    }
  }

  /** One write under key j, seen at k. */
  lemma WriteAt(t: Table, c: Conversation, j: Key, k: Key)
    requires Sound(t) && Writable(t, c, j)
    ensures Upsert(t, c).Some?
    ensures RowAt(Upsert(t, c).value, k) ==
      if j != k then RowAt(t, k)
      else Some(if RowAt(t, k).Some? then Updated(RowAt(t, k).value, RowOf(c)) else RowOf(c))
  {
    UpsertAt(t, c, j);
    if j != k { UpsertElsewhere(t, c, j, k); }
  }

  lemma StepUnread(s: State, l: Label, k: Key)
    requires TableOk(s) && Enabled(s, l)
    ensures var s' := Next(s, l);
      UnreadAt(s'.table, k) - Written(s'.workers, k) == UnreadAt(s.table, k) - Written(s.workers, k)
  {
    var s' := Next(s, l);
    var w := s.workers[l.i];
    WrittenAfter(s.workers, l.i, s'.workers[l.i], k);
    match l {
      case Look(_, _) =>
      case Make(_, cid, _) =>
        NewWritable(s, cid, w.request.key);
        if Upsert(s.table, NewConversation(cid, w.request.key)).Some? {
          WriteAt(s.table, NewConversation(cid, w.request.key), w.request.key, k);
        }
      case Finish(_, _) =>
        FinishTableOk(s, l);
        WriteAt(s.table, Filled(w.stage.conv, w.request.msg, w.request.sender, w.request.delta), w.request.key, k);
    }
  }

  lemma WrittenNone(ws: seq<Worker>, k: Key)
    requires forall i :: 0 <= i < |ws| ==> ws[i].stage.Start?
    ensures Written(ws, k) == 0
  {
  }

  /** No increment is lost or applied twice, in any interleaving and at every moment: the counter is what
      it was plus the deltas of the updates that have finished. */
  lemma {:induction false} NoLostIncrements(s: State, r: Run, k: Key)
    requires Initial(s) && ValidRun(s, r)
    ensures UnreadAt(After(s, r).table, k) == UnreadAt(s.table, k) + Written(After(s, r).workers, k)
  {
    if r.Begin? {
      WrittenNone(s.workers, k);
    } else {
      NoLostIncrements(s, r.before, k);
      RunTableOk(s, r.before);
      StepUnread(After(s, r.before), r.last, k);
    }
  }

  /** The sum of the deltas the requests ask for under k, whatever their messages: two requests for the same
      message count twice. */
  function Asked(ws: seq<Worker>, k: Key): int {
    if ws == [] then 0
    else
      var w := ws[|ws| - 1];
      Asked(ws[..|ws| - 1], k) + if w.request.Update? && w.request.key == k then w.request.delta else 0
  }

  /** Every update under k has succeeded. */
  predicate AllWrote(ws: seq<Worker>, k: Key) {
    forall i :: 0 <= i < |ws| && ws[i].request.Update? && ws[i].request.key == k ==> ws[i].stage == Ended(true)
  }

  lemma {:induction false} WrittenAll(ws: seq<Worker>, k: Key)
    requires AllWrote(ws, k)
    ensures Written(ws, k) == Asked(ws, k)
  {
    if ws != [] {
      WrittenAll(ws[..|ws| - 1], k);
    }
  }

  lemma SameRequests(s: State, r: Run, k: Key)
    requires ValidRun(s, r)
    ensures |After(s, r).workers| == |s.workers|
    ensures forall i :: 0 <= i < |s.workers| ==> After(s, r).workers[i].request == s.workers[i].request
    ensures Asked(After(s, r).workers, k) == Asked(s.workers, k)
  {
    if r.Then? {
      SameRequests(s, r.before, k);
    }
    AskedSame(s.workers, After(s, r).workers, k);
  }

  lemma AskedSame(ws: seq<Worker>, vs: seq<Worker>, k: Key)
    requires |ws| == |vs| && forall i :: 0 <= i < |ws| ==> ws[i].request == vs[i].request
    ensures Asked(ws, k) == Asked(vs, k)
  {
  }

  /** When every update of a conversation has succeeded, its counter has grown by exactly what was asked for,
      whatever became of other conversations and of API requests. */
  lemma {:induction false} FinalUnread(s: State, r: Run, k: Key)
    requires Initial(s) && ValidRun(s, r) && AllWrote(After(s, r).workers, k)
    ensures UnreadAt(After(s, r).table, k) == UnreadAt(s.table, k) + Asked(s.workers, k)
  {
    NoLostIncrements(s, r, k);
    WrittenAll(After(s, r).workers, k);
    SameRequests(s, r, k);
  }

  /** The guard against handling a message twice compares with a LastMsgId that is always empty, so it
      stops exactly the messages without an id. */
  lemma {:induction false} GuardNeverSeesRepeats(s: State, r: Run, i: nat)
    requires Initial(s) && ValidRun(s, r) && Enabled(After(s, r), Finish(i, true))
    ensures var s' := After(s, r);
      Next(s', Finish(i, true)).workers[i].stage == Ended(s'.workers[i].request.msg.msgId != "")
  {
    RunTableOk(s, r);
    FinishTableOk(After(s, r), Finish(i, true));
    assert HoldsOk(After(s, r), i);
  }

  // ---- the last message

  predicate Shows(r: Row, t: Request)
    requires t.Update?
  {
    r.lastMsgTime == t.msg.sendAt && r.lastMsgContent == t.msg.content && r.lastSenderName == t.sender
  }

  /** What the row under k shows, by who wrote it last. */
  ghost predicate LastOk(t0: Table, s: State, k: Key) {
    if k !in s.writer then RowAt(s.table, k) == RowAt(t0, k)
    else
      && RowAt(s.table, k).Some?
      && s.writer[k].i < |s.workers|
      && var w := s.workers[s.writer[k].i];
         && w.request.key == k
         && match s.writer[k]
            case ByUpdate(_) => w.request.Update? && w.stage == Ended(true) && Shows(RowAt(s.table, k).value, w.request)
            case ByCreate(_) => w.request.Update? && (w.stage == Ended(false) || (w.stage.Holding? && w.stage.created))
            case ByApi(_) => !w.request.Update? && w.stage == Ended(true)
  }

  ghost predicate WriterKnown(s: State) {
    forall i :: 0 <= i < |s.workers| && s.workers[i].request.Update? && s.workers[i].stage == Ended(true) ==>
      s.workers[i].request.key in s.writer
  }

  lemma StepLastOk(t0: Table, s: State, l: Label, k: Key)
    requires TableOk(s) && Enabled(s, l) && LastOk(t0, s, k)
    ensures LastOk(t0, Next(s, l), k)
  {
    var w := s.workers[l.i];
    match l {
      case Look(_, _) =>
      case Make(_, cid, _) =>
        NewWritable(s, cid, w.request.key);
        if Upsert(s.table, NewConversation(cid, w.request.key)).Some? {
          WriteAt(s.table, NewConversation(cid, w.request.key), w.request.key, k);
        }
      case Finish(_, _) =>
        FinishTableOk(s, l);
        WriteAt(s.table, Filled(w.stage.conv, w.request.msg, w.request.sender, w.request.delta), w.request.key, k);
    }
  }

  lemma {:induction false} RunLastOk(s: State, r: Run, k: Key)
    requires Initial(s) && ValidRun(s, r)
    ensures LastOk(s.table, After(s, r), k) && WriterKnown(After(s, r))
  {
    if r.Then? {
      RunLastOk(s, r.before, k);
      RunTableOk(s, r.before);
      StepLastOk(s.table, After(s, r.before), r.last, k);
    }
  }

  /** Once all updates of a conversation have succeeded and no API create or open of it was among the requests, its
      row shows one of its processed messages in full, never the empty values of a create. */
  lemma {:induction false} LastMessageShown(s: State, r: Run, i: nat, k: Key) returns (j: nat)
    requires Initial(s) && ValidRun(s, r) && AllWrote(After(s, r).workers, k)
    requires forall n :: 0 <= n < |s.workers| && s.workers[n].request.key == k ==> s.workers[n].request.Update?
    requires i < |s.workers| && s.workers[i].request.key == k
    ensures j < |s.workers| && s.workers[j].request.Update? && s.workers[j].request.key == k
    ensures RowAt(After(s, r).table, k).Some? && Shows(RowAt(After(s, r).table, k).value, s.workers[j].request)
  {
    RunLastOk(s, r, k);
    SameRequests(s, r, k);
    j := After(s, r).writer[k].i;
  }

  /** Where a row does show the empty values of a create once all requests for it have ended, the call that created
      it failed, or an API request created it. */
  lemma {:induction false} BlankOnlyFrom(s: State, r: Run, k: Key)
    requires Initial(s) && ValidRun(s, r) && k in After(s, r).writer
    requires forall n :: 0 <= n < |After(s, r).workers| && After(s, r).workers[n].request.key == k ==>
               After(s, r).workers[n].stage.Ended?
    ensures var s' := After(s, r);
      var row := RowAt(s'.table, k);
      s'.writer[k].i < |s'.workers| &&
      var w := s'.workers[s'.writer[k].i];
      match s'.writer[k]
      case ByUpdate(_) => w.request.Update? && row.Some? && Shows(row.value, w.request)
      case ByCreate(_) => w.stage == Ended(false)
      case ByApi(_) => !w.request.Update?
  {
    RunLastOk(s, r, k);
    SameRequests(s, r, k);
  }

  /** An API create that comes in under an existing key blanks the preview and keeps the counter. */
  lemma CreateBlanks(s: State, i: nat, cid: string)
    requires TableOk(s) && Enabled(s, Make(i, cid, true)) && RowAt(s.table, s.workers[i].request.key).Some?
    requires Upsert(s.table, NewConversation(cid, s.workers[i].request.key)).Some?
    ensures var k := s.workers[i].request.key;
      var r := RowAt(s.table, k).value;
      RowAt(Next(s, Make(i, cid, true)).table, k) ==
        Some(r.(lastMsgTime := 0, lastMsgContent := "", lastSenderName := ""))
  {
    var k := s.workers[i].request.key;
    NewWritable(s, cid, k);
    WriteAt(s.table, NewConversation(cid, k), k, k);
  }

  // ---- rows

  /** Rows inserted since t0 carry the channel of their key. */
  ghost predicate Channelled(t0: Table, t: Table)
    requires Sound(t)
  {
    forall c :: c in t && c !in t0 ==> t[c].channelId == ChannelOf(KeyOf(t[c]))
  }

  lemma WriteChannelled(t0: Table, t: Table, c: Conversation, k: Key)
    requires Sound(t) && Writable(t, c, k) && Channelled(t0, t)
    requires RowAt(t, k).None? ==> c.channelId == ChannelOf(k)
    ensures Upsert(t, c).Some? && Sound(Upsert(t, c).value) && Channelled(t0, Upsert(t, c).value)
  {
    UpsertAt(t, c, k);
    var t' := Upsert(t, c).value;
    if c.cid in t { FindUnique(t, k, c.cid); }
    forall d | d in t' && d !in t0 ensures t'[d].channelId == ChannelOf(KeyOf(t'[d])) {
      if d in t {
        UpsertKeepsIdentity(t, c);
      }
    }
  }

  lemma StepRows(t0: Table, s: State, l: Label)
    requires TableOk(s) && Enabled(s, l) && Channelled(t0, s.table) && IdentityKept(t0, s.table)
    ensures Sound(Next(s, l).table) && Channelled(t0, Next(s, l).table) && IdentityKept(t0, Next(s, l).table)
  {
    var w := s.workers[l.i];
    match l {
      case Look(_, _) =>
      case Make(_, cid, _) =>
        var c := NewConversation(cid, w.request.key);
        NewWritable(s, cid, w.request.key);
        if Upsert(s.table, c).Some? {
          UpsertKeepsIdentity(s.table, c);
          WriteChannelled(t0, s.table, c, w.request.key);
        }
      case Finish(_, _) =>
        FinishTableOk(s, l);
        var c := Filled(w.stage.conv, w.request.msg, w.request.sender, w.request.delta);
        UpsertKeepsIdentity(s.table, c);
        WriteChannelled(t0, s.table, c, w.request.key);
    }
  }

  /** In every interleaving there is at most one row per (user, peer) and per (user, room), each with
      exactly one of peer and room; new rows carry their key's channel id; and nothing ever rewrites a
      row's key or channel id. */
  lemma {:induction false} TableInvariant(s: State, r: Run)
    requires Initial(s) && ValidRun(s, r)
    ensures Sound(After(s, r).table)
    ensures Channelled(s.table, After(s, r).table) && IdentityKept(s.table, After(s, r).table)
  {
    RunTableOk(s, r);
    if r.Then? {
      TableInvariant(s, r.before);
      RunTableOk(s, r.before);
      StepRows(s.table, After(s, r.before), r.last);
    }
  }
}
