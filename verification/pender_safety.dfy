/** What every run of the pender keeps: one outcome for each successful Pend, bounded and spaced
    retries, no retry after a failure, at most one stale retry after an acknowledgement. */
module PenderSafety {
  import opened Types
  import opened PenderProtocol

  function Ind(b: bool): nat { if b then 1 else 0 }

  ghost function Acks(t: seq<Event>, p: PendMessage): nat { multiset(t)[AckFired(p)] }

  ghost function Fails(t: seq<Event>, p: PendMessage): nat { multiset(t)[FailFired(p)] }

  /** How many OnMsgRetry calls a trace holds for p. */
  ghost function Retries(t: seq<Event>, p: PendMessage): nat {
    if t == [] then 0
    else Retries(t[..|t| - 1], p) + Ind(t[|t| - 1].RetryFired? && t[|t| - 1].p == p)
  }

  lemma RetriesSnoc(t: seq<Event>, e: Event, p: PendMessage)
    ensures Retries(t + [e], p) == Retries(t, p) + Ind(e.RetryFired? && e.p == p)
  {
    assert (t + [e])[..|t|] == t;
  }

  /** The map still holds p; Keyed makes its message's id the only key it can be under. */
  ghost predicate Held(s: State, p: PendMessage)
    requires Closed(s) && p in s.pends
  {
    var id := s.cells[s.pends[p].msg].msgId;
    id in s.msgList && s.msgList[id] == p
  }

  lemma HeldIsInMap(s: State, p: PendMessage)
    requires Closed(s) && Keyed(s) && p in s.pends
    ensures Held(s, p) <==> p in s.msgList.Values
  {
  }

  /** In how many of the five situations a stored message is. */
  ghost function Places(s: State, p: PendMessage): nat
    requires Closed(s) && p in s.pends
  {
    Ind(Held(s, p)) + Ind(p in s.toFail) + Ind(p in s.acking) + Acks(s.trace, p) + Fails(s.trace, p)
  }

  ghost predicate Keyed(s: State)
    requires Closed(s)
  {
    forall k :: k in s.msgList ==> s.cells[s.pends[s.msgList[k]].msg].msgId == k
  }

  ghost predicate Batched(s: State) {
    && Distinct(s.toFail) && Distinct(s.toRetry)
    && (forall p :: p in s.toRetry ==> p !in s.toFail)
  }

  ghost predicate Locked(s: State) {
    && (s.stuck ==> s.owner.Some? && s.owner.value.UnPendOp? && s.owner.value.id !in s.msgList)
    && (s.owner == Some(SweepOp) ==> s.toFail == [] && s.toRetry == [])
  }

  ghost predicate Tracked(s: State) {
    forall i :: 0 <= i < |s.trace| ==> s.trace[i].p in s.pends
  }

  ghost predicate OnePlace(s: State)
    requires Closed(s)
  {
    forall p :: p in s.pends ==> Places(s, p) == 1
  }

  ghost predicate Counted(o: Opts, s: State)
    requires Closed(s)
  {
    && (forall p :: p in s.pends ==>
          && s.pends[p].retryCount == Retries(s.trace, p)
          && (s.pends[p].retryCount <= o.maxRetry || s.pends[p].retryCount == 0))
    && (forall p :: p in s.toRetry ==> s.pends[p].retryCount < o.maxRetry && Fails(s.trace, p) == 0)
  }

  ghost predicate FinalFailure(t: seq<Event>) {
    forall i, j :: 0 <= i < j < |t| && t[i].FailFired? && t[j].RetryFired? ==> t[i].p != t[j].p
  }

  ghost predicate Stale(s: State)
    requires Closed(s) && Tracked(s)
  {
    forall i :: 0 <= i < |s.trace| && (s.trace[i].Removed? || s.trace[i].AckFired?) ==>
      && !Held(s, s.trace[i].p)
      && Retries(s.trace[i..], s.trace[i].p) + Ind(s.trace[i].p in s.toRetry) <= 1
  }

  ghost predicate SpacedTrace(o: Opts, t: seq<Event>) {
    forall i, j :: 0 <= i < j < |t| && (t[i].Accepted? || t[i].RetryFired?) && t[j].RetryFired? && t[i].p == t[j].p ==>
      t[j].at >= t[i].at + o.retryInterval
  }

  ghost predicate Spaced(o: Opts, s: State)
    requires Closed(s)
  {
    && SpacedTrace(o, s.trace)
    && (forall i :: 0 <= i < |s.trace| && (s.trace[i].Accepted? || s.trace[i].RetryFired?) ==>
          s.trace[i].p in s.pends && s.trace[i].at <= s.pends[s.trace[i].p].lastRetryAt)
    && (forall p :: p in s.toRetry ==> s.now >= s.pends[p].lastRetryAt + o.retryInterval)
    && (forall p :: p in s.pends ==> s.pends[p].lastRetryAt <= s.now)
  }

  ghost predicate Inv(o: Opts, s: State) {
    && Closed(s) && Keyed(s) && Batched(s) && Locked(s) && Tracked(s) && OnePlace(s)
    && Counted(o, s) && FinalFailure(s.trace) && Stale(s) && Spaced(o, s)
  }

  // ---- a scan

  /** Deleting by the ids read from the message objects deletes exactly the failed entries. */
  lemma ScanDeletes(o: Opts, s: State, l: Label)
    requires Closed(s) && Keyed(s) && l.DoScan? && Enabled(o, s, l)
    ensures forall k :: k in s.msgList ==> (s.msgList[k] in l.fails <==> JudgeAt(o, s, k, l.readings) == Fail)
    ensures forall k :: k in s.msgList ==> (s.msgList[k] in l.retries <==> JudgeAt(o, s, k, l.readings) == Retry)
    ensures forall k :: k in s.msgList ==> (k in CurrentIds(s, l.fails) <==> s.msgList[k] in l.fails)
    ensures forall p :: p in l.fails ==> Held(s, p)
    ensures forall p :: p in l.retries ==> Held(s, p)
  {
    forall k | k in s.msgList
      ensures s.msgList[k] in l.fails <==> JudgeAt(o, s, k, l.readings) == Fail
      ensures s.msgList[k] in l.retries <==> JudgeAt(o, s, k, l.readings) == Retry
    {
      var p := s.msgList[k];
      assert forall k' :: k' in s.msgList && s.msgList[k'] == p ==> k' == k;
    }
    forall k | k in s.msgList
      ensures k in CurrentIds(s, l.fails) <==> s.msgList[k] in l.fails
    {
      if k in CurrentIds(s, l.fails) {
        var p :| p in l.fails && s.cells[s.pends[p].msg].msgId == k;
        assert p in Selected(o, s, l.readings, Fail);
      }
    }
  }

  lemma ScanMoves(o: Opts, s: State, l: Label, p: PendMessage)
    requires Closed(s) && Keyed(s) && l.DoScan? && Enabled(o, s, l) && p in s.pends
    ensures var s' := Next(o, s, l);
      && Held(s', p) == (Held(s, p) && p !in l.fails)
      && (p in l.fails ==> Held(s, p))
      && (p in l.retries ==> Held(s, p) && p !in l.fails && s.pends[p].retryCount < o.maxRetry
                             && s'.now >= s.pends[p].lastRetryAt + o.retryInterval)
  {
    ScanDeletes(o, s, l);
  }

  lemma ScanPlaces(o: Opts, s: State, l: Label)
    requires Inv(o, s) && l.DoScan? && Enabled(o, s, l)
    ensures OnePlace(Next(o, s, l))
  {
    var s' := Next(o, s, l);
    forall p | p in s'.pends ensures Places(s', p) == 1 {
      ScanMoves(o, s, l, p);
      assert Places(s, p) == 1;
    }
  }

  lemma ScanStale(o: Opts, s: State, l: Label)
    requires Inv(o, s) && l.DoScan? && Enabled(o, s, l)
    ensures Stale(Next(o, s, l))
  {
    var s' := Next(o, s, l);
    forall i | 0 <= i < |s'.trace| && (s'.trace[i].Removed? || s'.trace[i].AckFired?)
      ensures !Held(s', s'.trace[i].p) && Retries(s'.trace[i..], s'.trace[i].p) + Ind(s'.trace[i].p in s'.toRetry) <= 1
    {
      ScanMoves(o, s, l, s.trace[i].p);
    }
  }

  lemma StepScan(o: Opts, s: State, l: Label)
    requires Inv(o, s) && l.DoScan? && Enabled(o, s, l)
    ensures Inv(o, Next(o, s, l))
  {
    var s' := Next(o, s, l);
    ScanPlaces(o, s, l);
    ScanStale(o, s, l);
    assert Counted(o, s') by {
      forall p | p in s'.toRetry ensures s'.pends[p].retryCount < o.maxRetry && Fails(s'.trace, p) == 0 {
        ScanMoves(o, s, l, p);
        assert Places(s, p) == 1;
      }
    }
    assert Batched(s') && Spaced(o, s') by {
      forall p | p in s'.toRetry
        ensures p !in s'.toFail && s'.now >= s'.pends[p].lastRetryAt + o.retryInterval
      {
        ScanMoves(o, s, l, p);
      }
    }
  }

  // ---- steps that add an event

  lemma RetriesAbsent(t: seq<Event>, p: PendMessage)
    requires forall i :: 0 <= i < |t| ==> t[i].p != p
    ensures Retries(t, p) == 0
  {
  }

  lemma SuffixSnoc(t: seq<Event>, e: Event, i: nat, p: PendMessage)
    requires i <= |t|
    ensures Retries((t + [e])[i..], p) == Retries(t[i..], p) + Ind(e.RetryFired? && e.p == p)
  {
    assert (t + [e])[i..] == t[i..] + [e];
    RetriesSnoc(t[i..], e, p);
  }

  /** What a step does that adds one event, as far as the history invariants care. */
  ghost predicate Emits(s: State, s': State, e: Event)
    requires Closed(s) && Closed(s')
  {
    && s'.trace == s.trace + [e]
    && e.p in s'.pends
    && (forall p :: p in s.pends ==> p in s'.pends && (Held(s', p) ==> Held(s, p)))
    && (e.RetryFired? ==> s.toRetry != [] && s.toRetry[0] == e.p && s'.toRetry == s.toRetry[1..])
    && (!e.RetryFired? ==> s'.toRetry == s.toRetry)
    && (e.Removed? || e.AckFired? ==> !Held(s', e.p))
  }

  lemma EmitStale(s: State, s': State, e: Event)
    requires Closed(s) && Closed(s') && Tracked(s) && Tracked(s') && Stale(s) && Batched(s) && Emits(s, s', e)
    ensures Stale(s')
  {
    forall i | 0 <= i < |s'.trace| && (s'.trace[i].Removed? || s'.trace[i].AckFired?)
      ensures !Held(s', s'.trace[i].p) && Retries(s'.trace[i..], s'.trace[i].p) + Ind(s'.trace[i].p in s'.toRetry) <= 1
    {
      SuffixSnoc(s.trace, e, i, s'.trace[i].p);
      if i < |s.trace| {
        assert s'.trace[i] == s.trace[i];
        if e.RetryFired? { HeadOnce(s.toRetry); }
      } else {
        assert s.trace[i..] == [];
      }
    }
  }

  lemma HeadOnce(xs: seq<PendMessage>)
    requires Distinct(xs) && xs != []
    ensures xs[0] !in xs[1..] && Distinct(xs[1..])
    ensures forall p :: p in xs <==> p == xs[0] || p in xs[1..]
  {
  }

  lemma EmitCounted(o: Opts, s: State, s': State, e: Event)
    requires Closed(s) && Closed(s') && Tracked(s) && Batched(s) && Counted(o, s) && Emits(s, s', e)
    requires forall p :: p in s.pends && p != e.p ==> s'.pends[p] == s.pends[p]
    requires forall p :: p in s'.pends && p != e.p ==> p in s.pends
    requires if e.p in s.pends
      then s'.pends[e.p].retryCount == s.pends[e.p].retryCount + Ind(e.RetryFired?)
      else e.Accepted? && s'.pends[e.p].retryCount == 0
    requires e.FailFired? ==> e.p !in s'.toRetry
    ensures Counted(o, s')
  {
    forall p | p in s'.pends
      ensures s'.pends[p].retryCount == Retries(s'.trace, p)
      ensures s'.pends[p].retryCount <= o.maxRetry || s'.pends[p].retryCount == 0
    {
      RetriesSnoc(s.trace, e, p);
      if p !in s.pends { RetriesAbsent(s.trace, p); }
    }
    if s.toRetry != [] { HeadOnce(s.toRetry); }
    forall p | p in s'.toRetry
      ensures s'.pends[p].retryCount < o.maxRetry && Fails(s'.trace, p) == 0
    {
      assert p in s.toRetry;
    }
  }

  lemma EmitOrder(s: State, s': State, e: Event)
    requires Closed(s) && Closed(s') && Tracked(s) && FinalFailure(s.trace) && Emits(s, s', e)
    requires e.RetryFired? ==> FailFired(e.p) !in s.trace
    ensures Tracked(s') && FinalFailure(s'.trace)
  {
    forall i | 0 <= i < |s'.trace| ensures s'.trace[i].p in s'.pends {
      if i < |s.trace| { assert s'.trace[i] == s.trace[i]; }
    }
    forall i, j | 0 <= i < j < |s'.trace| && s'.trace[i].FailFired? && s'.trace[j].RetryFired?
      ensures s'.trace[i].p != s'.trace[j].p
    {
      assert s'.trace[i] == s.trace[i];
      assert s.trace[i] in s.trace;
      if j < |s.trace| { assert s'.trace[j] == s.trace[j]; }
    }
  }

  lemma EmitSpaced(o: Opts, s: State, s': State, e: Event)
    requires Closed(s) && Closed(s') && Tracked(s) && Spaced(o, s) && Emits(s, s', e) && s'.now == s.now
    requires forall p :: p in s.pends && p != e.p ==> s'.pends[p] == s.pends[p]
    requires forall p :: p in s'.pends && p != e.p ==> p in s.pends
    requires s'.pends[e.p].lastRetryAt ==
      if e.Accepted? || e.RetryFired? then s.now else if e.p in s.pends then s.pends[e.p].lastRetryAt else s.now
    requires e.Accepted? || e.RetryFired? ==> e.at == s.now
    requires e.Accepted? <==> e.p !in s.pends
    requires e.p in s'.toRetry ==> !e.RetryFired?
    ensures Spaced(o, s')
  {
    forall i | 0 <= i < |s'.trace| && (s'.trace[i].Accepted? || s'.trace[i].RetryFired?)
      ensures s'.trace[i].p in s'.pends && s'.trace[i].at <= s'.pends[s'.trace[i].p].lastRetryAt
    {
      if i < |s.trace| {
        assert s'.trace[i] == s.trace[i];
        assert s.trace[i].at <= s.pends[s.trace[i].p].lastRetryAt <= s.now;
      }
    }
    forall i, j | 0 <= i < j < |s'.trace| && (s'.trace[i].Accepted? || s'.trace[i].RetryFired?)
                  && s'.trace[j].RetryFired? && s'.trace[i].p == s'.trace[j].p
      ensures s'.trace[j].at >= s'.trace[i].at + o.retryInterval
    {
      assert s'.trace[i] == s.trace[i];
      if j < |s.trace| {
        assert s'.trace[j] == s.trace[j];
      } else {
        assert e.p in s.toRetry;
      }
    }
  }

  /** The part of a step that is read off its definition: an event, and the entry it concerns. */
  ghost predicate EventStep(o: Opts, s: State, s': State, e: Event)
    requires Closed(s) && Closed(s')
  {
    && Emits(s, s', e)
    && s'.now == s.now
    && (forall p :: p in s.pends && p != e.p ==> s'.pends[p] == s.pends[p])
    && (forall p :: p in s'.pends && p != e.p ==> p in s.pends)
    && (e.Accepted? <==> e.p !in s.pends)
    && (e.Accepted? ==> s'.pends[e.p].retryCount == 0 && s'.pends[e.p].lastRetryAt == e.at == s.now)
    && (e.RetryFired? ==> s'.pends[e.p] == Entry(s.pends[e.p].retryCount + 1, s.now, s.pends[e.p].msg) && e.at == s.now)
    && (!e.Accepted? && !e.RetryFired? ==> s'.pends[e.p] == s.pends[e.p])
    && (e.RetryFired? ==> FailFired(e.p) !in s.trace)
    && (e.FailFired? || e.RetryFired? ==> e.p !in s'.toRetry)
  }

  lemma EventStepInv(o: Opts, s: State, s': State, e: Event)
    requires Inv(o, s) && Closed(s') && EventStep(o, s, s', e)
    requires Keyed(s') && Batched(s') && Locked(s') && OnePlace(s')
    ensures Inv(o, s')
  {
    EmitCounted(o, s, s', e);
    EmitOrder(s, s', e);
    EmitStale(s, s', e);
    EmitSpaced(o, s, s', e);
  }

  /** How one entry's places change with a step, by what the step does to the map, the two hand-overs and the trace. */
  lemma PlacesMove(s: State, s': State, p: PendMessage, added: seq<Event>)
    requires Closed(s) && Closed(s') && p in s.pends && p in s'.pends && s'.trace == s.trace + added
    ensures Places(s', p) == Places(s, p)
      + Ind(Held(s', p)) - Ind(Held(s, p))
      + Ind(p in s'.toFail) - Ind(p in s.toFail)
      + Ind(p in s'.acking) - Ind(p in s.acking)
      + Acks(added, p) + Fails(added, p)
  {
  }

  lemma UnPendMoves(o: Opts, s: State, l: Label, p: PendMessage)
    requires Closed(s) && Keyed(s) && l.DoUnPend? && Enabled(o, s, l) && s.owner.value.id in s.msgList && p in s.pends
    ensures var s' := Next(o, s, l);
      var q := s.msgList[s.owner.value.id];
      && Held(s, q) && Held(s', p) == (Held(s, p) && p != q)
      && s'.pends == s.pends && s'.toFail == s.toFail && s'.acking == s.acking + {q}
      && s'.trace == s.trace + [Removed(q)]
  {
  }

  lemma CallbackMoves(o: Opts, s: State, l: Label, p: PendMessage)
    requires Closed(s) && Enabled(o, s, l) && (l.AckCallback? || l.FailCallback? || l.RetryCallback?) && p in s.pends
    ensures var s' := Next(o, s, l);
      && p in s'.pends && s'.pends.Keys == s.pends.Keys && Held(s', p) == Held(s, p)
      && s'.acking == (if l.AckCallback? then s.acking - {l.p} else s.acking)
      && s'.toFail == (if l.FailCallback? then s.toFail[1..] else s.toFail)
      && s'.trace == s.trace + [if l.AckCallback? then AckFired(l.p)
                                else if l.FailCallback? then FailFired(s.toFail[0])
                                else RetryFired(s.toRetry[0], s.now)]
  {
  }

  lemma PendEvent(o: Opts, s: State, l: Label)
    requires Inv(o, s) && l.DoPend? && Enabled(o, s, l)
    ensures var s' := Next(o, s, l);
      EventStep(o, s, s', Accepted(l.p, s.now)) && Keyed(s') && Batched(s') && Locked(s')
  {
  }

  lemma PendPlaces(o: Opts, s: State, l: Label)
    requires Inv(o, s) && l.DoPend? && Enabled(o, s, l)
    ensures OnePlace(Next(o, s, l))
  {
    var s' := Next(o, s, l);
    forall p | p in s'.pends ensures Places(s', p) == 1 {
      if p != l.p {
        assert Places(s, p) == 1;
      } else {
        assert AckFired(p) !in s.trace && FailFired(p) !in s.trace;
      }
    }
  }

  lemma UnPendEvent(o: Opts, s: State, l: Label)
    requires Inv(o, s) && l.DoUnPend? && Enabled(o, s, l) && s.owner.value.id in s.msgList
    ensures var s' := Next(o, s, l);
      EventStep(o, s, s', Removed(s.msgList[s.owner.value.id])) && Keyed(s') && Batched(s') && Locked(s')
  {
  }

  lemma UnPendPlaces(o: Opts, s: State, l: Label)
    requires Closed(s) && Keyed(s) && OnePlace(s)
    requires l.DoUnPend? && Enabled(o, s, l) && s.owner.value.id in s.msgList
    ensures OnePlace(Next(o, s, l))
  {
    var s' := Next(o, s, l);
    forall p | p in s'.pends ensures Places(s', p) == 1 {
      UnPendMoves(o, s, l, p);
      PlacesMove(s, s', p, [Removed(s.msgList[s.owner.value.id])]);
      assert Places(s, p) == 1;
    }
  }

  lemma CallbackShape(o: Opts, s: State, l: Label)
    requires Closed(s) && Keyed(s) && Batched(s) && Locked(s)
    requires Enabled(o, s, l) && (l.AckCallback? || l.FailCallback? || l.RetryCallback?)
    ensures Keyed(Next(o, s, l)) && Batched(Next(o, s, l)) && Locked(Next(o, s, l))
  {
    if l.FailCallback? {
      HeadOnce(s.toFail);
    } else if l.RetryCallback? {
      HeadOnce(s.toRetry);
    }
  }

  lemma AckEvent(o: Opts, s: State, l: Label)
    requires Inv(o, s) && l.AckCallback? && Enabled(o, s, l)
    ensures EventStep(o, s, Next(o, s, l), AckFired(l.p))
  {
    assert Places(s, l.p) == 1;
  }

  lemma AckPlaces(o: Opts, s: State, l: Label)
    requires Closed(s) && OnePlace(s) && l.AckCallback? && Enabled(o, s, l)
    ensures OnePlace(Next(o, s, l))
  {
    var s' := Next(o, s, l);
    forall p | p in s'.pends ensures Places(s', p) == 1 {
      CallbackMoves(o, s, l, p);
      PlacesMove(s, s', p, [AckFired(l.p)]);
      assert Places(s, p) == 1;
    }
  }

  lemma FailEvent(o: Opts, s: State, l: Label)
    requires Inv(o, s) && l.FailCallback? && Enabled(o, s, l)
    ensures EventStep(o, s, Next(o, s, l), FailFired(s.toFail[0]))
  {
    HeadOnce(s.toFail);
  }

  lemma FailPlaces(o: Opts, s: State, l: Label)
    requires Closed(s) && Batched(s) && OnePlace(s) && l.FailCallback? && Enabled(o, s, l)
    ensures OnePlace(Next(o, s, l))
  {
    var s' := Next(o, s, l);
    HeadOnce(s.toFail);
    forall p | p in s'.pends ensures Places(s', p) == 1 {
      CallbackMoves(o, s, l, p);
      PlacesMove(s, s', p, [FailFired(s.toFail[0])]);
      assert Places(s, p) == 1;
    }
  }

  lemma RetryEvent(o: Opts, s: State, l: Label)
    requires Inv(o, s) && l.RetryCallback? && Enabled(o, s, l)
    ensures EventStep(o, s, Next(o, s, l), RetryFired(s.toRetry[0], s.now))
  {
    HeadOnce(s.toRetry);
    assert Fails(s.trace, s.toRetry[0]) == 0;
  }

  lemma RetryPlaces(o: Opts, s: State, l: Label)
    requires Closed(s) && OnePlace(s) && l.RetryCallback? && Enabled(o, s, l)
    ensures OnePlace(Next(o, s, l))
  {
    var s' := Next(o, s, l);
    forall p | p in s'.pends ensures Places(s', p) == 1 {
      CallbackMoves(o, s, l, p);
      PlacesMove(s, s', p, [RetryFired(s.toRetry[0], s.now)]);
      assert Places(s, p) == 1;
    }
  }

  /** Steps that add no event. */
  lemma StepPlain(o: Opts, s: State, l: Label)
    requires Inv(o, s) && (l.Tick? || l.Alloc? || l.Write? || l.Lock?) && Enabled(o, s, l)
    ensures Inv(o, Next(o, s, l))
  {
    PlainPlaces(o, s, l);
    PlainHistory(o, s, l);
  }

  lemma PlainHistory(o: Opts, s: State, l: Label)
    requires Inv(o, s) && (l.Tick? || l.Alloc? || l.Write? || l.Lock?) && Enabled(o, s, l)
    ensures var s' := Next(o, s, l); Counted(o, s') && Stale(s') && Spaced(o, s')
  {
  }

  lemma PlainPlaces(o: Opts, s: State, l: Label)
    requires Closed(s) && OnePlace(s) && (l.Tick? || l.Alloc? || l.Write? || l.Lock?) && Enabled(o, s, l)
    ensures OnePlace(Next(o, s, l))
  {
    var s' := Next(o, s, l);
    forall p | p in s'.pends ensures Places(s', p) == 1 {
      assert Places(s, p) == 1 && Held(s', p) == Held(s, p);
    }
  }

  lemma StepCallback(o: Opts, s: State, l: Label)
    requires Inv(o, s) && (l.AckCallback? || l.FailCallback? || l.RetryCallback?) && Enabled(o, s, l)
    ensures Inv(o, Next(o, s, l))
  {
    CallbackShape(o, s, l);
    if l.AckCallback? {
      AckEvent(o, s, l);
      AckPlaces(o, s, l);
      EventStepInv(o, s, Next(o, s, l), AckFired(l.p));
    } else if l.FailCallback? {
      FailEvent(o, s, l);
      FailPlaces(o, s, l);
      EventStepInv(o, s, Next(o, s, l), FailFired(s.toFail[0]));
    } else {
      RetryEvent(o, s, l);
      RetryPlaces(o, s, l);
      EventStepInv(o, s, Next(o, s, l), RetryFired(s.toRetry[0], s.now));
    }
  }

  lemma StepBody(o: Opts, s: State, l: Label)
    requires Inv(o, s) && (l.RefusePend? || l.DoPend? || l.DoUnPend?) && Enabled(o, s, l)
    ensures Inv(o, Next(o, s, l))
  {
    if l.DoPend? {
      PendEvent(o, s, l);
      PendPlaces(o, s, l);
      EventStepInv(o, s, Next(o, s, l), Accepted(l.p, s.now));
    } else if l.RefusePend? {
      StepUnchanged(o, s, Next(o, s, l));
    } else {
      if s.owner.value.id in s.msgList {
        UnPendEvent(o, s, l);
        UnPendPlaces(o, s, l);
        EventStepInv(o, s, Next(o, s, l), Removed(s.msgList[s.owner.value.id]));
      } else {
        StepUnchanged(o, s, Next(o, s, l));
      }
    }
  }

  /** A step that only moves the lock. */
  lemma StepUnchanged(o: Opts, s: State, s': State)
    requires Inv(o, s) && Closed(s') && s' == s.(owner := s'.owner, stuck := s'.stuck) && Locked(s')
    ensures Inv(o, s')
  {
    forall p | p in s'.pends ensures Places(s', p) == 1 {
      assert Places(s, p) == 1;
    }
  }

  lemma StepInv(o: Opts, s: State, l: Label)
    requires Inv(o, s) && Enabled(o, s, l)
    ensures Inv(o, Next(o, s, l))
  {
    match l
    case DoScan(_, _, _, _) => StepScan(o, s, l);
    case RefusePend => StepBody(o, s, l);
    case DoPend(_) => StepBody(o, s, l);
    case DoUnPend => StepBody(o, s, l);
    case AckCallback(_) => StepCallback(o, s, l);
    case FailCallback => StepCallback(o, s, l);
    case RetryCallback => StepCallback(o, s, l);
    case _ => StepPlain(o, s, l);
  }

  lemma {:induction false} RunInv(o: Opts, s: State, r: Run)
    requires Inv(o, s) && ValidRun(o, s, r)
    ensures Inv(o, After(o, s, r))
  {
    if r.Then? {
      RunInv(o, s, r.before);
      StepInv(o, After(o, s, r.before), r.last);
    }
  }
}
