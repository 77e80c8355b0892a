/** The promises of the pender over whole runs from its initial state: outcomes, conservation,
    retry bounds, residence bounds and lock discipline. */
module PenderTheorems {
  import opened Types
  import opened PenderProtocol
  import opened PenderSafety

  lemma InitInv(o: Opts)
    ensures Inv(o, INIT)
  {
  }

  // ---- outcomes

  /** A stored message is acknowledged or failed at most once and never both, and it has an outcome
      exactly when it has left the map and every hand-over. */
  lemma {:induction false} OneOutcome(o: Opts, r: Run, p: PendMessage)
    requires ValidRun(o, INIT, r) && p in After(o, INIT, r).pends
    ensures var s := After(o, INIT, r);
      && Acks(s.trace, p) + Fails(s.trace, p) <= 1
      && (Acks(s.trace, p) + Fails(s.trace, p) == 1 <==>
            p !in s.msgList.Values && p !in s.toFail && p !in s.acking)
  {
    InitInv(o);
    RunInv(o, INIT, r);
    var s := After(o, INIT, r);
    HeldIsInMap(s, p);
    assert Places(s, p) == 1;
  }

  /** The map's keys are the ids its messages have now, although the objects are shared and written. */
  lemma {:induction false} KeysAreIds(o: Opts, r: Run, k: string)
    requires ValidRun(o, INIT, r) && k in After(o, INIT, r).msgList
    ensures var s := After(o, INIT, r); s.cells[s.pends[s.msgList[k]].msg].msgId == k
  {
    InitInv(o);
    RunInv(o, INIT, r);
  }

  function Calls(t: seq<Event>, which: Event -> bool): nat {
    if t == [] then 0 else Calls(t[..|t| - 1], which) + Ind(which(t[|t| - 1]))
  }

  function Pended(t: seq<Event>): nat { Calls(t, (e: Event) => e.Accepted?) }

  function AckCalls(t: seq<Event>): nat { Calls(t, (e: Event) => e.AckFired?) }

  function FailCalls(t: seq<Event>): nat { Calls(t, (e: Event) => e.FailFired?) }

  ghost predicate Conserved(s: State) {
    Pended(s.trace) == |s.msgList| + |s.toFail| + |s.acking| + AckCalls(s.trace) + FailCalls(s.trace)
  }

  lemma CallsSnoc(t: seq<Event>, e: Event)
    ensures Pended(t + [e]) == Pended(t) + Ind(e.Accepted?)
    ensures AckCalls(t + [e]) == AckCalls(t) + Ind(e.AckFired?)
    ensures FailCalls(t + [e]) == FailCalls(t) + Ind(e.FailFired?)
  {
    assert (t + [e])[..|t|] == t;
  }

  /** Distinct entries are under distinct ids. */
  lemma {:induction false} IdsOf(o: Opts, s: State, ps: seq<PendMessage>)
    requires Inv(o, s) && Distinct(ps) && forall p :: p in ps ==> p in s.pends && Held(s, p)
    ensures |CurrentIds(s, ps)| == |ps|
  {
    if ps != [] {
      HeadOnce(ps);
      IdsOf(o, s, ps[1..]);
      var id := s.cells[s.pends[ps[0]].msg].msgId;
      assert CurrentIds(s, ps) == CurrentIds(s, ps[1..]) + {id};
      forall q | q in ps[1..] ensures s.cells[s.pends[q].msg].msgId != id {
        assert Held(s, q) && Held(s, ps[0]);
      }
    }
  }

  lemma HeldNotAcking(o: Opts, s: State, id: string)
    requires Inv(o, s) && id in s.msgList
    ensures s.msgList[id] in s.pends && s.msgList[id] !in s.acking
  {
    assert Held(s, s.msgList[id]) && Places(s, s.msgList[id]) == 1;
  }

  lemma UnPendConserved(o: Opts, s: State, l: Label)
    requires Closed(s) && Conserved(s) && Enabled(o, s, l) && l.DoUnPend? && s.owner.value.id in s.msgList
    requires s.msgList[s.owner.value.id] !in s.acking
    ensures Conserved(Next(o, s, l))
  {
    var id := s.owner.value.id;
    var s' := Next(o, s, l);
    CallsSnoc(s.trace, Removed(s.msgList[id]));
    assert s'.msgList.Keys == s.msgList.Keys - {id};
  }

  lemma ScanConserved(o: Opts, s: State, l: Label)
    requires Inv(o, s) && Conserved(s) && Enabled(o, s, l) && l.DoScan?
    ensures Conserved(Next(o, s, l))
  {
    ScanDeletes(o, s, l);
    var gone := CurrentIds(s, l.fails);
    assert |gone| == |l.fails| by { IdsOf(o, s, l.fails); }
    assert gone <= s.msgList.Keys;
    assert Next(o, s, l).msgList.Keys == s.msgList.Keys - gone;
  }

  lemma CallbackConserved(o: Opts, s: State, l: Label)
    requires Inv(o, s) && Conserved(s) && Enabled(o, s, l) && (l.AckCallback? || l.FailCallback? || l.RetryCallback?)
    ensures Conserved(Next(o, s, l))
  {
    if l.AckCallback? {
      CallsSnoc(s.trace, AckFired(l.p));
    } else if l.FailCallback? {
      CallsSnoc(s.trace, FailFired(s.toFail[0]));
    } else {
      CallsSnoc(s.trace, RetryFired(s.toRetry[0], s.now));
    }
  }

  lemma StepConserved(o: Opts, s: State, l: Label)
    requires Inv(o, s) && Conserved(s) && Enabled(o, s, l)
    ensures Conserved(Next(o, s, l))
  {
    match l {
      case DoPend(p) => CallsSnoc(s.trace, Accepted(p, s.now));
      case DoUnPend =>
        if s.owner.value.id in s.msgList {
          HeldNotAcking(o, s, s.owner.value.id);
          UnPendConserved(o, s, l);
        }
      case DoScan(_, _, _, _) => ScanConserved(o, s, l);
      case AckCallback(_) => CallbackConserved(o, s, l);
      case FailCallback => CallbackConserved(o, s, l);
      case RetryCallback => CallbackConserved(o, s, l);
      case _ => QuietConserved(o, s, l);
    }
  }

  lemma QuietConserved(o: Opts, s: State, l: Label)
    requires Closed(s) && Conserved(s) && Enabled(o, s, l)
    requires l.Tick? || l.Alloc? || l.Write? || l.Lock? || l.RefusePend?
    ensures Conserved(Next(o, s, l))
  {
  }

  /** Successful Pends = still in the map + awaiting a callback + acknowledged + failed. */
  lemma {:induction false} Conservation(o: Opts, r: Run)
    requires ValidRun(o, INIT, r)
    ensures Conserved(After(o, INIT, r))
  {
    InitInv(o);
    if r.Then? {
      Conservation(o, r.before);
      RunInv(o, INIT, r.before);
      StepConserved(o, After(o, INIT, r.before), r.last);
    }
  }

  // ---- what one step does to one entry

  lemma StepEntry(o: Opts, s: State, l: Label, p: PendMessage)
    requires Inv(o, s) && Enabled(o, s, l) && p in s.pends
    ensures var s' := Next(o, s, l);
      && p in s'.pends
      && s'.pends[p].msg == s.pends[p].msg
      && s'.cells[s.pends[p].msg].sendAt == s.cells[s.pends[p].msg].sendAt
      && s'.cells[s.pends[p].msg].msgId == s.cells[s.pends[p].msg].msgId
      && (Held(s', p) ==> Held(s, p))
  {
    if l.DoScan? {
      ScanMoves(o, s, l, p);
    }
  }

  lemma StepRetries(o: Opts, s: State, l: Label, p: PendMessage)
    requires Inv(o, s) && Enabled(o, s, l) && p in s.pends && !Held(s, p) && p !in s.toRetry
    ensures p !in Next(o, s, l).toRetry && Retries(Next(o, s, l).trace, p) == Retries(s.trace, p)
  {
    var s' := Next(o, s, l);
    match l {
      case DoPend(q) => RetriesSnoc(s.trace, Accepted(q, s.now), p);
      case DoUnPend =>
        if s.owner.value.id in s.msgList { RetriesSnoc(s.trace, Removed(s.msgList[s.owner.value.id]), p); }
      case DoScan(_, _, _, _) => ScanMoves(o, s, l, p);
      case AckCallback(q) => RetriesSnoc(s.trace, AckFired(q), p);
      case FailCallback => RetriesSnoc(s.trace, FailFired(s.toFail[0]), p);
      case RetryCallback => RetriesSnoc(s.trace, RetryFired(s.toRetry[0], s.now), p);
      case _ =>
    }
  }

  // ---- retries

  function RetryLimit(o: Opts): nat { if o.maxRetry > 0 then o.maxRetry else 0 }

  /** At most MaxRetry retries; none after the failure; at most one once UnPend has removed the
      entry; and RetryInterval between the Pend and every retry, and between any two retries. */
  lemma {:induction false} RetriesBounded(o: Opts, r: Run, p: PendMessage)
    requires ValidRun(o, INIT, r)
    ensures var t := After(o, INIT, r).trace;
      && Retries(t, p) <= RetryLimit(o)
      && FinalFailure(t)
      && (forall i :: 0 <= i < |t| && (t[i] == Removed(p) || t[i] == AckFired(p)) ==> Retries(t[i..], p) <= 1)
      && SpacedTrace(o, t)
  {
    InitInv(o);
    RunInv(o, INIT, r);
    var s := After(o, INIT, r);
    if p !in s.pends {
      RetriesAbsent(s.trace, p);
    }
  }

  /** The one retry that may still fire after UnPend comes from the batch collected before it:
      from a state where UnPend has removed p and p is in no batch, no run retries it. */
  lemma {:induction false} NoFurtherRetry(o: Opts, s: State, r: Run, p: PendMessage)
    requires Inv(o, s) && ValidRun(o, s, r)
    requires p in s.pends && !Held(s, p) && p !in s.toRetry
    ensures var s' := After(o, s, r);
      p in s'.pends && !Held(s', p) && p !in s'.toRetry && Retries(s'.trace, p) == Retries(s.trace, p)
  {
    if r.Then? {
      NoFurtherRetry(o, s, r.before, p);
      RunInv(o, s, r.before);
      var m := After(o, s, r.before);
      StepEntry(o, m, r.last, p);
      StepRetries(o, m, r.last, p);
    }
  }

  // ---- residence

  /** What a scan keeps: an entry stays exactly when its own reading is before SendAt + TTL and
      fewer than MaxRetry retries have fired for it, and is then queued for OnMsgRetry exactly when the interval
      since its last attempt has passed; otherwise it is queued for OnMsgFailed. */
  lemma ScanVerdict(o: Opts, s: State, l: Label, k: string)
    requires Inv(o, s) && l.DoScan? && Enabled(o, s, l) && k in s.msgList
    ensures var p := s.msgList[k];
      var s' := Next(o, s, l);
      && (k in s'.msgList <==>
            l.readings[k].expiry < s.cells[s.pends[p].msg].sendAt + o.ttl && Retries(s.trace, p) < o.maxRetry)
      && (k !in s'.msgList <==> p in s'.toFail)
      && (p in s'.toRetry <==>
            k in s'.msgList && l.readings[k].retry >= s.pends[p].lastRetryAt + o.retryInterval)
  {
    ScanDeletes(o, s, l);
  }

  /** Once out of the map, an entry never returns. */
  lemma {:induction false} LeftForGood(o: Opts, s: State, r: Run, p: PendMessage)
    requires Inv(o, s) && ValidRun(o, s, r) && p in s.pends
    ensures var s' := After(o, s, r);
      && p in s'.pends
      && s'.pends[p].msg == s.pends[p].msg
      && s'.cells[s.pends[p].msg].sendAt == s.cells[s.pends[p].msg].sendAt
      && s'.cells[s.pends[p].msg].msgId == s.cells[s.pends[p].msg].msgId
      && (Held(s', p) ==> Held(s, p))
  {
    if r.Then? {
      LeftForGood(o, s, r.before, p);
      RunInv(o, s, r.before);
      StepEntry(o, After(o, s, r.before), r.last, p);
    }
  }

  lemma PrefixValid(o: Opts, s: State, r: Run, q: Run)
    requires Closed(s) && ValidRun(o, s, r) && Prefix(q, r)
    ensures ValidRun(o, s, q)
  {
  }

  /** An entry that is out of the map at some point of a run is out of it at the end. */
  lemma {:induction false} OutSince(o: Opts, s: State, r: Run, q: Run, p: PendMessage)
    requires Inv(o, s) && ValidRun(o, s, r) && Prefix(q, r) && ValidRun(o, s, q)
    requires p in After(o, s, q).pends && !Held(After(o, s, q), p)
    ensures p in After(o, s, r).pends && !Held(After(o, s, r), p)
  {
    if q != r {
      OutSince(o, s, r.before, q, p);
      RunInv(o, s, r.before);
      StepEntry(o, After(o, s, r.before), r.last, p);
    }
  }

  /** The run up to and including q ends with a scan that reads the clock at or after p's deadline. */
  ghost predicate LateFor(o: Opts, s: State, q: Run, p: PendMessage)
    requires Closed(s) && p in s.pends
  {
    q.Then? && q.last.DoScan? &&
    var m := s.cells[s.pends[p].msg];
    m.msgId in q.last.readings ==> q.last.readings[m.msgId].expiry >= m.sendAt + o.ttl
  }

  /** A scan after its deadline removes an entry, and it stays removed to the end of the run. */
  lemma {:induction false} DeadlineRemoves(o: Opts, s: State, r: Run, q: Run, p: PendMessage)
    requires Inv(o, s) && ValidRun(o, s, r) && p in s.pends && Prefix(q, r) && LateFor(o, s, q, p)
    ensures p in After(o, s, r).pends && !Held(After(o, s, r), p)
  {
    PrefixValid(o, s, r, q);
    RunInv(o, s, q.before);
    LeftForGood(o, s, q.before, p);
    LateScan(o, After(o, s, q.before), q.last, p);
    OutSince(o, s, r, q, p);
  }

  lemma LateScan(o: Opts, s: State, l: Label, p: PendMessage)
    requires Inv(o, s) && Enabled(o, s, l) && l.DoScan? && p in s.pends
    requires var m := s.cells[s.pends[p].msg];
      m.msgId in l.readings ==> l.readings[m.msgId].expiry >= m.sendAt + o.ttl
    ensures p in Next(o, s, l).pends && !Held(Next(o, s, l), p)
  {
    StepEntry(o, s, l, p);
    if Held(s, p) {
      ScanVerdict(o, s, l, s.cells[s.pends[p].msg].msgId);
    }
  }

  /** A scan that comes at least RetryInterval after p's last attempt. */
  ghost predicate Paced(o: Opts, s: State, l: Label, p: PendMessage)
    requires Closed(s) && Enabled(o, s, l)
  {
    l.DoScan? && forall k :: k in s.msgList && s.msgList[k] == p ==>
                   l.readings[k].retry >= s.pends[p].lastRetryAt + o.retryInterval
  }

  ghost function PacedScans(o: Opts, s: State, r: Run, p: PendMessage): nat
    requires Closed(s) && ValidRun(o, s, r)
  {
    if r.Start? then 0
    else
      PacedScans(o, s, r.before, p) + Ind(Paced(o, After(o, s, r.before), r.last, p))
  }

  /** While an entry stays, every paced scan has spent one of its retries. */
  lemma {:induction false} ScansSpendRetries(o: Opts, s: State, r: Run, p: PendMessage)
    requires Inv(o, s) && ValidRun(o, s, r) && p in s.pends
    ensures var s' := After(o, s, r);
      p in s'.pends &&
      (Held(s', p) ==>
         PacedScans(o, s, r, p) + s.pends[p].retryCount + Ind(p in s.toRetry)
         <= s'.pends[p].retryCount + Ind(p in s'.toRetry))
  {
    if r.Then? {
      ScansSpendRetries(o, s, r.before, p);
      RunInv(o, s, r.before);
      SpendStep(o, After(o, s, r.before), r.last, p);
    }
  }

  lemma SpendStep(o: Opts, s: State, l: Label, p: PendMessage)
    requires Inv(o, s) && Enabled(o, s, l) && p in s.pends
    ensures var s' := Next(o, s, l);
      p in s'.pends &&
      (Held(s', p) ==>
         && Held(s, p)
         && s.pends[p].retryCount + Ind(p in s.toRetry) + Ind(Paced(o, s, l, p))
            <= s'.pends[p].retryCount + Ind(p in s'.toRetry))
  {
    if l.DoScan? {
      ScanSpends(o, s, l, p);
    } else if l.RetryCallback? {
      RetrySpends(o, s, l, p);
    } else {
      StepEntry(o, s, l, p);
    }
  }

  lemma ScanSpends(o: Opts, s: State, l: Label, p: PendMessage)
    requires Closed(s) && Keyed(s) && Locked(s) && Enabled(o, s, l) && l.DoScan? && p in s.pends
    ensures var s' := Next(o, s, l);
      p in s'.pends && s.toRetry == [] && s'.pends[p] == s.pends[p]
      && (Held(s', p) ==> Held(s, p) && (Paced(o, s, l, p) ==> p in s'.toRetry))
  {
    ScanDeletes(o, s, l);
    ScanMoves(o, s, l, p);
  }

  lemma RetrySpends(o: Opts, s: State, l: Label, p: PendMessage)
    requires Closed(s) && Batched(s) && Enabled(o, s, l) && l.RetryCallback? && p in s.pends
    ensures var s' := Next(o, s, l);
      p in s'.pends && (Held(s', p) ==> Held(s, p))
      && s.pends[p].retryCount + Ind(p in s.toRetry) <= s'.pends[p].retryCount + Ind(p in s'.toRetry)
  {
    HeadOnce(s.toRetry);
  }

  /** The residence bound without a clock: more than MaxRetry paced scans empty the map of every
      message that was in it, whatever its SendAt. */
  lemma {:induction false} RetriesRunOut(o: Opts, s: State, r: Run, p: PendMessage)
    requires Inv(o, s) && ValidRun(o, s, r) && p in s.pends
    requires PacedScans(o, s, r, p) > RetryLimit(o)
    ensures p in After(o, s, r).pends && !Held(After(o, s, r), p)
  {
    ScansSpendRetries(o, s, r, p);
    RunInv(o, s, r);
  }

  ghost predicate NoPend(r: Run) {
    r.Then? ==> NoPend(r.before) && !r.last.DoPend?
  }

  /** With no Pend in the run, either bound empties the map. */
  lemma {:induction false} MapDrains(o: Opts, s: State, r: Run)
    requires Inv(o, s) && ValidRun(o, s, r) && NoPend(r)
    requires forall k :: k in s.msgList ==>
               var p := s.msgList[k];
               || PacedScans(o, s, r, p) > RetryLimit(o)
               || exists q :: Prefix(q, r) && LateFor(o, s, q, p)
    ensures After(o, s, r).msgList == map[]
  {
    var s' := After(o, s, r);
    RunInv(o, s, r);
    NoPendNoEntry(o, s, r);
    forall k ensures k !in s'.msgList {
      if k in s'.msgList {
        var p := s'.msgList[k];
        LeftForGood(o, s, r, p);
        if PacedScans(o, s, r, p) > RetryLimit(o) {
          RetriesRunOut(o, s, r, p);
        } else {
          var q :| Prefix(q, r) && LateFor(o, s, q, p);
          DeadlineRemoves(o, s, r, q, p);
        }
      }
    }
  }

  lemma {:induction false} NoPendNoEntry(o: Opts, s: State, r: Run)
    requires Inv(o, s) && ValidRun(o, s, r) && NoPend(r)
    ensures After(o, s, r).pends.Keys == s.pends.Keys
  {
    if r.Then? {
      NoPendNoEntry(o, s, r.before);
      SameHeap(o, After(o, s, r.before), r.last);
    }
  }

  lemma SameHeap(o: Opts, s: State, l: Label)
    requires Closed(s) && Enabled(o, s, l) && !l.DoPend?
    ensures Next(o, s, l).pends.Keys == s.pends.Keys
  {
  }

  // ---- the lock

  /** Every UnPend of the run finds its id. */
  ghost predicate AllFound(o: Opts, s: State, r: Run)
    requires Closed(s) && ValidRun(o, s, r)
  {
    r.Start? ||
    var m := After(o, s, r.before);
    AllFound(o, s, r.before) && (r.last.DoUnPend? ==> m.owner.value.id in m.msgList)
  }

  /** The lock is lost in a run exactly when some UnPend missed. */
  lemma {:induction false} LockLostIffMiss(o: Opts, s: State, r: Run)
    requires Inv(o, s) && ValidRun(o, s, r) && !s.stuck
    ensures After(o, s, r).stuck <==> !AllFound(o, s, r)
  {
    if r.Then? {
      LockLostIffMiss(o, s, r.before);
      RunInv(o, s, r.before);
      var m := After(o, s, r.before);
      if m.stuck {
        MissStep(o, m, r.last);
      } else {
        LossStep(o, m, r.last);
      }
    }
  }

  lemma LossStep(o: Opts, s: State, l: Label)
    requires Inv(o, s) && !s.stuck && Enabled(o, s, l)
    ensures Next(o, s, l).stuck <==> l.DoUnPend? && s.owner.value.id !in s.msgList
  {
  }

  lemma MissStep(o: Opts, s: State, l: Label)
    requires Inv(o, s) && s.stuck && Enabled(o, s, l)
    ensures var s' := Next(o, s, l);
      && s'.stuck && s'.owner == s.owner && s'.msgList == s.msgList && s'.pends.Keys == s.pends.Keys
      && |s'.trace| + |s'.acking| + |s'.toFail| + |s'.toRetry| == |s.trace| + |s.acking| + |s.toFail| + |s.toRetry|
    ensures !l.Lock? && !l.RefusePend? && !l.DoPend? && !l.DoUnPend? && !l.DoScan?
  {
  }

  /** After a miss nothing that needs the lock ever happens: the map is frozen, and all that is left
      is the callbacks already handed over, one event each. */
  lemma {:induction false} MissFreezes(o: Opts, s: State, r: Run)
    requires Inv(o, s) && s.stuck && ValidRun(o, s, r)
    ensures var s' := After(o, s, r);
      && s'.stuck && s'.owner == s.owner && s'.msgList == s.msgList && s'.pends.Keys == s.pends.Keys
      && |s'.trace| + |s'.acking| + |s'.toFail| + |s'.toRetry| == |s.trace| + |s.acking| + |s.toFail| + |s.toRetry|
  {
    if r.Then? {
      MissFreezes(o, s, r.before);
      RunInv(o, s, r.before);
      MissStep(o, After(o, s, r.before), r.last);
    }
  }

  /** ... so no Pend, UnPend or scan gets past Lock in any continuation. */
  lemma {:induction false} MissBlocks(o: Opts, s: State, r: Run, q: Run)
    requires Inv(o, s) && s.stuck && ValidRun(o, s, r) && Prefix(q, r) && q.Then?
    ensures !q.last.Lock? && !q.last.RefusePend? && !q.last.DoPend? && !q.last.DoUnPend? && !q.last.DoScan?
  {
    PrefixValid(o, s, r, q);
    MissFreezes(o, s, q.before);
    RunInv(o, s, q.before);
    MissStep(o, After(o, s, q.before), q.last);
  }

  lemma {:induction false} ListOf(ps: set<PendMessage>) returns (xs: seq<PendMessage>)
    ensures Lists(xs, ps)
  {
    if ps == {} {
      xs := [];
    } else {
      var p :| p in ps;
      var rest := ListOf(ps - {p});
      xs := [p] + rest;
    }
  }

  /** A holder that has not returned can always finish and thereby release the lock (or lose it,
      for an UnPend that misses); p stands for the object its Pend would allocate. */
  lemma HolderFinishes(o: Opts, s: State, p: PendMessage) returns (l: Label)
    requires Inv(o, s) && s.owner.Some? && !s.stuck && p !in s.pends
    ensures Enabled(o, s, l)
    ensures Next(o, s, l).owner.None? <==> !(s.owner.value.UnPendOp? && s.owner.value.id !in s.msgList)
    ensures Next(o, s, l).owner.Some? <==> Next(o, s, l).stuck
  {
    match s.owner.value {
      case PendOp(c) => l := if s.cells[c].msgId in s.msgList then RefusePend else DoPend(p);
      case UnPendOp(_) => l := DoUnPend;
      case SweepOp =>
        var readings := map k | k in s.msgList :: Reading(s.now, s.now);
        var fails := ListOf(Selected(o, s, readings, Fail));
        var retries := ListOf(Selected(o, s, readings, Retry));
        l := DoScan(readings, s.now, fails, retries);
    }
  }

  /** clearUp never runs a callback inside its own critical section, so a callback that needs the
      lock cannot wait for its own caller. */
  lemma {:induction false} CallbacksOutsideLock(o: Opts, r: Run, l: Label)
    requires ValidRun(o, INIT, r) && Enabled(o, After(o, INIT, r), l)
    requires l.FailCallback? || l.RetryCallback?
    ensures After(o, INIT, r).owner != Some(SweepOp)
  {
    InitInv(o);
    RunInv(o, INIT, r);
  }
}
