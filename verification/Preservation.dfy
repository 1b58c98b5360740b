/** Every operation of the admission controller keeps the invariant. */
module Preservation {
  import opened Options
  import opened Admission
  import opened Invariant

  // ----- Expiry sweep

  lemma FindSwept(qs: Queues, now: Instant, x: nat) returns (f: FunctionId, i: nat)
    requires x in SweptIds(qs, now)
    ensures f in qs && i < ExpiredLen(qs[f].items, now) && qs[f].items[i].id == x
  {
    f :| f in qs && x in ExpiredPrefix(qs[f], now);
    var pre := qs[f].items[..ExpiredLen(qs[f].items, now)];
    i :| 0 <= i < |pre| && pre[i].id == x;
  }

  lemma SweptAt(qs: Queues, now: Instant, f: FunctionId, i: nat)
    requires f in qs && i < ExpiredLen(qs[f].items, now)
    ensures qs[f].items[i].id in SweptIds(qs, now)
  {
    var pre := qs[f].items[..ExpiredLen(qs[f].items, now)];
    assert pre[i].id in ExpiredPrefix(qs[f], now);
  }

  /** A sweep removes exactly the swept requests. */
  lemma SweptSets(s: State, now: Instant)
    requires Lines(s)
    ensures SweptIds(s.queues, now) <= QueuedIds(s.queues)
    ensures QueuedIds(Sweep(s.queues, now)) == QueuedIds(s.queues) - SweptIds(s.queues, now)
  {
    hide Lines, QueuedIds, SweptIds;
    var qs, qs' := s.queues, Sweep(s.queues, now);
    forall x | x in QueuedIds(qs')
      ensures x in QueuedIds(qs) && x !in SweptIds(qs, now)
    {
      var f, i := FindQueued(qs', x);
      var k := ExpiredLen(qs[f].items, now);
      QueuedAt(qs, f, k + i);
      if x in SweptIds(qs, now) {
        var g, j := FindSwept(qs, now, x);
        QueuedOnce(s, f, k + i, g, j);
      }
    }
    forall x | x in QueuedIds(qs) && x !in SweptIds(qs, now)
      ensures x in QueuedIds(qs')
    {
      var f, i := FindQueued(qs, x);
      var k := ExpiredLen(qs[f].items, now);
      if i < k {
        SweptAt(qs, now, f, i);
      } else {
        QueuedAt(qs', f, i - k);
      }
    }
    forall x | x in SweptIds(qs, now)
      ensures x in QueuedIds(qs)
    {
      var f, i := FindSwept(qs, now, x);
      QueuedAt(qs, f, i);
    }
  }

  lemma ExpireLines(s: State, now: Instant)
    requires Lines(s)
    ensures Lines(Expire(s, now))
  {
    hide Lines, EarliestHead, QueuedIds, SweptIds, BlockedSet;
    LinesDropHeads(s, Expire(s, now), f => ExpiredLen(QueueOf(s, f), now));
  }

  lemma ExpireCounters(s: State, now: Instant)
    requires Lines(s) && Counters(s)
    ensures Counters(Expire(s, now))
  {
    hide Lines, EarliestHead, QueuedIds, SweptIds, FailAll;
    SweptSets(s, now);
    assert BlockedSet(Sweep(s.queues, now)) <= BlockedSet(s.queues);
  }

  lemma PendingAfterSweep(s: State, now: Instant)
    requires Lines(s)
    ensures PendingIds(Expire(s, now)) == PendingIds(s) - SweptIds(s.queues, now)
  {
    hide Lines, EarliestHead, QueuedIds, SweptIds, Sweep, BlockedSet, Ids, FailAll;
    SweptSets(s, now);
    if s.outstanding.Some? {
      OutstandingItem(s);
      AddAfterRemove(QueuedIds(s.queues), SweptIds(s.queues, now), s.outstanding.value.id);
    }
  }

  lemma AddAfterRemove(a: set<nat>, b: set<nat>, x: nat)
    requires b <= a && x !in a
    ensures (a - b) + {x} == (a + {x}) - b
  {
  }

  lemma ExpireBooks(s: State, now: Instant)
    requires Lines(s) && Counters(s) && Books(s)
    ensures Books(Expire(s, now))
  {
    hide Lines, Counters, EarliestHead, PendingIds, SweptIds, Sweep, BlockedSet, Ids;
    var s' := Expire(s, now);
    PendingAfterSweep(s, now);
    assert SweptIds(s.queues, now) <= PendingIds(s) by { SweptPending(s, now); }
    forall x | 0 <= x < |s'.log.fate| ensures FateOk(s', x) {
      assert FateOk(s, x);
    }
  }

  lemma SweptPending(s: State, now: Instant)
    requires Lines(s)
    ensures SweptIds(s.queues, now) <= PendingIds(s)
  {
    hide Lines, QueuedIds, SweptIds;
    SweptSets(s, now);
  }

  lemma ExpireFrame(s: State, now: Instant)
    ensures NoNewBlock(s, Expire(s, now))
  {
    hide EarliestHead, QueuedIds, SweptIds, BlockedSet, FailAll;
  }

  lemma ExpireKeeps(c: Config, s: State, now: Instant)
    requires Core(c, s)
    ensures Core(c, Expire(s, now))
  {
    hide Lines, Counters, Books, Permits, Timers, NoNewBlock, EarliestHead, FailAll, SweptIds, BlockedSet;
    ExpireLines(s, now);
    ExpireCounters(s, now);
    ExpireBooks(s, now);
    ExpireFrame(s, now);
    PermitsSame(c, s, Expire(s, now));
    TimersSame(c, s, Expire(s, now));
  }

  lemma ExpireIfDueKeeps(c: Config, s: State, now: Instant)
    requires Core(c, s)
    ensures Core(c, ExpireIfDue(s, now))
  {
    hide Core, Expire;
    if s.nextDeadline.Some? && s.nextDeadline.value <= now {
      ExpireKeeps(c, s, now);
    }
  }

  /** What neither an arrival nor a sweep touches. */
  ghost predicate SameOuter(s: State, s': State) {
    && s'.outstanding == s.outstanding && s'.waiting == s.waiting
    && s'.free == s.free && s'.running == s.running && s'.tickDue == s.tickDue
    && s'.dispatched == s.dispatched && s'.halted == s.halted && s'.clock == s.clock
    && s'.log.forwarded == s.log.forwarded && s'.log.lost == s.log.lost && s'.log.epoch == s.log.epoch
    && s.queues.Keys <= s'.queues.Keys
  }

  lemma ExpireIfDueOuter(s: State, now: Instant)
    ensures var s' := ExpireIfDue(s, now);
            && SameOuter(s, s') && s'.received == s.received
            && s'.log.arrivals == s.log.arrivals && s'.queues.Keys == s.queues.Keys
  {
    hide EarliestHead, QueuedIds, SweptIds, BlockedSet, FailAll;
  }

  // ----- Arrival

  /** The next arrival number is not in use. */
  lemma NewId(s: State)
    requires Lines(s) && Books(s)
    ensures |s.log.arrivals| !in PendingIds(s)
    ensures |s.log.arrivals| !in Ids(s.log.forwarded)
    ensures |s.log.arrivals| !in s.log.lost
  {
    IdsInRange(s);
  }

  /** Whatever belongs to a request is numbered below the arrivals so far. */
  lemma IdsInRange(s: State)
    requires Lines(s) && Books(s)
    ensures forall x :: x in PendingIds(s) || x in Ids(s.log.forwarded) || x in s.log.lost ==> x < |s.log.arrivals|
  {
    hide Lines, QueuedIds;
    var n := |s.log.arrivals|;
    forall x | x in QueuedIds(s.queues) ensures x < n {
      var f, i := FindQueued(s.queues, x);
      QueueItem(s, f, i);
    }
    if s.outstanding.Some? {
      OutstandingItem(s);
    }
    forall i | 0 <= i < |s.log.forwarded| ensures s.log.forwarded[i].id < n {
      ForwardedItem(s, i);
    }
  }

  lemma ForwardedItem(s: State, i: nat)
    requires Lines(s) && i < |s.log.forwarded|
    ensures Arrived(s, s.log.forwarded[i].fid, s.log.forwarded[i])
  {
    var m := ForwardedAt(s.log.forwarded, i);
    var h := s.log.forwarded[i];
    assert LineOk(s, h.fid);
    assert Line(s, h.fid)[m] == h;
  }

  lemma RefusePending(s: State, fid: FunctionId, why: AdmissionFailure)
    ensures PendingIds(Refuse(s, fid, why)) == PendingIds(s)
  {
  }

  lemma RefuseBooks(s: State, fid: FunctionId, why: AdmissionFailure)
    requires Lines(s) && Books(s)
    ensures Books(Refuse(s, fid, why))
  {
    hide Lines, PendingIds, Ids;
    var s' := Refuse(s, fid, why);
    assert PendingIds(s') == PendingIds(s) by { RefusePending(s, fid, why); }
    NewId(s);
    forall x | 0 <= x < |s'.log.fate| ensures FateOk(s', x) {
      assert x < |s.log.fate| ==> FateOk(s, x);
    }
  }

  lemma RefuseKeeps(c: Config, s: State, fid: FunctionId, why: AdmissionFailure)
    requires Core(c, s)
    ensures Core(c, Refuse(s, fid, why))
  {
    hide Lines, Counters, Books, Permits, Timers;
    var s' := Refuse(s, fid, why);
    LinesFrame(s, s');
    CountersSame(s, s');
    RefuseBooks(s, fid, why);
    PermitsSame(c, s, s');
    TimersSame(c, s, s');
  }

  lemma EntryCounters(s: State, fid: FunctionId)
    requires Counters(s)
    ensures Counters(Entry(s, fid))
    ensures QueuedIds(Entry(s, fid).queues) == QueuedIds(s.queues)
  {
    if fid !in s.queues {
      EntrySets(s.queues, fid);
    }
  }

  lemma EntrySets(qs: Queues, fid: FunctionId)
    requires fid !in qs
    ensures QueuedIds(qs[fid := FunctionQueue([], Runnable)]) == QueuedIds(qs)
    ensures BlockedSet(qs[fid := FunctionQueue([], Runnable)]) == BlockedSet(qs)
  {
    hide QueuedIds;
    var q := FunctionQueue([], Runnable);
    QueuedIdsUpdate(qs, fid, q);
    assert qs - {fid} == qs;
    BlockedSetUpdate(qs, fid, q);
  }

  lemma EntryFrame(s: State, fid: FunctionId)
    ensures NoNewBlock(s, Entry(s, fid))
    ensures forall f :: QueueOf(Entry(s, fid), f) == QueueOf(s, f)
  {
  }

  lemma EntryKeeps(c: Config, s: State, fid: FunctionId)
    requires Core(c, s)
    ensures Core(c, Entry(s, fid))
  {
    hide Lines, Counters, Books, Permits, Timers, NoNewBlock, QueueOf, QueuedIds;
    var s' := Entry(s, fid);
    EntryFrame(s, fid);
    EntryCounters(s, fid);
    LinesFrame(s, s');
    BooksSame(s, s');
    PermitsSame(c, s, s');
    TimersSame(c, s, s');
  }

  lemma AdmitCounters(s: State, e: Envelope)
    requires Counters(s) && e.fid in s.queues && e.id !in QueuedIds(s.queues)
    ensures Counters(Admit(s, e))
    ensures QueuedIds(Admit(s, e).queues) == QueuedIds(s.queues) + {e.id}
  {
    hide QueuedIds, BlockedSet;
    PushBackIds(s.queues, e.fid, e);
    BlockedSetPush(s.queues, e.fid, s.queues[e.fid].items + [e]);
  }

  lemma BlockedSetPush(qs: Queues, f: FunctionId, items: seq<Envelope>)
    requires f in qs
    ensures BlockedSet(qs[f := qs[f].(items := items)]) == BlockedSet(qs)
  {
  }

  lemma AdmitBooks(s: State, e: Envelope)
    requires Books(s) && e.fid in s.queues && e.id == |s.log.arrivals|
    requires e.id !in PendingIds(s) && e.id !in Ids(s.log.forwarded) && e.id !in s.log.lost
    requires PendingIds(Admit(s, e)) == PendingIds(s) + {e.id}
    ensures Books(Admit(s, e))
  {
    hide PendingIds, Ids;
    var s' := Admit(s, e);
    forall x | 0 <= x < |s'.log.fate| ensures FateOk(s', x) {
      assert x < |s.log.fate| ==> FateOk(s, x);
    }
  }

  lemma AdmitLines(s: State, e: Envelope)
    requires Lines(s) && e.fid in s.queues
    requires e.id == |s.log.arrivals| && e.enqueuedAt == s.clock
    ensures Lines(Admit(s, e))
  {
    hide Lines;
    LinesAppend(s, Admit(s, e), e);
  }

  lemma AdmitFrame(s: State, e: Envelope)
    requires e.fid in s.queues
    ensures NoNewBlock(s, Admit(s, e))
  {
  }

  lemma AdmitKeeps(c: Config, s: State, e: Envelope)
    requires Core(c, s) && e.fid in s.queues
    requires e.id == |s.log.arrivals| && e.enqueuedAt == s.clock
    ensures Core(c, Admit(s, e))
  {
    hide Lines, Counters, Books, Permits, Timers, NoNewBlock, QueuedIds;
    NewId(s);
    AdmitFrame(s, e);
    AdmitCounters(s, e);
    AdmitLines(s, e);
    AdmitBooks(s, e);
    PermitsSame(c, s, Admit(s, e));
    TimersSame(c, s, Admit(s, e));
  }

  lemma ArriveAtKeeps(c: Config, s: State, fid: FunctionId, cap: nat, delay: nat, checked: bool, now: Instant)
    requires Core(c, s) && s.clock == now && fid in s.queues
    ensures Core(c, ArriveAt(s, fid, cap, delay, checked, now))
  {
    hide Core, ExpireIfDue, Admit, Refuse;
    var s1 := if |s.queues[fid].items| >= cap && !checked then ExpireIfDue(s, now) else s;
    ExpireIfDueKeeps(c, s, now);
    ExpireIfDueOuter(s, now);
    if |s1.queues[fid].items| >= cap {
      RefuseKeeps(c, s1, fid, QueueFullFunction);
    } else {
      AdmitKeeps(c, s1, Envelope(|s1.log.arrivals|, fid, now, now + delay));
    }
  }

  lemma ArriveKeeps(c: Config, s: State, fid: FunctionId, found: Lookup, now: Instant)
    requires Core(c, s) && s.clock == now
    ensures Core(c, Arrive(c, s, fid, found, now))
  {
    hide Core, ExpireIfDue, ArriveAt, Refuse;
    if found.Unregistered? {
      RefuseKeeps(c, s, fid, Rejected(UnknownFunction));
    } else {
      var pressed := s.totalQueued >= c.globalCap;
      var s1 := if pressed then ExpireIfDue(s, now) else s;
      ExpireIfDueKeeps(c, s, now);
      ExpireIfDueOuter(s, now);
      if s1.totalQueued >= c.globalCap {
        RefuseKeeps(c, s1, fid, QueueFullGlobal);
      } else {
        EntryKeeps(c, s1, fid);
        ArriveAtKeeps(c, Entry(s1, fid), fid, found.cap, found.delay, pressed, now);
      }
    }
  }

  lemma ArriveAtOuter(s: State, fid: FunctionId, cap: nat, delay: nat, checked: bool, now: Instant)
    requires fid in s.queues
    ensures var s' := ArriveAt(s, fid, cap, delay, checked, now);
            && SameOuter(s, s')
            && s'.received == s.received + 1 && s'.log.arrivals == s.log.arrivals + [fid]
  {
    hide ExpireIfDue;
    ExpireIfDueOuter(s, now);
  }

  lemma ArriveOuter(c: Config, s: State, fid: FunctionId, found: Lookup, now: Instant)
    ensures var s' := Arrive(c, s, fid, found, now);
            && SameOuter(s, s')
            && s'.received == s.received + 1 && s'.log.arrivals == s.log.arrivals + [fid]
  {
    hide ExpireIfDue, ArriveAt;
    if found.Registered? {
      var pressed := s.totalQueued >= c.globalCap;
      var s1 := if pressed then ExpireIfDue(s, now) else s;
      ExpireIfDueOuter(s, now);
      ArriveAtOuter(Entry(s1, fid), fid, found.cap, found.delay, pressed, now);
    }
  }

  // ----- Dispatch attempts

  /** A state in which the slot handler holds one permit that is not in the semaphore. */
  ghost predicate Holding(c: Config, s: State) {
    Core(c, s.(free := s.free + 1)) && s.outstanding.None? && !s.waiting && 0 <= s.free
  }

  function Sent(s: State, f: FunctionId): State
    requires f in s.queues && s.queues[f].items != []
  {
    PopHead(s, f).(outstanding := Some(s.queues[f].items[0]))
  }

  lemma SentLines(s: State, f: FunctionId)
    requires Lines(s) && s.outstanding.None? && f in s.queues && s.queues[f].items != []
    ensures Lines(Sent(s, f))
  {
    hide Lines;
    var e := s.queues[f].items[0];
    var s' := Sent(s, f);
    QueueItem(s, f, 0);
    forall g ensures Line(s', g) == Line(s, g) {
      if g == f {
        assert s.queues[f].items == [e] + s.queues[f].items[1..];
      }
    }
    LinesSame(s, s');
  }

  lemma SentCounters(s: State, f: FunctionId)
    requires Lines(s) && Counters(s) && f in s.queues && s.queues[f].IsRunnable()
    ensures Counters(Sent(s, f))
  {
    hide Lines, QueuedIds, BlockedSet;
    PopFrontIds(s, f);
    BlockedSetPush(s.queues, f, s.queues[f].items[1..]);
  }

  lemma SentBooks(s: State, f: FunctionId)
    requires Lines(s) && Books(s) && s.outstanding.None? && f in s.queues && s.queues[f].items != []
    ensures Books(Sent(s, f))
  {
    hide Lines, QueuedIds, Books;
    PopFrontIds(s, f);
    BooksSame(s, Sent(s, f));
  }

  lemma SentPermits(c: Config, s: State, f: FunctionId)
    requires Permits(c, s.(free := s.free + 1)) && 0 <= s.free && s.outstanding.None? && !s.waiting
    requires f in s.queues && s.queues[f].IsRunnable() && s.queues[f].items[0].fid == f
    ensures Permits(c, Sent(s, f))
  {
  }

  lemma SentFrame(s: State, f: FunctionId)
    requires f in s.queues && s.queues[f].items != []
    ensures NoNewBlock(s, Sent(s, f))
  {
  }

  lemma FreeFrame(s: State, n: int)
    requires Lines(s) && Counters(s) && Books(s)
    ensures Lines(s.(free := n)) && Counters(s.(free := n)) && Books(s.(free := n))
  {
    hide Lines, Counters, Books;
    LinesFrame(s, s.(free := n));
    CountersSame(s, s.(free := n));
    BooksSame(s, s.(free := n));
  }

  lemma SentKeeps(c: Config, s: State, f: FunctionId)
    requires Holding(c, s) && f in s.queues && s.queues[f].IsRunnable()
    ensures Core(c, Sent(s, f))
  {
    hide Lines, Counters, Books, Permits, Timers, NoNewBlock;
    var t := s.(free := s.free + 1);
    FreeFrame(t, s.free);
    assert t.(free := s.free) == s;
    QueueItem(s, f, 0);
    SentLines(s, f);
    SentCounters(s, f);
    SentBooks(s, f);
    SentPermits(c, s, f);
    SentFrame(t, f);
    TimersSame(c, t, Sent(s, f));
  }

  lemma PopThenPush(s: State, f: FunctionId)
    requires f in s.queues && s.queues[f].items != []
    ensures var e := s.queues[f].items[0];
            PushHead(PopHead(s, f), f, e) == UpdateTimer(s, e.deadline)
  {
    var q := s.queues[f];
    assert [q.items[0]] + q.items[1..] == q.items;
    var s1 := PopHead(s, f);
    assert s1.queues[f := s1.queues[f].(items := q.items)] == s.queues;
  }

  lemma AttemptKeeps(c: Config, s: State, pick: Option<FunctionId>, sent: bool)
    requires Holding(c, s) && IsPick(s.queues, pick)
    ensures Core(c, Attempt(s, pick, sent))
  {
    hide Lines, Counters, Books, Permits;
    if pick.Some? {
      var f := pick.value;
      if sent {
        SentKeeps(c, s, f);
      } else {
        PopThenPush(s, f);
        QuietKeeps(c, s.(free := s.free + 1), Attempt(s, pick, sent));
      }
    }
  }

  lemma AttemptShape(s: State, pick: Option<FunctionId>, sent: bool)
    requires IsPick(s.queues, pick) && s.outstanding.None? && Attempt(s, pick, sent).outstanding.Some?
    ensures pick.Some? && Attempt(s, pick, sent) == Sent(s, pick.value)
  {
    if pick.Some? && !sent {
      PopThenPush(s, pick.value);
    }
  }

  lemma ExpireFree(s: State, n: int, now: Instant)
    ensures Expire(s.(free := n), now) == Expire(s, now).(free := n)
  {
    hide EarliestHead, QueuedIds, SweptIds, BlockedSet, FailAll, Sweep;
  }

  lemma BeforeAttemptFree(s: State, now: Instant)
    ensures BeforeAttempt(s, now) == ExpireIfDue(s.(waiting := false), now).(free := s.free - 1)
  {
    hide Expire;
    ExpireFree(s.(waiting := false), s.free - 1, now);
  }

  /** Taking a permit and sweeping leads to a state that holds one permit. */
  lemma BeforeAttemptHolds(c: Config, s: State, now: Instant)
    requires Core(c, s) && s.waiting && s.free > 0
    ensures Holding(c, BeforeAttempt(s, now))
  {
    hide Lines, Counters, Books, ExpireIfDue, BeforeAttempt;
    var s1 := s.(waiting := false);
    QuietKeeps(c, s, s1);
    ExpireIfDueKeeps(c, s1, now);
    ExpireIfDueOuter(s1, now);
    BeforeAttemptFree(s, now);
    assert BeforeAttempt(s, now).(free := s.free) == ExpireIfDue(s1, now);
  }

  lemma BeforeAttemptLines(c: Config, s: State, now: Instant)
    requires Core(c, s)
    ensures Lines(BeforeAttempt(s, now)) && BeforeAttempt(s, now).outstanding == s.outstanding
  {
    hide Lines, Counters, Books, Permits, ExpireIfDue, BeforeAttempt;
    var s1 := s.(waiting := false);
    QuietKeeps(c, s, s1);
    ExpireIfDueKeeps(c, s1, now);
    ExpireIfDueOuter(s1, now);
    BeforeAttemptFree(s, now);
    LinesFrame(ExpireIfDue(s1, now), BeforeAttempt(s, now));
  }

  // ----- Pool replies

  lemma OutstandingFate(c: Config, s: State)
    requires Core(c, s) && s.outstanding.Some?
    ensures Replyable(s) && s.log.fate[s.outstanding.value.id] == Pending
  {
    hide Lines, Counters, Timers, QueuedIds, Ids;
    OutstandingItem(s);
    assert FateOk(s, s.outstanding.value.id);
  }

  lemma ForwardLines(s: State, s': State)
    requires Lines(s) && Later(s, s') && s.outstanding.Some?
    requires s'.log.forwarded == s.log.forwarded + [s.outstanding.value] && s'.outstanding.None?
    requires s'.queues == s.queues
    ensures Lines(s')
  {
    hide Lines;
    var e := s.outstanding.value;
    forall f ensures Line(s', f) == Line(s, f) {
      assert s'.log.forwarded[..|s.log.forwarded|] == s.log.forwarded;
      assert ForwardedOf(s'.log.forwarded, f) == ForwardedOf(s.log.forwarded, f) + if e.fid == f then [e] else [];
    }
    LinesSame(s, s');
  }

  lemma ResolvePending(s: State, s': State)
    requires Lines(s) && Books(s) && s.outstanding.Some? && s'.outstanding.None? && s'.queues == s.queues
    ensures PendingIds(s') == PendingIds(s) - {s.outstanding.value.id}
    ensures s.outstanding.value.id !in Ids(s.log.forwarded) && s.outstanding.value.id !in s.log.lost
  {
    hide Lines, QueuedIds, Ids;
    OutstandingItem(s);
    assert FateOk(s, s.outstanding.value.id);
  }

  /** The outstanding request leaves the controller with fate `fate`. */
  lemma ResolveBooks(s: State, s': State, fate: Fate)
    requires Lines(s) && Books(s) && s.outstanding.Some? && s'.outstanding.None? && s'.queues == s.queues
    requires var e := s.outstanding.value;
             && e.id < |s.log.fate| && s.log.fate[e.id] == Pending && fate != Pending
             && s'.log.fate == s.log.fate[e.id := fate] && s'.log.arrivals == s.log.arrivals
             && s'.log.forwarded == (if fate == Dispatched then s.log.forwarded + [e] else s.log.forwarded)
             && s'.log.lost == (if fate == Lost then s.log.lost + {e.id} else s.log.lost)
    requires s'.dispatched == s.dispatched + if fate == Dispatched then 1 else 0
    requires s'.failed == s.failed + if fate.Failed? then 1 else 0
    requires s'.totalQueued == s.totalQueued && (s.halted || fate == Lost ==> s'.halted)
    requires fate == Lost ==> !s.halted
    ensures Books(s')
  {
    hide Lines, PendingIds, Ids, FateOk;
    var e := s.outstanding.value;
    ResolvePending(s, s');
    assert FateOk(s, e.id);
    IdsAppend(s.log.forwarded, e);
    forall x | 0 <= x < |s'.log.fate| ensures FateOk(s', x) {
      ResolveFate(s, s', fate, x);
    }
  }

  lemma ResolveFate(s: State, s': State, fate: Fate, x: nat)
    requires x < |s.log.fate| && FateOk(s, x) && s.outstanding.Some? && fate != Pending
    requires var e := s.outstanding.value;
             && e.id < |s.log.fate| && s.log.fate[e.id] == Pending
             && s'.log.fate == s.log.fate[e.id := fate]
             && PendingIds(s') == PendingIds(s) - {e.id}
             && Ids(s'.log.forwarded) == (if fate == Dispatched then Ids(s.log.forwarded) + {e.id} else Ids(s.log.forwarded))
             && s'.log.lost == (if fate == Lost then s.log.lost + {e.id} else s.log.lost)
    requires FateOk(s, s.outstanding.value.id)
    ensures FateOk(s', x)
  {
    hide PendingIds, Ids;
  }

  lemma ForwardPermits(c: Config, s: State, s': State)
    requires Permits(c, s) && s.outstanding.Some? && s.outstanding.value.id !in Ids(s.log.forwarded)
    requires s'.free == s.free && s'.outstanding.None?
    requires s'.running == s.running + {s.outstanding.value.id}
    requires s'.log.forwarded == s.log.forwarded + [s.outstanding.value]
    ensures Permits(c, s')
  {
    hide Ids;
    IdsAppend(s.log.forwarded, s.outstanding.value);
  }

  lemma ReplyForwardKeeps(c: Config, s: State, reset: Instant, now: Instant)
    requires Core(c, s) && Replyable(s)
    ensures Core(c, Reply(c, s, Dispatch, true, reset, now))
  {
    hide Lines, Counters, Books, Permits, Timers, QueuedIds, Ids;
    var s' := Reply(c, s, Dispatch, true, reset, now);
    OutstandingFate(c, s);
    OutstandingItem(s);
    ForwardLines(s, s');
    CountersSame(s, s');
    ResolveBooks(s, s', Dispatched);
    ForwardPermits(c, s, s');
    TimersSame(c, s, s');
  }

  lemma DropPermits(c: Config, s: State, s': State)
    requires Permits(c, s) && s.outstanding.Some? && s'.outstanding.None?
    requires s'.free == s.free + 1 && s'.running == s.running && s'.log.forwarded == s.log.forwarded
    ensures Permits(c, s')
  {
  }

  /** The outstanding request is failed, or lost with its Worker's channel. */
  lemma ReplyDropKeeps(c: Config, s: State, s': State, fate: Fate)
    requires Core(c, s) && Replyable(s) && (fate.Failed? || fate == Lost)
    requires var id := s.outstanding.value.id;
             s' == s.(outstanding := None, free := s.free + 1,
                      halted := s'.halted, failed := s'.failed,
                      log := s.log.(fate := s.log.fate[id := fate],
                                    lost := if fate == Lost then s.log.lost + {id} else s.log.lost))
    requires s'.failed == s.failed + if fate.Failed? then 1 else 0
    requires (s.halted || fate == Lost ==> s'.halted) && (fate == Lost ==> !s.halted)
    ensures Core(c, s')
  {
    hide Lines, Counters, Books, Permits, Timers;
    OutstandingFate(c, s);
    LinesDropOutstanding(s, s');
    CountersSame(s, s');
    ResolveBooks(s, s', fate);
    DropPermits(c, s, s');
    TimersSame(c, s, s');
  }

  lemma RequeueLines(s: State, s': State)
    requires Lines(s) && Later(s, s') && s.outstanding.Some? && s.outstanding.value.fid in s.queues
    requires s'.log.forwarded == s.log.forwarded && s'.outstanding.None?
    requires var e := s.outstanding.value;
             && e.fid in s'.queues
             && (forall f :: f != e.fid ==> QueueOf(s', f) == QueueOf(s, f))
             && s'.queues[e.fid].items == [e] + s.queues[e.fid].items
    ensures Lines(s')
  {
    hide Lines;
    forall f ensures Line(s', f) == Line(s, f) {
      if f != s.outstanding.value.fid {
        assert QueueOf(s', f) == QueueOf(s, f);
      }
    }
    LinesSame(s, s');
  }

  /** What a WouldBlock reply leaves, field by field. */
  lemma BlockShape(c: Config, s: State, why: BlockReason, reset: Instant, now: Instant)
    requires Replyable(s) && !s.queues[s.outstanding.value.fid].IsBlocked()
    ensures var e, s' := s.outstanding.value, Reply(c, s, WouldBlock(why), true, reset, now);
            && s'.queues == s.queues[e.fid := FunctionQueue([e] + s.queues[e.fid].items, Blocked(why, now))]
            && s'.totalQueued == s.totalQueued + 1 && s'.blockedCount == s.blockedCount + 1
            && s'.outstanding.None? && s'.free == s.free + 1 && s'.running == s.running
            && s'.log == s.log.(epoch := s'.log.epoch) && s'.clock == s.clock && s'.halted == s.halted
            && s'.dispatched == s.dispatched && s'.failed == s.failed
            && (s.timer == s.nextDeadline ==> s'.timer == s'.nextDeadline)
            && (if s.blockedCount == 0 then s'.tickDue == reset + c.period && s'.log.epoch == reset
                else s'.tickDue == s.tickDue && s'.log.epoch == s.log.epoch)
  {
  }

  lemma BlockSets(qs: Queues, e: Envelope, st: DispatchState)
    requires e.fid in qs && st.Blocked?
    ensures var qs' := qs[e.fid := FunctionQueue([e] + qs[e.fid].items, st)];
            && QueuedIds(qs') == QueuedIds(qs) + {e.id}
            && BlockedSet(qs') == BlockedSet(qs) + {e.fid}
  {
    hide QueuedIds;
    PushFrontIds(qs, e.fid, e, st);
    BlockedSetUpdate(qs, e.fid, FunctionQueue([e] + qs[e.fid].items, st));
  }

  lemma BlockCounters(s: State, s': State, e: Envelope, st: DispatchState)
    requires Counters(s) && e.fid in s.queues && st.Blocked?
    requires e.id !in QueuedIds(s.queues) && !s.queues[e.fid].IsBlocked()
    requires s'.queues == s.queues[e.fid := FunctionQueue([e] + s.queues[e.fid].items, st)]
    requires s'.totalQueued == s.totalQueued + 1 && s'.blockedCount == s.blockedCount + 1
    ensures Counters(s') && QueuedIds(s'.queues) == QueuedIds(s.queues) + {e.id}
  {
    hide QueuedIds;
    BlockSets(s.queues, e, st);
  }

  lemma BlockTimers(c: Config, s: State, s': State, f: FunctionId, q: FunctionQueue, reset: Instant)
    requires Timers(c, s) && s.log.epoch <= reset <= s.clock == s'.clock
    requires s.blockedCount == |BlockedSet(s.queues)|
    requires q.IsBlocked() && q.state.blockedAt == s.clock
    requires s'.queues == s.queues[f := q] && s'.timer == s'.nextDeadline
    requires if s.blockedCount == 0 then s'.tickDue == reset + c.period && s'.log.epoch == reset
             else s'.tickDue == s.tickDue && s'.log.epoch == s.log.epoch
    ensures Timers(c, s')
  {
    if s.blockedCount == 0 {
      assert BlockedSet(s.queues) == {};
      assert forall g :: g in s.queues ==> g !in BlockedSet(s.queues);
    }
  }

  lemma ReplyBlockKeeps(c: Config, s: State, why: BlockReason, reset: Instant, now: Instant)
    requires Core(c, s) && Replyable(s) && s.log.epoch <= reset <= now == s.clock
    ensures Core(c, Reply(c, s, WouldBlock(why), true, reset, now))
  {
    hide Lines, Books, QueuedIds, BlockedSet, Ids, Reply;
    var e, s' := s.outstanding.value, Reply(c, s, WouldBlock(why), true, reset, now);
    OutstandingItem(s);
    BlockShape(c, s, why, reset, now);
    RequeueLines(s, s');
    BlockCounters(s, s', e, Blocked(why, now));
    BooksSame(s, s');
    BlockTimers(c, s, s', e.fid, s'.queues[e.fid], reset);
  }

  lemma ReplyKeeps(c: Config, s: State, resp: DispatchResponse, ok: bool, reset: Instant, now: Instant)
    requires Core(c, s) && !s.halted && Replyable(s) && s.log.epoch <= reset <= now == s.clock
    ensures Core(c, Reply(c, s, resp, ok, reset, now))
  {
    hide Lines, Counters, Books, Permits, Timers;
    match resp
    case Dispatch =>
      if ok {
        ReplyForwardKeeps(c, s, reset, now);
      } else {
        ReplyDropKeeps(c, s, Reply(c, s, resp, ok, reset, now), Lost);
      }
    case WouldBlock(why) => ReplyBlockKeeps(c, s, why, reset, now);
    case Reject(why) => ReplyDropKeeps(c, s, Reply(c, s, resp, ok, reset, now), Failed(Rejected(why)));
  }

  // ----- Wakeups, slots, the loop

  lemma MakeRunnableSets(qs: Queues, fs: set<FunctionId>)
    ensures QueuedIds(MakeRunnable(qs, fs)) == QueuedIds(qs)
    ensures BlockedSet(MakeRunnable(qs, fs)) == BlockedSet(qs) - fs
  {
    var qs' := MakeRunnable(qs, fs);
    assert forall f :: f in qs ==> qs'[f].items == qs[f].items;
  }

  lemma UnblockFrame(s: State, fs: set<FunctionId>, s': State)
    requires s'.queues == MakeRunnable(s.queues, fs)
    ensures NoNewBlock(s, s')
    ensures forall f :: QueueOf(s', f) == QueueOf(s, f)
  {
  }

  lemma UnblockCounters(s: State, fs: set<FunctionId>, s': State)
    requires Counters(s) && fs <= BlockedSet(s.queues)
    requires s' == s.(queues := MakeRunnable(s.queues, fs), blockedCount := s.blockedCount - |fs|)
    ensures Counters(s') && QueuedIds(s'.queues) == QueuedIds(s.queues)
  {
    hide QueuedIds, BlockedSet;
    MakeRunnableSets(s.queues, fs);
    assert |BlockedSet(s.queues) - fs| == |BlockedSet(s.queues)| - |fs|;
    forall f | f in s'.queues && s'.queues[f].IsBlocked() ensures s'.queues[f].items != [] {
      assert s'.queues[f] == s.queues[f];
    }
  }

  lemma UnblockKeeps(c: Config, s: State, fs: set<FunctionId>, s': State)
    requires Core(c, s) && fs <= BlockedSet(s.queues)
    requires s' == s.(queues := MakeRunnable(s.queues, fs), blockedCount := s.blockedCount - |fs|)
    ensures Core(c, s')
  {
    hide Lines, Counters, Books, Permits, NoNewBlock, QueueOf, MakeRunnable, QueuedIds, BlockedSet;
    UnblockFrame(s, fs, s');
    LinesFrame(s, s');
    UnblockCounters(s, fs, s');
    BooksSame(s, s');
    PermitsSame(c, s, s');
    TimersSame(c, s, s');
  }

  /** Without blocked Functions the tick's due time is free to move. */
  lemma TickKeeps(c: Config, s: State, due: Instant)
    requires Core(c, s)
    ensures Core(c, UnblockAll(s).(tickDue := due))
  {
    hide Lines, Books, Permits, MakeRunnable, QueuedIds;
    var s1 := UnblockAll(s);
    if s.blockedCount != 0 {
      UnblockKeeps(c, s, BlockedSet(s.queues), s1);
      MakeRunnableSets(s.queues, BlockedSet(s.queues));
    }
    assert BlockedSet(s1.queues) == {};
    TickFrame(c, s1, due);
  }

  lemma TickFrame(c: Config, s: State, due: Instant)
    requires Core(c, s) && BlockedSet(s.queues) == {}
    ensures Core(c, s.(tickDue := due))
  {
    hide Lines, Counters, Books, Permits, Timers;
    var s' := s.(tickDue := due);
    LinesFrame(s, s');
    CountersSame(s, s');
    BooksSame(s, s');
    PermitsSame(c, s, s');
    TimersSame(c, s, s');
  }

  lemma ReleasePermits(c: Config, s: State, id: nat)
    requires Permits(c, s)
    ensures Permits(c, ReleaseSlot(s, id))
  {
    hide Ids;
  }

  lemma ReleaseKeeps(c: Config, s: State, id: nat)
    requires Core(c, s)
    ensures Core(c, ReleaseSlot(s, id))
  {
    hide Lines, Counters, Books, Permits, Timers;
    var s' := ReleaseSlot(s, id);
    LinesFrame(s, s');
    CountersSame(s, s');
    BooksSame(s, s');
    ReleasePermits(c, s, id);
    TimersSame(c, s, s');
  }

  // ----- Every step

  lemma HandleKeeps(c: Config, s: State, e: Event)
    requires Core(c, s) && s.clock == e.now
    requires e.SlotAcquired? ==> s.waiting && s.free > 0 && IsPick(BeforeAttempt(s, e.now).queues, e.pick)
    requires e.PoolReply? || e.PoolGone? ==> Replyable(s)
    requires e.PoolReply? ==> !s.halted && s.log.epoch <= e.reset <= e.now
    ensures Core(c, Handle(c, s, e))
  {
    hide Lines, Counters, Books, Permits, Expire, Arrive, BeforeAttempt, Attempt, Reply;
    match e
    case Arrival(fid, found, now) => ArriveKeeps(c, s, fid, found, now);
    case PoolWakeup(ev, _) => UnblockKeeps(c, s, Woken(s.queues, ev), Wake(s, ev));
    case SlotAcquired(pick, sent, now) =>
      BeforeAttemptHolds(c, s, now);
      AttemptKeeps(c, BeforeAttempt(s, now), pick, sent);
    case PoolReply(resp, ok, reset, now) => ReplyKeeps(c, s, resp, ok, reset, now);
    case PoolGone(_) => ReplyDropKeeps(c, s, Handle(c, s, e), Failed(Rejected(Internal)));
    case DeadlineFired(now) => ExpireKeeps(c, s, now);
    case FallbackTick(nextDue, _) => TickKeeps(c, s, nextDue);
    case Stop(_) => QuietKeeps(c, s, s.(halted := true));
    case WorkerReleases(id, _) => ReleaseKeeps(c, s, id);
  }

  lemma AttemptOuter(s: State, pick: Option<FunctionId>, sent: bool, now: Instant)
    requires IsPick(BeforeAttempt(s, now).queues, pick)
    ensures var s' := Attempt(BeforeAttempt(s, now), pick, sent);
            s'.log.arrivals == s.log.arrivals && s'.received == s.received
  {
    hide ExpireIfDue, BeforeAttempt;
    BeforeAttemptFree(s, now);
    ExpireIfDueOuter(s.(waiting := false), now);
  }

  lemma HandleReceives(c: Config, s: State, e: Event)
    requires e.SlotAcquired? ==> IsPick(BeforeAttempt(s, e.now).queues, e.pick)
    requires e.PoolReply? || e.PoolGone? ==> Replyable(s)
    ensures var s' := Handle(c, s, e);
            && s'.log.arrivals == s.log.arrivals + (if e.Arrival? then [e.fid] else [])
            && s'.received == s.received + (if e.Arrival? then 1 else 0)
  {
    hide Arrive, BeforeAttempt, Attempt, FailAll, EarliestHead, Sweep, SweptIds;
    match e
    case Arrival(fid, found, now) => ArriveOuter(c, s, fid, found, now);
    case SlotAcquired(pick, sent, now) => AttemptOuter(s, pick, sent, now);
    case _ =>
  }

  lemma ReadyKeeps(c: Config, s: State, e: Event)
    requires Core(c, s) && s.clock <= e.now
    ensures Core(c, Ready(s, e))
  {
    hide Lines, Counters, Books, Permits;
    QuietKeeps(c, s, Ready(s, e));
  }

  lemma StepKeeps(c: Config, s: State, e: Event, s': State)
    requires Inv(c, s) && Step(c, s, e, s')
    ensures Inv(c, s')
  {
    hide Lines, Counters, Books, Permits, Handle, BeforeAttempt;
    ReadyKeeps(c, s, e);
    HandleKeeps(c, Ready(s, e), e);
    HandleReceives(c, Ready(s, e), e);
  }

  lemma InitInv(c: Config, t: Instant)
    ensures Inv(c, Init(c, t))
  {
    assert QueuedIds(map[]) == {};
  }

  /** The invariant holds in every state of every run. */
  lemma {:induction false} RunInv(c: Config, ss: seq<State>, es: seq<Event>, i: nat)
    requires IsRun(c, ss, es) && i < |ss|
    ensures Inv(c, ss[i])
  {
    hide Inv, Step;
    if i == 0 {
      InitInv(c, ss[0].clock);
    } else {
      RunInv(c, ss, es, i - 1);
      assert Step(c, ss[i - 1], es[i - 1], ss[i - 1 + 1]);
      StepKeeps(c, ss[i - 1], es[i - 1], ss[i]);
    }
  }

  /** A run goes on with any step from its last state. */
  lemma ExtendRun(c: Config, ss: seq<State>, es: seq<Event>, e: Event, s: State)
    requires IsRun(c, ss, es) && Step(c, ss[|es|], e, s)
    ensures IsRun(c, ss + [s], es + [e])
  {
    hide Step, Init;
    var ss', es' := ss + [s], es + [e];
    forall i | 0 <= i < |es'| ensures Step(c, ss'[i], es'[i], ss'[i + 1]) {
      if i < |es| {
        assert Step(c, ss[i], es[i], ss[i + 1]);
      }
    }
  }
}
