/**
 What each step of a run does, in terms of the states before and after it: what moves, how, and
 that nothing else does.
 */
module Effects {
  import opened Options
  import opened Admission
  import opened Invariant
  import opened Preservation
  import opened Guarantees
  import opened Resolution
  import opened Deadlines
  import opened Capacity
  import opened Ordering
  import opened SweepLoop
  import opened Wakeups

  /** A slot is awaited, or will be when the loop comes around. */
  predicate Waits(s: State) {
    s.waiting || (s.outstanding.None? && exists f :: f in s.queues && s.queues[f].IsRunnable())
  }

  lemma ReadyIs(s: State, e: Event)
    requires !e.WorkerReleases?
    ensures Ready(s, e) == s.(waiting := Waits(s), clock := e.now)
  {
    assert HasRunnable(s.queues) <==> exists f :: f in s.queues && s.queues[f].IsRunnable();
  }

  /** Every queue loses its longest expired prefix, and is runnable if it lost anything. */
  ghost predicate Swept(qs: Queues, qs': Queues, now: Instant) {
    && qs'.Keys == qs.Keys
    && forall f :: f in qs ==>
         var k := ExpiredLen(qs[f].items, now);
         qs'[f] == FunctionQueue(qs[f].items[k..], if k > 0 then Runnable else qs[f].state)
  }

  lemma SweepIsSwept(s: State, now: Instant)
    requires Counters(s)
    ensures Swept(s.queues, Sweep(s.queues, now), now)
  {
  }

  /** The earlier of a deadline that may be missing and one that is there. */
  function Sooner(d: Option<Instant>, x: Instant): Option<Instant> {
    if d.Some? && d.value <= x then d else Some(x)
  }

  lemma CountersOf(c: Config, s: State)
    requires Inv(c, s)
    ensures Counters(s) && Core(c, s)
  {
  }

  // ----- The deadline timer

  lemma ExpireIs(s: State, now: Instant)
    ensures var s' := Expire(s, now);
            && s' == s.(queues := Sweep(s.queues, now), totalQueued := s'.totalQueued, blockedCount := s'.blockedCount,
                        failed := s'.failed, nextDeadline := s'.nextDeadline, timer := s'.timer,
                        log := s.log.(fate := s'.log.fate))
            && s'.nextDeadline == s'.timer == EarliestHead(Sweep(s.queues, now))
  {
    hide Sweep, SweptIds, EarliestHead, BlockedSet, FailAll;
  }

  /** The timer branch sweeps all queues and re-arms the timer for the earliest head; nothing else moves. */
  lemma TimerStep(c: Config, ss: seq<State>, es: seq<Event>, i: nat)
    requires IsRun(c, ss, es) && i < |es| && es[i].DeadlineFired?
    ensures var s, s', now := ss[i], ss[i + 1], es[i].now;
            && Swept(s.queues, s'.queues, now)
            && s'.nextDeadline == s'.timer == EarliestHead(s'.queues)
            && s' == s.(queues := s'.queues, totalQueued := s'.totalQueued, blockedCount := s'.blockedCount,
                        failed := s'.failed, nextDeadline := s'.nextDeadline, timer := s'.timer,
                        waiting := Waits(s), clock := now, log := s.log.(fate := s'.log.fate))
  {
    hide Inv, Expire, Sweep, EarliestHead, Waits, Ready;
    RunInv(c, ss, es, i);
    assert Step(c, ss[i], es[i], ss[i + 1]);
    ReadyIs(ss[i], es[i]);
    ExpireIs(Ready(ss[i], es[i]), es[i].now);
    CountersOf(c, ss[i]);
    SweepIsSwept(ss[i], es[i].now);
  }

  /** A request that a step drops without an answer from Pool has failed for its deadline. */
  lemma DroppedFails(c: Config, ss: seq<State>, es: seq<Event>, i: nat, x: nat)
    requires IsRun(c, ss, es) && i < |es| && !es[i].PoolReply? && !es[i].PoolGone?
    requires x in QueuedIds(ss[i].queues) && x !in PendingIds(ss[i + 1])
    ensures x < |ss[i + 1].log.fate| && ss[i + 1].log.fate[x] == Failed(DeadlinePassed)
  {
    hide Step, QueuedIds, Justified, Lines, Counters, Permits, Timers;
    RunInv(c, ss, es, i);
    RunInv(c, ss, es, i + 1);
    var f, k := FindQueued(ss[i].queues, x);
    QueueItem(ss[i], f, k);
    assert FateOk(ss[i], x);
    ResolvedForCause(c, ss, es, i, x);
    assert FateOk(ss[i + 1], x);
    OnlyDeadline(ss[i], es[i], x, ss[i + 1].log.fate[x]);
  }

  lemma OnlyDeadline(s: State, e: Event, x: nat, v: Fate)
    requires Justified(s, e, x, v) && v != Pending && !e.PoolReply? && !e.PoolGone?
    ensures v == Failed(DeadlinePassed)
  {
  }

  /** An expired request is not among what a fresh suffix of every queue leaves. */
  lemma ExpiredIsGone(c: Config, s: State, s': State, now: Instant, f: FunctionId, k: nat)
    requires Inv(c, s) && Swept(s.queues, s'.queues, now) && Fresh(s', now) && s'.outstanding == s.outstanding
    requires k < |QueueOf(s, f)| && QueueOf(s, f)[k].deadline <= now
    ensures QueueOf(s, f)[k].id !in PendingIds(s')
  {
    hide Lines, Counters, Books, Permits, Timers, QueuedIds, Ids;
    var x := QueueOf(s, f)[k].id;
    if x in QueuedIds(s'.queues) {
      var g, j := FindQueued(s'.queues, x);
      var d := ExpiredLen(s.queues[g].items, now);
      assert s'.queues[g].items[j] == s.queues[g].items[d + j];
      assert Unexpired(QueueOf(s', g), now);
      QueuedOnce(s, f, k, g, d + j);
    }
    if s.outstanding.Some? {
      OutstandingItem(s);
      QueuedAt(s.queues, f, k);
    }
  }

  /** `d` is the earliest deadline of all queued requests, or missing if there are none. */
  ghost predicate IsEarliestDeadline(s: State, d: Option<Instant>) {
    && (d.None? <==> s.totalQueued == 0)
    && (d.Some? ==> exists f :: f in s.queues && s.queues[f].items != [] && s.queues[f].items[0].deadline == d.value)
    && forall f :: Covers(d, QueueOf(s, f))
  }

  /**
   When the deadline timer fires in an orderly run, every queued request whose deadline has passed
   fails for that reason, every other one stays queued, and the timer is armed for the earliest
   deadline of all that are left, or not at all if none is.
   */
  lemma TimerFailsExpired(c: Config, ss: seq<State>, es: seq<Event>, i: nat)
    requires IsRun(c, ss, es) && OrderlyRun(c, ss, es) && i < |es| && es[i].DeadlineFired?
    ensures Fresh(ss[i + 1], es[i].now)
    ensures forall f, k :: 0 <= k < |QueueOf(ss[i], f)| ==>
              var r := QueueOf(ss[i], f)[k];
              if r.deadline <= es[i].now then
                r.id < |ss[i + 1].log.fate| && ss[i + 1].log.fate[r.id] == Failed(DeadlinePassed)
              else r in QueueOf(ss[i + 1], f)
    ensures IsEarliestDeadline(ss[i + 1], ss[i + 1].timer)
  {
    hide Inv, Step, OrderlyRun, Swept, EarliestHead, Timely, Fresh;
    var s, s', now := ss[i], ss[i + 1], es[i].now;
    TimerStep(c, ss, es, i);
    RunInv(c, ss, es, i);
    RunInv(c, ss, es, i + 1);
    ConservativeCache(c, ss, es, i);
    ConservativeCache(c, ss, es, i + 1);
    SweptFresh(s, s', now);
    forall f, k | 0 <= k < |QueueOf(s, f)|
      ensures var r := QueueOf(s, f)[k];
              if r.deadline <= now then r.id < |s'.log.fate| && s'.log.fate[r.id] == Failed(DeadlinePassed)
              else r in QueueOf(s', f)
    {
      if QueueOf(s, f)[k].deadline <= now {
        ExpiredIsGone(c, s, s', now, f, k);
        QueuedAt(s.queues, f, k);
        DroppedFails(c, ss, es, i, QueueOf(s, f)[k].id);
      } else {
        LiveIsLeft(s, s', now, f, k);
      }
    }
    EarliestIsTimer(c, s');
  }

  lemma SweptFresh(s: State, s': State, now: Instant)
    requires Swept(s.queues, s'.queues, now) && Timely(s)
    ensures Fresh(s', now)
  {
    hide Sorted, Cached;
    forall f ensures Unexpired(QueueOf(s', f), now) {
      if f in s.queues {
        var q, k := QueueOf(s, f), ExpiredLen(QueueOf(s, f), now);
        QueueSorted(s, f);
        assert q[k..] != [] ==> q[k..][0] == q[k];
        DropSorted([], q, k);
        assert [] + q == q;
        UnexpiredFromHead(q[k..], now);
      }
    }
  }

  lemma LiveIsLeft(s: State, s': State, now: Instant, f: FunctionId, k: nat)
    requires Swept(s.queues, s'.queues, now) && k < |QueueOf(s, f)| && now < QueueOf(s, f)[k].deadline
    ensures QueueOf(s, f)[k] in QueueOf(s', f)
  {
    var q, d := QueueOf(s, f), ExpiredLen(QueueOf(s, f), now);
    assert d <= k;
    assert q[d..][k - d] == q[k];
  }

  /** A timer armed for the earliest head is armed for the earliest deadline. */
  lemma EarliestIsTimer(c: Config, s: State)
    requires Inv(c, s) && Timely(s) && s.nextDeadline == s.timer == EarliestHead(s.queues)
    ensures IsEarliestDeadline(s, s.timer)
  {
    hide Lines, Books, Permits, Timers, Sorted, QueuedIds;
    if s.timer.Some? {
      var f :| f in s.queues && s.queues[f].items != [] && s.queues[f].items[0].deadline == s.timer.value;
      QueuedAt(s.queues, f, 0);
    } else {
      forall x | x in QueuedIds(s.queues) ensures false {
        var f, k := FindQueued(s.queues, x);
      }
    }
  }

  // ----- Wakeups

  /** A fallback tick makes every Function runnable; no request, permit or statistic moves. */
  lemma TickUnblocksAll(c: Config, ss: seq<State>, es: seq<Event>, i: nat)
    requires IsRun(c, ss, es) && i < |es| && es[i].FallbackTick?
    ensures var s, s' := ss[i], ss[i + 1];
            && s'.queues.Keys == s.queues.Keys
            && (forall f :: f in s.queues ==> s'.queues[f] == s.queues[f].(state := Runnable))
            && s' == s.(queues := s'.queues, blockedCount := 0, tickDue := es[i].nextDue, waiting := Waits(s), clock := es[i].now)
  {
    hide Inv, Waits, Ready;
    assert Step(c, ss[i], es[i], ss[i + 1]);
    ReadyIs(ss[i], es[i]);
  }

  /** A Pool event makes a blocked Function runnable exactly when it answers the reason of the block. */
  lemma WakeupWakesIff(c: Config, ss: seq<State>, es: seq<Event>, i: nat)
    requires IsRun(c, ss, es) && i < |es| && es[i].PoolWakeup?
    ensures var s, s', ev := ss[i], ss[i + 1], es[i].ev;
            && s'.queues.Keys == s.queues.Keys
            && (forall f :: f in s.queues ==> s'.queues[f] == s.queues[f].(state := s'.queues[f].state))
            && (forall f :: f in s.queues && s.queues[f].state.Runnable? ==> s'.queues[f].state.Runnable?)
            && (forall f :: f in s.queues && s.queues[f].state.Blocked? ==>
                  var why := s.queues[f].state.reason;
                  if || ev == WorkerIdle(f)
                     || (ev == MemoryCapAvailable && why == MemoryPressure)
                     || (ev == WorkerCapAvailable(f) && why == FunctionWorkerCap)
                  then s'.queues[f].state.Runnable?
                  else s'.queues[f].state == s.queues[f].state)
            && s' == s.(queues := s'.queues, blockedCount := s'.blockedCount, waiting := Waits(s), clock := es[i].now)
  {
    hide Inv, Waits, Ready;
    assert Step(c, ss[i], es[i], ss[i + 1]);
    ReadyIs(ss[i], es[i]);
  }

  // ----- Dispatch

  lemma BeforeAttemptIs(s: State, now: Instant)
    ensures var b := BeforeAttempt(s, now);
            && b == s.(queues := SweptIf(s.queues, now, Due(s, now)), totalQueued := b.totalQueued,
                       blockedCount := b.blockedCount, failed := b.failed, nextDeadline := b.nextDeadline,
                       timer := b.timer, waiting := false, free := s.free - 1, log := s.log.(fate := b.log.fate))
            && b.nextDeadline == (if Due(s, now) then EarliestHead(b.queues) else s.nextDeadline)
  {
    hide Expire, Sweep, EarliestHead;
    ExpireIs(s.(waiting := false, free := s.free - 1), now);
  }

  /**
   A slot step sweeps the queues exactly if the cached deadline has passed, and then sends the
   head of the picked queue to Pool with the permit; without a pick, or when the send fails, the
   permit goes back and every request stays.
   */
  lemma SlotStep(c: Config, ss: seq<State>, es: seq<Event>, i: nat)
    requires IsRun(c, ss, es) && i < |es| && es[i].SlotAcquired?
    ensures var s, s', e, qs := ss[i], ss[i + 1], es[i], Scanned(ss[i], es[i]);
            var tried := e.pick.Some? && e.sent;
            && (if Due(s, e.now) then Swept(s.queues, qs, e.now) else qs == s.queues)
            && (e.pick.Some? ==> e.pick.value in qs && qs[e.pick.value].items != [])
            && s'.outstanding == (if tried then Some(qs[e.pick.value].items[0]) else None)
            && s'.queues == (if tried then qs[e.pick.value := qs[e.pick.value].(items := qs[e.pick.value].items[1..])] else qs)
            && s'.free == s.free - (if tried then 1 else 0)
            && s'.halted == (e.pick.Some? && !e.sent)
            && (var d := if Due(s, e.now) then EarliestHead(qs) else s.nextDeadline;
                s'.nextDeadline == s'.timer ==
                  if e.pick.Some? && !e.sent then Sooner(d, qs[e.pick.value].items[0].deadline) else d)
            && s' == s.(queues := s'.queues, totalQueued := s'.totalQueued, blockedCount := s'.blockedCount,
                        failed := s'.failed, nextDeadline := s'.nextDeadline, timer := s'.timer,
                        outstanding := s'.outstanding, free := s'.free, halted := s'.halted, waiting := false,
                        clock := e.now, log := s.log.(fate := s'.log.fate))
  {
    hide Inv, BeforeAttempt, Sweep, EarliestHead, Waits, Ready, Swept;
    RunInv(c, ss, es, i);
    RunInv(c, ss, es, i + 1);
    InvTimer(c, ss[i + 1]);
    assert Step(c, ss[i], es[i], ss[i + 1]);
    var s0, e := Ready(ss[i], es[i]), es[i];
    ReadyIs(ss[i], e);
    BeforeAttemptIs(s0, e.now);
    CountersOf(c, ss[i]);
    SweepIsSwept(ss[i], e.now);
    NoAttemptWhileOutstanding(c, ss, es, i);
    AttemptIs(BeforeAttempt(s0, e.now), e.pick, e.sent);
  }

  lemma NoAttemptWhileOutstanding(c: Config, ss: seq<State>, es: seq<Event>, i: nat)
    requires IsRun(c, ss, es) && i < |es| && es[i].SlotAcquired?
    ensures ss[i].outstanding.None? && !ss[i].halted
  {
    hide Step;
    PermitsConserved(c, ss, es, i);
    assert Step(c, ss[i], es[i], ss[i + 1]);
    EnabledRuns(c, ss[i], es[i], ss[i + 1]);
  }

  lemma EnabledRuns(c: Config, s: State, e: Event, s': State)
    requires Step(c, s, e, s') && !e.WorkerReleases?
    ensures !s.halted
  {
    hide BeforeAttempt, Handle;
  }

  lemma AttemptIs(s: State, pick: Option<FunctionId>, sent: bool)
    requires IsPick(s.queues, pick) && s.outstanding.None? && !s.halted
    ensures var s' := Attempt(s, pick, sent);
            match pick
            case None => s' == s.(free := s.free + 1)
            case Some(f) =>
              var h := s.queues[f].items[0];
              if sent then
                s' == s.(queues := s.queues[f := s.queues[f].(items := s.queues[f].items[1..])],
                         totalQueued := s'.totalQueued, outstanding := Some(h))
              else
                s' == s.(free := s.free + 1, halted := true, nextDeadline := Sooner(s.nextDeadline, h.deadline),
                         timer := s'.timer)
  {
    if pick.Some? && !sent {
      PopThenPush(s, pick.value);
    }
  }

  /**
   A reply ends the attempt. Dispatch hands the request and its permit to a Worker, or loses the
   request and halts; WouldBlock puts it back at the front of its queue, blocked for the reason
   given; Reject drops it. Except for a dispatch, the permit goes back.
   */
  lemma ReplyStep(c: Config, ss: seq<State>, es: seq<Event>, i: nat)
    requires IsRun(c, ss, es) && i < |es| && es[i].PoolReply?
    ensures var s, s', e := ss[i], ss[i + 1], es[i];
            && s.outstanding.Some? && s.outstanding.value.fid in s.queues
            && (var r := s.outstanding.value;
                var given := e.resp.Dispatch? && e.forwardOk;
                && s'.outstanding.None?
                && s'.running == (if given then s.running + {r.id} else s.running)
                && s'.free == s.free + (if given then 0 else 1)
                && s'.halted == (e.resp.Dispatch? && !e.forwardOk)
                && s'.log.forwarded == (if given then s.log.forwarded + [r] else s.log.forwarded)
                && s'.queues == (if e.resp.WouldBlock? then
                                   s.queues[r.fid := FunctionQueue([r] + s.queues[r.fid].items, Blocked(e.resp.block, e.now))]
                                 else s.queues)
                && s'.nextDeadline == (if e.resp.WouldBlock? then Sooner(s.nextDeadline, r.deadline) else s.nextDeadline)
                && s'.tickDue == (if e.resp.WouldBlock? && s.blockedCount == 0 then e.reset + c.period else s.tickDue)
                && s'.waiting == Waits(s) && s'.clock == e.now && s'.received == s.received
                && s'.log.arrivals == s.log.arrivals)
  {
    hide Lines, Counters, Books, Timers, Waits, Ready, Reply;
    RunInv(c, ss, es, i);
    assert Step(c, ss[i], es[i], ss[i + 1]);
    ReadyIs(ss[i], es[i]);
    EnabledRuns(c, ss[i], es[i], ss[i + 1]);
    ReplyIs(c, Ready(ss[i], es[i]), es[i]);
  }

  lemma ReplyIs(c: Config, s: State, e: Event)
    requires Replyable(s) && e.PoolReply? && !s.halted && !s.queues[s.outstanding.value.fid].IsBlocked()
    ensures var s', r := Reply(c, s, e.resp, e.forwardOk, e.reset, e.now), s.outstanding.value;
            var given := e.resp.Dispatch? && e.forwardOk;
            && s'.outstanding.None?
            && s'.running == (if given then s.running + {r.id} else s.running)
            && s'.free == s.free + (if given then 0 else 1)
            && s'.halted == (e.resp.Dispatch? && !e.forwardOk)
            && s'.log.forwarded == (if given then s.log.forwarded + [r] else s.log.forwarded)
            && s'.queues == (if e.resp.WouldBlock? then
                               s.queues[r.fid := FunctionQueue([r] + s.queues[r.fid].items, Blocked(e.resp.block, e.now))]
                             else s.queues)
            && s'.nextDeadline == (if e.resp.WouldBlock? then Sooner(s.nextDeadline, r.deadline) else s.nextDeadline)
            && s'.tickDue == (if e.resp.WouldBlock? && s.blockedCount == 0 then e.reset + c.period else s.tickDue)
            && s'.waiting == s.waiting && s'.clock == s.clock && s'.received == s.received
            && s'.log.arrivals == s.log.arrivals
  {
    if e.resp.WouldBlock? {
      hide Reply;
      ReplyIgnoresForward(c, s, e.resp, e.forwardOk, e.reset, e.now);
      BlockIs(c, s, e.resp.block, e.reset, e.now);
    }
  }

  lemma BlockIs(c: Config, s: State, why: BlockReason, reset: Instant, now: Instant)
    requires Replyable(s) && !s.queues[s.outstanding.value.fid].IsBlocked()
    ensures var s', r := Reply(c, s, WouldBlock(why), true, reset, now), s.outstanding.value;
            && s'.nextDeadline == Sooner(s.nextDeadline, r.deadline)
            && s' == s.(queues := s.queues[r.fid := FunctionQueue([r] + s.queues[r.fid].items, Blocked(why, now))],
                        totalQueued := s'.totalQueued, blockedCount := s'.blockedCount, outstanding := None,
                        free := s.free + 1, nextDeadline := s'.nextDeadline, timer := s'.timer,
                        tickDue := (if s.blockedCount == 0 then reset + c.period else s.tickDue),
                        log := s.log.(epoch := s'.log.epoch))
  {
  }

  /** When Pool drops the reply channel, the attempt ends, its permit goes back and the controller stops. */
  lemma PoolGoneStep(c: Config, ss: seq<State>, es: seq<Event>, i: nat)
    requires IsRun(c, ss, es) && i < |es| && es[i].PoolGone?
    ensures var s, s' := ss[i], ss[i + 1];
            s' == s.(outstanding := None, free := s.free + 1, halted := true, failed := s.failed + 1,
                     waiting := Waits(s), clock := es[i].now, log := s.log.(fate := s'.log.fate))
  {
    hide Waits, Ready;
    assert Step(c, ss[i], es[i], ss[i + 1]);
    ReadyIs(ss[i], es[i]);
  }

  lemma StopStep(c: Config, ss: seq<State>, es: seq<Event>, i: nat)
    requires IsRun(c, ss, es) && i < |es| && es[i].Stop?
    ensures ss[i + 1] == ss[i].(halted := true, waiting := Waits(ss[i]), clock := es[i].now)
  {
    hide Waits, Ready;
    assert Step(c, ss[i], es[i], ss[i + 1]);
    ReadyIs(ss[i], es[i]);
  }

  /** A release returns the permit of a slot that still holds one, and does nothing otherwise. */
  lemma ReleaseStep(c: Config, ss: seq<State>, es: seq<Event>, i: nat)
    requires IsRun(c, ss, es) && i < |es| && es[i].WorkerReleases?
    ensures var s, id := ss[i], es[i].id;
            ss[i + 1] == s.(running := s.running - {id}, free := s.free + (if id in s.running then 1 else 0),
                            clock := es[i].now)
  {
    assert Step(c, ss[i], es[i], ss[i + 1]);
    assert es[i].id !in ss[i].running ==> ss[i].running - {es[i].id} == ss[i].running;
  }

  // ----- Arrival

  lemma ArriveFrame(c: Config, s: State, fid: FunctionId, found: Lookup, now: Instant)
    ensures var s' := Arrive(c, s, fid, found, now);
            && s' == s.(queues := s'.queues, totalQueued := s'.totalQueued, blockedCount := s'.blockedCount,
                        failed := s'.failed, nextDeadline := s'.nextDeadline, timer := s'.timer,
                        received := s.received + 1,
                        log := s.log.(arrivals := s.log.arrivals + [fid], fate := s'.log.fate))
  {
    hide Arrive;
    ArriveOuter(c, s, fid, found, now);
  }

  lemma EarliestWithEntry(s: State, fid: FunctionId, now: Instant)
    ensures EarliestHead(Sweep(Entry(s, fid).queues, now)) == EarliestHead(Sweep(s.queues, now))
  {
    hide Sweep, EarliestHead;
    var qs, qs' := Sweep(s.queues, now), Sweep(Entry(s, fid).queues, now);
    SweepEntry(s.queues, fid, now);
    var r := EarliestHead(qs);
    assert IsEarliest(qs', r) by {
      EarliestWithEmpty(qs, fid, r);
    }
    EarliestIsUnique(qs', r);
  }

  lemma EarliestWithEmpty(qs: Queues, fid: FunctionId, r: Option<Instant>)
    requires r == EarliestHead(qs)
    ensures IsEarliest(EnteredIf(qs, fid, true), r)
  {
    var qs' := EnteredIf(qs, fid, true);
    if r.Some? {
      var f :| f in qs && qs[f].items != [] && qs[f].items[0].deadline == r.value;
      assert f in qs' && qs'[f] == qs[f];
    }
  }

  lemma ArriveAtDeadline(s: State, fid: FunctionId, cap: nat, delay: nat, checked: bool, now: Instant)
    requires fid in s.queues
    ensures var s' := ArriveAt(s, fid, cap, delay, checked, now);
            var swept := Due(s, now) && !checked && |s.queues[fid].items| >= cap;
            var d := if swept then EarliestHead(Sweep(s.queues, now)) else s.nextDeadline;
            && |s'.log.fate| == |s.log.fate| + 1
            && s'.nextDeadline == if s'.log.fate[|s.log.fate|] == Pending then Sooner(d, now + delay) else d
  {
    hide ExpireIfDue, Sweep, EarliestHead;
    ExpireIfDueShape(s, now);
    ExpireIfDueOuter(s, now);
    ExpireIfDueFateLength(s, now);
  }

  lemma ArriveDeadline(c: Config, s: State, fid: FunctionId, found: Lookup, now: Instant)
    ensures var s' := Arrive(c, s, fid, found, now);
            var d := if Sweeps(c, s, fid, found, now) then EarliestHead(Sweep(s.queues, now)) else s.nextDeadline;
            && |s'.log.fate| == |s.log.fate| + 1
            && s'.nextDeadline == if found.Registered? && s'.log.fate[|s.log.fate|] == Pending
                                  then Sooner(d, now + found.delay) else d
  {
    hide ExpireIfDue, Sweep, EarliestHead, ArriveAt;
    if found.Registered? {
      var pressed := s.totalQueued >= c.globalCap;
      var s1 := if pressed then ExpireIfDue(s, now) else s;
      ExpireIfDueShape(s, now);
      ExpireIfDueFateLength(s, now);
      if s1.totalQueued < c.globalCap {
        ArriveAtDeadline(Entry(s1, fid), fid, found.cap, found.delay, pressed, now);
        EarliestWithEntry(s, fid, now);
      }
    }
  }

  /** The newcomer is pending exactly when it is queued. */
  lemma PendingIffQueued(c: Config, s: State, s': State)
    requires Inv(c, s) && Inv(c, s') && s'.outstanding == s.outstanding && |s'.log.fate| == s.received + 1
    ensures s'.log.fate[s.received] == Pending <==> s.received in QueuedIds(s'.queues)
  {
    hide Lines, Counters, Permits, Timers, QueuedIds, Ids;
    assert FateOk(s', s.received);
    if s.outstanding.Some? {
      OutstandingItem(s);
    }
  }

  lemma OldQueueItem(c: Config, s: State, f: FunctionId, i: nat)
    requires Inv(c, s) && i < |QueueOf(s, f)|
    ensures QueueOf(s, f)[i].id < s.received
  {
    hide Lines, Counters, Books, Permits, Timers;
    QueueItem(s, f, i);
  }

  /** One queue after arrival `e`, with or without a sweep, and with or without the newcomer. */
  ghost predicate QueueAfter(s: State, s': State, e: Event, swept: bool, admitted: bool, f: FunctionId)
    requires e.Arrival? && (admitted ==> e.found.Registered?)
  {
    var k := if swept then ExpiredLen(QueueOf(s, f), e.now) else 0;
    && QueueOf(s', f) == QueueOf(s, f)[k..]
                         + (if admitted && f == e.fid then [Envelope(s.received, f, e.now, e.now + e.found.delay)] else [])
    && (f in s.queues ==> f in s'.queues)
    && (f in s'.queues && f !in s.queues ==> f == e.fid)
    && (f in s'.queues ==> s'.queues[f].state == if f !in s.queues || k > 0 then Runnable else s.queues[f].state)
  }

  /**
   An arrival sweeps the queues exactly if the cached deadline has passed and a cap seems to be
   reached; if its fate is open, it is the last request of its Function's queue, stamped with the
   arrival time and due one delay later, and the timer is armed no later than that.
   */
  lemma ArrivalStep(c: Config, ss: seq<State>, es: seq<Event>, i: nat)
    requires IsRun(c, ss, es) && i < |es| && es[i].Arrival?
    ensures var s, s', e := ss[i], ss[i + 1], es[i];
            var swept := Sweeps(c, s, e.fid, e.found, e.now);
            && |s'.log.fate| == s.received + 1
            && (var admitted := s'.log.fate[s.received] == Pending;
                var d := if swept then EarliestHead(Sweep(s.queues, e.now)) else s.nextDeadline;
                && (admitted ==> e.found.Registered?)
                && (forall f :: QueueAfter(s, s', e, swept, admitted, f))
                && s'.nextDeadline == (if admitted then Sooner(d, e.now + e.found.delay) else d))
            && s' == s.(queues := s'.queues, totalQueued := s'.totalQueued, blockedCount := s'.blockedCount,
                        failed := s'.failed, nextDeadline := s'.nextDeadline, timer := s'.timer,
                        received := s.received + 1, waiting := Waits(s), clock := e.now,
                        log := s.log.(arrivals := s.log.arrivals + [e.fid], fate := s'.log.fate))
  {
    hide Lines, Counters, Permits, Timers, Arrive, Sweep, EarliestHead, Waits, Ready, Sweeps, QueueAfter;
    RunInv(c, ss, es, i);
    RunInv(c, ss, es, i + 1);
    var s, s', e := ss[i], ss[i + 1], es[i];
    assert Step(c, s, e, s');
    ReadyIs(s, e);
    var r := Ready(s, e);
    ArriveFrame(c, r, e.fid, e.found, e.now);
    ArriveDeadline(c, r, e.fid, e.found, e.now);
    SweepsReady(c, s, r, e);
    ArrivalQueues(c, s, r, s', e);
  }

  lemma SweepsReady(c: Config, s: State, r: State, e: Event)
    requires e.Arrival? && r == s.(waiting := r.waiting, clock := r.clock)
    ensures Sweeps(c, r, e.fid, e.found, e.now) == Sweeps(c, s, e.fid, e.found, e.now)
  {
  }

  lemma ArrivalQueues(c: Config, s: State, r: State, s': State, e: Event)
    requires Inv(c, s) && Inv(c, s') && e.Arrival? && r == s.(waiting := r.waiting, clock := r.clock)
    requires s' == Arrive(c, r, e.fid, e.found, e.now) && |s'.log.fate| == s.received + 1 && s'.outstanding == s.outstanding
    ensures var admitted := s'.log.fate[s.received] == Pending;
            && (admitted ==> e.found.Registered?)
            && forall f :: QueueAfter(s, s', e, Sweeps(c, s, e.fid, e.found, e.now), admitted, f)
  {
    hide Lines, Counters, Books, Permits, Timers, Arrive, Sweeps, QueueAfter, ExpireIfDue, SweptIf, EnteredIf, AppendedIf;
    var swept, entered, admitted := ArriveShape(c, r, e.fid, e.found, e.now);
    SweepsReady(c, s, r, e);
    forall f ensures QueueAfter(s, s', e, swept, admitted, f) {
      OneQueueAfter(c, s, r, s', e, swept, entered, admitted, f);
    }
    AdmittedIsPending(c, s, s', e, swept, admitted);
  }

  lemma OneQueueAfter(c: Config, s: State, r: State, s': State, e: Event, swept: bool, entered: bool, admitted: bool,
                      f: FunctionId)
    requires Inv(c, s) && e.Arrival? && r == s.(waiting := r.waiting, clock := r.clock)
    requires admitted ==> e.found.Registered? && entered
    requires var x := Newcomer(r, e.fid, if e.found.Registered? then e.found.delay else 0, e.now);
             s'.queues == AppendedIf(EnteredIf(SweptIf(s.queues, e.now, swept), e.fid, entered), x, admitted)
    ensures QueueAfter(s, s', e, swept, admitted, f)
  {
    hide Lines, Books, Permits, Timers, QueuedIds, SweptIf, EnteredIf, AppendedIf;
    var x := Newcomer(r, e.fid, if e.found.Registered? then e.found.delay else 0, e.now);
    ArrivedQueue(s.queues, e.now, swept, x, entered, admitted, f);
    assert QueueOf(s, f)[0..] == QueueOf(s, f);
  }

  lemma AdmittedIsPending(c: Config, s: State, s': State, e: Event, swept: bool, admitted: bool)
    requires Inv(c, s) && Inv(c, s') && e.Arrival? && (admitted ==> e.found.Registered?)
    requires s'.outstanding == s.outstanding && |s'.log.fate| == s.received + 1
    requires forall f :: QueueAfter(s, s', e, swept, admitted, f)
    ensures s'.log.fate[s.received] == Pending <==> admitted
  {
    hide Inv, QueuedIds, QueueAfter;
    PendingIffQueued(c, s, s');
    if admitted {
      NewcomerQueued(s, s', e, swept);
    } else {
      forall x | x in QueuedIds(s'.queues) ensures x < s.received {
        var g, k := FindQueued(s'.queues, x);
        OnlyOldQueued(c, s, s', e, swept, g, k);
      }
    }
  }

  lemma NewcomerQueued(s: State, s': State, e: Event, swept: bool)
    requires e.Arrival? && e.found.Registered? && QueueAfter(s, s', e, swept, true, e.fid)
    ensures s.received in QueuedIds(s'.queues)
  {
    hide QueuedIds;
    var n := |QueueOf(s', e.fid)|;
    assert QueueOf(s', e.fid)[n - 1].id == s.received;
    QueuedAt(s'.queues, e.fid, n - 1);
  }

  lemma OnlyOldQueued(c: Config, s: State, s': State, e: Event, swept: bool, f: FunctionId, k: nat)
    requires Inv(c, s) && e.Arrival? && QueueAfter(s, s', e, swept, false, f) && k < |QueueOf(s', f)|
    ensures QueueOf(s', f)[k].id < s.received
  {
    hide Inv;
    var d := if swept then ExpiredLen(QueueOf(s, f), e.now) else 0;
    assert QueueOf(s', f)[k] == QueueOf(s, f)[d + k];
    OldQueueItem(c, s, f, d + k);
  }
}
