/**
 What goes wrong when a Function's delay shrinks between arrivals. The expiry sweep assumes
 that deadlines grow along a queue; here are two runs in which they do not: an expired request
 is sent to Pool, and a request is refused because of an expired one. Also the exact condition
 under which an attempt is stale.
 */
module StaleDispatch {
  import opened Options
  import opened Admission
  import opened Invariant
  import opened Preservation
  import opened Deadlines
  import opened Capacity
  import opened Ordering
  import opened SweepLoop
  import opened Wakeups

  /**
   In any run, the request that a slot step sends to Pool has expired exactly when no sweep was
   due although the head of its queue had expired.
   */
  lemma StaleAttemptIff(c: Config, ss: seq<State>, es: seq<Event>, i: nat)
    requires IsRun(c, ss, es) && i < |es| && es[i].SlotAcquired? && ss[i + 1].outstanding.Some?
    ensures var r, now := ss[i + 1].outstanding.value, es[i].now;
            && es[i].pick == Some(r.fid)
            && (r.deadline <= now <==>
                !Due(ss[i], now) && QueueOf(ss[i], r.fid) != [] && QueueOf(ss[i], r.fid)[0].deadline <= now)
  {
    hide BeforeAttempt, Attempt, Inv, Core;
    RunInv(c, ss, es, i);
    assert Step(c, ss[i], es[i], ss[i + 1]);
    StaleStepIff(c, ss[i], es[i], ss[i + 1]);
  }

  lemma StaleStepIff(c: Config, s: State, e: Event, s': State)
    requires Inv(c, s) && Step(c, s, e, s') && e.SlotAcquired? && s'.outstanding.Some?
    ensures var r := s'.outstanding.value;
            && e.pick == Some(r.fid)
            && (r.deadline <= e.now <==>
                !Due(s, e.now) && QueueOf(s, r.fid) != [] && QueueOf(s, r.fid)[0].deadline <= e.now)
  {
    hide Core, BeforeAttempt, Attempt;
    var s0 := Ready(s, e);
    ReadyKeeps(c, s, e);
    SlotFacts(c, s0, e.pick, e.now);
    AttemptShape(BeforeAttempt(s0, e.now), e.pick, e.sent);
    BeforeAttemptKeys(s0, e.now);
    BeforeAttemptQueue(s0, e.now, e.pick.value);
  }

  lemma BeforeAttemptKeys(s: State, now: Instant)
    ensures BeforeAttempt(s, now).queues.Keys == s.queues.Keys
  {
    hide ExpireIfDue;
    ExpireIfDueOuter(s.(waiting := false, free := s.free - 1), now);
  }

  // ----- A run with a stale attempt

  const C := Config(2, 10, 100)
  const F := FunctionId("f")
  const E0 := Envelope(0, F, 0, 10)
  const E1 := Envelope(1, F, 1, 2)

  function Events(): seq<Event> {
    [Arrival(F, Registered(2, 10), 0),
     Arrival(F, Registered(2, 1), 1),
     SlotAcquired(Some(F), true, 5),
     PoolReply(Dispatch, true, 5, 5),
     SlotAcquired(Some(F), true, 5)]
  }

  /** What matters of a state in which only `F` has a queue. */
  ghost predicate Looks(s: State, items: seq<Envelope>, next: Option<Instant>, out: Option<Envelope>) {
    && s.queues == map[F := FunctionQueue(items, Runnable)]
    && s.nextDeadline == next && s.outstanding == out && !s.halted && s.clock <= 5
  }

  lemma FirstArrival(s: State)
    requires s == Init(C, 0)
    ensures Enabled(C, s, Events()[0])
    ensures var s' := Next(C, s, Events()[0]);
            Looks(s', [E0], Some(10), None) && s'.totalQueued == 1 && |s'.log.arrivals| == 1
            && s'.free == 2 && s'.clock == 0 && |s'.log.fate| == 1
  {
    hide Expire;
    assert !HasRunnable(s.queues);
    assert [] + [E0] == [E0];
  }

  lemma SecondArrival(s: State)
    requires Looks(s, [E0], Some(10), None) && s.totalQueued == 1 && |s.log.arrivals| == 1
    requires s.free == 2 && s.clock == 0 && |s.log.fate| == 1
    ensures Enabled(C, s, Events()[1])
    ensures var s' := Next(C, s, Events()[1]);
            Looks(s', [E0, E1], Some(2), None) && s'.totalQueued == 2
            && s'.free == 2 && |s'.log.fate| == 2 && s'.clock == 1
  {
    hide Expire;
    assert [E0] + [E1] == [E0, E1];
  }

  lemma SweepMisses(qs: Queues)
    requires qs == map[F := FunctionQueue([E0, E1], Runnable)]
    ensures Sweep(qs, 5) == qs && EarliestHead(qs) == Some(10)
  {
    hide EarliestHead, ExpiredLen;
    assert ExpiredLen([E0, E1], 5) == 0 by {
      assert [E0, E1][0].deadline == 10;
    }
    assert [E0, E1][0..] == [E0, E1];
    assert SweepQueue(qs[F], 5) == qs[F];
    EarliestIsUnique(qs, Some(10));
  }

  lemma FirstAttempt(s: State)
    requires Looks(s, [E0, E1], Some(2), None) && s.free == 2 && |s.log.fate| == 2 && s.clock == 1
    ensures Enabled(C, s, Events()[2])
    ensures var s' := Next(C, s, Events()[2]);
            Looks(s', [E1], Some(10), Some(E0)) && s'.free == 1 && |s'.log.fate| == 2 && s'.clock == 5
  {
    hide EarliestHead, Sweep, SweptIds, BlockedSet;
    SweepMisses(s.queues);
    assert s.queues[F].IsRunnable();
    assert [E0, E1][1..] == [E1];
  }

  lemma FirstReply(s: State)
    requires Looks(s, [E1], Some(10), Some(E0)) && s.free == 1 && |s.log.fate| == 2 && s.clock == 5
    ensures Enabled(C, s, Events()[3])
    ensures var s' := Next(C, s, Events()[3]);
            Looks(s', [E1], Some(10), None) && s'.free == 1 && s'.clock == 5
  {
  }

  lemma SecondAttempt(s: State)
    requires Looks(s, [E1], Some(10), None) && s.free == 1 && s.clock == 5
    ensures Enabled(C, s, Events()[4])
    ensures Next(C, s, Events()[4]).outstanding == Some(E1)
  {
    hide Expire;
    assert s.queues[F].IsRunnable();
  }

  /** The second arrival has a shorter delay, and is sent to Pool after its deadline. */
  lemma ShrinkingDelayDispatchesStale() returns (ss: seq<State>)
    ensures IsRun(C, ss, Events())
    ensures ss[5].outstanding.Some? && ss[5].outstanding.value.deadline <= Events()[4].now
    ensures !OrderlyRun(C, ss, Events())
  {
    hide Enabled, Next, Looks;
    var s0 := Init(C, 0);
    FirstArrival(s0);
    var s1 := Next(C, s0, Events()[0]);
    SecondArrival(s1);
    var s2 := Next(C, s1, Events()[1]);
    FirstAttempt(s2);
    var s3 := Next(C, s2, Events()[2]);
    FirstReply(s3);
    var s4 := Next(C, s3, Events()[3]);
    SecondAttempt(s4);
    ss := [s0, s1, s2, s3, s4, Next(C, s4, Events()[4])];
    if OrderlyRun(C, ss, Events()) {
      NoStaleDispatch(C, ss, Events(), 4);
    }
  }

  // ----- A run with a false QueueFull

  const THIRD := Arrival(F, Registered(2, 1), 5)

  /** One of the two queued requests has expired, but hides behind one that has not. */
  lemma ThirdArrival(s: State)
    requires Looks(s, [E0, E1], Some(2), None) && s.totalQueued == 2 && |s.log.fate| == 2 && s.clock == 1
    ensures Enabled(C, s, THIRD)
    ensures var fate := Next(C, s, THIRD).log.fate; |fate| == 3 && fate[2] == Failed(QueueFullFunction)
    ensures Decision(C, s, F, THIRD.found, THIRD.now) == Pending
  {
    hide EarliestHead, Sweep, SweptIds, BlockedSet;
    SweepMisses(s.queues);
    assert LiveIn([E0, E1], 5) == {0} by {
      assert [E0, E1][0] == E0 && [E0, E1][1] == E1;
    }
    assert LiveIds(s.queues, 5) == {0};
  }

  /** A Function whose cap never changes refuses a request although only one of the queued two is live. */
  lemma ShrinkingDelayRefusesFalsely() returns (ss: seq<State>, es: seq<Event>)
    ensures IsRun(C, ss, es) && FixedCap(es, F, 2) && |es| == 3 && es[2] == THIRD
    ensures |ss[3].log.fate| == 3 && ss[3].log.fate[2] == Failed(QueueFullFunction)
    ensures Decision(C, ss[2], F, THIRD.found, THIRD.now) == Pending
  {
    hide Enabled, Next, Looks, Decision, LiveIn, LiveIds;
    es := Events()[..2] + [THIRD];
    var s0 := Init(C, 0);
    FirstArrival(s0);
    var s1 := Next(C, s0, Events()[0]);
    SecondArrival(s1);
    var s2 := Next(C, s1, Events()[1]);
    ThirdArrival(s2);
    ss := [s0, s1, s2, Next(C, s2, THIRD)];
  }
}
