/**
 When exactly the deadline bookkeeping holds. The expiry sweep assumes that deadlines grow
 along a queue, but delays are read anew on every arrival.
 */
module Ordering {
  import opened Admission
  import opened Invariant
  import opened Preservation
  import opened Deadlines
  import opened Capacity

  /** An arrival that will be admitted is not due before a request that its Function still owns. */
  ghost predicate Orderly(c: Config, s: State, e: Event) {
    e.Arrival? && Decision(c, s, e.fid, e.found, e.now) == Pending ==>
      NotBefore(Owned(s, e.fid), e.now + e.found.delay)
  }

  // ----- A refused arrival disturbs nothing, whatever its delay

  lemma RefusedAtIgnoresDelay(s: State, fid: FunctionId, cap: nat, delay: nat, d: nat, checked: bool, now: Instant)
    requires fid in s.queues
    requires var s' := ArriveAt(s, fid, cap, delay, checked, now);
             |s'.log.fate| == |s.log.fate| + 1 && s'.log.fate[|s.log.fate|] != Pending
    ensures ArriveAt(s, fid, cap, d, checked, now) == ArriveAt(s, fid, cap, delay, checked, now)
  {
    hide ExpireIfDue;
    ExpireIfDueFateLength(s, now);
    ExpireIfDueOuter(s, now);
  }

  lemma RefusedIgnoresDelay(c: Config, s: State, fid: FunctionId, cap: nat, delay: nat, d: nat, now: Instant)
    requires var s' := Arrive(c, s, fid, Registered(cap, delay), now);
             |s'.log.fate| == |s.log.fate| + 1 && s'.log.fate[|s.log.fate|] != Pending
    ensures Arrive(c, s, fid, Registered(cap, d), now) == Arrive(c, s, fid, Registered(cap, delay), now)
  {
    hide ExpireIfDue, ArriveAt;
    ExpireIfDueFateLength(s, now);
    var pressed := s.totalQueued >= c.globalCap;
    var s1 := if pressed then ExpireIfDue(s, now) else s;
    if s1.totalQueued < c.globalCap {
      RefusedAtIgnoresDelay(Entry(s1, fid), fid, cap, delay, d, pressed, now);
    }
  }

  lemma RefusedTimely(c: Config, s: State, fid: FunctionId, found: Lookup, now: Instant)
    requires Core(c, s) && Timely(s) && Decision(c, s, fid, found, now) != Pending
    ensures Timely(Arrive(c, s, fid, found, now))
  {
    hide Core, Timely, Arrive, Decision, FalselyFull;
    AdmissionDecision(c, s, fid, found, now);
    if found.Registered? {
      var d := Latest(s, fid, now);
      RefusedIgnoresDelay(c, s, fid, found.cap, found.delay, d, now);
      ArriveTimely(c, s, fid, Registered(found.cap, d), now);
    } else {
      ArriveTimely(c, s, fid, found, now);
    }
  }

  /** A bound on the deadlines that `f` owns. */
  lemma Latest(s: State, f: FunctionId, now: Instant) returns (d: nat)
    requires Timely(s)
    ensures NotBefore(Owned(s, f), now + d)
  {
    var q := Owned(s, f);
    d := if q == [] then 0 else q[|q| - 1].deadline;
    assert ByDeadline(q);
  }

  // ----- An admitted arrival keeps the order exactly when it is in order

  /** An arrival whose fate is open is in its queue. */
  lemma PendingIsAppended(c: Config, s: State, fid: FunctionId, found: Lookup, now: Instant) returns (k: nat)
    requires Core(c, s) && s.clock == now && Timely(s) && Decision(c, s, fid, found, now) == Pending
    ensures k <= |QueueOf(s, fid)| && forall i :: 0 <= i < k ==> QueueOf(s, fid)[i].deadline <= now
    ensures var s' := Arrive(c, s, fid, found, now);
            && s'.outstanding == s.outstanding
            && QueueOf(s', fid) == QueueOf(s, fid)[k..] + [Newcomer(s, fid, found.delay, now)]
  {
    hide Core, Timely, Arrive, Decision, FalselyFull;
    var s' := Arrive(c, s, fid, found, now);
    AdmissionDecision(c, s, fid, found, now);
    ArriveOuter(c, s, fid, found, now);
    var swept, admitted := ArriveQueues(c, s, fid, found, now);
    k := if swept then ExpiredLen(QueueOf(s, fid), now) else 0;
    if !admitted {
      ArriveKeeps(c, s, fid, found, now);
      NewIsQueued(c, s, s');
      var f, i := FindQueued(s'.queues, |s.log.fate|);
      var drop := if swept then ExpiredLen(QueueOf(s, f), now) else 0;
      assert QueueOf(s', f) == QueueOf(s, f)[drop..];
      QueuedIsKnown(c, s, f, drop + i);
    }
  }

  lemma NewIsQueued(c: Config, s: State, s': State)
    requires Core(c, s) && Core(c, s') && s'.outstanding == s.outstanding
    requires |s'.log.fate| == |s.log.fate| + 1 && s'.log.fate[|s.log.fate|] == Pending
    ensures |s.log.fate| in QueuedIds(s'.queues)
  {
    hide Lines, Counters, Permits, Timers, QueuedIds;
    assert FateOk(s', |s.log.fate|);
    if s.outstanding.Some? {
      OutstandingItem(s);
    }
  }

  lemma QueuedIsKnown(c: Config, s: State, f: FunctionId, i: nat)
    requires Core(c, s) && i < |QueueOf(s, f)|
    ensures QueueOf(s, f)[i].id < |s.log.fate|
  {
    hide Lines, Counters, Permits, Timers;
    QueueItem(s, f, i);
  }

  /** What is sorted after an append was not due after the newcomer before it. */
  lemma SortedSoInOrder(a: seq<Envelope>, q: seq<Envelope>, k: nat, e: Envelope, now: Instant)
    requires k <= |q| && ByDeadline(a + (q[k..] + [e])) && now <= e.deadline
    requires forall i :: 0 <= i < k ==> q[i].deadline <= now
    ensures NotBefore(a + q, e.deadline)
  {
    var l, last := a + (q[k..] + [e]), |a| + |q| - k;
    assert l[last] == e;
    forall i | 0 <= i < |a + q| ensures (a + q)[i].deadline <= e.deadline {
      if i < |a| {
        assert (a + q)[i] == l[i];
      } else if i - |a| >= k {
        assert (a + q)[i] == l[i - k];
      }
    }
  }

  lemma AdmittedTimelyIff(c: Config, s: State, fid: FunctionId, found: Lookup, now: Instant)
    requires Core(c, s) && s.clock == now && Timely(s) && Decision(c, s, fid, found, now) == Pending
    ensures Timely(Arrive(c, s, fid, found, now)) <==> NotBefore(Owned(s, fid), now + found.delay)
  {
    assert found.Registered?;
    hide Core, Arrive, Decision, ByDeadline, NotBefore, Cached;
    var s' := Arrive(c, s, fid, found, now);
    if NotBefore(Owned(s, fid), now + found.delay) {
      ArriveTimely(c, s, fid, found, now);
    } else if Timely(s') {
      var k := PendingIsAppended(c, s, fid, found, now);
      assert ByDeadline(Owned(s', fid));
      SortedSoInOrder(OutstandingOf(s, fid), QueueOf(s, fid), k, Newcomer(s, fid, found.delay, now), now);
      assert false;
    }
  }

  // ----- Over whole runs

  /** A step keeps the deadline bookkeeping exactly when it is orderly. */
  lemma StepTimelyIff(c: Config, s: State, e: Event, s': State)
    requires Inv(c, s) && Timely(s) && Step(c, s, e, s')
    ensures Timely(s') <==> Orderly(c, s, e)
  {
    hide Timely, Arrive, Lines, Counters, Books, Permits, LiveIds, LiveIn, NotBefore;
    if e.Arrival? {
      var r := Ready(s, e);
      ReadyKeeps(c, s, e);
      TimelySame(s, r);
      assert Owned(r, e.fid) == Owned(s, e.fid);
      if Decision(c, r, e.fid, e.found, e.now) == Pending {
        AdmittedTimelyIff(c, r, e.fid, e.found, e.now);
      } else {
        RefusedTimely(c, r, e.fid, e.found, e.now);
      }
    } else {
      StepTimely(c, s, e, s');
    }
  }

  ghost predicate OrderlyRun(c: Config, ss: seq<State>, es: seq<Event>) {
    |ss| == |es| + 1 && forall i :: 0 <= i < |es| ==> Orderly(c, ss[i], es[i])
  }

  /**
   Queues are sorted by deadline and the cached deadline is conservative all along a run
   exactly when every admitted arrival is due no earlier than what its Function still owns.
   */
  lemma TimelyRunIff(c: Config, ss: seq<State>, es: seq<Event>)
    requires IsRun(c, ss, es)
    ensures (forall i :: 0 <= i < |ss| ==> Timely(ss[i])) <==> OrderlyRun(c, ss, es)
  {
    hide Timely, Step, Inv, Orderly;
    if forall i :: 0 <= i < |ss| ==> Timely(ss[i]) {
      forall i | 0 <= i < |es| ensures Orderly(c, ss[i], es[i]) {
        RunInv(c, ss, es, i);
        assert Step(c, ss[i], es[i], ss[i + 1]);
        StepTimelyIff(c, ss[i], es[i], ss[i + 1]);
      }
    }
    if OrderlyRun(c, ss, es) {
      forall i | 0 <= i < |ss| ensures Timely(ss[i]) {
        ConservativeCache(c, ss, es, i);
      }
    }
  }

  /**
   The deadline cache is conservative in every state of every orderly run: the timer is armed
   for `next_deadline`, which is no later than any queued deadline, and each Function's
   requests are sorted by deadline, its outstanding one first.
   */
  lemma {:induction false} ConservativeCache(c: Config, ss: seq<State>, es: seq<Event>, i: nat)
    requires IsRun(c, ss, es) && OrderlyRun(c, ss, es) && i < |ss|
    ensures ss[i].timer == ss[i].nextDeadline
    ensures Timely(ss[i])
  {
    hide Timely, Step, Inv, Orderly;
    RunInv(c, ss, es, i);
    InvTimer(c, ss[i]);
    if i == 0 {
      InitTimely(c, ss[0].clock);
    } else {
      ConservativeCache(c, ss, es, i - 1);
      RunInv(c, ss, es, i - 1);
      assert Step(c, ss[i - 1], es[i - 1], ss[i - 1 + 1]) && Orderly(c, ss[i - 1], es[i - 1]);
      StepTimelyIff(c, ss[i - 1], es[i - 1], ss[i]);
    }
  }

  /** No request is ever sent to Pool when its deadline is at or before the instant of the attempt. */
  lemma NoStaleDispatch(c: Config, ss: seq<State>, es: seq<Event>, i: nat)
    requires IsRun(c, ss, es) && OrderlyRun(c, ss, es) && i < |es|
    requires es[i].SlotAcquired? && ss[i + 1].outstanding.Some?
    ensures es[i].now < ss[i + 1].outstanding.value.deadline
  {
    hide Timely, Step, Orderly, Init, Inv;
    ConservativeCache(c, ss, es, i);
    RunInv(c, ss, es, i);
    assert Step(c, ss[i], es[i], ss[i + 1]);
    AttemptIsFresh(c, ss[i], es[i], ss[i + 1]);
  }

  /** No false QueueFull: the fate of every arrival is the one that live requests decide. */
  lemma NoFalseQueueFull(c: Config, ss: seq<State>, es: seq<Event>, i: nat)
    requires IsRun(c, ss, es) && OrderlyRun(c, ss, es) && i < |es| && es[i].Arrival?
    ensures |ss[i + 1].log.fate| == ss[i].received + 1
    ensures ss[i + 1].log.fate[ss[i].received] == Decision(c, ss[i], es[i].fid, es[i].found, es[i].now)
  {
    hide Timely, Arrive, OrderlyRun, Lines, Counters, Permits, Timers, LiveIds, LiveIn, FalselyFull;
    RunInv(c, ss, es, i);
    ConservativeCache(c, ss, es, i);
    var s, e := ss[i], es[i];
    assert Step(c, s, e, ss[i + 1]);
    ReadyKeeps(c, s, e);
    TimelySame(s, Ready(s, e));
    AdmissionDecision(c, Ready(s, e), e.fid, e.found, e.now);
  }
}
