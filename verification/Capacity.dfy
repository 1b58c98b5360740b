/** Queue capacity: when a request is refused, and how full the queues can get. */
module Capacity {
  import opened Admission
  import opened Invariant
  import opened Preservation
  import opened Deadlines
  import opened Guarantees

  // ----- The admission decision, stated without sweeps, caches or counters

  /** The requests of a queue that have not expired. */
  function LiveIn(q: seq<Envelope>, now: Instant): set<nat> {
    set i | 0 <= i < |q| && now < q[i].deadline :: q[i].id
  }

  ghost function LiveIds(qs: Queues, now: Instant): set<nat> {
    set f, x | f in qs && x in LiveIn(qs[f].items, now) :: x
  }

  /** What should become of an arrival: only requests that have not expired may fill a queue. */
  ghost function Decision(c: Config, s: State, fid: FunctionId, found: Lookup, now: Instant): Fate {
    match found
    case Unregistered => Failed(Rejected(UnknownFunction))
    case Registered(cap, _) =>
      if |LiveIds(s.queues, now)| >= c.globalCap then Failed(QueueFullGlobal)
      else if |LiveIn(QueueOf(s, fid), now)| >= cap then Failed(QueueFullFunction)
      else Pending
  }

  lemma LiveAfterSweep(q: seq<Envelope>, now: Instant, k: nat)
    requires k <= |q| && Unexpired(q[k..], now) && forall i :: 0 <= i < k ==> q[i].deadline <= now
    ensures Ids(q[k..]) == LiveIn(q, now)
  {
    assert forall i :: 0 <= i < |q[k..]| ==> q[k..][i] == q[k + i];
    forall x | x in LiveIn(q, now) ensures x in Ids(q[k..]) {
      var i :| 0 <= i < |q| && now < q[i].deadline && q[i].id == x;
      assert q[k..][i - k].id == x;
    }
  }

  /** After a sweep that was due, or none if none was, each queue is its live requests. */
  lemma LiveQueue(s: State, now: Instant, f: FunctionId)
    requires Timely(s)
    ensures Ids(QueueOf(ExpireIfDue(s, now), f)) == LiveIn(QueueOf(s, f), now)
  {
    hide Ids, LiveIn, Timely, ExpireIfDue;
    ExpireIfDueTimely(s, now);
    ExpireIfDueShape(s, now);
    var q := QueueOf(s, f);
    var k := if Due(s, now) then ExpiredLen(q, now) else 0;
    assert QueueOf(ExpireIfDue(s, now), f) == q[k..];
    assert Unexpired(QueueOf(ExpireIfDue(s, now), f), now);
    LiveAfterSweep(q, now, k);
  }

  lemma LiveQueues(s: State, now: Instant)
    requires Timely(s)
    ensures QueuedIds(ExpireIfDue(s, now).queues) == LiveIds(s.queues, now)
  {
    hide Ids, LiveIn, Timely, ExpireIfDue;
    var qs, qs' := s.queues, ExpireIfDue(s, now).queues;
    ExpireIfDueOuter(s, now);
    forall f | f in qs ensures Ids(qs'[f].items) == LiveIn(qs[f].items, now) {
      LiveQueue(s, now, f);
    }
  }

  lemma LiveCounts(c: Config, s: State, now: Instant, f: FunctionId)
    requires Core(c, s) && Timely(s)
    ensures var s' := ExpireIfDue(s, now);
            && |LiveIds(s.queues, now)| == s'.totalQueued <= s.totalQueued
            && |LiveIn(QueueOf(s, f), now)| == |QueueOf(s', f)| <= |QueueOf(s, f)|
  {
    hide Timely, ExpireIfDue, Ids, LiveIn, LiveIds, Lines, Books, Permits, QueuedIds;
    var s' := ExpireIfDue(s, now);
    LiveQueues(s, now);
    LiveQueue(s, now, f);
    ExpireIfDueKeeps(c, s, now);
    if f in s'.queues {
      QueueOrdered(s', f);
    }
    DistinctIds(QueueOf(s', f));
    SweepShrinks(s, now, f);
  }

  lemma SweepShrinks(s: State, now: Instant, f: FunctionId)
    ensures ExpireIfDue(s, now).totalQueued <= s.totalQueued
    ensures |QueueOf(ExpireIfDue(s, now), f)| <= |QueueOf(s, f)|
  {
    hide EarliestHead, SweptIds, BlockedSet, FailAll;
  }

  lemma ExpireIfDueFateLength(s: State, now: Instant)
    ensures |ExpireIfDue(s, now).log.fate| == |s.log.fate|
  {
    hide EarliestHead, SweptIds, BlockedSet, Sweep;
  }

  // ----- What the code decides by

  /** The decision by what the conditional sweep leaves, expired or not. */
  ghost function SweptDecision(c: Config, s: State, fid: FunctionId, found: Lookup, now: Instant): Fate {
    match found
    case Unregistered => Failed(Rejected(UnknownFunction))
    case Registered(cap, _) =>
      if ExpireIfDue(s, now).totalQueued >= c.globalCap then Failed(QueueFullGlobal)
      else if |QueueOf(ExpireIfDue(s, now), fid)| >= cap then Failed(QueueFullFunction)
      else Pending
  }

  lemma SweepEntryQueue(s: State, fid: FunctionId, now: Instant)
    ensures QueueOf(ExpireIfDue(Entry(s, fid), now), fid) == QueueOf(ExpireIfDue(s, now), fid)
  {
    hide ExpireIfDue, Sweep;
    ExpireIfDueShape(s, now);
    ExpireIfDueShape(Entry(s, fid), now);
    if fid !in s.queues {
      SweepEntry(s.queues, fid, now);
      ExpireIfDueOuter(s, now);
    }
  }

  lemma ArriveAtDecides(s: State, fid: FunctionId, cap: nat, delay: nat, checked: bool, now: Instant)
    requires fid in s.queues
    ensures var s' := ArriveAt(s, fid, cap, delay, checked, now);
            var q := if checked then QueueOf(s, fid) else QueueOf(ExpireIfDue(s, now), fid);
            && |s'.log.fate| == |s.log.fate| + 1
            && s'.log.fate[|s.log.fate|] == if |q| >= cap then Failed(QueueFullFunction) else Pending
  {
    hide ExpireIfDue;
    SweepShrinks(s, now, fid);
    ExpireIfDueOuter(s, now);
    ExpireIfDueFateLength(s, now);
  }

  /**
   In any state, an arrival meets the fate decided by what a sweep that is due leaves: looking
   only under pressure, and only once, decides the same.
   */
  lemma ArrivalIsSweptDecision(c: Config, s: State, fid: FunctionId, found: Lookup, now: Instant)
    ensures var s' := Arrive(c, s, fid, found, now);
            && |s'.log.fate| == |s.log.fate| + 1
            && s'.log.fate[|s.log.fate|] == SweptDecision(c, s, fid, found, now)
  {
    hide ExpireIfDue, ArriveAt;
    if found.Registered? {
      var pressed := s.totalQueued >= c.globalCap;
      var s1 := if pressed then ExpireIfDue(s, now) else s;
      SweepShrinks(s, now, fid);
      ExpireIfDueFateLength(s, now);
      if s1.totalQueued < c.globalCap {
        ArriveAtDecides(Entry(s1, fid), fid, found.cap, found.delay, pressed, now);
        SweepEntryQueue(s, fid, now);
      }
    }
  }

  // ----- When that is the decision by live requests

  /** A sweep never takes a live request. */
  lemma LiveStays(s: State, now: Instant, f: FunctionId)
    ensures LiveIn(QueueOf(s, f), now) <= Ids(QueueOf(ExpireIfDue(s, now), f))
  {
    hide ExpireIfDue, LiveIn, Ids;
    ExpireIfDueShape(s, now);
    var q := QueueOf(s, f);
    var k := if Due(s, now) then ExpiredLen(q, now) else 0;
    assert QueueOf(ExpireIfDue(s, now), f) == q[k..];
    LiveInSuffix(q, now, k);
  }

  lemma LiveInSuffix(q: seq<Envelope>, now: Instant, k: nat)
    requires k <= |q| && forall i :: 0 <= i < k ==> q[i].deadline <= now
    ensures LiveIn(q, now) <= Ids(q[k..])
  {
    forall x | x in LiveIn(q, now) ensures x in Ids(q[k..]) {
      var i :| 0 <= i < |q| && now < q[i].deadline && q[i].id == x;
      assert q[k..][i - k].id == x;
    }
  }

  lemma LiveAllStay(s: State, now: Instant)
    ensures LiveIds(s.queues, now) <= QueuedIds(ExpireIfDue(s, now).queues)
  {
    hide Ids, LiveIn, ExpireIfDue;
    ExpireIfDueOuter(s, now);
    forall f | f in s.queues
      ensures LiveIn(s.queues[f].items, now) <= Ids(ExpireIfDue(s, now).queues[f].items)
    {
      LiveStays(s, now, f);
    }
  }

  /** What a due sweep leaves is at least what is live. */
  lemma LiveAtMost(c: Config, s: State, now: Instant, f: FunctionId)
    requires Core(c, s)
    ensures |LiveIds(s.queues, now)| <= ExpireIfDue(s, now).totalQueued
    ensures |LiveIn(QueueOf(s, f), now)| <= |QueueOf(ExpireIfDue(s, now), f)|
  {
    hide ExpireIfDue, Ids, LiveIn, LiveIds, Lines, Books, Permits, Timers, QueuedIds;
    var s' := ExpireIfDue(s, now);
    ExpireIfDueKeeps(c, s, now);
    LiveAllStay(s, now);
    LiveStays(s, now, f);
    SubsetSize(LiveIds(s.queues, now), QueuedIds(s'.queues));
    SubsetSize(LiveIn(QueueOf(s, f), now), Ids(QueueOf(s', f)));
    if f in s'.queues {
      QueueOrdered(s', f);
    }
    DistinctIds(QueueOf(s', f));
  }

  /**
   Expired requests that a due sweep cannot reach fill a queue that the live ones do not: the
   whole admission queue, or the Function's.
   */
  ghost predicate FalselyFull(c: Config, s: State, fid: FunctionId, found: Lookup, now: Instant) {
    var s1 := ExpireIfDue(s, now);
    && found.Registered?
    && (|| |LiveIds(s.queues, now)| < c.globalCap <= s1.totalQueued
        || (s1.totalQueued < c.globalCap && |LiveIn(QueueOf(s, fid), now)| < found.cap <= |QueueOf(s1, fid)|))
  }

  /** The fate of an arrival is not the one that live requests decide exactly when a queue is falsely full. */
  lemma FalseRefusalIff(c: Config, s: State, fid: FunctionId, found: Lookup, now: Instant)
    requires Core(c, s)
    ensures var s' := Arrive(c, s, fid, found, now);
            && |s'.log.fate| == |s.log.fate| + 1
            && (s'.log.fate[|s.log.fate|] != Decision(c, s, fid, found, now) <==> FalselyFull(c, s, fid, found, now))
  {
    hide Core, Arrive, ExpireIfDue, LiveIn, LiveIds;
    ArrivalIsSweptDecision(c, s, fid, found, now);
    LiveAtMost(c, s, now, fid);
  }

  /** The same for every arrival of every run. */
  lemma FalseRefusalRunIff(c: Config, ss: seq<State>, es: seq<Event>, i: nat)
    requires IsRun(c, ss, es) && i < |es| && es[i].Arrival?
    ensures |ss[i + 1].log.fate| == ss[i].received + 1
    ensures ss[i + 1].log.fate[ss[i].received] != Decision(c, ss[i], es[i].fid, es[i].found, es[i].now) <==>
            FalselyFull(c, ss[i], es[i].fid, es[i].found, es[i].now)
  {
    hide Arrive, ExpireIfDue, Lines, Counters, Permits, Timers, LiveIds, LiveIn;
    RunInv(c, ss, es, i);
    var s, e := ss[i], es[i];
    assert Step(c, s, e, ss[i + 1]);
    ReadyKeeps(c, s, e);
    SweepReads(s, Ready(s, e), e.now);
    FalseRefusalIff(c, Ready(s, e), e.fid, e.found, e.now);
  }

  lemma SweepReads(s: State, s': State, now: Instant)
    requires s'.queues == s.queues && s'.totalQueued == s.totalQueued && s'.nextDeadline == s.nextDeadline
    ensures ExpireIfDue(s', now).queues == ExpireIfDue(s, now).queues
    ensures ExpireIfDue(s', now).totalQueued == ExpireIfDue(s, now).totalQueued
  {
    hide EarliestHead, SweptIds, BlockedSet, FailAll, Sweep;
  }

  /** With sorted queues and a conservative cache no queue is falsely full: live requests decide. */
  lemma AdmissionDecision(c: Config, s: State, fid: FunctionId, found: Lookup, now: Instant)
    requires Core(c, s) && Timely(s)
    ensures !FalselyFull(c, s, fid, found, now)
    ensures var s' := Arrive(c, s, fid, found, now);
            && |s'.log.fate| == |s.log.fate| + 1
            && s'.log.fate[|s.log.fate|] == Decision(c, s, fid, found, now)
  {
    hide Core, Timely, Arrive, ExpireIfDue, LiveIn, LiveIds, Decision;
    LiveCounts(c, s, now, fid);
    FalseRefusalIff(c, s, fid, found, now);
  }

  // ----- How full the queues get

  ghost predicate GlobalRoom(c: Config, s: State) {
    s.totalQueued <= c.globalCap + 1 - OutstandingCount(s)
  }

  ghost predicate FunctionRoom(s: State, f: FunctionId, cap: nat) {
    |QueueOf(s, f)| <= cap + 1 - |OutstandingOf(s, f)|
  }

  lemma ArriveAtGrows(s: State, fid: FunctionId, cap: nat, delay: nat, checked: bool, now: Instant, f: FunctionId)
    requires fid in s.queues
    ensures var s' := ArriveAt(s, fid, cap, delay, checked, now);
            && s'.totalQueued <= s.totalQueued + 1
            && (|QueueOf(s', f)| <= |QueueOf(s, f)| || (f == fid && |QueueOf(s', f)| <= cap))
  {
    hide ExpireIfDue;
    ExpireIfDueOuter(s, now);
    SweepShrinks(s, now, f);
  }

  lemma ArriveGrows(c: Config, s: State, fid: FunctionId, found: Lookup, now: Instant, f: FunctionId)
    ensures var s' := Arrive(c, s, fid, found, now);
            && (s'.totalQueued <= s.totalQueued || s'.totalQueued <= c.globalCap)
            && (|QueueOf(s', f)| <= |QueueOf(s, f)| ||
                (f == fid && found.Registered? && |QueueOf(s', f)| <= found.cap))
  {
    hide ExpireIfDue, ArriveAt;
    if found.Registered? {
      var pressed := s.totalQueued >= c.globalCap;
      var s1 := if pressed then ExpireIfDue(s, now) else s;
      SweepShrinks(s, now, f);
      if s1.totalQueued < c.globalCap {
        ArriveAtGrows(Entry(s1, fid), fid, found.cap, found.delay, pressed, now, f);
        assert QueueOf(Entry(s1, fid), f) == QueueOf(s1, f);
      }
    }
  }

  lemma SlotGrows(c: Config, s: State, e: Event, f: FunctionId)
    requires Core(c, s) && e.SlotAcquired? && s.waiting && s.free > 0
    requires IsPick(BeforeAttempt(s, e.now).queues, e.pick)
    ensures var s' := Attempt(BeforeAttempt(s, e.now), e.pick, e.sent);
            && s'.totalQueued + OutstandingCount(s') <= s.totalQueued
            && |QueueOf(s', f)| + |OutstandingOf(s', f)| <= |QueueOf(s, f)|
            && s.outstanding.None?
  {
    hide BeforeAttempt, Core, ExpireIfDue;
    SlotFacts(c, s, e.pick, e.now);
    BeforeAttemptFree(s, e.now);
    SweepShrinks(s.(waiting := false), e.now, f);
    ExpireIfDueOuter(s.(waiting := false), e.now);
    if e.pick.Some? {
      PopThenPush(BeforeAttempt(s, e.now), e.pick.value);
    }
  }

  lemma ReplyGrows(c: Config, s: State, resp: DispatchResponse, ok: bool, reset: Instant, now: Instant, f: FunctionId)
    requires Replyable(s)
    ensures var s' := Reply(c, s, resp, ok, reset, now);
            && s'.outstanding.None?
            && s'.totalQueued == s.totalQueued + (if resp.WouldBlock? then 1 else 0)
            && |QueueOf(s', f)| == |QueueOf(s, f)| + (if resp.WouldBlock? then |OutstandingOf(s, f)| else 0)
  {
    if resp.WouldBlock? {
      BlockGrows(c, s, resp.block, reset, now, f);
    }
  }

  lemma BlockGrows(c: Config, s: State, why: BlockReason, reset: Instant, now: Instant, f: FunctionId)
    requires Replyable(s)
    ensures var s' := Reply(c, s, WouldBlock(why), true, reset, now);
            && s'.outstanding.None? && s'.totalQueued == s.totalQueued + 1
            && |QueueOf(s', f)| == |QueueOf(s, f)| + |OutstandingOf(s, f)|
  {
    BlockQueues(c, s, why, reset, now);
  }

  lemma ExpireShrinks(s: State, now: Instant, f: FunctionId)
    ensures Expire(s, now).totalQueued <= s.totalQueued && Expire(s, now).outstanding == s.outstanding
    ensures |QueueOf(Expire(s, now), f)| <= |QueueOf(s, f)|
  {
    hide EarliestHead, SweptIds, BlockedSet, FailAll;
  }

  lemma HandleRoom(c: Config, s: State, e: Event, f: FunctionId, cap: nat)
    requires Core(c, s) && GlobalRoom(c, s) && FunctionRoom(s, f, cap)
    requires e.SlotAcquired? ==> s.waiting && s.free > 0 && IsPick(BeforeAttempt(s, e.now).queues, e.pick)
    requires e.PoolReply? || e.PoolGone? ==> Replyable(s)
    requires e.Arrival? && e.fid == f && e.found.Registered? ==> e.found.cap == cap
    ensures var s' := Handle(c, s, e);
            && GlobalRoom(c, s') && FunctionRoom(s', f, cap)
            && (s'.totalQueued > s.totalQueued && s'.totalQueued > c.globalCap ==>
                  e.PoolReply? && e.resp.WouldBlock?)
            && (|QueueOf(s', f)| > |QueueOf(s, f)| && |QueueOf(s', f)| > cap ==>
                  e.PoolReply? && e.resp.WouldBlock? && OutstandingOf(s, f) != [])
  {
    hide Core, Arrive, BeforeAttempt, Attempt, Expire, Reply;
    match e
    case Arrival(fid, found, now) =>
      ArriveGrows(c, s, fid, found, now, f);
      ArriveOuter(c, s, fid, found, now);
    case SlotAcquired(_, _, _) => SlotGrows(c, s, e, f);
    case PoolReply(resp, ok, reset, now) => ReplyGrows(c, s, resp, ok, reset, now, f);
    case DeadlineFired(now) => ExpireShrinks(s, now, f);
    case _ =>
      assert |QueueOf(Handle(c, s, e), f)| == |QueueOf(s, f)|;
  }

  ghost predicate FixedCap(es: seq<Event>, f: FunctionId, cap: nat) {
    forall i :: 0 <= i < |es| && es[i].Arrival? && es[i].fid == f && es[i].found.Registered? ==>
      es[i].found.cap == cap
  }

  /**
   Queued plus outstanding never exceeds the global cap by more than one, and for a Function
   whose cap does not change likewise. A queue goes over its cap only when a WouldBlock
   reply puts the outstanding request back.
   */
  lemma {:induction false} CapacityBound(c: Config, ss: seq<State>, es: seq<Event>, f: FunctionId, cap: nat, i: nat)
    requires IsRun(c, ss, es) && FixedCap(es, f, cap) && i < |ss|
    ensures ss[i].totalQueued + OutstandingCount(ss[i]) <= c.globalCap + 1
    ensures |QueueOf(ss[i], f)| + |OutstandingOf(ss[i], f)| <= cap + 1
    ensures i < |es| && ss[i + 1].totalQueued > ss[i].totalQueued && ss[i + 1].totalQueued > c.globalCap ==>
              es[i].PoolReply? && es[i].resp.WouldBlock?
    ensures i < |es| && |QueueOf(ss[i + 1], f)| > |QueueOf(ss[i], f)| && |QueueOf(ss[i + 1], f)| > cap ==>
              es[i].PoolReply? && es[i].resp.WouldBlock? && OutstandingOf(ss[i], f) != []
  {
    hide Step, Inv;
    if i > 0 {
      CapacityBound(c, ss, es, f, cap, i - 1);
      RunInv(c, ss, es, i - 1);
      assert Step(c, ss[i - 1], es[i - 1], ss[i - 1 + 1]);
      StepRoom(c, ss[i - 1], es[i - 1], ss[i], f, cap);
    }
    if i < |es| {
      RunInv(c, ss, es, i);
      assert Step(c, ss[i], es[i], ss[i + 1]);
      StepRoom(c, ss[i], es[i], ss[i + 1], f, cap);
    }
  }

  lemma StepRoom(c: Config, s: State, e: Event, s': State, f: FunctionId, cap: nat)
    requires Inv(c, s) && Step(c, s, e, s') && GlobalRoom(c, s) && FunctionRoom(s, f, cap)
    requires e.Arrival? && e.fid == f && e.found.Registered? ==> e.found.cap == cap
    ensures GlobalRoom(c, s') && FunctionRoom(s', f, cap)
    ensures s'.totalQueued > s.totalQueued && s'.totalQueued > c.globalCap ==> e.PoolReply? && e.resp.WouldBlock?
    ensures |QueueOf(s', f)| > |QueueOf(s, f)| && |QueueOf(s', f)| > cap ==>
              e.PoolReply? && e.resp.WouldBlock? && OutstandingOf(s, f) != []
  {
    hide Lines, Counters, Books, Permits, Timers, Handle, BeforeAttempt;
    ReadyKeeps(c, s, e);
    HandleRoom(c, Ready(s, e), e, f, cap);
  }
}
