/** Blocked Functions: what wakes them, and why losing a wakeup does no harm. */
module Wakeups {
  import opened Options
  import opened Admission
  import opened Invariant
  import opened Preservation
  import opened Deadlines

  // ----- Pool events are hints

  lemma WokenAfter(qs: Queues, a: PoolEvent, b: PoolEvent)
    ensures Woken(MakeRunnable(qs, Woken(qs, a)), b) == Woken(qs, b) - Woken(qs, a)
  {
  }

  lemma MakeRunnableTwice(qs: Queues, fs: set<FunctionId>, gs: set<FunctionId>)
    ensures MakeRunnable(MakeRunnable(qs, fs), gs) == MakeRunnable(qs, fs + gs)
  {
  }

  lemma WakeTwice(s: State, a: PoolEvent, b: PoolEvent)
    ensures Wake(Wake(s, a), b) ==
            s.(queues := MakeRunnable(s.queues, Woken(s.queues, a) + Woken(s.queues, b)),
               blockedCount := s.blockedCount - |Woken(s.queues, a) + Woken(s.queues, b)|)
  {
    hide Woken, MakeRunnable;
    var x, y := Woken(s.queues, a), Woken(s.queues, b);
    WokenAfter(s.queues, a, b);
    MakeRunnableTwice(s.queues, x, y - x);
    assert x + (y - x) == x + y;
    assert |x + (y - x)| == |x| + |y - x|;
  }

  /** Any two Pool events commute. */
  lemma EventsCommute(s: State, a: PoolEvent, b: PoolEvent)
    ensures Wake(Wake(s, a), b) == Wake(Wake(s, b), a)
  {
    hide Woken, MakeRunnable, Wake;
    WakeTwice(s, a, b);
    WakeTwice(s, b, a);
    assert Woken(s.queues, a) + Woken(s.queues, b) == Woken(s.queues, b) + Woken(s.queues, a);
  }

  function WakeAll(s: State, evs: seq<PoolEvent>): State
    decreases |evs|
  {
    if evs == [] then s else WakeAll(Wake(s, evs[0]), evs[1..])
  }

  /** No sequence of Pool events moves a request, a permit, a timer or a statistic. */
  lemma {:induction false} EventsMoveNothing(s: State, evs: seq<PoolEvent>)
    ensures WakeAll(s, evs) == s.(queues := WakeAll(s, evs).queues, blockedCount := WakeAll(s, evs).blockedCount)
    ensures forall f :: QueueOf(WakeAll(s, evs), f) == QueueOf(s, f)
    decreases |evs|
  {
    if evs != [] {
      EventsMoveNothing(Wake(s, evs[0]), evs[1..]);
    }
  }

  lemma UnblockAllAfterWake(s: State, ev: PoolEvent)
    requires Counters(s)
    ensures UnblockAll(Wake(s, ev)) == UnblockAll(s)
  {
    hide QueuedIds;
    var s', fs, all := Wake(s, ev), Woken(s.queues, ev), BlockedSet(s.queues);
    MakeRunnableSets(s.queues, fs);
    MakeRunnableTwice(s.queues, fs, all - fs);
    assert fs + (all - fs) == all;
    assert |all - fs| == |all| - |fs|;
    if s.blockedCount == 0 {
      assert fs == {};
      assert MakeRunnable(s.queues, {}) == s.queues;
    } else if s'.blockedCount == 0 {
      assert all - fs == {};
      assert fs == all;
    }
  }

  /**
   Lost, repeated or reordered wakeups are harmless: any sequence of Pool events followed by
   one fallback sweep leaves exactly what the sweep alone leaves.
   */
  lemma {:induction false} LossyWakeupsAreHarmless(c: Config, s: State, evs: seq<PoolEvent>)
    requires Core(c, s)
    ensures UnblockAll(WakeAll(s, evs)) == UnblockAll(s)
    decreases |evs|
  {
    hide Lines, Books, Permits, Timers, UnblockAll;
    if evs != [] {
      UnblockKeeps(c, s, Woken(s.queues, evs[0]), Wake(s, evs[0]));
      LossyWakeupsAreHarmless(c, Wake(s, evs[0]), evs[1..]);
      UnblockAllAfterWake(s, evs[0]);
    }
  }

  // ----- No retry without cause

  /** `f` is blocked for reason `why`, with request `id` at its head. */
  predicate BlockedOn(s: State, f: FunctionId, why: BlockReason, id: nat) {
    && f in s.queues && s.queues[f].IsBlocked() && s.queues[f].state.reason == why
    && s.queues[f].items != [] && s.queues[f].items[0].id == id
  }

  /** Request `id`, at the head of `f`, expired by `now` and is gone. */
  predicate HeadExpired(s: State, s': State, f: FunctionId, id: nat, now: Instant) {
    && QueueOf(s, f) != [] && QueueOf(s, f)[0].id == id && QueueOf(s, f)[0].deadline <= now
    && (QueueOf(s', f) == [] || QueueOf(s', f)[0].id > id)
  }

  /** `f` can be scheduled again. */
  predicate Unblocked(s: State, f: FunctionId) {
    f in s.queues && s.queues[f].state.Runnable?
  }

  /** What may end a block of `f` for `why`. */
  predicate Cause(s: State, e: Event, s': State, f: FunctionId, why: BlockReason, id: nat) {
    && Unblocked(s', f)
    && (|| (e.PoolWakeup? && Clears(e.ev, f, why))
        || e.FallbackTick?
        || HeadExpired(s, s', f, id, e.now))
  }

  /** A sweep either leaves a blocked queue alone or takes its head. */
  lemma SweepBlocked(s: State, f: FunctionId, why: BlockReason, id: nat, now: Instant)
    requires Lines(s) && BlockedOn(s, f, why, id)
    ensures var q, k := s.queues[f], ExpiredLen(s.queues[f].items, now);
            if k == 0 then SweepQueue(q, now) == q
            else SweepQueue(q, now).state.Runnable? && q.items[0].deadline <= now && forall i :: k <= i < |q.items| ==> q.items[i].id > id
  {
    hide Lines;
    QueueOrdered(s, f);
    assert s.queues[f].items[0..] == s.queues[f].items;
  }

  lemma ArrivalBlocked(c: Config, s: State, e: Event, f: FunctionId, why: BlockReason, id: nat)
    requires Lines(s) && BlockedOn(s, f, why, id) && e.Arrival?
    ensures var s' := Arrive(c, s, e.fid, e.found, e.now);
            BlockedOn(s', f, why, id) || (HeadExpired(s, s', f, id, e.now) && Unblocked(s', f))
  {
    hide Lines, Arrive;
    var s' := Arrive(c, s, e.fid, e.found, e.now);
    var swept, admitted := ArriveQueues(c, s, e.fid, e.found, e.now);
    SweepBlocked(s, f, why, id, e.now);
    QueueItem(s, f, 0);
    var k := if swept then ExpiredLen(QueueOf(s, f), e.now) else 0;
    assert QueueOf(s', f)[..|QueueOf(s, f)| - k] == QueueOf(s, f)[k..];
  }

  lemma ExpireBlocked(s: State, f: FunctionId, why: BlockReason, id: nat, now: Instant)
    requires Lines(s) && BlockedOn(s, f, why, id)
    ensures var s' := Expire(s, now);
            BlockedOn(s', f, why, id) || (HeadExpired(s, s', f, id, now) && Unblocked(s', f))
  {
    hide Lines, EarliestHead, SweptIds, BlockedSet, FailAll;
    SweepBlocked(s, f, why, id, now);
  }

  /** An attempt touches only the picked queue, which is runnable. */
  lemma AttemptQueue(s: State, pick: Option<FunctionId>, sent: bool, f: FunctionId)
    requires IsPick(s.queues, pick) && f in s.queues
    ensures var s' := Attempt(s, pick, sent);
            && f in s'.queues
            && (pick != Some(f) ==> s'.queues[f] == s.queues[f])
            && (pick == Some(f) ==>
                  && s.queues[f].IsRunnable() && s'.queues[f].state.Runnable?
                  && (s'.queues[f].items == s.queues[f].items[1..] || s'.queues[f].items == s.queues[f].items))
  {
    if pick.Some? {
      PopThenPush(s, pick.value);
    }
  }

  lemma BeforeAttemptQueue(s: State, now: Instant, f: FunctionId)
    requires f in s.queues
    ensures var b := BeforeAttempt(s, now);
            f in b.queues && b.queues[f] == if Due(s, now) then SweepQueue(s.queues[f], now) else s.queues[f]
  {
    hide ExpireIfDue, BeforeAttempt;
    BeforeAttemptFree(s, now);
    ExpireIfDueShape(s.(waiting := false), now);
  }

  lemma SlotBlocked(s: State, e: Event, f: FunctionId, why: BlockReason, id: nat)
    requires Lines(s) && BlockedOn(s, f, why, id)
    requires e.SlotAcquired? && IsPick(BeforeAttempt(s, e.now).queues, e.pick)
    ensures var s' := Attempt(BeforeAttempt(s, e.now), e.pick, e.sent);
            BlockedOn(s', f, why, id) || (HeadExpired(s, s', f, id, e.now) && Unblocked(s', f))
  {
    hide Lines, BeforeAttempt, Attempt;
    SweepBlocked(s, f, why, id, e.now);
    BeforeAttemptQueue(s, e.now, f);
    AttemptQueue(BeforeAttempt(s, e.now), e.pick, e.sent, f);
  }

  lemma ReplyBlocked(c: Config, s: State, resp: DispatchResponse, ok: bool, reset: Instant, now: Instant,
                     f: FunctionId, why: BlockReason, id: nat)
    requires Permits(c, s) && Replyable(s) && BlockedOn(s, f, why, id)
    ensures BlockedOn(Reply(c, s, resp, ok, reset, now), f, why, id)
  {
    if resp.WouldBlock? {
      BlockQueues(c, s, resp.block, reset, now);
    }
  }

  lemma HandleBlocked(c: Config, s: State, e: Event, f: FunctionId, why: BlockReason, id: nat)
    requires Core(c, s) && BlockedOn(s, f, why, id)
    requires e.SlotAcquired? ==> IsPick(BeforeAttempt(s, e.now).queues, e.pick)
    requires e.PoolReply? || e.PoolGone? ==> Replyable(s)
    ensures var s' := Handle(c, s, e);
            BlockedOn(s', f, why, id) || Cause(s, e, s', f, why, id)
  {
    hide Lines, Counters, Books, Permits, Timers, Arrive, BeforeAttempt, Attempt, Expire, Reply;
    match e
    case Arrival(_, _, _) => ArrivalBlocked(c, s, e, f, why, id);
    case SlotAcquired(_, _, _) => SlotBlocked(s, e, f, why, id);
    case PoolReply(resp, ok, reset, now) => ReplyBlocked(c, s, resp, ok, reset, now, f, why, id);
    case DeadlineFired(now) => ExpireBlocked(s, f, why, id, now);
    case _ =>
  }

  /**
   A block lasts as long as its request stays at the head and nothing clears it: every step
   either leaves the Function blocked on the same request or makes it runnable for a cause.
   */
  lemma StepBlocked(c: Config, s: State, e: Event, s': State, f: FunctionId, why: BlockReason, id: nat)
    requires Inv(c, s) && Step(c, s, e, s') && BlockedOn(s, f, why, id)
    ensures BlockedOn(s', f, why, id) || Cause(s, e, s', f, why, id)
  {
    hide Lines, Counters, Books, Permits, Timers, Handle, BeforeAttempt;
    ReadyKeeps(c, s, e);
    HandleBlocked(c, Ready(s, e), e, f, why, id);
  }

  lemma {:induction false} FindCause(c: Config, ss: seq<State>, es: seq<Event>, k: nat, j: nat,
                                     f: FunctionId, why: BlockReason, id: nat) returns (m: nat)
    requires IsRun(c, ss, es) && k <= j < |es| && BlockedOn(ss[k], f, why, id)
    requires OutstandingOf(ss[j + 1], f) != []
    ensures k <= m <= j && Cause(ss[m], es[m], ss[m + 1], f, why, id)
    decreases j - k
  {
    hide Step, Inv, Cause;
    RunInv(c, ss, es, k);
    assert Step(c, ss[k], es[k], ss[k + 1]);
    StepBlocked(c, ss[k], es[k], ss[k + 1], f, why, id);
    if Cause(ss[k], es[k], ss[k + 1], f, why, id) {
      m := k;
    } else {
      RunInv(c, ss, es, k + 1);
      OutstandingNotBlocked(c, ss[k + 1], f, why, id);
      m := FindCause(c, ss, es, k + 1, j, f, why, id);
    }
  }

  lemma OutstandingNotBlocked(c: Config, s: State, f: FunctionId, why: BlockReason, id: nat)
    requires Inv(c, s) && BlockedOn(s, f, why, id)
    ensures OutstandingOf(s, f) == []
  {
  }

  /** A WouldBlock reply leaves its Function blocked on the request that was tried. */
  lemma ReplyBlocks(c: Config, s: State, e: Event, s': State)
    requires Inv(c, s) && Step(c, s, e, s') && e.PoolReply? && e.resp.WouldBlock?
    ensures s.outstanding.Some? && BlockedOn(s', s.outstanding.value.fid, e.resp.block, s.outstanding.value.id)
  {
    hide Lines, Counters, Books, Permits, Timers, Reply;
    BlockQueues(c, Ready(s, e), e.resp.block, e.reset, e.now);
    ReplyIgnoresForward(c, Ready(s, e), e.resp, e.forwardOk, e.reset, e.now);
  }

  lemma ReplyIgnoresForward(c: Config, s: State, resp: DispatchResponse, ok: bool, reset: Instant, now: Instant)
    requires Replyable(s) && resp.WouldBlock?
    ensures Reply(c, s, resp, ok, reset, now) == Reply(c, s, resp, true, reset, now)
  {
  }

  /**
   In any run, between an attempt answered WouldBlock and any later attempt for the same
   Function there is a Pool event that matches the block reason, a fallback tick, or the
   expiry of the very request whose attempt was answered.
   */
  lemma NoRetryWithoutCause(c: Config, ss: seq<State>, es: seq<Event>, i: nat, j: nat)
    requires IsRun(c, ss, es) && i < j < |es|
    requires es[i].PoolReply? && es[i].resp.WouldBlock? && ss[i].outstanding.Some?
    requires es[j].SlotAcquired? && OutstandingOf(ss[j + 1], ss[i].outstanding.value.fid) != []
    ensures var r := ss[i].outstanding.value;
            exists m :: i < m <= j && Cause(ss[m], es[m], ss[m + 1], r.fid, es[i].resp.block, r.id)
  {
    hide Step, Inv, Cause;
    RunInv(c, ss, es, i);
    assert Step(c, ss[i], es[i], ss[i + 1]);
    ReplyBlocks(c, ss[i], es[i], ss[i + 1]);
    var r := ss[i].outstanding.value;
    var m := FindCause(c, ss, es, i + 1, j, r.fid, es[i].resp.block, r.id);
  }
}
