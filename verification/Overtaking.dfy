/**
 Bounded overtaking: how many dispatch attempts may pass over a queued request.

 For a request enqueued at `t`, look at the requests no newer than it. Every attempt takes one
 of them out of the runnable queues, and nothing but a wakeup puts one back, except a sweep
 that removes another for good. Moreover a request that was tried and put back stays at the
 head of a blocked queue until it expires, so none is tried twice.
 */
module Overtaking {
  import opened Options
  import opened Admission
  import opened Invariant
  import opened Preservation
  import opened Deadlines
  import opened Wakeups

  // ----- The measure

  function OldIn(q: seq<Envelope>, t: Instant): set<nat> {
    set i | 0 <= i < |q| && q[i].enqueuedAt <= t :: q[i].id
  }

  ghost function OldQueued(qs: Queues, t: Instant): set<nat> {
    set f, x | f in qs && x in OldIn(qs[f].items, t) :: x
  }

  ghost function OldRunnable(qs: Queues, t: Instant): set<nat> {
    set f, x | f in qs && qs[f].state.Runnable? && x in OldIn(qs[f].items, t) :: x
  }

  function OldOutstanding(s: State, t: Instant): set<nat> {
    if s.outstanding.Some? && s.outstanding.value.enqueuedAt <= t then {s.outstanding.value.id} else {}
  }

  /** The unresolved requests enqueued no later than `t`. */
  ghost function OldIds(s: State, t: Instant): set<nat> {
    OldQueued(s.queues, t) + OldOutstanding(s, t)
  }

  /** The pair (unresolved old requests, those in runnable queues) did not go up from `s` to `s'`. */
  ghost predicate NoHigher(s: State, s': State, t: Instant) {
    && OldIds(s', t) <= OldIds(s, t)
    && (OldIds(s', t) == OldIds(s, t) ==> OldRunnable(s'.queues, t) <= OldRunnable(s.queues, t))
  }

  /** The pair went down, in lexicographic order. */
  ghost predicate Lower(s: State, s': State, t: Instant) {
    || OldIds(s', t) < OldIds(s, t)
    || (OldIds(s', t) == OldIds(s, t) && OldRunnable(s'.queues, t) < OldRunnable(s.queues, t))
  }

  lemma FindOld(qs: Queues, t: Instant, x: nat) returns (f: FunctionId, i: nat)
    requires x in OldQueued(qs, t)
    ensures f in qs && i < |qs[f].items| && qs[f].items[i].id == x && qs[f].items[i].enqueuedAt <= t
  {
    f :| f in qs && x in OldIn(qs[f].items, t);
    i :| 0 <= i < |qs[f].items| && qs[f].items[i].enqueuedAt <= t && qs[f].items[i].id == x;
  }

  lemma OldAt(qs: Queues, t: Instant, f: FunctionId, i: nat)
    requires f in qs && i < |qs[f].items| && qs[f].items[i].enqueuedAt <= t
    ensures qs[f].items[i].id in OldQueued(qs, t)
    ensures qs[f].state.Runnable? ==> qs[f].items[i].id in OldRunnable(qs, t)
  {
    assert qs[f].items[i].id in OldIn(qs[f].items, t);
  }

  lemma FindOldRunnable(qs: Queues, t: Instant, x: nat) returns (f: FunctionId, i: nat)
    requires x in OldRunnable(qs, t)
    ensures f in qs && i < |qs[f].items| && qs[f].items[i].id == x && qs[f].items[i].enqueuedAt <= t
    ensures qs[f].state.Runnable?
  {
    f :| f in qs && qs[f].state.Runnable? && x in OldIn(qs[f].items, t);
    i :| 0 <= i < |qs[f].items| && qs[f].items[i].enqueuedAt <= t && qs[f].items[i].id == x;
  }

  // ----- No step but a wakeup raises it

  /** The old requests of each queue of `s'` were in that queue, no less runnable, in `s`. */
  ghost predicate QueuesLose(s: State, s': State, t: Instant) {
    forall f :: f in s'.queues ==>
      && OldIn(s'.queues[f].items, t) <= OldIn(QueueOf(s, f), t)
      && (OldIn(s'.queues[f].items, t) != {} && s'.queues[f].state.Runnable? ==>
            f in s.queues && s.queues[f].state.Runnable?)
  }

  lemma QueuesLoseNoHigher(s: State, s': State, t: Instant)
    requires QueuesLose(s, s', t) && OldOutstanding(s', t) <= OldIds(s, t)
    ensures NoHigher(s, s', t)
    ensures OldRunnable(s'.queues, t) <= OldRunnable(s.queues, t)
  {
    hide OldIn;
    forall x | x in OldQueued(s'.queues, t) ensures x in OldQueued(s.queues, t) {
      var f :| f in s'.queues && x in OldIn(s'.queues[f].items, t);
      OldInEmpty(t);
      assert f in s.queues && x in OldIn(s.queues[f].items, t);
    }
    forall x | x in OldRunnable(s'.queues, t) ensures x in OldRunnable(s.queues, t) {
      var f :| f in s'.queues && s'.queues[f].state.Runnable? && x in OldIn(s'.queues[f].items, t);
      assert f in s.queues && x in OldIn(s.queues[f].items, t);
    }
  }

  lemma OldInEmpty(t: Instant)
    ensures OldIn([], t) == {}
  {
  }

  lemma NoHigherSame(s: State, s': State, t: Instant)
    requires s'.queues == s.queues && (s'.outstanding == s.outstanding || s'.outstanding.None?)
    ensures NoHigher(s, s', t)
  {
  }

  lemma NoHigherTrans(s: State, s1: State, s2: State, t: Instant)
    requires NoHigher(s, s1, t) && NoHigher(s1, s2, t)
    ensures NoHigher(s, s2, t)
  {
    hide OldIds, OldRunnable;
  }

  lemma SweptIsGone(s: State, now: Instant, f: FunctionId, i: nat, t: Instant)
    requires Lines(s) && f in s.queues && i < ExpiredLen(s.queues[f].items, now)
    ensures s.queues[f].items[i].id !in OldIds(Expire(s, now), t)
  {
    hide Lines, QueuedIds, SweptIds, EarliestHead, BlockedSet, FailAll, Sweep, OldQueued;
    var x := s.queues[f].items[i].id;
    SweptSets(s, now);
    SweptAt(s.queues, now, f, i);
    OldQueuedIsQueued(Expire(s, now).queues, t);
    QueuedAt(s.queues, f, i);
    if s.outstanding.Some? {
      OutstandingItem(s);
    }
  }

  lemma OldQueuedIsQueued(qs: Queues, t: Instant)
    ensures OldQueued(qs, t) <= QueuedIds(qs)
  {
    hide QueuedIds, OldQueued;
    forall x | x in OldQueued(qs, t) ensures x in QueuedIds(qs) {
      var f, i := FindOld(qs, t, x);
      QueuedAt(qs, f, i);
    }
  }

  lemma ExpireOldIds(s: State, now: Instant, t: Instant)
    ensures OldIds(Expire(s, now), t) <= OldIds(s, t)
  {
    hide EarliestHead, SweptIds, BlockedSet, FailAll, OldQueued, OldRunnable;
    var qs, qs' := s.queues, Expire(s, now).queues;
    forall x | x in OldQueued(qs', t) ensures x in OldQueued(qs, t) {
      var f, i := FindOld(qs', t, x);
      OldAt(qs, t, f, ExpiredLen(qs[f].items, now) + i);
    }
  }

  /** A sweep that makes old requests runnable removes an old one, the head it unblocks. */
  lemma ExpireNoHigher(s: State, now: Instant, t: Instant)
    requires Lines(s)
    ensures NoHigher(s, Expire(s, now), t)
  {
    hide Lines, EarliestHead, SweptIds, BlockedSet, FailAll, OldQueued, OldRunnable, OldIds;
    var s' := Expire(s, now);
    var qs, qs' := s.queues, s'.queues;
    ExpireOldIds(s, now, t);
    if OldIds(s', t) == OldIds(s, t) {
      forall x | x in OldRunnable(qs', t) ensures x in OldRunnable(qs, t) {
        var f, i := FindOldRunnable(qs', t, x);
        var k := ExpiredLen(qs[f].items, now);
        if qs[f].state.Runnable? {
          OldAt(qs, t, f, k + i);
        } else {
          QueueOrdered(s, f);
          OldAt(qs, t, f, 0);
          OldQueuedIsOld(s, t, qs[f].items[0].id);
          SweptIsGone(s, now, f, 0, t);
        }
      }
    }
  }

  lemma OldQueuedIsOld(s: State, t: Instant, x: nat)
    requires x in OldQueued(s.queues, t)
    ensures x in OldIds(s, t)
  {
  }

  lemma OldInAppend(q: seq<Envelope>, e: Envelope, t: Instant)
    requires t < e.enqueuedAt
    ensures OldIn(q + [e], t) == OldIn(q, t)
  {
    var l := q + [e];
    assert l[|q|] == e;
    assert forall i :: 0 <= i < |q| ==> l[i] == q[i];
  }

  /** A request newer than `t` changes nothing, whatever sweep its arrival brings. */
  lemma ArrivalNoHigher(c: Config, s: State, e: Event, t: Instant)
    requires Lines(s) && e.Arrival? && t < e.now
    ensures NoHigher(s, Arrive(c, s, e.fid, e.found, e.now), t)
  {
    hide Lines, Arrive, NoHigher, OldIn, OldIds, OldOutstanding, QueuesLose;
    var s' := Arrive(c, s, e.fid, e.found, e.now);
    var swept, admitted := ArriveQueues(c, s, e.fid, e.found, e.now);
    ArriveOuter(c, s, e.fid, e.found, e.now);
    var s1 := if swept then s.(queues := Sweep(s.queues, e.now)) else s;
    SweptNoHigher(s, e.now, t);
    NoHigherSame(s, s, t);
    var x := Newcomer(s, e.fid, if e.found.Registered? then e.found.delay else 0, e.now);
    forall f ensures QueueOf(s', f) == QueueOf(s1, f) + if admitted && f == x.fid then [x] else [] {
    }
    ArrivalLoses(s1, s', x, admitted, t);
    OutstandingIsOld(s1, s', t);
    QueuesLoseNoHigher(s1, s', t);
    NoHigherTrans(s, s1, s', t);
  }

  lemma SweptNoHigher(s: State, now: Instant, t: Instant)
    requires Lines(s)
    ensures NoHigher(s, s.(queues := Sweep(s.queues, now)), t)
  {
    hide Lines, NoHigher, EarliestHead, SweptIds, BlockedSet, FailAll;
    ExpireNoHigher(s, now, t);
    NoHigherQueues(s, Expire(s, now), s.(queues := Sweep(s.queues, now)), t);
  }

  lemma NoHigherQueues(s: State, s1: State, s2: State, t: Instant)
    requires NoHigher(s, s1, t) && s1.queues == s2.queues && s1.outstanding == s2.outstanding
    ensures NoHigher(s, s2, t)
  {
  }

  lemma OutstandingIsOld(s: State, s': State, t: Instant)
    requires s'.outstanding == s.outstanding || s'.outstanding.None?
    ensures OldOutstanding(s', t) <= OldIds(s, t)
  {
  }

  lemma ArrivalLoses(s: State, s': State, x: Envelope, admitted: bool, t: Instant)
    requires t < x.enqueuedAt
    requires forall f :: QueueOf(s', f) == QueueOf(s, f) + if admitted && f == x.fid then [x] else []
    requires forall f :: f in s'.queues && f in s.queues ==> s'.queues[f].state == s.queues[f].state
    ensures QueuesLose(s, s', t)
  {
    hide OldIn;
    forall f | f in s'.queues
      ensures OldIn(s'.queues[f].items, t) == OldIn(QueueOf(s, f), t)
    {
      assert QueueOf(s', f) == QueueOf(s, f) + if admitted && f == x.fid then [x] else [];
      assert s'.queues[f].items == QueueOf(s, f) + if admitted && f == x.fid then [x] else [];
      assert QueueOf(s, f) + [] == QueueOf(s, f);
      OldInAppend(QueueOf(s, f), x, t);
    }
    OldInEmpty(t);
  }

  lemma BeforeAttemptNoHigher(s: State, now: Instant, t: Instant)
    requires Lines(s)
    ensures NoHigher(s, BeforeAttempt(s, now), t)
  {
    hide Lines, NoHigher, Expire;
    BeforeAttemptFree(s, now);
    var s1 := s.(waiting := false);
    LinesFrame(s, s1);
    ExpireNoHigher(s1, now, t);
    NoHigherSame(s, s1, t);
    var d := ExpireIfDue(s1, now);
    assert NoHigher(s1, d, t) by { NoHigherSame(s1, s1, t); }
    NoHigherTrans(s, s1, d, t);
    NoHigherQueues(s, d, BeforeAttempt(s, now), t);
  }

  /** An attempt for a request enqueued by `t` takes it out of the runnable queues. */
  lemma SentDrops(s: State, f: FunctionId, t: Instant)
    requires Lines(s) && s.outstanding.None? && f in s.queues && s.queues[f].IsRunnable()
    requires s.queues[f].items[0].enqueuedAt <= t
    ensures NoHigher(s, Sent(s, f), t)
    ensures OldRunnable(Sent(s, f).queues, t) < OldRunnable(s.queues, t)
  {
    hide Lines, QueuedIds, OldQueued, OldRunnable, NoHigher;
    var s', h := Sent(s, f), s.queues[f].items[0];
    assert QueuesLose(s, s', t) by {
      assert forall i :: 0 <= i < |s'.queues[f].items| ==> s'.queues[f].items[i] == s.queues[f].items[i + 1];
    }
    OldAt(s.queues, t, f, 0);
    QueuesLoseNoHigher(s, s', t);
    PopFrontIds(s, f);
    OldQueuedIsQueued(s'.queues, t);
    RunnableIsQueued(s'.queues, t);
  }

  lemma RunnableIsQueued(qs: Queues, t: Instant)
    ensures OldRunnable(qs, t) <= OldQueued(qs, t)
  {
  }

  lemma BlockNoHigher(c: Config, s: State, why: BlockReason, reset: Instant, now: Instant, t: Instant)
    requires Replyable(s)
    ensures NoHigher(s, Reply(c, s, WouldBlock(why), true, reset, now), t)
  {
    hide Reply;
    var e, s' := s.outstanding.value, Reply(c, s, WouldBlock(why), true, reset, now);
    BlockQueues(c, s, why, reset, now);
    RequeueOld(s, s', e, t);
  }

  lemma RequeueOld(s: State, s': State, e: Envelope, t: Instant)
    requires s.outstanding == Some(e) && s'.outstanding.None? && e.fid in s.queues && e.fid in s'.queues
    requires s'.queues[e.fid].IsBlocked() && s'.queues[e.fid].items == [e] + s.queues[e.fid].items
    requires s'.queues == s.queues[e.fid := s'.queues[e.fid]]
    ensures NoHigher(s, s', t)
  {
    hide OldQueued, OldRunnable;
    forall x | x in OldQueued(s'.queues, t) ensures x in OldIds(s, t) {
      var f, i := FindOld(s'.queues, t, x);
      if f != e.fid {
        OldAt(s.queues, t, f, i);
      } else if i > 0 {
        OldAt(s.queues, t, f, i - 1);
      }
    }
    forall x | x in OldRunnable(s'.queues, t) ensures x in OldRunnable(s.queues, t) {
      var f, i := FindOldRunnable(s'.queues, t, x);
      OldAt(s.queues, t, f, i);
    }
  }

  /** Neither a wakeup nor an arrival that is not newer than `t`. */
  predicate Calm(e: Event, t: Instant) {
    !e.PoolWakeup? && !e.FallbackTick? && (e.Arrival? ==> t < e.now)
  }

  lemma AttemptNoHigher(s: State, pick: Option<FunctionId>, t: Instant)
    requires Lines(s) && IsPick(s.queues, pick)
    ensures NoHigher(s, Attempt(s, pick, false), t)
    ensures pick.None? ==> NoHigher(s, Attempt(s, pick, true), t)
  {
    hide Lines, NoHigher;
    if pick.Some? {
      PopThenPush(s, pick.value);
    }
    NoHigherSame(s, Attempt(s, pick, false), t);
    if pick.None? {
      NoHigherSame(s, Attempt(s, pick, true), t);
    }
  }

  lemma ReplyNoHigher(c: Config, s: State, resp: DispatchResponse, ok: bool, reset: Instant, now: Instant, t: Instant)
    requires Replyable(s)
    ensures NoHigher(s, Reply(c, s, resp, ok, reset, now), t)
  {
    hide NoHigher;
    if resp.WouldBlock? {
      ReplyIgnoresForward(c, s, resp, ok, reset, now);
      BlockNoHigher(c, s, resp.block, reset, now, t);
    } else {
      NoHigherSame(s, Reply(c, s, resp, ok, reset, now), t);
    }
  }

  /** Every calm step but a dispatch attempt leaves the measure no higher. */
  lemma HandleNoHigher(c: Config, s: State, e: Event, t: Instant)
    requires Core(c, s) && Calm(e, t)
    requires e.SlotAcquired? ==> IsPick(BeforeAttempt(s, e.now).queues, e.pick)
    requires e.SlotAcquired? ==> Attempt(BeforeAttempt(s, e.now), e.pick, e.sent).outstanding.None?
    requires e.PoolReply? || e.PoolGone? ==> Replyable(s)
    ensures NoHigher(s, Handle(c, s, e), t)
  {
    hide Lines, Counters, Books, Permits, Timers, NoHigher, Arrive, BeforeAttempt, Expire, Reply;
    match e
    case Arrival(_, _, _) => ArrivalNoHigher(c, s, e, t);
    case SlotAcquired(pick, sent, now) =>
      var b := BeforeAttempt(s, now);
      BeforeAttemptNoHigher(s, now, t);
      BeforeAttemptLines(c, s, now);
      AttemptNoHigher(b, pick, t);
      NoHigherTrans(s, b, Handle(c, s, e), t);
    case PoolReply(resp, ok, reset, now) => ReplyNoHigher(c, s, resp, ok, reset, now, t);
    case DeadlineFired(now) => ExpireNoHigher(s, now, t);
    case PoolGone(_) => NoHigherSame(s, Handle(c, s, e), t);
    case Stop(_) => NoHigherSame(s, Handle(c, s, e), t);
    case WorkerReleases(_, _) => NoHigherSame(s, Handle(c, s, e), t);
    case PoolWakeup(_, _) =>
    case FallbackTick(_, _) =>
  }

  /** Request `r` is queued and its Function is runnable. */
  predicate QueuedRunnable(s: State, r: Envelope) {
    r.fid in s.queues && s.queues[r.fid].state.Runnable? && r in s.queues[r.fid].items
  }

  /** An attempt that leaves a runnable request `r` behind is for one that is no newer. */
  lemma PassedOver(s: State, f: FunctionId, r: Envelope)
    requires Lines(s) && IsPick(s.queues, Some(f)) && QueuedRunnable(Sent(s, f), r)
    ensures s.queues[f].items[0].enqueuedAt <= r.enqueuedAt
  {
    hide Lines;
    var q, q' := s.queues[r.fid].items, Sent(s, f).queues[r.fid].items;
    QueueOrdered(s, r.fid);
    var i :| 0 <= i < |q'| && q'[i] == r;
    assert r == q[if r.fid == f then i + 1 else i];
    assert s.queues[r.fid].IsRunnable();
  }

  lemma AttemptDrops(c: Config, s: State, e: Event, r: Envelope)
    requires Core(c, s) && e.SlotAcquired? && s.waiting && s.free > 0
    requires IsPick(BeforeAttempt(s, e.now).queues, e.pick)
    requires var s' := Attempt(BeforeAttempt(s, e.now), e.pick, e.sent);
             s'.outstanding.Some? && QueuedRunnable(s', r)
    ensures var s', t := Attempt(BeforeAttempt(s, e.now), e.pick, e.sent), r.enqueuedAt;
            NoHigher(s, s', t) && Lower(s, s', t)
  {
    hide Core, BeforeAttempt, OldIds, OldRunnable;
    var b, t := BeforeAttempt(s, e.now), r.enqueuedAt;
    SlotFacts(c, s, e.pick, e.now);
    BeforeAttemptLines(c, s, e.now);
    CoreLines(c, s);
    BeforeAttemptNoHigher(s, e.now, t);
    AttemptShape(b, e.pick, e.sent);
    PassedOver(b, e.pick.value, r);
    SentDrops(b, e.pick.value, t);
  }

  lemma CoreLines(c: Config, s: State)
    requires Core(c, s)
    ensures Lines(s)
  {
  }

  /** Without wakeups no step raises the pair, and every attempt that passes over `r` lowers it. */
  lemma StepLevel(c: Config, s: State, e: Event, s': State, r: Envelope)
    requires Inv(c, s) && Step(c, s, e, s') && Calm(e, r.enqueuedAt) && QueuedRunnable(s', r)
    ensures NoHigher(s, s', r.enqueuedAt)
    ensures e.SlotAcquired? && s'.outstanding.Some? ==> Lower(s, s', r.enqueuedAt)
  {
    hide Lines, Counters, Books, Permits, Timers, Arrive, Attempt, Reply, Expire, BeforeAttempt, NoHigher, Lower;
    var s0, t := Ready(s, e), r.enqueuedAt;
    ReadyKeeps(c, s, e);
    if e.SlotAcquired? && s'.outstanding.Some? {
      AttemptDrops(c, s0, e, r);
    } else {
      HandleNoHigher(c, s0, e, t);
    }
    SamePair(s, s0, s', t);
  }

  lemma SamePair(s: State, s0: State, s': State, t: Instant)
    requires s0.queues == s.queues && s0.outstanding == s.outstanding
    ensures NoHigher(s0, s', t) == NoHigher(s, s', t) && Lower(s0, s', t) == Lower(s, s', t)
  {
  }

  // ----- Old requests that may still be tried

  /** The requests of a queue, but for the one on which it is blocked. */
  function Movable(q: FunctionQueue): seq<Envelope> {
    if q.IsBlocked() && q.items != [] then q.items[1..] else q.items
  }

  function ActiveOf(s: State, f: FunctionId, t: Instant): set<nat> {
    if f in s.queues then OldIn(Movable(s.queues[f]), t) else {}
  }

  ghost function Active(s: State, t: Instant): set<nat> {
    set f, x | f in s.queues && x in ActiveOf(s, f, t) :: x
  }

  lemma SuffixOld(q: seq<Envelope>, k: nat, t: Instant)
    requires k <= |q|
    ensures OldIn(q[k..], t) <= OldIn(q, t)
  {
    assert forall i :: 0 <= i < |q| - k ==> q[k..][i] == q[k + i];
  }

  lemma MovableOld(q: FunctionQueue, t: Instant)
    ensures OldIn(Movable(q), t) <= OldIn(q.items, t)
  {
    if q.items != [] {
      SuffixOld(q.items, 1, t);
    }
  }

  /** A sweep of a queue takes its head before it unblocks it. */
  lemma SweepMovable(q: FunctionQueue, now: Instant, t: Instant)
    ensures OldIn(Movable(SweepQueue(q, now)), t) <= OldIn(Movable(q), t)
  {
    hide OldIn;
    var k := ExpiredLen(q.items, now);
    if q.IsBlocked() && k > 0 {
      assert q.items[k..] == q.items[1..][k - 1..];
      SuffixOld(q.items[1..], k - 1, t);
    } else if q.IsBlocked() {
      assert q.items[0..] == q.items;
    } else {
      SuffixOld(q.items, k, t);
    }
  }

  lemma AppendMovable(q: FunctionQueue, e: Envelope, t: Instant)
    requires t < e.enqueuedAt
    ensures OldIn(Movable(q.(items := q.items + [e])), t) <= OldIn(Movable(q), t)
  {
    hide OldIn;
    if q.IsBlocked() && q.items != [] {
      assert (q.items + [e])[1..] == q.items[1..] + [e];
      OldInAppend(q.items[1..], e, t);
    } else if q.IsBlocked() {
      assert (q.items + [e])[1..] == q.items;
    } else {
      OldInAppend(q.items, e, t);
    }
  }

  lemma ArrivalActive(c: Config, s: State, e: Event, f: FunctionId, t: Instant)
    requires e.Arrival? && t < e.now
    ensures ActiveOf(Arrive(c, s, e.fid, e.found, e.now), f, t) <= ActiveOf(s, f, t)
  {
    hide Arrive, OldIn, Movable;
    var s' := Arrive(c, s, e.fid, e.found, e.now);
    var swept, admitted := ArriveQueues(c, s, e.fid, e.found, e.now);
    var q := if f in s.queues then s.queues[f] else FunctionQueue([], Runnable);
    var q1 := if swept then SweepQueue(q, e.now) else q;
    SweepMovable(q, e.now, t);
    assert OldIn(Movable(q), t) == ActiveOf(s, f, t) by { NothingMovable(t); }
    if f in s'.queues {
      assert q1.items == if swept then QueueOf(s, f)[ExpiredLen(QueueOf(s, f), e.now)..] else QueueOf(s, f);
      if admitted && f == e.fid {
        var x := Newcomer(s, f, e.found.delay, e.now);
        assert s'.queues[f] == q1.(items := q1.items + [x]);
        AppendMovable(q1, x, t);
      } else {
        assert s'.queues[f].items == q1.items + [] == q1.items;
        assert s'.queues[f] == q1;
      }
    }
  }

  lemma NothingMovable(t: Instant)
    ensures OldIn(Movable(FunctionQueue([], Runnable)), t) == {}
  {
  }

  lemma ExpireActive(s: State, now: Instant, f: FunctionId, t: Instant)
    ensures ActiveOf(Expire(s, now), f, t) <= ActiveOf(s, f, t)
  {
    hide OldIn, Movable, EarliestHead, SweptIds, BlockedSet, FailAll, SweepQueue;
    if f in s.queues {
      SweepMovable(s.queues[f], now, t);
    }
  }

  lemma BeforeAttemptActive(s: State, now: Instant, f: FunctionId, t: Instant)
    ensures ActiveOf(BeforeAttempt(s, now), f, t) <= ActiveOf(s, f, t)
  {
    hide OldIn, Movable, Expire;
    ExpireActive(s.(waiting := false, free := s.free - 1), now, f, t);
  }

  lemma AttemptActive(s: State, pick: Option<FunctionId>, sent: bool, f: FunctionId, t: Instant)
    requires IsPick(s.queues, pick)
    ensures ActiveOf(Attempt(s, pick, sent), f, t) <= ActiveOf(s, f, t)
  {
    hide OldIn, Attempt;
    if f in s.queues {
      AttemptQueue(s, pick, sent, f);
      if s.queues[f].items != [] {
        SuffixOld(s.queues[f].items, 1, t);
      }
    } else {
      AttemptAddsNone(s, pick, sent, f);
    }
  }

  lemma AttemptAddsNone(s: State, pick: Option<FunctionId>, sent: bool, f: FunctionId)
    requires IsPick(s.queues, pick) && f !in s.queues
    ensures f !in Attempt(s, pick, sent).queues
  {
  }

  /** A request that is put back is the one on which its queue is then blocked. */
  lemma ReplyActive(c: Config, s: State, resp: DispatchResponse, ok: bool, reset: Instant, now: Instant,
                    f: FunctionId, t: Instant)
    requires Permits(c, s) && Replyable(s)
    ensures ActiveOf(Reply(c, s, resp, ok, reset, now), f, t) <= ActiveOf(s, f, t)
  {
    hide OldIn;
    if resp.WouldBlock? {
      hide Reply;
      var e := s.outstanding.value;
      BlockQueues(c, s, resp.block, reset, now);
      ReplyIgnoresForward(c, s, resp, ok, reset, now);
      assert ([e] + s.queues[e.fid].items)[1..] == s.queues[e.fid].items;
    }
  }

  lemma HandleActive(c: Config, s: State, e: Event, f: FunctionId, t: Instant)
    requires Core(c, s) && Calm(e, t)
    requires e.SlotAcquired? ==> IsPick(BeforeAttempt(s, e.now).queues, e.pick)
    requires e.PoolReply? || e.PoolGone? ==> Replyable(s)
    ensures ActiveOf(Handle(c, s, e), f, t) <= ActiveOf(s, f, t)
  {
    hide Lines, Counters, Books, Permits, Timers, Arrive, BeforeAttempt, Attempt, Expire, Reply, OldIn, Movable;
    match e
    case Arrival(_, _, _) => ArrivalActive(c, s, e, f, t);
    case SlotAcquired(pick, sent, now) =>
      BeforeAttemptActive(s, now, f, t);
      AttemptActive(BeforeAttempt(s, now), pick, sent, f, t);
    case PoolReply(resp, ok, reset, now) => ReplyActive(c, s, resp, ok, reset, now, f, t);
    case DeadlineFired(now) => ExpireActive(s, now, f, t);
    case _ =>
  }

  /** The head that a step sends to Pool was active. */
  lemma SentWasActive(c: Config, s: State, e: Event, r: Envelope)
    requires Core(c, s) && e.SlotAcquired? && s.waiting && s.free > 0
    requires IsPick(BeforeAttempt(s, e.now).queues, e.pick)
    requires var s' := Attempt(BeforeAttempt(s, e.now), e.pick, e.sent);
             s'.outstanding.Some? && QueuedRunnable(s', r)
    ensures var x := Attempt(BeforeAttempt(s, e.now), e.pick, e.sent).outstanding.value.id;
            e.pick.Some? && x in ActiveOf(s, e.pick.value, r.enqueuedAt)
  {
    hide Core, BeforeAttempt;
    var b, t := BeforeAttempt(s, e.now), r.enqueuedAt;
    SlotFacts(c, s, e.pick, e.now);
    BeforeAttemptLines(c, s, e.now);
    AttemptShape(b, e.pick, e.sent);
    PassedOver(b, e.pick.value, r);
    BeforeAttemptActive(s, e.now, e.pick.value, t);
    assert b.queues[e.pick.value].items[0].id in ActiveOf(b, e.pick.value, t);
  }

  lemma ActiveIsOld(s: State, t: Instant)
    ensures Active(s, t) <= OldQueued(s.queues, t)
  {
    hide OldIn, Movable;
    forall f | f in s.queues ensures ActiveOf(s, f, t) <= OldIn(s.queues[f].items, t) {
      MovableOld(s.queues[f], t);
    }
  }

  lemma OutstandingNotActive(c: Config, s: State, t: Instant)
    requires Inv(c, s) && s.outstanding.Some?
    ensures s.outstanding.value.id !in Active(s, t)
  {
    hide Lines, Counters, Books, Permits, Timers, QueuedIds, OldQueued, Active;
    OutstandingItem(s);
    ActiveIsOld(s, t);
    OldQueuedIsQueued(s.queues, t);
  }

  lemma ActiveShrinks(s: State, s': State, t: Instant)
    requires forall f :: ActiveOf(s', f, t) <= ActiveOf(s, f, t)
    ensures Active(s', t) <= Active(s, t)
  {
    hide OldIn, Movable;
    forall x | x in Active(s', t) ensures x in Active(s, t) {
      var f :| f in s'.queues && x in ActiveOf(s', f, t);
      assert ActiveOf(s', f, t) <= ActiveOf(s, f, t);
      assert f in s.queues;
    }
  }

  /** A calm step tries nothing anew, and an attempt that passes over `r` uses one active request up. */
  lemma StepActive(c: Config, s: State, e: Event, s': State, r: Envelope)
    requires Inv(c, s) && Step(c, s, e, s') && Calm(e, r.enqueuedAt) && QueuedRunnable(s', r)
    ensures Active(s', r.enqueuedAt) <= Active(s, r.enqueuedAt)
    ensures e.SlotAcquired? && s'.outstanding.Some? ==> Active(s', r.enqueuedAt) < Active(s, r.enqueuedAt)
  {
    hide Lines, Counters, Books, Permits, Timers, Arrive, Attempt, Reply, Expire, BeforeAttempt, OldIn, Movable;
    var s0, t := Ready(s, e), r.enqueuedAt;
    ReadyKeeps(c, s, e);
    forall f ensures ActiveOf(s', f, t) <= ActiveOf(s, f, t) {
      HandleActive(c, s0, e, f, t);
    }
    ActiveShrinks(s, s', t);
    if e.SlotAcquired? && s'.outstanding.Some? {
      SentWasActive(c, s0, e, r);
      StepKeeps(c, s, e, s');
      OutstandingNotActive(c, s', t);
      assert s'.outstanding.value.id in ActiveOf(s, e.pick.value, t);
      assert s'.outstanding.value.id in Active(s, t);
    }
  }

  // ----- Over a stretch of a run

  /** Whether step `k` hands a request to Pool. */
  predicate IsAttempt(ss: seq<State>, es: seq<Event>, k: nat)
    requires |ss| == |es| + 1 && k < |es|
  {
    es[k].SlotAcquired? && ss[k + 1].outstanding.Some?
  }

  function Attempts(ss: seq<State>, es: seq<Event>, i: nat, j: nat): nat
    requires |ss| == |es| + 1 && i <= j <= |es|
    decreases j
  {
    if i == j then 0 else Attempts(ss, es, i, j - 1) + if IsAttempt(ss, es, j - 1) then 1 else 0
  }

  lemma {:induction false} AttemptsUseActive(c: Config, ss: seq<State>, es: seq<Event>, i: nat, j: nat, r: Envelope)
    requires IsRun(c, ss, es) && i <= j < |ss|
    requires forall k :: i <= k <= j ==> QueuedRunnable(ss[k], r)
    requires forall k :: i <= k < j ==> Calm(es[k], r.enqueuedAt)
    ensures Attempts(ss, es, i, j) + |Active(ss[j], r.enqueuedAt)| <= |Active(ss[i], r.enqueuedAt)|
    decreases j
  {
    hide Step, Inv, Active, QueuedRunnable, Calm;
    if i < j {
      AttemptsUseActive(c, ss, es, i, j - 1, r);
      RunInv(c, ss, es, j - 1);
      assert Step(c, ss[j - 1], es[j - 1], ss[j - 1 + 1]);
      StepActive(c, ss[j - 1], es[j - 1], ss[j], r);
      SubsetSize(Active(ss[j], r.enqueuedAt), Active(ss[j - 1], r.enqueuedAt));
    }
  }

  lemma WaitingIsActive(s: State, r: Envelope)
    requires QueuedRunnable(s, r)
    ensures r.id in Active(s, r.enqueuedAt)
  {
    var i :| 0 <= i < |s.queues[r.fid].items| && s.queues[r.fid].items[i] == r;
    assert r.id in ActiveOf(s, r.fid, r.enqueuedAt);
  }

  /**
   While a request waits in a runnable queue, with no wakeup and only newer arrivals, at most
   n - 1 dispatch attempts pass over it, where n counts the unresolved requests enqueued no
   later than it, itself included. After that it is tried, or has expired.
   */
  lemma BoundedOvertaking(c: Config, ss: seq<State>, es: seq<Event>, i: nat, j: nat, r: Envelope)
    requires IsRun(c, ss, es) && i <= j < |ss|
    requires forall k :: i <= k <= j ==> QueuedRunnable(ss[k], r)
    requires forall k :: i <= k < j ==> Calm(es[k], r.enqueuedAt)
    ensures Attempts(ss, es, i, j) <= |OldIds(ss[i], r.enqueuedAt)| - 1
  {
    hide IsRun, Active, OldQueued, QueuedRunnable;
    var t := r.enqueuedAt;
    AttemptsUseActive(c, ss, es, i, j, r);
    WaitingIsActive(ss[j], r);
    SubsetSize({r.id}, Active(ss[j], t));
    ActiveIsOld(ss[i], t);
    SubsetSize(Active(ss[i], t), OldIds(ss[i], t));
  }
}
