/** With a constant delay per Function, every run is orderly. */
module Delays {
  import opened Options
  import opened Admission
  import opened Invariant
  import opened Preservation
  import opened Deadlines
  import opened Capacity
  import opened Ordering

  // ----- Where the requests that a Function owns after a step come from

  /** `q'` holds nothing but requests of `q`, and possibly `x`. */
  ghost predicate Within(q': seq<Envelope>, q: seq<Envelope>, x: Option<Envelope>) {
    forall i :: 0 <= i < |q'| ==> q'[i] in q || Some(q'[i]) == x
  }

  lemma DropWithin(a: seq<Envelope>, b: seq<Envelope>, k: nat, x: Option<Envelope>)
    requires k <= |b|
    ensures Within(a + b[k..], a + b, x) && Within(b[k..], a + b, x)
    ensures x.Some? ==> Within(a + (b[k..] + [x.value]), a + b, x)
  {
    assert forall i :: 0 <= i < |b[k..]| ==> b[k..][i] == (a + b)[|a| + k + i];
    assert forall i :: 0 <= i < |a| ==> a[i] == (a + b)[i];
  }

  lemma SameWithin(q: seq<Envelope>, x: Option<Envelope>)
    ensures Within(q, q, x)
  {
  }

  lemma DropOwned(s: State, s': State, f: FunctionId, k: nat, x: Option<Envelope>)
    requires s'.outstanding == s.outstanding || s'.outstanding.None?
    requires k <= |QueueOf(s, f)| && QueueOf(s', f) == QueueOf(s, f)[k..]
    ensures Within(Owned(s', f), Owned(s, f), x)
  {
    hide Within;
    var a, b := OutstandingOf(s, f), QueueOf(s, f)[k..];
    DropWithin(a, QueueOf(s, f), k, x);
    if s'.outstanding.None? {
      assert Owned(s', f) == b;
    } else {
      assert Owned(s', f) == a + b;
    }
  }

  /** The request that event `e` may add to what `f` owns. */
  function Incoming(s: State, e: Event, f: FunctionId): Option<Envelope> {
    if e.Arrival? && e.found.Registered? && e.fid == f then Some(Newcomer(s, f, e.found.delay, e.now)) else None
  }

  lemma ArrivalWithin(c: Config, s: State, e: Event, f: FunctionId)
    requires e.Arrival?
    ensures Within(Owned(Arrive(c, s, e.fid, e.found, e.now), f), Owned(s, f), Incoming(s, e, f))
  {
    hide Within, Arrive;
    var s' := Arrive(c, s, e.fid, e.found, e.now);
    var swept, admitted := ArriveQueues(c, s, e.fid, e.found, e.now);
    ArriveOuter(c, s, e.fid, e.found, e.now);
    var k := if swept then ExpiredLen(QueueOf(s, f), e.now) else 0;
    if admitted && f == e.fid {
      DropWithin(OutstandingOf(s, f), QueueOf(s, f), k, Incoming(s, e, f));
      assert QueueOf(s', f) == QueueOf(s, f)[k..] + [Incoming(s, e, f).value];
    } else {
      assert QueueOf(s', f) == QueueOf(s, f)[k..];
      DropOwned(s, s', f, k, Incoming(s, e, f));
    }
  }

  lemma AttemptOwned(s: State, pick: Option<FunctionId>, sent: bool, f: FunctionId)
    requires IsPick(s.queues, pick) && s.outstanding.None?
    requires pick.Some? ==> s.queues[pick.value].items[0].fid == pick.value
    ensures Owned(Attempt(s, pick, sent), f) == QueueOf(s, f)
  {
    if pick.Some? {
      var q := s.queues[pick.value].items;
      assert q == [q[0]] + q[1..];
      PopThenPush(s, pick.value);
    }
  }

  lemma SlotWithin(c: Config, s: State, e: Event, f: FunctionId)
    requires Core(c, s) && e.SlotAcquired? && s.waiting && s.free > 0
    requires IsPick(BeforeAttempt(s, e.now).queues, e.pick)
    ensures Within(Owned(Attempt(BeforeAttempt(s, e.now), e.pick, e.sent), f), Owned(s, f), None)
  {
    hide Within, BeforeAttempt, Core, Attempt, ExpireIfDue;
    var b := BeforeAttempt(s, e.now);
    SlotFacts(c, s, e.pick, e.now);
    AttemptOwned(b, e.pick, e.sent, f);
    BeforeAttemptFree(s, e.now);
    ExpireIfDueShape(s.(waiting := false), e.now);
    var k := if Due(s, e.now) then ExpiredLen(QueueOf(s, f), e.now) else 0;
    assert QueueOf(b, f) == QueueOf(s, f)[k..];
    DropWithin(OutstandingOf(s, f), QueueOf(s, f), k, None);
  }

  lemma ReplyWithin(c: Config, s: State, resp: DispatchResponse, ok: bool, reset: Instant, now: Instant, f: FunctionId)
    requires Replyable(s)
    ensures Within(Owned(Reply(c, s, resp, ok, reset, now), f), Owned(s, f), None)
  {
    hide Within;
    if resp.WouldBlock? {
      BlockWithin(c, s, resp.block, reset, now, f);
    } else {
      DropOwned(s, Reply(c, s, resp, ok, reset, now), f, 0, None);
    }
  }

  lemma BlockWithin(c: Config, s: State, why: BlockReason, reset: Instant, now: Instant, f: FunctionId)
    requires Replyable(s)
    ensures Within(Owned(Reply(c, s, WouldBlock(why), true, reset, now), f), Owned(s, f), None)
  {
    hide Within, Reply;
    BlockQueues(c, s, why, reset, now);
    assert Owned(Reply(c, s, WouldBlock(why), true, reset, now), f) == Owned(s, f);
    SameWithin(Owned(s, f), None);
  }

  lemma ExpireWithin(s: State, now: Instant, f: FunctionId)
    ensures Within(Owned(Expire(s, now), f), Owned(s, f), None)
  {
    hide Within, EarliestHead, SweptIds, BlockedSet, FailAll;
    DropOwned(s, Expire(s, now), f, ExpiredLen(QueueOf(s, f), now), None);
  }

  lemma HandleWithin(c: Config, s: State, e: Event, f: FunctionId)
    requires Core(c, s)
    requires e.SlotAcquired? ==> s.waiting && s.free > 0 && IsPick(BeforeAttempt(s, e.now).queues, e.pick)
    requires e.PoolReply? || e.PoolGone? ==> Replyable(s)
    ensures Within(Owned(Handle(c, s, e), f), Owned(s, f), Incoming(s, e, f))
  {
    hide Within, Arrive, BeforeAttempt, Attempt, Expire, Reply, Core, Owned;
    match e
    case Arrival(_, _, _) => ArrivalWithin(c, s, e, f);
    case SlotAcquired(_, _, _) => SlotWithin(c, s, e, f);
    case PoolReply(resp, ok, reset, now) => ReplyWithin(c, s, resp, ok, reset, now, f);
    case DeadlineFired(now) => ExpireWithin(s, now, f);
    case _ => DropOwned(s, Handle(c, s, e), f, 0, None);
  }

  lemma StepWithin(c: Config, s: State, e: Event, s': State, f: FunctionId)
    requires Inv(c, s) && Step(c, s, e, s')
    ensures Within(Owned(s', f), Owned(s, f), Incoming(s, e, f))
  {
    hide Within, Handle, BeforeAttempt, Lines, Counters, Books, Permits, Timers;
    ReadyKeeps(c, s, e);
    HandleWithin(c, Ready(s, e), e, f);
    assert Owned(Ready(s, e), f) == Owned(s, f);
  }

  // ----- Uniform deadlines

  ghost predicate ConstantDelay(es: seq<Event>, delay: FunctionId -> nat) {
    forall i :: 0 <= i < |es| && es[i].Arrival? && es[i].found.Registered? ==>
      es[i].found.delay == delay(es[i].fid)
  }

  ghost predicate UniformIn(q: seq<Envelope>, d: nat) {
    forall i :: 0 <= i < |q| ==> q[i].deadline == q[i].enqueuedAt + d
  }

  ghost predicate Uniform(s: State, delay: FunctionId -> nat) {
    forall f :: UniformIn(Owned(s, f), delay(f))
  }

  lemma WithinUniform(q': seq<Envelope>, q: seq<Envelope>, x: Option<Envelope>, d: nat)
    requires Within(q', q, x) && UniformIn(q, d)
    requires x.Some? ==> x.value.deadline == x.value.enqueuedAt + d
    ensures UniformIn(q', d)
  {
    forall i | 0 <= i < |q'| ensures q'[i].deadline == q'[i].enqueuedAt + d {
      if q'[i] in q {
        var j :| 0 <= j < |q| && q[j] == q'[i];
      }
    }
  }

  lemma {:induction false} RunUniform(c: Config, ss: seq<State>, es: seq<Event>, delay: FunctionId -> nat, i: nat)
    requires IsRun(c, ss, es) && ConstantDelay(es, delay) && i < |ss|
    ensures Uniform(ss[i], delay)
  {
    hide Inv, Step, Within, UniformIn, Owned;
    if i == 0 {
      InitUniform(c, ss[0].clock, delay);
    } else {
      RunUniform(c, ss, es, delay, i - 1);
      RunInv(c, ss, es, i - 1);
      var s, e := ss[i - 1], es[i - 1];
      assert Step(c, s, e, ss[i - 1 + 1]);
      forall f ensures UniformIn(Owned(ss[i], f), delay(f)) {
        StepWithin(c, s, e, ss[i], f);
        assert UniformIn(Owned(s, f), delay(f));
        WithinUniform(Owned(ss[i], f), Owned(s, f), Incoming(s, e, f), delay(f));
      }
    }
  }

  lemma InitUniform(c: Config, t: Instant, delay: FunctionId -> nat)
    ensures Uniform(Init(c, t), delay)
  {
  }

  /** What a Function owns was enqueued no later than now. */
  lemma OwnedEnqueued(s: State, f: FunctionId, i: nat)
    requires Lines(s) && i < |Owned(s, f)|
    ensures Owned(s, f)[i].enqueuedAt <= s.clock
  {
    var k := |ForwardedOf(s.log.forwarded, f)|;
    assert LineOk(s, f);
    assert Line(s, f)[k + i] == Owned(s, f)[i];
  }

  lemma UniformInOrder(s: State, e: Event, delay: FunctionId -> nat)
    requires Lines(s) && Uniform(s, delay) && s.clock <= e.now
    requires e.Arrival? && e.found.Registered? ==> e.found.delay == delay(e.fid)
    ensures InOrder(s, e)
  {
    hide Lines;
    if e.Arrival? && e.found.Registered? {
      var q := Owned(s, e.fid);
      assert UniformIn(q, delay(e.fid));
      forall i | 0 <= i < |q| ensures q[i].deadline <= e.now + e.found.delay {
        OwnedEnqueued(s, e.fid, i);
      }
    }
  }

  /** A run in which each Function's delay never changes is orderly. */
  lemma ConstantDelayIsOrderly(c: Config, ss: seq<State>, es: seq<Event>, delay: FunctionId -> nat)
    requires IsRun(c, ss, es) && ConstantDelay(es, delay)
    ensures OrderlyRun(c, ss, es)
  {
    hide Uniform, Orderly, InOrder, Lines, Counters, Books, Permits, Timers, Next;
    forall i | 0 <= i < |es| ensures Orderly(c, ss[i], es[i]) {
      RunInv(c, ss, es, i);
      RunUniform(c, ss, es, delay, i);
      assert Step(c, ss[i], es[i], ss[i + 1]);
      UniformInOrder(ss[i], es[i], delay);
      InOrderIsOrderly(c, ss[i], es[i]);
    }
  }

  lemma InOrderIsOrderly(c: Config, s: State, e: Event)
    requires InOrder(s, e)
    ensures Orderly(c, s, e)
  {
    hide LiveIds, LiveIn;
  }
}
