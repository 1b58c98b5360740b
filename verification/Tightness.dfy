/** The capacity bound is attained, whatever the caps: a WouldBlock reply puts one more request back. */
module Tightness {
  import opened Options
  import opened Admission
  import opened Invariant
  import opened Preservation
  import opened Capacity

  /** A request of `f` is outstanding, and `n` more are queued, all of them for `f`. */
  ghost predicate Poised(s: State, f: FunctionId, n: nat) {
    && f in s.queues && |s.queues[f].items| == s.totalQueued == n
    && OutstandingOf(s, f) != [] && !s.halted && s.clock == 0
  }

  function Request(f: FunctionId, cap: nat): Event {
    Arrival(f, Registered(cap, 1), 0)
  }

  lemma FirstRequest(c: Config, f: FunctionId, cap: nat)
    requires c.maxConcurrency > 0 && c.globalCap > 0 && cap > 0
    ensures var s, e := Init(c, 0), Request(f, cap);
            && Enabled(c, s, e)
            && Next(c, s, e).queues == map[f := FunctionQueue([Envelope(0, f, 0, 1)], Runnable)]
            && Next(c, s, e).totalQueued == 1 && Next(c, s, e).free > 0 && Next(c, s, e).nextDeadline == Some(1)
            && Next(c, s, e).outstanding.None? && !Next(c, s, e).halted && Next(c, s, e).clock == 0
  {
    hide Expire;
    assert !HasRunnable(Init(c, 0).queues);
    assert [] + [Envelope(0, f, 0, 1)] == [Envelope(0, f, 0, 1)];
  }

  lemma FirstAttempt(c: Config, s: State, f: FunctionId)
    requires s.queues == map[f := FunctionQueue([Envelope(0, f, 0, 1)], Runnable)] && s.totalQueued == 1
    requires s.free > 0 && s.nextDeadline == Some(1) && s.outstanding.None? && !s.halted && s.clock == 0
    ensures Enabled(c, s, SlotAcquired(Some(f), true, 0)) && Poised(Next(c, s, SlotAcquired(Some(f), true, 0)), f, 0)
  {
    hide Expire;
    assert s.queues[f].IsRunnable();
  }

  lemma NextRequest(c: Config, s: State, f: FunctionId, cap: nat, n: nat)
    requires Poised(s, f, n) && n < cap && n < c.globalCap
    ensures Enabled(c, s, Request(f, cap)) && Poised(Next(c, s, Request(f, cap)), f, n + 1)
  {
    hide ExpireIfDue;
  }

  lemma PutBack(c: Config, s: State, f: FunctionId, n: nat)
    requires Core(c, s) && Poised(s, f, n)
    ensures var e := PoolReply(WouldBlock(NoIdleWorker), true, 0, 0);
            && Enabled(c, s, e)
            && Next(c, s, e).totalQueued == |QueueOf(Next(c, s, e), f)| == n + 1
  {
    hide Core, Reply;
    OutstandingFate(c, s);
    var e := PoolReply(WouldBlock(NoIdleWorker), true, 0, 0);
    ReplyGrows(c, Ready(s, e), e.resp, true, 0, 0, f);
  }

  lemma {:induction false} Fill(c: Config, f: FunctionId, cap: nat, n: nat) returns (ss: seq<State>, es: seq<Event>)
    requires c.maxConcurrency > 0 && c.globalCap > 0 && cap > 0 && n <= cap && n <= c.globalCap
    ensures IsRun(c, ss, es) && FixedCap(es, f, cap) && Poised(ss[|es|], f, n)
  {
    hide Enabled, Next, Poised;
    if n == 0 {
      FirstRequest(c, f, cap);
      var s0 := Init(c, 0);
      var s1 := Next(c, s0, Request(f, cap));
      FirstAttempt(c, s1, f);
      es := [Request(f, cap), SlotAcquired(Some(f), true, 0)];
      ss := [s0, s1, Next(c, s1, es[1])];
    } else {
      ss, es := Fill(c, f, cap, n - 1);
      var e := Request(f, cap);
      NextRequest(c, ss[|es|], f, cap, n - 1);
      var s := Next(c, ss[|es|], e);
      ExtendRun(c, ss, es, e, s);
      ss, es := ss + [s], es + [e];
    }
  }

  /**
   For any Function and any fixed positive caps, some run ends with one request more queued than
   the smaller cap allows, so both halves of the capacity bound are attained.
   */
  lemma CapacityIsTight(c: Config, f: FunctionId, cap: nat) returns (ss: seq<State>, es: seq<Event>)
    requires c.maxConcurrency > 0 && c.globalCap > 0 && cap > 0
    ensures IsRun(c, ss, es) && FixedCap(es, f, cap)
    ensures es != [] && es[|es| - 1].PoolReply? && es[|es| - 1].resp.WouldBlock?
    ensures var s, least := ss[|es|], if cap < c.globalCap then cap else c.globalCap;
            |QueueOf(s, f)| == s.totalQueued == least + 1
  {
    hide Enabled, Next, Poised, Inv, Core;
    var n := if cap < c.globalCap then cap else c.globalCap;
    ss, es := Fill(c, f, cap, n);
    RunInv(c, ss, es, |es|);
    InvCore(c, ss[|es|]);
    PutBack(c, ss[|es|], f, n);
    var e := PoolReply(WouldBlock(NoIdleWorker), true, 0, 0);
    var s := Next(c, ss[|es|], e);
    ExtendRun(c, ss, es, e, s);
    ss, es := ss + [s], es + [e];
  }

  lemma InvCore(c: Config, s: State)
    requires Inv(c, s)
    ensures Core(c, s)
  {
  }
}
