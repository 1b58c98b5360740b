/** When the controller stops, how long a Worker keeps its slot, and that queued work can move. */
module Progress {
  import opened Options
  import opened Admission
  import opened Invariant
  import opened Preservation
  import opened Guarantees
  import opened Effects

  // ----- Stopping

  /** A quit notice or closed source, a lost Pool, a failed send to Pool or to a Worker. */
  predicate Stopping(e: Event) {
    || e.Stop? || e.PoolGone?
    || (e.SlotAcquired? && e.pick.Some? && !e.sent)
    || (e.PoolReply? && e.resp.Dispatch? && !e.forwardOk)
  }

  lemma HaltedStep(c: Config, ss: seq<State>, es: seq<Event>, i: nat)
    requires IsRun(c, ss, es) && i < |es|
    ensures ss[i + 1].halted <==> ss[i].halted || Stopping(es[i])
    ensures ss[i].halted ==> es[i].WorkerReleases?
  {
    hide Step;
    assert Step(c, ss[i], es[i], ss[i + 1]);
    if !es[i].WorkerReleases? {
      EnabledRuns(c, ss[i], es[i], ss[i + 1]);
    }
    match es[i]
    case Arrival(_, _, _) => ArrivalStep(c, ss, es, i);
    case PoolWakeup(_, _) => WakeupWakesIff(c, ss, es, i);
    case SlotAcquired(_, _, _) => SlotStep(c, ss, es, i);
    case PoolReply(_, _, _, _) => ReplyStep(c, ss, es, i);
    case PoolGone(_) => PoolGoneStep(c, ss, es, i);
    case DeadlineFired(_) => TimerStep(c, ss, es, i);
    case FallbackTick(_, _) => TickUnblocksAll(c, ss, es, i);
    case Stop(_) => StopStep(c, ss, es, i);
    case WorkerReleases(_, _) => ReleaseStep(c, ss, es, i);
  }

  /** The controller has stopped exactly from the first stopping event on, and then only slots are released. */
  lemma {:induction false} HaltedIff(c: Config, ss: seq<State>, es: seq<Event>, i: nat)
    requires IsRun(c, ss, es) && i < |ss|
    ensures ss[i].halted <==> exists k :: 0 <= k < i && Stopping(es[k])
    ensures i < |es| && ss[i].halted ==> es[i].WorkerReleases?
  {
    hide Step, Stopping;
    if i > 0 {
      HaltedIff(c, ss, es, i - 1);
      HaltedStep(c, ss, es, i - 1);
    }
    if i < |es| {
      HaltedStep(c, ss, es, i);
    }
  }

  // ----- Running slots

  /** Step `k` hands request `x` to a Worker. */
  predicate HandedAt(ss: seq<State>, es: seq<Event>, k: nat, x: nat)
    requires k < |es| < |ss|
  {
    && es[k].PoolReply? && es[k].resp.Dispatch? && es[k].forwardOk
    && ss[k].outstanding.Some? && ss[k].outstanding.value.id == x
  }

  predicate Releases(e: Event, x: nat) {
    e.WorkerReleases? && e.id == x
  }

  lemma RunningStep(c: Config, ss: seq<State>, es: seq<Event>, i: nat, x: nat)
    requires IsRun(c, ss, es) && i < |es|
    ensures x in ss[i + 1].running <==> HandedAt(ss, es, i, x) || (x in ss[i].running && !Releases(es[i], x))
  {
    hide Step;
    match es[i]
    case Arrival(_, _, _) => ArrivalStep(c, ss, es, i);
    case PoolWakeup(_, _) => WakeupWakesIff(c, ss, es, i);
    case SlotAcquired(_, _, _) => SlotStep(c, ss, es, i);
    case PoolReply(_, _, _, _) => ReplyStep(c, ss, es, i);
    case PoolGone(_) => PoolGoneStep(c, ss, es, i);
    case DeadlineFired(_) => TimerStep(c, ss, es, i);
    case FallbackTick(_, _) => TickUnblocksAll(c, ss, es, i);
    case Stop(_) => StopStep(c, ss, es, i);
    case WorkerReleases(_, _) => ReleaseStep(c, ss, es, i);
  }

  /** Step `k` handed `x` to a Worker, which has not released the slot before step `i`. */
  ghost predicate HeldSince(ss: seq<State>, es: seq<Event>, i: nat, x: nat, k: nat)
    requires i <= |es| < |ss|
  {
    k < i && HandedAt(ss, es, k, x) && forall m :: k < m < i ==> !Releases(es[m], x)
  }

  /**
   A request holds a running slot exactly from the step that hands it to a Worker to the release
   by that Worker, so the permits bound the requests that Workers have and have not released.
   */
  lemma {:induction false} SlotHeldUntilRelease(c: Config, ss: seq<State>, es: seq<Event>, i: nat, x: nat)
    requires IsRun(c, ss, es) && i < |ss|
    ensures x in ss[i].running <==> exists k :: HeldSince(ss, es, i, x, k)
    ensures |ss[i].running| + OutstandingCount(ss[i]) <= c.maxConcurrency
  {
    hide Step, HandedAt, Releases;
    PermitsConserved(c, ss, es, i);
    if i > 0 {
      var j := i - 1;
      SlotHeldUntilRelease(c, ss, es, j, x);
      RunningStep(c, ss, es, j, x);
      forall k | HeldSince(ss, es, i, x, k) ensures x in ss[i].running {
        if !HandedAt(ss, es, j, x) {
          HeldEarlier(ss, es, j, x, k);
        }
      }
      if HandedAt(ss, es, j, x) {
        assert HeldSince(ss, es, i, x, j);
      } else if x in ss[i].running {
        var k: nat :| HeldSince(ss, es, j, x, k);
        assert HeldSince(ss, es, i, x, k);
      }
    }
  }

  lemma HeldEarlier(ss: seq<State>, es: seq<Event>, j: nat, x: nat, k: nat)
    requires j < |es| < |ss| && HeldSince(ss, es, j + 1, x, k) && !HandedAt(ss, es, j, x)
    ensures HeldSince(ss, es, j, x, k) && !Releases(es[j], x)
  {
    assert k < j;
  }

  // ----- Queued work can move

  lemma {:induction false} PickExists(qs: Queues) returns (pick: Option<FunctionId>)
    ensures IsPick(qs, pick)
    decreases |qs|
  {
    pick := None;
    if qs != map[] {
      var f :| f in qs;
      pick := PickExists(qs - {f});
      assert forall g :: g in qs ==> g == f || (g in qs - {f} && (qs - {f})[g] == qs[g]);
      if qs[f].IsRunnable() {
        if pick.None? || qs[f].items[0].enqueuedAt < qs[pick.value].items[0].enqueuedAt {
          pick := Some(f);
        }
      }
    }
  }

  /** An outstanding attempt can be answered in any way, at any later time. */
  lemma ReplyEnabled(c: Config, s: State, resp: DispatchResponse, ok: bool, now: Instant)
    requires Inv(c, s) && !s.halted && s.outstanding.Some? && s.clock <= now
    ensures Enabled(c, s, PoolReply(resp, ok, now, now)) && Enabled(c, s, PoolGone(now))
  {
    hide Lines, Counters, Books, Permits, Timers;
    OutstandingFate(c, s);
  }

  lemma SlotEnabled(c: Config, s: State, sent: bool, now: Instant) returns (pick: Option<FunctionId>)
    requires !s.halted && LoopTop(s).waiting && s.free > 0 && s.clock <= now
    ensures Enabled(c, s, SlotAcquired(pick, sent, now))
  {
    hide BeforeAttempt, IsPick;
    var e := SlotAcquired(None, sent, now);
    pick := PickExists(BeforeAttempt(Ready(s, e), now).queues);
    assert Ready(s, e) == Ready(s, SlotAcquired(pick, sent, now));
  }

  /**
   While the controller runs, an armed timer can fire once it is due; and if requests are queued
   and any slots exist, a reply, a slot, the release of a held slot or the fallback tick can come,
   the tick as soon as it is due.
   */
  lemma CanMove(c: Config, ss: seq<State>, es: seq<Event>, i: nat, now: Instant)
    requires IsRun(c, ss, es) && i < |ss| && !ss[i].halted && ss[i].clock <= now
    ensures ss[i].timer.Some? && ss[i].timer.value <= now ==> Enabled(c, ss[i], DeadlineFired(now))
    ensures c.maxConcurrency > 0 && ss[i].totalQueued > 0 && ss[i].tickDue <= now ==>
              exists e :: Enabled(c, ss[i], e) && e.now == now &&
                (e.PoolReply? || e.SlotAcquired? || e.FallbackTick? || (e.WorkerReleases? && e.id in ss[i].running))
  {
    hide Lines, Counters, Books, Permits, Timers, Step, BeforeAttempt, Ready;
    RunInv(c, ss, es, i);
    var s := ss[i];
    if c.maxConcurrency > 0 && s.totalQueued > 0 && s.tickDue <= now {
      NeverStuck(c, ss, es, i);
      PermitsConserved(c, ss, es, i);
      if s.outstanding.Some? {
        ReplyEnabled(c, s, Dispatch, true, now);
      } else if LoopTop(s).waiting {
        if s.free > 0 {
          var pick := SlotEnabled(c, s, true, now);
        } else {
          assert s.running != {};
          var x :| x in s.running;
          assert Enabled(c, s, WorkerReleases(x, now));
        }
      } else {
        assert Enabled(c, s, FallbackTick(now + c.period, now));
      }
    }
  }
}
