/** Why a request is resolved: every fate has its cause, and every reply of Pool its effect. */
module Resolution {
  import opened Options
  import opened Admission
  import opened Preservation

  /** Request `x` is queued and its deadline has passed. */
  ghost predicate QueuedExpired(qs: Queues, x: nat, now: Instant) {
    exists f, i :: f in qs && 0 <= i < |qs[f].items| && qs[f].items[i].id == x && qs[f].items[i].deadline <= now
  }

  predicate IsOutstanding(s: State, x: nat) {
    s.outstanding.Some? && s.outstanding.value.id == x
  }

  /** Event `e` justifies fate `v` for request `x`, pending in state `s`. */
  ghost predicate Justified(s: State, e: Event, x: nat, v: Fate) {
    match v
    case Pending => IsOutstanding(s, x) ==> !e.PoolGone? && (e.PoolReply? ==> e.resp.WouldBlock?)
    case Dispatched => IsOutstanding(s, x) && e.PoolReply? && e.resp.Dispatch? && e.forwardOk
    case Lost => IsOutstanding(s, x) && e.PoolReply? && e.resp.Dispatch? && !e.forwardOk
    case Failed(DeadlinePassed) => QueuedExpired(s.queues, x, e.now) && (e.Arrival? || e.SlotAcquired? || e.DeadlineFired?)
    case Failed(Rejected(why)) =>
      && IsOutstanding(s, x)
      && ((e.PoolReply? && e.resp == Reject(why)) || (e.PoolGone? && why == Internal))
    case Failed(_) => false
  }

  /** A sweep fails only requests whose deadline has passed. */
  ghost predicate OnlyExpired(s: State, s': State, now: Instant, x: nat) {
    && x < |s.log.fate| <= |s'.log.fate|
    && (s'.log.fate[x] == s.log.fate[x] ||
        (s'.log.fate[x] == Failed(DeadlinePassed) && QueuedExpired(s.queues, x, now)))
  }

  lemma ExpireCauses(s: State, now: Instant, x: nat)
    requires x < |s.log.fate|
    ensures OnlyExpired(s, Expire(s, now), now, x) && |Expire(s, now).log.fate| == |s.log.fate|
  {
    hide SweptIds, EarliestHead, BlockedSet, Sweep;
    if x in SweptIds(s.queues, now) {
      var f, i := FindSwept(s.queues, now, x);
      assert s.queues[f].items[i].deadline <= now;
    }
  }

  lemma ExpireIfDueCauses(s: State, now: Instant, x: nat)
    requires x < |s.log.fate|
    ensures OnlyExpired(s, ExpireIfDue(s, now), now, x) && |ExpireIfDue(s, now).log.fate| == |s.log.fate|
  {
    hide Expire;
    ExpireCauses(s, now, x);
  }

  lemma ArriveAtCauses(s: State, fid: FunctionId, cap: nat, delay: nat, checked: bool, now: Instant, x: nat)
    requires fid in s.queues && x < |s.log.fate|
    ensures var s' := ArriveAt(s, fid, cap, delay, checked, now);
            OnlyExpired(s, s', now, x) && (checked ==> s'.log.fate[x] == s.log.fate[x])
  {
    hide ExpireIfDue, QueuedExpired;
    ExpireIfDueCauses(s, now, x);
    ExpireIfDueOuter(s, now);
  }

  lemma EntryExpired(s: State, fid: FunctionId, x: nat, now: Instant)
    requires QueuedExpired(Entry(s, fid).queues, x, now)
    ensures QueuedExpired(s.queues, x, now)
  {
    var qs := Entry(s, fid).queues;
    var f, i :| f in qs && 0 <= i < |qs[f].items| && qs[f].items[i].id == x && qs[f].items[i].deadline <= now;
    assert f in s.queues && s.queues[f].items[i].id == x;
  }

  lemma ArriveCauses(c: Config, s: State, fid: FunctionId, found: Lookup, now: Instant, x: nat)
    requires x < |s.log.fate|
    ensures OnlyExpired(s, Arrive(c, s, fid, found, now), now, x)
  {
    hide ExpireIfDue, ArriveAt, QueuedExpired;
    if found.Registered? {
      var pressed := s.totalQueued >= c.globalCap;
      var s1 := if pressed then ExpireIfDue(s, now) else s;
      ExpireIfDueCauses(s, now, x);
      if s1.totalQueued < c.globalCap {
        ArriveAtCauses(Entry(s1, fid), fid, found.cap, found.delay, pressed, now, x);
        if QueuedExpired(Entry(s1, fid).queues, x, now) {
          EntryExpired(s1, fid, x, now);
        }
      }
    }
  }

  lemma SlotCauses(s: State, pick: Option<FunctionId>, sent: bool, now: Instant, x: nat)
    requires x < |s.log.fate| && IsPick(BeforeAttempt(s, now).queues, pick)
    ensures OnlyExpired(s, Attempt(BeforeAttempt(s, now), pick, sent), now, x)
  {
    hide ExpireIfDue, QueuedExpired, BeforeAttempt;
    BeforeAttemptFree(s, now);
    ExpireIfDueCauses(s.(waiting := false), now, x);
  }

  lemma ReplyCauses(c: Config, s: State, e: Event, x: nat)
    requires Replyable(s) && e.PoolReply? && x < |s.log.fate| && s.log.fate[x] == Pending
    ensures var fate := Reply(c, s, e.resp, e.forwardOk, e.reset, e.now).log.fate;
            |fate| == |s.log.fate| && Justified(s, e, x, fate[x])
  {
  }

  lemma HandleCauses(c: Config, s: State, e: Event, x: nat)
    requires x < |s.log.fate| && s.log.fate[x] == Pending
    requires e.SlotAcquired? ==> IsPick(BeforeAttempt(s, e.now).queues, e.pick)
    requires e.PoolReply? || e.PoolGone? ==> Replyable(s)
    ensures var fate := Handle(c, s, e).log.fate;
            x < |fate| && Justified(s, e, x, fate[x])
  {
    hide Expire, Arrive, BeforeAttempt, Attempt, Reply, QueuedExpired, MakeRunnable, Woken, BlockedSet;
    match e
    case Arrival(fid, found, now) => ArriveCauses(c, s, fid, found, now, x);
    case SlotAcquired(pick, sent, now) => SlotCauses(s, pick, sent, now, x);
    case DeadlineFired(now) => ExpireCauses(s, now, x);
    case PoolReply(_, _, _, _) => ReplyCauses(c, s, e, x);
    case _ =>
  }

  /**
   In any run, a pending request is dispatched, lost or failed only by the event that justifies
   it, with the reason that event gives; and an answered attempt stays pending only if the
   answer was WouldBlock.
   */
  lemma ResolvedForCause(c: Config, ss: seq<State>, es: seq<Event>, i: nat, x: nat)
    requires IsRun(c, ss, es) && i < |es| && x < |ss[i].log.fate| && ss[i].log.fate[x] == Pending
    ensures x < |ss[i + 1].log.fate| && Justified(ss[i], es[i], x, ss[i + 1].log.fate[x])
  {
    hide Handle, BeforeAttempt, QueuedExpired;
    assert Step(c, ss[i], es[i], ss[i + 1]);
    HandleCauses(c, Ready(ss[i], es[i]), es[i], x);
  }
}
