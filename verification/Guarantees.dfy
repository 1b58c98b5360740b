/** What the admission controller promises over whole runs, from the invariant alone. */
module Guarantees {
  import opened Options
  import opened Admission
  import opened Invariant
  import opened Preservation
  import opened Sums

  // ----- Exactly one fate per request

  function FailedIds(s: State): set<nat> {
    set x | 0 <= x < |s.log.fate| && s.log.fate[x].Failed?
  }

  function DispatchedIds(s: State): set<nat> {
    set x | 0 <= x < |s.log.fate| && s.log.fate[x] == Dispatched
  }

  /** The first `n` request numbers. */
  function UpTo(n: nat): (r: set<nat>)
    ensures forall x: nat :: x in r <==> x < n
    ensures |r| == n
  {
    if n == 0 then {}
    else
      var r := UpTo(n - 1);
      assert n - 1 !in r;
      r + {n - 1}
  }

  lemma FatesAreExact(c: Config, s: State)
    requires Inv(c, s)
    ensures UpTo(s.received) == PendingIds(s) + DispatchedIds(s) + FailedIds(s) + s.log.lost
    ensures PendingIds(s) !! DispatchedIds(s) !! FailedIds(s) !! s.log.lost
    ensures |PendingIds(s) - QueuedIds(s.queues)| == OutstandingCount(s) && QueuedIds(s.queues) <= PendingIds(s)
    ensures |QueuedIds(s.queues)| == s.totalQueued
    ensures |DispatchedIds(s)| == s.dispatched && |FailedIds(s)| == s.failed
    ensures s.received == s.dispatched + s.failed + s.totalQueued + OutstandingCount(s) + |s.log.lost|
    ensures !s.halted ==> s.log.lost == {}
    ensures |s.log.lost| <= 1
  {
    hide QueuedIds, Ids, DispatchedIds, FailedIds, Lines, PendingIds, Permits, Timers;
    IdsInRange(s);
    FatesPartition(s);
    PendingSize(s);
    UnionSize(PendingIds(s), DispatchedIds(s), FailedIds(s), s.log.lost);
  }

  /**
   In every state of every run, each request received so far is in exactly one place: queued
   or outstanding, handed to a Worker, or failed. The only exception is the one lost on the
   fatal failed forward. The statistics count the places exactly, so nothing is failed or
   dispatched twice.
   */
  lemma ExactlyOneFate(c: Config, ss: seq<State>, es: seq<Event>, i: nat)
    requires IsRun(c, ss, es) && i < |ss|
    ensures var s := ss[i];
            && UpTo(s.received) == PendingIds(s) + DispatchedIds(s) + FailedIds(s) + s.log.lost
            && PendingIds(s) !! DispatchedIds(s) !! FailedIds(s) !! s.log.lost
            && |PendingIds(s) - QueuedIds(s.queues)| == OutstandingCount(s) && QueuedIds(s.queues) <= PendingIds(s)
            && |QueuedIds(s.queues)| == s.totalQueued
            && |DispatchedIds(s)| == s.dispatched && |FailedIds(s)| == s.failed
            && s.received == s.dispatched + s.failed + s.totalQueued + OutstandingCount(s) + |s.log.lost|
            && |s.log.lost| <= (if s.halted then 1 else 0)
  {
    hide QueuedIds, Ids, DispatchedIds, FailedIds, PendingIds, Inv, Step, UpTo;
    RunInv(c, ss, es, i);
    FatesAreExact(c, ss[i]);
  }

  lemma FatesPartition(s: State)
    requires Books(s)
    requires forall x :: x in PendingIds(s) || x in Ids(s.log.forwarded) || x in s.log.lost ==> x < |s.log.arrivals|
    ensures PendingIds(s) !! DispatchedIds(s) !! FailedIds(s) !! s.log.lost
    ensures UpTo(|s.log.arrivals|) == PendingIds(s) + DispatchedIds(s) + FailedIds(s) + s.log.lost
    ensures DispatchedIds(s) == Ids(s.log.forwarded)
  {
    hide PendingIds, Ids;
    forall x: nat
      ensures x in PendingIds(s) <==> x < |s.log.fate| && s.log.fate[x] == Pending
      ensures x in Ids(s.log.forwarded) <==> x < |s.log.fate| && s.log.fate[x] == Dispatched
      ensures x in s.log.lost <==> x < |s.log.fate| && s.log.fate[x] == Lost
    {
      if x < |s.log.fate| {
        assert FateOk(s, x);
      }
    }
    FatesSplit(s.log.fate, PendingIds(s), DispatchedIds(s), FailedIds(s), s.log.lost);
    assert DispatchedIds(s) == Ids(s.log.forwarded);
  }

  lemma FatesSplit(fate: seq<Fate>, p: set<nat>, d: set<nat>, f: set<nat>, l: set<nat>)
    requires forall x: nat :: x in p <==> x < |fate| && fate[x] == Pending
    requires forall x: nat :: x in d <==> x < |fate| && fate[x] == Dispatched
    requires forall x: nat :: x in f <==> x < |fate| && fate[x].Failed?
    requires forall x: nat :: x in l <==> x < |fate| && fate[x] == Lost
    ensures p !! d !! f !! l
    ensures UpTo(|fate|) == p + d + f + l
  {
    forall x | x in UpTo(|fate|) ensures x in p + d + f + l {
      assert fate[x] == Pending || fate[x] == Dispatched || fate[x].Failed? || fate[x] == Lost;
    }
  }

  lemma PendingSize(s: State)
    requires Lines(s)
    ensures |PendingIds(s) - QueuedIds(s.queues)| == OutstandingCount(s)
    ensures |PendingIds(s)| == |QueuedIds(s.queues)| + OutstandingCount(s)
    ensures QueuedIds(s.queues) <= PendingIds(s)
  {
    hide Lines, QueuedIds, Ids;
    if s.outstanding.Some? {
      OutstandingItem(s);
      assert PendingIds(s) - QueuedIds(s.queues) == {s.outstanding.value.id};
    } else {
      assert PendingIds(s) == QueuedIds(s.queues);
      assert PendingIds(s) - QueuedIds(s.queues) == {};
    }
  }

  lemma UnionSize(a: set<nat>, b: set<nat>, c: set<nat>, d: set<nat>)
    requires a !! b !! c !! d
    ensures |a + b + c + d| == |a| + |b| + |c| + |d|
  {
  }

  // ----- A resolved request stays as it is

  lemma ExpireFates(s: State, now: Instant, x: nat)
    requires Lines(s) && Books(s) && x < |s.log.fate| && s.log.fate[x] != Pending
    ensures |Expire(s, now).log.fate| == |s.log.fate| && Expire(s, now).log.fate[x] == s.log.fate[x]
  {
    SweptSets(s, now);
    assert FateOk(s, x);
  }

  lemma ExpireIfDueFates(s: State, now: Instant, x: nat)
    requires Lines(s) && Books(s) && x < |s.log.fate| && s.log.fate[x] != Pending
    ensures var s' := ExpireIfDue(s, now);
            |s'.log.fate| == |s.log.fate| && s'.log.fate[x] == s.log.fate[x]
  {
    ExpireFates(s, now, x);
  }

  lemma ArriveAtFates(s: State, fid: FunctionId, cap: nat, delay: nat, checked: bool, now: Instant, x: nat)
    requires Lines(s) && Books(s) && fid in s.queues && x < |s.log.fate| && s.log.fate[x] != Pending
    ensures var s' := ArriveAt(s, fid, cap, delay, checked, now);
            x < |s'.log.fate| && s'.log.fate[x] == s.log.fate[x]
  {
    hide ExpireIfDue;
    ExpireIfDueFates(s, now, x);
  }

  lemma ArriveFates(c: Config, s: State, fid: FunctionId, found: Lookup, now: Instant, x: nat)
    requires Core(c, s) && x < |s.log.fate| && s.log.fate[x] != Pending
    ensures var s' := Arrive(c, s, fid, found, now);
            x < |s'.log.fate| && s'.log.fate[x] == s.log.fate[x]
  {
    hide Counters, Permits, Timers, ExpireIfDue, ArriveAt;
    if found.Registered? {
      var pressed := s.totalQueued >= c.globalCap;
      var s1 := if pressed then ExpireIfDue(s, now) else s;
      assert Core(c, s1) by { ExpireIfDueKeeps(c, s, now); }
      ExpireIfDueFates(s, now, x);
      if s1.totalQueued < c.globalCap {
        assert Lines(Entry(s1, fid)) && Books(Entry(s1, fid)) by { EntryKeeps(c, s1, fid); }
        ArriveAtFates(Entry(s1, fid), fid, found.cap, found.delay, pressed, now, x);
      }
    }
  }

  lemma SlotFates(c: Config, s: State, pick: Option<FunctionId>, sent: bool, now: Instant, x: nat)
    requires Core(c, s) && x < |s.log.fate| && s.log.fate[x] != Pending
    requires IsPick(BeforeAttempt(s, now).queues, pick)
    ensures var s' := Attempt(BeforeAttempt(s, now), pick, sent);
            x < |s'.log.fate| && s'.log.fate[x] == s.log.fate[x]
  {
    hide ExpireIfDue, BeforeAttempt;
    BeforeAttemptFree(s, now);
    assert Lines(s.(waiting := false)) && Books(s.(waiting := false)) by { QuietKeeps(c, s, s.(waiting := false)); }
    ExpireIfDueFates(s.(waiting := false), now, x);
  }

  lemma ReplyFates(c: Config, s: State, resp: DispatchResponse, ok: bool, reset: Instant, now: Instant, x: nat)
    requires Core(c, s) && Replyable(s) && x < |s.log.fate| && s.log.fate[x] != Pending
    ensures var s' := Reply(c, s, resp, ok, reset, now);
            x < |s'.log.fate| && s'.log.fate[x] == s.log.fate[x]
  {
    hide Core;
    OutstandingFate(c, s);
  }

  lemma HandleFates(c: Config, s: State, e: Event, x: nat)
    requires Core(c, s) && x < |s.log.fate| && s.log.fate[x] != Pending
    requires e.SlotAcquired? ==> IsPick(BeforeAttempt(s, e.now).queues, e.pick)
    requires e.PoolReply? || e.PoolGone? ==> Replyable(s)
    ensures var s' := Handle(c, s, e);
            x < |s'.log.fate| && s'.log.fate[x] == s.log.fate[x]
  {
    hide Expire, Arrive, BeforeAttempt, Attempt, Reply, Ids, QueuedIds, BlockedSet, MakeRunnable, Woken, Lines, Counters, Permits, Timers;
    match e
    case Arrival(fid, found, now) => ArriveFates(c, s, fid, found, now, x);
    case SlotAcquired(pick, sent, now) => SlotFates(c, s, pick, sent, now, x);
    case DeadlineFired(now) => ExpireFates(s, now, x);
    case PoolReply(resp, ok, reset, now) => ReplyFates(c, s, resp, ok, reset, now, x);
    case PoolGone(_) => OutstandingFate(c, s);
    case _ =>
  }

  lemma StepFates(c: Config, s: State, e: Event, s': State, x: nat)
    requires Inv(c, s) && Step(c, s, e, s') && x < |s.log.fate| && s.log.fate[x] != Pending
    ensures x < |s'.log.fate| && s'.log.fate[x] == s.log.fate[x]
  {
    hide Handle, Lines, Counters, Books, Permits, Timers, BeforeAttempt;
    ReadyKeeps(c, s, e);
    HandleFates(c, Ready(s, e), e, x);
  }

  /** Once a request is dispatched, failed or lost, that never changes. */
  lemma {:induction false} FateIsFinal(c: Config, ss: seq<State>, es: seq<Event>, i: nat, j: nat, x: nat)
    requires IsRun(c, ss, es) && i <= j < |ss|
    requires x < |ss[i].log.fate| && ss[i].log.fate[x] != Pending
    ensures x < |ss[j].log.fate| && ss[j].log.fate[x] == ss[i].log.fate[x]
  {
    hide Step, Inv, Init;
    if i < j {
      FateIsFinal(c, ss, es, i, j - 1, x);
      RunInv(c, ss, es, j - 1);
      assert Step(c, ss[j - 1], es[j - 1], ss[j - 1 + 1]);
      StepFates(c, ss[j - 1], es[j - 1], ss[j], x);
    }
  }

  // ----- The cached counters

  ghost function Lengths(qs: Queues): map<FunctionId, nat> {
    map f | f in qs :: |qs[f].items|
  }

  lemma {:induction false} DistinctIds(items: seq<Envelope>)
    requires Ordered(items)
    ensures |Ids(items)| == |items|
  {
    if items != [] {
      DistinctIds(items[1..]);
      IdsHead(items);
    }
  }

  lemma {:induction false} QueuedIdsSize(s: State, qs: Queues)
    requires Lines(s)
    requires forall f :: f in qs ==> f in s.queues && qs[f] == s.queues[f]
    ensures |QueuedIds(qs)| == Sum(Lengths(qs))
    decreases |qs|
  {
    hide Lines, Ids;
    if qs == map[] {
      assert QueuedIds(qs) == {};
    } else {
      var f :| f in qs;
      QueuedIdsSize(s, qs - {f});
      QueuedIdsWithout(qs, f);
      QueueOrdered(s, f);
      DistinctIds(qs[f].items);
      Split(Lengths(qs), f);
      assert Lengths(qs) - {f} == Lengths(qs - {f});
      QueuesDisjoint(s, qs, f);
    }
  }

  lemma QueuesDisjoint(s: State, qs: Queues, f: FunctionId)
    requires Lines(s) && f in qs
    requires forall g :: g in qs ==> g in s.queues && qs[g] == s.queues[g]
    ensures QueuedIds(qs - {f}) !! Ids(qs[f].items)
  {
    hide Lines, QueuedIds;
    forall x | x in QueuedIds(qs - {f}) ensures x !in Ids(qs[f].items) {
      var g, i := FindQueued(qs - {f}, x);
      if x in Ids(qs[f].items) {
        var j :| 0 <= j < |qs[f].items| && qs[f].items[j].id == x;
        QueuedOnce(s, g, i, f, j);
      }
    }
  }

  /** In every state of every run the cached counters are what a scan of all queues would give. */
  lemma CountersAreExact(c: Config, ss: seq<State>, es: seq<Event>, i: nat)
    requires IsRun(c, ss, es) && i < |ss|
    ensures ss[i].totalQueued == Sum(Lengths(ss[i].queues))
    ensures ss[i].blockedCount == |BlockedSet(ss[i].queues)|
    ensures forall f :: f in BlockedSet(ss[i].queues) ==> ss[i].queues[f].items != []
  {
    hide Lines, Books, Permits, Timers, QueuedIds, Step;
    RunInv(c, ss, es, i);
    QueuedIdsSize(ss[i], ss[i].queues);
  }

  // ----- FIFO per Function

  /** `line` lists some of the arrivals for `f`, in arrival order, each at most once. */
  ghost predicate SubsequenceOfArrivals(line: seq<Envelope>, arrivals: seq<FunctionId>, f: FunctionId) {
    && (forall i :: 0 <= i < |line| ==> line[i].id < |arrivals| && arrivals[line[i].id] == f)
    && (forall i, j :: 0 <= i < j < |line| ==> line[i].id < line[j].id)
  }

  lemma FifoPerFunction(c: Config, ss: seq<State>, es: seq<Event>, i: nat, f: FunctionId)
    requires IsRun(c, ss, es) && i < |ss|
    ensures SubsequenceOfArrivals(Line(ss[i], f), ss[i].log.arrivals, f)
  {
    RunInv(c, ss, es, i);
    assert LineOk(ss[i], f);
    forall k | 0 <= k < |Line(ss[i], f)| ensures Arrived(ss[i], f, Line(ss[i], f)[k]) {
    }
  }

  // ----- Scheduling

  /** The queues that the head scan of a slot step reads: after the sweep, if one was due. */
  ghost function Scanned(s: State, e: Event): Queues {
    BeforeAttempt(Ready(s, e), e.now).queues
  }

  /**
   At every slot step of every run, the scan over queue heads finds a Function exactly when the
   queues it reads hold runnable work, and then its head is the oldest request of all their
   runnable queues, not only the oldest head.
   */
  lemma PickIsGlobalMinimum(c: Config, ss: seq<State>, es: seq<Event>, i: nat)
    requires IsRun(c, ss, es) && i < |es| && es[i].SlotAcquired?
    ensures var qs, pick := Scanned(ss[i], es[i]), es[i].pick;
            && (pick.Some? <==> HasRunnable(qs))
            && (pick.Some? ==>
                  && pick.value in qs && qs[pick.value].IsRunnable()
                  && forall g, k :: g in qs && qs[g].state.Runnable? && 0 <= k < |qs[g].items| ==>
                       qs[pick.value].items[0].enqueuedAt <= qs[g].items[k].enqueuedAt)
  {
    hide Lines, Counters, Books, Permits, Timers, BeforeAttempt, Handle;
    RunInv(c, ss, es, i);
    assert Step(c, ss[i], es[i], ss[i + 1]);
    ReadyKeeps(c, ss[i], es[i]);
    BeforeAttemptLines(c, Ready(ss[i], es[i]), es[i].now);
    OldestHead(BeforeAttempt(Ready(ss[i], es[i]), es[i].now), es[i].pick);
  }

  /** Queues are in order, so the oldest head is the oldest request. */
  lemma OldestHead(s: State, pick: Option<FunctionId>)
    requires Lines(s) && IsPick(s.queues, pick)
    ensures var qs := s.queues;
            && (pick.Some? <==> HasRunnable(qs))
            && (pick.Some? ==>
                  && pick.value in qs && qs[pick.value].IsRunnable()
                  && forall g, k :: g in qs && qs[g].state.Runnable? && 0 <= k < |qs[g].items| ==>
                       qs[pick.value].items[0].enqueuedAt <= qs[g].items[k].enqueuedAt)
  {
    hide Lines;
    if pick.Some? {
      forall g, k | g in s.queues && s.queues[g].state.Runnable? && 0 <= k < |s.queues[g].items|
        ensures s.queues[pick.value].items[0].enqueuedAt <= s.queues[g].items[k].enqueuedAt
      {
        QueueOrdered(s, g);
      }
    }
  }

  /**
   A running controller with queued requests is never stuck: an attempt is outstanding, or it
   waits for a slot and one is free unless Workers hold them all, or every waiting Function is
   blocked and the fallback tick is due one period after the blocked epoch began.
   */
  lemma NeverStuck(c: Config, ss: seq<State>, es: seq<Event>, i: nat)
    requires IsRun(c, ss, es) && i < |ss| && ss[i].totalQueued > 0
    ensures var s := ss[i];
            || s.outstanding.Some?
            || (LoopTop(s).waiting && (s.free > 0 || |s.running| == c.maxConcurrency))
            || (&& s.blockedCount > 0 && s.tickDue == s.log.epoch + c.period
                && forall f :: f in s.queues && s.queues[f].items != [] ==> s.queues[f].IsBlocked())
  {
    hide Lines, Books, Step;
    RunInv(c, ss, es, i);
    var s := ss[i];
    if s.outstanding.None? && !LoopTop(s).waiting {
      assert QueuedIds(s.queues) != {};
      var x :| x in QueuedIds(s.queues);
      var f, k := FindQueued(s.queues, x);
      assert !s.queues[f].IsRunnable();
      assert f in BlockedSet(s.queues);
      forall g | g in s.queues && s.queues[g].items != [] ensures s.queues[g].IsBlocked() {
        assert !s.queues[g].IsRunnable();
      }
    }
  }

  // ----- Permits

  /**
   Permits are conserved in every state of every run; no attempt is waiting for a slot while
   another is outstanding, so a new attempt never overwrites one.
   */
  lemma PermitsConserved(c: Config, ss: seq<State>, es: seq<Event>, i: nat)
    requires IsRun(c, ss, es) && i < |ss|
    ensures 0 <= ss[i].free
    ensures ss[i].free + OutstandingCount(ss[i]) + |ss[i].running| == c.maxConcurrency
    ensures forall x :: x in ss[i].running ==> x in Ids(ss[i].log.forwarded)
    ensures ss[i].waiting ==> ss[i].outstanding.None?
    ensures i < |es| && es[i].SlotAcquired? ==> ss[i].outstanding.None?
    ensures i < |es| && ss[i].outstanding.Some? && ss[i + 1].outstanding != ss[i].outstanding ==>
              (es[i].PoolReply? || es[i].PoolGone?) && ss[i + 1].outstanding.None?
  {
    RunInv(c, ss, es, i);
    if i < |es| {
      assert Step(c, ss[i], es[i], ss[i + 1]);
      OutstandingSteps(c, ss[i], es[i]);
    }
  }

  lemma OutstandingSteps(c: Config, s: State, e: Event)
    requires Permits(c, s) && Enabled(c, s, e)
    ensures e.SlotAcquired? ==> s.outstanding.None?
    ensures e.PoolReply? || e.PoolGone? ==> Next(c, s, e).outstanding.None?
    ensures !e.SlotAcquired? && !e.PoolReply? && !e.PoolGone? ==> Next(c, s, e).outstanding == s.outstanding
  {
    hide Arrive, BeforeAttempt, Attempt, EarliestHead, SweptIds, Sweep, BlockedSet, FailAll;
    if e.Arrival? {
      ArriveOuter(c, Ready(s, e), e.fid, e.found, e.now);
    }
  }

  // ----- Fallback timing

  /**
   The fallback sweep never fires sooner than one period after the current blocked epoch
   began, and is due no later than one period after any blocked Function was blocked.
   */
  lemma FallbackTiming(c: Config, ss: seq<State>, es: seq<Event>, i: nat)
    requires IsRun(c, ss, es) && i < |ss|
    ensures forall f :: f in BlockedSet(ss[i].queues) ==>
              ss[i].tickDue <= ss[i].queues[f].state.blockedAt + c.period
    ensures i < |es| && es[i].FallbackTick? ==> ss[i].log.epoch + c.period <= es[i].now
  {
    RunInv(c, ss, es, i);
    if i < |es| {
      assert Step(c, ss[i], es[i], ss[i + 1]);
    }
  }
}
