/** Lemmas for the loops that visit every queue once, in hash-map order. */
module SweepLoop {
  import opened Options
  import opened Admission
  import opened Invariant
  import opened Preservation
  import opened Guarantees

  /** The queues visited so far. */
  function Part(qs: Queues, visited: set<FunctionId>): Queues {
    map f | f in qs && f in visited :: qs[f]
  }

  lemma PartGrows(qs: Queues, visited: set<FunctionId>, f: FunctionId)
    requires f in qs
    ensures Part(qs, visited + {f}) == Part(qs, visited)[f := qs[f]]
  {
  }

  lemma PartAll(qs: Queues)
    ensures Part(qs, qs.Keys) == qs
  {
  }

  // ----- Expired requests

  lemma SweptIdsGrow(qs: Queues, f: FunctionId, q: FunctionQueue, now: Instant)
    requires f !in qs
    ensures SweptIds(qs[f := q], now) == SweptIds(qs, now) + ExpiredPrefix(q, now)
  {
    var qs' := qs[f := q];
    forall x | x in SweptIds(qs', now) ensures x in SweptIds(qs, now) + ExpiredPrefix(q, now) {
      var g :| g in qs' && x in ExpiredPrefix(qs'[g], now);
      assert g != f ==> g in qs && x in ExpiredPrefix(qs[g], now);
    }
    forall x | x in SweptIds(qs, now) ensures x in SweptIds(qs', now) {
      var g :| g in qs && x in ExpiredPrefix(qs[g], now);
      assert g in qs' && x in ExpiredPrefix(qs'[g], now);
    }
    assert f in qs' && forall x :: x in ExpiredPrefix(q, now) ==> x in ExpiredPrefix(qs'[f], now);
  }

  /** The next queue's expired requests are as many as their ids, and none was seen before. */
  lemma ExpiredPrefixFresh(s: State, visited: set<FunctionId>, f: FunctionId, now: Instant)
    requires Lines(s) && f in s.queues && f !in visited
    ensures |ExpiredPrefix(s.queues[f], now)| == ExpiredLen(s.queues[f].items, now)
    ensures ExpiredPrefix(s.queues[f], now) !! SweptIds(Part(s.queues, visited), now)
  {
    hide Lines, SweptIds;
    var q := s.queues[f];
    var k := ExpiredLen(q.items, now);
    QueueOrdered(s, f);
    DistinctIds(q.items[..k]);
    var p := Part(s.queues, visited);
    forall x | x in SweptIds(p, now) ensures x !in ExpiredPrefix(q, now) {
      var g, j := FindSwept(p, now, x);
      if x in ExpiredPrefix(q, now) {
        var i :| 0 <= i < |q.items[..k]| && q.items[..k][i].id == x;
        QueuedOnce(s, g, j, f, i);
      }
    }
  }

  lemma IdsConcat(a: seq<Envelope>, b: seq<Envelope>)
    ensures Ids(a + b) == Ids(a) + Ids(b)
  {
    var l := a + b;
    assert forall i :: 0 <= i < |a| ==> l[i] == a[i];
    assert forall i :: 0 <= i < |b| ==> l[|a| + i] == b[i];
  }

  lemma ExpiredGrow(s: State, visited: set<FunctionId>, f: FunctionId, now: Instant, expired: seq<Envelope>)
    requires Lines(s) && f in s.queues && f !in visited
    requires Ids(expired) == SweptIds(Part(s.queues, visited), now) && |expired| == |Ids(expired)|
    ensures var more := expired + s.queues[f].items[..ExpiredLen(s.queues[f].items, now)];
            Ids(more) == SweptIds(Part(s.queues, visited + {f}), now) && |more| == |Ids(more)|
  {
    hide Lines, SweptIds, Ids;
    PartGrows(s.queues, visited, f);
    SweptIdsGrow(Part(s.queues, visited), f, s.queues[f], now);
    ExpiredPrefixFresh(s, visited, f, now);
    IdsConcat(expired, s.queues[f].items[..ExpiredLen(s.queues[f].items, now)]);
  }

  // ----- Unblocked queues

  /** The queues that a sweep unblocks. */
  function Freed(qs: Queues, now: Instant): set<FunctionId> {
    BlockedSet(qs) - BlockedSet(Sweep(qs, now))
  }

  lemma FreedGrow(qs: Queues, visited: set<FunctionId>, f: FunctionId, now: Instant)
    requires f in qs && f !in visited
    ensures var u, u' := Freed(Part(qs, visited), now), Freed(Part(qs, visited + {f}), now);
            && f !in u
            && u' == u + if qs[f].IsBlocked() && !SweepQueue(qs[f], now).IsBlocked() then {f} else {}
  {
  }

  // ----- The earliest head

  ghost predicate IsEarliest(qs: Queues, r: Option<Instant>) {
    && (r.None? ==> forall f :: f in qs ==> qs[f].items == [])
    && (r.Some? ==> exists f :: f in qs && qs[f].items != [] && qs[f].items[0].deadline == r.value)
    && (r.Some? ==> forall f :: f in qs && qs[f].items != [] ==> r.value <= qs[f].items[0].deadline)
  }

  lemma EarliestIsUnique(qs: Queues, r: Option<Instant>)
    requires IsEarliest(qs, r)
    ensures r == EarliestHead(qs)
  {
  }

  lemma EarliestGrow(qs: Queues, f: FunctionId, q: FunctionQueue, r: Option<Instant>, r': Option<Instant>)
    requires IsEarliest(qs, r) && f !in qs
    requires r' == if q.items == [] then r
                   else if r.None? || q.items[0].deadline < r.value then Some(q.items[0].deadline) else r
    ensures IsEarliest(qs[f := q], r')
  {
    var qs' := qs[f := q];
    if r'.Some? {
      if q.items != [] && r'.value == q.items[0].deadline {
        assert f in qs' && qs'[f].items != [] && qs'[f].items[0].deadline == r'.value;
      } else {
        var g :| g in qs && qs[g].items != [] && qs[g].items[0].deadline == r.value;
        assert qs'[g] == qs[g];
      }
    }
  }

  lemma SweepPart(qs: Queues, visited: set<FunctionId>, f: FunctionId, now: Instant)
    requires f in qs && f !in visited
    ensures Sweep(Part(qs, visited + {f}), now) == Sweep(Part(qs, visited), now)[f := SweepQueue(qs[f], now)]
    ensures f !in Sweep(Part(qs, visited), now)
  {
  }

  // ----- Failing the expired requests one by one

  lemma FailAllGrow(fate: seq<Fate>, items: seq<Envelope>, i: nat)
    requires i < |items| && items[i].id < |fate|
    ensures FailAll(fate, Ids(items[..i + 1])) == FailAll(fate, Ids(items[..i]))[items[i].id := Failed(DeadlinePassed)]
  {
    assert items[..i + 1] == items[..i] + [items[i]];
    IdsAppend(items[..i], items[i]);
  }

  lemma FailAllNone(fate: seq<Fate>)
    ensures FailAll(fate, Ids([])) == fate
  {
    assert Ids([]) == {};
    assert |FailAll(fate, {})| == |fate|;
    assert forall i :: 0 <= i < |fate| ==> FailAll(fate, {})[i] == fate[i];
    assert FailAll(fate, {}) == fate;
  }

  lemma SweptInRange(s: State, now: Instant, x: nat)
    requires Lines(s) && Books(s) && x in SweptIds(s.queues, now)
    ensures x < |s.log.fate|
  {
    hide Lines, SweptIds, QueuedIds, Ids;
    SweptSets(s, now);
    IdsInRange(s);
    assert x in PendingIds(s);
  }

  // ----- One pass over the queues

  /** What a sweep has collected from the queues visited so far. */
  ghost predicate Collected(qs: Queues, visited: set<FunctionId>, now: Instant,
                            expired: seq<Envelope>, unblocked: nat, next: Option<Instant>) {
    var p := Part(qs, visited);
    && Ids(expired) == SweptIds(p, now) && |expired| == |Ids(expired)|
    && unblocked == |Freed(p, now)|
    && IsEarliest(Sweep(p, now), next)
  }

  function Earlier(next: Option<Instant>, items: seq<Envelope>): Option<Instant> {
    if items == [] then next
    else if next.None? || items[0].deadline < next.value then Some(items[0].deadline) else next
  }

  lemma CollectNone(qs: Queues, now: Instant)
    ensures Collected(qs, {}, now, [], 0, None)
  {
    assert Part(qs, {}) == map[];
    assert Freed(map[], now) == {};
    assert SweptIds(map[], now) == {};
  }

  lemma CollectOne(s: State, visited: set<FunctionId>, f: FunctionId, now: Instant,
                   expired: seq<Envelope>, unblocked: nat, next: Option<Instant>)
    requires Lines(s) && f in s.queues && f !in visited
    requires Collected(s.queues, visited, now, expired, unblocked, next)
    ensures var q, q' := s.queues[f], SweepQueue(s.queues[f], now);
            Collected(s.queues, visited + {f}, now,
                      expired + q.items[..ExpiredLen(q.items, now)],
                      unblocked + (if q.IsBlocked() && !q'.IsBlocked() then 1 else 0),
                      Earlier(next, q'.items))
  {
    hide Lines, SweptIds, Ids, BlockedSet, EarliestHead, Part, Sweep, IsEarliest, Freed;
    ExpiredGrow(s, visited, f, now, expired);
    FreedGrow(s.queues, visited, f, now);
    SweepPart(s.queues, visited, f, now);
    EarliestGrow(Sweep(Part(s.queues, visited), now), f, SweepQueue(s.queues[f], now),
                 next, Earlier(next, SweepQueue(s.queues[f], now).items));
  }

  lemma CollectAll(qs: Queues, now: Instant, expired: seq<Envelope>, unblocked: nat, next: Option<Instant>)
    requires Collected(qs, qs.Keys, now, expired, unblocked, next)
    ensures Ids(expired) == SweptIds(qs, now) && |expired| == |Ids(expired)|
    ensures unblocked == |Freed(qs, now)|
    ensures next == EarliestHead(Sweep(qs, now))
  {
    hide SweptIds, Ids, Freed, EarliestHead;
    PartAll(qs);
    EarliestIsUnique(Sweep(qs, now), next);
  }

  /** The counters cover what a sweep takes away, so the subtractions cannot underflow. */
  lemma SweepFits(s: State, now: Instant)
    requires Lines(s) && Counters(s)
    ensures |SweptIds(s.queues, now)| <= s.totalQueued
    ensures |Freed(s.queues, now)| <= s.blockedCount
  {
    hide Lines, SweptIds, QueuedIds, Sweep;
    SweptSets(s, now);
    SubsetSize(SweptIds(s.queues, now), QueuedIds(s.queues));
    SubsetSize(Freed(s.queues, now), BlockedSet(s.queues));
  }

  lemma ExpiredInRange(s: State, now: Instant, expired: seq<Envelope>)
    requires Lines(s) && Books(s) && Ids(expired) == SweptIds(s.queues, now)
    ensures forall i :: 0 <= i < |expired| ==> expired[i].id < |s.log.fate|
  {
    hide Lines, SweptIds;
    forall i | 0 <= i < |expired| ensures expired[i].id < |s.log.fate| {
      assert expired[i].id in Ids(expired);
      SweptInRange(s, now, expired[i].id);
    }
  }

  // ----- The `num_received` counter, which an arrival bumps first

  lemma ReceivedFrame(s: State, n: nat)
    requires Lines(s) && Counters(s) && Books(s)
    ensures var s' := s.(received := n); Lines(s') && Counters(s') && Books(s')
  {
    hide Lines, Counters, Books;
    LinesFrame(s, s.(received := n));
    CountersSame(s, s.(received := n));
    BooksSame(s, s.(received := n));
  }

  lemma CoreParts(c: Config, s: State, n: nat)
    requires Core(c, s)
    ensures var s' := s.(received := n); Lines(s') && Counters(s') && Books(s')
    ensures |s.log.fate| == |s.log.arrivals|
  {
    hide Lines, Counters, Permits, Timers;
    ReceivedFrame(s, n);
  }

  lemma ExpireReceived(s: State, n: nat, now: Instant)
    ensures ExpireIfDue(s.(received := n), now) == ExpireIfDue(s, now).(received := n)
  {
    hide EarliestHead, SweptIds, BlockedSet, FailAll, Sweep;
  }

  lemma ExpireFreeDue(s: State, n: int, now: Instant)
    ensures ExpireIfDue(s.(free := n), now) == ExpireIfDue(s, now).(free := n)
  {
    hide Expire;
    ExpireFree(s, n, now);
  }

  lemma HoldingParts(c: Config, s: State)
    requires Holding(c, s)
    ensures Lines(s) && Counters(s) && Books(s)
  {
    hide Lines, Counters, Books, Permits, Timers;
    var t := s.(free := s.free + 1);
    FreeFrame(t, s.free);
    assert t.(free := s.free) == s;
  }

  /** What is about to be popped is counted. */
  lemma QueuedPositive(c: Config, s: State, now: Instant, f: FunctionId)
    requires Holding(c, s)
    requires var s' := ExpireIfDue(s, now); f in s'.queues && s'.queues[f].items != []
    ensures ExpireIfDue(s, now).totalQueued > 0
  {
    hide Lines, Books, Permits, Timers, QueuedIds, ExpireIfDue;
    var t := s.(free := s.free + 1);
    ExpireIfDueKeeps(c, t, now);
    ExpireFreeDue(s, s.free + 1, now);
    QueuedAt(ExpireIfDue(t, now).queues, f, 0);
  }

  /** The arrival's queue exists and the books are in order, whatever the counter says. */
  lemma EntryReady(c: Config, s: State, fid: FunctionId, n: nat)
    requires Core(c, s)
    ensures var s' := Entry(s, fid).(received := n);
            && Lines(s') && Counters(s') && Books(s')
            && |s'.log.fate| == |s'.log.arrivals| == |s.log.arrivals|
  {
    hide Lines, Counters, Permits, Timers;
    EntryKeeps(c, s, fid);
    ReceivedFrame(Entry(s, fid), n);
  }

  // ----- Wakeups

  lemma MakeNoneRunnable(qs: Queues)
    ensures MakeRunnable(qs, {}) == qs
  {
  }

  lemma MakeOneRunnable(qs: Queues, f: FunctionId)
    requires f in qs
    ensures MakeRunnable(qs, {f}) == qs[f := qs[f].(state := Runnable)]
  {
  }

  /** The blocked Functions, or those blocked for memory. */
  function Selected(qs: Queues, memoryOnly: bool): set<FunctionId> {
    set f | f in qs && qs[f].IsBlocked() && (memoryOnly ==> qs[f].state.reason == MemoryPressure)
  }

  lemma SelectNone(qs: Queues, memoryOnly: bool)
    ensures Selected(qs, memoryOnly) - qs.Keys == {}
  {
  }

  lemma SelectOne(qs: Queues, memoryOnly: bool, todo: set<FunctionId>, f: FunctionId)
    requires f in todo && todo <= qs.Keys
    ensures var fs := Selected(qs, memoryOnly);
            var now, next := MakeRunnable(qs, fs - todo), MakeRunnable(qs, fs - (todo - {f}));
            && f in now && now[f] == qs[f]
            && (f in fs <==> qs[f].IsBlocked() && (memoryOnly ==> qs[f].state.reason == MemoryPressure))
            && (f in fs ==> next == now[f := qs[f].(state := Runnable)] && |fs - (todo - {f})| == |fs - todo| + 1)
            && (f !in fs ==> next == now && fs - (todo - {f}) == fs - todo)
  {
    var fs := Selected(qs, memoryOnly);
    if f in fs {
      assert fs - (todo - {f}) == (fs - todo) + {f};
    } else {
      assert fs - (todo - {f}) == fs - todo;
    }
  }

  /** Which Functions an event about one Function wakes. */
  lemma WokenShape(qs: Queues, ev: PoolEvent)
    ensures ev.WorkerIdle? ==>
              Woken(qs, ev) == if ev.idle in qs && qs[ev.idle].IsBlocked() then {ev.idle} else {}
    ensures ev.WorkerCapAvailable? ==>
              Woken(qs, ev) == if ev.freed in qs && qs[ev.freed].IsBlocked()
                                  && qs[ev.freed].state.reason == FunctionWorkerCap
                               then {ev.freed} else {}
  {
  }
}
