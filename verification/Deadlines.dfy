/**
 Deadlines: the cached earliest deadline, expiry and what they promise about dispatch.

 The sweep and the cache look at queue heads only, so they rely on deadlines being
 non-decreasing along each Function's requests.
 */
module Deadlines {
  import opened Options
  import opened Admission
  import opened Invariant
  import opened Preservation

  /** The requests of `f` that admission still owns, oldest first. */
  function Owned(s: State, f: FunctionId): seq<Envelope> {
    OutstandingOf(s, f) + QueueOf(s, f)
  }

  ghost predicate ByDeadline(q: seq<Envelope>) {
    forall i, j :: 0 <= i < j < |q| ==> q[i].deadline <= q[j].deadline
  }

  ghost predicate Sorted(s: State) {
    forall f :: ByDeadline(Owned(s, f))
  }

  /** `d` is set, and not late, if `q` holds anything. */
  ghost predicate Covers(d: Option<Instant>, q: seq<Envelope>) {
    forall i :: 0 <= i < |q| ==> d.Some? && d.value <= q[i].deadline
  }

  ghost predicate Cached(s: State) {
    forall f :: Covers(s.nextDeadline, QueueOf(s, f))
  }

  ghost predicate Timely(s: State) {
    Sorted(s) && Cached(s)
  }

  ghost predicate Unexpired(q: seq<Envelope>, now: Instant) {
    forall i :: 0 <= i < |q| ==> now < q[i].deadline
  }

  /** Nothing queued has expired at `now`. */
  ghost predicate Fresh(s: State, now: Instant) {
    forall f :: Unexpired(QueueOf(s, f), now)
  }

  // ----- Arrivals, summarised

  /** The request that an arrival would enqueue. */
  function Newcomer(s: State, fid: FunctionId, delay: nat, now: Instant): Envelope {
    Envelope(|s.log.arrivals|, fid, now, now + delay)
  }

  function SweptIf(qs: Queues, now: Instant, swept: bool): Queues {
    if swept then Sweep(qs, now) else qs
  }

  function EnteredIf(qs: Queues, fid: FunctionId, entered: bool): Queues {
    if entered && fid !in qs then qs[fid := FunctionQueue([], Runnable)] else qs
  }

  function AppendedIf(qs: Queues, e: Envelope, admitted: bool): Queues {
    if admitted && e.fid in qs then qs[e.fid := qs[e.fid].(items := qs[e.fid].items + [e])] else qs
  }

  lemma SweepEntry(qs: Queues, fid: FunctionId, now: Instant)
    ensures Sweep(EnteredIf(qs, fid, true), now) == EnteredIf(Sweep(qs, now), fid, true)
  {
  }

  ghost predicate Due(s: State, now: Instant) {
    s.nextDeadline.Some? && s.nextDeadline.value <= now
  }

  /** An arrival sweeps if a deadline may have passed and a cap seems to be reached. */
  ghost predicate Sweeps(c: Config, s: State, fid: FunctionId, found: Lookup, now: Instant) {
    && found.Registered? && Due(s, now)
    && (s.totalQueued >= c.globalCap || |QueueOf(s, fid)| >= found.cap)
  }

  lemma ExpireIfDueShape(s: State, now: Instant)
    ensures ExpireIfDue(s, now).queues == SweptIf(s.queues, now, Due(s, now))
    ensures ExpireIfDue(s, now).log.arrivals == s.log.arrivals
    ensures Due(s, now) ==> ExpireIfDue(s, now).nextDeadline == EarliestHead(Sweep(s.queues, now))
    ensures !Due(s, now) ==> ExpireIfDue(s, now) == s
  {
    hide EarliestHead, SweptIds, BlockedSet, FailAll, Sweep;
  }

  lemma ArriveAtShape(s: State, fid: FunctionId, cap: nat, delay: nat, checked: bool, now: Instant)
      returns (swept: bool, admitted: bool)
    requires fid in s.queues
    ensures swept <==> Due(s, now) && !checked && |s.queues[fid].items| >= cap
    ensures var s' := ArriveAt(s, fid, cap, delay, checked, now);
            s'.queues == AppendedIf(SweptIf(s.queues, now, swept), Newcomer(s, fid, delay, now), admitted)
  {
    hide ExpireIfDue, Sweep;
    var s1 := if |s.queues[fid].items| >= cap && !checked then ExpireIfDue(s, now) else s;
    swept := |s.queues[fid].items| >= cap && !checked && Due(s, now);
    ExpireIfDueShape(s, now);
    ExpireIfDueOuter(s, now);
    admitted := |s1.queues[fid].items| < cap;
  }

  /** An arrival sweeps at most once, may create its queue, and may append one request to it. */
  lemma ArriveShape(c: Config, s: State, fid: FunctionId, found: Lookup, now: Instant)
      returns (swept: bool, entered: bool, admitted: bool)
    ensures swept <==> Sweeps(c, s, fid, found, now)
    ensures admitted ==> found.Registered? && entered
    ensures entered <==> found.Registered? &&
                         (if s.totalQueued >= c.globalCap then ExpireIfDue(s, now) else s).totalQueued < c.globalCap
    ensures var s' := Arrive(c, s, fid, found, now);
            var delay := if found.Registered? then found.delay else 0;
            s'.queues == AppendedIf(EnteredIf(SweptIf(s.queues, now, swept), fid, entered),
                                    Newcomer(s, fid, delay, now), admitted)
  {
    hide ExpireIfDue, Sweep, ArriveAt;
    swept, entered, admitted := false, false, false;
    if found.Registered? {
      var pressed := s.totalQueued >= c.globalCap;
      var s1 := if pressed then ExpireIfDue(s, now) else s;
      swept := pressed && Due(s, now);
      ExpireIfDueShape(s, now);
      if s1.totalQueued < c.globalCap {
        entered := true;
        var again;
        again, admitted := ArriveAtShape(Entry(s1, fid), fid, found.cap, found.delay, pressed, now);
        if again {
          SweepEntry(s.queues, fid, now);
          swept := true;
        }
      }
    }
  }

  function ItemsOf(qs: Queues, f: FunctionId): seq<Envelope> {
    if f in qs then qs[f].items else []
  }

  /** What an arrival leaves of one queue. */
  ghost predicate QueueArrived(qs: Queues, qs': Queues, now: Instant, swept: bool, x: Envelope, entered: bool, admitted: bool,
                           f: FunctionId)
  {
    && (f in qs' <==> f in qs || (entered && f == x.fid))
    && ItemsOf(qs', f) == (if swept then ItemsOf(qs, f)[ExpiredLen(ItemsOf(qs, f), now)..] else ItemsOf(qs, f))
                          + (if admitted && f == x.fid then [x] else [])
    && (f in qs' ==>
          qs'[f].state ==
            if f !in qs then Runnable else if swept then SweepQueue(qs[f], now).state else qs[f].state)
  }

  lemma ArrivedQueue(qs: Queues, now: Instant, swept: bool, x: Envelope, entered: bool, admitted: bool, f: FunctionId)
    requires admitted ==> entered
    ensures QueueArrived(qs, AppendedIf(EnteredIf(SweptIf(qs, now, swept), x.fid, entered), x, admitted), now,
                     swept, x, entered, admitted, f)
  {
    var qs1 := SweptIf(qs, now, swept);
    var q := ItemsOf(qs, f);
    assert ItemsOf(qs1, f) == if swept then q[ExpiredLen(q, now)..] else q;
    var qs2 := EnteredIf(qs1, x.fid, entered);
    assert ItemsOf(qs2, f) == ItemsOf(qs1, f);
    assert ItemsOf(qs2, f) + [] == ItemsOf(qs2, f);
  }

  /** What an arrival leaves in each queue. */
  lemma ArriveQueues(c: Config, s: State, fid: FunctionId, found: Lookup, now: Instant)
      returns (swept: bool, admitted: bool)
    ensures swept <==> Sweeps(c, s, fid, found, now)
    ensures admitted ==> found.Registered? && fid in Arrive(c, s, fid, found, now).queues
    ensures var s' := Arrive(c, s, fid, found, now);
            && s.queues.Keys <= s'.queues.Keys
            && (forall f :: QueueOf(s', f) ==
                  (if swept then QueueOf(s, f)[ExpiredLen(QueueOf(s, f), now)..] else QueueOf(s, f))
                  + (if admitted && f == fid then [Newcomer(s, fid, found.delay, now)] else []))
            && (forall f :: f in s'.queues ==>
                  s'.queues[f].state ==
                    if f !in s.queues then Runnable
                    else if swept then SweepQueue(s.queues[f], now).state else s.queues[f].state)
  {
    hide Arrive, ExpireIfDue, Sweeps, SweptIf, EnteredIf, AppendedIf;
    var entered;
    swept, entered, admitted := ArriveShape(c, s, fid, found, now);
    var x := Newcomer(s, fid, if found.Registered? then found.delay else 0, now);
    var qs' := Arrive(c, s, fid, found, now).queues;
    forall f ensures QueueArrived(s.queues, qs', now, swept, x, entered, admitted, f) {
      ArrivedQueue(s.queues, now, swept, x, entered, admitted, f);
    }
    forall f
      ensures f in s.queues ==> f in qs'
      ensures f in qs' ==>
                qs'[f].state ==
                  if f !in s.queues then Runnable
                  else if swept then SweepQueue(s.queues[f], now).state else s.queues[f].state
      ensures QueueOf(Arrive(c, s, fid, found, now), f) ==
                (if swept then QueueOf(s, f)[ExpiredLen(QueueOf(s, f), now)..] else QueueOf(s, f))
                + (if admitted && f == fid then [x] else [])
    {
      assert QueueArrived(s.queues, qs', now, swept, x, entered, admitted, f);
    }
  }

  // ----- Sortedness is kept

  lemma DropSorted(a: seq<Envelope>, b: seq<Envelope>, k: nat)
    requires ByDeadline(a + b) && k <= |b|
    ensures ByDeadline(a + b[k..]) && ByDeadline(b[k..])
  {
    var l, l' := a + b, a + b[k..];
    assert forall i :: 0 <= i < |l'| ==> l'[i] == l[if i < |a| then i else i + k];
    assert forall i :: 0 <= i < |b[k..]| ==> b[k..][i] == l[|a| + k + i];
  }

  lemma OwnedDropSorted(s: State, s': State, f: FunctionId, k: nat)
    requires ByDeadline(Owned(s, f)) && (s'.outstanding == s.outstanding || s'.outstanding.None?)
    requires k <= |QueueOf(s, f)| && QueueOf(s', f) == QueueOf(s, f)[k..]
    ensures ByDeadline(Owned(s', f))
  {
    hide ByDeadline;
    var a, b := OutstandingOf(s, f), QueueOf(s, f)[k..];
    DropSorted(a, QueueOf(s, f), k);
    if s'.outstanding.None? {
      assert Owned(s', f) == b;
    } else {
      assert Owned(s', f) == a + b;
    }
  }

  /** In `s'` no Function owns more than what is left after dropping queue heads. */
  lemma SortedDrop(s: State, s': State, k: FunctionId -> nat)
    requires Sorted(s) && (s'.outstanding == s.outstanding || s'.outstanding.None?)
    requires forall f :: k(f) <= |QueueOf(s, f)|
    requires forall f :: QueueOf(s', f) == QueueOf(s, f)[k(f)..]
    ensures Sorted(s')
  {
    hide ByDeadline, QueueOf, Owned;
    forall f ensures ByDeadline(Owned(s', f)) {
      assert ByDeadline(Owned(s, f)) && k(f) <= |QueueOf(s, f)|;
      assert QueueOf(s', f) == QueueOf(s, f)[k(f)..];
      OwnedDropSorted(s, s', f, k(f));
    }
  }

  lemma SortedSame(s: State, s': State)
    requires Sorted(s) && (s'.outstanding == s.outstanding || s'.outstanding.None?)
    requires forall f :: QueueOf(s', f) == QueueOf(s, f)
    ensures Sorted(s')
  {
    SortedDrop(s, s', f => 0);
  }

  lemma SortedOwned(s: State, s': State)
    requires Sorted(s) && forall f :: Owned(s', f) == Owned(s, f)
    ensures Sorted(s')
  {
    forall f ensures ByDeadline(Owned(s', f)) {
      assert ByDeadline(Owned(s, f));
    }
  }

  ghost predicate NotBefore(q: seq<Envelope>, d: Instant) {
    forall i :: 0 <= i < |q| ==> q[i].deadline <= d
  }

  /** Appending keeps a Function's requests sorted exactly when the new deadline is not too early. */
  lemma AppendSortedIff(q: seq<Envelope>, e: Envelope)
    requires ByDeadline(q)
    ensures ByDeadline(q + [e]) <==> NotBefore(q, e.deadline)
  {
    var l := q + [e];
    assert forall i :: 0 <= i < |q| ==> l[i] == q[i];
    assert l[|q|] == e;
    if ByDeadline(l) {
      forall i | 0 <= i < |q| ensures q[i].deadline <= e.deadline {
        assert l[i].deadline <= l[|q|].deadline;
      }
    }
  }

  /** The condition on an arrival: its deadline is not before any that its Function still owns. */
  ghost predicate InOrder(s: State, e: Event) {
    e.Arrival? && e.found.Registered? ==> NotBefore(Owned(s, e.fid), e.now + e.found.delay)
  }

  // ----- The cache is kept

  lemma QueueSorted(s: State, f: FunctionId)
    requires Sorted(s)
    ensures ByDeadline(QueueOf(s, f))
  {
    hide ByDeadline;
    assert ByDeadline(Owned(s, f));
    DropSorted(OutstandingOf(s, f), QueueOf(s, f), 0);
    assert QueueOf(s, f)[0..] == QueueOf(s, f);
  }

  /** A cache rebuilt from the heads covers whole queues, because queues are sorted. */
  lemma EarliestHeadCovers(s: State)
    requires Sorted(s) && s.nextDeadline == EarliestHead(s.queues)
    ensures Cached(s)
  {
    hide Sorted;
    forall f ensures Covers(s.nextDeadline, QueueOf(s, f)) {
      QueueSorted(s, f);
    }
  }

  lemma ExpireSorted(s: State, now: Instant)
    requires Sorted(s)
    ensures Sorted(Expire(s, now))
  {
    hide Sorted, EarliestHead, SweptIds, BlockedSet, FailAll;
    SortedDrop(s, Expire(s, now), f => ExpiredLen(QueueOf(s, f), now));
  }

  /** A sweep at `now` restores the cache and leaves nothing that has expired. */
  lemma ExpireTimely(s: State, now: Instant)
    requires Sorted(s)
    ensures Timely(Expire(s, now)) && Fresh(Expire(s, now), now)
  {
    hide Sorted, Cached, EarliestHead, SweptIds, BlockedSet, FailAll;
    var s' := Expire(s, now);
    ExpireSorted(s, now);
    EarliestHeadCovers(s');
    forall f ensures Unexpired(QueueOf(s', f), now) {
      QueueSorted(s', f);
      assert QueueOf(s', f) == QueueOf(s, f)[ExpiredLen(QueueOf(s, f), now)..];
      UnexpiredFromHead(QueueOf(s', f), now);
    }
  }

  lemma UnexpiredFromHead(q: seq<Envelope>, now: Instant)
    requires ByDeadline(q) && (q != [] ==> now < q[0].deadline)
    ensures Unexpired(q, now)
  {
    forall i | 0 <= i < |q| ensures now < q[i].deadline {
      assert i > 0 ==> q[0].deadline <= q[i].deadline;
    }
  }

  lemma ExpireIfDueTimely(s: State, now: Instant)
    requires Timely(s)
    ensures Timely(ExpireIfDue(s, now)) && Fresh(ExpireIfDue(s, now), now)
  {
    hide Expire, Sorted;
    ExpireTimely(s, now);
  }

  lemma CachedSame(s: State, s': State)
    requires Cached(s) && s'.nextDeadline == s.nextDeadline
    requires forall f :: QueueOf(s', f) == QueueOf(s, f)
    ensures Cached(s')
  {
    forall f ensures Covers(s'.nextDeadline, QueueOf(s', f)) {
      assert QueueOf(s', f) == QueueOf(s, f);
      assert Covers(s.nextDeadline, QueueOf(s, f));
    }
  }

  lemma TimelySame(s: State, s': State)
    requires Timely(s) && s'.nextDeadline == s.nextDeadline
    requires s'.outstanding == s.outstanding || s'.outstanding.None?
    requires forall f :: QueueOf(s', f) == QueueOf(s, f)
    ensures Timely(s')
  {
    hide Sorted, Cached;
    SortedSame(s, s');
    CachedSame(s, s');
  }

  lemma AdmitTimely(s: State, e: Envelope)
    requires Timely(s) && e.fid in s.queues && NotBefore(Owned(s, e.fid), e.deadline)
    ensures Timely(Admit(s, e))
  {
    hide Cached, ByDeadline, NotBefore;
    var s' := Admit(s, e);
    forall f ensures ByDeadline(Owned(s', f)) {
      assert ByDeadline(Owned(s, f));
      if f == e.fid {
        assert Owned(s', f) == Owned(s, f) + [e];
        AppendSortedIff(Owned(s, f), e);
      } else {
        assert Owned(s', f) == Owned(s, f);
      }
    }
    AdmitCached(s, e);
  }

  lemma AdmitCached(s: State, e: Envelope)
    requires Cached(s) && e.fid in s.queues
    ensures Cached(Admit(s, e))
  {
    var s' := Admit(s, e);
    forall f ensures Covers(s'.nextDeadline, QueueOf(s', f)) {
      assert Covers(s.nextDeadline, QueueOf(s, f));
      assert QueueOf(s', f) == QueueOf(s, f) + if f == e.fid then [e] else [];
    }
  }

  lemma NotBeforeSwept(s: State, s': State, f: FunctionId, k: nat, d: Instant)
    requires NotBefore(Owned(s, f), d) && s'.outstanding == s.outstanding
    requires k <= |QueueOf(s, f)| && QueueOf(s', f) == QueueOf(s, f)[k..]
    ensures NotBefore(Owned(s', f), d)
  {
    var l, l' := Owned(s, f), Owned(s', f);
    var n := |OutstandingOf(s, f)|;
    assert forall i :: 0 <= i < |l'| ==> l'[i] == l[if i < n then i else i + k];
  }

  lemma ExpireIfDueNotBefore(s: State, now: Instant, f: FunctionId, d: Instant)
    requires NotBefore(Owned(s, f), d)
    ensures NotBefore(Owned(ExpireIfDue(s, now), f), d)
  {
    hide NotBefore, EarliestHead, SweptIds, BlockedSet, FailAll;
    if Due(s, now) {
      NotBeforeSwept(s, Expire(s, now), f, ExpiredLen(QueueOf(s, f), now), d);
    }
  }

  lemma ArriveAtTimely(s: State, fid: FunctionId, cap: nat, delay: nat, checked: bool, now: Instant)
    requires Timely(s) && fid in s.queues && NotBefore(Owned(s, fid), now + delay)
    ensures Timely(ArriveAt(s, fid, cap, delay, checked, now))
  {
    hide Timely, NotBefore, ExpireIfDue, Admit;
    var s1 := if |s.queues[fid].items| >= cap && !checked then ExpireIfDue(s, now) else s;
    assert Timely(s1) by { ExpireIfDueTimely(s, now); }
    ExpireIfDueNotBefore(s, now, fid, now + delay);
    ExpireIfDueOuter(s, now);
    if |s1.queues[fid].items| >= cap {
      TimelySame(s1, Refuse(s1, fid, QueueFullFunction));
    } else {
      AdmitTimely(s1, Envelope(|s1.log.arrivals|, fid, now, now + delay));
    }
  }

  lemma ArriveTimely(c: Config, s: State, fid: FunctionId, found: Lookup, now: Instant)
    requires Timely(s)
    requires found.Registered? ==> NotBefore(Owned(s, fid), now + found.delay)
    ensures Timely(Arrive(c, s, fid, found, now))
  {
    hide Timely, NotBefore, ExpireIfDue, ArriveAt;
    if found.Unregistered? {
      TimelySame(s, Refuse(s, fid, Rejected(UnknownFunction)));
    } else {
      var pressed := s.totalQueued >= c.globalCap;
      var s1 := if pressed then ExpireIfDue(s, now) else s;
      assert Timely(s1) by { ExpireIfDueTimely(s, now); }
      ExpireIfDueNotBefore(s, now, fid, now + found.delay);
      if s1.totalQueued >= c.globalCap {
        TimelySame(s1, Refuse(s1, fid, QueueFullGlobal));
      } else {
        var s2 := Entry(s1, fid);
        TimelySame(s1, s2);
        assert Owned(s2, fid) == Owned(s1, fid);
        ArriveAtTimely(s2, fid, found.cap, found.delay, pressed, now);
      }
    }
  }

  lemma SentTimely(s: State, f: FunctionId)
    requires Timely(s) && s.outstanding.None? && f in s.queues && s.queues[f].items != []
    requires s.queues[f].items[0].fid == f
    ensures Timely(Sent(s, f))
  {
    hide ByDeadline;
    var s' := Sent(s, f);
    forall g ensures Owned(s', g) == Owned(s, g) {
      if g == f {
        assert s.queues[f].items == [s.queues[f].items[0]] + s.queues[f].items[1..];
      }
    }
    SortedOwned(s, s');
    forall g ensures Covers(s'.nextDeadline, QueueOf(s', g)) {
      assert Covers(s.nextDeadline, QueueOf(s, g));
      assert QueueOf(s', g) == if g == f then QueueOf(s, g)[1..] else QueueOf(s, g);
    }
  }

  lemma AttemptTimely(s: State, pick: Option<FunctionId>, sent: bool)
    requires Timely(s) && s.outstanding.None? && IsPick(s.queues, pick)
    requires pick.Some? ==> s.queues[pick.value].items[0].fid == pick.value
    ensures Timely(Attempt(s, pick, sent))
  {
    hide Timely;
    if pick.Some? && sent {
      SentTimely(s, pick.value);
    } else if pick.Some? {
      PopThenPush(s, pick.value);
      UpdateTimerTimely(s, Attempt(s, pick, sent), pick.value);
    } else {
      TimelySame(s, Attempt(s, pick, sent));
    }
  }

  /** Rolling back a failed send leaves the cache as it was, since it already covers the head. */
  lemma UpdateTimerTimely(s: State, s': State, f: FunctionId)
    requires Timely(s) && f in s.queues && s.queues[f].items != []
    requires s'.queues == s.queues && s'.outstanding == s.outstanding
    requires s'.nextDeadline == UpdateTimer(s, s.queues[f].items[0].deadline).nextDeadline
    ensures Timely(s')
  {
    hide Sorted;
    assert Covers(s.nextDeadline, QueueOf(s, f));
    TimelySame(s, s');
  }

  lemma RequeueSorted(s: State, s': State)
    requires Sorted(s) && Replyable(s) && s'.outstanding.None? && s'.queues.Keys == s.queues.Keys
    requires var e := s.outstanding.value;
             && s'.queues[e.fid].items == [e] + s.queues[e.fid].items
             && (forall f :: f in s.queues && f != e.fid ==> s'.queues[f] == s.queues[f])
    ensures Sorted(s')
  {
    hide Sorted;
    forall f ensures Owned(s', f) == Owned(s, f) {
    }
    SortedOwned(s, s');
  }

  /** The queues after a WouldBlock reply. */
  lemma BlockQueues(c: Config, s: State, why: BlockReason, reset: Instant, now: Instant)
    requires Replyable(s)
    ensures var e, s' := s.outstanding.value, Reply(c, s, WouldBlock(why), true, reset, now);
            && s'.outstanding.None?
            && s'.queues == s.queues[e.fid := FunctionQueue([e] + s.queues[e.fid].items, Blocked(why, now))]
            && s'.nextDeadline == UpdateTimer(s, e.deadline).nextDeadline
  {
  }

  lemma BlockTimely(c: Config, s: State, why: BlockReason, reset: Instant, now: Instant)
    requires Timely(s) && Replyable(s)
    ensures Timely(Reply(c, s, WouldBlock(why), true, reset, now))
  {
    hide Sorted, Reply;
    var e, s' := s.outstanding.value, Reply(c, s, WouldBlock(why), true, reset, now);
    BlockQueues(c, s, why, reset, now);
    RequeueSorted(s, s');
    forall f ensures Covers(s'.nextDeadline, QueueOf(s', f)) {
      assert Covers(s.nextDeadline, QueueOf(s, f));
      assert QueueOf(s', f) == if f == e.fid then [e] + QueueOf(s, f) else QueueOf(s, f);
    }
  }

  lemma ReplyTimely(c: Config, s: State, resp: DispatchResponse, ok: bool, reset: Instant, now: Instant)
    requires Timely(s) && Replyable(s)
    ensures Timely(Reply(c, s, resp, ok, reset, now))
  {
    hide Timely;
    match resp
    case WouldBlock(why) => BlockTimely(c, s, why, reset, now);
    case _ => TimelySame(s, Reply(c, s, resp, ok, reset, now));
  }

  lemma BeforeAttemptTimely(s: State, now: Instant)
    requires Timely(s)
    ensures Timely(BeforeAttempt(s, now)) && Fresh(BeforeAttempt(s, now), now)
  {
    hide Timely, ExpireIfDue;
    var s1 := s.(waiting := false, free := s.free - 1);
    TimelySame(s, s1);
    ExpireIfDueTimely(s1, now);
  }

  /** The head that the slot handler may attempt has not expired. */
  lemma SlotFacts(c: Config, s: State, pick: Option<FunctionId>, now: Instant)
    requires Core(c, s) && s.waiting && s.free > 0 && IsPick(BeforeAttempt(s, now).queues, pick)
    ensures BeforeAttempt(s, now).outstanding.None?
    ensures var qs := BeforeAttempt(s, now).queues;
            pick.Some? ==> qs[pick.value].items[0].fid == pick.value
  {
    hide Lines, Counters, Books, Permits, BeforeAttempt;
    BeforeAttemptHolds(c, s, now);
    var b := BeforeAttempt(s, now);
    FreeFrame(b.(free := b.free + 1), b.free);
    assert b.(free := b.free + 1).(free := b.free) == b;
    if pick.Some? {
      QueueItem(b, pick.value, 0);
    }
  }

  lemma HandleTimely(c: Config, s: State, e: Event)
    requires Core(c, s) && Timely(s) && InOrder(s, e)
    requires e.SlotAcquired? ==> s.waiting && s.free > 0 && IsPick(BeforeAttempt(s, e.now).queues, e.pick)
    requires e.PoolReply? || e.PoolGone? ==> Replyable(s)
    ensures Timely(Handle(c, s, e))
  {
    hide Core, Expire, Arrive, BeforeAttempt, Attempt, Reply, Sorted, Cached;
    match e
    case Arrival(fid, found, now) => ArriveTimely(c, s, fid, found, now);
    case SlotAcquired(pick, sent, now) =>
      BeforeAttemptTimely(s, now);
      SlotFacts(c, s, pick, now);
      AttemptTimely(BeforeAttempt(s, now), pick, sent);
    case PoolReply(resp, ok, reset, now) => ReplyTimely(c, s, resp, ok, reset, now);
    case DeadlineFired(now) => ExpireTimely(s, now);
    case _ => TimelySame(s, Handle(c, s, e));
  }

  lemma StepTimely(c: Config, s: State, e: Event, s': State)
    requires Inv(c, s) && Timely(s) && InOrder(s, e) && Step(c, s, e, s')
    ensures Timely(s')
  {
    hide Timely, Handle, BeforeAttempt, Lines, Books, Permits;
    TimelySame(s, Ready(s, e));
    ReadyKeeps(c, s, e);
    assert Owned(Ready(s, e), if e.Arrival? then e.fid else FunctionId("")) == Owned(s, if e.Arrival? then e.fid else FunctionId(""));
    HandleTimely(c, Ready(s, e), e);
  }

  lemma InvTimer(c: Config, s: State)
    requires Inv(c, s)
    ensures s.timer == s.nextDeadline
  {
  }

  lemma InitTimely(c: Config, t: Instant)
    ensures Timely(Init(c, t))
  {
  }

  /** What the slot handler sends to Pool has not expired. */
  lemma AttemptIsFresh(c: Config, s: State, e: Event, s': State)
    requires Inv(c, s) && Timely(s) && Step(c, s, e, s') && e.SlotAcquired? && s'.outstanding.Some?
    ensures e.now < s'.outstanding.value.deadline
  {
    hide Timely, BeforeAttempt, Lines, Counters, Books, Permits;
    var r := Ready(s, e);
    TimelySame(s, r);
    ReadyKeeps(c, s, e);
    BeforeAttemptTimely(r, e.now);
    SlotFacts(c, r, e.pick, e.now);
    if e.pick.Some? {
      assert Unexpired(QueueOf(BeforeAttempt(r, e.now), e.pick.value), e.now);
    }
  }
}
