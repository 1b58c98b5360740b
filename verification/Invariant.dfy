/**
 What every step of the admission controller keeps.

 The invariant has five parts, each proved on its own for each operation: the order of
 every Function's requests, the cached counters, the books, the permits and the timers.
 */
module Invariant {
  import opened Options
  import opened Admission

  // ----- Lines: the requests of one Function, in the order they leave

  ghost function ForwardedOf(fw: seq<Envelope>, f: FunctionId): seq<Envelope> {
    if fw == [] then []
    else
      var last := fw[|fw| - 1];
      ForwardedOf(fw[..|fw| - 1], f) + (if last.fid == f then [last] else [])
  }

  function OutstandingOf(s: State, f: FunctionId): seq<Envelope> {
    if s.outstanding.Some? && s.outstanding.value.fid == f then [s.outstanding.value] else []
  }

  function QueueOf(s: State, f: FunctionId): seq<Envelope> {
    if f in s.queues then s.queues[f].items else []
  }

  /** The requests of `f` forwarded to Workers, then its outstanding one, then its queue. */
  ghost function Line(s: State, f: FunctionId): seq<Envelope> {
    ForwardedOf(s.log.forwarded, f) + OutstandingOf(s, f) + QueueOf(s, f)
  }

  ghost predicate Ordered(line: seq<Envelope>) {
    forall i, j :: 0 <= i < j < |line| ==>
      line[i].id < line[j].id && line[i].enqueuedAt <= line[j].enqueuedAt
  }

  /** `e` is the arrival number `e.id`, and that one was for `f`. */
  ghost predicate Arrived(s: State, f: FunctionId, e: Envelope) {
    e.fid == f && e.id < |s.log.arrivals| && s.log.arrivals[e.id] == f && e.enqueuedAt <= s.clock
  }

  ghost predicate LineOk(s: State, f: FunctionId) {
    && Ordered(Line(s, f))
    && forall i :: 0 <= i < |Line(s, f)| ==> Arrived(s, f, Line(s, f)[i])
  }

  ghost predicate Lines(s: State) {
    forall f :: LineOk(s, f)
  }

  // ----- The other parts

  ghost predicate Counters(s: State) {
    && s.totalQueued == |QueuedIds(s.queues)|
    && s.blockedCount == |BlockedSet(s.queues)|
    && forall f :: f in s.queues && s.queues[f].IsBlocked() ==> s.queues[f].items != []
  }

  ghost function PendingIds(s: State): set<nat> {
    QueuedIds(s.queues) + (if s.outstanding.Some? then {s.outstanding.value.id} else {})
  }

  ghost predicate FateOk(s: State, x: nat)
    requires x < |s.log.fate|
  {
    && (s.log.fate[x] == Pending <==> x in PendingIds(s))
    && (s.log.fate[x] == Dispatched <==> x in Ids(s.log.forwarded))
    && (s.log.fate[x] == Lost <==> x in s.log.lost)
  }

  ghost predicate Books(s: State) {
    && |s.log.fate| == |s.log.arrivals|
    && s.dispatched == |s.log.forwarded| == |Ids(s.log.forwarded)|
    && |s.log.arrivals| == s.dispatched + s.failed + s.totalQueued + OutstandingCount(s) + |s.log.lost|
    && (!s.halted ==> s.log.lost == {}) && |s.log.lost| <= 1
    && (forall x :: x in s.log.lost ==> x < |s.log.fate|)
    && forall x :: 0 <= x < |s.log.fate| ==> FateOk(s, x)
  }

  ghost predicate Permits(c: Config, s: State) {
    && 0 <= s.free
    && s.free + |s.running| + OutstandingCount(s) == c.maxConcurrency
    && s.running <= Ids(s.log.forwarded)
    && (s.outstanding.Some? ==>
          && !s.waiting
          && s.outstanding.value.fid in s.queues
          && !s.queues[s.outstanding.value.fid].IsBlocked())
  }

  ghost predicate Timers(c: Config, s: State) {
    && s.timer == s.nextDeadline
    && s.log.epoch <= s.clock
    && (BlockedSet(s.queues) != {} ==> s.tickDue == s.log.epoch + c.period)
    && forall f :: f in s.queues && s.queues[f].IsBlocked() ==>
         s.log.epoch <= s.queues[f].state.blockedAt <= s.clock
  }

  /** Everything but the `num_received` counter, which an arrival bumps first. */
  ghost predicate Core(c: Config, s: State) {
    Lines(s) && Counters(s) && Books(s) && Permits(c, s) && Timers(c, s)
  }

  ghost predicate Inv(c: Config, s: State) {
    Core(c, s) && s.received == |s.log.arrivals|
  }

  // ----- Consequences used throughout

  lemma QueueItem(s: State, f: FunctionId, i: nat)
    requires Lines(s) && f in s.queues && i < |s.queues[f].items|
    ensures Arrived(s, f, s.queues[f].items[i])
  {
    var k := |ForwardedOf(s.log.forwarded, f) + OutstandingOf(s, f)|;
    assert LineOk(s, f);
    assert Line(s, f)[k + i] == s.queues[f].items[i];
  }

  lemma QueueOrdered(s: State, f: FunctionId)
    requires Lines(s) && f in s.queues
    ensures Ordered(s.queues[f].items)
  {
    var k := |ForwardedOf(s.log.forwarded, f) + OutstandingOf(s, f)|;
    assert LineOk(s, f);
    forall i, j | 0 <= i < j < |s.queues[f].items|
      ensures s.queues[f].items[i].id < s.queues[f].items[j].id
      ensures s.queues[f].items[i].enqueuedAt <= s.queues[f].items[j].enqueuedAt
    {
      assert Line(s, f)[k + i] == s.queues[f].items[i];
      assert Line(s, f)[k + j] == s.queues[f].items[j];
    }
  }

  /** A queued request sits at one position of one queue. */
  lemma QueuedOnce(s: State, f: FunctionId, i: nat, g: FunctionId, j: nat)
    requires Lines(s)
    requires f in s.queues && i < |s.queues[f].items|
    requires g in s.queues && j < |s.queues[g].items|
    requires s.queues[f].items[i].id == s.queues[g].items[j].id
    ensures f == g && i == j
  {
    QueueItem(s, f, i);
    QueueItem(s, g, j);
    QueueOrdered(s, f);
  }

  lemma OutstandingItem(s: State)
    requires Lines(s) && s.outstanding.Some?
    ensures var e := s.outstanding.value;
            && Arrived(s, e.fid, e)
            && e.id !in QueuedIds(s.queues)
            && e.id !in Ids(s.log.forwarded)
            && (forall i :: 0 <= i < |QueueOf(s, e.fid)| ==> e.enqueuedAt <= QueueOf(s, e.fid)[i].enqueuedAt)
  {
    var e := s.outstanding.value;
    var k := |ForwardedOf(s.log.forwarded, e.fid)|;
    assert LineOk(s, e.fid);
    assert Line(s, e.fid)[k] == e;
    forall i | 0 <= i < |QueueOf(s, e.fid)|
      ensures e.enqueuedAt <= QueueOf(s, e.fid)[i].enqueuedAt && e.id != QueueOf(s, e.fid)[i].id
    {
      assert Line(s, e.fid)[k + 1 + i] == QueueOf(s, e.fid)[i];
    }
    forall f, i | f in s.queues && 0 <= i < |s.queues[f].items|
      ensures s.queues[f].items[i].id != e.id
    {
      QueueItem(s, f, i);
    }
    forall i | 0 <= i < |s.log.forwarded|
      ensures s.log.forwarded[i].id != e.id
    {
      var h := s.log.forwarded[i];
      var m := ForwardedAt(s.log.forwarded, i);
      assert LineOk(s, h.fid);
      assert Line(s, h.fid)[m] == h;
    }
  }

  /** A forwarded request is somewhere in its Function's line. */
  lemma {:induction false} ForwardedAt(fw: seq<Envelope>, i: nat) returns (m: nat)
    requires i < |fw|
    ensures m < |ForwardedOf(fw, fw[i].fid)|
    ensures ForwardedOf(fw, fw[i].fid)[m] == fw[i]
  {
    var init := fw[..|fw| - 1];
    if i == |fw| - 1 {
      m := |ForwardedOf(init, fw[i].fid)|;
    } else {
      m := ForwardedAt(init, i);
    }
  }

  // ----- The sets behind the counters, one queue at a time

  lemma SubsetSize<T>(a: set<T>, b: set<T>)
    requires a <= b
    ensures |a| <= |b| && (a < b ==> |a| < |b|)
  {
    assert b == a + (b - a);
    assert a < b ==> b - a != {};
  }

  lemma QueuedIdsWithout(qs: Queues, f: FunctionId)
    requires f in qs
    ensures QueuedIds(qs) == QueuedIds(qs - {f}) + Ids(qs[f].items)
  {
    forall x | x in QueuedIds(qs) ensures x in QueuedIds(qs - {f}) + Ids(qs[f].items) {
      var g :| g in qs && x in Ids(qs[g].items);
      assert g != f ==> g in qs - {f} && x in Ids((qs - {f})[g].items);
    }
    forall x | x in QueuedIds(qs - {f}) ensures x in QueuedIds(qs) {
      var g :| g in qs - {f} && x in Ids((qs - {f})[g].items);
      assert g in qs;
    }
    assert forall x :: x in Ids(qs[f].items) ==> x in QueuedIds(qs);
  }

  lemma QueuedIdsUpdate(qs: Queues, f: FunctionId, q: FunctionQueue)
    ensures QueuedIds(qs[f := q]) == QueuedIds(qs - {f}) + Ids(q.items)
  {
    QueuedIdsWithout(qs[f := q], f);
    assert qs[f := q] - {f} == qs - {f};
  }

  lemma BlockedSetUpdate(qs: Queues, f: FunctionId, q: FunctionQueue)
    ensures BlockedSet(qs[f := q]) == if q.IsBlocked() then BlockedSet(qs) + {f} else BlockedSet(qs) - {f}
  {
  }

  lemma IdsAppend(items: seq<Envelope>, e: Envelope)
    ensures Ids(items + [e]) == Ids(items) + {e.id}
  {
    var l := items + [e];
    assert l[|items|] == e;
    assert forall i :: 0 <= i < |items| ==> l[i] == items[i];
  }

  lemma IdsHead(items: seq<Envelope>)
    requires items != []
    ensures Ids(items) == {items[0].id} + Ids(items[1..])
  {
    assert forall i :: 0 < i < |items| ==> items[i] == items[1..][i - 1];
  }

  lemma PushBackIds(qs: Queues, f: FunctionId, e: Envelope)
    requires f in qs
    ensures QueuedIds(qs[f := qs[f].(items := qs[f].items + [e])]) == QueuedIds(qs) + {e.id}
  {
    QueuedIdsWithout(qs, f);
    QueuedIdsUpdate(qs, f, qs[f].(items := qs[f].items + [e]));
    IdsAppend(qs[f].items, e);
  }

  lemma PushFrontIds(qs: Queues, f: FunctionId, e: Envelope, st: DispatchState)
    requires f in qs
    ensures QueuedIds(qs[f := FunctionQueue([e] + qs[f].items, st)]) == QueuedIds(qs) + {e.id}
  {
    QueuedIdsWithout(qs, f);
    QueuedIdsUpdate(qs, f, FunctionQueue([e] + qs[f].items, st));
    IdsHead([e] + qs[f].items);
  }

  lemma PopFrontIds(s: State, f: FunctionId)
    requires Lines(s) && f in s.queues && s.queues[f].items != []
    ensures var q := s.queues[f];
            && q.items[0].id in QueuedIds(s.queues)
            && QueuedIds(s.queues[f := q.(items := q.items[1..])]) == QueuedIds(s.queues) - {q.items[0].id}
  {
    var qs, q := s.queues, s.queues[f];
    QueuedIdsWithout(qs, f);
    QueuedIdsUpdate(qs, f, q.(items := q.items[1..]));
    IdsHead(q.items);
    QueueOrdered(s, f);
    assert q.items[0].id !in Ids(q.items[1..]);
    if q.items[0].id in QueuedIds(qs - {f}) {
      var g, i := FindQueued(qs - {f}, q.items[0].id);
      QueuedOnce(s, f, 0, g, i);
    }
  }

  lemma QueuedAt(qs: Queues, f: FunctionId, i: nat)
    requires f in qs && i < |qs[f].items|
    ensures qs[f].items[i].id in QueuedIds(qs)
  {
    assert qs[f].items[i].id in Ids(qs[f].items);
  }

  /** Where a queued id is. */
  lemma FindQueued(qs: Queues, x: nat) returns (f: FunctionId, i: nat)
    requires x in QueuedIds(qs)
    ensures f in qs && i < |qs[f].items| && qs[f].items[i].id == x
  {
    f :| f in qs && x in Ids(qs[f].items);
    i :| 0 <= i < |qs[f].items| && qs[f].items[i].id == x;
  }

  // ----- Lines are kept: a step appends to a line, deletes from it, or leaves it alone

  ghost predicate Later(s: State, s': State) {
    s.clock <= s'.clock && s.log.arrivals <= s'.log.arrivals
  }

  lemma LinesSame(s: State, s': State)
    requires Lines(s) && Later(s, s')
    requires forall f :: Line(s', f) == Line(s, f)
    ensures Lines(s')
  {
    forall f ensures LineOk(s', f) {
      assert LineOk(s, f);
    }
  }

  lemma LinesFrame(s: State, s': State)
    requires Lines(s) && Later(s, s')
    requires s'.log.forwarded == s.log.forwarded && s'.outstanding == s.outstanding
    requires forall f :: QueueOf(s', f) == QueueOf(s, f)
    ensures Lines(s')
  {
    forall f ensures Line(s', f) == Line(s, f) {
      assert QueueOf(s', f) == QueueOf(s, f);
    }
    LinesSame(s, s');
  }

  lemma OrderedAppend(l: seq<Envelope>, e: Envelope)
    requires Ordered(l)
    requires forall i :: 0 <= i < |l| ==> l[i].id < e.id && l[i].enqueuedAt <= e.enqueuedAt
    ensures Ordered(l + [e])
  {
  }

  lemma LineAppend(s: State, s': State, f: FunctionId, e: Envelope)
    requires LineOk(s, f) && Later(s, s')
    requires Line(s', f) == Line(s, f) + [e]
    requires e.id == |s.log.arrivals| && e.enqueuedAt == s'.clock && Arrived(s', f, e)
    ensures LineOk(s', f)
  {
    var l := Line(s, f);
    forall i | 0 <= i < |l| ensures Arrived(s, f, l[i]) {
    }
    OrderedAppend(l, e);
  }

  lemma LinesAppend(s: State, s': State, e: Envelope)
    requires Lines(s) && Later(s, s')
    requires e.id == |s.log.arrivals| && s'.log.arrivals == s.log.arrivals + [e.fid]
    requires e.enqueuedAt == s'.clock
    requires s'.log.forwarded == s.log.forwarded && s'.outstanding == s.outstanding
    requires forall f :: QueueOf(s', f) == QueueOf(s, f) + if f == e.fid then [e] else []
    ensures Lines(s')
  {
    forall f ensures LineOk(s', f) {
      assert LineOk(s, f);
      assert QueueOf(s', f) == QueueOf(s, f) + if f == e.fid then [e] else [];
      if f == e.fid {
        assert Line(s', f) == Line(s, f) + [e];
        LineAppend(s, s', f, e);
      } else {
        assert Line(s', f) == Line(s, f);
      }
    }
  }

  lemma OrderedDelete(a: seq<Envelope>, b: seq<Envelope>, c: seq<Envelope>)
    requires Ordered(a + b + c)
    ensures Ordered(a + c)
  {
    var l, l' := a + b + c, a + c;
    assert forall i :: 0 <= i < |l'| ==> l'[i] == l[if i < |a| then i else i + |b|];
  }

  lemma LineDelete(s: State, s': State, f: FunctionId, a: seq<Envelope>, b: seq<Envelope>, c: seq<Envelope>)
    requires LineOk(s, f) && Later(s, s')
    requires Line(s, f) == a + b + c && Line(s', f) == a + c
    ensures LineOk(s', f)
  {
    OrderedDelete(a, b, c);
    assert forall i :: 0 <= i < |a + c| ==> (a + c)[i] == (a + b + c)[if i < |a| then i else i + |b|];
  }

  /** Every queue loses its first `k(f)` requests. */
  lemma LinesDropHeads(s: State, s': State, k: FunctionId -> nat)
    requires Lines(s) && Later(s, s')
    requires s'.log.forwarded == s.log.forwarded && s'.outstanding == s.outstanding
    requires forall f :: k(f) <= |QueueOf(s, f)|
    requires forall f :: QueueOf(s', f) == QueueOf(s, f)[k(f)..]
    ensures Lines(s')
  {
    forall f ensures LineOk(s', f) {
      var q := QueueOf(s, f);
      assert LineOk(s, f) && k(f) <= |q|;
      assert QueueOf(s', f) == q[k(f)..];
      assert q == q[..k(f)] + q[k(f)..];
      LineDelete(s, s', f, ForwardedOf(s.log.forwarded, f) + OutstandingOf(s, f), q[..k(f)], q[k(f)..]);
    }
  }

  /** The outstanding request leaves without being forwarded. */
  lemma LinesDropOutstanding(s: State, s': State)
    requires Lines(s) && Later(s, s')
    requires s'.log.forwarded == s.log.forwarded && s'.outstanding == None
    requires forall f :: QueueOf(s', f) == QueueOf(s, f)
    ensures Lines(s')
  {
    forall f ensures LineOk(s', f) {
      assert LineOk(s, f);
      assert QueueOf(s', f) == QueueOf(s, f);
      LineDelete(s, s', f, ForwardedOf(s.log.forwarded, f), OutstandingOf(s, f), QueueOf(s, f));
    }
  }

  // ----- The other parts are kept when what they speak of is

  lemma BooksSame(s: State, s': State)
    requires Books(s)
    requires s'.log == s.log.(epoch := s'.log.epoch)
    requires s'.dispatched == s.dispatched && s'.failed == s.failed
    requires s'.totalQueued + OutstandingCount(s') == s.totalQueued + OutstandingCount(s)
    requires PendingIds(s') == PendingIds(s) && (s.halted ==> s'.halted)
    ensures Books(s')
  {
    forall x | 0 <= x < |s'.log.fate| ensures FateOk(s', x) {
      assert FateOk(s, x);
    }
  }

  lemma CountersSame(s: State, s': State)
    requires Counters(s)
    requires s'.queues == s.queues && s'.totalQueued == s.totalQueued && s'.blockedCount == s.blockedCount
    ensures Counters(s')
  {
  }

  /** Every Function blocked in `s'` was blocked in the same way in `s`. */
  ghost predicate NoNewBlock(s: State, s': State) {
    && s.queues.Keys <= s'.queues.Keys
    && forall f :: f in s'.queues && s'.queues[f].IsBlocked() ==>
         f in s.queues && s.queues[f].state == s'.queues[f].state
  }

  lemma PermitsSame(c: Config, s: State, s': State)
    requires Permits(c, s) && NoNewBlock(s, s')
    requires s'.free == s.free && s'.running == s.running && s'.log.forwarded == s.log.forwarded
    requires s'.outstanding == s.outstanding && (s'.waiting ==> s.waiting || s.outstanding.None?)
    ensures Permits(c, s')
  {
  }

  lemma TimersSame(c: Config, s: State, s': State)
    requires Timers(c, s) && NoNewBlock(s, s')
    requires s.timer == s.nextDeadline ==> s'.timer == s'.nextDeadline
    requires s'.tickDue == s.tickDue || BlockedSet(s'.queues) == {}
    requires s'.log.epoch == s.log.epoch && s.clock <= s'.clock
    ensures Timers(c, s')
  {
    forall f | f in BlockedSet(s'.queues) ensures f in BlockedSet(s.queues) {
    }
  }

  /** Only the deadline timer, the clock, the slot wait or the `halted` flag moves. */
  ghost predicate Quiet(s: State, s': State) {
    && s' == s.(nextDeadline := s'.nextDeadline, timer := s'.timer, clock := s'.clock,
                waiting := s'.waiting, halted := s'.halted)
    && (s.timer == s.nextDeadline ==> s'.timer == s'.nextDeadline) && s.clock <= s'.clock
    && (s'.waiting ==> s.waiting || s.outstanding.None?) && (s.halted ==> s'.halted)
  }

  lemma QuietKeeps(c: Config, s: State, s': State)
    requires Core(c, s) && Quiet(s, s')
    ensures Core(c, s')
  {
    hide Lines, Counters, Books, Permits, Timers;
    LinesFrame(s, s');
    CountersSame(s, s');
    BooksSame(s, s');
    PermitsSame(c, s, s');
    TimersSame(c, s, s');
  }
}
