/**
 The admission controller as the object it is: fields updated in place, sweep loops over all
 queues, one method per handler. Every method is proved to compute the operation of the same
 name in the state machine, and one iteration of the event loop to be one of its steps.
 */
module Controller {
  import opened Options
  import opened Admission
  import opened Invariant
  import opened Preservation
  import opened SweepLoop
  import opened Capacity

  /** The semaphore of running slots. `holders` are the requests whose RunningSlot has a permit. */
  class Semaphore {
    var free: nat
    ghost var holders: set<nat>

    constructor (permits: nat)
      ensures free == permits && holders == {}
    {
      free := permits;
      holders := {};
    }
  }

  /** A permit on its way through a Worker; releasing it twice returns it once. */
  class RunningSlot {
    const semaphore: Semaphore
    var hasPermit: bool
    ghost const id: nat

    ghost predicate Valid()
      reads this, semaphore
    {
      hasPermit <==> id in semaphore.holders
    }

    /** Conversion from a permit that has already left the semaphore. */
    constructor (semaphore: Semaphore, ghost id: nat)
      requires id !in semaphore.holders
      modifies semaphore
      ensures Valid() && hasPermit && this.semaphore == semaphore && this.id == id
      ensures semaphore.free == old(semaphore.free) && semaphore.holders == old(semaphore.holders) + {id}
    {
      this.semaphore := semaphore;
      this.id := id;
      hasPermit := true;
      new;
      semaphore.holders := semaphore.holders + {id};
    }

    /** For the controller that owns the semaphore this is its `WorkerReleases` step. */
    method Release(ghost ctl: AdmissionController)
      requires Valid() && ctl.semaphore == semaphore && ctl.Valid()
      modifies this`hasPermit, semaphore, ctl`states, ctl`events
      ensures Valid() && !hasPermit
      ensures ctl.Snapshot() == ReleaseSlot(old(ctl.Snapshot()), id)
      ensures Step(ctl.config, old(ctl.Snapshot()), WorkerReleases(id, ctl.clock), ctl.Snapshot())
      ensures ctl.Valid() && ctl.events == old(ctl.events) + [WorkerReleases(id, ctl.clock)]
    {
      hide Inv, IsRun;
      ghost var s := ctl.Snapshot();
      if hasPermit {
        hasPermit := false;
        semaphore.free := semaphore.free + 1;
        semaphore.holders := semaphore.holders - {id};
      }
      ctl.Record(WorkerReleases(id, ctl.clock), s);
    }
  }

  class AdmissionController {
    const config: Config
    const semaphore: Semaphore

    var queues: Queues
    var totalQueued: nat
    var blockedCount: nat
    var nextDeadline: Option<Instant>
    var timer: Option<Instant>
    var tickDue: Instant
    var outstanding: Option<Envelope>
    var waiting: bool
    var received: nat
    var dispatched: nat
    var failed: nat
    var halted: bool
    ghost var clock: Instant
    ghost var log: History
    ghost var states: seq<State>   // the run so far
    ghost var events: seq<Event>

    ghost function Snapshot(): State
      reads this, semaphore
    {
      State(queues, totalQueued, blockedCount, nextDeadline, timer, tickDue, outstanding, waiting,
            semaphore.free, semaphore.holders, received, dispatched, failed, halted, clock, log)
    }

    /** The invariant, which also holds between the parts of a step. */
    ghost predicate Sound()
      reads this, semaphore
    {
      Inv(config, Snapshot())
    }

    /** The controller is where a run of the state machine has led. */
    ghost predicate Valid()
      reads this, semaphore
    {
      Sound() && IsRun(config, states, events) && states[|events|] == Snapshot()
    }

    /** Adds a step to the run. */
    ghost method Record(e: Event, s: State)
      requires IsRun(config, states, events) && states[|events|] == s && Inv(config, s)
      requires Step(config, s, e, Snapshot())
      modifies this`states, this`events
      ensures Valid() && states == old(states) + [Snapshot()] && events == old(events) + [e]
    {
      hide Step, IsRun, Inv;
      StepKeeps(config, s, e, Snapshot());
      ExtendRun(config, states, events, e, Snapshot());
      RunLength(config, states, events);
      states, events := states + [Snapshot()], events + [e];
    }

    constructor (config: Config, now: Instant)
      ensures Valid() && fresh(semaphore)
      ensures this.config == config && Snapshot() == Init(config, now)
    {
      this.config := config;
      semaphore := new Semaphore(config.maxConcurrency);
      queues := map[];
      totalQueued, blockedCount := 0, 0;
      nextDeadline, timer := None, None;
      tickDue := now + config.period;
      outstanding, waiting := None, false;
      received, dispatched, failed := 0, 0, 0;
      halted := false;
      clock := now;
      log := History([], [], [], {}, now);
      states, events := [Init(config, now)], [];
      new;
      InitInv(config, now);
    }

    // ----- Deadline timer

    method SetDeadlineTimerTo(d: Option<Instant>)
      modifies this`nextDeadline, this`timer
      ensures Snapshot() == SetTimer(old(Snapshot()), d)
    {
      nextDeadline := d;
      match (timer, d)
      case (_, Some(next)) => timer := Some(next);
      case (Some(_), None) => timer := None;
      case (None, None) =>
    }

    method UpdateDeadlineTimer(d: Instant)
      modifies this`nextDeadline, this`timer
      ensures Snapshot() == UpdateTimer(old(Snapshot()), d)
    {
      if nextDeadline.None? || d < nextDeadline.value {
        SetDeadlineTimerTo(Some(d));
      }
    }

    // ----- Failing requests

    /** Counts the failure; the log records it as the fate of request `id`, which may be new. */
    method FailAdmission(ghost id: nat, ghost fid: FunctionId, ghost why: AdmissionFailure)
      requires id <= |log.fate|
      modifies this`failed, this`log
      ensures Snapshot() == if id < |old(log).fate| then Fail(old(Snapshot()), id, why)
                            else Refuse(old(Snapshot()), fid, why).(received := old(received))
    {
      failed := failed + 1;
      if id < |log.fate| {
        log := log.(fate := log.fate[id := Failed(why)]);
      } else {
        log := log.(arrivals := log.arrivals + [fid], fate := log.fate + [Failed(why)]);
      }
    }

    /** Fails the requests that a sweep collected. */
    method FailExpired(expired: seq<Envelope>)
      requires forall i :: 0 <= i < |expired| ==> expired[i].id < |log.fate|
      modifies this`failed, this`log
      ensures Snapshot() == old(Snapshot()).(failed := old(failed) + |expired|,
                                             log := old(log).(fate := FailAll(old(log).fate, Ids(expired))))
    {
      ghost var s0 := Snapshot();
      FailAllNone(log.fate);
      for i := 0 to |expired|
        invariant Snapshot() == s0.(failed := s0.failed + i,
                                    log := s0.log.(fate := FailAll(s0.log.fate, Ids(expired[..i]))))
      {
        FailAllGrow(s0.log.fate, expired, i);
        FailAdmission(expired[i].id, expired[i].fid, DeadlinePassed);
      }
      assert expired[..|expired|] == expired;
    }

    // ----- Expiry

    /** Pops the expired requests off the front of one queue. */
    static method Drain(items: seq<Envelope>, now: Instant) returns (gone: seq<Envelope>, rest: seq<Envelope>)
      ensures gone == items[..ExpiredLen(items, now)] && rest == items[ExpiredLen(items, now)..]
    {
      gone, rest := [], items;
      while rest != [] && rest[0].deadline <= now
        invariant |gone| <= |items| && gone == items[..|gone|] && rest == items[|gone|..]
        invariant ExpiredLen(items, now) == |gone| + ExpiredLen(rest, now)
        decreases |rest|
      {
        gone := gone + [rest[0]];
        rest := rest[1..];
      }
    }

    /** The part of a sweep that concerns one queue. */
    static method SweepOne(fq: FunctionQueue, now: Instant, next: Option<Instant>)
      returns (gone: seq<Envelope>, fq': FunctionQueue, unblocked: bool, next': Option<Instant>)
      ensures gone == fq.items[..ExpiredLen(fq.items, now)] && fq' == SweepQueue(fq, now)
      ensures unblocked <==> fq.IsBlocked() && !fq'.IsBlocked()
      ensures next' == Earlier(next, fq'.items)
    {
      var rest;
      gone, rest := Drain(fq.items, now);
      fq', unblocked, next' := fq.(items := rest), false, next;
      if fq.IsBlocked() && (gone != [] || rest == []) {
        fq', unblocked := fq'.(state := Runnable), true;
      }
      if rest != [] {
        var d := rest[0].deadline;
        next' := Some(if next.None? || d < next.value then d else next.value);
      }
    }

    /** One pass over all queues: expired requests, unblocked Functions and the new earliest deadline. */
    method SweepQueues(now: Instant) returns (expired: seq<Envelope>, unblocked: nat, next: Option<Instant>)
      requires Lines(Snapshot())
      modifies this`queues
      ensures Snapshot() == old(Snapshot()).(queues := Sweep(old(queues), now))
      ensures Ids(expired) == SweptIds(old(queues), now) && |expired| == |Ids(expired)|
      ensures unblocked == |Freed(old(queues), now)|
      ensures next == EarliestHead(Sweep(old(queues), now))
    {
      hide Lines, SweptIds, Ids, Freed, EarliestHead, Collected, Earlier, SweepQueue, ExpiredLen;
      ghost var s0, qs := Snapshot(), queues;
      expired, unblocked, next := [], 0, None;
      var todo := queues.Keys;
      CollectNone(qs, now);
      assert qs.Keys - todo == {};
      while todo != {}
        invariant todo <= qs.Keys == queues.Keys
        invariant forall f :: f in qs ==> queues[f] == if f in todo then qs[f] else SweepQueue(qs[f], now)
        invariant Collected(qs, qs.Keys - todo, now, expired, unblocked, next)
      {
        var f :| f in todo;
        CollectOne(s0, qs.Keys - todo, f, now, expired, unblocked, next);
        var gone, fq, freed, next' := SweepOne(queues[f], now, next);
        expired, next := expired + gone, next';
        unblocked := unblocked + if freed then 1 else 0;
        queues := queues[f := fq];
        assert qs.Keys - (todo - {f}) == (qs.Keys - todo) + {f};
        todo := todo - {f};
      }
      assert qs.Keys - todo == qs.Keys;
      CollectAll(qs, now, expired, unblocked, next);
      assert queues == Sweep(qs, now);
    }

    method ExpireQueuedRequests(now: Instant)
      requires Lines(Snapshot()) && Counters(Snapshot()) && Books(Snapshot())
      modifies this`queues, this`totalQueued, this`blockedCount, this`nextDeadline, this`timer, this`failed, this`log
      ensures Snapshot() == Expire(old(Snapshot()), now)
    {
      hide Lines, Counters, Books, SweptIds, EarliestHead, Sweep, BlockedSet, Ids, FailAll;
      ghost var s0 := Snapshot();
      var expired, unblocked, next := SweepQueues(now);
      SweepFits(s0, now);
      totalQueued := totalQueued - |expired|;
      blockedCount := blockedCount - unblocked;
      ExpiredInRange(s0, now, expired);
      FailExpired(expired);
      SetDeadlineTimerTo(next);
    }

    method ExpireIfPast(now: Instant)
      requires Lines(Snapshot()) && Counters(Snapshot()) && Books(Snapshot())
      modifies this`queues, this`totalQueued, this`blockedCount, this`nextDeadline, this`timer, this`failed, this`log
      ensures Snapshot() == ExpireIfDue(old(Snapshot()), now)
    {
      hide Lines, Counters, Books, Expire;
      if nextDeadline.Some? && nextDeadline.value <= now {
        ExpireQueuedRequests(now);
      }
    }

    // ----- Scheduling

    /** The Function whose runnable queue has the oldest head. */
    method PickNextFunction() returns (pick: Option<FunctionId>)
      ensures IsPick(queues, pick)
    {
      pick := None;
      var todo := queues.Keys;
      while todo != {}
        invariant todo <= queues.Keys
        invariant pick.None? ==> forall g :: g in queues && g !in todo ==> !queues[g].IsRunnable()
        invariant pick.Some? ==>
          && pick.value in queues && queues[pick.value].IsRunnable()
          && forall g :: g in queues && g !in todo && queues[g].IsRunnable() ==>
               queues[pick.value].items[0].enqueuedAt <= queues[g].items[0].enqueuedAt
      {
        var f :| f in todo;
        if queues[f].IsRunnable() {
          if pick.None? || queues[f].items[0].enqueuedAt < queues[pick.value].items[0].enqueuedAt {
            pick := Some(f);
          }
        }
        todo := todo - {f};
      }
    }

    predicate ShouldWaitForSlot()
      reads this
    {
      outstanding.None? && !waiting && HasRunnable(queues)
    }

    // ----- Arrival

    /** Appends an arrival that `num_received` already counts. */
    method Enqueue(e: Envelope)
      requires received > 0 && e.fid in queues
      modifies this`queues, this`totalQueued, this`nextDeadline, this`timer, this`log
      ensures Snapshot() == Admit(old(Snapshot()).(received := old(received) - 1), e)
    {
      var q := queues[e.fid];
      queues := queues[e.fid := q.(items := q.items + [e])];
      log := log.(arrivals := log.arrivals + [e.fid], fate := log.fate + [Pending]);
      totalQueued := totalQueued + 1;
      UpdateDeadlineTimer(e.deadline);
    }

    /** Puts a request back at the front of its queue. */
    method Requeue(f: FunctionId, e: Envelope)
      requires f in queues
      modifies this`queues, this`totalQueued, this`nextDeadline, this`timer
      ensures Snapshot() == PushHead(old(Snapshot()), f, e) && queues.Keys == old(queues).Keys
    {
      var q := queues[f];
      queues := queues[f := q.(items := [e] + q.items)];
      totalQueued := totalQueued + 1;
      UpdateDeadlineTimer(e.deadline);
    }

    /** The per-Function half of an arrival; `num_received` already counts it. */
    method AdmitToFunction(id: nat, fid: FunctionId, cap: nat, delay: nat, checked: bool, now: Instant)
      requires received > 0 && fid in queues && id == |log.arrivals| == |log.fate|
      requires Lines(Snapshot()) && Counters(Snapshot()) && Books(Snapshot())
      modifies this`queues, this`totalQueued, this`blockedCount, this`nextDeadline, this`timer, this`failed, this`log
      ensures Snapshot() == ArriveAt(old(Snapshot()).(received := old(received) - 1), fid, cap, delay, checked, now)
    {
      hide Lines, Counters, Books, ExpireIfDue, Admit;
      ghost var s0 := Snapshot();
      ExpireReceived(s0, s0.received - 1, now);
      ExpireIfDueOuter(s0, now);
      ExpireIfDueFateLength(s0, now);
      if |queues[fid].items| >= cap {
        if !checked {
          ExpireIfPast(now);
        }
        if |queues[fid].items| >= cap {
          FailAdmission(id, fid, QueueFullFunction);
          return;
        }
      }
      Enqueue(Envelope(id, fid, now, now + delay));
    }

    /** Sweeps under global pressure; says whether it looked. */
    method CheckGlobalCap(now: Instant) returns (checked: bool)
      requires Lines(Snapshot()) && Counters(Snapshot()) && Books(Snapshot())
      modifies this`queues, this`totalQueued, this`blockedCount, this`nextDeadline, this`timer, this`failed, this`log
      ensures checked <==> old(totalQueued) >= config.globalCap
      ensures Snapshot() == if checked then ExpireIfDue(old(Snapshot()), now) else old(Snapshot())
    {
      hide Lines, Counters, Books, ExpireIfDue;
      checked := totalQueued >= config.globalCap;
      if checked {
        ExpireIfPast(now);
      }
    }

    /** The half of an arrival after the global check; it creates the Function's queue if needed. */
    method EnterFunction(id: nat, fid: FunctionId, cap: nat, delay: nat, checked: bool, now: Instant)
      requires received > 0 && id == |log.arrivals|
      requires Core(config, Snapshot().(received := received - 1))
      modifies this`queues, this`totalQueued, this`blockedCount, this`nextDeadline, this`timer, this`failed, this`log
      ensures Snapshot() == ArriveAt(Entry(old(Snapshot()).(received := old(received) - 1), fid), fid, cap, delay, checked, now)
    {
      hide Core, ArriveAt;
      EntryReady(config, Snapshot().(received := received - 1), fid, received);
      if fid !in queues {
        queues := queues[fid := FunctionQueue([], Runnable)];
      }
      AdmitToFunction(id, fid, cap, delay, checked, now);
    }

    /** An arrival for a registered Function; `num_received` already counts it. */
    method HandleRegistered(id: nat, fid: FunctionId, cap: nat, delay: nat, now: Instant)
      requires received > 0 && id == |log.arrivals|
      requires Core(config, Snapshot().(received := received - 1))
      modifies this`queues, this`totalQueued, this`blockedCount, this`nextDeadline, this`timer, this`failed, this`log
      ensures Snapshot() == Arrive(config, old(Snapshot()).(received := old(received) - 1), fid, Registered(cap, delay), now)
    {
      hide Core, ArriveAt, ExpireIfDue, Entry;
      ghost var s0 := Snapshot().(received := received - 1);
      CoreParts(config, s0, received);
      assert s0.(received := received) == Snapshot();
      ExpireIfDueKeeps(config, s0, now);
      ExpireReceived(s0, received, now);
      ExpireIfDueFateLength(s0, now);
      ExpireIfDueOuter(s0, now);
      var checked := CheckGlobalCap(now);
      ghost var s1 := if checked then ExpireIfDue(s0, now) else s0;
      assert Snapshot() == s1.(received := received);
      assert Snapshot().(received := received - 1) == s1;
      if totalQueued >= config.globalCap {
        FailAdmission(id, fid, QueueFullGlobal);
      } else {
        EnterFunction(id, fid, cap, delay, checked, now);
      }
    }

    method HandleNewRequest(fid: FunctionId, found: Lookup, now: Instant)
      requires Sound()
      modifies this`queues, this`totalQueued, this`blockedCount, this`nextDeadline, this`timer, this`failed, this`log,
               this`received
      ensures Snapshot() == Arrive(config, old(Snapshot()), fid, found, now)
    {
      hide Core, ArriveAt, ExpireIfDue;
      CoreParts(config, Snapshot(), received);
      var id := received;
      received := received + 1;
      match found
      case Unregistered => FailAdmission(id, fid, Rejected(UnknownFunction));
      case Registered(cap, delay) => HandleRegistered(id, fid, cap, delay, now);
    }

    // ----- Dispatch

    method PopFront(f: FunctionId) returns (e: Envelope)
      requires f in queues && queues[f].items != [] && totalQueued > 0
      modifies this`queues, this`totalQueued
      ensures Snapshot() == PopHead(old(Snapshot()), f) && queues.Keys == old(queues).Keys
      ensures e == old(queues)[f].items[0]
    {
      var fq := queues[f];
      e := fq.items[0];
      queues := queues[f := fq.(items := fq.items[1..])];
      totalQueued := totalQueued - 1;
    }

    /** Pops the picked head and sends it to Pool, or rolls back when the send fails. */
    method Dispatch(pick: Option<FunctionId>, sent: bool) returns (ok: bool)
      requires IsPick(queues, pick) && (pick.Some? ==> totalQueued > 0)
      modifies this`queues, this`totalQueued, this`nextDeadline, this`timer, this`outstanding, this`halted,
               semaphore`free
      ensures Snapshot() == Attempt(old(Snapshot()), pick, sent)
      ensures ok <==> pick.None? || sent
    {
      hide PushHead, PopHead;
      if pick.None? {
        semaphore.free := semaphore.free + 1;
        return true;
      }
      var envelope := PopFront(pick.value);
      if sent {
        outstanding := Some(envelope);
      } else {
        Requeue(pick.value, envelope);
        semaphore.free := semaphore.free + 1;
        halted := true;
      }
      ok := sent;
    }

    /** Turns a permit that has left the semaphore into a dispatch attempt. */
    method HandleAcquiredSlot(sent: bool, now: Instant) returns (ok: bool, pick: Option<FunctionId>)
      requires Holding(config, Snapshot())
      modifies this`queues, this`totalQueued, this`blockedCount, this`nextDeadline, this`timer, this`failed, this`log,
               this`outstanding, this`halted, semaphore`free
      ensures IsPick(ExpireIfDue(old(Snapshot()), now).queues, pick)
      ensures Snapshot() == Attempt(ExpireIfDue(old(Snapshot()), now), pick, sent)
      ensures ok <==> pick.None? || sent
    {
      hide Lines, Counters, Books, ExpireIfDue, Attempt, Holding;
      ghost var s0 := Snapshot();
      HoldingParts(config, s0);
      ExpireIfPast(now);
      pick := PickNextFunction();
      if pick.Some? {
        QueuedPositive(config, s0, now, pick.value);
      }
      ok := Dispatch(pick, sent);
    }

    // ----- Pool replies

    method MarkFunctionBlocked(f: FunctionId, why: BlockReason, reset: Instant, now: Instant)
      requires f in queues
      modifies this`queues, this`blockedCount, this`tickDue, this`log
      ensures Snapshot() == MarkBlocked(config, old(Snapshot()), f, why, reset, now)
    {
      if !queues[f].IsBlocked() {
        blockedCount := blockedCount + 1;
        if blockedCount == 1 {
          tickDue := reset + config.period;
          log := log.(epoch := reset);
        }
      }
      queues := queues[f := queues[f].(state := Blocked(why, now))];
    }

    /** Hands a request and its permit to a Worker; a failed send drops both and is fatal. */
    method Forward(curr: Envelope, ok: bool) returns (slot: RunningSlot?)
      requires curr.id < |log.fate| && curr.id !in semaphore.holders
      modifies this`dispatched, this`halted, this`log, semaphore
      ensures var s := old(Snapshot());
              Snapshot() ==
                if ok then
                  s.(dispatched := s.dispatched + 1, running := s.running + {curr.id},
                     log := s.log.(fate := s.log.fate[curr.id := Dispatched], forwarded := s.log.forwarded + [curr]))
                else
                  s.(halted := true, free := s.free + 1,
                     log := s.log.(fate := s.log.fate[curr.id := Lost], lost := s.log.lost + {curr.id}))
      ensures ok ==> slot != null && fresh(slot) && slot.Valid() && slot.hasPermit && slot.semaphore == semaphore
    {
      slot := null;
      if ok {
        slot := new RunningSlot(semaphore, curr.id);
        dispatched := dispatched + 1;
        log := log.(fate := log.fate[curr.id := Dispatched], forwarded := log.forwarded + [curr]);
      } else {
        semaphore.free := semaphore.free + 1;
        log := log.(fate := log.fate[curr.id := Lost], lost := log.lost + {curr.id});
        halted := true;
      }
    }

    /** Resolves the outstanding attempt. `ok` is false on a failed forward to the Worker. */
    method HandleDispatchReply(resp: DispatchResponse, forwardOk: bool, reset: Instant, now: Instant)
      returns (ok: bool, slot: RunningSlot?)
      requires Replyable(Snapshot()) && outstanding.value.id !in semaphore.holders
      modifies this`queues, this`totalQueued, this`blockedCount, this`nextDeadline, this`timer, this`tickDue,
               this`outstanding, this`halted, this`dispatched, this`failed, this`log, semaphore
      ensures Snapshot() == Reply(config, old(Snapshot()), resp, forwardOk, reset, now)
      ensures ok <==> !(resp.Dispatch? && !forwardOk)
      ensures resp.Dispatch? && forwardOk ==>
                slot != null && fresh(slot) && slot.Valid() && slot.hasPermit && slot.semaphore == semaphore
    {
      hide PushHead, MarkBlocked;
      var curr := outstanding.value;
      outstanding := None;
      ok, slot := true, null;
      match resp
      case Dispatch =>
        slot := Forward(curr, forwardOk);
        ok := forwardOk;
      case WouldBlock(why) =>
        Requeue(curr.fid, curr);
        MarkFunctionBlocked(curr.fid, why, reset, now);
        semaphore.free := semaphore.free + 1;
      case Reject(why) =>
        FailAdmission(curr.id, curr.fid, Rejected(why));
        semaphore.free := semaphore.free + 1;
    }

    // ----- Wakeups

    method MarkFunctionRunnable(f: FunctionId)
      requires Counters(Snapshot())
      modifies this`queues, this`blockedCount
      ensures var fs := if f in old(queues) && old(queues)[f].IsBlocked() then {f} else {};
              Snapshot() == old(Snapshot()).(queues := MakeRunnable(old(queues), fs),
                                             blockedCount := old(blockedCount) - |fs|)
    {
      hide QueuedIds;
      MakeNoneRunnable(queues);
      if f !in queues {
        return;
      }
      if queues[f].IsBlocked() {
        MakeOneRunnable(queues, f);
        queues := queues[f := queues[f].(state := Runnable)];
        blockedCount := blockedCount - 1;
      }
    }

    /** Makes the blocked Functions runnable, all of them or those short of memory; counts them. */
    method UnblockWhere(memoryOnly: bool) returns (unblocked: nat)
      modifies this`queues
      ensures Snapshot() == old(Snapshot()).(queues := MakeRunnable(old(queues), Selected(old(queues), memoryOnly)))
      ensures unblocked == |Selected(old(queues), memoryOnly)|
    {
      hide MakeRunnable, Selected;
      ghost var qs, fs := queues, Selected(queues, memoryOnly);
      unblocked := 0;
      var todo := queues.Keys;
      SelectNone(qs, memoryOnly);
      MakeNoneRunnable(qs);
      while todo != {}
        invariant todo <= qs.Keys && queues == MakeRunnable(qs, fs - todo)
        invariant unblocked == |fs - todo|
      {
        var f :| f in todo;
        SelectOne(qs, memoryOnly, todo, f);
        if queues[f].IsBlocked() && (memoryOnly ==> queues[f].state.reason == MemoryPressure) {
          queues := queues[f := queues[f].(state := Runnable)];
          unblocked := unblocked + 1;
        }
        todo := todo - {f};
      }
      assert fs - todo == fs;
    }

    method UnblockResourceBlockedFunctions()
      requires Counters(Snapshot())
      modifies this`queues, this`blockedCount
      ensures Snapshot() == Wake(old(Snapshot()), MemoryCapAvailable)
    {
      hide QueuedIds;
      ghost var fs := Woken(queues, MemoryCapAvailable);
      assert fs == Selected(queues, true);
      SubsetSize(fs, BlockedSet(queues));
      var unblocked := UnblockWhere(true);
      blockedCount := blockedCount - unblocked;
    }

    method UnblockAllFunctions()
      modifies this`queues, this`blockedCount
      ensures Snapshot() == UnblockAll(old(Snapshot()))
    {
      if blockedCount == 0 {
        return;
      }
      assert Selected(queues, false) == BlockedSet(queues);
      var _ := UnblockWhere(false);
      blockedCount := 0;
    }

    method HandlePoolEvent(ev: PoolEvent)
      requires Counters(Snapshot())
      modifies this`queues, this`blockedCount
      ensures Snapshot() == Wake(old(Snapshot()), ev)
    {
      hide Counters, MakeRunnable;
      WokenShape(queues, ev);
      match ev
      case WorkerIdle(f) => MarkFunctionRunnable(f);
      case MemoryCapAvailable => UnblockResourceBlockedFunctions();
      case WorkerCapAvailable(f) =>
        if f in queues && queues[f].IsBlocked() && queues[f].state.reason == FunctionWorkerCap {
          MarkFunctionRunnable(f);
        } else {
          MakeNoneRunnable(queues);
        }
    }

    // ----- The event loop

    /** The slot branch: the wait is over, and one permit leaves the semaphore. */
    method TakeSlot(sent: bool, now: Instant) returns (pick: Option<FunctionId>)
      requires Sound() && waiting && semaphore.free > 0
      modifies this, semaphore`free
      ensures states == old(states) && events == old(events)
      ensures IsPick(BeforeAttempt(old(Snapshot()), now).queues, pick)
      ensures Snapshot() == Attempt(BeforeAttempt(old(Snapshot()), now), pick, sent)
    {
      hide Lines, Counters, Books, Timers, ExpireIfDue, Attempt;
      TakenHolds(config, Snapshot());
      waiting := false;
      semaphore.free := semaphore.free - 1;
      var _, p := HandleAcquiredSlot(sent, now);
      pick := p;
    }

    /** The branch taken when Pool dropped the reply channel. */
    method LosePool()
      requires Replyable(Snapshot())
      modifies this`outstanding, this`failed, this`log, this`halted, semaphore`free
      ensures Snapshot() == Fail(old(Snapshot()).(outstanding := None, free := old(semaphore.free) + 1, halted := true),
                                 old(outstanding).value.id, Rejected(Internal))
    {
      var curr := outstanding.value;
      outstanding := None;
      FailAdmission(curr.id, curr.fid, Rejected(Internal));
      semaphore.free := semaphore.free + 1;
      halted := true;
    }

    /** The body of one `select!` branch. */
    method TakeBranch(branch: Event) returns (ghost taken: Event)
      requires Sound() && BranchReady(Snapshot(), branch)
      modifies this, semaphore
      ensures states == old(states) && events == old(events)
      ensures if branch.SlotAcquired? then taken.SlotAcquired? && taken == branch.(pick := taken.pick) else taken == branch
      ensures taken.SlotAcquired? ==> IsPick(BeforeAttempt(old(Snapshot()), taken.now).queues, taken.pick)
      ensures Snapshot() == Handle(config, old(Snapshot()), taken)
    {
      hide Lines, Counters, Books, Timers, Arrive, BeforeAttempt, Attempt, Reply, Expire, Wake, UnblockAll;
      taken := branch;
      match branch
      case Arrival(fid, found, now) => HandleNewRequest(fid, found, now);
      case PoolWakeup(ev, _) => HandlePoolEvent(ev);
      case SlotAcquired(_, sent, now) =>
        var pick := TakeSlot(sent, now);
        taken := branch.(pick := pick);
      case PoolReply(resp, ok, reset, now) =>
        OutstandingHasNoSlot(config, Snapshot());
        var _, _ := HandleDispatchReply(resp, ok, reset, now);
      case PoolGone(_) => LosePool();
      case DeadlineFired(now) => ExpireQueuedRequests(now);
      case FallbackTick(nextDue, _) =>
        UnblockAllFunctions();
        tickDue := nextDue;
      case Stop(_) => halted := true;
    }

    /** One iteration of the loop in `run` is one step of the state machine, and keeps the invariant. */
    method Iterate(branch: Event) returns (ghost taken: Event)
      requires Valid() && Guard(config, Snapshot(), branch)
      modifies this, semaphore
      ensures if branch.SlotAcquired? then taken.SlotAcquired? && taken == branch.(pick := taken.pick) else taken == branch
      ensures Step(config, old(Snapshot()), taken, Snapshot())
      ensures Valid() && states == old(states) + [Snapshot()] && events == old(events) + [taken]
    {
      hide Lines, Counters, Books, Permits, Timers, Handle, BeforeAttempt, IsRun;
      ghost var s := Snapshot();
      ReadyKeeps(config, s, branch);
      if ShouldWaitForSlot() {
        waiting := true;
      }
      clock := branch.now;
      taken := TakeBranch(branch);
      Record(taken, s);
    }
  }

  /** What the branch bodies rely on. */
  ghost predicate BranchReady(s: State, e: Event) {
    && !e.WorkerReleases?
    && (e.SlotAcquired? ==> s.waiting && s.free > 0)
    && (e.PoolReply? || e.PoolGone? ==> Replyable(s))
  }

  /** `Enabled`, but for the pick, which the controller makes itself. */
  ghost predicate Guard(c: Config, s: State, e: Event) {
    && s.clock <= e.now && !s.halted && BranchReady(LoopTop(s), e)
    && match e
       case PoolReply(_, _, reset, now) => s.clock <= reset <= now
       case DeadlineFired(now) => s.timer.Some? && s.timer.value <= now
       case FallbackTick(nextDue, now) =>
         s.blockedCount > 0 && s.tickDue <= now && s.tickDue + c.period <= nextDue <= now + c.period
       case _ => true
  }

  lemma RunLength(c: Config, ss: seq<State>, es: seq<Event>)
    requires IsRun(c, ss, es)
    ensures |ss| == |es| + 1
  {
  }

  lemma TakenHolds(c: Config, s: State)
    requires Inv(c, s) && s.waiting && s.free > 0
    ensures Holding(c, s.(waiting := false, free := s.free - 1))
  {
    hide Lines, Counters, Books;
    QuietKeeps(c, s, s.(waiting := false));
  }

  lemma OutstandingHasNoSlot(c: Config, s: State)
    requires Inv(c, s) && s.outstanding.Some?
    ensures s.outstanding.value.id !in s.running
  {
    hide Lines, QueuedIds;
    OutstandingItem(s);
  }
}
