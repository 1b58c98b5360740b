/**
 The admission controller as a state machine.

 One `select!` iteration of the controller is one `Event`; `Next` gives the state after it.
 Time, the Pool's replies and events, the store's answers, the outcome of channel sends and
 the hash-map order that breaks scheduling ties are inputs carried by the events.
 */
module Admission {
  import opened Options

  type Instant = nat

  datatype FunctionId = FunctionId(name: string)

  datatype BlockReason = NoIdleWorker | FunctionWorkerCap | MemoryPressure

  datatype RejectReason = UnknownFunction | Internal | ShuttingDown

  datatype AdmissionFailure =
    | QueueFullGlobal
    | QueueFullFunction
    | DeadlinePassed
    | Rejected(reason: RejectReason)

  datatype DispatchResponse =
    | Dispatch
    | WouldBlock(block: BlockReason)
    | Reject(reject: RejectReason)

  datatype PoolEvent =
    | WorkerIdle(idle: FunctionId)
    | MemoryCapAvailable
    | WorkerCapAvailable(freed: FunctionId)

  /** `id` is the position of the request in the arrival order; it identifies the request. */
  datatype Envelope = Envelope(id: nat, fid: FunctionId, enqueuedAt: Instant, deadline: Instant)

  datatype DispatchState = Runnable | Blocked(reason: BlockReason, blockedAt: Instant)

  datatype FunctionQueue = FunctionQueue(items: seq<Envelope>, state: DispatchState)
  {
    predicate IsBlocked() { state.Blocked? }

    predicate IsRunnable() { items != [] && state.Runnable? }
  }

  type Queues = map<FunctionId, FunctionQueue>

  datatype Config = Config(maxConcurrency: nat, globalCap: nat, period: nat)

  datatype Fate = Pending | Dispatched | Failed(why: AdmissionFailure) | Lost

  /**
   What has happened so far. No decision of the controller reads it: only the number of a new
   request, and the bound in `Replyable` that every reachable outstanding attempt meets.
   */
  datatype History = History(
    arrivals: seq<FunctionId>,   // the Function of each request, in arrival order
    fate: seq<Fate>,             // the fate of each request, by id
    forwarded: seq<Envelope>,    // requests handed to Workers, in order
    lost: set<nat>,              // requests consumed by a failed forward to a Worker
    epoch: Instant)              // when the blocked count last became one

  datatype State = State(
    queues: Queues,
    totalQueued: int,
    blockedCount: int,
    nextDeadline: Option<Instant>,
    timer: Option<Instant>,        // what the deadline `Sleep` is armed for
    tickDue: Instant,              // when the fallback interval ticks next
    outstanding: Option<Envelope>,
    waiting: bool,                 // `waiting_for_slot`
    free: int,                     // permits left in the semaphore
    running: set<nat>,             // requests whose RunningSlot still holds its permit
    received: nat,
    dispatched: nat,
    failed: nat,
    halted: bool,                  // `run` has returned
    clock: Instant,
    log: History)

  function Init(c: Config, t: Instant): State {
    State(map[], 0, 0, None, None, t + c.period, None, false, c.maxConcurrency, {}, 0, 0, 0, false, t,
          History([], [], [], {}, t))
  }

  // ----- Sets of requests and Functions that the counters summarise

  function Ids(items: seq<Envelope>): set<nat> {
    set i | 0 <= i < |items| :: items[i].id
  }

  ghost function QueuedIds(qs: Queues): set<nat> {
    set f, x | f in qs && x in Ids(qs[f].items) :: x
  }

  function BlockedSet(qs: Queues): set<FunctionId> {
    set f | f in qs && qs[f].IsBlocked()
  }

  function OutstandingCount(s: State): nat {
    if s.outstanding.Some? then 1 else 0
  }

  // ----- Deadlines and expiry

  function SetTimer(s: State, d: Option<Instant>): State {
    s.(nextDeadline := d, timer := d)
  }

  function UpdateTimer(s: State, d: Instant): State {
    if s.nextDeadline.None? || d < s.nextDeadline.value then SetTimer(s, Some(d)) else s
  }

  /** The number of leading requests that have expired: what a head-draining loop removes. */
  function ExpiredLen(items: seq<Envelope>, now: Instant): (k: nat)
    ensures k <= |items|
    ensures forall i :: 0 <= i < k ==> items[i].deadline <= now
    ensures k < |items| ==> now < items[k].deadline
  {
    if items == [] || now < items[0].deadline then 0 else 1 + ExpiredLen(items[1..], now)
  }

  function SweepQueue(q: FunctionQueue, now: Instant): FunctionQueue {
    var k := ExpiredLen(q.items, now);
    FunctionQueue(q.items[k..], if k > 0 || k == |q.items| then Runnable else q.state)
  }

  function Sweep(qs: Queues, now: Instant): Queues {
    map f | f in qs :: SweepQueue(qs[f], now)
  }

  function ExpiredPrefix(q: FunctionQueue, now: Instant): set<nat> {
    Ids(q.items[..ExpiredLen(q.items, now)])
  }

  ghost function SweptIds(qs: Queues, now: Instant): set<nat> {
    set f, x | f in qs && x in ExpiredPrefix(qs[f], now) :: x
  }

  /** The earliest deadline among the queue heads; `None` when every queue is empty. */
  ghost function EarliestHead(qs: Queues): (r: Option<Instant>)
    ensures r.None? <==> forall f :: f in qs ==> qs[f].items == []
    ensures r.Some? ==> exists f :: f in qs && qs[f].items != [] && qs[f].items[0].deadline == r.value
    ensures forall f :: f in qs && qs[f].items != [] ==> r.Some? && r.value <= qs[f].items[0].deadline
    decreases |qs|
  {
    if qs == map[] then None
    else
      var f :| f in qs;
      var rest := EarliestHead(qs - {f});
      assert forall g :: g in qs ==> g == f || g in qs - {f};
      if qs[f].items == [] then rest
      else
        var d := qs[f].items[0].deadline;
        if rest.None? || d < rest.value then Some(d) else rest
  }

  function FailAll(fate: seq<Fate>, ids: set<nat>): seq<Fate> {
    seq(|fate|, i requires 0 <= i < |fate| => if i in ids then Failed(DeadlinePassed) else fate[i])
  }

  ghost function Expire(s: State, now: Instant): State {
    var qs := Sweep(s.queues, now);
    var gone := SweptIds(s.queues, now);
    SetTimer(s.(queues := qs,
                totalQueued := s.totalQueued - |gone|,
                blockedCount := s.blockedCount - |BlockedSet(s.queues) - BlockedSet(qs)|,
                failed := s.failed + |gone|,
                log := s.log.(fate := FailAll(s.log.fate, gone))),
             EarliestHead(qs))
  }

  ghost function ExpireIfDue(s: State, now: Instant): State {
    if s.nextDeadline.Some? && s.nextDeadline.value <= now then Expire(s, now) else s
  }

  // ----- Arrival

  function Refuse(s: State, fid: FunctionId, why: AdmissionFailure): State {
    s.(received := s.received + 1, failed := s.failed + 1,
       log := s.log.(arrivals := s.log.arrivals + [fid], fate := s.log.fate + [Failed(why)]))
  }

  /** `entry(fid).or_insert_with(..)` */
  function Entry(s: State, fid: FunctionId): (r: State)
    ensures fid in r.queues
  {
    if fid in s.queues then s else s.(queues := s.queues[fid := FunctionQueue([], Runnable)])
  }

  function Admit(s: State, e: Envelope): State
    requires e.fid in s.queues
  {
    var q := s.queues[e.fid];
    UpdateTimer(
      s.(received := s.received + 1,
         queues := s.queues[e.fid := q.(items := q.items + [e])],
         totalQueued := s.totalQueued + 1,
         log := s.log.(arrivals := s.log.arrivals + [e.fid], fate := s.log.fate + [Pending])),
      e.deadline)
  }

  /** What the metadata store says about the Function of one arriving request. */
  datatype Lookup = Unregistered | Registered(cap: nat, delay: nat)

  /** The per-Function half of an arrival; `checked` says that the global check already swept. */
  ghost function ArriveAt(s: State, fid: FunctionId, cap: nat, delay: nat, checked: bool, now: Instant): State
    requires fid in s.queues
  {
    var full := |s.queues[fid].items| >= cap;
    var s1 := if full && !checked then ExpireIfDue(s, now) else s;
    if |s1.queues[fid].items| >= cap then Refuse(s1, fid, QueueFullFunction)
    else Admit(s1, Envelope(|s1.log.arrivals|, fid, now, now + delay))
  }

  ghost function Arrive(c: Config, s: State, fid: FunctionId, found: Lookup, now: Instant): State {
    if found.Unregistered? then Refuse(s, fid, Rejected(UnknownFunction))
    else
      var pressed := s.totalQueued >= c.globalCap;
      var s1 := if pressed then ExpireIfDue(s, now) else s;
      if s1.totalQueued >= c.globalCap then Refuse(s1, fid, QueueFullGlobal)
      else ArriveAt(Entry(s1, fid), fid, found.cap, found.delay, pressed, now)
  }

  // ----- Dispatch

  predicate HasRunnable(qs: Queues) {
    exists f :: f in qs && qs[f].IsRunnable()
  }

  function LoopTop(s: State): State {
    if s.outstanding.None? && !s.waiting && HasRunnable(s.queues) then s.(waiting := true) else s
  }

  /** The answers the head scan may give: ties are broken by hash-map order. */
  predicate IsPick(qs: Queues, pick: Option<FunctionId>) {
    match pick
    case None => !HasRunnable(qs)
    case Some(f) =>
      && f in qs && qs[f].IsRunnable()
      && forall g :: g in qs && qs[g].IsRunnable() ==>
           qs[f].items[0].enqueuedAt <= qs[g].items[0].enqueuedAt
  }

  function PopHead(s: State, f: FunctionId): State
    requires f in s.queues && s.queues[f].items != []
  {
    var q := s.queues[f];
    s.(queues := s.queues[f := q.(items := q.items[1..])], totalQueued := s.totalQueued - 1)
  }

  function PushHead(s: State, f: FunctionId, e: Envelope): State
    requires f in s.queues
  {
    var q := s.queues[f];
    UpdateTimer(s.(queues := s.queues[f := q.(items := [e] + q.items)],
                   totalQueued := s.totalQueued + 1),
                e.deadline)
  }

  /** The part of the slot handler after the expiry check. */
  function Attempt(s: State, pick: Option<FunctionId>, sent: bool): State
    requires IsPick(s.queues, pick)
  {
    match pick
    case None => s.(free := s.free + 1)
    case Some(f) =>
      var e := s.queues[f].items[0];
      var s1 := PopHead(s, f);
      if sent then s1.(outstanding := Some(e))
      else PushHead(s1, f, e).(free := s1.free + 1, halted := true)
  }

  ghost function BeforeAttempt(s: State, now: Instant): State {
    ExpireIfDue(s.(waiting := false, free := s.free - 1), now)
  }

  // ----- Pool replies

  function MarkBlocked(c: Config, s: State, f: FunctionId, why: BlockReason, reset: Instant, now: Instant): State
    requires f in s.queues
  {
    var q := s.queues[f];
    var s1 :=
      if q.IsBlocked() then s
      else if s.blockedCount + 1 == 1 then
        s.(blockedCount := s.blockedCount + 1, tickDue := reset + c.period, log := s.log.(epoch := reset))
      else s.(blockedCount := s.blockedCount + 1);
    s1.(queues := s.queues[f := q.(state := Blocked(why, now))])
  }

  /** `num_failed`, and the fate of an admitted request. */
  function Fail(s: State, id: nat, why: AdmissionFailure): State
    requires id < |s.log.fate|
  {
    s.(failed := s.failed + 1, log := s.log.(fate := s.log.fate[id := Failed(why)]))
  }

  predicate Replyable(s: State) {
    s.outstanding.Some? && s.outstanding.value.id < |s.log.fate| && s.outstanding.value.fid in s.queues
  }

  function Reply(c: Config, s: State, resp: DispatchResponse, forwardOk: bool, reset: Instant, now: Instant): State
    requires Replyable(s)
  {
    var e := s.outstanding.value;
    var s0 := s.(outstanding := None);
    match resp
    case Dispatch =>
      if forwardOk then
        s0.(dispatched := s.dispatched + 1, running := s.running + {e.id},
            log := s.log.(fate := s.log.fate[e.id := Dispatched], forwarded := s.log.forwarded + [e]))
      else
        s0.(halted := true, free := s.free + 1,
            log := s.log.(fate := s.log.fate[e.id := Lost], lost := s.log.lost + {e.id}))
    case WouldBlock(why) =>
      MarkBlocked(c, PushHead(s0, e.fid, e), e.fid, why, reset, now).(free := s.free + 1)
    case Reject(why) =>
      Fail(s0, e.id, Rejected(why)).(free := s.free + 1)
  }

  // ----- Wakeups

  /** Whether a Pool event clears a block of Function `f` for reason `why`. */
  predicate Clears(ev: PoolEvent, f: FunctionId, why: BlockReason) {
    match ev
    case WorkerIdle(g) => f == g
    case MemoryCapAvailable => why == MemoryPressure
    case WorkerCapAvailable(g) => f == g && why == FunctionWorkerCap
  }

  function Woken(qs: Queues, ev: PoolEvent): set<FunctionId> {
    set f | f in qs && qs[f].IsBlocked() && Clears(ev, f, qs[f].state.reason)
  }

  function MakeRunnable(qs: Queues, fs: set<FunctionId>): Queues {
    map f | f in qs :: if f in fs then qs[f].(state := Runnable) else qs[f]
  }

  function Wake(s: State, ev: PoolEvent): State {
    var fs := Woken(s.queues, ev);
    s.(queues := MakeRunnable(s.queues, fs), blockedCount := s.blockedCount - |fs|)
  }

  function UnblockAll(s: State): State {
    if s.blockedCount == 0 then s
    else s.(queues := MakeRunnable(s.queues, BlockedSet(s.queues)), blockedCount := 0)
  }

  /** A Worker releases, or drops, the RunningSlot of request `id`; a second release does nothing. */
  function ReleaseSlot(s: State, id: nat): State {
    if id in s.running then s.(running := s.running - {id}, free := s.free + 1) else s
  }

  // ----- The event loop

  datatype Event =
    | Arrival(fid: FunctionId, found: Lookup, now: Instant)
    | PoolWakeup(ev: PoolEvent, now: Instant)
    | SlotAcquired(pick: Option<FunctionId>, sent: bool, now: Instant)
    | PoolReply(resp: DispatchResponse, forwardOk: bool, reset: Instant, now: Instant)
    | PoolGone(now: Instant)                       // the reply channel was dropped
    | DeadlineFired(now: Instant)
    | FallbackTick(nextDue: Instant, now: Instant)
    | Stop(now: Instant)                           // quit notice, or the request source closed
    | WorkerReleases(id: nat, now: Instant)

  /** Where the loop stands when the branch of event `e` is taken. */
  function Ready(s: State, e: Event): State {
    (if e.WorkerReleases? then s else LoopTop(s)).(clock := e.now)
  }

  /** Whether the branch of event `e` may be taken in state `s`. */
  ghost predicate Enabled(c: Config, s: State, e: Event) {
    && s.clock <= e.now
    && (e.WorkerReleases? || !s.halted)
    && match e
       case SlotAcquired(pick, _, now) =>
         LoopTop(s).waiting && s.free > 0 && IsPick(BeforeAttempt(Ready(s, e), now).queues, pick)
       case PoolReply(_, _, reset, now) => Replyable(s) && s.clock <= reset <= now
       case PoolGone(_) => Replyable(s)
       case DeadlineFired(now) => s.timer.Some? && s.timer.value <= now
       case FallbackTick(nextDue, now) =>
         s.blockedCount > 0 && s.tickDue <= now && s.tickDue + c.period <= nextDue <= now + c.period
       case _ => true
  }

  ghost function Handle(c: Config, s: State, e: Event): State
    requires e.SlotAcquired? ==> IsPick(BeforeAttempt(s, e.now).queues, e.pick)
    requires e.PoolReply? || e.PoolGone? ==> Replyable(s)
  {
    match e
    case Arrival(fid, found, now) => Arrive(c, s, fid, found, now)
    case PoolWakeup(ev, _) => Wake(s, ev)
    case SlotAcquired(pick, sent, now) => Attempt(BeforeAttempt(s, now), pick, sent)
    case PoolReply(resp, ok, reset, now) => Reply(c, s, resp, ok, reset, now)
    case PoolGone(_) =>
      Fail(s.(outstanding := None, free := s.free + 1, halted := true), s.outstanding.value.id, Rejected(Internal))
    case DeadlineFired(now) => Expire(s, now)
    case FallbackTick(nextDue, _) => UnblockAll(s).(tickDue := nextDue)
    case Stop(_) => s.(halted := true)
    case WorkerReleases(id, _) => ReleaseSlot(s, id)
  }

  ghost function Next(c: Config, s: State, e: Event): State
    requires Enabled(c, s, e)
  {
    Handle(c, Ready(s, e), e)
  }

  ghost predicate Step(c: Config, s: State, e: Event, s': State) {
    Enabled(c, s, e) && s' == Next(c, s, e)
  }

  /** `ss` are the states of a run of the controller, and `es[i]` leads from `ss[i]` to `ss[i+1]`. */
  ghost predicate IsRun(c: Config, ss: seq<State>, es: seq<Event>) {
    && |ss| == |es| + 1
    && ss[0] == Init(c, ss[0].clock)
    && forall i :: 0 <= i < |es| ==> Step(c, ss[i], es[i], ss[i + 1])
  }
}
