/**
 The least-loaded CPU allocator of the sandbox pool. CPU numbers and occupant counts are
 16-bit, and the counts wrap as an optimised build lets them.
 */
module CpuSet {
  import opened Sums
  import CpuList

  const MAX := CpuList.MAX

  type Cpu = c: nat | c <= MAX
  type WorkerId = nat

  datatype Outcome = Released | AllocationNotFound(worker: WorkerId)

  /** Occupants per CPU, and the CPU of each Worker. */
  datatype Pool = Pool(occupants: map<Cpu, nat>, allocations: map<WorkerId, Cpu>)

  function WorkersOn(alloc: map<WorkerId, Cpu>, cpu: Cpu): set<WorkerId> {
    set w | w in alloc && alloc[w] == cpu
  }

  /** The recorded occupancy of every CPU is the number of Workers mapped to it. */
  ghost predicate Consistent(p: Pool) {
    && p.occupants != map[]
    && (forall w :: w in p.allocations ==> p.allocations[w] in p.occupants)
    && (forall c :: c in p.occupants ==> p.occupants[c] == |WorkersOn(p.allocations, c)| <= MAX)
    && Sum(p.occupants) == |p.allocations|
  }

  predicate LeastLoaded(p: Pool, cpu: Cpu) {
    cpu in p.occupants && forall c :: c in p.occupants ==> p.occupants[cpu] <= p.occupants[c]
  }

  /** `n + 1` and `n - 1` on 16 bits. */
  function Up(n: nat): nat {
    if n == MAX then 0 else n + 1
  }

  function Down(n: nat): nat {
    if n == 0 then MAX else n - 1
  }

  function Alloc(p: Pool, w: WorkerId, cpu: Cpu): Pool
    requires cpu in p.occupants
  {
    Pool(p.occupants[cpu := Up(p.occupants[cpu])], p.allocations[w := cpu])
  }

  function Release(p: Pool, w: WorkerId): Pool
    requires w in p.allocations && p.allocations[w] in p.occupants
  {
    var cpu := p.allocations[w];
    Pool(p.occupants[cpu := Down(p.occupants[cpu])], p.allocations - {w})
  }

  lemma WorkersAfterAlloc(alloc: map<WorkerId, Cpu>, w: WorkerId, cpu: Cpu, c: Cpu)
    requires w !in alloc
    ensures |WorkersOn(alloc[w := cpu], c)| == |WorkersOn(alloc, c)| + if c == cpu then 1 else 0
  {
    assert WorkersOn(alloc[w := cpu], c) == WorkersOn(alloc, c) + if c == cpu then {w} else {};
  }

  lemma WorkersAfterRelease(alloc: map<WorkerId, Cpu>, w: WorkerId, c: Cpu)
    requires w in alloc
    ensures |WorkersOn(alloc - {w}, c)| == |WorkersOn(alloc, c)| - if c == alloc[w] then 1 else 0
  {
    assert WorkersOn(alloc - {w}, c) == WorkersOn(alloc, c) - {w};
    assert c == alloc[w] <==> w in WorkersOn(alloc, c);
  }

  lemma AllocKeeps(p: Pool, w: WorkerId, cpu: Cpu)
    requires Consistent(p) && cpu in p.occupants && w !in p.allocations && p.occupants[cpu] < MAX
    ensures Consistent(Alloc(p, w, cpu))
  {
    hide WorkersOn, Sum;
    var p' := Alloc(p, w, cpu);
    forall c | c in p'.occupants ensures p'.occupants[c] == |WorkersOn(p'.allocations, c)| <= MAX {
      WorkersAfterAlloc(p.allocations, w, cpu, c);
    }
    Update(p.occupants, cpu, p.occupants[cpu] + 1);
    assert p'.allocations.Keys == p.allocations.Keys + {w};
  }

  /** An allocation keeps the books exactly when the counter of its CPU is not at its limit. */
  lemma AllocKeepsIff(p: Pool, w: WorkerId, cpu: Cpu)
    requires Consistent(p) && cpu in p.occupants && w !in p.allocations
    ensures Consistent(Alloc(p, w, cpu)) <==> p.occupants[cpu] < MAX
  {
    hide WorkersOn, Sum;
    WorkersAfterAlloc(p.allocations, w, cpu, cpu);
    if p.occupants[cpu] < MAX {
      AllocKeeps(p, w, cpu);
    } else {
      assert Alloc(p, w, cpu).occupants[cpu] != |WorkersOn(Alloc(p, w, cpu).allocations, cpu)|;
    }
  }

  /** A Worker that has a CPU is counted there, so its release cannot underflow. */
  lemma Occupied(p: Pool, w: WorkerId)
    requires Consistent(p) && w in p.allocations
    ensures p.allocations[w] in p.occupants && p.occupants[p.allocations[w]] > 0
  {
    assert w in WorkersOn(p.allocations, p.allocations[w]);
  }

  lemma ReleaseKeeps(p: Pool, w: WorkerId)
    requires Consistent(p) && w in p.allocations
    ensures p.allocations[w] in p.occupants && p.occupants[p.allocations[w]] > 0
    ensures Consistent(Release(p, w))
  {
    hide WorkersOn, Sum;
    Occupied(p, w);
    var p', cpu := Release(p, w), p.allocations[w];
    forall c | c in p'.occupants ensures p'.occupants[c] == |WorkersOn(p'.allocations, c)| <= MAX {
      WorkersAfterRelease(p.allocations, w, c);
    }
    Update(p.occupants, cpu, p.occupants[cpu] - 1);
    assert p.allocations.Keys == (p.allocations - {w}).Keys + {w};
  }

  /** Releasing what was just allocated restores the pool. */
  lemma ReleaseUndoesAlloc(p: Pool, w: WorkerId, cpu: Cpu)
    requires Consistent(p) && cpu in p.occupants && w !in p.allocations
    ensures Release(Alloc(p, w, cpu), w) == p
  {
    hide WorkersOn, Sum;
    assert (p.allocations[w := cpu]) - {w} == p.allocations;
    assert Down(Up(p.occupants[cpu])) == p.occupants[cpu];
  }

  /** When every Worker has released its CPU, every CPU is idle. */
  lemma AllReleased(p: Pool)
    requires Consistent(p) && p.allocations == map[]
    ensures forall c :: c in p.occupants ==> p.occupants[c] == 0
  {
    forall c | c in p.occupants ensures p.occupants[c] == 0 {
      assert WorkersOn(p.allocations, c) == {};
    }
  }

  // ----- The load bound

  /** The least number of which `m` add up to at least `n`. */
  function CeilDiv(n: nat, m: nat): (q: nat)
    requires m > 0
    ensures n <= q * m < n + m
  {
    (n + m - 1) / m
  }

  lemma CeilDivAtLeast(k: nat, m: nat, n: nat)
    requires m > 0 && k * m < n
    ensures k + 1 <= CeilDiv(n, m)
  {
    var q := CeilDiv(n, m);
    assert n + m - 1 < (q + 1) * m;
    assert (k + 1) * m < (q + 1) * m;
  }

  /** A CPU is chosen only while the whole pool is loaded at least as much. */
  lemma LeastLoadedBound(p: Pool, cpu: Cpu, n: nat)
    requires Consistent(p) && LeastLoaded(p, cpu) && |p.allocations| < n
    ensures p.occupants[cpu] + 1 <= CeilDiv(n, |p.occupants|)
  {
    var k, m := p.occupants[cpu], |p.occupants|;
    hide WorkersOn, Sum, CeilDiv;
    AtLeast(p.occupants, k);
    CeilDivAtLeast(k, m, n);
  }

  /** Fewer Workers than all 16-bit counters can hold leave room on the least loaded CPU. */
  lemma NoOverflow(p: Pool, cpu: Cpu)
    requires Consistent(p) && LeastLoaded(p, cpu) && |p.allocations| < MAX * |p.occupants|
    ensures p.occupants[cpu] < MAX
  {
    if p.occupants[cpu] >= MAX {
      AtLeast(p.occupants, MAX);
    }
  }

  datatype Event = Allocate(w: WorkerId, cpu: Cpu) | Free(w: WorkerId)

  ghost predicate Step(p: Pool, e: Event, p': Pool) {
    match e
    case Allocate(w, cpu) => w !in p.allocations && LeastLoaded(p, cpu) && p' == Alloc(p, w, cpu)
    case Free(w) =>
      if w in p.allocations then p.allocations[w] in p.occupants && p' == Release(p, w)
      else p' == p
  }

  ghost predicate IsRun(ps: seq<Pool>, es: seq<Event>) {
    && |ps| == |es| + 1
    && ps[0].occupants != map[] && ps[0].allocations == map[]
    && (forall c :: c in ps[0].occupants ==> ps[0].occupants[c] == 0)
    && forall i :: 0 <= i < |es| ==> Step(ps[i], es[i], ps[i + 1])
  }

  lemma IdleConsistent(p: Pool)
    requires p.occupants != map[] && p.allocations == map[]
    requires forall c :: c in p.occupants ==> p.occupants[c] == 0
    ensures Consistent(p)
  {
    Zero(p.occupants);
    assert forall c :: c in p.occupants ==> WorkersOn(map[], c) == {};
  }

  /** At most `n` allocations are live in the first states, and the counters can hold so many. */
  ghost predicate Fits(ps: seq<Pool>, n: nat, i: nat)
    requires i < |ps|
  {
    n <= MAX * |ps[0].occupants| && forall k :: 0 <= k <= i ==> |ps[k].allocations| <= n
  }

  lemma StepConsistent(p: Pool, e: Event, p': Pool)
    requires Consistent(p) && Step(p, e, p') && |p'.allocations| <= MAX * |p.occupants|
    ensures Consistent(p') && p'.occupants.Keys == p.occupants.Keys
  {
    hide Sum, WorkersOn, Consistent;
    match e
    case Allocate(w, cpu) =>
      assert p'.allocations.Keys == p.allocations.Keys + {w};
      NoOverflow(p, cpu);
      AllocKeeps(p, w, cpu);
    case Free(w) =>
      if w in p.allocations {
        ReleaseKeeps(p, w);
      }
  }

  lemma {:induction false} RunConsistent(ps: seq<Pool>, es: seq<Event>, n: nat, i: nat)
    requires IsRun(ps, es) && i < |ps| && Fits(ps, n, i)
    ensures Consistent(ps[i]) && ps[i].occupants.Keys == ps[0].occupants.Keys
  {
    hide Sum, WorkersOn, Consistent, Step;
    if i == 0 {
      IdleConsistent(ps[0]);
    } else {
      RunConsistent(ps, es, n, i - 1);
      assert Step(ps[i - 1], es[i - 1], ps[i - 1 + 1]);
      SameSize(ps[i - 1].occupants, ps[0].occupants);
      assert |ps[i].allocations| <= n;
      StepConsistent(ps[i - 1], es[i - 1], ps[i]);
    }
  }

  /**
   If at most `n` allocations are ever live over m CPUs, no CPU ever has more than ceil(n/m)
   occupants, for every interleaving of allocations and releases.
   */
  lemma {:induction false} LoadBound(ps: seq<Pool>, es: seq<Event>, n: nat, i: nat, c: Cpu)
    requires IsRun(ps, es) && i < |ps| && Fits(ps, n, i) && c in ps[i].occupants
    ensures ps[i].occupants[c] == |WorkersOn(ps[i].allocations, c)| <= CeilDiv(n, |ps[0].occupants|)
  {
    hide WorkersOn, Sum, CeilDiv, Step;
    RunConsistent(ps, es, n, i);
    if i > 0 {
      RunConsistent(ps, es, n, i - 1);
      LoadBound(ps, es, n, i - 1, c);
      assert Step(ps[i - 1], es[i - 1], ps[i - 1 + 1]);
      assert |ps[i].allocations| <= n;
      SameSize(ps[i - 1].occupants, ps[0].occupants);
      StepLoad(ps[i - 1], es[i - 1], ps[i], n, c);
    }
  }

  lemma SameSize(a: map<Cpu, nat>, b: map<Cpu, nat>)
    requires a.Keys == b.Keys
    ensures |a| == |b|
  {
    assert |a.Keys| == |b.Keys|;
  }

  lemma StepLoad(p: Pool, e: Event, p': Pool, n: nat, c: Cpu)
    requires Consistent(p) && Step(p, e, p') && c in p.occupants && |p'.allocations| <= n
    requires p.occupants[c] <= CeilDiv(n, |p.occupants|)
    ensures c in p'.occupants && p'.occupants[c] <= CeilDiv(n, |p.occupants|)
  {
    hide WorkersOn, Sum, CeilDiv;
    if e.Allocate? && e.cpu == c {
      assert p'.allocations.Keys == p.allocations.Keys + {e.w};
      LeastLoadedBound(p, c, n);
    } else if e.Free? && e.w in p.allocations {
      Occupied(p, e.w);
    }
  }

  // ----- Exactly how many Workers the counters can hold

  /** Consistent counters hold at most 65535 Workers per CPU. */
  lemma ConsistentHolds(p: Pool)
    requires Consistent(p)
    ensures |p.allocations| <= MAX * |p.occupants|
  {
    hide Sum, WorkersOn;
    AtMost(p.occupants, MAX);
  }

  lemma {:induction false} RunKeys(ps: seq<Pool>, es: seq<Event>, i: nat)
    requires IsRun(ps, es) && i < |ps|
    ensures ps[i].occupants.Keys == ps[0].occupants.Keys && |ps[i].occupants| == |ps[0].occupants|
  {
    if i > 0 {
      RunKeys(ps, es, i - 1);
      assert Step(ps[i - 1], es[i - 1], ps[i - 1 + 1]);
      SameSize(ps[i].occupants, ps[0].occupants);
    }
  }

  /**
   Counts and Workers agree in every state of a run exactly when the live allocations never
   exceed what the 16-bit counters of all CPUs can hold.
   */
  lemma ConsistentRunIff(ps: seq<Pool>, es: seq<Event>)
    requires IsRun(ps, es)
    ensures (forall i :: 0 <= i < |ps| ==> Consistent(ps[i])) <==>
            (forall i :: 0 <= i < |ps| ==> |ps[i].allocations| <= MAX * |ps[0].occupants|)
  {
    hide Consistent, Step;
    if forall i :: 0 <= i < |ps| ==> Consistent(ps[i]) {
      forall i | 0 <= i < |ps| ensures |ps[i].allocations| <= MAX * |ps[0].occupants| {
        ConsistentHolds(ps[i]);
        RunKeys(ps, es, i);
      }
    }
    if forall i :: 0 <= i < |ps| ==> |ps[i].allocations| <= MAX * |ps[0].occupants| {
      forall i | 0 <= i < |ps| ensures Consistent(ps[i]) {
        RunConsistent(ps, es, MAX * |ps[0].occupants|, i);
      }
    }
  }

  lemma {:induction false} LeastLoadedExists(occ: map<Cpu, nat>) returns (cpu: Cpu)
    requires occ != map[]
    ensures cpu in occ && forall c :: c in occ ==> occ[cpu] <= occ[c]
    decreases |occ|
  {
    var d: Cpu :| d in occ;
    cpu := d;
    var rest := occ - {d};
    assert forall c :: c in occ ==> c == d || (c in rest && rest[c] == occ[c]);
    if rest != map[] {
      var c := LeastLoadedExists(rest);
      if occ[c] < occ[d] {
        cpu := c;
      }
    }
  }

  /** From any idle pool, `n` Workers in a row can be given a CPU, however many. */
  lemma {:induction false} Fill(idle: Pool, n: nat) returns (ps: seq<Pool>, es: seq<Event>)
    requires idle.occupants != map[] && idle.allocations == map[]
    requires forall c :: c in idle.occupants ==> idle.occupants[c] == 0
    ensures IsRun(ps, es) && |es| == n && ps[0] == idle
    ensures |ps[n].allocations| == n && forall w :: w in ps[n].allocations ==> w < n
  {
    if n == 0 {
      ps, es := [idle], [];
    } else {
      ps, es := Fill(idle, n - 1);
      var p := ps[n - 1];
      RunKeys(ps, es, n - 1);
      assert p.occupants.Keys != {};
      var cpu := LeastLoadedExists(p.occupants);
      var e, p' := Allocate(n - 1, cpu), Alloc(p, n - 1, cpu);
      ExtendRun(ps, es, e, p');
      assert p'.allocations.Keys == p.allocations.Keys + {n - 1};
      ps, es := ps + [p'], es + [e];
    }
  }

  lemma ExtendRun(ps: seq<Pool>, es: seq<Event>, e: Event, p: Pool)
    requires IsRun(ps, es) && Step(ps[|es|], e, p)
    ensures IsRun(ps + [p], es + [e])
  {
    hide Step;
    var ps', es' := ps + [p], es + [e];
    forall i | 0 <= i < |es'| ensures Step(ps'[i], es'[i], ps'[i + 1]) {
      if i < |es| {
        assert Step(ps[i], es[i], ps[i + 1]);
      }
    }
  }

  /** Over any set of CPUs, one Worker more than the counters can hold breaks the books. */
  lemma OverflowIsReachable(idle: Pool) returns (ps: seq<Pool>, es: seq<Event>)
    requires idle.occupants != map[] && idle.allocations == map[]
    requires forall c :: c in idle.occupants ==> idle.occupants[c] == 0
    ensures var n := MAX * |idle.occupants| + 1;
            && IsRun(ps, es) && ps[0] == idle && |es| == n
            && |ps[n].allocations| == n && !Consistent(ps[n])
  {
    hide Consistent, IsRun;
    ps, es := Fill(idle, MAX * |idle.occupants| + 1);
    RunKeys(ps, es, |es|);
    if Consistent(ps[|es|]) {
      ConsistentHolds(ps[|es|]);
    }
  }

  // ----- The manager

  /** The outcome of setting up a manager from the configured CPU list. */
  datatype Created = Manager(manager: CpuSetManager) | Malformed(error: CpuList.Result)

  /** A manager over the CPUs of a list, all of them idle. */
  ghost predicate IdleOver(r: Created, cpus: seq<nat>)
    reads if r.Manager? then {r.manager} else {}
  {
    && r.Manager? && (cpus != [] ==> r.manager.Valid())
    && r.manager.allocations == map[]
    && r.manager.occupants.Keys == (set c | c in cpus)
    && forall c :: c in r.manager.occupants ==> r.manager.occupants[c] == 0
  }

  /** `allowed` is the text of the allowed-CPU list that the operating system reports. */
  method NewManager(cpusets: string, allowed: string) returns (r: Created)
    ensures r.Manager? ==> fresh(r.manager)
    ensures match CpuList.Parse(cpusets)
            case Ok(cpus) =>
              if cpus != [] then IdleOver(r, cpus)
              else
                (match CpuList.Parse(allowed)
                 case Ok(all) => IdleOver(r, all)
                 case err => r == Malformed(err))
            case err => r == Malformed(err)
  {
    hide CpuList.Parse;
    var found := CpuList.ParseCpuset(cpusets);
    CpuList.ParseInRange(cpusets);
    if found == CpuList.Ok([]) {
      found := CpuList.ParseCpuset(allowed);
      CpuList.ParseInRange(allowed);
    }
    match found
    case Ok(cpus) =>
      var m := new CpuSetManager(cpus);
      r := Manager(m);
    case _ => r := Malformed(found);
  }

  class CpuSetManager {
    var occupants: map<Cpu, nat>
    var allocations: map<WorkerId, Cpu>

    ghost function View(): Pool
      reads this
    {
      Pool(occupants, allocations)
    }

    ghost predicate Valid()
      reads this
    {
      Consistent(View())
    }

    /** Repeated CPUs in the list count once; an empty list leaves nothing to allocate. */
    constructor (cpus: seq<Cpu>)
      ensures cpus != [] ==> Valid()
      ensures allocations == map[]
      ensures occupants.Keys == (set c | c in cpus)
      ensures forall c :: c in occupants ==> occupants[c] == 0
    {
      occupants, allocations := map[], map[];
      new;
      for i := 0 to |cpus|
        invariant allocations == map[]
        invariant forall c :: c in occupants <==> c in cpus[..i]
        invariant forall c :: c in occupants ==> occupants[c] == 0
      {
        occupants := occupants[cpus[i] := 0];
      }
      assert cpus[..|cpus|] == cpus;
      if cpus != [] {
        assert cpus[0] in occupants;
        IdleConsistent(View());
      }
    }

    /** The top of the heap; ties are broken arbitrarily. */
    method Peek() returns (cpu: Cpu)
      requires occupants != map[]
      ensures LeastLoaded(View(), cpu)
    {
      var todo := occupants.Keys;
      cpu :| cpu in todo;
      while todo != {}
        invariant cpu in occupants && todo <= occupants.Keys
        invariant forall c :: c in occupants && c !in todo ==> occupants[cpu] <= occupants[c]
      {
        var c :| c in todo;
        if occupants[c] < occupants[cpu] {
          cpu := c;
        }
        todo := todo - {c};
      }
    }

    /** Worker ids are unique. The books survive unless every counter is at its 16-bit limit. */
    method AllocateCpu(w: WorkerId) returns (cpu: Cpu)
      requires Valid() && w !in allocations
      modifies this
      ensures LeastLoaded(old(View()), cpu) && View() == Alloc(old(View()), w, cpu)
      ensures allocations == old(allocations)[w := cpu]
      ensures Valid() <==> exists c :: c in old(occupants) && old(occupants)[c] < MAX
    {
      hide Sum, WorkersOn;
      cpu := Peek();
      AllocKeepsIff(View(), w, cpu);
      occupants := occupants[cpu := Up(occupants[cpu])];
      allocations := allocations[w := cpu];
    }

    method ReleaseCpu(w: WorkerId) returns (r: Outcome)
      requires Valid()
      modifies this
      ensures old(w !in allocations) ==> r == AllocationNotFound(w) && View() == old(View())
      ensures old(w in allocations) ==>
                r == Released && Step(old(View()), Free(w), View()) && allocations == old(allocations) - {w}
      ensures Valid()
    {
      hide Consistent;
      if w !in allocations {
        return AllocationNotFound(w);
      }
      ReleaseKeeps(View(), w);
      var cpu := allocations[w];
      allocations := allocations - {w};
      occupants := occupants[cpu := Down(occupants[cpu])];
      r := Released;
    }
  }
}
