/**
 The network resource actor: a mailbox served in a running phase, then, after the quit notice,
 in a draining phase that refuses allocations until every sender is gone.

 What the provider answers, whether a caller still listens and whether a deallocation
 succeeds are inputs, carried by the messages.
 */
module Network {
  import opened Options

  type Resource = nat
  type Descriptor = nat

  /**
   One allocation call: what the provider grants, whether the caller still listens for the
   reply and, if not, whether taking the resource back succeeds.
   */
  datatype Call = Call(granted: Option<Resource>, listening: bool, undone: bool)

  datatype Message =
    | Allocate(call: Call)
    | Request(desc: Descriptor, call: Call)
    | Deallocate(r: Resource, ok: bool)
  {
    predicate IsAllocation() { Allocate? || Request? }
  }

  datatype Outcome = Done | UnexpectedShutDown

  datatype State = State(
    live: multiset<Resource>,        // allocated by the provider and not deallocated
    delivered: multiset<Resource>,   // handed to callers
    returned: multiset<Resource>,    // sent back by callers
    stuck: multiset<Resource>,       // whose deallocation failed
    allocations: nat,                // calls of the provider's `alloc` or `request`
    replies: nat,                    // reply attempts
    draining: bool,
    providerDown: bool)

  const INIT := State(multiset{}, multiset{}, multiset{}, multiset{}, 0, 0, false, false)

  function Free(s: State, r: Resource, ok: bool): State {
    if ok then s.(live := s.live - multiset{r}) else s.(stuck := s.stuck + multiset{r})
  }

  /** Allocate, reply, and take the resource back if nobody listens. */
  function Alloc(s: State, call: Call): State {
    var s1 := s.(allocations := s.allocations + 1, replies := s.replies + 1);
    match call.granted
    case None => s1
    case Some(r) =>
      var s2 := s1.(live := s1.live + multiset{r});
      if call.listening then s2.(delivered := s2.delivered + multiset{r}) else Free(s2, r, call.undone)
  }

  function Refuse(s: State): State {
    s.(replies := s.replies + 1)
  }

  function Handle(s: State, m: Message): State {
    match m
    case Deallocate(r, ok) => Free(s.(returned := s.returned + multiset{r}), r, ok)
    case Allocate(call) => if s.draining then Refuse(s) else Alloc(s, call)
    case Request(_, call) => if s.draining then Refuse(s) else Alloc(s, call)
  }

  function HandleAll(s: State, inbox: seq<Message>): State {
    if inbox == [] then s else Handle(HandleAll(s, inbox[..|inbox| - 1]), inbox[|inbox| - 1])
  }

  /** The quit path: `quit` messages are served, the rest are drained, then the provider goes down. */
  function QuitRun(s: State, inbox: seq<Message>, quit: nat): State
    requires quit <= |inbox|
  {
    HandleAll(HandleAll(s, inbox[..quit]).(draining := true), inbox[quit..]).(providerDown := true)
  }

  // ----- What the protocol keeps

  /** Resources are moved, not copied: a caller returns only what it was given and still has. */
  predicate Honest(s: State, m: Message) {
    m.Deallocate? ==> s.returned[m.r] < s.delivered[m.r]
  }

  ghost predicate HonestAll(s: State, inbox: seq<Message>) {
    forall i :: 0 <= i < |inbox| ==> Honest(HandleAll(s, inbox[..i]), inbox[i])
  }

  /** Every live resource is with a caller, or its deallocation failed. */
  ghost predicate Conserved(s: State) {
    && s.live + s.returned == s.delivered + s.stuck
    && s.returned <= s.delivered
  }

  lemma HandleConserves(s: State, m: Message)
    requires Conserved(s) && Honest(s, m)
    ensures Conserved(Handle(s, m))
  {
    match m
    case Deallocate(r, ok) =>
      assert (s.live + s.returned)[r] == (s.delivered + s.stuck)[r];
      Shift(s.live, s.returned, r);
    case Allocate(call) => AllocConserves(s, call);
    case Request(_, call) => AllocConserves(s, call);
  }

  lemma Shift(a: multiset<Resource>, b: multiset<Resource>, r: Resource)
    requires r in a
    ensures a - multiset{r} + (b + multiset{r}) == a + b
    ensures a + (b + multiset{r}) == a + b + multiset{r}
  {
  }

  lemma AllocConserves(s: State, call: Call)
    requires Conserved(s)
    ensures Conserved(Alloc(s, call))
  {
    if call.granted.Some? {
      var x := multiset{call.granted.value};
      assert s.live + x - x == s.live;
      assert s.live + x + s.returned == s.live + s.returned + x;
      assert s.delivered + x + s.stuck == s.delivered + s.stuck + x;
      assert s.delivered + (s.stuck + x) == s.delivered + s.stuck + x;
    }
  }

  lemma {:induction false} AllConserve(s: State, inbox: seq<Message>)
    requires Conserved(s) && HonestAll(s, inbox)
    ensures Conserved(HandleAll(s, inbox))
  {
    if inbox != [] {
      var n := |inbox| - 1;
      HonestPrefix(s, inbox);
      AllConserve(s, inbox[..n]);
      assert Honest(HandleAll(s, inbox[..n]), inbox[n]);
      HandleConserves(HandleAll(s, inbox[..n]), inbox[n]);
    }
  }

  lemma HonestPrefix(s: State, inbox: seq<Message>)
    requires HonestAll(s, inbox) && inbox != []
    ensures HonestAll(s, inbox[..|inbox| - 1])
  {
    var init := inbox[..|inbox| - 1];
    forall i | 0 <= i < |init| ensures Honest(HandleAll(s, init[..i]), init[i]) {
      assert init[..i] == inbox[..i];
      assert Honest(HandleAll(s, inbox[..i]), inbox[i]);
    }
  }

  function Allocations(inbox: seq<Message>): nat {
    if inbox == [] then 0
    else Allocations(inbox[..|inbox| - 1]) + if inbox[|inbox| - 1].IsAllocation() then 1 else 0
  }

  /** Every allocation message gets exactly one reply attempt; a draining manager allocates nothing. */
  lemma {:induction false} RepliesAndAllocations(s: State, inbox: seq<Message>)
    ensures var s' := HandleAll(s, inbox);
            && s'.replies == s.replies + Allocations(inbox)
            && s'.allocations == s.allocations + (if s.draining then 0 else Allocations(inbox))
            && s'.draining == s.draining && s'.providerDown == s.providerDown
            && (s.draining ==> s'.live <= s.live && s'.delivered == s.delivered)
  {
    if inbox != [] {
      RepliesAndAllocations(s, inbox[..|inbox| - 1]);
    }
  }

  /** No failed deallocation. */
  predicate Frees(m: Message) {
    match m
    case Deallocate(_, ok) => ok
    case Allocate(call) => call.undone
    case Request(_, call) => call.undone
  }

  lemma {:induction false} NothingStuck(s: State, inbox: seq<Message>)
    requires forall i :: 0 <= i < |inbox| ==> Frees(inbox[i])
    ensures HandleAll(s, inbox).stuck == s.stuck
  {
    if inbox != [] {
      NothingStuck(s, inbox[..|inbox| - 1]);
      assert Frees(inbox[|inbox| - 1]);
    }
  }

  // ----- What the messages alone say

  /** What a served message hands to a caller that listens. */
  function GivenBy(m: Message): multiset<Resource> {
    if m.IsAllocation() && m.call.granted.Some? && m.call.listening then multiset{m.call.granted.value} else multiset{}
  }

  function ReturnedBy(m: Message): multiset<Resource> {
    if m.Deallocate? then multiset{m.r} else multiset{}
  }

  /** What a message leaves behind because a deallocation fails: one asked for, or one for a caller that is gone. */
  function StuckBy(m: Message, draining: bool): multiset<Resource> {
    match m
    case Deallocate(r, ok) => if ok then multiset{} else multiset{r}
    case _ =>
      if !draining && m.call.granted.Some? && !m.call.listening && !m.call.undone
      then multiset{m.call.granted.value} else multiset{}
  }

  function Given(inbox: seq<Message>): multiset<Resource> {
    if inbox == [] then multiset{} else Given(inbox[..|inbox| - 1]) + GivenBy(inbox[|inbox| - 1])
  }

  function Returned(inbox: seq<Message>): multiset<Resource> {
    if inbox == [] then multiset{} else Returned(inbox[..|inbox| - 1]) + ReturnedBy(inbox[|inbox| - 1])
  }

  function Stuck(inbox: seq<Message>, draining: bool): multiset<Resource> {
    if inbox == [] then multiset{} else Stuck(inbox[..|inbox| - 1], draining) + StuckBy(inbox[|inbox| - 1], draining)
  }

  lemma PlusNone(m: multiset<Resource>)
    ensures m + multiset{} == m && multiset{} + m == m
  {
  }

  /** Allocations are served alike, with or without a description. */
  lemma AllocLedger(s: State, m: Message)
    requires m.IsAllocation() && !s.draining
    ensures var s' := Alloc(s, m.call);
            && s'.delivered == s.delivered + GivenBy(m)
            && s'.returned == s.returned
            && s'.stuck == s.stuck + StuckBy(m, false)
  {
    PlusNone(s.delivered);
    PlusNone(s.stuck);
  }

  lemma FreeLedger(s: State, r: Resource, ok: bool, draining: bool)
    ensures var s' := Free(s.(returned := s.returned + multiset{r}), r, ok);
            && s'.delivered == s.delivered
            && s'.returned == s.returned + ReturnedBy(Deallocate(r, ok))
            && s'.stuck == s.stuck + StuckBy(Deallocate(r, ok), draining)
  {
    PlusNone(s.stuck);
  }

  lemma HandleLedger(s: State, m: Message)
    ensures var s' := Handle(s, m);
            && s'.delivered == s.delivered + (if s.draining then multiset{} else GivenBy(m))
            && s'.returned == s.returned + ReturnedBy(m)
            && s'.stuck == s.stuck + StuckBy(m, s.draining)
  {
    PlusNone(s.delivered);
    PlusNone(s.returned);
    PlusNone(s.stuck);
    hide Alloc, Free;
    if m.Deallocate? {
      FreeLedger(s, m.r, m.ok, s.draining);
    } else if !s.draining {
      AllocLedger(s, m);
    }
  }

  /** The books of the manager say what the messages say: who was given what, and what came back or is stuck. */
  lemma {:induction false} Ledger(s: State, inbox: seq<Message>)
    ensures var s' := HandleAll(s, inbox);
            && s'.delivered == s.delivered + (if s.draining then multiset{} else Given(inbox))
            && s'.returned == s.returned + Returned(inbox)
            && s'.stuck == s.stuck + Stuck(inbox, s.draining)
  {
    hide Handle, GivenBy, ReturnedBy, StuckBy;
    if inbox != [] {
      var init := inbox[..|inbox| - 1];
      Ledger(s, init);
      RepliesAndAllocations(s, init);
      HandleLedger(HandleAll(s, init), inbox[|inbox| - 1]);
    }
  }

  lemma {:induction false} ReturnedConcat(a: seq<Message>, b: seq<Message>)
    ensures Returned(a + b) == Returned(a) + Returned(b)
  {
    if b != [] {
      var n := |b| - 1;
      assert (a + b)[..|a + b| - 1] == a + b[..n];
      ReturnedConcat(a, b[..n]);
    } else {
      assert a + b == a;
    }
  }

  /** Callers return only what they were given before the notice, each resource once. */
  ghost predicate Returnable(inbox: seq<Message>, quit: nat)
    requires quit <= |inbox|
  {
    forall i :: 0 <= i < |inbox| && inbox[i].Deallocate? ==>
      Returned(inbox[..i])[inbox[i].r] < Given(inbox[..if i < quit then i else quit])[inbox[i].r]
  }

  lemma ServedHonest(inbox: seq<Message>, quit: nat)
    requires quit <= |inbox| && Returnable(inbox, quit)
    ensures HonestAll(INIT, inbox[..quit])
  {
    var a := inbox[..quit];
    forall i | 0 <= i < |a| ensures Honest(HandleAll(INIT, a[..i]), a[i]) {
      assert a[..i] == inbox[..i] && a[i] == inbox[i];
      Ledger(INIT, a[..i]);
    }
  }

  lemma DrainedHonest(inbox: seq<Message>, quit: nat)
    requires quit <= |inbox| && Returnable(inbox, quit)
    ensures HonestAll(HandleAll(INIT, inbox[..quit]).(draining := true), inbox[quit..])
  {
    hide HandleAll, Given, Returned, Stuck, Honest;
    var b := inbox[quit..];
    forall i | 0 <= i < |b| ensures Honest(HandleAll(HandleAll(INIT, inbox[..quit]).(draining := true), b[..i]), b[i]) {
      DrainedOne(inbox, quit, i);
    }
  }

  lemma DrainedOne(inbox: seq<Message>, quit: nat, i: nat)
    requires quit <= |inbox| && i < |inbox| - quit && Returnable(inbox, quit)
    ensures var b := inbox[quit..];
            Honest(HandleAll(HandleAll(INIT, inbox[..quit]).(draining := true), b[..i]), b[i])
  {
    hide HandleAll, Given, Returned, Stuck;
    var a, b := inbox[..quit], inbox[quit..];
    assert inbox[..quit + i] == a + b[..i] && b[i] == inbox[quit + i];
    Ledger(INIT, a);
    Ledger(HandleAll(INIT, a).(draining := true), b[..i]);
    ReturnedConcat(a, b[..i]);
  }

  /**
   On the quit path, whatever arrives and whenever the notice comes: every allocation message
   taken from the mailbox gets exactly one reply attempt, nothing is allocated after the notice,
   and when the provider goes down the live resources are those granted before the notice to
   callers that listened and not sent back, plus those whose deallocation failed.
   */
  lemma QuitPathConserves(inbox: seq<Message>, quit: nat)
    requires quit <= |inbox| && Returnable(inbox, quit)
    ensures var s, a, b := QuitRun(INIT, inbox, quit), inbox[..quit], inbox[quit..];
            && s.draining && s.providerDown
            && s.replies == Allocations(a) + Allocations(b)
            && s.allocations == Allocations(a)
            && s.delivered == Given(a) && s.returned == Returned(inbox)
            && s.live == Given(a) - Returned(inbox) + (Stuck(a, false) + Stuck(b, true))
            && ((forall i :: 0 <= i < |inbox| ==> Frees(inbox[i])) ==> s.live == Given(a) - Returned(inbox))
  {
    hide HandleAll, Given, Returned, Stuck, Allocations, Conserved, HonestAll, Returnable;
    var a, b := inbox[..quit], inbox[quit..];
    var s1 := HandleAll(INIT, a);
    var s2 := s1.(draining := true);
    RepliesAndAllocations(INIT, a);
    RepliesAndAllocations(s2, b);
    QuitLedger(inbox, quit);
    QuitConserves(inbox, quit);
    Balance(HandleAll(s2, b));
    if forall i :: 0 <= i < |inbox| ==> Frees(inbox[i]) {
      QuitFrees(inbox, quit);
    }
  }

  lemma QuitLedger(inbox: seq<Message>, quit: nat)
    requires quit <= |inbox|
    ensures var s, a, b := QuitRun(INIT, inbox, quit), inbox[..quit], inbox[quit..];
            && s.delivered == Given(a) && s.returned == Returned(inbox)
            && s.stuck == Stuck(a, false) + Stuck(b, true)
  {
    hide HandleAll, Given, Returned, Stuck;
    var a, b := inbox[..quit], inbox[quit..];
    RepliesAndAllocations(INIT, a);
    Ledger(INIT, a);
    Ledger(HandleAll(INIT, a).(draining := true), b);
    assert a + b == inbox;
    ReturnedConcat(a, b);
    PlusNone(Given(a));
    PlusNone(Returned(a));
    PlusNone(Stuck(a, false));
  }

  lemma QuitConserves(inbox: seq<Message>, quit: nat)
    requires quit <= |inbox| && Returnable(inbox, quit)
    ensures Conserved(HandleAll(HandleAll(INIT, inbox[..quit]).(draining := true), inbox[quit..]))
  {
    hide HandleAll, HonestAll, Returnable;
    ServedHonest(inbox, quit);
    DrainedHonest(inbox, quit);
    AllConserve(INIT, inbox[..quit]);
    AllConserve(HandleAll(INIT, inbox[..quit]).(draining := true), inbox[quit..]);
  }

  lemma QuitFrees(inbox: seq<Message>, quit: nat)
    requires quit <= |inbox| && forall i :: 0 <= i < |inbox| ==> Frees(inbox[i])
    ensures QuitRun(INIT, inbox, quit).stuck == multiset{}
  {
    hide HandleAll;
    var a, b := inbox[..quit], inbox[quit..];
    assert forall i :: 0 <= i < |a| ==> a[i] == inbox[i];
    assert forall i :: 0 <= i < |b| ==> b[i] == inbox[quit + i];
    NothingStuck(INIT, a);
    NothingStuck(HandleAll(INIT, a).(draining := true), b);
  }

  lemma Balance(s: State)
    requires Conserved(s)
    ensures s.live == s.delivered - s.returned + s.stuck
  {
    assert s.live + s.returned - s.returned == s.live;
    forall x ensures s.live[x] == (s.delivered - s.returned + s.stuck)[x] {
      assert (s.live + s.returned)[x] == (s.delivered + s.stuck)[x];
    }
  }

  // ----- The actor

  class NetworkManager {
    var state: State

    constructor ()
      ensures state == INIT
    {
      state := INIT;
    }

    method Dealloc(r: Resource, ok: bool)
      modifies this
      ensures state == Free(old(state), r, ok)
    {
      if ok {
        state := state.(live := state.live - multiset{r});
      } else {
        state := state.(stuck := state.stuck + multiset{r});
      }
    }

    method AllocAndReply(call: Call)
      modifies this
      ensures state == Alloc(old(state), call)
      ensures state.replies == old(state).replies + 1
      ensures call.granted.Some? && call.listening ==>
                && state.delivered == old(state).delivered + multiset{call.granted.value}
                && state.live == old(state).live + multiset{call.granted.value}
      ensures call.granted.None? || !call.listening ==> state.delivered == old(state).delivered
      ensures call.granted.Some? && !call.listening && call.undone ==> state.live == old(state).live
    {
      state := state.(allocations := state.allocations + 1);
      if call.granted.Some? {
        state := state.(live := state.live + multiset{call.granted.value});
      }
      state := state.(replies := state.replies + 1);
      if call.granted.Some? {
        if call.listening {
          state := state.(delivered := state.delivered + multiset{call.granted.value});
        } else {
          Dealloc(call.granted.value, call.undone);
        }
      }
    }

    method TakeBack(r: Resource, ok: bool)
      modifies this
      ensures state == Free(old(state).(returned := old(state).returned + multiset{r}), r, ok)
    {
      state := state.(returned := state.returned + multiset{r});
      Dealloc(r, ok);
    }

    method Serve(m: Message)
      requires !state.draining
      modifies this
      ensures state == Handle(old(state), m) && !state.draining
    {
      match m
      case Allocate(call) => AllocAndReply(call);
      case Request(_, call) => AllocAndReply(call);
      case Deallocate(r, ok) => TakeBack(r, ok);
    }

    /** The draining loop; it ends when every sender is gone. */
    method Shutdown(inbox: seq<Message>)
      requires state.draining
      modifies this
      ensures state == HandleAll(old(state), inbox).(providerDown := true)
    {
      ghost var s0 := state;
      for i := 0 to |inbox|
        invariant state == HandleAll(s0, inbox[..i]) && state.draining
      {
        assert inbox[..i + 1][..i] == inbox[..i];
        match inbox[i]
        case Allocate(_) => state := Refuse(state);
        case Request(_, _) => state := Refuse(state);
        case Deallocate(r, ok) => TakeBack(r, ok);
      }
      assert inbox[..|inbox|] == inbox;
      state := state.(providerDown := true);
    }

    /**
     The main loop over the messages in the order they arrive. The quit notice wins over the
     mailbox once `quit` messages have been served; without one, the loop ends when all senders
     are gone, which is an error, and the provider is not shut down.
     */
    method Run(inbox: seq<Message>, quit: Option<nat>) returns (r: Outcome)
      requires !state.draining
      modifies this
      ensures quit.Some? && quit.value <= |inbox| ==>
                r == Done && state == QuitRun(old(state), inbox, quit.value)
      ensures quit.None? || quit.value > |inbox| ==>
                r == UnexpectedShutDown && state == HandleAll(old(state), inbox)
    {
      hide Handle;
      ghost var s0 := state;
      var i := 0;
      while quit != Some(i)
        invariant i <= |inbox| && (quit.Some? ==> i <= quit.value)
        invariant state == HandleAll(s0, inbox[..i]) && !state.draining
        decreases |inbox| - i
      {
        if i == |inbox| {
          assert inbox[..i] == inbox;
          return UnexpectedShutDown;
        }
        assert inbox[..i + 1][..i] == inbox[..i];
        Serve(inbox[i]);
        i := i + 1;
      }
      state := state.(draining := true);
      Shutdown(inbox[i..]);
      r := Done;
    }
  }
}
