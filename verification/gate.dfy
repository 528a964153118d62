/** The fair counting gate before the trace reads: first come, first served, and nobody sleeps through a free slot. */
module Gates {
  import opened Text
  import opened Wire

  /** The gate and its waiters. A ticket is named by how many arrived before it; a queued ticket is asleep on the
      condition or awake, about to look at the gate again. `admitted`, `left` and `released` are the history. */
  datatype Gate = Gate(slots: nat, free: int, queue: seq<nat>, inFlight: int, maxInFlight: int, asleep: set<nat>,
                       arrived: nat, admitted: seq<nat>, left: set<nat>, released: set<nat>)

  function NewGate(slots: nat): Gate {
    Gate(slots, slots, [], 0, 0, {}, 0, [], {}, {})
  }

  datatype GateStep =
    | Arrives(expired: bool)
    | LooksAgain(ticket: nat, expired: bool)
    | Interrupted(ticket: nat)
    | Releases(ticket: nat)

  predicate MayPass(g: Gate, ticket: nat) {
    g.queue != [] && g.queue[0] == ticket && g.free > 0
  }

  /** The head takes a slot; everybody is told. */
  function Pass(g: Gate): Gate
    requires g.queue != []
  {
    g.(queue := g.queue[1..], free := g.free - 1, inFlight := g.inFlight + 1,
       maxInFlight := if g.maxInFlight <= g.inFlight then g.inFlight + 1 else g.maxInFlight,
       asleep := {}, admitted := g.admitted + [g.queue[0]])
  }

  function Without(queue: seq<nat>, ticket: nat): seq<nat> {
    if queue == [] then []
    else if queue[0] == ticket then queue[1..]
    else [queue[0]] + Without(queue[1..], ticket)
  }

  /** A ticket leaves without a slot; everybody is told. */
  function Leave(g: Gate, ticket: nat): Gate {
    g.(queue := Without(g.queue, ticket), asleep := {}, left := g.left + {ticket})
  }

  /** One look at the gate: pass, give up, or sleep. */
  function Looked(g: Gate, ticket: nat, expired: bool): Gate {
    if MayPass(g, ticket) then Pass(g)
    else if expired then Leave(g, ticket)
    else g.(asleep := g.asleep + {ticket})
  }

  function NextGate(g: Gate, step: GateStep): Gate {
    match step
    case Arrives(expired) => Looked(g.(queue := g.queue + [g.arrived], arrived := g.arrived + 1), g.arrived, expired)
    case LooksAgain(ticket, expired) => Looked(g.(asleep := g.asleep - {ticket}), ticket, expired)
    case Interrupted(ticket) => Leave(g, ticket)
    case Releases(ticket) =>
      g.(free := g.free + 1, inFlight := g.inFlight - 1, asleep := {}, released := g.released + {ticket})
  }

  predicate Holds(g: Gate, ticket: nat) {
    ticket in g.admitted && ticket !in g.released
  }

  /** Only a queued ticket looks again or is interrupted, and only a holder releases, once. */
  predicate GateEnabled(g: Gate, step: GateStep) {
    match step
    case Arrives(_) => true
    case LooksAgain(ticket, _) => ticket in g.queue
    case Interrupted(ticket) => ticket in g.queue
    case Releases(ticket) => Holds(g, ticket)
  }

  predicate Increasing(s: seq<nat>) {
    forall i, j :: 0 <= i < j < |s| ==> s[i] < s[j]
  }

  predicate Ahead(s: seq<nat>, t: seq<nat>) {
    forall a, b :: a in s && b in t ==> a < b
  }

  function Members(s: seq<nat>): set<nat> {
    set t | t in s
  }

  /** Slots are conserved. */
  predicate Conserved(g: Gate) {
    && g.free >= 0 && g.free + g.inFlight == g.slots
    && g.inFlight == |g.admitted| - |g.released| && g.inFlight <= g.maxInFlight <= g.slots
    && g.released <= Members(g.admitted)
  }

  /** Admissions and the queue are in arrival order, one after the other, and hold nobody who left. */
  predicate InArrivalOrder(g: Gate) {
    && Increasing(g.admitted) && Increasing(g.queue) && Ahead(g.admitted, g.queue)
    && (forall t :: t in g.admitted ==> t !in g.left) && (forall t :: t in g.queue ==> t !in g.left)
  }

  /** Who arrived was admitted, or waits, or left. */
  predicate NobodyLost(g: Gate) {
    && (forall t :: t in g.queue ==> t < g.arrived) && (forall t :: t in g.admitted ==> t < g.arrived)
    && (forall t :: t in g.left ==> t < g.arrived)
    && (forall t :: 0 <= t < g.arrived ==> t in g.admitted || t in g.queue || t in g.left)
  }

  /** Nobody who could pass is asleep, and only who waits is. */
  predicate Watchful(g: Gate) {
    && (g.queue != [] && g.free > 0 ==> g.queue[0] !in g.asleep)
    && forall t :: t in g.asleep ==> t in g.queue
  }

  predicate Sound(g: Gate) {
    Conserved(g) && InArrivalOrder(g) && NobodyLost(g)
  }

  predicate GateOk(g: Gate) {
    Sound(g) && Watchful(g)
  }

  lemma {:induction false} TailMembers(queue: seq<nat>)
    requires queue != [] && Increasing(queue)
    ensures Increasing(queue[1..])
    ensures forall t :: t in queue[1..] <==> t in queue && t != queue[0]
    ensures forall t :: t in queue[1..] ==> queue[0] < t
  {
    forall t | t in queue && t != queue[0] ensures t in queue[1..] {
      var i :| 0 <= i < |queue| && queue[i] == t;
      assert queue[1..][i - 1] == t;
    }
  }

  lemma {:induction false} WithoutIsRest(queue: seq<nat>, ticket: nat)
    requires Increasing(queue)
    ensures Increasing(Without(queue, ticket))
    ensures forall t :: t in Without(queue, ticket) <==> t in queue && t != ticket
  {
    if queue != [] {
      TailMembers(queue);
      if queue[0] != ticket {
        WithoutIsRest(queue[1..], ticket);
        FirstJoins(queue[0], Without(queue[1..], ticket));
      }
    }
  }

  lemma {:induction false} FirstJoins(first: nat, rest: seq<nat>)
    requires Increasing(rest) && forall t :: t in rest ==> first < t
    ensures Increasing([first] + rest)
    ensures forall t :: t in [first] + rest <==> t == first || t in rest
  {
    assert forall i :: 0 <= i < |rest| ==> rest[i] in rest;
  }

  lemma {:induction false} LeaveKeeps(g: Gate, ticket: nat)
    requires Sound(g) && ticket in g.queue
    ensures GateOk(Leave(g, ticket))
  {
    WithoutIsRest(g.queue, ticket);
  }

  lemma {:induction false} PassKeeps(g: Gate)
    requires Sound(g) && g.queue != [] && g.free > 0
    ensures GateOk(Pass(g))
  {
    var n, head := Pass(g), g.queue[0];
    TailMembers(g.queue);
    assert head in g.queue;
    assert forall i :: 0 <= i < |g.admitted| ==> g.admitted[i] in g.admitted;
    assert forall t :: t in n.admitted <==> t in g.admitted || t == head;
    PassConserves(g);
  }

  lemma {:induction false} PassConserves(g: Gate)
    requires Conserved(g) && g.queue != [] && g.free > 0
    ensures Conserved(Pass(g))
  {
    forall t | t in g.admitted ensures t in Pass(g).admitted {
    }
  }

  lemma {:induction false} ArrivalJoins(g: Gate)
    requires Sound(g)
    ensures Sound(g.(queue := g.queue + [g.arrived], arrived := g.arrived + 1))
  {
    assert forall i :: 0 <= i < |g.queue| ==> g.queue[i] in g.queue;
    assert forall t :: t in g.queue + [g.arrived] <==> t in g.queue || t == g.arrived;
  }

  lemma {:induction false} ReleaseKeeps(g: Gate, ticket: nat)
    requires GateOk(g) && Holds(g, ticket)
    ensures GateOk(NextGate(g, Releases(ticket)))
  {
    CountOf(g.admitted);
    StrictSubset(g.released, Members(g.admitted), ticket);
  }

  lemma {:induction false} CountOf(s: seq<nat>)
    requires Increasing(s)
    ensures |Members(s)| == |s|
  {
    if s != [] {
      var front, last := s[..|s| - 1], s[|s| - 1];
      CountOf(front);
      assert last !in front;
      assert s == front + [last];
      assert Members(s) == Members(front) + {last};
    }
  }

  lemma {:induction false} StrictSubset(a: set<nat>, b: set<nat>, x: nat)
    requires a <= b && x in b && x !in a
    ensures |a| < |b|
  {
    assert b == a + (b - a);
    assert |b| == |a| + |b - a|;
    assert x in b - a;
  }

  lemma {:induction false} LookAgainKeeps(g: Gate, ticket: nat, expired: bool)
    requires GateOk(g) && ticket in g.queue
    ensures GateOk(NextGate(g, LooksAgain(ticket, expired)))
  {
    var awake := g.(asleep := g.asleep - {ticket});
    if MayPass(awake, ticket) {
      PassKeeps(awake);
    } else if expired {
      LeaveKeeps(awake, ticket);
    }
  }

  lemma {:induction false} ArriveKeeps(g: Gate, expired: bool)
    requires GateOk(g)
    ensures GateOk(NextGate(g, Arrives(expired)))
  {
    var queued := g.(queue := g.queue + [g.arrived], arrived := g.arrived + 1);
    ArrivalJoins(g);
    assert queued.queue[|g.queue|] == g.arrived;
    if MayPass(queued, g.arrived) {
      PassKeeps(queued);
    } else if expired {
      LeaveKeeps(queued, g.arrived);
    }
  }

  /** Every step keeps the gate sound. */
  lemma {:induction false} GateStepKeeps(g: Gate, step: GateStep)
    requires GateOk(g) && GateEnabled(g, step)
    ensures GateOk(NextGate(g, step)) && NextGate(g, step).slots == g.slots
  {
    match step {
      case Arrives(expired) => ArriveKeeps(g, expired);
      case LooksAgain(ticket, expired) => LookAgainKeeps(g, ticket, expired);
      case Interrupted(ticket) => LeaveKeeps(g, ticket);
      case Releases(ticket) => ReleaseKeeps(g, ticket);
    }
  }

  function Holders(g: Gate): set<nat> {
    set t | t in g.admitted && t !in g.released
  }

  predicate Moves(gates: seq<Gate>, steps: seq<GateStep>, i: nat)
    requires i < |steps| && |gates| == |steps| + 1
  {
    GateEnabled(gates[i], steps[i]) && gates[i + 1] == NextGate(gates[i], steps[i])
  }

  predicate IsGateRun(slots: nat, gates: seq<Gate>, steps: seq<GateStep>) {
    && |gates| == |steps| + 1 && gates[0] == NewGate(slots)
    && forall i :: 0 <= i < |steps| ==> Moves(gates, steps, i)
  }

  lemma {:induction false} GateStaysOk(slots: nat, gates: seq<Gate>, steps: seq<GateStep>, n: nat)
    requires IsGateRun(slots, gates, steps) && n <= |steps|
    ensures GateOk(gates[n]) && gates[n].slots == slots
  {
    if n > 0 {
      GateStaysOk(slots, gates, steps, n - 1);
      assert Moves(gates, steps, n - 1);
      GateStepKeeps(gates[n - 1], steps[n - 1]);
    }
  }

  /** In every interleaving: the slots taken are exactly those of the tickets admitted and not released, and with the
      free ones they make the whole. */
  lemma {:induction false} SlotsAreConserved(slots: nat, gates: seq<Gate>, steps: seq<GateStep>, n: nat)
    requires IsGateRun(slots, gates, steps) && n <= |steps|
    ensures var g := gates[n];
            && 0 <= g.inFlight <= g.maxInFlight <= slots && g.free == slots - g.inFlight
            && g.inFlight == |Holders(g)|
  {
    GateStaysOk(slots, gates, steps, n);
    var g := gates[n];
    CountOf(g.admitted);
    assert Members(g.admitted) == Holders(g) + g.released;
    assert |Holders(g) + g.released| == |Holders(g)| + |g.released|;
  }

  /** No overtaking: whoever arrived before an admitted ticket was admitted before it, or left without a slot. */
  lemma {:induction false} NoOvertaking(slots: nat, gates: seq<Gate>, steps: seq<GateStep>, n: nat, i: nat,
                                        earlier: nat)
    requires IsGateRun(slots, gates, steps) && n <= |steps|
    requires i < |gates[n].admitted| && earlier < gates[n].admitted[i]
    ensures earlier in gates[n].left <==> earlier !in gates[n].admitted[..i]
  {
    GateStaysOk(slots, gates, steps, n);
    var g := gates[n];
    var later := g.admitted[i];
    assert later in g.admitted;
    if earlier in g.admitted[..i] {
      assert earlier in g.admitted;
    }
  }

  /** No wakeup is lost: whenever a slot is free the head of the queue is awake, and its next look admits it, whether
      its time has run out or not. */
  lemma {:induction false} HeadIsAwake(slots: nat, gates: seq<Gate>, steps: seq<GateStep>, n: nat, expired: bool)
    requires IsGateRun(slots, gates, steps) && n <= |steps| && gates[n].queue != [] && gates[n].free > 0
    ensures var g := gates[n];
            && g.queue[0] !in g.asleep && GateEnabled(g, LooksAgain(g.queue[0], expired))
            && NextGate(g, LooksAgain(g.queue[0], expired)).admitted == g.admitted + [g.queue[0]]
  {
    GateStaysOk(slots, gates, steps, n);
  }

  lemma {:induction false} LeftStays(g: Gate, step: GateStep)
    ensures g.left <= NextGate(g, step).left
  {
  }

  lemma {:induction false} LeftForGood(slots: nat, gates: seq<Gate>, steps: seq<GateStep>, n: nat, i: nat)
    requires IsGateRun(slots, gates, steps) && i <= n <= |steps|
    ensures gates[i].left <= gates[n].left
  {
    if i < n {
      LeftForGood(slots, gates, steps, n - 1, i);
      assert Moves(gates, steps, n - 1);
      LeftStays(gates[n - 1], steps[n - 1]);
    }
  }

  /** A ticket that left has no slot and never gets one. */
  lemma {:induction false} LeavingTakesNothing(slots: nat, gates: seq<Gate>, steps: seq<GateStep>, n: nat, i: nat,
                                               ticket: nat)
    requires IsGateRun(slots, gates, steps) && i <= n <= |steps| && ticket in gates[i].left
    ensures ticket !in gates[n].admitted && ticket !in gates[n].queue
  {
    LeftForGood(slots, gates, steps, n, i);
    GateStaysOk(slots, gates, steps, n);
  }

  /** What the gate reports as its peak is the most that were ever in at once. */
  lemma {:induction false} PeakIsReached(slots: nat, gates: seq<Gate>, steps: seq<GateStep>, n: nat)
    requires IsGateRun(slots, gates, steps) && n <= |steps|
    ensures forall i :: 0 <= i <= n ==> gates[i].inFlight <= gates[n].maxInFlight
    ensures exists i :: 0 <= i <= n && gates[i].inFlight == gates[n].maxInFlight
  {
    if n > 0 {
      PeakIsReached(slots, gates, steps, n - 1);
      assert Moves(gates, steps, n - 1);
      GateStaysOk(slots, gates, steps, n);
      PeakMoves(gates[n - 1], steps[n - 1]);
    }
  }

  lemma {:induction false} PeakMoves(g: Gate, step: GateStep)
    requires GateEnabled(g, step)
    ensures var next := NextGate(g, step);
            next.maxInFlight == g.maxInFlight || (next.maxInFlight > g.maxInFlight && next.maxInFlight == next.inFlight)
  {
    hide Without;
  }

  /** What one hold of the lock comes to: in after that long, out without a slot, or asleep for at most that long. */
  datatype Outcome = Admitted(waited: int) | NotAdmitted | Sleeps(remaining: int)

  function OutcomeOf(g: Gate, ticket: nat, started: Time, timeout: int, now: Time): Outcome {
    if MayPass(g, ticket) then Admitted(now - started)
    else if started + timeout - now <= 0 then NotAdmitted
    else Sleeps(started + timeout - now)
  }

  /** A ticket is in exactly at the head of the queue with a slot free; it gives up exactly at or past its deadline, and
      sleeps exactly up to it. */
  lemma {:induction false} DeadlineIsKept(g: Gate, ticket: nat, started: Time, timeout: int, now: Time)
    ensures var outcome := OutcomeOf(g, ticket, started, timeout, now);
            && (outcome.Admitted? <==> |g.queue| > 0 && g.queue[0] == ticket && g.free > 0)
            && (outcome.Admitted? ==> started + outcome.waited == now)
            && (outcome.NotAdmitted? <==> !outcome.Admitted? && now >= started + timeout)
            && (outcome.Sleeps? ==> outcome.remaining > 0 && now + outcome.remaining == started + timeout)
  {
  }

  /** The gate as the object it is; every method is what one thread does in one hold of the lock, from waking up or
      arriving until it waits or leaves. */
  class FifoSlots {
    var free: int
    var queue: seq<nat>
    var inFlight: int
    var maxInFlight: int
    var arrived: nat
    ghost const slots: nat
    ghost var asleep: set<nat>
    ghost var admitted: seq<nat>
    ghost var left: set<nat>
    ghost var released: set<nat>

    ghost function View(): Gate
      reads this
    {
      Gate(slots, free, queue, inFlight, maxInFlight, asleep, arrived, admitted, left, released)
    }

    ghost predicate Valid()
      reads this
    {
      GateOk(View())
    }

    constructor (slots: nat)
      ensures Valid() && View() == NewGate(slots)
    {
      free, queue, inFlight, maxInFlight, arrived := slots, [], 0, 0, 0;
      this.slots, asleep, admitted, left, released := slots, {}, [], {}, {};
    }

    method Remove(ticket: nat)
      modifies this`queue
      ensures queue == Without(old(queue), ticket)
    {
      var i := 0;
      while i < |queue| && queue[i] != ticket
        invariant i <= |queue|
        invariant Without(queue, ticket) == queue[..i] + Without(queue[i..], ticket)
      {
        assert queue[i..][0] == queue[i] && queue[i..][1..] == queue[i + 1..];
        i := i + 1;
      }
      if i < |queue| {
        assert queue[i..][1..] == queue[i + 1..];
        queue := queue[..i] + queue[i + 1..];
      }
    }

    /** Take the slot at the head of the queue, give up, or wait; whoever stops waiting tells everybody. */
    method Look(ticket: nat, started: Time, timeout: int, now: Time) returns (outcome: Outcome)
      modifies this`free, this`queue, this`inFlight, this`maxInFlight, this`asleep, this`admitted, this`left
      ensures View() == Looked(old(View()), ticket, started + timeout - now <= 0)
      ensures outcome == OutcomeOf(old(View()), ticket, started, timeout, now)
    {
      if queue != [] && queue[0] == ticket && free > 0 {
        admitted := admitted + [ticket];
        queue := queue[1..];
        free := free - 1;
        inFlight := inFlight + 1;
        if maxInFlight < inFlight {
          maxInFlight := inFlight;
        }
        asleep := {};
        return Admitted(now - started);
      }
      var remaining := started + timeout - now;
      if remaining <= 0 {
        Remove(ticket);
        asleep, left := {}, left + {ticket};
        return NotAdmitted;
      }
      asleep := asleep + {ticket};
      outcome := Sleeps(remaining);
    }

    method Arrive(timeout: int, started: Time, now: Time) returns (ticket: nat, outcome: Outcome)
      requires Valid()
      modifies this
      ensures Valid() && ticket == old(arrived)
      ensures View() == NextGate(old(View()), Arrives(started + timeout - now <= 0))
    {
      GateStepKeeps(View(), Arrives(started + timeout - now <= 0));
      ticket := arrived;
      arrived := arrived + 1;
      queue := queue + [ticket];
      outcome := Look(ticket, started, timeout, now);
    }

    /** Awake again: told, timed out, or for no reason at all. */
    method LookAgain(ticket: nat, started: Time, timeout: int, now: Time) returns (outcome: Outcome)
      requires Valid() && ticket in queue
      modifies this
      ensures Valid() && View() == NextGate(old(View()), LooksAgain(ticket, started + timeout - now <= 0))
      ensures outcome == OutcomeOf(old(View()), ticket, started, timeout, now)
    {
      GateStepKeeps(View(), LooksAgain(ticket, started + timeout - now <= 0));
      asleep := asleep - {ticket};
      outcome := Look(ticket, started, timeout, now);
    }

    method Interrupt(ticket: nat)
      requires Valid() && ticket in queue
      modifies this
      ensures Valid() && View() == NextGate(old(View()), Interrupted(ticket))
    {
      GateStepKeeps(View(), Interrupted(ticket));
      Remove(ticket);
      asleep, left := {}, left + {ticket};
    }

    method Release(ghost ticket: nat)
      requires Valid() && Holds(View(), ticket)
      modifies this
      ensures Valid() && View() == NextGate(old(View()), Releases(ticket))
    {
      GateStepKeeps(View(), Releases(ticket));
      free := free + 1;
      inFlight := inFlight - 1;
      asleep, released := {}, released + {ticket};
    }
  }
}
