/** One live connector stream: requests in flight, the answers that meet them, and what each request comes to. */
module Sessions {
  import opened Text
  import opened Wire
  import opened Codecs

  type Payload = Bytes

  /** The event and answer a waiting request shares with whoever pops it: set to an answer, or to none when the session
      dropped. */
  datatype Slot = Unset | SetTo(answer: Option<Payload>)

  datatype Outcome = Answered(payload: Payload) | TimedOut | Refused | Dropped

  /** Where a request is: about to send its frame, waiting, past its deadline and about to give up, or over. */
  datatype Phase = Sending(payload: Payload) | Waiting | Expired | Over(outcome: Outcome)

  datatype Frame = Frame(id: nat, payload: Payload)

  /** `popped` are the requests taken out of `pending` whose slot is about to be set, with what it will be set to;
      `answers` is every answer that ever arrived. */
  datatype Session = Session(closed: bool, pending: set<nat>, popped: map<nat, Option<Payload>>, slots: map<nat, Slot>,
                             phases: map<nat, Phase>, outgoing: seq<Option<Frame>>, answers: seq<Frame>)

  const OPENED := Session(false, {}, map[], map[], map[], [], [])

  datatype SessionStep =
    | Requests(id: nat, payload: Payload)
    | Sends(id: nat)
    | Resolves(id: nat, payload: Payload)
    | Closes
    | Sets(id: nat)
    | Expires(id: nat)
    | GivesUp(id: nat)
    | Returns(id: nat)

  /** A request enters the table of pending ones, unless the session is closed. */
  function Request(s: Session, id: nat, payload: Payload): Session {
    if s.closed then s.(phases := s.phases[id := Over(Refused)])
    else s.(pending := s.pending + {id}, slots := s.slots[id := Unset], phases := s.phases[id := Sending(payload)])
  }

  function Send(s: Session, id: nat): Session
    requires id in s.phases && s.phases[id].Sending?
  {
    s.(outgoing := s.outgoing + [Some(Frame(id, s.phases[id].payload))], phases := s.phases[id := Waiting])
  }

  /** An answer takes its request out of the table; the answer to a request that already ended is discarded. */
  function Resolve(s: Session, id: nat, payload: Payload): Session {
    var arrived := s.(answers := s.answers + [Frame(id, payload)]);
    if id in s.pending then arrived.(pending := s.pending - {id}, popped := s.popped[id := Some(payload)]) else arrived
  }

  function Close(s: Session): Session {
    s.(closed := true, pending := {}, popped := s.popped + map id | id in s.pending :: None,
       outgoing := s.outgoing + [None])
  }

  function SetSlot(s: Session, id: nat): Session
    requires id in s.popped
  {
    s.(slots := s.slots[id := SetTo(s.popped[id])], popped := s.popped - {id})
  }

  function GiveUp(s: Session, id: nat): Session {
    s.(pending := s.pending - {id}, phases := s.phases[id := Over(TimedOut)])
  }

  function OutcomeOf(slot: Slot): Outcome
    requires slot.SetTo?
  {
    if slot.answer.None? then Dropped else Answered(slot.answer.value)
  }

  /** A request is made once, under a number of its own; every other step happens only where its thread stands. */
  predicate SessionEnabled(s: Session, step: SessionStep) {
    match step
    case Requests(id, _) => id !in s.phases
    case Sends(id) => id in s.phases && s.phases[id].Sending?
    case Resolves(_, _) => true
    case Closes => true
    case Sets(id) => id in s.popped
    case Expires(id) => id in s.phases && s.phases[id] == Waiting && id in s.slots && s.slots[id].Unset?
    case GivesUp(id) => id in s.phases && s.phases[id] == Expired
    case Returns(id) => id in s.phases && s.phases[id] == Waiting && id in s.slots && s.slots[id].SetTo?
  }

  function NextSession(s: Session, step: SessionStep): Session
    requires SessionEnabled(s, step)
  {
    match step
    case Requests(id, payload) => Request(s, id, payload)
    case Sends(id) => Send(s, id)
    case Resolves(id, payload) => Resolve(s, id, payload)
    case Closes => Close(s)
    case Sets(id) => SetSlot(s, id)
    case Expires(id) => s.(phases := s.phases[id := Expired])
    case GivesUp(id) => GiveUp(s, id)
    case Returns(id) => s.(phases := s.phases[id := Over(OutcomeOf(s.slots[id]))])
  }

  // ---- what one request may come to -----------------------------------------------------------

  predicate Live(s: Session, id: nat) {
    id in s.phases && !s.phases[id].Over?
  }

  predicate Came(s: Session, id: nat, answer: Option<Payload>) {
    answer.Some? ==> Frame(id, answer.value) in s.answers
  }

  /** Everything known of one request number, whatever else is going on. */
  predicate RequestOk(s: Session, id: nat) {
    && (id in s.pending ==> !s.closed && Live(s, id) && id in s.slots && s.slots[id].Unset? && id !in s.popped)
    && (id in s.popped ==> id in s.slots && s.slots[id].Unset? && Came(s, id, s.popped[id])
                           && (s.popped[id].None? ==> s.closed))
    && (id in s.slots && s.slots[id].SetTo? ==>
          Came(s, id, s.slots[id].answer) && (s.slots[id].answer.None? ==> s.closed))
    && (Live(s, id) ==> id in s.slots && (id in s.pending || id in s.popped || s.slots[id].SetTo?))
    && (id in s.phases && s.phases[id].Over? ==>
          id !in s.pending
          && match s.phases[id].outcome
             case Answered(payload) => Frame(id, payload) in s.answers
             case TimedOut => true
             case Refused => s.closed
             case Dropped => s.closed)
    && (id !in s.phases ==> id !in s.slots && id !in s.pending && id !in s.popped)
  }

  ghost predicate SessionOk(s: Session) {
    forall id :: RequestOk(s, id)
  }

  lemma {:induction false} SessionStepKeeps(s: Session, step: SessionStep)
    requires SessionOk(s) && SessionEnabled(s, step)
    ensures SessionOk(NextSession(s, step))
  {
    forall id ensures RequestOk(NextSession(s, step), id) {
      RequestStepKeeps(s, step, id);
    }
  }

  lemma {:induction false} RequestStepKeeps(s: Session, step: SessionStep, id: nat)
    requires RequestOk(s, id) && SessionEnabled(s, step)
    ensures RequestOk(NextSession(s, step), id)
  {
    var n := NextSession(s, step);
    assert forall f :: f in s.answers ==> f in n.answers;
    if step.Resolves? {
      assert n.answers[|s.answers|] == Frame(step.id, step.payload);
    }
  }

  predicate SessionMoves(states: seq<Session>, steps: seq<SessionStep>, i: nat)
    requires i < |steps| && |states| == |steps| + 1
  {
    SessionEnabled(states[i], steps[i]) && states[i + 1] == NextSession(states[i], steps[i])
  }

  predicate IsSessionRun(states: seq<Session>, steps: seq<SessionStep>) {
    && |states| == |steps| + 1 && states[0] == OPENED
    && forall i :: 0 <= i < |steps| ==> SessionMoves(states, steps, i)
  }

  lemma {:induction false} SessionStaysOk(states: seq<Session>, steps: seq<SessionStep>, n: nat)
    requires IsSessionRun(states, steps) && n <= |steps|
    ensures SessionOk(states[n])
  {
    if n > 0 {
      SessionStaysOk(states, steps, n - 1);
      assert SessionMoves(states, steps, n - 1);
      SessionStepKeeps(states[n - 1], steps[n - 1]);
    }
  }

  lemma {:induction false} OverStays(s: Session, step: SessionStep, id: nat)
    requires SessionEnabled(s, step) && id in s.phases && s.phases[id].Over?
    ensures var n := NextSession(s, step); id in n.phases && n.phases[id] == s.phases[id]
  {
  }

  /** A request ends at most once: whatever happens afterwards, its outcome is the one it had. */
  lemma {:induction false} OneOutcome(states: seq<Session>, steps: seq<SessionStep>, i: nat, n: nat, id: nat)
    requires IsSessionRun(states, steps) && i <= n <= |steps|
    requires id in states[i].phases && states[i].phases[id].Over?
    ensures id in states[n].phases && states[n].phases[id] == states[i].phases[id]
  {
    if i < n {
      OneOutcome(states, steps, i, n - 1, id);
      assert SessionMoves(states, steps, n - 1);
      OverStays(states[n - 1], steps[n - 1], id);
    }
  }

  /** The answer a request returns arrived under its own number, and only a closed session drops or refuses one. */
  lemma {:induction false} AnswerIsItsOwn(states: seq<Session>, steps: seq<SessionStep>, n: nat, id: nat)
    requires IsSessionRun(states, steps) && n <= |steps|
    requires id in states[n].phases && states[n].phases[id].Over?
    ensures match states[n].phases[id].outcome
            case Answered(payload) => Frame(id, payload) in states[n].answers
            case TimedOut => true
            case Refused => states[n].closed
            case Dropped => states[n].closed
  {
    SessionStaysOk(states, steps, n);
    assert RequestOk(states[n], id);
  }

  /** The step a request with this outcome ended at: its deadline, its return once told, or being asked of a closed
      session. */
  predicate EndsAs(states: seq<Session>, steps: seq<SessionStep>, k: nat, id: nat, outcome: Outcome)
    requires k < |steps| && |states| == |steps| + 1
  {
    match outcome
    case TimedOut => steps[k] == GivesUp(id)
    case Refused => steps[k].Requests? && steps[k].id == id && states[k].closed
    case _ => steps[k] == Returns(id)
  }

  /** Over every run: a request times out only at its own deadline, is refused only by a session already closed, and is
      answered or dropped only once it was told. */
  lemma {:induction false} OutcomeHasItsStep(states: seq<Session>, steps: seq<SessionStep>, n: nat, id: nat)
    requires IsSessionRun(states, steps) && n <= |steps|
    requires id in states[n].phases && states[n].phases[id].Over?
    ensures exists k :: 0 <= k < n && EndsAs(states, steps, k, id, states[n].phases[id].outcome)
  {
    if n > 0 {
      var s := states[n - 1];
      assert SessionMoves(states, steps, n - 1);
      if id in s.phases && s.phases[id].Over? {
        OutcomeHasItsStep(states, steps, n - 1, id);
        OverStays(s, steps[n - 1], id);
      } else {
        assert EndsAs(states, steps, n - 1, id, states[n].phases[id].outcome);
      }
    }
  }

  /** Once the session is closed nothing is pending, for good; and every request still open has its slot set, or about
      to be: nobody waits for an answer that cannot come. */
  lemma {:induction false} NothingPendsAfterClose(states: seq<Session>, steps: seq<SessionStep>, n: nat)
    requires IsSessionRun(states, steps) && n <= |steps| && states[n].closed
    ensures states[n].pending == {}
    ensures forall id :: Live(states[n], id) ==>
              id in states[n].slots && (states[n].slots[id].SetTo? || SessionEnabled(states[n], Sets(id)))
  {
    SessionStaysOk(states, steps, n);
    forall id ensures id !in states[n].pending {
      assert RequestOk(states[n], id);
    }
    forall id | Live(states[n], id)
      ensures id in states[n].slots && (states[n].slots[id].SetTo? || SessionEnabled(states[n], Sets(id))) {
      assert RequestOk(states[n], id);
    }
  }

  /** What happens to one request never depends on the others: only its own steps, an answer to its number or the end of
      the session touch it. */
  lemma {:induction false} OnlyItsOwn(s: Session, step: SessionStep, id: nat)
    requires SessionEnabled(s, step) && step != Closes && step.id != id
    ensures var n := NextSession(s, step);
            && (id in n.pending <==> id in s.pending) && (id in n.slots <==> id in s.slots)
            && (id in s.slots ==> n.slots[id] == s.slots[id])
            && (id in n.phases <==> id in s.phases) && (id in s.phases ==> n.phases[id] == s.phases[id])
            && (id in n.popped <==> id in s.popped) && (id in s.popped ==> n.popped[id] == s.popped[id])
  {
  }

  /** How far a request is from its end. */
  function StepsLeft(s: Session, id: nat): nat {
    if id !in s.phases then 4
    else match s.phases[id]
      case Sending(_) => 3
      case Waiting => 2
      case Expired => 1
      case Over(_) => 0
  }

  /** The step a request's own thread can take now: send, give up, or return or expire as its slot is. */
  function OwnStep(s: Session, id: nat): SessionStep
    requires Live(s, id) && id in s.slots
  {
    match s.phases[id]
    case Sending(_) => Sends(id)
    case Waiting => if s.slots[id].SetTo? then Returns(id) else Expires(id)
    case Expired => GivesUp(id)
  }

  /** Every request comes to its end: in every reachable state an open one has a step of its own, which brings the end
      nearer, and no step whatever takes a request back. */
  lemma {:induction false} EveryRequestEnds(states: seq<Session>, steps: seq<SessionStep>, n: nat, id: nat,
                                            other: SessionStep)
    requires IsSessionRun(states, steps) && n <= |steps| && Live(states[n], id) && SessionEnabled(states[n], other)
    ensures var s := states[n];
            && id in s.slots && SessionEnabled(s, OwnStep(s, id))
            && StepsLeft(NextSession(s, OwnStep(s, id)), id) < StepsLeft(s, id)
            && StepsLeft(NextSession(s, other), id) <= StepsLeft(s, id)
  {
    SessionStaysOk(states, steps, n);
    assert RequestOk(states[n], id);
  }

  // ---- the frames sent ------------------------------------------------------------------------

  predicate IsFrameOf(s: Session, k: nat, id: nat) {
    k < |s.outgoing| && s.outgoing[k].Some? && s.outgoing[k].value.id == id
  }

  /** Where a request has its frame: sent once, when its thread stands past sending it, unless it was refused. */
  predicate HasSent(s: Session, id: nat) {
    id in s.phases && !s.phases[id].Sending? && s.phases[id] != Over(Refused)
  }

  predicate SentOk(s: Session, id: nat) {
    && (HasSent(s, id) <==> exists k :: 0 <= k < |s.outgoing| && IsFrameOf(s, k, id))
    && forall k, l :: 0 <= k < |s.outgoing| && 0 <= l < |s.outgoing| && IsFrameOf(s, k, id) && IsFrameOf(s, l, id) ==>
         k == l
  }

  lemma {:induction false} SendKeeps(s: Session, id: nat, at: nat)
    requires SentOk(s, id) && at in s.phases && s.phases[at].Sending?
    ensures SentOk(Send(s, at), id)
  {
    var n := Send(s, at);
    assert forall k :: 0 <= k < |s.outgoing| ==> (IsFrameOf(n, k, id) <==> IsFrameOf(s, k, id));
    assert IsFrameOf(n, |s.outgoing|, id) <==> id == at;
  }

  lemma {:induction false} CloseKeeps(s: Session, id: nat)
    requires SentOk(s, id)
    ensures SentOk(Close(s), id)
  {
    var n := Close(s);
    assert forall k :: 0 <= k < |s.outgoing| ==> (IsFrameOf(n, k, id) <==> IsFrameOf(s, k, id));
    assert !IsFrameOf(n, |s.outgoing|, id);
  }

  lemma {:induction false} QuietKeeps(s: Session, n: Session, id: nat)
    requires SentOk(s, id) && n.outgoing == s.outgoing && (HasSent(n, id) <==> HasSent(s, id))
    ensures SentOk(n, id)
  {
    assert forall k :: 0 <= k < |s.outgoing| ==> (IsFrameOf(n, k, id) <==> IsFrameOf(s, k, id));
  }

  lemma {:induction false} StepKeepsSent(s: Session, step: SessionStep, id: nat)
    requires SessionEnabled(s, step) && SentOk(s, id)
    ensures SentOk(NextSession(s, step), id)
  {
    hide SentOk;
    match step {
      case Sends(at) => SendKeeps(s, id, at);
      case Closes => CloseKeeps(s, id);
      case _ => QuietKeeps(s, NextSession(s, step), id);
    }
  }

  /** A payload a request may still send, or has sent, is the one it was made with. */
  predicate AskedOk(s: Session, steps: seq<SessionStep>, n: nat)
    requires n <= |steps|
  {
    && (forall k :: 0 <= k < |s.outgoing| && s.outgoing[k].Some? ==>
          Requests(s.outgoing[k].value.id, s.outgoing[k].value.payload) in steps[..n])
    && forall id :: id in s.phases && s.phases[id].Sending? ==> Requests(id, s.phases[id].payload) in steps[..n]
  }

  lemma {:induction false} StepKeepsAsked(s: Session, steps: seq<SessionStep>, n: nat)
    requires n < |steps| && SessionEnabled(s, steps[n]) && AskedOk(s, steps, n)
    ensures AskedOk(NextSession(s, steps[n]), steps, n + 1)
  {
    assert steps[..n + 1] == steps[..n] + [steps[n]];
    assert steps[n] in steps[..n + 1];
    hide Resolve, SetSlot, OutcomeOf;
  }

  /** Over every run: a frame is on its way exactly for each request made and past sending, not refused; just one, with
      the payload the request was made with. */
  lemma {:induction false} FramesAreRequests(states: seq<Session>, steps: seq<SessionStep>, n: nat, id: nat)
    requires IsSessionRun(states, steps) && n <= |steps|
    ensures SentOk(states[n], id) && AskedOk(states[n], steps, n)
  {
    hide SentOk, AskedOk, SessionEnabled, NextSession;
    if n > 0 {
      FramesAreRequests(states, steps, n - 1, id);
      assert SessionMoves(states, steps, n - 1);
      StepKeepsSent(states[n - 1], steps[n - 1], id);
      StepKeepsAsked(states[n - 1], steps, n - 1);
    } else {
      NothingSent(steps, id);
    }
  }

  /** The sender is told to stop exactly once the session is closed. */
  lemma {:induction false} EndIsMarked(states: seq<Session>, steps: seq<SessionStep>, n: nat)
    requires IsSessionRun(states, steps) && n <= |steps|
    ensures states[n].closed <==> None in states[n].outgoing
  {
    if n > 0 {
      EndIsMarked(states, steps, n - 1);
      assert SessionMoves(states, steps, n - 1);
      var s := states[n - 1];
      if steps[n - 1] == Closes {
        assert Close(s).outgoing[|s.outgoing|] == None;
      }
      assert None in s.outgoing ==> None in states[n].outgoing;
    }
  }

  lemma {:induction false} NothingSent(steps: seq<SessionStep>, id: nat)
    ensures SentOk(OPENED, id) && AskedOk(OPENED, steps, 0)
  {
  }

  /** The session as the object it is; a request's slot is named by the request's number. Every method is what one
      thread does without another being able to come between. */
  class LiveSession {
    var closed: bool
    var pending: set<nat>
    var slots: map<nat, Slot>
    var outgoing: seq<Option<Frame>>
    ghost var popped: map<nat, Option<Payload>>
    ghost var phases: map<nat, Phase>
    ghost var answers: seq<Frame>

    ghost function View(): Session
      reads this
    {
      Session(closed, pending, popped, slots, phases, outgoing, answers)
    }

    ghost predicate Valid()
      reads this
    {
      SessionOk(View())
    }

    constructor ()
      ensures Valid() && View() == OPENED
    {
      closed, pending, slots, outgoing, popped, phases, answers := false, {}, map[], [], map[], map[], [];
    }

    method Register(id: nat, payload: Payload) returns (ok: bool)
      requires Valid() && SessionEnabled(View(), Requests(id, payload))
      modifies this
      ensures Valid() && View() == NextSession(old(View()), Requests(id, payload)) && ok == !old(closed)
    {
      SessionStepKeeps(View(), Requests(id, payload));
      if closed {
        phases := phases[id := Over(Refused)];
        return false;
      }
      slots := slots[id := Unset];
      pending := pending + {id};
      phases := phases[id := Sending(payload)];
      ok := true;
    }

    method Put(id: nat, payload: Payload)
      requires Valid() && id in phases && phases[id] == Sending(payload)
      modifies this
      ensures Valid() && View() == NextSession(old(View()), Sends(id))
    {
      SessionStepKeeps(View(), Sends(id));
      outgoing := outgoing + [Some(Frame(id, payload))];
      phases := phases[id := Waiting];
    }

    /** What a request that stopped waiting, told or at its deadline, comes to. */
    method Finish(id: nat, told: bool) returns (outcome: Outcome)
      requires Valid() && (if told then SessionEnabled(View(), Returns(id)) else SessionEnabled(View(), GivesUp(id)))
      modifies this
      ensures Valid() && View() == NextSession(old(View()), if told then Returns(id) else GivesUp(id))
      ensures id in phases && phases[id] == Over(outcome)
    {
      SessionStepKeeps(View(), if told then Returns(id) else GivesUp(id));
      if !told {
        pending := pending - {id};
        outcome := TimedOut;
      } else if slots[id].answer.None? {
        outcome := Dropped;
      } else {
        outcome := Answered(slots[id].answer.value);
      }
      phases := phases[id := Over(outcome)];
    }

    method TakeAnswer(id: nat, payload: Payload) returns (found: bool)
      requires Valid()
      modifies this
      ensures Valid() && View() == NextSession(old(View()), Resolves(id, payload)) && found == (id in old(pending))
    {
      SessionStepKeeps(View(), Resolves(id, payload));
      found := id in pending;
      answers := answers + [Frame(id, payload)];
      if found {
        pending := pending - {id};
        popped := popped[id := Some(payload)];
      }
    }

    /** Tell the request popped under this number. */
    method Tell(id: nat, answer: Option<Payload>)
      requires Valid() && id in popped && popped[id] == answer
      modifies this
      ensures Valid() && View() == NextSession(old(View()), Sets(id))
    {
      SessionStepKeeps(View(), Sets(id));
      slots := slots[id := SetTo(answer)];
      popped := popped - {id};
    }

    /** Close the session: nothing is left pending, and whoever waited is returned to be told. */
    method Shut() returns (waiting: set<nat>)
      requires Valid()
      modifies this
      ensures Valid() && View() == NextSession(old(View()), Closes)
      ensures waiting == old(pending) && forall id :: id in waiting ==> id in popped && popped[id] == None
    {
      SessionStepKeeps(View(), Closes);
      closed := true;
      waiting := pending;
      popped := popped + map id | id in pending :: None;
      pending := {};
      outgoing := outgoing + [None];
    }
  }
}
