/** The gateway's table of live sessions, one entry an identity, as sessions open, supersede one another and end. */
module Gateways {
  import opened Text
  import opened Wire

  /** A session: ending once its stream is over, finished once it has cleaned up behind itself. */
  datatype Entry = Entry(identity: string, closed: bool, ending: bool, finished: bool)

  /** Sessions are numbered in the order they count; `superseded` are those a newer one has replaced and is about to
      close. */
  datatype Gateway = Gateway(table: map<string, nat>, sessions: seq<Entry>, superseded: set<nat>)

  const STARTED := Gateway(map[], [], {})

  datatype GatewayStep =
    | Opens(identity: string)
    | ClosesSuperseded(session: nat)
    | Closes(session: nat)
    | Ends(session: nat)
    | CleansUp(session: nat)

  /** A new session takes its identity's entry, whoever had it. */
  function Open(g: Gateway, identity: string): Gateway {
    g.(table := g.table[identity := |g.sessions|],
       sessions := g.sessions + [Entry(identity, false, false, false)],
       superseded := if identity in g.table then g.superseded + {g.table[identity]} else g.superseded)
  }

  function CloseSession(g: Gateway, session: nat): Gateway
    requires session < |g.sessions|
  {
    g.(sessions := g.sessions[session := g.sessions[session].(closed := true)])
  }

  /** A session removes the entry of its identity only if the entry is its own. */
  function CleanUp(g: Gateway, session: nat): Gateway
    requires session < |g.sessions|
  {
    var s := g.sessions[session];
    g.(sessions := g.sessions[session := s.(finished := true)],
       table := if s.identity in g.table && g.table[s.identity] == session then g.table - {s.identity} else g.table)
  }

  predicate GatewayEnabled(g: Gateway, step: GatewayStep) {
    match step
    case Opens(_) => true
    case ClosesSuperseded(session) => session in g.superseded && session < |g.sessions|
    case Closes(session) => session < |g.sessions|
    case Ends(session) => session < |g.sessions| && !g.sessions[session].ending
    case CleansUp(session) => session < |g.sessions| && g.sessions[session].ending && !g.sessions[session].finished
  }

  function NextGateway(g: Gateway, step: GatewayStep): Gateway
    requires GatewayEnabled(g, step)
  {
    match step
    case Opens(identity) => Open(g, identity)
    case ClosesSuperseded(session) => CloseSession(g, session).(superseded := g.superseded - {session})
    case Closes(session) => CloseSession(g, session)
    case Ends(session) =>
      var closed := CloseSession(g, session);
      closed.(sessions := closed.sessions[session := closed.sessions[session].(ending := true)])
    case CleansUp(session) => CleanUp(g, session)
  }

  predicate Newest(g: Gateway, session: nat) {
    && session < |g.sessions|
    && forall k :: session < k < |g.sessions| ==> g.sessions[k].identity != g.sessions[session].identity
  }

  /** The identity's entry is its newest session, as long as that one has not finished. */
  predicate EntryOk(g: Gateway, session: nat)
    requires session < |g.sessions|
  {
    var s := g.sessions[session];
    && (s.identity in g.table && g.table[s.identity] == session <==> Newest(g, session) && !s.finished)
    && (!Newest(g, session) ==> s.closed || session in g.superseded || s.finished)
    && (s.ending ==> s.closed) && (s.finished ==> s.ending)
  }

  predicate GatewayOk(g: Gateway) {
    && (forall session :: 0 <= session < |g.sessions| ==> EntryOk(g, session))
    && (forall i :: i in g.table ==> g.table[i] < |g.sessions| && g.sessions[g.table[i]].identity == i)
  }

  lemma {:induction false} OpenKeepsEntry(g: Gateway, identity: string, session: nat)
    requires GatewayOk(g) && session < |g.sessions|
    ensures EntryOk(Open(g, identity), session)
  {
    var n := Open(g, identity);
    assert EntryOk(g, session);
    assert n.sessions[session] == g.sessions[session] && n.sessions[|g.sessions|].identity == identity;
    if g.sessions[session].identity != identity {
      assert forall k :: 0 <= k < |g.sessions| ==> n.sessions[k] == g.sessions[k];
      assert Newest(n, session) <==> Newest(g, session);
    } else {
      assert !Newest(n, session);
    }
  }

  lemma {:induction false} SameEntries(g: Gateway, n: Gateway, session: nat)
    requires GatewayOk(g) && session < |g.sessions| && |n.sessions| == |g.sessions| && n.table == g.table
    requires forall k :: 0 <= k < |g.sessions| ==> n.sessions[k].identity == g.sessions[k].identity
    requires n.sessions[session].finished == g.sessions[session].finished
    requires g.sessions[session].closed ==> n.sessions[session].closed
    requires session in g.superseded ==> n.sessions[session].closed || session in n.superseded
    requires n.sessions[session].ending ==> n.sessions[session].closed
    requires g.sessions[session].ending ==> n.sessions[session].ending
    ensures EntryOk(n, session)
  {
    assert EntryOk(g, session);
    assert Newest(n, session) <==> Newest(g, session);
  }

  lemma {:induction false} CleanUpKeepsEntry(g: Gateway, done: nat, session: nat)
    requires GatewayOk(g) && session < |g.sessions| && GatewayEnabled(g, CleansUp(done))
    ensures EntryOk(CleanUp(g, done), session)
  {
    var n := CleanUp(g, done);
    assert EntryOk(g, session) && EntryOk(g, done);
    assert forall k :: 0 <= k < |g.sessions| ==> n.sessions[k].identity == g.sessions[k].identity;
    assert Newest(n, session) <==> Newest(g, session);
  }

  lemma {:induction false} GatewayStepKeeps(g: Gateway, step: GatewayStep)
    requires GatewayOk(g) && GatewayEnabled(g, step)
    ensures GatewayOk(NextGateway(g, step))
  {
    var n := NextGateway(g, step);
    forall session | 0 <= session < |g.sessions| ensures EntryOk(n, session) {
      assert EntryOk(g, session);
      match step {
        case Opens(identity) => OpenKeepsEntry(g, identity, session);
        case CleansUp(done) => CleanUpKeepsEntry(g, done, session);
        case _ => SameEntries(g, n, session);
      }
    }
    if step.Opens? {
      assert Newest(n, |g.sessions|);
    }
  }

  predicate GatewayMoves(states: seq<Gateway>, steps: seq<GatewayStep>, i: nat)
    requires i < |steps| && |states| == |steps| + 1
  {
    GatewayEnabled(states[i], steps[i]) && states[i + 1] == NextGateway(states[i], steps[i])
  }

  predicate IsGatewayRun(states: seq<Gateway>, steps: seq<GatewayStep>) {
    && |states| == |steps| + 1 && states[0] == STARTED
    && forall i :: 0 <= i < |steps| ==> GatewayMoves(states, steps, i)
  }

  lemma {:induction false} GatewayStaysOk(states: seq<Gateway>, steps: seq<GatewayStep>, n: nat)
    requires IsGatewayRun(states, steps) && n <= |steps|
    ensures GatewayOk(states[n])
  {
    if n > 0 {
      GatewayStaysOk(states, steps, n - 1);
      assert GatewayMoves(states, steps, n - 1);
      GatewayStepKeeps(states[n - 1], steps[n - 1]);
    }
  }

  /** In every interleaving: an identity's entry is a session exactly when that is its newest session and has not
      finished; so an older session's cleanup never removes its successor, and requests only ever go to the newest. */
  lemma {:induction false} EntryIsNewest(states: seq<Gateway>, steps: seq<GatewayStep>, n: nat, identity: string,
                                         session: nat)
    requires IsGatewayRun(states, steps) && n <= |steps|
    ensures var g := states[n];
            identity in g.table && g.table[identity] == session
            <==> Newest(g, session) && g.sessions[session].identity == identity && !g.sessions[session].finished
  {
    GatewayStaysOk(states, steps, n);
    EntryMeans(states[n], identity, session);
  }

  lemma {:induction false} EntryMeans(g: Gateway, identity: string, session: nat)
    requires GatewayOk(g)
    ensures identity in g.table && g.table[identity] == session
            <==> Newest(g, session) && g.sessions[session].identity == identity && !g.sessions[session].finished
  {
    if session < |g.sessions| {
      assert EntryOk(g, session);
    }
  }

  /** A superseded session is closed, or is about to be. */
  lemma {:induction false} SupersededIsClosed(states: seq<Gateway>, steps: seq<GatewayStep>, n: nat, session: nat)
    requires IsGatewayRun(states, steps) && n <= |steps|
    requires session < |states[n].sessions| && !Newest(states[n], session)
    ensures states[n].sessions[session].closed || GatewayEnabled(states[n], ClosesSuperseded(session))
  {
    GatewayStaysOk(states, steps, n);
    assert EntryOk(states[n], session);
  }

  /** The newest of an identity's sessions that have not finished. */
  predicate NewestLive(g: Gateway, session: nat) {
    && session < |g.sessions| && !g.sessions[session].finished
    && forall k :: session < k < |g.sessions| && g.sessions[k].identity == g.sessions[session].identity ==>
                     g.sessions[k].finished
  }

  /** The entry is not always the newest session that has not finished: it is for the sessions that nothing has
      superseded, and for no other. */
  lemma {:induction false} EntryIsNewestLiveExactly(states: seq<Gateway>, steps: seq<GatewayStep>, n: nat, session: nat)
    requires IsGatewayRun(states, steps) && n <= |steps| && NewestLive(states[n], session)
    ensures var g, s := states[n], states[n].sessions[session];
            s.identity in g.table && g.table[s.identity] == session <==> Newest(g, session)
  {
    GatewayStaysOk(states, steps, n);
    assert EntryOk(states[n], session);
  }

  /** A session opens, another supersedes it, and the newer one ends first: the older one lives on without an entry. */
  lemma {:induction false} OlderIsNotReinstated(identity: string)
    ensures var steps := [Opens(identity), Opens(identity), Ends(1), CleansUp(1)];
            exists states: seq<Gateway> ::
              IsGatewayRun(states, steps) && NewestLive(states[4], 0) && identity !in states[4].table
  {
    var steps := [Opens(identity), Opens(identity), Ends(1), CleansUp(1)];
    var one := Open(STARTED, identity);
    var two := Open(one, identity);
    var ended := NextGateway(two, Ends(1));
    var states := [STARTED, one, two, ended, NextGateway(ended, CleansUp(1))];
    assert GatewayMoves(states, steps, 0) && GatewayMoves(states, steps, 1);
    assert GatewayMoves(states, steps, 2) && GatewayMoves(states, steps, 3);
    assert IsGatewayRun(states, steps);
  }

  /** The table as the object it is. */
  class ConnectorGateway {
    var table: map<string, nat>
    ghost var sessions: seq<Entry>
    ghost var superseded: set<nat>
    var count: nat

    ghost function View(): Gateway
      reads this
    {
      Gateway(table, sessions, superseded)
    }

    ghost predicate Valid()
      reads this
    {
      GatewayOk(View()) && count == |sessions|
    }

    constructor ()
      ensures Valid() && View() == STARTED
    {
      table, sessions, superseded, count := map[], [], {}, 0;
    }

    /** Enter a new session, and say which one it supersedes. */
    method Enter(identity: string) returns (session: nat, previous: Option<nat>)
      requires Valid()
      modifies this
      ensures Valid() && View() == NextGateway(old(View()), Opens(identity)) && session == old(count)
      ensures previous == if identity in old(table) then Some(old(table)[identity]) else None
    {
      GatewayStepKeeps(View(), Opens(identity));
      session := count;
      previous := if identity in table then Some(table[identity]) else None;
      if previous.Some? {
        superseded := superseded + {previous.value};
      }
      table := table[identity := session];
      sessions := sessions + [Entry(identity, false, false, false)];
      count := count + 1;
    }

    method Leave(identity: string, session: nat)
      requires Valid() && GatewayEnabled(View(), CleansUp(session)) && sessions[session].identity == identity
      modifies this
      ensures Valid() && View() == NextGateway(old(View()), CleansUp(session))
    {
      GatewayStepKeeps(View(), CleansUp(session));
      if identity in table && table[identity] == session {
        table := table - {identity};
      }
      sessions := sessions[session := sessions[session].(finished := true)];
    }

    /** Where a request to this identity goes. */
    method Lookup(identity: string) returns (session: Option<nat>)
      requires Valid()
      ensures session.Some? ==> Newest(View(), session.value) && sessions[session.value].identity == identity
                                && !sessions[session.value].finished
      ensures session.None? ==> forall s: nat :: Newest(View(), s) && sessions[s].identity == identity ==>
                                                   sessions[s].finished
    {
      session := if identity in table then Some(table[identity]) else None;
      forall s: nat | s < |sessions|
        ensures identity in table && table[identity] == s
                <==> Newest(View(), s) && sessions[s].identity == identity && !sessions[s].finished {
        EntryMeans(View(), identity, s);
      }
    }
  }
}
