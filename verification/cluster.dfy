/** A cluster as one log of changes per scope, and what listing or replaying a part of a log yields. */
module Cluster {
  import opened Text
  import opened Wire

  datatype Change = Change(at: nat, deleted: bool, body: Body)

  /** The key a body has in its scope: Events go by their own identity, and denied kinds are invisible. */
  function KeyIn(scope: Scope, body: Body): Option<string> {
    if Denied(body) then None else if scope.kind == "Event" then Some(EventKey(body)) else ObjectKey(body)
  }

  function Occur(state: map<string, Body>, scope: Scope, change: Change): map<string, Body> {
    var key := KeyIn(scope, change.body);
    if key.None? then state
    else if change.deleted then state - {key.value} else state[key.value := change.body]
  }

  /** The changes after version v, applied to a state. */
  function Replay(base: map<string, Body>, scope: Scope, log: seq<Change>, v: nat): map<string, Body> {
    if log == [] then base
    else
      var before := Replay(base, scope, log[..|log| - 1], v);
      if log[|log| - 1].at > v then Occur(before, scope, log[|log| - 1]) else before
  }

  /** What a listing of the scope at version v returns. */
  function ListedAt(scope: Scope, log: seq<Change>, v: nat): map<string, Body> {
    if log == [] then map[]
    else
      var before := ListedAt(scope, log[..|log| - 1], v);
      if log[|log| - 1].at <= v then Occur(before, scope, log[|log| - 1]) else before
  }

  function CurrentState(scope: Scope, log: seq<Change>): map<string, Body> {
    if log == [] then map[] else Occur(CurrentState(scope, log[..|log| - 1]), scope, log[|log| - 1])
  }

  predicate SameAt(m: map<string, Body>, n: map<string, Body>, key: string) {
    (key in m <==> key in n) && (key in m && key in n ==> m[key] == n[key])
  }

  ghost predicate Touched(scope: Scope, log: seq<Change>, v: nat, key: string) {
    exists i :: 0 <= i < |log| && log[i].at > v && KeyIn(scope, log[i].body) == Some(key)
  }

  ghost predicate Ordered(log: seq<Change>) {
    forall i, j :: 0 <= i < j < |log| ==> log[i].at < log[j].at
  }

  lemma {:induction false} TouchedLast(scope: Scope, log: seq<Change>, v: nat, key: string)
    requires log != []
    ensures Touched(scope, log, v, key) <==>
            Touched(scope, log[..|log| - 1], v, key)
            || (log[|log| - 1].at > v && KeyIn(scope, log[|log| - 1].body) == Some(key))
  {
    var front := log[..|log| - 1];
    if Touched(scope, front, v, key) {
      var i :| 0 <= i < |front| && front[i].at > v && KeyIn(scope, front[i].body) == Some(key);
      assert log[i] == front[i];
    }
    if Touched(scope, log, v, key) {
      var i :| 0 <= i < |log| && log[i].at > v && KeyIn(scope, log[i].body) == Some(key);
      assert i < |front| ==> front[i] == log[i];
    }
  }

  /** A change overwrites its own key and no other. */
  lemma {:induction false} OccurSame(m: map<string, Body>, n: map<string, Body>, scope: Scope, change: Change,
                                     key: string)
    ensures KeyIn(scope, change.body) == Some(key) ==> SameAt(Occur(m, scope, change), Occur(n, scope, change), key)
    ensures KeyIn(scope, change.body) != Some(key) ==> SameAt(Occur(m, scope, change), m, key)
  {
  }

  lemma {:induction false} ReplayUntouched(base: map<string, Body>, scope: Scope, log: seq<Change>, v: nat, key: string)
    requires !Touched(scope, log, v, key)
    ensures SameAt(Replay(base, scope, log, v), base, key)
  {
    if log != [] {
      TouchedLast(scope, log, v, key);
      var front, last := log[..|log| - 1], log[|log| - 1];
      ReplayUntouched(base, scope, front, v, key);
      OccurSame(Replay(base, scope, front, v), base, scope, last, key);
    }
  }

  lemma {:induction false} ReplayTouched(base: map<string, Body>, scope: Scope, log: seq<Change>, v: nat, key: string)
    requires Ordered(log) && Touched(scope, log, v, key)
    ensures SameAt(Replay(base, scope, log, v), CurrentState(scope, log), key)
  {
    TouchedLast(scope, log, v, key);
    var front, last := log[..|log| - 1], log[|log| - 1];
    var i :| 0 <= i < |log| && log[i].at > v && KeyIn(scope, log[i].body) == Some(key);
    assert last.at > v;
    if KeyIn(scope, last.body) != Some(key) {
      ReplayTouched(base, scope, front, v, key);
      OccurSame(Replay(base, scope, front, v), CurrentState(scope, front), scope, last, key);
      OccurSame(CurrentState(scope, front), Replay(base, scope, front, v), scope, last, key);
    } else {
      OccurSame(Replay(base, scope, front, v), CurrentState(scope, front), scope, last, key);
    }
  }

  /** What is not changed after v is now as a listing at v returned it. */
  lemma {:induction false} ListedUntouched(scope: Scope, log: seq<Change>, v: nat, key: string)
    requires !Touched(scope, log, v, key)
    ensures SameAt(ListedAt(scope, log, v), CurrentState(scope, log), key)
  {
    if log != [] {
      TouchedLast(scope, log, v, key);
      var front, last := log[..|log| - 1], log[|log| - 1];
      ListedUntouched(scope, front, v, key);
      OccurSame(ListedAt(scope, front, v), CurrentState(scope, front), scope, last, key);
      OccurSame(CurrentState(scope, front), ListedAt(scope, front, v), scope, last, key);
    }
  }

  lemma {:induction false} TouchedMonotone(scope: Scope, log: seq<Change>, v: nat, w: nat, key: string)
    requires v <= w && Touched(scope, log, w, key)
    ensures Touched(scope, log, v, key)
  {
    var i :| 0 <= i < |log| && log[i].at > w && KeyIn(scope, log[i].body) == Some(key);
    assert log[i].at > v;
  }

  /** Nothing happened in the scope in (v, w]. */
  ghost predicate QuietBetween(log: seq<Change>, v: nat, w: nat) {
    forall i :: 0 <= i < |log| ==> !(v < log[i].at <= w)
  }

  lemma {:induction false} TouchedAcrossQuiet(scope: Scope, log: seq<Change>, v: nat, w: nat, key: string)
    requires QuietBetween(log, v, w) && Touched(scope, log, v, key)
    ensures Touched(scope, log, w, key)
  {
    var i :| 0 <= i < |log| && log[i].at > v && KeyIn(scope, log[i].body) == Some(key);
    assert log[i].at > w;
  }

  /** The state a change leaves at its own key stays until the key changes again. */
  lemma {:induction false} LastChangeStands(scope: Scope, log: seq<Change>, i: nat, key: string)
    requires Ordered(log) && i < |log| && KeyIn(scope, log[i].body) == Some(key) && !Touched(scope, log, log[i].at, key)
    ensures if log[i].deleted then key !in CurrentState(scope, log)
            else key in CurrentState(scope, log) && CurrentState(scope, log)[key] == log[i].body
  {
    var front, last := log[..|log| - 1], log[|log| - 1];
    TouchedLast(scope, log, log[i].at, key);
    if i < |front| {
      assert front[i] == log[i] && log[i].at < last.at;
      LastChangeStands(scope, front, i, key);
      OccurSame(CurrentState(scope, front), CurrentState(scope, front), scope, last, key);
    }
  }

  /** Every current key was set by a change of that key. */
  lemma {:induction false} CurrentKeysChanged(scope: Scope, log: seq<Change>, key: string)
    requires key in CurrentState(scope, log)
    ensures exists i :: 0 <= i < |log| && KeyIn(scope, log[i].body) == Some(key)
  {
    var front, last := log[..|log| - 1], log[|log| - 1];
    if KeyIn(scope, last.body) == Some(key) {
      assert KeyIn(scope, log[|log| - 1].body) == Some(key);
    } else {
      OccurSame(CurrentState(scope, front), CurrentState(scope, front), scope, last, key);
      CurrentKeysChanged(scope, front, key);
      var i :| 0 <= i < |front| && KeyIn(scope, front[i].body) == Some(key);
      assert log[i] == front[i];
    }
  }
}
