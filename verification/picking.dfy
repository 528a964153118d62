/** What it means that one sequence is another with exactly some of its places left, in their order. */
module Picking {
  import opened Orders

  predicate LessNumber(a: nat, b: nat) {
    a < b
  }

  /** `some` is what `all` holds at these places, which are the places to keep, from the first on. */
  ghost predicate PicksAt<T>(all: seq<T>, some: seq<T>, keep: nat -> bool, at: seq<nat>) {
    && |at| == |some|
    && Increasing(LessNumber, at)
    && (forall i :: 0 <= i < |at| ==> at[i] < |all| && some[i] == all[at[i]])
    && forall k: nat :: k in at <==> k < |all| && keep(k)
  }

  ghost predicate Picks<T>(all: seq<T>, some: seq<T>, keep: nat -> bool) {
    exists at :: PicksAt(all, some, keep, at)
  }

  lemma {:induction false} PicksNothing<T>(keep: nat -> bool)
    ensures Picks<T>([], [], keep)
  {
    assert PicksAt<T>([], [], keep, []);
  }

  lemma {:induction false} PicksOneMore<T>(all: seq<T>, some: seq<T>, kept: nat -> bool, last: T, keep: nat -> bool)
    requires Picks(all, some, kept) && forall k: nat :: k < |all| ==> kept(k) == keep(k)
    ensures Picks(all + [last], some + if keep(|all|) then [last] else [], keep)
  {
    var at :| PicksAt(all, some, kept, at);
    var n: nat := |all|;
    var more: seq<nat> := if keep(n) then at + [n] else at;
    forall k: nat ensures k in more <==> k < n + 1 && keep(k) {
      assert k in at <==> k < n && kept(k);
    }
    forall i, j | 0 <= i < j < |more| ensures more[i] < more[j] {
      assert at[i] in at;
    }
    assert PicksAt(all + [last], some + if keep(n) then [last] else [], keep, more);
  }

  lemma {:induction false} NumbersAreTotal()
    ensures StrictlyTotal(LessNumber)
  {
  }

  lemma {:induction false} SamePlaces(at: seq<nat>, bt: seq<nat>)
    requires Increasing(LessNumber, at) && Increasing(LessNumber, bt)
    requires forall k: nat :: k in at <==> k in bt
    ensures at == bt
  {
    NumbersAreTotal();
    hide LessNumber;
    var places: set<nat> := set k | k in at;
    assert places == set k | k in bt;
    AscendingIsUnique(LessNumber, at, bt, places);
  }

  /** There is one such sequence. */
  lemma {:induction false} PickIsUnique<T>(all: seq<T>, a: seq<T>, b: seq<T>, keep: nat -> bool)
    requires Picks(all, a, keep) && Picks(all, b, keep)
    ensures a == b
  {
    var at :| PicksAt(all, a, keep, at);
    var bt :| PicksAt(all, b, keep, bt);
    SamePlaces(at, bt);
  }
}
