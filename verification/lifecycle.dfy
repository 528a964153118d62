/** The lifecycle ledger of one Pod instance: facts drafted between two observations, appended one by one while any
    write may fail, and a checkpoint that only ever stands behind facts that are all there. */
module Lifecycle {
  import opened Text
  import opened Wire
  import opened Picking

  datatype Fact = Observed | DeletionRequested | Evicted | ReadyTrue | ReadyFalse | ContainerTerminated | OomKilled
    | ContainerStarted | Deleted | StatusSnapshot

  /** A status payload; `containers` names the containers a fact covers. */
  datatype Payload = Payload(containers: seq<string>, content: nat)
  datatype LedgerRecord = LedgerRecord(fact: Fact, sourceAt: Option<Time>, observedAt: Time, payload: Payload)

  /** What the classifier compares with: the checkpointed status, and whether the ledger ever told of an eviction. */
  datatype Prior = Prior(status: Payload, evicted: bool)

  /** The classifier and the status projection of a body, left open. The classifier drafts transitions, never
      checkpoints. */
  datatype Classifier = Classifier(drafts: (Option<Prior>, nat, Time) -> seq<LedgerRecord>, status: nat -> Payload,
                                   snapshotInterval: int)

  ghost predicate DraftsFactsOnly(c: Classifier) {
    forall prior, body, at :: DraftsFacts(c.drafts(prior, body, at))
  }

  predicate DraftsFacts(drafts: seq<LedgerRecord>) {
    forall i :: 0 <= i < |drafts| ==> drafts[i].fact != StatusSnapshot
  }

  /** One cycle observes a body and meets writes that succeed or fail, one answer an attempt. */
  datatype Cycle = Cycle(body: nat, at: Time, writes: nat -> bool)

  /** The index of the latest checkpoint. */
  function Checkpoint(ledger: seq<LedgerRecord>): (r: Option<nat>)
    ensures r.Some? ==> r.value < |ledger| && ledger[r.value].fact == StatusSnapshot
    ensures forall i :: (if r.Some? then r.value + 1 else 0) <= i < |ledger| ==> ledger[i].fact != StatusSnapshot
  {
    if ledger == [] then None
    else if ledger[|ledger| - 1].fact == StatusSnapshot then Some(|ledger| - 1)
    else Checkpoint(ledger[..|ledger| - 1])
  }

  /** Where the records since the checkpoint begin. */
  function SinceOf(ledger: seq<LedgerRecord>): (n: nat)
    ensures n <= |ledger|
  {
    if Checkpoint(ledger).Some? then Checkpoint(ledger).value + 1 else 0
  }

  predicate ToldEviction(ledger: seq<LedgerRecord>) {
    exists i :: 0 <= i < |ledger| && ledger[i].fact == Evicted
  }

  function PriorOf(ledger: seq<LedgerRecord>): Option<Prior> {
    var checkpoint := Checkpoint(ledger);
    if checkpoint.None? then None else Some(Prior(ledger[checkpoint.value].payload, ToldEviction(ledger)))
  }

  /** The same fact: drafted again, it would say what the record already says. */
  predicate Matches(a: LedgerRecord, b: LedgerRecord) {
    a.fact == b.fact && a.sourceAt == b.sourceAt && a.payload.containers == b.payload.containers
  }

  predicate MatchedIn(records: seq<LedgerRecord>, draft: LedgerRecord) {
    exists i :: 0 <= i < |records| && Matches(records[i], draft)
  }

  /** The drafts that were not yet there and whose write succeeded. */
  function AppendedOf(since: seq<LedgerRecord>, drafts: seq<LedgerRecord>, writes: nat -> bool): seq<LedgerRecord> {
    if drafts == [] then []
    else
      var n := |drafts| - 1;
      AppendedOf(since, drafts[..n], writes)
      + if !MatchedIn(since, drafts[n]) && writes(n) then [drafts[n]] else []
  }

  lemma {:induction false} AppendedNone(since: seq<LedgerRecord>, drafts: seq<LedgerRecord>, writes: nat -> bool)
    ensures AppendedOf(since, drafts[..0], writes) == []
  {
  }

  lemma {:induction false} AppendedOneMore(since: seq<LedgerRecord>, drafts: seq<LedgerRecord>, writes: nat -> bool,
                                           i: nat)
    requires i < |drafts|
    ensures AppendedOf(since, drafts[..i + 1], writes)
         == AppendedOf(since, drafts[..i], writes)
            + if !MatchedIn(since, drafts[i]) && writes(i) then [drafts[i]] else []
  {
    assert drafts[..i + 1][..i] == drafts[..i];
  }

  predicate Complete(since: seq<LedgerRecord>, drafts: seq<LedgerRecord>, writes: nat -> bool) {
    forall i :: 0 <= i < |drafts| ==> MatchedIn(since, drafts[i]) || writes(i)
  }

  function DraftsOf(c: Classifier, ledger: seq<LedgerRecord>, cycle: Cycle): seq<LedgerRecord> {
    c.drafts(PriorOf(ledger), cycle.body, cycle.at)
  }

  /** A checkpoint is due when there is none, when the status changed, or when the last one is old. */
  predicate SnapshotDue(c: Classifier, ledger: seq<LedgerRecord>, cycle: Cycle) {
    var checkpoint := Checkpoint(ledger);
    checkpoint.None? || ledger[checkpoint.value].payload != c.status(cycle.body)
    || cycle.at - ledger[checkpoint.value].observedAt >= c.snapshotInterval
  }

  function SnapshotOf(c: Classifier, cycle: Cycle): LedgerRecord {
    LedgerRecord(StatusSnapshot, None, cycle.at, c.status(cycle.body))
  }

  predicate WritesSnapshot(c: Classifier, ledger: seq<LedgerRecord>, cycle: Cycle) {
    var drafts := DraftsOf(c, ledger, cycle);
    && Complete(ledger[SinceOf(ledger)..], drafts, cycle.writes) && SnapshotDue(c, ledger, cycle)
    && cycle.writes(|drafts|)
  }

  function FactsOf(c: Classifier, ledger: seq<LedgerRecord>, cycle: Cycle): seq<LedgerRecord> {
    AppendedOf(ledger[SinceOf(ledger)..], DraftsOf(c, ledger, cycle), cycle.writes)
  }

  function AfterCycle(c: Classifier, ledger: seq<LedgerRecord>, cycle: Cycle): seq<LedgerRecord> {
    ledger + FactsOf(c, ledger, cycle) + if WritesSnapshot(c, ledger, cycle) then [SnapshotOf(c, cycle)] else []
  }

  /** The journal's tombstone: the instance is gone, with what was last known of it. */
  function AfterBurial(ledger: seq<LedgerRecord>, at: Time, write: bool): seq<LedgerRecord> {
    if !write then ledger
    else
      var payload := if ledger == [] then Payload([], 0) else ledger[|ledger| - 1].payload;
      ledger + [LedgerRecord(Deleted, None, at, payload)]
  }

  datatype LedgerStep = Observes(cycle: Cycle) | Buries(at: Time, write: bool)

  function NextLedger(c: Classifier, ledger: seq<LedgerRecord>, step: LedgerStep): seq<LedgerRecord> {
    match step
    case Observes(cycle) => AfterCycle(c, ledger, cycle)
    case Buries(at, write) => AfterBurial(ledger, at, write)
  }

  // ---- one cycle ------------------------------------------------------------------------------

  /** A record at one of these places tells the draft's fact, of its source instant and for its containers. */
  predicate Recorded(ledger: seq<LedgerRecord>, from: nat, to: nat, draft: LedgerRecord)
    requires to <= |ledger|
  {
    exists p :: from <= p < to && ledger[p].fact == draft.fact && ledger[p].sourceAt == draft.sourceAt
                && ledger[p].payload.containers == draft.payload.containers
  }

  lemma {:induction false} MatchedIsRecorded(ledger: seq<LedgerRecord>, from: nat, to: nat, draft: LedgerRecord)
    requires from <= to <= |ledger|
    ensures MatchedIn(ledger[from..to], draft) <==> Recorded(ledger, from, to, draft)
  {
    if MatchedIn(ledger[from..to], draft) {
      var i :| 0 <= i < to - from && Matches(ledger[from..to][i], draft);
      assert ledger[from + i] == ledger[from..to][i];
    }
    if Recorded(ledger, from, to, draft) {
      var p :| from <= p < to && ledger[p].fact == draft.fact && ledger[p].sourceAt == draft.sourceAt
               && ledger[p].payload.containers == draft.payload.containers;
      assert ledger[from..to][p - from] == ledger[p];
    }
  }

  /** The drafts a cycle is to append: not told since the latest checkpoint, and their write succeeds. */
  function Untold(ledger: seq<LedgerRecord>, drafts: seq<LedgerRecord>, writes: nat -> bool): nat -> bool {
    (i: nat) => i < |drafts| && !Recorded(ledger, SinceOf(ledger), |ledger|, drafts[i]) && writes(i)
  }

  lemma {:induction false} AppendedArePicked(ledger: seq<LedgerRecord>, drafts: seq<LedgerRecord>, writes: nat -> bool)
    ensures Picks(drafts, AppendedOf(ledger[SinceOf(ledger)..], drafts, writes), Untold(ledger, drafts, writes))
  {
    if drafts == [] {
      PicksNothing<LedgerRecord>(Untold(ledger, drafts, writes));
    } else {
      var front, last := drafts[..|drafts| - 1], drafts[|drafts| - 1];
      var since := ledger[SinceOf(ledger)..];
      AppendedArePicked(ledger, front, writes);
      assert ledger[SinceOf(ledger)..|ledger|] == since;
      MatchedIsRecorded(ledger, SinceOf(ledger), |ledger|, last);
      PicksOneMore(front, AppendedOf(since, front, writes), Untold(ledger, front, writes), last,
                   Untold(ledger, drafts, writes));
      assert front + [last] == drafts;
    }
  }

  /** What a classifier is told of the past: the status at the latest checkpoint, and whether an eviction is anywhere on
      the ledger. */
  lemma {:induction false} PriorIsLatest(ledger: seq<LedgerRecord>)
    ensures PriorOf(ledger).None? <==> forall i :: 0 <= i < |ledger| ==> ledger[i].fact != StatusSnapshot
    ensures PriorOf(ledger).Some? ==>
              && (PriorOf(ledger).value.evicted <==> exists i :: 0 <= i < |ledger| && ledger[i].fact == Evicted)
              && exists k :: 0 <= k < |ledger| && ledger[k].fact == StatusSnapshot
                             && ledger[k].payload == PriorOf(ledger).value.status
                             && forall i :: k < i < |ledger| ==> ledger[i].fact != StatusSnapshot
  {
    if Checkpoint(ledger).Some? {
      assert ledger[Checkpoint(ledger).value].fact == StatusSnapshot;
    }
  }

  /** A cycle appends exactly the drafts that no record since the latest checkpoint tells and whose write succeeds, in
      their order. A checkpoint follows if and only if every draft is then told, none was written yet or the status
      changed or the latest is old, and its own write succeeds. */
  lemma {:induction false} CycleAppendsExactly(c: Classifier, ledger: seq<LedgerRecord>, cycle: Cycle)
    ensures var drafts := c.drafts(PriorOf(ledger), cycle.body, cycle.at);
            var facts := FactsOf(c, ledger, cycle);
            var last := Checkpoint(ledger);
            && Picks(drafts, facts, Untold(ledger, drafts, cycle.writes))
            && AfterCycle(c, ledger, cycle) == ledger + facts +
               if (forall i :: 0 <= i < |drafts| ==>
                     Recorded(ledger, SinceOf(ledger), |ledger|, drafts[i]) || cycle.writes(i))
                  && (last.None? || ledger[last.value].payload != c.status(cycle.body)
                      || cycle.at - ledger[last.value].observedAt >= c.snapshotInterval)
                  && cycle.writes(|drafts|)
               then [LedgerRecord(StatusSnapshot, None, cycle.at, c.status(cycle.body))] else []
  {
    var drafts := c.drafts(PriorOf(ledger), cycle.body, cycle.at);
    AppendedArePicked(ledger, drafts, cycle.writes);
    assert ledger[SinceOf(ledger)..|ledger|] == ledger[SinceOf(ledger)..];
    forall i | 0 <= i < |drafts|
      ensures MatchedIn(ledger[SinceOf(ledger)..], drafts[i])
              <==> Recorded(ledger, SinceOf(ledger), |ledger|, drafts[i])
    {
      MatchedIsRecorded(ledger, SinceOf(ledger), |ledger|, drafts[i]);
    }
    hide MatchedIn, Recorded, AppendedOf, Checkpoint, Untold, PriorOf;
  }

  lemma {:induction false} AppendedAreNew(since: seq<LedgerRecord>, drafts: seq<LedgerRecord>, writes: nat -> bool)
    ensures forall r :: r in AppendedOf(since, drafts, writes) ==> r in drafts && !MatchedIn(since, r)
  {
    if drafts != [] {
      AppendedAreNew(since, drafts[..|drafts| - 1], writes);
    }
  }

  lemma {:induction false} AppendedComplete(since: seq<LedgerRecord>, drafts: seq<LedgerRecord>, writes: nat -> bool,
                                            i: nat)
    requires i < |drafts| && (MatchedIn(since, drafts[i]) || writes(i))
    ensures MatchedIn(since, drafts[i]) || drafts[i] in AppendedOf(since, drafts, writes)
  {
    if i < |drafts| - 1 {
      AppendedComplete(since, drafts[..|drafts| - 1], writes, i);
    }
  }

  lemma {:induction false} MatchedInMore(some: seq<LedgerRecord>, more: seq<LedgerRecord>, draft: LedgerRecord)
    ensures MatchedIn(some, draft) || draft in more ==> MatchedIn(some + more, draft)
  {
    var all := some + more;
    if MatchedIn(some, draft) {
      var i :| 0 <= i < |some| && Matches(some[i], draft);
      assert Matches(all[i], draft);
    } else if draft in more {
      var i :| 0 <= i < |more| && more[i] == draft;
      assert Matches(all[|some| + i], draft);
    }
  }

  /** A cycle that writes its checkpoint leaves, between the previous checkpoint and this one, a record for every fact
      it drafted, and nothing else of its own. */
  lemma {:induction false} CheckpointIsSound(c: Classifier, ledger: seq<LedgerRecord>, cycle: Cycle)
    requires DraftsFactsOnly(c) && WritesSnapshot(c, ledger, cycle)
    ensures var n := AfterCycle(c, ledger, cycle);
            && Checkpoint(n) == Some(|n| - 1) && n[|n| - 1] == SnapshotOf(c, cycle)
            && (forall i :: SinceOf(ledger) <= i < |n| - 1 ==> n[i].fact != StatusSnapshot)
            && forall draft :: draft in DraftsOf(c, ledger, cycle) ==> MatchedIn(n[SinceOf(ledger)..|n| - 1], draft)
  {
    var n, drafts, since := AfterCycle(c, ledger, cycle), DraftsOf(c, ledger, cycle), ledger[SinceOf(ledger)..];
    var facts := AppendedOf(since, drafts, cycle.writes);
    assert DraftsFacts(drafts);
    AppendedAreNew(since, drafts, cycle.writes);
    assert n[SinceOf(ledger)..|n| - 1] == since + facts;
    forall i | SinceOf(ledger) <= i < |n| - 1 ensures n[i].fact != StatusSnapshot {
      if i >= |ledger| {
        assert n[i] == facts[i - |ledger|] && facts[i - |ledger|] in facts;
        var k :| 0 <= k < |drafts| && drafts[k] == n[i];
      }
    }
    forall draft | draft in drafts ensures MatchedIn(since + facts, draft) {
      var i :| 0 <= i < |drafts| && drafts[i] == draft;
      AppendedComplete(since, drafts, cycle.writes, i);
      MatchedInMore(since, facts, draft);
    }
  }

  lemma {:induction false} CheckpointStays(ledger: seq<LedgerRecord>, more: seq<LedgerRecord>)
    requires DraftsFacts(more)
    ensures Checkpoint(ledger + more) == Checkpoint(ledger)
  {
    if more != [] {
      var all := ledger + more;
      assert all[..|all| - 1] == ledger + more[..|more| - 1];
      CheckpointStays(ledger, more[..|more| - 1]);
    } else {
      assert ledger + more == ledger;
    }
  }

  /** A cycle that does not write its checkpoint leaves the old one standing, so the next cycle compares with the same
      status again. */
  lemma {:induction false} CheckpointWaits(c: Classifier, ledger: seq<LedgerRecord>, cycle: Cycle)
    requires DraftsFactsOnly(c) && !WritesSnapshot(c, ledger, cycle)
    ensures Checkpoint(AfterCycle(c, ledger, cycle)) == Checkpoint(ledger)
    ensures ledger <= AfterCycle(c, ledger, cycle)
  {
    var drafts, since := DraftsOf(c, ledger, cycle), ledger[SinceOf(ledger)..];
    var facts := AppendedOf(since, drafts, cycle.writes);
    assert DraftsFacts(drafts);
    AppendedAreNew(since, drafts, cycle.writes);
    forall i | 0 <= i < |facts| ensures facts[i].fact != StatusSnapshot {
      assert facts[i] in facts;
      var k :| 0 <= k < |drafts| && drafts[k] == facts[i];
    }
    CheckpointStays(ledger, facts);
    assert AfterCycle(c, ledger, cycle) == ledger + facts;
  }

  // ---- whole runs -----------------------------------------------------------------------------

  predicate LedgerMoves(c: Classifier, ledgers: seq<seq<LedgerRecord>>, steps: seq<LedgerStep>, i: nat)
    requires i < |steps| && |ledgers| == |steps| + 1
  {
    ledgers[i + 1] == NextLedger(c, ledgers[i], steps[i])
  }

  predicate IsLedgerRun(c: Classifier, ledgers: seq<seq<LedgerRecord>>, steps: seq<LedgerStep>) {
    && |ledgers| == |steps| + 1 && ledgers[0] == []
    && forall i :: 0 <= i < |steps| ==> LedgerMoves(c, ledgers, steps, i)
  }

  lemma {:induction false} LedgerGrows(c: Classifier, ledgers: seq<seq<LedgerRecord>>, steps: seq<LedgerStep>, i: nat,
                                       n: nat)
    requires IsLedgerRun(c, ledgers, steps) && i <= n <= |steps|
    ensures ledgers[i] <= ledgers[n]
  {
    if i < n {
      LedgerGrows(c, ledgers, steps, i, n - 1);
      assert LedgerMoves(c, ledgers, steps, n - 1);
    }
  }

  /** Checkpoint k of the ledger was written by this cycle: every fact it drafted is told by a record after the previous
      checkpoint and before this one. */
  predicate ExplainedBy(c: Classifier, ledger: seq<LedgerRecord>, k: nat, before: seq<LedgerRecord>, cycle: Cycle)
    requires k < |ledger|
  {
    && before <= ledger[..k] && ledger[k] == SnapshotOf(c, cycle)
    && Checkpoint(ledger[..k]) == Checkpoint(before)
    && forall draft :: draft in DraftsOf(c, before, cycle) ==> Recorded(ledger, SinceOf(before), k, draft)
  }

  ghost predicate Explained(c: Classifier, ledgers: seq<seq<LedgerRecord>>, steps: seq<LedgerStep>,
                            ledger: seq<LedgerRecord>, k: nat, i: nat)
    requires |ledgers| == |steps| + 1 && k < |ledger|
  {
    i < |steps| && steps[i].Observes? && ExplainedBy(c, ledger, k, ledgers[i], steps[i].cycle)
  }

  lemma {:induction false} FactsAreFacts(c: Classifier, ledger: seq<LedgerRecord>, cycle: Cycle)
    requires DraftsFactsOnly(c)
    ensures DraftsFacts(FactsOf(c, ledger, cycle))
  {
    var facts, drafts := FactsOf(c, ledger, cycle), DraftsOf(c, ledger, cycle);
    assert DraftsFacts(drafts);
    AppendedAreNew(ledger[SinceOf(ledger)..], drafts, cycle.writes);
    forall i | 0 <= i < |facts| ensures facts[i].fact != StatusSnapshot {
      assert facts[i] in facts;
      var k :| 0 <= k < |drafts| && drafts[k] == facts[i];
    }
  }

  lemma {:induction false} NewCheckpointExplained(c: Classifier, ledger: seq<LedgerRecord>, cycle: Cycle)
    requires DraftsFactsOnly(c) && WritesSnapshot(c, ledger, cycle)
    ensures var n := AfterCycle(c, ledger, cycle); ExplainedBy(c, n, |n| - 1, ledger, cycle)
  {
    CheckpointIsSound(c, ledger, cycle);
    FactsAreFacts(c, ledger, cycle);
    CheckpointStays(ledger, FactsOf(c, ledger, cycle));
    BeforeCheckpoint(c, ledger, cycle);
    var n := AfterCycle(c, ledger, cycle);
    forall draft | draft in DraftsOf(c, ledger, cycle) ensures Recorded(n, SinceOf(ledger), |n| - 1, draft) {
      MatchedIsRecorded(n, SinceOf(ledger), |n| - 1, draft);
    }
    hide AfterCycle, FactsOf, DraftsOf, DraftsFacts, MatchedIn, Recorded, Checkpoint, WritesSnapshot;
  }

  /** Up to its checkpoint a cycle has appended its facts. */
  lemma {:induction false} BeforeCheckpoint(c: Classifier, ledger: seq<LedgerRecord>, cycle: Cycle)
    requires WritesSnapshot(c, ledger, cycle)
    ensures var n := AfterCycle(c, ledger, cycle); |n| > 0 && n[..|n| - 1] == ledger + FactsOf(c, ledger, cycle)
  {
  }

  lemma {:induction false} StillExplained(c: Classifier, ledger: seq<LedgerRecord>, more: seq<LedgerRecord>, k: nat,
                                          before: seq<LedgerRecord>, cycle: Cycle)
    requires k < |ledger| <= |more| && ledger <= more && ExplainedBy(c, ledger, k, before, cycle)
    ensures ExplainedBy(c, more, k, before, cycle)
  {
    assert more[..k] == ledger[..k];
    assert more[SinceOf(before)..k] == ledger[SinceOf(before)..k];
  }

  /** Over every run of cycles, failed writes and burials: every checkpoint in the ledger was written by a cycle all of
      whose facts are recorded between the previous checkpoint and this one. */
  lemma {:induction false} EveryCheckpointExplained(c: Classifier, ledgers: seq<seq<LedgerRecord>>,
                                                    steps: seq<LedgerStep>, n: nat, k: nat)
    requires DraftsFactsOnly(c) && IsLedgerRun(c, ledgers, steps) && n <= |steps|
    requires k < |ledgers[n]| && ledgers[n][k].fact == StatusSnapshot
    ensures exists i: nat :: i < n && Explained(c, ledgers, steps, ledgers[n], k, i)
  {
    assert LedgerMoves(c, ledgers, steps, n - 1);
    var before, step := ledgers[n - 1], steps[n - 1];
    LedgerGrows(c, ledgers, steps, n - 1, n);
    if k < |before| {
      EveryCheckpointExplained(c, ledgers, steps, n - 1, k);
      var i: nat :| i < n - 1 && Explained(c, ledgers, steps, before, k, i);
      StillExplained(c, before, ledgers[n], k, ledgers[i], steps[i].cycle);
      assert Explained(c, ledgers, steps, ledgers[n], k, i);
    } else {
      OnlyTheLast(c, before, step, k);
      NewCheckpointExplained(c, before, step.cycle);
      assert Explained(c, ledgers, steps, ledgers[n], k, n - 1);
    }
  }

  /** The only checkpoint a step appends is the one its cycle writes last. */
  lemma {:induction false} OnlyTheLast(c: Classifier, ledger: seq<LedgerRecord>, step: LedgerStep, k: nat)
    requires DraftsFactsOnly(c)
    requires |ledger| <= k < |NextLedger(c, ledger, step)| && NextLedger(c, ledger, step)[k].fact == StatusSnapshot
    ensures step.Observes? && WritesSnapshot(c, ledger, step.cycle) && k == |NextLedger(c, ledger, step)| - 1
  {
    if step.Observes? {
      FactsAreFacts(c, ledger, step.cycle);
    }
  }

  /** A retry repeats nothing: a fact a cycle appends matches no record that an earlier cycle left since the
      checkpoint. */
  lemma {:induction false} RetryRepeatsNothing(c: Classifier, ledgers: seq<seq<LedgerRecord>>, steps: seq<LedgerStep>,
                                               i: nat, p: nat, q: nat)
    requires IsLedgerRun(c, ledgers, steps) && i < |steps| && steps[i].Observes?
    requires SinceOf(ledgers[i]) <= p < |ledgers[i]| <= q < |ledgers[i + 1]|
    requires ledgers[i + 1][q].fact != StatusSnapshot
    ensures var told, appended := ledgers[i + 1][p], ledgers[i + 1][q];
            || told.fact != appended.fact || told.sourceAt != appended.sourceAt
            || told.payload.containers != appended.payload.containers
  {
    assert LedgerMoves(c, ledgers, steps, i);
    var ledger, cycle := ledgers[i], steps[i].cycle;
    var since, facts := ledger[SinceOf(ledger)..], FactsOf(c, ledger, cycle);
    AppendedAreNew(since, DraftsOf(c, ledger, cycle), cycle.writes);
    assert ledgers[i + 1][q] == facts[q - |ledger|] && facts[q - |ledger|] in facts;
    assert since[p - SinceOf(ledger)] == ledgers[i + 1][p];
  }

  /** After a cycle that failed half way, one whose writes succeed leaves every draft it has matched on the ledger since
      the checkpoint. */
  lemma {:induction false} RetryCompletes(c: Classifier, ledger: seq<LedgerRecord>, failed: Cycle, retried: Cycle)
    requires DraftsFactsOnly(c) && !WritesSnapshot(c, ledger, failed)
    requires forall i :: retried.writes(i)
    ensures var half := AfterCycle(c, ledger, failed);
            var n := AfterCycle(c, half, retried);
            forall draft :: draft in DraftsOf(c, half, retried) ==> Recorded(n, SinceOf(ledger), |n|, draft)
  {
    var half := AfterCycle(c, ledger, failed);
    var n, drafts := AfterCycle(c, half, retried), DraftsOf(c, half, retried);
    CheckpointWaits(c, ledger, failed);
    RestFollows(half, n, SinceOf(half));
    forall draft | draft in drafts ensures Recorded(n, SinceOf(ledger), |n|, draft) {
      DraftIsTold(c, half, retried, draft);
      MatchedIsRecorded(n, SinceOf(ledger), |n|, draft);
    }
    hide AfterCycle, DraftsOf, MatchedIn, Recorded, Checkpoint;
  }

  lemma {:induction false} RestFollows(half: seq<LedgerRecord>, n: seq<LedgerRecord>, from: nat)
    requires half <= n && from <= |half|
    ensures half[from..] + n[|half|..] == n[from..|n|]
  {
  }

  /** A cycle whose writes succeed leaves each of its drafts matched. */
  lemma {:induction false} DraftIsTold(c: Classifier, ledger: seq<LedgerRecord>, cycle: Cycle, draft: LedgerRecord)
    requires draft in DraftsOf(c, ledger, cycle) && forall i :: cycle.writes(i)
    ensures var n := AfterCycle(c, ledger, cycle);
            ledger <= n && MatchedIn(ledger[SinceOf(ledger)..] + n[|ledger|..], draft)
  {
    var drafts, since := DraftsOf(c, ledger, cycle), ledger[SinceOf(ledger)..];
    var n, facts := AfterCycle(c, ledger, cycle), FactsOf(c, ledger, cycle);
    var i :| 0 <= i < |drafts| && drafts[i] == draft;
    AppendedComplete(since, drafts, cycle.writes, i);
    assert draft in facts ==> draft in n[|ledger|..] by {
      if draft in facts {
        var k :| 0 <= k < |facts| && facts[k] == draft;
        assert n[|ledger|..][k] == draft;
      }
    }
    MatchedInMore(since, n[|ledger|..], draft);
    hide MatchedIn;
  }

  /** The recorder over the ledger of one instance. */
  class PodLifecycleRecorder {
    const classifier: Classifier
    var ledger: seq<LedgerRecord>
    var failures: nat

    constructor (classifier: Classifier)
      ensures this.classifier == classifier && ledger == [] && failures == 0
    {
      this.classifier, ledger, failures := classifier, [], 0;
    }

    /** Append, or count the failure. */
    method Append(record: LedgerRecord, ok: bool) returns (done: bool)
      modifies this
      ensures done == ok
      ensures ledger == if ok then old(ledger) + [record] else old(ledger)
      ensures failures == if ok then old(failures) else old(failures) + 1
    {
      if ok {
        ledger := ledger + [record];
      } else {
        failures := failures + 1;
      }
      done := ok;
    }

    method FindCheckpoint() returns (checkpoint: Option<nat>)
      ensures checkpoint == Checkpoint(ledger)
    {
      var n := |ledger|;
      assert ledger[..n] == ledger;
      while n > 0
        invariant 0 <= n <= |ledger| && Checkpoint(ledger) == Checkpoint(ledger[..n])
      {
        assert ledger[..n][..n - 1] == ledger[..n - 1];
        if ledger[n - 1].fact == StatusSnapshot {
          return Some(n - 1);
        }
        n := n - 1;
      }
      checkpoint := None;
    }

    /** Append every draft that is not there yet; whether all are there now. */
    method AppendDrafts(since: seq<LedgerRecord>, drafts: seq<LedgerRecord>,
                        writes: nat -> bool) returns (complete: bool)
      modifies this
      ensures ledger == old(ledger) + AppendedOf(since, drafts, writes)
      ensures complete == Complete(since, drafts, writes)
    {
      hide AppendedOf, MatchedIn;
      AppendedNone(since, drafts, writes);
      complete := true;
      for i := 0 to |drafts|
        invariant ledger == old(ledger) + AppendedOf(since, drafts[..i], writes)
        invariant complete == forall k :: 0 <= k < i ==> MatchedIn(since, drafts[k]) || writes(k)
      {
        AppendedOneMore(since, drafts, writes, i);
        if !MatchedIn(since, drafts[i]) {
          var done := Append(drafts[i], writes(i));
          complete := complete && done;
        }
      }
      assert drafts[..|drafts|] == drafts;
    }

    method Observe(cycle: Cycle)
      modifies this
      ensures ledger == AfterCycle(classifier, old(ledger), cycle)
    {
      var checkpoint := FindCheckpoint();
      var since := if checkpoint.Some? then ledger[checkpoint.value + 1..] else ledger;
      assert since == ledger[SinceOf(ledger)..];
      var prior := if checkpoint.None? then None
                   else Some(Prior(ledger[checkpoint.value].payload, ToldEviction(ledger)));
      var last := if checkpoint.None? then None else Some(ledger[checkpoint.value]);
      var drafts := classifier.drafts(prior, cycle.body, cycle.at);
      var complete := AppendDrafts(since, drafts, cycle.writes);
      if !complete {
        return;
      }
      var payload := classifier.status(cycle.body);
      if last.None? || last.value.payload != payload
         || cycle.at - last.value.observedAt >= classifier.snapshotInterval {
        var _ := Append(LedgerRecord(StatusSnapshot, None, cycle.at, payload), cycle.writes(|drafts|));
      }
    }

    method Bury(at: Time, write: bool)
      modifies this
      ensures ledger == AfterBurial(old(ledger), at, write)
      ensures if !write then ledger == old(ledger)
              else
                && |ledger| == |old(ledger)| + 1 && old(ledger) <= ledger
                && var tombstone := ledger[|ledger| - 1];
                   && tombstone.fact == Deleted && tombstone.observedAt == at
                   && (old(ledger) != [] ==> tombstone.payload == old(ledger)[|old(ledger)| - 1].payload)
    {
      var payload := if ledger == [] then Payload([], 0) else ledger[|ledger| - 1].payload;
      var _ := Append(LedgerRecord(Deleted, None, at, payload), write);
    }
  }
}
