# Verification model of the Connector change stream and its neighbours

This project models, in Dafny, how the Connector reports a Kubernetes cluster to the control plane, and proves what that
protocol promises over whole runs. It also covers the smaller state machines the protocol lives among: alert polling and
intake, the fair gate before trace reads, gateway sessions, enrollment, the lifecycle ledger, the transport wait, the
codecs, and one paginated log read.

`dafny verify dfyconfig.toml` checks everything. Nothing of the original program is executed.

## How it is built

The change stream is modelled in four layers, each on the one below.

1. **Cluster** (`cluster.dfy`): one ordered log of changes per scope; listing at a version and replaying after one.
2. **Producer** (`producer.dfy`, `connector.dfy`, `orders.dfy`, `world.dfy`, `convergence.dfy`, `eventreach.dfy`,
   `lostevent.dfy`, `watchwitness.dfy`, `watching.dfy`, `retries.dfy`, `deletions.dfy`, `news.dfy`): every block the
   connector runs under its change lock is a step on its state. `Connector` is the object itself: its methods update
   fields and append to the buffer item by item in loops, and each is proved to do exactly what the step says. `Worlds`
   puts the producer beside the cluster; `Convergence` proves the invariant that makes resuming safe, and `EventReach`
   where it ends for Events.
3. **Buffer** (`streams.dfy`, `paging.dfy`, `blocks.dfy`): the class `StreamBuffer` with its eviction loop, and the
   same buffer as a value: the epoch's whole log, of which the last `maxLen` items are kept.
4. **Reader** (`mirror.dfy`, `holdings.dfy`, `trust.dfy`, `following.dfy`, `reader.dfy`, `refinement.dfy`): the mirror
   as a fold over items, what it may claim said about the items it read, and the class `StreamedClusterReader` with its
   drain loop.

`system.dfy`, `silence.dfy`, `transport.dfy`, `endtoend.dfy`, `losses.dfy`, `standing.dfy`, `unsaid.dfy`, `denials.dfy`,
`witness.dfy` and `journaling.dfy` run all four together and state the main theorems over every interleaving of producing,
reading, evicting, paging, retrying and restarting.

The alert stream has layers of its own: the producer (`alerts.dfy`, `alertproducer.dfy`, `alertreports.dfy`), the same
buffer, and the intake (`coverage.dfy`, `intake.dfy`, `records.dfy`, `consumer.dfy`). `delivery.dfy` runs them together,
over restarts of either side and pages read again; `honesty.dfy` says what a segment of coverage then vouches for.

Functions that say how something is computed are kept apart from what is proved: the main theorems speak of fields, items
and what happened in a run. `picking.dfy` says once what it is to leave out some places of a sequence.

The other machines follow the same pattern: a step function and its invariants over runs, and a class whose methods are
proved against it.

## Assumptions

- A digest is injective: a body is its own digest. A token's hash is injective: a record holds the secret.
- The clock of one connector never goes back; a block under the change lock reads it once and appends all its items under
  that reading. `change_heartbeat` does not take that lock and `poll_changes_once` reads the clock before listing, so
  "stamp and append in one step" and "no heartbeat inside a snapshot" are assumptions of the model.
- A listing of a completed scope is that scope at its returned version, lists objects of completed scopes only, and is no
  older than what a watch of the scope has delivered; Events are never read at a version older than the one remembered.
  Versions carry the cluster's own order; whether a version's text is
  a number is a separate flag, as `_newer` sees it. An Event identity belongs to one scope.
- A watch delivers its scope's changes in order without a hole; a bookmark passes over nothing; a watch of the current
  generation that ends normally has delivered everything up to a version listed while it was open.
- Where it is said that an Event is reached only in some case, each of its changes leaves a body of its own, as resource
  versions make them.
- On the alert stream, no two polls complete at the same instant, and what polls and deliveries put into the buffer stands
  there in the order of the times it carries: the thread of a delivery and that of the poll do not overtake one another
  between reading the clock and appending. Where a retry is said to count twice, what is buffered carries an earlier time
  than the second reading. An epoch is used once.
- What the cluster, Alertmanager, the certificate signer, the alert normaliser and the lifecycle classifier answer are
  parameters. So are write failures. The classifier drafts transitions, never checkpoints.
- In the runs, vanished keys and pending scopes are visited in any order; `Connector` visits them sorted, as the source
  does.
- Instants of `_instant` are an uninterpreted function of their text, with "None" not an instant. Digits in cursors and
  decimals are ASCII.
- Each registry operation runs to its end before the next begins.
- The log server returns the earliest entries of a range with both ends included, in time order.

## Where the code and its promise differ

- **Event scopes left unlisted.** The cluster reader keeps an Event scope's version when listing its Events fails. The next
  snapshot resumes the scope from it with none of its Events seen, and the next reconciliation moves a scope whose version
  is behind ahead to it. `EventsResumeExactly`: in every reachable state of a scope that no reconciliation moved ahead
  unlisted, an Event is reached if and only if the scope was listed since the latest snapshot or the Event changed after
  the version left standing. `EventReachedExactly` is the condition for every scope, one Event at a time: it changed after
  the resume version, or has not changed since it was last reported. `UnlistedEventIsLost` is a run in which one is lost.
- **A retried page may count twice.** The buffer stamps the gap of a restart or an expiry with the time of the reading and
  puts it before items that are older. When such a page fails after its first polls were recorded and is read again, the
  gap closes the segment they opened and hides the polls buffered behind them (`RetryLosesCoverage`).
  `RetriedPageCountsOnce`: a retry counts once if and only if no gap is declared, or the first attempt changed no coverage,
  or the gap declared again has nothing to close. Such gaps are all that a replay can trip over
  (`RedeliveryChangesNothing`).
- **Coverage may span a failed poll.** The intake keeps its cursor in memory, and a reader without a cursor is told of no
  gap. `CoverageIsHonest`: a segment spans a poll that was not answered if and only if such a reading passed one over
  there; `FailureVouchedFor` is such a run for every size of the buffer. `CursorKeptIsHonest`: none does when the intake
  reads without a cursor only while it has no coverage.
- **A known alert may be dropped.** A poll that refuses a known occurrence that still fires neither keeps nor resolves it.
  `AlternatesUntilRefused` proves the account right exactly up to the first such poll; `TimelyRunAlternates` and
  `RoomyRunAlternates` give two conditions under which there is none, and `KnownOccurrenceDropped` reaches one for every
  memory bound.
- **Losses recorded out of order.** The loss of the connector is recorded without looking at the latest time on record, so
  completion times increase strictly exactly when every such loss comes later (`RecordedInOrder`, `LossRecordedEarlier`).
- **A replay can let an alert in.** An occurrence announced to end in the future and refused for want of any coverage is
  let in when its page is delivered again after coverage began (`ReplayedAlertAdmittedExactly`, `ReplayLetsIn`).
- **An end does not repeat its start.** A resolved alert carries the labels, annotations and link that the last answered
  poll listed, not those of the item that reported its start (`EndSaysAsStartExactly`, `DetailsMayChange`).
- **One gap for an outage.** A watch that fails while an outage is known adds no gap. The stream then holds one since the
  latest snapshot (`OutageIsDeclared`), but a reconciliation accepted in between lets readers answer again. Then the loss
  is on the stream nowhere: `SecondLossIsUnsaid` is a run in which every reader goes on answering and claiming the scope
  until the retry takes its snapshot. `LossSilencesExactly`: a loss keeps caught-up readers from answering if and only if
  no outage was known, or no listing has counted since it was declared.
- **The gateway's entry is the newest session, not the newest live one.** When the newer of two sessions ends first, the
  older one lives on without an entry (`EntryIsNewestLiveExactly`, `OlderIsNotReinstated`).
- **The id pattern is wider than a DNS label.** Its end anchor also stands before one final line break
  (`IdIsLabelExactly`).
- **A key names its scope only without slashes** in namespace and kind (`KeyNamesItsScope`).

## Model

| member | source | states |
|---|---|---|
| `Wire.CursorRoundTrip` | packages/connector/wire.py:370-378 | parsing a printed cursor gives back epoch and sequence for every non-empty epoch, one containing the separator included; an empty epoch is malformed |
| `Wire.CursorCanonical` | packages/connector/wire.py:374-378 | a cursor that parses is printed back unchanged exactly when its number has no leading zero |
| `Wire.KeyNamesItsScope` | packages/rca/live.py:145-150 | the scope read from an object's key is the object's own exactly when neither namespace nor kind contains a slash |
| `Wire.KeyIsTheObject` | packages/rca/model.py:34-41 | with no slash in namespace or kind, two objects share a key if and only if namespace, kind and name agree |
| `Wire.EventKeyIsTheEvent` | packages/connector/service.py:76-79 | two Events share an identity if and only if their UIDs agree, or, both without one, their namespaces and names |
| `Streams.StreamBuffer.constructor` | packages/connector/streams.py:21-29 | a new buffer is empty, numbers from 1 and has no snapshot |
| `Streams.StreamBuffer.Append` | packages/connector/streams.py:35-43 | the item gets the next number, the epoch's log grows by it, and exactly the last max_len items stay buffered |
| `Streams.StreamBuffer.FirstSeq` | packages/connector/streams.py:45-47 | the number of the oldest buffered item, or the next number of an empty buffer |
| `Streams.StreamBuffer.HasBaseline` | packages/connector/streams.py:49-51 | whether the begin of the latest snapshot is still buffered |
| `Streams.StreamBuffer.MarkBaseline` | packages/connector/streams.py:53-55 | only the snapshot marker changes |
| `Streams.StreamBuffer.Locate` | packages/connector/streams.py:63-86 | where a read starts and which gap it declares: after a cursor still covered, else at the snapshot (or oldest item) under CONNECTOR_RESTART or BUFFER_EXPIRED, else no snapshot or a malformed cursor |
| `Streams.StreamBuffer.Serve` | packages/connector/streams.py:96-96 | the served items are the first `limit` buffered items after the start, in order |
| `Streams.StreamBuffer.Split` | packages/connector/streams.py:102-103 | gaps and other items are separated, each in order, nothing lost |
| `Streams.StreamBuffer.Assemble` | packages/connector/streams.py:87-105 | the page: synthetic gap first, served items and gaps, and the cursor of the last item served |
| `Streams.StreamBuffer.Read` | packages/connector/streams.py:57-105 | the whole read as a function of the epoch's log, the marker and the cursor |
| `Streams.ReadIsContiguousOrDeclared` | packages/connector/streams.py:63-98 | within an epoch a read continues at the very next item, or declares BUFFER_EXPIRED and starts at the buffered snapshot ahead of the cursor, or fails exactly when neither is possible |
| `Streams.ReadStartsAtOldest` | packages/connector/streams.py:63-86 | without the need of a snapshot every read starts: after a cursor still covered, else at the oldest item buffered, declaring the expiry or the restart if there was a cursor |
| `Paging.SplitThenSort` | packages/connector/client.py:65-68 | an increasing run split into items and gaps and sorted by sequence is the run again |
| `Paging.PagingIsLossless` | packages/connector/client.py:65-68 | reading back any page gives the served run with the synthetic gap first |
| `Paging.ExhaustedMeansAtTheEnd` | packages/connector/client.py:70-71 | an exhausted page's cursor stands at the end of the buffer; any other page moves on, save one that carries only a declared gap |
| `Mirrors.FoldConcat` | packages/connector/client.py:455-530 | applying two stretches of a stream one after the other is applying them joined |
| `Mirrors.BaselineRecovery` | packages/connector/client.py:484-550 | from any two mirror states, the same stretch from a global snapshot's begin past its end leaves the same objects, gapped scopes, completeness, failures and readiness |
| `Trust.ServesExactly` | packages/connector/client.py:565-570 | a mirror answers if and only if, in the items it read, a snapshot has finished since the last loss that needs one, none is half read, and a listing was accepted since the last failed read |
| `Trust.ClaimsExactly` | packages/connector/client.py:572-585 | a scope is claimed complete if and only if its latest listing was complete and no gap of it is open |
| `Trust.FailsExactly` | packages/connector/client.py:517-550 | a failure is reported if and only if the latest accepted listing reported it and its scope was not relisted since |
| `Trust.BlockedExactly` | packages/connector/client.py:487-492 | a mirror refuses to answer since an instant if and only if that is the latest failed read and no listing was accepted after it |
| `Holdings.KeyNamesItsNamespace` | packages/connector/client.py:578-578 | the first part of an object's key is its own namespace if and only if that holds no slash |
| `Holdings.FoldHoldsOwn` | packages/connector/client.py:455-550 | whatever was read, objects, staging and a relist half read hold every body under its own key |
| `Following.ReadIntoFields` | packages/connector/client.py:552-563 | what one page does to mirror, gaps, epoch, cursor and place in the stream |
| `Following.PutRun` | packages/connector/client.py:455-465 | following a stamped run: first and last number, the first instant, and the latest instant as connector time |
| `Following.AppliedCountsItems` | packages/connector/client.py:466-471 | the number of items applied is the number read that are no heartbeats |
| `ClusterReading.StreamedClusterReader.constructor` | packages/connector/client.py:324-366 | a new reader holds nothing and is nowhere |
| `ClusterReading.StreamedClusterReader.Note` | packages/connector/client.py:455-465 | connector time only moves forward; first and last number and first instant come from buffered items alone |
| `ClusterReading.StreamedClusterReader.Apply` | packages/connector/client.py:455-530 | one item, in full: place, count, gap kept, mirror; the mirror stays the fold of everything ever applied |
| `ClusterReading.StreamedClusterReader.ApplyContent` | packages/connector/client.py:484-530 | what each kind of item does to the mirror, heartbeats nothing |
| `ClusterReading.StreamedClusterReader.ApplyObjectBody` | packages/connector/client.py:492-514 | a body goes to the scope's staging, the snapshot's staging or the objects, in that order of precedence |
| `ClusterReading.StreamedClusterReader.EndScopeSnapshot` | packages/connector/client.py:533-550 | a completed relist replaces exactly its scope and heals it; one without its begin, or incomplete, changes nothing else |
| `ClusterReading.StreamedClusterReader.EndListingStatus` | packages/connector/client.py:517-530 | a snapshot's end swaps the staging in; an end without its begin and a delta before any snapshot prove nothing |
| `ClusterReading.StreamedClusterReader.Enter` | packages/connector/client.py:555-558 | another epoch is followed from its first item read |
| `ClusterReading.StreamedClusterReader.ApplyPage` | packages/connector/client.py:555-561 | a page applied in sequence order, then its cursor kept |
| `ClusterReading.StreamedClusterReader.ReadOnce` | packages/connector/client.py:553-563 | one page is the declared gap and a contiguous run; it ends at the buffer's end or moves on |
| `ClusterReading.StreamedClusterReader.Drain` | packages/connector/client.py:552-563 | against an unchanging buffer the drain ends for every page limit of at least 1, at the end of the buffer, and the pages together are one read from where the reader had to start |
| `ClusterReading.DrainedFurther` | packages/connector/client.py:552-563 | one more page after a drain is a longer drain |
| `ClusterReading.StreamedClusterReader.Current` | packages/connector/client.py:565-585 | answers, raises for a failed read with its instant, or raises for a missing snapshot, each exactly when the items read say so; an answer is the bodies whose own namespace is asked for, each once and sorted by key, the scopes that may be claimed, and exactly the failures that stand in these namespaces |
| `ClusterReading.StreamedClusterReader.ListObjects` | packages/connector/client.py:572-585 | the same after draining the stream: bodies by their own namespace field, "_cluster" where it is absent; precisely the scopes whose latest listing was complete and that no gap is open for; the failures of these namespaces; otherwise the error |
| `ClusterReading.ObjectsInIsUnique` | packages/connector/client.py:578-580 | the sorted objects of these namespaces are one sequence |
| `ClusterReading.ObjectsAreByNamespace` | packages/connector/client.py:578-580 | asking by the namespace in the key is asking by the body's own namespace, for bodies that stand under their own keys |
| `ClusterReading.FailuresArePicked` | packages/connector/client.py:584-584 | the failures returned are those of the namespaces asked for, all of them and in their order |
| `Orders.Sorted` | packages/connector/client.py:578-578 | every element once, in strictly increasing order |
| `Orders.AscendingIsUnique` | packages/connector/client.py:578-578 | only one sequence is that |
| `Orders.TextIsByFirstDifference` | packages/connector/client.py:578-578 | the first place at which two strings differ decides their order, and a string stands before what continues it |
| `Orders.ScopesStandByNamespace` | packages/connector/service.py:718-719 | scopes stand together by namespace and within one by kind |
| `ClusterReading.StreamedClusterReader.PositionReached` | packages/connector/client.py:399-411 | the epoch followed, its first and last item read and the first instant, or nothing before anything was read |
| `ClusterReading.StreamedClusterReader.Gaps` | packages/connector/client.py:445-448 | the gaps read and not yet recorded |
| `ClusterReading.StreamedClusterReader.ForgetGaps` | packages/connector/client.py:450-453 | drops the first `count` gaps and nothing else |
| `Producing.EarliestExists` | packages/connector/service.py:614-618 | among the instants of continuous observation there is a least one to start a global gap at |
| `Producing.SnapshotFits` | packages/connector/service.py:407-437 | after any successful snapshot its begin, every listed item and its end are still buffered, whatever was buffered before |
| `Producing.ReadFindsSnapshot` | packages/connector/service.py:352-360 | a read of the change stream ends without a snapshot only if none was buffered and neither forced poll could take one |
| `Producing.ReadMissesSnapshot` | packages/connector/service.py:352-360 | and a new reader does then end without one |
| `Connectors.Connector.constructor` | packages/connector/service.py:141-161 | a started connector has seen nothing and has an empty buffer of its epoch |
| `Connectors.Connector.TakeSnapshot` | packages/connector/service.py:407-437 | refuses, untouched, a snapshot that cannot fit; otherwise the whole new state and the items appended, begin marked |
| `Connectors.Connector.PutDelta` | packages/connector/service.py:439-472 | seen, versions and continuity after a reconciliation, and the items: changed bodies, deletions a complete listing proves, changed Events, the status |
| `Connectors.Connector.PutDeletions` | packages/connector/service.py:460-464 | exactly the keys seen, not present and in a completed scope are removed and reported, each once, in sorted order |
| `Connectors.Connector.EarliestContinuous` | packages/connector/service.py:614-618 | the least instant up to which every scope was observed, or none |
| `Connectors.Connector.PollChangesOnce` | packages/connector/service.py:362-381 | snapshot when forced or none is buffered, else delta; a failure or a snapshot that cannot fit changes nothing but an optional gap |
| `Connectors.Connector.RelistScope` | packages/connector/service.py:659-703 | replaces what was seen of the scope, emits its snapshot, sets its version and takes it off the pending list; a failed list changes nothing |
| `Connectors.Connector.RetrySnapshotOnce` | packages/connector/service.py:709-720 | whether a retry was due, and its effect: a forced poll without a gap, or one relist of every pending scope, in sorted order |
| `Connectors.Connector.RegisterWatch` | packages/connector/service.py:497-501 | a fresh watch id, entered as open, with any held bookmark dropped |
| `Connectors.Connector.WatchFrom` | packages/connector/service.py:540-545 | a watch starts exactly when the scope has a version and neither it nor everything waits for a listing |
| `Connectors.Connector.ApplyWatchEvent` | packages/connector/service.py:620-657 | an event of the current generation moves the version and emits only news; one of a replaced watch changes nothing |
| `Connectors.Connector.WatchExpired` | packages/connector/service.py:551-588 | the scope's own gap and relist, or pending; without per-scope listing the global gap and snapshot; nothing when a newer snapshot came first |
| `Connectors.Connector.WatchFailed` | packages/connector/service.py:589-601 | one gap for the outage and a snapshot due |
| `Connectors.Connector.WatchEnded` | packages/connector/service.py:602-610 | continuity extended; a held bookmark adopted only if it is this watch's and newer |
| `Connectors.Connector.CloseWatch` | packages/connector/service.py:504-510 | only this watch's own entry and bookmark are discarded |
| `Connectors.Connector.HoldBookmark` | packages/connector/service.py:532-536 | a version is held only while the same watch is still open |
| `Connectors.Connector.ChangeHeartbeat` | packages/connector/service.py:705-707 | one heartbeat appended, nothing else |
| `Connectors.Connector.ReadChanges` | packages/connector/service.py:352-360 | the page and the state a read leaves, through at most two forced polls, each poll and read with its own reading of the clock |
| `Refinement.SnapshotSyncs` | packages/connector/service.py:407-437 | a snapshot's items make any mirror whatever hold exactly what the producer has seen, with the same scopes waiting |
| `Refinement.DeltaSyncs` | packages/connector/service.py:439-472 | a delta's items carry a synchronised mirror along |
| `Refinement.RelistSyncs` | packages/connector/service.py:659-703 | so does a scope's relist, also when the scope's gap was declared just before |
| `Refinement.ObservedSyncs` | packages/connector/service.py:620-657 | so does a watch event |
| `Blocks.StepTail` | packages/connector/service.py:352-720 | every producer step keeps the buffered stretch from the latest snapshot on sufficient to rebuild what the producer has seen |
| `Convergence.StepKeeps` | packages/connector/service.py:407-720 | every step of cluster and producer keeps the resume invariant, for the versions and for the positions of open watches |
| `Convergence.ObjectsResumeExactly` | packages/connector/service.py:439-657 | in every reachable state, replaying an object scope's changes after its resume version over what was seen gives exactly its current content |
| `EventReach.EventsResumeExactly` | packages/connector/service.py:439-657 | in every reachable state, for an Event scope no reconciliation moved ahead unlisted: replay reaches a current Event if and only if the scope was listed since the latest snapshot or the Event changed after the version it was left at |
| `EventReach.EventReachedExactly` | packages/connector/service.py:439-657 | in every reachable state, for every Event scope: replay reaches a current Event if and only if it changed after the resume version, or has not changed since a listing or a watch last reported it |
| `Convergence.UnlistedSnapshotExactly` | packages/rca/live.py:282-296 | at a snapshot that could not list an Event scope, the scope resumes from the remembered version, and replay reaches an Event if and only if it changed after that; `EventReach.EventsResumeExactly` carries this to every later state |
| `LostEvent.UnlistedEventIsLost` | packages/rca/live.py:282-296 | a run in which such an Event is never reached although the scope's watch may start |
| `Systems.MirrorRefinesProducer` | packages/connector/client.py:455-550 | over every run a caught-up mirror equals what the producer has seen, key by key, with the same scopes waiting, and equals what any other reader rebuilds from the latest snapshot |
| `Silence.NoSilentLoss` | packages/connector/client.py:552-563 | over every run applied numbers increase by one unless that very page declared BUFFER_EXPIRED, and another epoch always begins on a page that declared CONNECTOR_RESTART |
| `Silence.NeverOverClaims` | packages/connector/client.py:565-585 | over every run, answering and claiming completeness are exactly what the items read justify |
| `Transport.ConnectorTimeProves` | packages/connector/client.py:389-411 | over every run, when connector time is past T every followed item stamped by T was applied, or the connector run followed declared the buffer expired, or its own restart, at an instant that reaches the item |
| `Transport.DrainLeavesNothing` | packages/connector/client.py:552-563 | over every run, a reader that has read to the end of the buffer has applied every item from the begin of the snapshot its stretch started with, the latest or an earlier one; only what that snapshot replaced is left |
| `Transport.PositionTells` | packages/connector/client.py:399-411 | over every run, a reader says where it is once it has read anything: the connector run it follows, the first and last number it applied of it, and the instant of the first |
| `EndToEnd.MirrorReachesCluster` | packages/connector/service.py:352-720 | over every run a caught-up mirror replayed from the resume version is the cluster's current content of the scope |
| `EndToEnd.MirrorIsCurrent` | packages/connector/service.py:352-720 | what did not change after the resume version stands in the mirror as it is in the cluster: every object, and every current Event of a scope listed, or changed since the scope was left unlisted, that no reconciliation moved ahead |
| `EndToEnd.MirrorHoldsReported` | packages/connector/service.py:352-720 | so does every current Event, of any scope, that has not changed since a listing or a watch last reported it |
| `EndToEnd.LossWaits` | packages/connector/service.py:551-601 | a current watch that fails or expires leaves its scope waiting unless the same step relisted it or took a snapshot |
| `EndToEnd.WaitsUntilListed` | packages/connector/service.py:709-720 | a waiting scope waits until it is relisted, a snapshot replaces everything, or the connector restarts |
| `EndToEnd.NoSilentResume` | packages/connector/service.py:495-720 | over every run, between a watch's loss of continuity and the next watch of the scope that runs, the scope was relisted, a snapshot of everything was taken, or the connector restarted |
| `Losses.LossIsDeclared` | packages/connector/service.py:551-601 | a current watch that fails adds exactly one gap of everything, stamped now and open since the least instant of observation, unless an outage is known, when it adds nothing; one that expires always adds a gap first, of its scope or of everything |
| `Losses.FailedPollIsDeclared` | packages/connector/service.py:362-381 | a poll that fails leaves the state and adds exactly such a gap if it is to, and nothing otherwise |
| `Losses.LossReachesReader` | packages/connector/client.py:484-492 | over every run, after such a loss no caught-up reader of the connector run answers until a listing was reported; for a gap of the scope alone, none claims the scope |
| `Losses.OutageIsDeclared` | packages/connector/service.py:589-601 | over every run, a failure that adds no gap happens while the stream holds a gap of everything since the latest snapshot |
| `Standings.AnswersExactly` | packages/connector/client.py:565-585 | over every run, said by what happened to the connector alone: a caught-up reader answers if and only if the last listing that counts reached the cluster and nothing was lost since the last snapshot; it claims exactly the scopes that listing, or a relist since, completed and that wait for no relist; it reports exactly that listing's failures in scopes not relisted since |
| `Standings.LossSilencesExactly` | packages/connector/service.py:589-601 | over every run, a reader caught up right after a current watch failed is kept from answering if and only if no outage was known, or no listing has counted since one was declared, or everything was lost before |
| `Unsaid.SecondLossIsUnsaid` | packages/connector/service.py:589-601 | a run in which a second watch fails after a reconciliation: no gap is added, and a reader of the whole stream answers and claims its scope |
| `Deletions.DeletionsAreProven` | packages/connector/service.py:460-464 | every deletion put on the stream names something seen, and is a watch's own, or a reconciliation's whose listing is complete for the key's scope and holds no object of that key |
| `News.ChangedAreNews` | packages/connector/service.py:453-459 | a reconciliation tells exactly the listed objects that differ from what was seen last of their key, in their order |
| `News.ChangedEventsAreNews` | packages/connector/service.py:465-471 | and exactly the listed Events that do |
| `News.WatchTellsNews` | packages/connector/service.py:620-657 | a watch event tells nothing for a bookmark, a Secret or a body without a key, an Event or object exactly if it differs from what was seen, a deletion exactly if the object was seen |
| `News.ListedAreTold` | packages/connector/service.py:427-436 | a snapshot and a relist tell every listed object that has a key |
| `News.AllButSecrets` | packages/connector/service.py:373-373 | of what is listed exactly the Secrets are left out |
| `Denials.NoSecretIsTold` | packages/connector/service.py:362-720 | over every run, whatever the cluster lists or delivers, no Secret is among what was seen, on the stream, or in the mirror |
| `Observing.ContinuityIsLastObserved` | packages/connector/service.py:614-703 | over every run, the instant a scope's gap is open since is that of the step that last observed the scope: a snapshot or relist of it, a reconciliation that completed it, an event or the end of its current watch |
| `Observing.HeldForOpenWatch` | packages/connector/service.py:495-536 | over every run, the watches registered as open are the scopes' own, and a version is held only for the one that is open |
| `Observing.NewWatchHoldsNothing` | packages/connector/service.py:495-500 | a new watch has a number of its own and starts with nothing held, whatever watch of its scope is still open; no other scope is touched |
| `Observing.CloseTakesItsOwn` | packages/connector/service.py:501-510 | a watch that is over takes only its own entries |
| `Observing.EndAdoptsExactly` | packages/connector/service.py:602-612 | a watch that ends adopts the version held for it if and only if both are numbers and the held one is greater; versions never go back |
| `Retries.RetryIsSteps` | packages/connector/service.py:709-720 | a retry is steps of a run: one forced poll that declares nothing, or the relists of the pending scopes one after another |
| `Retries.SnapshotWatchesExactly` | packages/connector/service.py:483-489 | after a snapshot a scope's watch may start if and only if the listing gave it a version, nothing failed, and every watched namespace's Events have a version where the cluster gives any |
| `Witness.ReaderCatchesUp` | packages/connector/client.py:552-585 | such runs exist: one in which a change occurs, is listed and read, the reader catches up, answers and holds it |
| `WatchWitness.BookmarkIsAdopted` | packages/connector/service.py:495-618 | and one with a watch: started from the listed version, a change delivered, a newer version held for it, adopted when the server ends it |
| `Journaling.AwaitTransport` | apps/control_plane/diagnosis.py:603-653 | returns a proof exactly when, at the first turn that stops the wait, connector time read before the journaling pass was past the window and the pass succeeded; no proof means the deadline has passed, or that the reader knows no connector time, when the wait ends after one pass |
| `Journaling.ProofCoversWindow` | apps/control_plane/diagnosis.py:603-653 | over every run of the whole system, with connector time past the window, whatever was read since: each followed item stamped within the window is in the history the mirror was folded from, or that very connector run declared a loss that reaches it |
| `Journaling.BeatIsHeard` | packages/connector/service.py:705-707 | over every run, once a heartbeat was sent, a reader of that connector run that has read to the end of the buffer has reached its instant, however quiet the stream |
| `Journaling.AwaitProves` | apps/control_plane/diagnosis.py:603-653 | the wait inside such a run: when a turn proves the transport, that holds at the end of the turn's journaling pass, which succeeded |
| `Journaling.RecordStreamGaps` | apps/control_plane/diagnosis.py:749-770 | gaps are forgotten only once each has a row of its reason, its instant and its scope, and exactly those; a failed write keeps them all; nothing else is put on record |
| `Journaling.GapRecord.Record` | packages/storage/repositories.py:1066-1092 | afterwards some row has the gap's reason, instant and scope, and no two rows agree in all three |
| `Journaling.NoGapIsLost` | apps/control_plane/diagnosis.py:749-770 | over every run that forgets gaps the way `RecordStreamGaps` does, every gap among the items read has a row of its reason, instant and scope, or is still with the reader |
| `Journaling.NoGapIsInvented` | apps/control_plane/diagnosis.py:749-770 | and nothing is on record that was not there before or read |
| `Alerts.PollTracksOne` | packages/connector/service.py:299-322 | one poll keeps one fingerprint's account right if and only if a known occurrence that still fires is admitted again |
| `Alerts.AlternatesUntilRefused` | packages/connector/service.py:242-349 | over every run of polls, failed polls and deliveries the poll's items of every fingerprint alternate firing and resolved with matching starts, and the known alerts are the open ones, if and only if no poll so far refused a known occurrence that still fires |
| `Alerts.TimelyRunAlternates` | packages/connector/service.py:242-349 | they do in every run in which no delivery reports an end still to come, however small the memory |
| `Alerts.RoomyRunAlternates` | packages/connector/service.py:259-262 | they do in every run that does not overflow the memory of admitted occurrences |
| `Alerts.KnownOccurrenceDropped` | packages/connector/service.py:242-322 | for every memory bound, a known occurrence that is crowded out while young and then neither kept nor resolved |
| `AlertProducing.AlertProducer.constructor` | packages/connector/service.py:141-146 | nothing known, nothing admitted, an empty alert buffer, and a memory of 50 000 admitted occurrences |
| `AlertProducing.AlertProducer.Admit` | packages/connector/service.py:242-262 | an admitted occurrence passes; any other must be old enough, by its own duration or age, and is then remembered |
| `AlertProducing.AlertProducer.Forget` | packages/connector/service.py:260-261 | the memory keeps exactly its newest entries up to the bound |
| `AlertProducing.AlertProducer.PollAlertsOnce` | packages/connector/service.py:264-332 | the poll's items, its heartbeat with the number of alerts, and the new state, which `AlertReports` explains field by field; for a failed poll a heartbeat with the error, and a gap |
| `AlertProducing.AlertProducer.ReceiveWebhook` | packages/connector/service.py:334-349 | every delivered alert that is admitted reaches the stream; the whole delivery is counted |
| `AlertReports.CurrentIsLast` | packages/connector/service.py:289-294 | what fires now is, for each fingerprint listed as active, the last alert listed of it, with its own labels, annotations, link, start and end, empty where absent |
| `AlertReports.EveryAlertIsExplained` | packages/connector/service.py:82-98 | over every run, whatever alert the stream carries is a start, field by field as its poll last listed it; an end, as the answered poll before listed it, with the new start or the poll's time as its end, once the fingerprint is listed no more with that start; or an alert as it was delivered |
| `AlertReports.EndSaysAsStartExactly` | packages/connector/service.py:302-317 | an end carries the details of a start if and only if the last poll that listed the alert listed the same details |
| `AlertReports.DetailsMayChange` | packages/connector/service.py:302-317 | a run in which an end does not say what its start said |
| `AlertReports.NothingYoungIsTold` | packages/connector/service.py:242-262 | over every run, no occurrence is remembered, known or told that was not old enough when a poll listed it or a delivery brought it |
| `AlertReports.DeliveryTellsExactly` | packages/connector/service.py:334-349 | a delivery adds exactly the alerts that are remembered or old enough, as delivered and in their order |
| `Coverages.SuccessKeepsTrue` | packages/storage/repositories.py:102-136 | under any tolerance, a later success keeps segments disjoint, in order, only the last open, each spanning exactly its own unbroken successes |
| `Coverages.FailureKeepsTrue` | packages/storage/repositories.py:166-185 | so does a failure, which leaves no segment open |
| `Coverages.SuccessKeepsReasons` | packages/storage/repositories.py:102-136 | each segment's status is why it ended: an open one by nothing, a broken one by a success too late to extend it, a closed one by a failure, each the very next row |
| `Coverages.FailureKeepsReasons` | packages/storage/repositories.py:166-185 | a failure keeps that |
| `Coverages.ContinuesExactly` | packages/rca/alert_coverage.py:72-75 | a success extends a segment if and only if less than half a slot is missing over the slots allowed |
| `Coverages.CoverageStore.RecordSuccess` | packages/storage/repositories.py:102-136 | extends the open segment within the tolerance, else breaks it at its last success and starts a new one |
| `Coverages.CoverageStore.RecordFailure` | packages/storage/repositories.py:166-185 | ends the open segment at its last success |
| `Coverages.CoverageStore.OpenSegment` | packages/storage/repositories.py:94-101 | the latest open segment |
| `Coverages.CoverageStore.LatestPoll` | apps/control_plane/connector_intake.py:66-72 | the latest completion on record |
| `Intake.ReplayChangesNoCoverage` | apps/control_plane/connector_intake.py:111-189 | over every history, items already taken and delivered again, in any order and number, change a coverage row if and only if they hold a gap later than anything recorded while a segment is open |
| `Intake.OnlyDeclaredGapsReplay` | apps/control_plane/connector_intake.py:111-189 | of what a buffer delivers, only a gap declared for a reading can be one |
| `Intake.RetryCountsOnce` | apps/control_plane/connector_intake.py:111-189 | a page read again after it failed part of the way leaves the coverage of one uninterrupted reading, then or now, if no gap is declared, or the first attempt changed no coverage, or the gap declared again has nothing to close; and, everything buffered being earlier than the second reading, only then |
| `Intake.RecordedInOrder` | apps/control_plane/connector_intake.py:98-180 | completion times on record increase strictly if and only if no loss was recorded at a time already passed |
| `Intake.LossRecordedEarlier` | apps/control_plane/connector_intake.py:98-109 | a history in which they do not |
| `Intake.FirstCoverageStays` | apps/control_plane/connector_intake.py:74-81 | the first coverage, once there is one, never moves |
| `Intake.ReplayedAlertAdmittedExactly` | apps/control_plane/connector_intake.py:83-96 | an alert delivered again lets in exactly an unknown occurrence that ends after the coverage begun since |
| `Intake.ReplayChangesNothing` | apps/control_plane/connector_intake.py:83-189 | when no item reports an end still to come, delivering again whatever a buffer delivered changes nothing at all, if and only if it holds no declared gap later than anything recorded while a segment is open |
| `Intake.ReplayLetsIn` | apps/control_plane/connector_intake.py:83-96 | otherwise it may |
| `Records.EveryRowIsMet` | apps/control_plane/connector_intake.py:132-180 | over every history, each row on record is one poll, gap or loss that was met, with its times and its outcome or reason |
| `Records.LetInExactly` | apps/control_plane/connector_intake.py:83-96 | over every history, an occurrence is let in if and only if an alert of its fingerprint and start was met that is no resolved one that ended by the first coverage, or before any |
| `Deliveries.RedeliveryChangesNothing` | apps/control_plane/connector_intake.py:83-189 | both conditions over every run of connector, buffer and intake: evictions, restarts of either side, failed pages and losses included |
| `Deliveries.RetriedPageCountsOnce` | apps/control_plane/connector_intake.py:111-189 | the retry condition for every page a buffer serves, read again with more behind it |
| `Deliveries.DeliveredIsForward` | packages/connector/service.py:264-349 | what any run leaves in the buffer is in the order that condition asks for |
| `Deliveries.RetryLosesCoverage` | packages/connector/streams.py:87-98 | a page after a restart that, failed behind its first poll and read again, leaves less coverage than one reading |
| `Honesty.CoverageIsHonest` | apps/control_plane/connector_intake.py:98-189 | over every such run the successes of a segment are exactly the polls the connector made in its span, but for those that a reading without a cursor passed over; all of them were answered, so that a segment spans a poll that was not if and only if one passed over was not |
| `Honesty.CursorKeptIsHonest` | apps/control_plane/connector_intake.py:62-189 | when the intake reads without a cursor only while it has no coverage, there is no exception |
| `Honesty.FailureVouchedFor` | packages/connector/streams.py:68-86 | for every buffer that holds anything, a run in which a segment spans a poll that failed, passed over in that way |
| `Consuming.AlertStreamConsumer.TakeItem` | apps/control_plane/connector_intake.py:132-180 | one item's effect on coverage and occurrences, and the latest completion kept up to date |
| `Consuming.AlertStreamConsumer.ConnectorLost` | apps/control_plane/connector_intake.py:98-109 | an open segment is closed once |
| `Consuming.AlertStreamConsumer.ApplyPage` | apps/control_plane/connector_intake.py:128-199 | the cursor moves only past a page whose items were all applied; a page that fails half way keeps it |
| `Consuming.AlertStreamConsumer.Step` | apps/control_plane/connector_intake.py:111-199 | one page read from the buffer at the cursor and applied; a connector out of reach, or a refused read, is a loss |
| `Gates.SlotsAreConserved` | apps/control_plane/trace_admission.py:32-67 | in every interleaving free and taken slots make the whole, and taken ones are those of tickets admitted and not released |
| `Gates.NoOvertaking` | apps/control_plane/trace_admission.py:40-60 | whoever arrived before an admitted ticket was admitted before it or left without a slot |
| `Gates.HeadIsAwake` | apps/control_plane/trace_admission.py:40-67 | whenever a slot is free the head of the queue is awake, and its next look admits it |
| `Gates.LeavingTakesNothing` | apps/control_plane/trace_admission.py:57-60 | a ticket that left has no slot and never gets one |
| `Gates.PeakIsReached` | apps/control_plane/trace_admission.py:40-60 | the reported peak is the most that were ever in at once |
| `Gates.DeadlineIsKept` | apps/control_plane/trace_admission.py:47-56 | a ticket is in exactly at the head with a slot free, gives up exactly at or past its deadline, and sleeps exactly up to it |
| `Gates.FifoSlots.Look` | apps/control_plane/trace_admission.py:47-60 | one turn of the wait: pass at the head with a free slot, give up when the time is out, or sleep for the rest |
| `Gates.FifoSlots.Arrive` | apps/control_plane/trace_admission.py:40-60 | a new ticket joins the end of the queue and looks once |
| `Gates.FifoSlots.LookAgain` | apps/control_plane/trace_admission.py:47-60 | a woken ticket looks once more |
| `Gates.FifoSlots.Interrupt` | apps/control_plane/trace_admission.py:57-60 | an interrupted ticket leaves without a slot |
| `Gates.FifoSlots.Release` | apps/control_plane/trace_admission.py:62-66 | a holder's slot is free again and everybody is told |
| `Sessions.OneOutcome` | packages/connector/transport.py:65-94 | a request ends at most once, whatever follows |
| `Sessions.EveryRequestEnds` | packages/connector/transport.py:65-78 | in every reachable state an open request has a step of its own that brings its end nearer, and nothing takes it back |
| `Sessions.AnswerIsItsOwn` | packages/connector/transport.py:65-94 | an answer returned arrived under the request's own number; only a closed session refuses or drops one |
| `Sessions.OutcomeHasItsStep` | packages/connector/transport.py:65-78 | over every run, a request times out only at its own deadline, is refused only by a session already closed, and is answered or dropped only once it was told |
| `Sessions.NothingPendsAfterClose` | packages/connector/transport.py:87-94 | after close nothing is pending, and every open request is told or about to be |
| `Sessions.OnlyItsOwn` | packages/connector/transport.py:65-94 | a step concerning one request touches no other |
| `Sessions.FramesAreRequests` | packages/connector/transport.py:65-71 | over every run, exactly one frame is on its way for each request past sending and not refused, with the payload it was made with |
| `Sessions.EndIsMarked` | packages/connector/transport.py:87-94 | over every run, the sender is told to stop exactly once the session is closed |
| `Sessions.LiveSession.Register` | packages/connector/transport.py:65-70 | a request is refused by a closed session and pending otherwise |
| `Sessions.LiveSession.Finish` | packages/connector/transport.py:72-78 | timeout, drop or answer, according to what the request was told |
| `Sessions.LiveSession.TakeAnswer` | packages/connector/transport.py:80-85 | an answer meets only its own pending request; a late one is discarded |
| `Sessions.LiveSession.Shut` | packages/connector/transport.py:87-94 | the session is closed, nothing is pending, and all who waited are to be told that it dropped |
| `Gateways.EntryIsNewest` | packages/connector/transport.py:242-286 | in every interleaving an identity's entry is a session if and only if that is its newest session and has not finished |
| `Gateways.SupersededIsClosed` | packages/connector/transport.py:250-256 | a superseded session is closed or about to be |
| `Gateways.EntryIsNewestLiveExactly` | packages/connector/transport.py:278-286 | the newest live session has the entry if and only if nothing superseded it |
| `Gateways.OlderIsNotReinstated` | packages/connector/transport.py:278-286 | a run in which the older session lives on without an entry |
| `Gateways.ConnectorGateway.Enter` | packages/connector/transport.py:248-256 | the new session takes the entry and the one it supersedes is returned for closing |
| `Gateways.ConnectorGateway.Leave` | packages/connector/transport.py:279-283 | a session's cleanup removes the entry only if it is its own |
| `Gateways.ConnectorGateway.Lookup` | packages/connector/transport.py:188-198 | a request goes to the newest unfinished session or to none |
| `Codecs.FrameRoundTrip` | packages/connector/transport.py:45-52 | frames and messages of at least eight bytes correspond, both ways, for numbers below 2^64 |
| `Codecs.EightBytesAreANumber` | packages/connector/transport.py:45-52 | eight bytes are a number, most significant first |
| `Codecs.Base64RoundTrip` | packages/connector/enrollment.py:90-95 | every byte string survives its unpadded base64url text |
| `Codecs.Base64Canonical` | packages/connector/enrollment.py:90-95 | a text over the alphabet decodes unless one character is left over, and is printed back exactly when the unused bits are zero |
| `Codecs.LettersAreThePublished` | packages/connector/enrollment.py:90-95 | the alphabet is A to Z, a to z, 0 to 9, minus and underline |
| `Codecs.GroupsAreNumbers` | packages/connector/enrollment.py:90-95 | three bytes and their four sextets are one number, most significant first; a short group is filled up with zero bits |
| `Codecs.GroupsFollow` | packages/connector/enrollment.py:90-95 | a longer text is its groups one after the other |
| `Tokens.TokenRoundTrip` | packages/connector/enrollment.py:108-121 | a printed token is read back if and only if its id matches the pattern, its secret is non-empty without a dot, and its CA is a certificate |
| `Tokens.ParsesExactly` | packages/connector/enrollment.py:112-121 | a text is read as a token if and only if, but for space around it, it spells out id, secret and certificate with dots between |
| `Tokens.IdIsLabelExactly` | packages/connector/enrollment.py:42-42 | an id the pattern matches is a DNS label exactly when it does not end in a line break |
| `Enrollment.EnrollsExactly` | packages/connector/enrollment.py:159-197 | over every sequence of operations an enrollment succeeds if and only if it presents the latest token issued for an id neither enrolled nor disabled, by its expiry, for this CA, with a signable request |
| `Enrollment.EnrolledOnce` | packages/connector/enrollment.py:159-197 | each id is enrolled at most once |
| `Enrollment.AllowedExactly` | packages/connector/enrollment.py:220-222 | an id is allowed if and only if it was enrolled and never disabled |
| `Enrollment.DisabledForGood` | packages/connector/enrollment.py:213-218 | a disabled id stays disabled: no token, no enrollment |
| `Enrollment.IssuedTokenEnrolls` | packages/connector/enrollment.py:137-197 | the printed token of a successful creation enrolls exactly until it expires |
| `Enrollment.RecordTellsHistory` | packages/connector/enrollment.py:137-218 | over every sequence of operations, a record says when its id was first issued a token, when it was enrolled, and serial and expiry of the latest certificate signed for it; it holds a secret only while pending |
| `Enrollment.EnrollmentRefusedFor` | packages/connector/enrollment.py:159-189 | an enrollment is refused for the first of its reasons, each said by what happened before |
| `Enrollment.OthersRefusedFor` | packages/connector/enrollment.py:137-211 | and so are a creation and a renewal |
| `Enrollment.Registry.Create` | packages/connector/enrollment.py:137-157 | issues or re-issues a pending id's token, keeping when it was created; refuses anything else unchanged |
| `Enrollment.Registry.Enroll` | packages/connector/enrollment.py:159-197 | every refusal in its order and unchanged; success activates the id and burns the token |
| `Enrollment.Registry.Renew` | packages/connector/enrollment.py:199-211 | only an active id gets a new certificate |
| `Enrollment.Registry.Disable` | packages/connector/enrollment.py:213-218 | a known id becomes disabled, its token gone |
| `Enrollment.Registry.Allows` | packages/connector/enrollment.py:220-222 | whether the id is active |
| `Lifecycle.EveryCheckpointExplained` | apps/control_plane/diagnosis.py:265-312 | over every run with any pattern of failed writes, each STATUS_SNAPSHOT was written by a cycle for each of whose drafts a record of the same fact, source instant and containers stands between the previous one and this one |
| `Lifecycle.RetryRepeatsNothing` | apps/control_plane/diagnosis.py:275-286 | no fact a cycle appends agrees in fact, source instant and containers with a record an earlier cycle left since the checkpoint |
| `Lifecycle.CheckpointWaits` | apps/control_plane/diagnosis.py:298-299 | a cycle that does not write its checkpoint leaves the old one standing and only appends |
| `Lifecycle.RetryCompletes` | apps/control_plane/diagnosis.py:275-297 | a failed cycle and a retry that meets no failure leave, for every draft of the retry, a record of its fact, source instant and containers |
| `Lifecycle.CycleAppendsExactly` | apps/control_plane/diagnosis.py:265-312 | a cycle appends exactly the drafts that no record since the latest checkpoint tells, by fact, source instant and containers, and whose write succeeds; a checkpoint follows if and only if every draft is then told, one is due and its write succeeds |
| `Lifecycle.PriorIsLatest` | apps/control_plane/diagnosis.py:150-174 | what drafts are made from is the payload of the latest checkpoint and whether an eviction is anywhere on the ledger |
| `Lifecycle.PodLifecycleRecorder.FindCheckpoint` | apps/control_plane/diagnosis.py:142-147 | the latest STATUS_SNAPSHOT |
| `Lifecycle.PodLifecycleRecorder.AppendDrafts` | apps/control_plane/diagnosis.py:275-297 | appends the drafts not matched yet whose writes succeed, and whether all are there |
| `Lifecycle.PodLifecycleRecorder.Observe` | apps/control_plane/diagnosis.py:265-312 | one cycle's effect on the ledger |
| `Lifecycle.PodLifecycleRecorder.Bury` | apps/control_plane/diagnosis.py:314-332 | a tombstone of the instant given is recorded with the payload of the last record, or nothing when the write fails |
| `Pagination.Windows` | scripts/request_ledger_reconcile.py:228-236 | consecutive windows without gap or overlap, from start to stop, each as long as the step unless it ends at the stop, and none longer |
| `Pagination.WindowsCover` | scripts/request_ledger_reconcile.py:228-236 | every instant from start to stop lies in exactly one window, and no other in any |
| `Pagination.ReadWindow` | scripts/request_ledger_reconcile.py:205-225 | returns exactly the window's entries, and raises if and only if a whole page of them shares one nanosecond |
| `Pagination.ReadRange` | scripts/request_ledger_reconcile.py:239-250 | the same for a range read window by window |

## Left out

- gRPC, TLS, threads, backoff, keepalive, certificates and signing, Kubernetes Secrets and preflight probes: input and output or foreign libraries.
- Request dispatch, response limits, audit records, JSON canonicalisation and Pydantic validation: thin wrappers.
- `read_slices`: reads are grouped into slices, and a missed admission becomes failed reads; that a slot is released once, by its holder, is the gate's own rule here.
- `watch_changes_once`, `refresh_bookmarks_once` and the background loops: they only order the blocks modelled here, and any order is covered.
- Exceptions half way through a snapshot or delta: appends and digests are taken to be total once the size guard has passed.
- Event deletion in the mirror: Events are never taken back, so only current Events are claimed.
- `list_events`, superseded-version counters, heartbeat lag, watch statistics, observation times per body: measurement, or a plain filter of what is modelled.
- `Systems.MirrorRefinesProducer`: in the whole-system runs a read is preceded by the forced polls as steps of their own.
- `Journaling.AwaitTransport`: the log lines are not modelled, and what a pass reads is a parameter; `Journaling.AwaitProves` puts the wait inside a run.
- `Gates.FifoSlots.Look`: the condition variable is the set of sleeping tickets; a thread between two waits is one method call, so the waiting loop is the caller's.
- `Sessions.LiveSession.Register`: a request's slot is named by the request's number instead of being shared as an object; the wait itself is between method calls.
- `Alerts.AlternatesUntilRefused`: starts and ends are text or absent; a listed alert whose fields have other types is not modelled.
- `Deliveries.RetriedPageCountsOnce`: speaks of a second reading that starts where the first did; when the buffer has evicted that place in between, `Deliveries.RedeliveryChangesNothing` still says what the items taken twice can change.
- `Intake.ReplayChangesNothing`: incidents are the set of occurrences let in; refired and resolved outcomes belong to the incident manager.
- `Codecs.Base64Canonical`: Python's decoder also skips characters outside the alphabet; such texts count as no certificate here.
- `Enrollment.Registry.Create`: the random secret is a parameter; concurrent registry calls are not modelled.
- `Lifecycle.PodLifecycleRecorder.Observe`: one instance's ledger; the namespace and kind guards select it.
- `Pagination.ReadWindow`: the entry's key is taken to identify it.
- Storage, migrations, routes, the console, retention, the scheduler, the RCA engine and the other scripts.
