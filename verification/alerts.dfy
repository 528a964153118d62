/** The alert stream: one admission rule for two paths, and a poll that turns what Alertmanager holds now into
    occurrences that begin and end. */
module Alerts {
  import opened Text
  import opened Wire
  import opened Streams

  const ADMITTED_MEMORY: nat := 50_000

  /** What the alert path is configured with, and the two readings of time it relies on. */
  datatype Rules = Rules(minActive: int, memory: nat, instant: string -> Option<Time>, isoFormat: Time -> string)

  /** An occurrence: a fingerprint and the text of its start. */
  datatype Occurrence = Occurrence(fingerprint: string, start: string)

  /** An alert as Alertmanager lists it. */
  datatype Raw = Raw(active: bool, fingerprint: Option<string>, startsAt: Option<string>, endsAt: Option<string>,
                     labels: Option<map<string, string>>, annotations: Option<map<string, string>>,
                     generator: Option<string>)

  datatype AlertState = AlertState(known: seq<Alert>, admitted: seq<Occurrence>, b: Buffer)

  // ---- dictionaries in insertion order --------------------------------------------------------

  predicate Distinct(d: seq<Alert>) {
    forall i, j :: 0 <= i < j < |d| ==> d[i].fingerprint != d[j].fingerprint
  }

  function Get(d: seq<Alert>, fingerprint: string): (r: Option<Alert>)
    ensures r.Some? ==> r.value in d && r.value.fingerprint == fingerprint
    ensures r.None? <==> forall i :: 0 <= i < |d| ==> d[i].fingerprint != fingerprint
  {
    if d == [] then None
    else if d[|d| - 1].fingerprint == fingerprint then Some(d[|d| - 1])
    else Get(d[..|d| - 1], fingerprint)
  }

  function Set(d: seq<Alert>, alert: Alert): seq<Alert> {
    if d == [] then [alert]
    else if d[|d| - 1].fingerprint == alert.fingerprint then d[..|d| - 1] + [alert]
    else Set(d[..|d| - 1], alert) + [d[|d| - 1]]
  }

  // ---- admission ------------------------------------------------------------------------------

  function KeyOf(alert: Alert): Occurrence {
    Occurrence(alert.fingerprint, OrNone(alert.startsAt))
  }

  function InstantOf(rules: Rules, text: Option<string>): Option<Time> {
    if text.None? || text.value == "" then None else rules.instant(text.value)
  }

  /** Old enough: a resolved occurrence by how long it lasted, a firing one by how long it has been active. */
  predicate OldEnough(rules: Rules, alert: Alert, now: Time) {
    var began, ended := InstantOf(rules, alert.startsAt), InstantOf(rules, alert.endsAt);
    rules.minActive <= 0 || began.None?
    || (if alert.resolved && ended.Some? then ended.value else now) - began.value >= rules.minActive
  }

  predicate Admits(rules: Rules, admitted: seq<Occurrence>, alert: Alert, now: Time) {
    KeyOf(alert) in admitted || OldEnough(rules, alert, now)
  }

  /** Forget the oldest beyond the bound. */
  function Trim(admitted: seq<Occurrence>, memory: nat): (r: seq<Occurrence>)
    ensures |r| <= memory && |r| <= |admitted|
  {
    if |admitted| <= memory then admitted else admitted[|admitted| - memory..]
  }

  function Remember(rules: Rules, admitted: seq<Occurrence>, alert: Alert, now: Time): seq<Occurrence> {
    if KeyOf(alert) in admitted || !OldEnough(rules, alert, now) then admitted
    else Trim(admitted + [KeyOf(alert)], rules.memory)
  }

  function RememberAll(rules: Rules, admitted: seq<Occurrence>, alerts: seq<Alert>, now: Time): seq<Occurrence> {
    if alerts == [] then admitted
    else Remember(rules, RememberAll(rules, admitted, alerts[..|alerts| - 1], now), alerts[|alerts| - 1], now)
  }

  function AdmittedOf(rules: Rules, admitted: seq<Occurrence>, alerts: seq<Alert>, now: Time): seq<Alert> {
    if alerts == [] then []
    else
      var front, last := alerts[..|alerts| - 1], alerts[|alerts| - 1];
      AdmittedOf(rules, admitted, front, now)
      + if Admits(rules, RememberAll(rules, admitted, front, now), last, now) then [last] else []
  }

  // ---- one poll -------------------------------------------------------------------------------

  /** A listed alert in the shape a delivery has. */
  function Payload(raw: Raw): Alert
    requires raw.fingerprint.Some?
  {
    Alert(raw.fingerprint.value, false, raw.startsAt, raw.endsAt,
          Details(raw.labels.GetOr(map[]), raw.annotations.GetOr(map[]), raw.generator))
  }

  /** What fires now, one alert a fingerprint. */
  function CurrentOf(alerts: seq<Raw>): seq<Alert> {
    if alerts == [] then []
    else
      var last := alerts[|alerts| - 1];
      if last.active && last.fingerprint.Some?
      then Set(CurrentOf(alerts[..|alerts| - 1]), Payload(last))
      else CurrentOf(alerts[..|alerts| - 1])
  }

  predicate StillFiring(current: seq<Alert>, alert: Alert) {
    var later := Get(current, alert.fingerprint);
    later.Some? && later.value.startsAt == alert.startsAt
  }

  /** An occurrence that is gone, or replaced by one that started later, ended at the latest when that one began. */
  function EndedBy(rules: Rules, current: seq<Alert>, alert: Alert, at: Time): Alert {
    var later := Get(current, alert.fingerprint);
    alert.(resolved := true,
           endsAt := Some(if later.Some? && later.value.startsAt.Some? then later.value.startsAt.value
                          else rules.isoFormat(at)))
  }

  function EndOf(rules: Rules, current: seq<Alert>, alert: Alert, at: Time): seq<Item> {
    if StillFiring(current, alert) then [] else [AlertItem(at, FromPoll, EndedBy(rules, current, alert, at))]
  }

  function Ends(rules: Rules, known: seq<Alert>, current: seq<Alert>, at: Time): seq<Item> {
    if known == [] then []
    else Ends(rules, known[..|known| - 1], current, at) + EndOf(rules, current, known[|known| - 1], at)
  }

  function StartOf(known: seq<Alert>, alert: Alert, at: Time): seq<Item> {
    if StillFiring(known, alert) then [] else [AlertItem(at, FromPoll, alert)]
  }

  function Starts(known: seq<Alert>, admitted: seq<Alert>, at: Time): seq<Item> {
    if admitted == [] then []
    else Starts(known, admitted[..|admitted| - 1], at) + StartOf(known, admitted[|admitted| - 1], at)
  }

  /** The heartbeat of a poll that was answered with so many alerts, and of one that was not. */
  function Answered(attempted: Time, at: Time, count: nat): Item {
    Heartbeat(attempted, at, true, Some(count), None)
  }

  function Unanswered(attempted: Time, at: Time, error: string): Item {
    Heartbeat(attempted, at, false, None, Some(error))
  }

  function PollItems(rules: Rules, s: AlertState, alerts: seq<Raw>, attempted: Time, at: Time): seq<Item> {
    Ends(rules, s.known, CurrentOf(alerts), at)
    + Starts(s.known, AdmittedOf(rules, s.admitted, CurrentOf(alerts), at), at)
    + [Answered(attempted, at, |alerts|)]
  }

  function PollAlerts(rules: Rules, s: AlertState, alerts: seq<Raw>, attempted: Time, at: Time): AlertState {
    AlertState(AdmittedOf(rules, s.admitted, CurrentOf(alerts), at),
               RememberAll(rules, s.admitted, CurrentOf(alerts), at),
               s.b.Append(PollItems(rules, s, alerts, attempted, at)))
  }

  function FailureItems(attempted: Time, at: Time, error: string): seq<Item> {
    [Unanswered(attempted, at, error), Gap(at, BackendUnreachable, None, None)]
  }

  function PollFailed(s: AlertState, attempted: Time, at: Time, error: string): AlertState {
    s.(b := s.b.Append(FailureItems(attempted, at, error)))
  }

  // ---- one webhook delivery -------------------------------------------------------------------

  function Delivered(alerts: seq<Alert>, at: Time): seq<Item> {
    if alerts == [] then []
    else Delivered(alerts[..|alerts| - 1], at) + [AlertItem(at, FromWebhook, alerts[|alerts| - 1])]
  }

  function Webhook(rules: Rules, s: AlertState, alerts: seq<Alert>, now: Time): AlertState {
    s.(admitted := RememberAll(rules, s.admitted, alerts, now),
       b := s.b.Append(Delivered(AdmittedOf(rules, s.admitted, alerts, now), now)))
  }

  // ---- what the poll's items say about one fingerprint ----------------------------------------

  /** The poll's own alerts of one fingerprint, in order. */
  function Told(items: seq<Item>, fingerprint: string): seq<Alert> {
    if items == [] then []
    else
      var last := items[|items| - 1];
      Told(items[..|items| - 1], fingerprint)
      + if last.AlertItem? && last.origin == FromPoll && last.alert.fingerprint == fingerprint then [last.alert] else []
  }

  /** Firing, resolved, firing, resolved: every occurrence resolved is the one that fired just before. */
  predicate Alternates(told: seq<Alert>) {
    && (forall i :: 0 <= i < |told| ==> told[i].resolved == (i % 2 == 1))
    && (forall i :: 0 <= i < |told| - 1 && i % 2 == 0 ==> told[i + 1].startsAt == told[i].startsAt)
  }

  /** The start of the occurrence that fired last and was not resolved. */
  function OpenStart(told: seq<Alert>): Option<Option<string>> {
    if |told| % 2 == 1 then Some(told[|told| - 1].startsAt) else None
  }

  function KnownStart(known: seq<Alert>, fingerprint: string): Option<Option<string>> {
    var alert := Get(known, fingerprint);
    if alert.None? then None else Some(alert.value.startsAt)
  }

  predicate TracksOne(s: AlertState, fingerprint: string) {
    var told := Told(s.b.log, fingerprint);
    Alternates(told) && OpenStart(told) == KnownStart(s.known, fingerprint)
  }

  /** What the poll told about every fingerprint alternates, and it knows exactly the open occurrences. */
  ghost predicate Tracks(s: AlertState) {
    && Distinct(s.known) && (forall i :: 0 <= i < |s.known| ==> !s.known[i].resolved)
    && forall f :: TracksOne(s, f)
  }

  /** A known occurrence that still fires is admitted again. */
  predicate Readmits(rules: Rules, s: AlertState, alerts: seq<Raw>, at: Time) {
    forall a :: a in s.known && StillFiring(CurrentOf(alerts), a) ==>
      Get(AdmittedOf(rules, s.admitted, CurrentOf(alerts), at), a.fingerprint).Some?
  }

  lemma {:induction false} ToldConcat(a: seq<Item>, b: seq<Item>, fingerprint: string)
    ensures Told(a + b, fingerprint) == Told(a, fingerprint) + Told(b, fingerprint)
  {
    if b == [] {
      assert a + b == a;
    } else {
      ToldConcat(a, b[..|b| - 1], fingerprint);
      assert (a + b)[..|a + b| - 1] == a + b[..|b| - 1];
    }
  }

  lemma {:induction false} SetKeepsDistinct(d: seq<Alert>, alert: Alert)
    requires Distinct(d)
    ensures Distinct(Set(d, alert))
    ensures forall a :: a in Set(d, alert) ==> a == alert || a in d
  {
    if d != [] {
      var front, last := d[..|d| - 1], d[|d| - 1];
      if last.fingerprint != alert.fingerprint {
        SetKeepsDistinct(front, alert);
        var others := Set(front, alert);
        forall i | 0 <= i < |others| ensures others[i].fingerprint != last.fingerprint {
          assert others[i] in others;
        }
      }
    }
  }

  lemma {:induction false} CurrentIsDistinct(alerts: seq<Raw>)
    ensures Distinct(CurrentOf(alerts)) && forall a :: a in CurrentOf(alerts) ==> !a.resolved
  {
    if alerts != [] {
      var last := alerts[|alerts| - 1];
      CurrentIsDistinct(alerts[..|alerts| - 1]);
      if last.active && last.fingerprint.Some? {
        SetKeepsDistinct(CurrentOf(alerts[..|alerts| - 1]),
                         Payload(last));
      }
    }
  }

  lemma {:induction false} AdmittedIsDistinct(rules: Rules, admitted: seq<Occurrence>, alerts: seq<Alert>, now: Time)
    requires Distinct(alerts)
    ensures var kept := AdmittedOf(rules, admitted, alerts, now);
            && Distinct(kept) && (forall a :: a in kept ==> a in alerts)
            && forall f :: Get(kept, f).Some? ==> Get(kept, f) == Get(alerts, f)
  {
    if alerts != [] {
      var front, last := alerts[..|alerts| - 1], alerts[|alerts| - 1];
      AdmittedIsDistinct(rules, admitted, front, now);
      var kept := AdmittedOf(rules, admitted, front, now);
      forall i | 0 <= i < |kept| ensures kept[i].fingerprint != last.fingerprint {
        assert kept[i] in front;
      }
      if Admits(rules, RememberAll(rules, admitted, front, now), last, now) {
        assert (kept + [last])[..|kept|] == kept;
      }
    }
  }

  lemma {:induction false} ToldOne(item: Item, fingerprint: string)
    ensures Told([item], fingerprint) ==
            if item.AlertItem? && item.origin == FromPoll && item.alert.fingerprint == fingerprint then [item.alert]
            else []
  {
    assert [item][..0] == [];
  }

  lemma {:induction false} ToldEnds(rules: Rules, known: seq<Alert>, current: seq<Alert>, at: Time, fingerprint: string)
    requires Distinct(known)
    ensures var a := Get(known, fingerprint);
            Told(Ends(rules, known, current, at), fingerprint)
            == if a.Some? && !StillFiring(current, a.value) then [EndedBy(rules, current, a.value, at)] else []
  {
    if known != [] {
      var front, last := known[..|known| - 1], known[|known| - 1];
      ToldEnds(rules, front, current, at, fingerprint);
      ToldConcat(Ends(rules, front, current, at), EndOf(rules, current, last, at), fingerprint);
      ToldOne(AlertItem(at, FromPoll, EndedBy(rules, current, last, at)), fingerprint);
    }
  }

  lemma {:induction false} ToldStarts(known: seq<Alert>, admitted: seq<Alert>, at: Time, fingerprint: string)
    requires Distinct(admitted)
    ensures var a := Get(admitted, fingerprint);
            Told(Starts(known, admitted, at), fingerprint)
            == if a.Some? && !StillFiring(known, a.value) then [a.value] else []
  {
    if admitted != [] {
      var front, last := admitted[..|admitted| - 1], admitted[|admitted| - 1];
      ToldStarts(known, front, at, fingerprint);
      ToldConcat(Starts(known, front, at), StartOf(known, last, at), fingerprint);
      ToldOne(AlertItem(at, FromPoll, last), fingerprint);
    }
  }

  /** What one poll tells about one fingerprint: the end of what was known and is no longer, then the start of what is
      admitted and was not known. */
  lemma {:induction false} ToldByPoll(rules: Rules, s: AlertState, alerts: seq<Raw>, attempted: Time, at: Time,
                                      fingerprint: string)
    requires Distinct(s.known)
    ensures var current := CurrentOf(alerts);
            var known, kept := Get(s.known, fingerprint), Get(AdmittedOf(rules, s.admitted, current, at), fingerprint);
            Told(PollItems(rules, s, alerts, attempted, at), fingerprint)
            == (if known.Some? && !StillFiring(current, known.value) then [EndedBy(rules, current, known.value, at)]
                else [])
               + (if kept.Some? && !StillFiring(s.known, kept.value) then [kept.value] else [])
  {
    var current := CurrentOf(alerts);
    var kept := AdmittedOf(rules, s.admitted, current, at);
    CurrentIsDistinct(alerts);
    AdmittedIsDistinct(rules, s.admitted, current, at);
    ToldEnds(rules, s.known, current, at, fingerprint);
    ToldStarts(s.known, kept, at, fingerprint);
    var ends, starts := Ends(rules, s.known, current, at), Starts(s.known, kept, at);
    ToldConcat(ends, starts, fingerprint);
    ToldConcat(ends + starts, [Answered(attempted, at, |alerts|)], fingerprint);
    ToldOne(Answered(attempted, at, |alerts|), fingerprint);
  }

  lemma {:induction false} EndsOpen(told: seq<Alert>, end: Alert)
    requires Alternates(told) && OpenStart(told) == Some(end.startsAt) && end.resolved
    ensures Alternates(told + [end]) && OpenStart(told + [end]) == None
  {
  }

  lemma {:induction false} StartsClosed(told: seq<Alert>, start: Alert)
    requires Alternates(told) && OpenStart(told) == None && !start.resolved
    ensures Alternates(told + [start]) && OpenStart(told + [start]) == Some(start.startsAt)
  {
  }

  lemma {:induction false} AlternatesOn(told: seq<Alert>, ended: seq<Alert>, started: seq<Alert>)
    requires Alternates(told) && |ended| <= 1 && |started| <= 1
    requires ended != [] ==> OpenStart(told) == Some(ended[0].startsAt) && ended[0].resolved
    requires started != [] ==> (OpenStart(told).None? || ended != []) && !started[0].resolved
    ensures Alternates(told + (ended + started))
    ensures OpenStart(told + (ended + started)) == if started != [] then Some(started[0].startsAt)
                                                   else if ended != [] then None else OpenStart(told)
  {
    hide Alternates, OpenStart;
    if ended != [] {
      EndsOpen(told, ended[0]);
      assert ended == [ended[0]];
    }
    assert told + ended == if ended == [] then told else told + [ended[0]];
    if started != [] {
      StartsClosed(told + ended, started[0]);
      assert started == [started[0]] && told + (ended + started) == told + ended + [started[0]];
    } else {
      assert told + (ended + started) == told + ended;
    }
  }

  /** One poll keeps the account of one fingerprint right exactly when a known occurrence that still fires is admitted
      again. */
  lemma {:induction false} PollTracksOne(rules: Rules, s: AlertState, alerts: seq<Raw>, attempted: Time, at: Time,
                                         fingerprint: string)
    requires Tracks(s)
    ensures var known := Get(s.known, fingerprint);
            TracksOne(PollAlerts(rules, s, alerts, attempted, at), fingerprint)
            <==> (known.Some? && StillFiring(CurrentOf(alerts), known.value) ==>
                    Get(AdmittedOf(rules, s.admitted, CurrentOf(alerts), at), fingerprint).Some?)
  {
    var current, told := CurrentOf(alerts), Told(s.b.log, fingerprint);
    var known, kept := Get(s.known, fingerprint), Get(AdmittedOf(rules, s.admitted, current, at), fingerprint);
    CurrentIsDistinct(alerts);
    AdmittedIsDistinct(rules, s.admitted, current, at);
    ToldByPoll(rules, s, alerts, attempted, at, fingerprint);
    ToldConcat(s.b.log, PollItems(rules, s, alerts, attempted, at), fingerprint);
    assert TracksOne(s, fingerprint);
    var ended := if known.Some? && !StillFiring(current, known.value) then [EndedBy(rules, current, known.value, at)]
                 else [];
    var started := if kept.Some? && !StillFiring(s.known, kept.value) then [kept.value] else [];
    AlternatesOn(told, ended, started);
  }

  /** One poll keeps the whole account right exactly when it admits again every known occurrence that still fires. */
  lemma {:induction false} PollTracks(rules: Rules, s: AlertState, alerts: seq<Raw>, attempted: Time, at: Time)
    requires Tracks(s)
    ensures Tracks(PollAlerts(rules, s, alerts, attempted, at)) <==> Readmits(rules, s, alerts, at)
  {
    var n := PollAlerts(rules, s, alerts, attempted, at);
    CurrentIsDistinct(alerts);
    AdmittedIsDistinct(rules, s.admitted, CurrentOf(alerts), at);
    forall f
      ensures TracksOne(n, f) <==> (Get(s.known, f).Some? && StillFiring(CurrentOf(alerts), Get(s.known, f).value) ==>
                                             Get(AdmittedOf(rules, s.admitted, CurrentOf(alerts), at), f).Some?) {
      PollTracksOne(rules, s, alerts, attempted, at, f);
    }
    forall a | a in s.known ensures Get(s.known, a.fingerprint) == Some(a) {
      GetOwn(s.known, a);
    }
  }

  lemma {:induction false} GetOwn(d: seq<Alert>, alert: Alert)
    requires Distinct(d) && alert in d
    ensures Get(d, alert.fingerprint) == Some(alert)
  {
    if d[|d| - 1] != alert {
      GetOwn(d[..|d| - 1], alert);
    }
  }

  // ---- runs -----------------------------------------------------------------------------------

  datatype AlertStep =
    | Polls(raws: seq<Raw>, attempted: Time, at: Time)
    | PollFails(attempted: Time, at: Time, error: string)
    | Delivers(alerts: seq<Alert>, at: Time)

  function NextAlerts(rules: Rules, s: AlertState, step: AlertStep): AlertState {
    match step
    case Polls(alerts, attempted, at) => PollAlerts(rules, s, alerts, attempted, at)
    case PollFails(attempted, at, error) => PollFailed(s, attempted, at, error)
    case Delivers(alerts, at) => Webhook(rules, s, alerts, at)
  }

  function Begun(epoch: string, maxLen: nat): AlertState {
    AlertState([], [], Streams.Fresh(epoch, maxLen))
  }

  predicate IsAlertRun(rules: Rules, states: seq<AlertState>, steps: seq<AlertStep>) {
    && |states| == |steps| + 1
    && states[0] == Begun(states[0].b.epoch, states[0].b.maxLen)
    && forall i :: 0 <= i < |steps| ==> Follows(rules, states, steps, i)
  }

  predicate Follows(rules: Rules, states: seq<AlertState>, steps: seq<AlertStep>, i: nat)
    requires i < |steps| && |states| == |steps| + 1
  {
    states[i + 1] == NextAlerts(rules, states[i], steps[i])
  }

  predicate StepReadmits(rules: Rules, s: AlertState, step: AlertStep) {
    step.Polls? ==> Readmits(rules, s, step.raws, step.at)
  }

  lemma {:induction false} ToldNothing(items: seq<Item>, fingerprint: string)
    requires forall i :: 0 <= i < |items| ==> items[i].AlertItem? ==> items[i].origin == FromWebhook
    ensures Told(items, fingerprint) == []
  {
    if items != [] {
      ToldNothing(items[..|items| - 1], fingerprint);
    }
  }

  lemma {:induction false} DeliveredAreWebhooks(alerts: seq<Alert>, at: Time)
    ensures forall i :: 0 <= i < |Delivered(alerts, at)| ==>
              Delivered(alerts, at)[i].AlertItem? && Delivered(alerts, at)[i].origin == FromWebhook
  {
    if alerts != [] {
      DeliveredAreWebhooks(alerts[..|alerts| - 1], at);
    }
  }

  lemma {:induction false} SilentKeeps(s: AlertState, items: seq<Item>, admitted: seq<Occurrence>)
    requires Tracks(s)
    requires forall i :: 0 <= i < |items| ==> items[i].AlertItem? ==> items[i].origin == FromWebhook
    ensures Tracks(s.(b := s.b.Append(items), admitted := admitted))
  {
    forall f ensures TracksOne(s.(b := s.b.Append(items), admitted := admitted), f) {
      ToldConcat(s.b.log, items, f);
      ToldNothing(items, f);
      assert TracksOne(s, f);
    }
  }

  lemma {:induction false} AlertStepTracks(rules: Rules, s: AlertState, step: AlertStep)
    requires Tracks(s)
    ensures Tracks(NextAlerts(rules, s, step)) <==> StepReadmits(rules, s, step)
  {
    match step {
      case Polls(alerts, attempted, at) => PollTracks(rules, s, alerts, attempted, at);
      case PollFails(attempted, at, error) => SilentKeeps(s, FailureItems(attempted, at, error), s.admitted);
      case Delivers(alerts, at) =>
        DeliveredAreWebhooks(AdmittedOf(rules, s.admitted, alerts, at), at);
        SilentKeeps(s, Delivered(AdmittedOf(rules, s.admitted, alerts, at), at),
                    RememberAll(rules, s.admitted, alerts, at));
    }
  }

  ghost predicate TracksUpto(states: seq<AlertState>, n: nat)
    requires n < |states|
  {
    forall i :: 0 <= i <= n ==> Tracks(states[i])
  }

  predicate ReadmitsUpto(rules: Rules, states: seq<AlertState>, steps: seq<AlertStep>, n: nat)
    requires n <= |steps| < |states|
  {
    forall i :: 0 <= i < n ==> StepReadmits(rules, states[i], steps[i])
  }

  lemma {:induction false} NothingTracks(s: AlertState)
    requires s == Begun(s.b.epoch, s.b.maxLen)
    ensures Tracks(s)
  {
    assert s.b.log == [];
  }

  lemma {:induction false} TracksNext(rules: Rules, states: seq<AlertState>, steps: seq<AlertStep>, n: nat)
    requires IsAlertRun(rules, states, steps) && 0 < n <= |steps|
    ensures TracksUpto(states, n) <==> TracksUpto(states, n - 1) && StepReadmits(rules, states[n - 1], steps[n - 1])
  {
    if TracksUpto(states, n - 1) {
      assert Follows(rules, states, steps, n - 1);
      AlertStepTracks(rules, states[n - 1], steps[n - 1]);
    }
  }

  /** Over every run of polls, failed polls and deliveries: what the poll told of every fingerprint alternates between
      firing and resolved, start by start, and the known alerts are the open ones, for as long as no poll refuses a
      known occurrence that still fires; the poll that does breaks it. */
  lemma {:induction false} AlternatesUntilRefused(rules: Rules, states: seq<AlertState>, steps: seq<AlertStep>, n: nat)
    requires IsAlertRun(rules, states, steps) && n <= |steps|
    ensures TracksUpto(states, n) <==> ReadmitsUpto(rules, states, steps, n)
  {
    if n == 0 {
      NothingTracks(states[0]);
    } else {
      AlternatesUntilRefused(rules, states, steps, n - 1);
      TracksNext(rules, states, steps, n);
    }
  }

  // ---- when no poll refuses -------------------------------------------------------------------

  /** The text the connector writes for a missing start is no instant. */
  predicate Sane(rules: Rules) {
    rules.instant("None").None?
  }

  /** An occurrence that has been active long enough now, by the text of its start. */
  predicate Mature(rules: Rules, start: string, now: Time) {
    var began := InstantOf(rules, Some(start));
    rules.minActive <= 0 || began.None? || now - began.value >= rules.minActive
  }

  predicate MatureKeys(rules: Rules, admitted: seq<Occurrence>, now: Time) {
    forall i :: 0 <= i < |admitted| ==> Mature(rules, admitted[i].start, now)
  }

  predicate MatureAlerts(rules: Rules, alerts: seq<Alert>, now: Time) {
    forall i :: 0 <= i < |alerts| ==> Mature(rules, OrNone(alerts[i].startsAt), now)
  }

  /** A delivery that reports no end still to come. */
  predicate EndedAlready(rules: Rules, alerts: seq<Alert>, now: Time) {
    forall a :: a in alerts && a.resolved && InstantOf(rules, a.endsAt).Some? ==>
      InstantOf(rules, a.endsAt).value <= now
  }

  lemma {:induction false} OldEnoughIsMature(rules: Rules, alert: Alert, now: Time)
    requires Sane(rules) && OldEnough(rules, alert, now) && EndedAlready(rules, [alert], now)
    ensures Mature(rules, OrNone(alert.startsAt), now)
  {
    assert alert in [alert];
  }

  lemma {:induction false} MatureIsOldEnough(rules: Rules, alert: Alert, now: Time)
    requires Mature(rules, OrNone(alert.startsAt), now) && !alert.resolved
    ensures OldEnough(rules, alert, now)
  {
  }

  lemma {:induction false} AdmissionMatures(rules: Rules, admitted: seq<Occurrence>, alerts: seq<Alert>, now: Time)
    requires Sane(rules) && MatureKeys(rules, admitted, now) && EndedAlready(rules, alerts, now)
    ensures MatureKeys(rules, RememberAll(rules, admitted, alerts, now), now)
    ensures MatureAlerts(rules, AdmittedOf(rules, admitted, alerts, now), now)
  {
    if alerts != [] {
      var front, last := alerts[..|alerts| - 1], alerts[|alerts| - 1];
      AdmissionMatures(rules, admitted, front, now);
      var kept := RememberAll(rules, admitted, front, now);
      if OldEnough(rules, last, now) {
        OldEnoughIsMature(rules, last, now);
      }
      if KeyOf(last) in kept {
        var i :| 0 <= i < |kept| && kept[i] == KeyOf(last);
        assert Mature(rules, kept[i].start, now);
      }
    }
  }

  lemma {:induction false} OldEnoughIsAdmitted(rules: Rules, admitted: seq<Occurrence>, alerts: seq<Alert>,
                                               alert: Alert, now: Time)
    requires alert in alerts && OldEnough(rules, alert, now)
    ensures alert in AdmittedOf(rules, admitted, alerts, now)
  {
    if alert != alerts[|alerts| - 1] {
      OldEnoughIsAdmitted(rules, admitted, alerts[..|alerts| - 1], alert, now);
    }
  }

  predicate MatureState(rules: Rules, s: AlertState, now: Time) {
    MatureKeys(rules, s.admitted, now) && MatureAlerts(rules, s.known, now)
  }

  predicate Timely(rules: Rules, step: AlertStep, now: Time) {
    now <= step.at && (step.Delivers? ==> EndedAlready(rules, step.alerts, step.at))
  }

  lemma {:induction false} TimelyStep(rules: Rules, s: AlertState, step: AlertStep, now: Time)
    requires Sane(rules) && MatureState(rules, s, now) && Timely(rules, step, now)
    ensures MatureState(rules, NextAlerts(rules, s, step), step.at) && StepReadmits(rules, s, step)
  {
    assert MatureState(rules, s, step.at);
    match step {
      case Polls(alerts, _, at) =>
        var current := CurrentOf(alerts);
        CurrentIsDistinct(alerts);
        AdmissionMatures(rules, s.admitted, current, at);
        forall a | a in s.known && StillFiring(current, a)
          ensures Get(AdmittedOf(rules, s.admitted, current, at), a.fingerprint).Some? {
          var later := Get(current, a.fingerprint).value;
          MatureIsOldEnough(rules, later, at);
          OldEnoughIsAdmitted(rules, s.admitted, current, later, at);
        }
      case PollFails(_, _, _) =>
      case Delivers(alerts, at) => AdmissionMatures(rules, s.admitted, alerts, at);
    }
  }

  predicate TimelyRun(rules: Rules, steps: seq<AlertStep>) {
    forall i :: 0 <= i < |steps| ==> Timely(rules, steps[i], TimeBefore(steps, i))
  }

  function TimeBefore(steps: seq<AlertStep>, n: nat): Time
    requires n < |steps|
  {
    if n == 0 then steps[0].at else steps[n - 1].at
  }

  lemma {:induction false} TimelyRunMatures(rules: Rules, states: seq<AlertState>, steps: seq<AlertStep>, n: nat)
    requires IsAlertRun(rules, states, steps) && n < |steps| && Sane(rules) && TimelyRun(rules, steps)
    ensures MatureState(rules, states[n], TimeBefore(steps, n))
  {
    if n > 0 {
      TimelyRunMatures(rules, states, steps, n - 1);
      assert Follows(rules, states, steps, n - 1);
      TimelyStep(rules, states[n - 1], steps[n - 1], TimeBefore(steps, n - 1));
    }
  }

  /** While the clock does not go back and no delivery reports an end still to come, every run alternates, however small
      the memory of admitted occurrences. */
  lemma {:induction false} TimelyRunAlternates(rules: Rules, states: seq<AlertState>, steps: seq<AlertStep>)
    requires IsAlertRun(rules, states, steps) && Sane(rules) && TimelyRun(rules, steps)
    ensures TracksUpto(states, |steps|)
  {
    forall i | 0 <= i < |steps| ensures StepReadmits(rules, states[i], steps[i]) {
      TimelyRunMatures(rules, states, steps, i);
      TimelyStep(rules, states[i], steps[i], TimeBefore(steps, i));
    }
    AlternatesUntilRefused(rules, states, steps, |steps|);
  }

  /** The step cannot make the memory overflow. */
  predicate Roomy(rules: Rules, s: AlertState, step: AlertStep) {
    match step
    case Polls(alerts, _, _) => |s.admitted| + |CurrentOf(alerts)| <= rules.memory
    case PollFails(_, _, _) => true
    case Delivers(alerts, _) => |s.admitted| + |alerts| <= rules.memory
  }

  predicate KnownAdmitted(admitted: seq<Occurrence>, alerts: seq<Alert>) {
    forall a :: a in alerts ==> KeyOf(a) in admitted
  }

  lemma {:induction false} RoomyAdmission(rules: Rules, admitted: seq<Occurrence>, alerts: seq<Alert>, now: Time)
    requires |admitted| + |alerts| <= rules.memory
    ensures var after := RememberAll(rules, admitted, alerts, now);
            && |after| <= |admitted| + |alerts| && (forall k :: k in admitted ==> k in after)
            && KnownAdmitted(after, AdmittedOf(rules, admitted, alerts, now))
            && forall a :: a in alerts && KeyOf(a) in admitted ==> a in AdmittedOf(rules, admitted, alerts, now)
  {
    if alerts != [] {
      RoomyAdmission(rules, admitted, alerts[..|alerts| - 1], now);
    }
  }

  lemma {:induction false} RoomyStep(rules: Rules, s: AlertState, step: AlertStep)
    requires KnownAdmitted(s.admitted, s.known) && Roomy(rules, s, step)
    ensures StepReadmits(rules, s, step)
    ensures var n := NextAlerts(rules, s, step); KnownAdmitted(n.admitted, n.known)
  {
    match step {
      case Polls(alerts, _, at) =>
        var current := CurrentOf(alerts);
        RoomyAdmission(rules, s.admitted, current, at);
        forall a | a in s.known && StillFiring(current, a)
          ensures Get(AdmittedOf(rules, s.admitted, current, at), a.fingerprint).Some? {
          assert KeyOf(Get(current, a.fingerprint).value) == KeyOf(a);
        }
      case PollFails(_, _, _) =>
      case Delivers(alerts, at) => RoomyAdmission(rules, s.admitted, alerts, at);
    }
  }

  predicate RoomyRun(rules: Rules, states: seq<AlertState>, steps: seq<AlertStep>)
    requires |steps| < |states|
  {
    forall i :: 0 <= i < |steps| ==> Roomy(rules, states[i], steps[i])
  }

  lemma {:induction false} RoomyRunRemembers(rules: Rules, states: seq<AlertState>, steps: seq<AlertStep>, n: nat)
    requires IsAlertRun(rules, states, steps) && n <= |steps| && RoomyRun(rules, states, steps)
    ensures KnownAdmitted(states[n].admitted, states[n].known)
  {
    if n > 0 {
      RoomyRunRemembers(rules, states, steps, n - 1);
      assert Follows(rules, states, steps, n - 1);
      RoomyStep(rules, states[n - 1], steps[n - 1]);
    }
  }

  /** While the memory of admitted occurrences has not overflowed, every run alternates, whatever was delivered. */
  lemma {:induction false} RoomyRunAlternates(rules: Rules, states: seq<AlertState>, steps: seq<AlertStep>)
    requires IsAlertRun(rules, states, steps) && RoomyRun(rules, states, steps)
    ensures TracksUpto(states, |steps|)
  {
    forall i | 0 <= i < |steps| ensures StepReadmits(rules, states[i], steps[i]) {
      RoomyRunRemembers(rules, states, steps, i);
      RoomyStep(rules, states[i], steps[i]);
    }
    AlternatesUntilRefused(rules, states, steps, |steps|);
  }

  // ---- a run in which a poll does refuse ------------------------------------------------------

  const BARE := Details(map[], map[], None)
  const FIRING := Alert("X", false, Some("s"), Some("e"), BARE)
  const ANNOUNCED := FIRING.(resolved := true)
  const LISTED := [Raw(true, Some("X"), Some("s"), Some("e"), None, None, None)]

  /** X began at 0 and is said to end at 1; an occurrence must last 1 to be admitted. */
  function Limited(memory: nat): Rules {
    Rules(1, memory, text => if text == "s" then Some(0) else if text == "e" then Some(1) else None, at => "")
  }

  /** n occurrences without a start, all of different fingerprints. */
  function Flood(n: nat): (alerts: seq<Alert>)
    ensures |alerts| == n
  {
    if n == 0 then [] else Flood(n - 1) + [Alert(Decimal(n), true, None, None, BARE)]
  }

  function FloodKeys(n: nat): (keys: seq<Occurrence>)
    ensures |keys| == n
    ensures forall i :: 0 <= i < n ==> keys[i] == Occurrence(Decimal(i + 1), "None")
  {
    if n == 0 then [] else FloodKeys(n - 1) + [Occurrence(Decimal(n), "None")]
  }

  lemma {:induction false} NewKey(n: nat)
    requires n > 0
    ensures Occurrence(Decimal(n), "None") !in [KeyOf(FIRING)] + FloodKeys(n - 1)
  {
    var keys := FloodKeys(n - 1);
    forall i | 0 <= i < |keys| ensures keys[i] != Occurrence(Decimal(n), "None") {
      DecimalRoundTrip(i + 1);
      DecimalRoundTrip(n);
    }
  }

  lemma {:induction false} FloodFills(memory: nat, n: nat)
    requires 1 <= memory && n <= memory
    ensures RememberAll(Limited(memory), [KeyOf(FIRING)], Flood(n), 0) == Trim([KeyOf(FIRING)] + FloodKeys(n), memory)
  {
    if n > 0 {
      FloodFills(memory, n - 1);
      NewKey(n);
      var last := Alert(Decimal(n), true, None, None, BARE);
      assert Flood(n)[..n - 1] == Flood(n - 1) && Flood(n)[n - 1] == last;
      assert [KeyOf(FIRING)] + FloodKeys(n) == [KeyOf(FIRING)] + FloodKeys(n - 1) + [KeyOf(last)];
    }
  }

  lemma {:induction false} FloodEvicts(memory: nat)
    requires 1 <= memory
    ensures KeyOf(FIRING) !in RememberAll(Limited(memory), [KeyOf(FIRING)], Flood(memory), 0)
  {
    FloodFills(memory, memory);
    assert ([KeyOf(FIRING)] + FloodKeys(memory))[1..] == FloodKeys(memory);
  }

  lemma {:induction false} AnnouncedIsKnown(memory: nat, none: AlertState)
    requires 1 <= memory && none == Begun(none.b.epoch, none.b.maxLen)
    ensures var rules := Limited(memory);
            var known := PollAlerts(rules, Webhook(rules, none, [ANNOUNCED], 0), LISTED, 0, 0);
            Tracks(known) && known.known == [FIRING] && known.admitted == [KeyOf(FIRING)]
  {
    hide Tracks, AdmittedOf, RememberAll, CurrentOf, PollItems, Delivered;
    var rules := Limited(memory);
    var told := Webhook(rules, none, [ANNOUNCED], 0);
    NothingTracks(none);
    AlertStepTracks(rules, none, Delivers([ANNOUNCED], 0));
    OneAlert(rules, none.admitted, ANNOUNCED, 0);
    OneFiring();
    OneAlert(rules, told.admitted, FIRING, 0);
    PollTracks(rules, told, LISTED, 0, 0);
  }

  lemma {:induction false} ForgottenIsDropped(memory: nat, s: AlertState)
    requires Tracks(s) && s.known == [FIRING] && KeyOf(FIRING) !in s.admitted
    ensures var dropped := PollAlerts(Limited(memory), s, LISTED, 0, 0); dropped.known == [] && !TracksOne(dropped, "X")
  {
    hide AdmittedOf, RememberAll, CurrentOf, PollItems;
    OneFiring();
    OneAlert(Limited(memory), s.admitted, FIRING, 0);
    PollTracksOne(Limited(memory), s, LISTED, 0, 0, "X");
  }

  /** The refusal is reachable whatever the bound: an occurrence admitted by a delivery that announced its end is known
      to the poll, then crowded out of the memory while still young; the next poll neither admits nor resolves it. */
  lemma {:induction false} KnownOccurrenceDropped(memory: nat, none: AlertState)
    requires 1 <= memory && none == Begun(none.b.epoch, none.b.maxLen)
    ensures var rules := Limited(memory);
            var known := PollAlerts(rules, Webhook(rules, none, [ANNOUNCED], 0), LISTED, 0, 0);
            var crowded := Webhook(rules, known, Flood(memory), 0);
            var dropped := PollAlerts(rules, crowded, LISTED, 0, 0);
            && Tracks(crowded) && crowded.known == [FIRING]
            && dropped.known == [] && !TracksOne(dropped, "X")
  {
    var rules := Limited(memory);
    var known := PollAlerts(rules, Webhook(rules, none, [ANNOUNCED], 0), LISTED, 0, 0);
    AnnouncedIsKnown(memory, none);
    FloodEvicts(memory);
    AlertStepTracks(rules, known, Delivers(Flood(memory), 0));
    ForgottenIsDropped(memory, Webhook(rules, known, Flood(memory), 0));
  }

  lemma {:induction false} OneFiring()
    ensures CurrentOf(LISTED) == [FIRING]
    ensures Get([FIRING], "X") == Some(FIRING)
  {
    assert LISTED[..0] == [];
  }

  lemma {:induction false} OneAlert(rules: Rules, admitted: seq<Occurrence>, alert: Alert, now: Time)
    ensures RememberAll(rules, admitted, [alert], now) == Remember(rules, admitted, alert, now)
    ensures AdmittedOf(rules, admitted, [alert], now) == if Admits(rules, admitted, alert, now) then [alert] else []
  {
    assert [alert][..0] == [];
  }
}
