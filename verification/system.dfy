/** Cluster, connector and reader together: what the reader's mirror holds, what it has read, and what it was told it
    missed, over every run. */
module Systems {
  import opened Text
  import opened Wire
  import opened Streams
  import opened Paging
  import opened Mirrors
  import opened Following
  import opened Producing
  import opened Worlds
  import opened Refinement
  import opened Blocks

  /** One buffered item the reader applied, with the gap its page declared. */
  datatype Applied = Applied(epoch: string, seqNo: nat, declared: Option<GapReason>)

  /** Beside world and reader, the run's bookkeeping: the number the cursor stands at; where the current unbroken
      stretch was joined and with what mirror; the log of the connector run being followed; the numbers applied in it;
      every gap ever read, and how many of them before this connector run was entered; every item applied, numbered and
      plain. */
  datatype System = System(
    w: World,
    r: Reader,
    position: nat,
    joined: nat,
    origin: Mirror,
    stream: seq<Item>,
    applied: set<nat>,
    declared: seq<Item>,
    entered: nat,
    trace: seq<Applied>,
    history: seq<Item>)

  datatype Move = Produces(step: Step) | Reads(limit: nat, now: Time) | Forgets(count: nat)

  predicate Follows(x: System) {
    x.r.epoch == Some(x.w.s.b.epoch)
  }

  function StartFor(x: System): Result<Start, ReadError> {
    StartOf(x.w.s.b, x.r.cursor, true)
  }

  function PageFor(x: System, limit: nat, now: Time): Result<Page, ReadError> {
    ReadPage(x.w.s.b, x.r.cursor, limit, true, now)
  }

  /** A read that does not continue where the last one stopped. */
  predicate Jumps(x: System, start: Start) {
    x.r.cursor.None? || start.declared.Some?
  }

  predicate Between(n: nat, after: nat, upto: nat) {
    after < n <= upto
  }

  function Numbers(after: nat, upto: nat): set<nat> {
    set n | 0 <= n <= upto && Between(n, after, upto)
  }

  function Entries(epoch: string, after: nat, count: nat, declared: Option<GapReason>): (entries: seq<Applied>)
    ensures |entries| == count
    ensures forall i :: 0 <= i < count ==> entries[i] == Applied(epoch, after + 1 + i, declared)
  {
    seq(count, i requires 0 <= i < count => Applied(epoch, after + 1 + i, declared))
  }

  /** Apply a page that was served from `start` up to number `upto`. */
  function Advance(x: System, now: Time, start: Start, upto: nat, page: Page): System
    requires start.after <= upto
  {
    var items := ItemsIn(Ordered(page));
    System(x.w.(now := now),
           ReadInto(x.r, page),
           upto,
           if Jumps(x, start) then start.after + 1 else x.joined,
           if Jumps(x, start) then Fold(x.r.mirror, ItemsIn(Synthetic(start.declared, now))) else x.origin,
           x.w.s.b.log,
           (if Follows(x) then x.applied else {}) + Numbers(start.after, upto),
           x.declared + GapsAmong(items),
           if Follows(x) then x.entered else |x.declared|,
           x.trace + Entries(x.w.s.b.epoch, start.after, upto - start.after, start.declared),
           x.history + items)
  }

  /** The number of the last item a read serves. */
  function Upto(x: System, limit: nat): nat
    requires StartFor(x).Ok?
  {
    StartFor(x).value.after + |Served(x.w.s.b, StartFor(x).value, limit)|
  }

  ghost predicate CanMove(x: System, move: Move) {
    match move
    case Produces(step) => Enabled(x.w, step)
    case Reads(limit, now) => limit > 0 && x.w.now <= now
    case Forgets(count) => count <= |x.r.gaps|
  }

  ghost function MoveTo(x: System, move: Move): System
    requires CanMove(x, move)
  {
    match move
    case Produces(step) =>
      var w := Next(x.w, step);
      x.(w := w, stream := if x.r.epoch == Some(w.s.b.epoch) then w.s.b.log else x.stream)
    case Reads(limit, now) => 
      if StartFor(x).Err? then x.(w := x.w.(now := now))
      else Advance(x, now, StartFor(x).value, Upto(x, limit), PageFor(x, limit, now).value)
    case Forgets(count) => x.(r := x.r.(gaps := x.r.gaps[count..]))
  }

  ghost predicate Initial(x: System) {
    && Starting(x.w) && ClusterIsSound(x.w)
    && x.r == NEW_READER && x.position == 0 && x.joined == 0 && x.stream == [] && x.applied == {}
    && x.declared == [] && x.entered == 0 && x.trace == [] && x.history == []
  }

  ghost predicate IsHistory(xs: seq<System>, moves: seq<Move>) {
    && |xs| == |moves| + 1 && Initial(xs[0])
    && forall i :: 0 <= i < |moves| ==> CanMove(xs[i], moves[i]) && xs[i + 1] == MoveTo(xs[i], moves[i])
  }

  // ---- the reader's place ---------------------------------------------------------------------

  predicate NoLaterThan(log: seq<Item>, now: Time) {
    forall i :: 0 <= i < |log| && !log[i].Heartbeat? ==> log[i].at <= now
  }

  predicate BufferOk(w: World) {
    w.s.b.epoch != "" && w.s.b.epoch in w.epochs && w.s.b.BaselineInLog()
  }

  ghost predicate StreamOk(w: World) {
    BufferOk(w) && TailSyncs(w.s) && InTime(w.s.b.log) && NoLaterThan(w.s.b.log, w.now)
  }

  predicate PositionOk(x: System) {
    && (x.r.epoch.Some? ==> x.r.epoch.value in x.w.epochs && 1 <= x.joined <= x.position <= |x.stream|)
    && (Follows(x) ==> x.stream == x.w.s.b.log && x.w.s.b.baseline.Some? && x.joined <= x.w.s.b.baseline.value)
  }

  predicate CursorOk(r: Reader, position: nat) {
    && (r.cursor.None? <==> r.epoch.None?)
    && (r.epoch.Some? ==> r.epoch.value != "" && r.cursor == Some(MakeCursor(r.epoch.value, position)))
  }

  predicate PlaceOk(x: System) {
    PositionOk(x) && CursorOk(x.r, x.position)
  }

  predicate MirrorOk(x: System) {
    PlaceOk(x) && (x.r.epoch.Some? ==> x.r.mirror == Fold(x.origin, x.stream[x.joined - 1..x.position]))
  }

  lemma {:induction false} GrewInTime(b: Buffer, c: Buffer, was: Time, now: Time)
    requires InTime(b.log) && NoLaterThan(b.log, was) && was <= now && Grew(b, c, now)
    ensures InTime(c.log) && NoLaterThan(c.log, now)
  {
    assert forall i :: 0 <= i < |b.log| ==> c.log[i] == b.log[i];
    forall i | 0 <= i < |c.log| ensures !c.log[i].Heartbeat? {
      if i >= |b.log| { assert StampOf(c.log[i]) == Some(now); }
    }
    forall i | |b.log| <= i < |c.log| ensures c.log[i].at == now {
      assert StampOf(c.log[i]) == Some(now);
    }
  }

  lemma {:induction false} StreamStays(w: World, step: Step)
    requires StreamOk(w) && Enabled(w, step)
    ensures StreamOk(Next(w, step))
  {
    StepTail(w, step);
    if !step.Restarts? {
      StepGrows(w, step);
      GrewInTime(w.s.b, Next(w, step).s.b, w.now, Next(w, step).now);
      EpochsStay(w, step);
    }
  }

  lemma {:induction false} EpochsStay(w: World, step: Step)
    requires Enabled(w, step)
    ensures if step.Restarts?
            then Next(w, step).epochs == w.epochs + {step.epoch} && Next(w, step).s.b.epoch == step.epoch
            else Next(w, step).epochs == w.epochs
  {
  }

  /** What a page read by a reader in its place is: a continuation, or a jump to the latest snapshot that is declared
      unless it is the first read of all. */
  predicate GoodRead(x: System, now: Time, start: Start, upto: nat, page: Page) {
    && GoodStart(x, start, upto)
    && Ordered(page) == Synthetic(start.declared, now) + Run(x.w.s.b.log, start.after, upto)
    && page.epoch == x.w.s.b.epoch && page.nextCursor == MakeCursor(x.w.s.b.epoch, upto)
  }

  predicate GoodStart(x: System, start: Start, upto: nat) {
    var b := x.w.s.b;
    && start.after <= upto <= |b.log|
    && (Jumps(x, start) ==> b.baseline == Some(start.after + 1) && start.after < upto)
    && (!Jumps(x, start) ==> Follows(x) && start.after == x.position)
    && (start.declared.Some? ==> start.declared == Some(if Follows(x) then BufferExpired else ConnectorRestart))
    && (Follows(x) ==> x.position <= start.after)
    && (x.r.cursor.Some? && !Follows(x) ==> start.declared.Some?)
    && (x.r.cursor.None? ==> start.declared.None?)
    && (x.r.cursor.None? <==> x.r.epoch.None?)
  }

  lemma {:induction false} ReadIsGood(x: System, limit: nat, now: Time)
    requires BufferOk(x.w) && PlaceOk(x) && limit > 0 && StartFor(x).Ok?
    ensures GoodRead(x, now, StartFor(x).value, Upto(x, limit), PageFor(x, limit, now).value)
  {
    hide Ordered, ItemsOf, GapsOf, Run;
    PagingIsLossless(x.w.s.b, x.r.cursor, limit, true, now);
    if x.r.cursor.Some? {
      CursorRoundTrip(x.r.epoch.value, x.position);
    }
  }

  lemma {:induction false} AdvancedPlace(x: System, now: Time, start: Start, upto: nat, page: Page)
    requires BufferOk(x.w) && PlaceOk(x) && GoodRead(x, now, start, upto, page)
    ensures var n := Advance(x, now, start, upto, page); PlaceOk(n) && Follows(n)
  {
    ReadIntoFields(x.r, page);
  }

  lemma {:induction false} FoldGrows(origin: Mirror, log: seq<Item>, from: nat, mid: nat, upto: nat)
    requires from <= mid <= upto <= |log|
    ensures Fold(Fold(origin, log[from..mid]), log[mid..upto]) == Fold(origin, log[from..upto])
  {
    assert log[from..mid] + log[mid..upto] == log[from..upto];
    FoldConcat(origin, log[from..mid], log[mid..upto]);
  }

  lemma {:induction false} FoldNothing(m: Mirror, items: seq<Item>)
    ensures items == [] ==> Fold(m, items) == m
  {
  }

  lemma {:induction false} AdvancedMirror(x: System, now: Time, start: Start, upto: nat, page: Page)
    requires BufferOk(x.w) && MirrorOk(x) && GoodRead(x, now, start, upto, page)
    ensures var n := Advance(x, now, start, upto, page);
            n.r.mirror == Fold(n.origin, x.w.s.b.log[n.joined - 1..upto])
  {
    hide ReadInto, GapsAmong, Entries, Fold, MakeCursor, Numbers, PutAll, Ordered;
    var b, head := x.w.s.b, Synthetic(start.declared, now);
    ReadIntoFields(x.r, page);
    FoldDeclaredRun(x.r.mirror, head, b.log, start.after, upto);
    if !Jumps(x, start) {
      FoldNothing(x.r.mirror, ItemsIn(head));
      FoldGrows(x.origin, b.log, x.joined - 1, x.position, upto);
    }
  }

  lemma {:induction false} AdvancedOk(x: System, now: Time, start: Start, upto: nat, page: Page)
    requires BufferOk(x.w) && MirrorOk(x) && GoodRead(x, now, start, upto, page)
    ensures MirrorOk(Advance(x, now, start, upto, page))
  {
    AdvancedPlace(x, now, start, upto, page);
    AdvancedMirror(x, now, start, upto, page);
  }

  lemma {:induction false} GrowthKeepsMirror(x: System, n: System, now: Time)
    requires MirrorOk(x) && Grew(x.w.s.b, n.w.s.b, now) && n.w.epochs == x.w.epochs
    requires n == x.(w := n.w, stream := if Follows(x) then n.w.s.b.log else x.stream)
    ensures MirrorOk(n)
  {
    if Follows(x) {
      assert n.stream[x.joined - 1..x.position] == x.stream[x.joined - 1..x.position];
    }
  }

  lemma {:induction false} ProduceMirror(x: System, step: Step)
    requires MirrorOk(x) && Enabled(x.w, step)
    ensures MirrorOk(MoveTo(x, Produces(step)))
  {
    EpochsStay(x.w, step);
    if !step.Restarts? {
      StepGrows(x.w, step);
      GrowthKeepsMirror(x, MoveTo(x, Produces(step)), Next(x.w, step).now);
    }
  }

  lemma {:induction false} ReadStays(x: System, limit: nat, now: Time)
    requires BufferOk(x.w) && MirrorOk(x) && limit > 0 && StartFor(x).Ok?
    ensures MirrorOk(Advance(x, now, StartFor(x).value, Upto(x, limit), PageFor(x, limit, now).value))
  {
    ReadIsGood(x, limit, now);
    AdvancedOk(x, now, StartFor(x).value, Upto(x, limit), PageFor(x, limit, now).value);
  }

  lemma {:induction false} ForgetMirror(x: System, count: nat)
    requires MirrorOk(x) && count <= |x.r.gaps|
    ensures MirrorOk(x.(r := x.r.(gaps := x.r.gaps[count..])))
  {
  }

  lemma {:induction false} NowKeepsStream(w: World, now: Time)
    requires StreamOk(w) && w.now <= now
    ensures StreamOk(w.(now := now))
  {
  }

  lemma {:induction false} NowKeepsMirror(x: System, now: Time)
    requires MirrorOk(x)
    ensures MirrorOk(x.(w := x.w.(now := now)))
  {
  }

  lemma {:induction false} StreamIsBuffer(w: World)
    requires StreamOk(w)
    ensures BufferOk(w)
  {
  }

  lemma {:induction false} MirrorStays(x: System, move: Move)
    requires StreamOk(x.w) && MirrorOk(x) && CanMove(x, move)
    ensures StreamOk(MoveTo(x, move).w) && MirrorOk(MoveTo(x, move))
  {
    hide StreamOk, BufferOk, MirrorOk, Next, Enabled, PageFor, Upto, StartFor;
    StreamIsBuffer(x.w);
    match move {
      case Produces(step) =>
        StreamStays(x.w, step);
        ProduceMirror(x, step);
      case Reads(limit, now) =>
        if StartFor(x).Ok? {
          ReadStays(x, limit, now);
        } else {
          NowKeepsMirror(x, now);
        }
        NowKeepsStream(x.w, now);
      case Forgets(count) => ForgetMirror(x, count);
    }
  }

  lemma {:induction false} HistoryKeepsMirror(xs: seq<System>, moves: seq<Move>, i: nat)
    requires IsHistory(xs, moves) && i < |xs|
    ensures StreamOk(xs[i].w) && MirrorOk(xs[i])
  {
    if i > 0 {
      HistoryKeepsMirror(xs, moves, i - 1);
      MirrorStays(xs[i - 1], moves[i - 1]);
    }
  }

  /** A reader that follows the connector and has read to its end. */
  predicate CaughtUp(x: System) {
    Follows(x) && x.position == |x.w.s.b.log|
  }

  lemma {:induction false} CaughtUpFold(x: System)
    requires BufferOk(x.w) && MirrorOk(x) && CaughtUp(x)
    ensures var b := x.w.s.b;
            && b.baseline.Some?
            && x.r.mirror == Fold(Fold(x.origin, b.log[x.joined - 1..b.baseline.value - 1]), Tail(b))
  {
    hide Fold;
    var b := x.w.s.b;
    FoldGrows(x.origin, b.log, x.joined - 1, b.baseline.value - 1, |b.log|);
    assert b.log[..|b.log|] == b.log;
  }

  lemma {:induction false} CaughtUpSyncs(x: System, other: Mirror)
    requires BufferOk(x.w) && TailSyncs(x.w.s) && MirrorOk(x) && CaughtUp(x)
    ensures Synced(x.r.mirror, x.w.s.p) && x.w.s.b.baseline.Some?
    ensures SameListing(x.r.mirror, Fold(other, Tail(x.w.s.b)))
  {
    CaughtUpFold(x);
    var b := x.w.s.b;
    BaselineRecovery(Fold(x.origin, b.log[x.joined - 1..b.baseline.value - 1]), other, Tail(b));
  }

  /** Over every run, a caught-up mirror holds exactly what the producer has seen, key by key, with the same scopes
      waiting for a relist; and it is the listing any other reader gets from the latest snapshot. */
  lemma {:induction false} MirrorRefinesProducer(xs: seq<System>, moves: seq<Move>, i: nat, other: Mirror)
    requires IsHistory(xs, moves) && i < |xs| && CaughtUp(xs[i])
    ensures Synced(xs[i].r.mirror, xs[i].w.s.p)
    ensures var b := xs[i].w.s.b;
            && b.baseline.Some? && b.BaselineInLog()
            && SameListing(xs[i].r.mirror, Fold(other, Tail(b)))
  {
    HistoryKeepsMirror(xs, moves, i);
    CaughtUpSyncs(xs[i], other);
  }
}
