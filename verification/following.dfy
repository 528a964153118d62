/** The control plane's reader: the mirror it folds, and how far in which connector run it has followed the stream. */
module Following {
  import opened Text
  import opened Wire
  import opened Streams
  import opened Paging
  import opened Mirrors

  /** Where in a connector run a reader is: the first and last item read, the first instant, and the latest instant. */
  datatype Place = Place(firstSeq: Option<nat>, lastSeq: Option<nat>, followedSince: Option<Time>,
                         connectorTime: Option<Time>)

  datatype Reader = Reader(mirror: Mirror, cursor: Option<string>, epoch: Option<string>, place: Place,
                           gaps: seq<Item>, applied: nat)

  const NEW_READER := Reader(EMPTY, None, None, Place(None, None, None, None), [], 0)

  function Later(known: Option<Time>, stamp: Option<Time>): Option<Time> {
    if stamp.Some? && (known.None? || stamp.value > known.value) then stamp else known
  }

  /** A buffered item has a number; a gap the buffer synthesised for one read has none, and only its instant counts. */
  function Put(p: Place, n: Numbered): Place {
    var stamp := StampOf(n.item);
    var first := n.seqNo > 0 && p.firstSeq.None? && stamp.Some?;
    Place(if first then Some(n.seqNo) else p.firstSeq,
          if n.seqNo > 0 then Some(n.seqNo) else p.lastSeq,
          if first then stamp else p.followedSince,
          Later(p.connectorTime, stamp))
  }

  /** What an item says: counted, its gap kept for the record, its content folded into the mirror. */
  function Told(r: Reader, item: Item): Reader {
    r.(applied := r.applied + 1,
       gaps := r.gaps + if item.Gap? then [item] else [],
       mirror := ApplyItem(r.mirror, item))
  }

  /** One item: first its instant and its place in the stream, then, unless it is a heartbeat, its content. */
  function Apply(r: Reader, n: Numbered): Reader {
    var placed := r.(place := Put(r.place, n));
    if n.item.ChangeHeartbeat? then placed else Told(placed, n.item)
  }

  function ApplyAll(r: Reader, ns: seq<Numbered>): Reader {
    if ns == [] then r else Apply(ApplyAll(r, ns[..|ns| - 1]), ns[|ns| - 1])
  }

  function PutAll(p: Place, ns: seq<Numbered>): Place {
    if ns == [] then p else Put(PutAll(p, ns[..|ns| - 1]), ns[|ns| - 1])
  }

  /** A page of another connector run starts a new stream, followed from its first item read. */
  function Entering(r: Reader, epoch: string): Reader {
    if r.epoch == Some(epoch) then r
    else r.(epoch := Some(epoch), place := Place(None, None, None, r.place.connectorTime))
  }

  function ReadInto(r: Reader, page: Page): Reader {
    ApplyAll(Entering(r, page.epoch), Ordered(page)).(cursor := Some(page.nextCursor))
  }

  function ItemsIn(ns: seq<Numbered>): (items: seq<Item>)
    ensures |items| == |ns|
    ensures forall i :: 0 <= i < |ns| ==> items[i] == ns[i].item
  {
    seq(|ns|, i requires 0 <= i < |ns| => ns[i].item)
  }

  lemma {:induction false} ApplyAllConcat(r: Reader, a: seq<Numbered>, b: seq<Numbered>)
    ensures ApplyAll(r, a + b) == ApplyAll(ApplyAll(r, a), b)
  {
    if b == [] {
      assert a + b == a;
    } else {
      ApplyAllConcat(r, a, b[..|b| - 1]);
      assert (a + b)[..|a + b| - 1] == a + b[..|b| - 1];
    }
  }

  function GapsAmong(items: seq<Item>): seq<Item> {
    if items == [] then []
    else GapsAmong(items[..|items| - 1]) + if items[|items| - 1].Gap? then [items[|items| - 1]] else []
  }

  lemma {:induction false} ApplyAllContent(r: Reader, ns: seq<Numbered>)
    ensures var n := ApplyAll(r, ns);
            && n.mirror == Fold(r.mirror, ItemsIn(ns))
            && n.gaps == r.gaps + GapsAmong(ItemsIn(ns))
            && n.epoch == r.epoch && n.cursor == r.cursor
            && n.place == PutAll(r.place, ns)
  {
    if ns != [] {
      var front := ns[..|ns| - 1];
      ApplyAllContent(r, front);
      assert ItemsIn(ns)[..|ns| - 1] == ItemsIn(front);
    }
  }

  lemma {:induction false} ReadIntoFields(r: Reader, page: Page)
    ensures var n := ReadInto(r, page);
            && n.mirror == Fold(r.mirror, ItemsIn(Ordered(page)))
            && n.gaps == r.gaps + GapsAmong(ItemsIn(Ordered(page)))
            && n.epoch == Some(page.epoch) && n.cursor == Some(page.nextCursor)
            && n.place == PutAll(Entering(r, page.epoch).place, Ordered(page))
  {
    ApplyAllContent(Entering(r, page.epoch), Ordered(page));
  }

  /** What counts as applied is everything but heartbeats. */
  lemma {:induction false} AppliedCountsItems(r: Reader, ns: seq<Numbered>)
    ensures ApplyAll(r, ns).applied == r.applied + |set i | 0 <= i < |ns| && !ns[i].item.ChangeHeartbeat?|
  {
    var told := set i | 0 <= i < |ns| && !ns[i].item.ChangeHeartbeat?;
    if ns != [] {
      var n := |ns| - 1;
      var before := set i | 0 <= i < |ns[..n]| && !ns[..n][i].item.ChangeHeartbeat?;
      AppliedCountsItems(r, ns[..n]);
      assert told == if ns[n].item.ChangeHeartbeat? then before else before + {n};
    } else {
      assert told == {};
    }
  }

  /** Folding a declared gap and then a run of the log is folding the gap, then that stretch of the log. */
  lemma {:induction false} FoldDeclaredRun(m: Mirror, head: seq<Numbered>, log: seq<Item>, after: nat, upto: nat)
    requires after <= upto <= |log|
    ensures Fold(m, ItemsIn(head + Run(log, after, upto))) == Fold(Fold(m, ItemsIn(head)), log[after..upto])
  {
    assert ItemsIn(head + Run(log, after, upto)) == ItemsIn(head) + log[after..upto];
    FoldConcat(m, ItemsIn(head), log[after..upto]);
  }

  lemma {:induction false} PutAllConcat(p: Place, a: seq<Numbered>, b: seq<Numbered>)
    ensures PutAll(p, a + b) == PutAll(PutAll(p, a), b)
  {
    if b == [] {
      assert a + b == a;
    } else {
      PutAllConcat(p, a, b[..|b| - 1]);
      assert (a + b)[..|a + b| - 1] == a + b[..|b| - 1];
    }
  }

  /** Every item carries an instant, and no item an earlier one than the item before it. */
  predicate InTime(log: seq<Item>) {
    && (forall i :: 0 <= i < |log| ==> !log[i].Heartbeat?)
    && (forall i, j :: 0 <= i <= j < |log| && !log[i].Heartbeat? && !log[j].Heartbeat? ==> log[i].at <= log[j].at)
  }

  /** Following a run of stamped items from number after+1 on: the place is its end, and the connector's time the latest
      of what was known and what the run carries. */
  lemma {:induction false} PutRun(p: Place, log: seq<Item>, after: nat, upto: nat)
    requires after < upto <= |log| && InTime(log)
    ensures PutAll(p, Run(log, after, upto)) ==
            Place(if p.firstSeq.Some? then p.firstSeq else Some(after + 1),
                  Some(upto),
                  if p.firstSeq.Some? then p.followedSince else Some(log[after].at),
                  Later(p.connectorTime, Some(log[upto - 1].at)))
    decreases upto - after
  {
    var front := Run(log, after, upto - 1);
    assert Run(log, after, upto)[..upto - after - 1] == front;
    if after < upto - 1 {
      PutRun(p, log, after, upto - 1);
    } else {
      assert PutAll(p, front) == p;
    }
  }

  datatype Position = Position(epoch: string, firstSeq: nat, lastSeq: nat, followedSince: Time)

  function StreamPosition(r: Reader): Option<Position> {
    if r.epoch.None? || r.place.firstSeq.None? || r.place.lastSeq.None? || r.place.followedSince.None? then None
    else Some(Position(r.epoch.value, r.place.firstSeq.value, r.place.lastSeq.value, r.place.followedSince.value))
  }
}
