/** The runs the theorems speak of exist: a short one in which a change occurs, is listed and read, and the reader
    catches up. */
module Witness {
  import opened Text
  import opened Wire
  import opened Streams
  import opened Paging
  import opened Mirrors
  import opened Following
  import opened Producing
  import opened Worlds
  import opened Systems
  import opened LostEvent

  const OUTSET := System(BEGUN, NEW_READER, 0, 0, EMPTY, [], {}, [], 0, [], [])
  const SEEN := OUTSET.(w := OCCURRED)
  const REPORTED := OUTSET.(w := LISTED)

  lemma {:induction false} BufferOfListed()
    ensures LISTED.s.b.log == [SnapshotBegin(0, None), EventItem(0, CREATED), ListingStatus(0, true, {}, [], None)]
    ensures LISTED.s.b.baseline == Some(1) && LISTED.s.b.First() == 1 && LISTED.s.b.epoch == "run"
  {
    assert [CREATED][..0] == [] && Allowed([]) == [];
    assert SnapshotItems(FIRST, 0)
        == [SnapshotBegin(0, None), EventItem(0, CREATED), ListingStatus(0, true, {}, [], None)];
  }

  lemma {:induction false} ReadsAll()
    ensures StartFor(REPORTED) == Ok(Start(0, None)) && Upto(REPORTED, 10) == 3
    ensures CanMove(REPORTED, Reads(10, 0))
  {
    BufferOfListed();
  }

  lemma {:induction false} FirstMoves()
    ensures Initial(OUTSET)
    ensures CanMove(OUTSET, Produces(OCCURS)) && MoveTo(OUTSET, Produces(OCCURS)) == SEEN
    ensures CanMove(SEEN, Produces(LISTS)) && MoveTo(SEEN, Produces(LISTS)) == REPORTED
  {
    EventOccurs();
    EventIsListed();
  }

  lemma {:induction false} MovesMakeHistory(xs: seq<System>, moves: seq<Move>)
    requires |xs| == 4 && |moves| == 3 && Initial(xs[0])
    requires CanMove(xs[0], moves[0]) && xs[1] == MoveTo(xs[0], moves[0])
    requires CanMove(xs[1], moves[1]) && xs[2] == MoveTo(xs[1], moves[1])
    requires CanMove(xs[2], moves[2]) && xs[3] == MoveTo(xs[2], moves[2])
    ensures IsHistory(xs, moves)
  {
  }

  /** A caught-up reader that answers, and holds the Event that occurred. */
  lemma {:induction false} ReaderCatchesUp()
    ensures CanMove(REPORTED, Reads(10, 0))
    ensures var last := MoveTo(REPORTED, Reads(10, 0));
            && IsHistory([OUTSET, SEEN, REPORTED, last], [Produces(OCCURS), Produces(LISTS), Reads(10, 0)])
            && CaughtUp(last) && Serves(last.r.mirror) && "uid" in last.r.mirror.events
  {
    FirstMoves();
    ReadsAll();
    var last := MoveTo(REPORTED, Reads(10, 0));
    MovesMakeHistory([OUTSET, SEEN, REPORTED, last], [Produces(OCCURS), Produces(LISTS), Reads(10, 0)]);
    ReadHolds();
  }

  lemma {:induction false} ReadHolds()
    ensures var last := MoveTo(REPORTED, Reads(10, 0));
            CaughtUp(last) && Serves(last.r.mirror) && "uid" in last.r.mirror.events
  {
    BufferOfListed();
    ReadsAll();
    var log, page := LISTED.s.b.log, PageFor(REPORTED, 10, 0).value;
    PagingIsLossless(LISTED.s.b, None, 10, true, 0);
    ReadIntoFields(NEW_READER, page);
    FoldDeclaredRun(EMPTY, [], log, 0, 3);
    assert [] + Run(log, 0, 3) == Run(log, 0, 3) && log[0..3] == log;
    FoldsToListing(log);
  }

  lemma {:induction false} FoldsToListing(log: seq<Item>)
    requires log == [SnapshotBegin(0, None), EventItem(0, CREATED), ListingStatus(0, true, {}, [], None)]
    ensures var m := Fold(EMPTY, log); Serves(m) && "uid" in m.events
  {
    assert log[..2][..1] == log[..1] && log[..1][..0] == [];
    assert Fold(EMPTY, log[..1]) == ApplyItem(EMPTY, log[0]);
    assert Fold(EMPTY, log[..2]) == ApplyItem(Fold(EMPTY, log[..1]), log[1]);
  }
}
