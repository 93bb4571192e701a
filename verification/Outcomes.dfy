/** What a placement leaves behind: for one RU, and for a whole request however it ends. */
module Outcomes {
  import opened Graphs
  import opened Chains
  import opened Dsg8
  import opened Ledger
  import opened Options
  import opened SearchResults

  /**
    `NoSecondNode` and `NoDu` are panics, the second one on the missing DU of an accepted chain;
    `Failed` is the error return for a refused debit.
   */
  datatype RuOutcome = Done | NoSecondNode | NoDu | Failed

  /** How `Place` ends, and at which RU it stopped if it did. */
  datatype Outcome =
    | Completed
    | ReservationFailed(at: nat)
    | CorePanic(at: nat)
    | NoDuPanic(at: nat)

  /** The fields of an RU that placing it fills in. */
  datatype Fields = Fields(cuNode: Name, duNode: Name, path: Path, disaggregation: string)

  function OutcomeOf(result: Allocation): RuOutcome {
    match result
    case Allocated => Done
    case NilNode => NoDu
    case Refused => Failed
  }

  ghost function Filled(e: Event, before: Fields): Fields {
    match e
    case Skipped => before
    case Placed(path, du) =>
      if 1 < |path| && du < |path| then Fields(path[1], path[du], path, DSG8_KEY) else before
  }

  // ---- one RU ----

  /** What a verdict on an RU means on the current stock. */
  ghost predicate Judged(c: Setup, s: Stock, ru: Name, verdict: Verdict) {
    match verdict
    case OutOfRange => ru == c.root
    case Rejected => Legal(c, s, ru, Skipped)
    case Accepted(position) =>
      && ru != c.root && Acceptable(c, s, ru, position.path)
      && position == CandidateOf(s, c.request, position.path)
  }

  /** What became of one RU, and of the stock. */
  ghost predicate Handled(c: Setup, s: Stock, ru: Name, before: Fields, after: Fields, outcome: RuOutcome, e: Event,
                          left: Stock)
  {
    match outcome
    case Done => Legal(c, s, ru, e) && left == After(c, s, e) && after == Filled(e, before)
    case NoSecondNode => ru == c.root && left == s && after == before
    case NoDu => Strands(c, s, ru, after.path) && left == s && after == NoDuFields(after.path)
    case Failed => false
  }

  /** The fields of an RU whose accepted chain has no DU. */
  ghost function NoDuFields(path: Path): Fields {
    Fields(if 1 < |path| then path[1] else NO_NAME, NO_NAME, path, DSG8_KEY)
  }

  /** If no path found would do, the RU may be passed over. */
  lemma RejectedIsSkip(c: Setup, s: Stock, ru: Name, paths: seq<Path>)
    requires Searched(c, ru, paths) && ru != c.root
    requires forall i: nat :: i < |paths| ==> !Feasible(c.net, s, c.request, c.reqs, paths[i])
    ensures Legal(c, s, ru, Skipped)
  {
    assert NoneFeasible(c, s, paths);
  }

  /** An acceptable path with a DU is a legal placement, and paying for it is what the event stands for. */
  lemma AcceptedIsPlaced(c: Setup, s: Stock, ru: Name, path: Path)
    requires Acceptable(c, s, ru, path)
    ensures var j := DuIndex(s, c.request, path);
            && DuAt(path, j)
            && (DuFound(s, c.request, path) ==>
                  Legal(c, s, ru, Placed(path, j)) &&
                  After(c, s, Placed(path, j)) == AllocateChain(c.net, s, c.request, c.reqs, path, j))
  {
    FoundIsEligible(c, ru, path);
    FirstFitIsDu(s, c.request, path);
  }

  /** The event that paying for an accepted path stands for. */
  ghost function EventOf(c: Setup, s: Stock, path: Path, result: Allocation): Event {
    if result == Allocated then Placed(path, DuIndex(s, c.request, path)) else Skipped
  }

  lemma PaidIsHandled(c: Setup, s: Stock, ru: Name, before: Fields, after: Fields, position: Position,
                      result: Allocation, left: Stock)
    requires Judged(c, s, ru, Accepted(position))
    requires after == Fields(position.cuNodeName, position.duNodeName, position.path, position.disaggregationKey)
    requires PaidFor(c.net, s, c.request, c.reqs, position.path, result, left)
    ensures Handled(c, s, ru, before, after, OutcomeOf(result), EventOf(c, s, position.path, result), left)
  {
    AcceptedIsPlaced(c, s, ru, position.path);
  }

  /**
    Off the core, an RU has a legal event or a chain that strands it: the code never comes to a point
    where there is nothing it may do.
   */
  lemma EveryRuDecided(c: Setup, s: Stock, ru: Name)
    requires Searchable(c) && ru != c.root
    ensures (exists e :: Legal(c, s, ru, e)) || (exists path :: Strands(c, s, ru, path))
  {
    var found := SomeResult(Neighbours(c.net), c.root, ru);
    assert Searched(c, ru, found);
    if i: nat :| i < |found| && Feasible(c.net, s, c.request, c.reqs, found[i]) {
      FeasibleIsDecided(c, s, ru, found, found[i]);
    } else {
      RejectedIsSkip(c, s, ru, found);
    }
  }

  lemma FeasibleIsDecided(c: Setup, s: Stock, ru: Name, found: seq<Path>, path: Path)
    requires Searched(c, ru, found) && path in found && Feasible(c.net, s, c.request, c.reqs, path)
    ensures (exists e :: Legal(c, s, ru, e)) || Strands(c, s, ru, path)
  {
    assert Acceptable(c, s, ru, path);
    AcceptedIsPlaced(c, s, ru, path);
  }

  /** The graph that searches run on, as every construction makes it. */
  ghost predicate Searchable(c: Setup) {
    Closed(Neighbours(c.net)) && c.root in c.net.wire
  }

  /** The paths that a search may return are the simple ones at most one hop from shortest. */
  lemma MayBeFoundIff(c: Setup, ru: Name, path: Path)
    requires Searchable(c)
    ensures MayBeFound(c, ru, path) <==> Eligible(c, ru, path)
  {
    if MayBeFound(c, ru, path) {
      FoundIsEligible(c, ru, path);
    }
    if Eligible(c, ru, path) {
      var found := NearShortestIsFound(Neighbours(c.net), c.root, ru, path);
      assert Searched(c, ru, found);
    }
  }

  ghost predicate NoShortestFeasible(c: Setup, s: Stock, ru: Name) {
    forall q :: Shortest(Neighbours(c.net), c.root, ru, q) ==> !Feasible(c.net, s, c.request, c.reqs, q)
  }

  /** A search may return nothing feasible exactly if no shortest path is feasible: longer ones can be missed. */
  lemma MayBeRejectedIff(c: Setup, s: Stock, ru: Name)
    requires Searchable(c)
    ensures MayBeRejected(c, s, ru) <==> NoShortestFeasible(c, s, ru)
  {
    if MayBeRejected(c, s, ru) {
      RejectedMissesShortest(c, s, ru);
    }
    if NoShortestFeasible(c, s, ru) {
      var found := OnlyShortestFound(Neighbours(c.net), c.root, ru);
      assert Searched(c, ru, found) && NoneFeasible(c, s, found);
    }
  }

  lemma RejectedMissesShortest(c: Setup, s: Stock, ru: Name)
    requires MayBeRejected(c, s, ru)
    ensures NoShortestFeasible(c, s, ru)
  {
    var found :| Searched(c, ru, found) && NoneFeasible(c, s, found);
    forall q | Shortest(Neighbours(c.net), c.root, ru, q) ensures !Feasible(c.net, s, c.request, c.reqs, q) {
      assert q in found;
    }
  }

  /** A node strictly between the CU and the RU has room. */
  ghost predicate RoomForDu(s: Stock, request: Request, path: Path) {
    exists m :: 2 <= m < |path| - 1 && HasRoom(s, request, path[m])
  }

  /** A path on which a whole chain would fit, whether or not a search happens to return it. */
  ghost predicate Suits(c: Setup, s: Stock, ru: Name, path: Path) {
    && Eligible(c, ru, path) && Feasible(c.net, s, c.request, c.reqs, path)
    && RoomForDu(s, c.request, path)
  }

  /** Which events there may be, told from the network and the stock alone. */
  lemma LegalIff(c: Setup, s: Stock, ru: Name, e: Event)
    requires Searchable(c)
    ensures Legal(c, s, ru, e) <==>
              match e
              case Skipped => ru != c.root && NoShortestFeasible(c, s, ru)
              case Placed(path, du) => Suits(c, s, ru, path) && du == DuIndex(s, c.request, path)
  {
    match e {
      case Skipped => MayBeRejectedIff(c, s, ru);
      case Placed(path, du) =>
        MayBeFoundIff(c, ru, path);
        if |path| >= 2 {
          DuFoundIff(s, c.request, path);
          FirstFitIsDu(s, c.request, path);
        }
    }
  }

  /** An RU can come to an end without a panic exactly if no shortest path is feasible or some path suits. */
  lemma EventExistsIff(c: Setup, s: Stock, ru: Name)
    requires Searchable(c)
    ensures (exists e :: Legal(c, s, ru, e)) <==>
              (ru != c.root && NoShortestFeasible(c, s, ru)) || (exists path :: Suits(c, s, ru, path))
  {
    if e :| Legal(c, s, ru, e) {
      LegalIff(c, s, ru, e);
      assert e.Placed? ==> Suits(c, s, ru, e.path);
    }
    LegalIff(c, s, ru, Skipped);
    if path :| Suits(c, s, ru, path) {
      LegalIff(c, s, ru, Placed(path, DuIndex(s, c.request, path)));
    }
  }

  /** Accepting a path panics for want of a DU exactly if it is eligible and feasible with no room for one. */
  lemma StrandsIff(c: Setup, s: Stock, ru: Name, path: Path)
    requires Searchable(c)
    ensures Strands(c, s, ru, path) <==>
              Eligible(c, ru, path) && Feasible(c.net, s, c.request, c.reqs, path) && !RoomForDu(s, c.request, path)
  {
    MayBeFoundIff(c, ru, path);
    if |path| >= 2 {
      DuFoundIff(s, c.request, path);
    }
  }

  /**
    Off the core, the panic is possible exactly if some eligible, feasible path has no room for a DU, and
    certain exactly if some shortest path is feasible but no path suits.
   */
  lemma PanicIff(c: Setup, s: Stock, ru: Name)
    requires Searchable(c) && ru != c.root
    ensures (exists path :: Strands(c, s, ru, path)) <==>
              exists path ::
                Eligible(c, ru, path) && Feasible(c.net, s, c.request, c.reqs, path) && !RoomForDu(s, c.request, path)
    ensures (forall e :: !Legal(c, s, ru, e)) <==>
              !NoShortestFeasible(c, s, ru) && forall path :: !Suits(c, s, ru, path)
  {
    forall path
      ensures Strands(c, s, ru, path) <==>
                Eligible(c, ru, path) && Feasible(c.net, s, c.request, c.reqs, path) && !RoomForDu(s, c.request, path)
    {
      StrandsIff(c, s, ru, path);
    }
    EventExistsIff(c, s, ru);
  }

  /** Placed for some order of neighbours and passed over for another: the order alone decides. */
  lemma OrderDecidesIff(c: Setup, s: Stock, ru: Name, path: Path)
    requires Searchable(c)
    ensures Legal(c, s, ru, Skipped) && Legal(c, s, ru, Placed(path, DuIndex(s, c.request, path))) <==>
              ru != c.root && NoShortestFeasible(c, s, ru) && Suits(c, s, ru, path)
  {
    LegalIff(c, s, ru, Skipped);
    LegalIff(c, s, ru, Placed(path, DuIndex(s, c.request, path)));
  }

  // ---- a whole request ----

  ghost predicate RanUpTo(c: Setup, names: seq<Name>, s: Stock, events: seq<Event>, k: nat) {
    && |events| == k <= |names| && ReservedUpTo(s, c.request, names, |names|)
    && Run(c, Reserve(s, c.request, names), names, events)
  }

  ghost function StockAfter(c: Setup, names: seq<Name>, s: Stock, events: seq<Event>): Stock {
    At(c, Reserve(s, c.request, names), events, |events|)
  }

  ghost function FieldsAfter(before: seq<Fields>, events: seq<Event>): seq<Fields> {
    seq(|before|, k requires 0 <= k < |before| => if k < |events| then Filled(events[k], before[k]) else before[k])
  }

  /** Reservation `k` is the first to overdraw its node. */
  ghost predicate StopsAt(s: Stock, request: Request, names: seq<Name>, k: nat) {
    && k < |names| && ReservedUpTo(s, request, names, k)
    && !Covered(Reserve(s, request, names[..k+1]), names[k])
  }

  /** Everything that is true when a placement has ended in a given way, on fields and stock. */
  ghost predicate Finished(c: Setup, names: seq<Name>, s: Stock, before: seq<Fields>, outcome: Outcome,
                           events: seq<Event>, after: seq<Fields>, left: Stock)
  {
    && |before| == |names|
    && match outcome
       case ReservationFailed(k) =>
         StopsAt(s, c.request, names, k) && left == Reserve(s, c.request, names[..k+1]) && after == before
       case Completed =>
         && RanUpTo(c, names, s, events, |names|)
         && left == StockAfter(c, names, s, events) && after == FieldsAfter(before, events)
       case CorePanic(k) =>
         && k < |names| && names[k] == c.root && RanUpTo(c, names, s, events, k)
         && left == StockAfter(c, names, s, events) && after == FieldsAfter(before, events)
       case NoDuPanic(k) =>
         && k < |names| && RanUpTo(c, names, s, events, k) && left == StockAfter(c, names, s, events)
         && |after| == |names| && Strands(c, left, names[k], after[k].path)
         && after == FieldsAfter(before, events)[k := NoDuFields(after[k].path)]
  }

  /** Between two turns of the placement loop. */
  ghost predicate BetweenTurns(c: Setup, names: seq<Name>, s: Stock, before: seq<Fields>, events: seq<Event>,
                               fields: seq<Fields>, now: Stock)
  {
    && |before| == |names| && RanUpTo(c, names, s, events, |events|)
    && now == StockAfter(c, names, s, events) && fields == FieldsAfter(before, events)
  }

  /** How the reservations end: all made, or the first to overdraw its node made as well. */
  ghost predicate Reserved(s: Stock, request: Request, names: seq<Name>, failedAt: Option<nat>, left: Stock) {
    match failedAt
    case None => ReservedUpTo(s, request, names, |names|) && left == Reserve(s, request, names)
    case Some(k) => StopsAt(s, request, names, k) && left == Reserve(s, request, names[..k+1])
  }

  lemma ReservationStopped(c: Setup, names: seq<Name>, s: Stock, before: seq<Fields>, k: nat, left: Stock)
    requires |before| == |names| && Reserved(s, c.request, names, Some(k), left)
    ensures Finished(c, names, s, before, ReservationFailed(k), [], before, left)
  {
  }

  lemma AllPlaced(c: Setup, names: seq<Name>, s: Stock, before: seq<Fields>, events: seq<Event>,
                  fields: seq<Fields>, left: Stock)
    requires BetweenTurns(c, names, s, before, events, fields, left) && |events| == |names|
    ensures Finished(c, names, s, before, Completed, events, fields, left)
  {
  }

  lemma NothingPlaced(c: Setup, names: seq<Name>, s: Stock, before: seq<Fields>)
    requires |before| == |names| && ReservedUpTo(s, c.request, names, |names|)
    ensures BetweenTurns(c, names, s, before, [], before, Reserve(s, c.request, names))
  {
  }

  lemma FieldsAdvance(before: seq<Fields>, events: seq<Event>, e: Event)
    requires |events| < |before|
    ensures FieldsAfter(before, events + [e]) ==
            FieldsAfter(before, events)[|events| := Filled(e, before[|events|])]
  {
  }

  lemma RanOn(c: Setup, names: seq<Name>, s: Stock, events: seq<Event>, e: Event)
    requires RanUpTo(c, names, s, events, |events|) && |events| < |names|
    requires Legal(c, StockAfter(c, names, s, events), names[|events|], e)
    ensures RanUpTo(c, names, s, events + [e], |events| + 1)
    ensures StockAfter(c, names, s, events + [e]) == After(c, StockAfter(c, names, s, events), e)
  {
    LegalNext(c, Reserve(s, c.request, names), names, events, e);
    RunSnoc(c, Reserve(s, c.request, names), names, events, e);
    assert |events + [e]| == |events| + 1;
  }

  lemma TurnDone(c: Setup, names: seq<Name>, s: Stock, before: seq<Fields>, events: seq<Event>, fields: seq<Fields>,
                 now: Stock, ru: Name, was: Fields, after: Fields, e: Event, left: Stock)
    requires BetweenTurns(c, names, s, before, events, fields, now) && |events| < |names|
    requires ru == names[|events|] && was == fields[|events|]
    requires Handled(c, now, ru, was, after, Done, e, left)
    ensures BetweenTurns(c, names, s, before, events + [e], fields[|events| := after], left)
  {
    RanOn(c, names, s, events, e);
    FieldsAdvance(before, events, e);
  }

  lemma TurnPanics(c: Setup, names: seq<Name>, s: Stock, before: seq<Fields>, events: seq<Event>, fields: seq<Fields>,
                   now: Stock, ru: Name, was: Fields, after: Fields, done: RuOutcome, e: Event, left: Stock)
    requires BetweenTurns(c, names, s, before, events, fields, now) && |events| < |names| && !done.Done?
    requires ru == names[|events|] && was == fields[|events|]
    requires Handled(c, now, ru, was, after, done, e, left)
    ensures done.NoSecondNode? || done.NoDu?
    ensures var k := |events|;
            Finished(c, names, s, before, if done.NoDu? then NoDuPanic(k) else CorePanic(k), events,
                     fields[k := after], left)
  {
  }
}
