/**
 The progress stage: the loop that consumes the reconstruction session's
 output stream one output at a time, in emission order. It drives a progress
 value and a status label, stores the bounds, point-cloud and poses results as
 they complete, and hands the three of them to the preview stage whenever a
 completion leaves all three stored. There is no guard against handing them
 over twice. A request error, or an error thrown by the stream, ends the
 process.
 */
module Reconstruction {
  import opened Common
  import opened Geometry
  import opened Engine

  /** `Crashed` is the state after `fatalError`: nothing is processed any more. */
  datatype Phase = Running | Crashed

  /** The three results handed to the preview stage by one transition. */
  datatype Snapshot = Snapshot(bounds: Box, pointCloud: PointCloud, poses: Poses)

  /** The three result slots of the accumulator. */
  datatype Slot = BoundsSlot | PointCloudSlot | PosesSlot

  /**
   The state of the progress stage. `status` holds the output whose description
   the status label shows; `transitions` records, in order, every hand-over to
   the preview stage.
   */
  datatype Driver = Driver(
    bounds: Option<Box>,
    pointCloud: Option<PointCloud>,
    poses: Option<Poses>,
    progress: real,
    maxProgress: real,
    status: Option<Output>,
    transitions: seq<Snapshot>,
    phase: Phase)
  {
    predicate Filled(s: Slot) {
      match s
      case BoundsSlot => bounds.Some?
      case PointCloudSlot => pointCloud.Some?
      case PosesSlot => poses.Some?
    }

    /** All three slots hold a result. */
    predicate Ready() {
      bounds.Some? && pointCloud.Some? && poses.Some?
    }

    /** No result has been stored yet. */
    predicate Empty() {
      bounds.None? && pointCloud.None? && poses.None?
    }

    function Current(): Snapshot
      requires Ready()
    {
      Snapshot(bounds.value, pointCloud.value, poses.value)
    }
  }

  /** The state when the stage is loaded: nothing stored, nothing shown yet,
      the progress indicator at the range and value it was configured with. */
  function Start(maxProgress: real, progress: real): (d: Driver)
    ensures d.Empty() && d.phase == Running && d.transitions == []
    ensures d.maxProgress == maxProgress && d.progress == progress
  {
    Driver(None, None, None, progress, maxProgress, None, [], Running)
  }

  /** `item` completes the request for slot `s`. */
  predicate Delivers(item: StreamItem, s: Slot) {
    && item.Next?
    && item.output.RequestComplete?
    && (|| (s == BoundsSlot && item.output.result.BoundsResult?)
        || (s == PointCloudSlot && item.output.result.PointCloudResult?)
        || (s == PosesSlot && item.output.result.PosesResult?))
  }

  /** `item` completes one of the three requests the stage waits for. */
  predicate IsSlotCompletion(item: StreamItem) {
    Delivers(item, BoundsSlot) || Delivers(item, PointCloudSlot) || Delivers(item, PosesSlot)
  }

  /** `item` ends the process: a request error or an error thrown by the stream. */
  predicate IsTerminal(item: StreamItem) {
    item.Thrown? || item.output.RequestError?
  }

  /** Outputs that only change the label: informational outputs, and
      completions of requests other than bounds, point cloud and poses. */
  predicate IsInert(o: Output) {
    || o.ProcessingCancelled?
    || o.InvalidSample?
    || o.SkippedSample?
    || o.AutomaticDownsampling?
    || o.RequestProgressInfo?
    || o.StitchingIncomplete?
    || o.UnknownOutput?
    || (o.RequestComplete? && o.result.OtherResult?)
  }

  /** After a result is stored: hand the three results over if all are present. */
  function NotifyIfReady(d: Driver): Driver {
    if d.Ready() then d.(transitions := d.transitions + [d.Current()]) else d
  }

  function Store(d: Driver, result: RequestResult): (r: Driver)
    ensures result.OtherResult? ==> r == d
  {
    match result
    case BoundsResult(b) => NotifyIfReady(d.(bounds := Some(b)))
    case PointCloudResult(c) => NotifyIfReady(d.(pointCloud := Some(c)))
    case PosesResult(p) => NotifyIfReady(d.(poses := Some(p)))
    case OtherResult => d
  }

  /** The progress value for a request that is `f` complete. */
  function FractionOf(maxProgress: real, f: real): (p: real)
    ensures 0.0 <= maxProgress && 0.0 <= f <= 1.0 ==> 0.0 <= p <= maxProgress
  {
    assert 0.0 <= maxProgress && 0.0 <= f <= 1.0 ==> maxProgress * f <= maxProgress * 1.0;
    maxProgress * f
  }

  /** The body of the output loop, applied to one stream item. */
  function Step(d: Driver, item: StreamItem): (r: Driver)
    ensures r.maxProgress == d.maxProgress
    ensures r.phase == Crashed <==> d.phase == Crashed || IsTerminal(item)
    ensures d.phase == Crashed ==> r == d
    ensures d.phase == Running && item.Next? ==> r.status == Some(item.output)
  {
    if d.phase == Crashed then d
    else
      match item
      case Thrown => d.(phase := Crashed)
      case Next(o) =>
        var shown := d.(status := Some(o));
        match o
        case InputComplete => shown.(progress := 0.0)
        case ProcessingComplete => shown.(progress := d.maxProgress)
        case RequestProgress(f) => shown.(progress := FractionOf(d.maxProgress, f))
        case RequestComplete(result) => Store(shown, result)
        case RequestError => shown.(phase := Crashed)
        case _ => shown
  }

  /** Storing one result leaves the other two slots as they were, and hands
      over the three results exactly when all three are then present. */
  lemma StoreFrame(d: Driver, item: StreamItem)
    requires d.phase == Running && IsSlotCompletion(item)
    ensures var r := Step(d, item);
      && (Delivers(item, BoundsSlot) ==>
            r.bounds == Some(item.output.result.box) && r.pointCloud == d.pointCloud && r.poses == d.poses)
      && (Delivers(item, PointCloudSlot) ==>
            r.pointCloud == Some(item.output.result.cloud) && r.bounds == d.bounds && r.poses == d.poses)
      && (Delivers(item, PosesSlot) ==>
            r.poses == Some(item.output.result.poses) && r.bounds == d.bounds && r.pointCloud == d.pointCloud)
      && r.transitions == d.transitions + (if r.Ready() then [r.Current()] else [])
  {
  }

  /** Every item other than a bounds, point-cloud or poses completion leaves
      the three slots and the hand-overs as they were. */
  lemma OtherItemsKeepResults(d: Driver, item: StreamItem)
    requires !IsSlotCompletion(item)
    ensures var r := Step(d, item);
      r.bounds == d.bounds && r.pointCloud == d.pointCloud && r.poses == d.poses
      && r.transitions == d.transitions
  {
  }

  /** The progress value: zero on input completion, the maximum on processing
      completion, the maximum scaled by the fraction on request progress (so
      within [0, max] for a fraction in [0, 1]), and unchanged otherwise. */
  lemma ProgressValue(d: Driver, item: StreamItem)
    requires d.phase == Running
    ensures item == Next(InputComplete) ==> Step(d, item).progress == 0.0
    ensures item == Next(ProcessingComplete) ==> Step(d, item).progress == d.maxProgress
    ensures item.Next? && item.output.RequestProgress? ==>
              Step(d, item).progress == FractionOf(d.maxProgress, item.output.fractionComplete)
    ensures !item.Next? || !(item.output.InputComplete? || item.output.ProcessingComplete? || item.output.RequestProgress?) ==>
              Step(d, item).progress == d.progress
  {
    match item
    case Thrown =>
    case Next(o) =>
      match o
      case RequestComplete(result) => {
        match result
        case BoundsResult(b) =>
        case PointCloudResult(c) =>
        case PosesResult(p) =>
        case OtherResult =>
      }
      case _ =>
  }

  /** A request-progress output keeps the progress value within [0, max]
      when its fraction lies in [0, 1]. */
  lemma ProgressWithinRange(d: Driver, f: real)
    requires d.phase == Running && 0.0 <= d.maxProgress && 0.0 <= f <= 1.0
    ensures 0.0 <= Step(d, Next(RequestProgress(f))).progress <= d.maxProgress
  {
    ProgressValue(d, Next(RequestProgress(f)));
  }

  /** Informational outputs, and completions of other requests, change
      nothing but the status label. */
  lemma InertOutputs(d: Driver, o: Output)
    requires d.phase == Running && IsInert(o)
    ensures Step(d, Next(o)) == d.(status := Some(o))
  {
  }

  /** Some item of `items` is terminal. */
  predicate HasTerminal(items: seq<StreamItem>) {
    exists j :: 0 <= j < |items| && IsTerminal(items[j])
  }

  /** The state after the loop has consumed `items` in order: a left fold of
      `Step`, written by peeling off the last item. */
  function Run(d: Driver, items: seq<StreamItem>): (r: Driver)
    ensures r.maxProgress == d.maxProgress
    ensures d.transitions <= r.transitions
    ensures r.phase == Crashed <==> d.phase == Crashed || HasTerminal(items)
    ensures d.phase == Crashed ==> r == d
    decreases |items|
  {
    if items == [] then d
    else
      var prefix := items[..|items| - 1];
      assert HasTerminal(items) <==> HasTerminal(prefix) || IsTerminal(items[|items| - 1]) by {
        if HasTerminal(items) {
          var j :| 0 <= j < |items| && IsTerminal(items[j]);
          if j < |items| - 1 { assert prefix[j] == items[j]; }
        }
        if HasTerminal(prefix) {
          var j :| 0 <= j < |prefix| && IsTerminal(prefix[j]);
          assert items[j] == prefix[j];
        }
      }
      Step(Run(d, prefix), items[|items| - 1])
  }

  lemma {:induction false} RunConcat(d: Driver, a: seq<StreamItem>, b: seq<StreamItem>)
    ensures Run(d, a + b) == Run(Run(d, a), b)
    decreases |b|
  {
    if b == [] {
      assert a + b == a;
    } else {
      var b' := b[..|b| - 1];
      assert (a + b)[..|a + b| - 1] == a + b';
      assert (a + b)[|a + b| - 1] == b[|b| - 1];
      RunConcat(d, a, b');
    }
  }

  /** A terminal item is the last one that has any effect: the state after the
      whole stream is the state right after that item, and it is `Crashed`. */
  lemma TerminalStopsProcessing(d: Driver, items: seq<StreamItem>, i: nat)
    requires i < |items| && IsTerminal(items[i])
    ensures Run(d, items[..i + 1]).phase == Crashed
    ensures Run(d, items) == Run(d, items[..i + 1])
  {
    assert items[..i + 1][..i] == items[..i];
    assert items == items[..i + 1] + items[i + 1..];
    RunConcat(d, items[..i + 1], items[i + 1..]);
  }

  /** The loop itself: consumes the stream in order until it ends or an item
      ends the process. `consumed` is the number of items it took. */
  method Consume(init: Driver, items: seq<StreamItem>) returns (d: Driver, consumed: int)
    ensures 0 <= consumed <= |items|
    ensures d == Run(init, items)
    ensures consumed < |items| ==> d.phase == Crashed
    ensures init.phase == Running && d.phase == Crashed ==> 0 < consumed && IsTerminal(items[consumed - 1])
    ensures init.phase == Running && 0 < consumed ==> !HasTerminal(items[..consumed - 1])
  {
    d := init;
    consumed := 0;
    while consumed < |items| && d.phase == Running
      invariant 0 <= consumed <= |items|
      invariant d == Run(init, items[..consumed])
      invariant init.phase == Running && 0 < consumed ==> !HasTerminal(items[..consumed - 1])
      invariant init.phase == Running && d.phase == Running ==> !HasTerminal(items[..consumed])
      invariant init.phase == Crashed ==> consumed == 0
      decreases |items| - consumed
    {
      assert items[..consumed + 1][..consumed] == items[..consumed];
      d := Step(d, items[consumed]);
      consumed := consumed + 1;
    }
    if consumed < |items| {
      assert items == items[..consumed] + items[consumed..];
      RunConcat(init, items[..consumed], items[consumed..]);
    } else {
      assert items[..consumed] == items;
    }
  }

  /** Some item of `items` completes the request for slot `s`. */
  predicate Arrived(items: seq<StreamItem>, s: Slot) {
    exists j :: 0 <= j < |items| && Delivers(items[j], s)
  }

  predicate AllArrived(items: seq<StreamItem>) {
    Arrived(items, BoundsSlot) && Arrived(items, PointCloudSlot) && Arrived(items, PosesSlot)
  }

  lemma ArrivedSplit(items: seq<StreamItem>, s: Slot)
    requires items != []
    ensures Arrived(items, s) <==> Arrived(items[..|items| - 1], s) || Delivers(items[|items| - 1], s)
  {
    var prefix := items[..|items| - 1];
    if Arrived(items, s) {
      var j :| 0 <= j < |items| && Delivers(items[j], s);
      if j < |prefix| { assert prefix[j] == items[j]; }
    }
    if Arrived(prefix, s) {
      var j :| 0 <= j < |prefix| && Delivers(prefix[j], s);
      assert items[j] == prefix[j];
    }
  }

  /** A slot that starts empty is filled only by an item delivering its result,
      whatever else the stream holds. */
  lemma {:induction false} FilledOnlyByDelivery(d: Driver, items: seq<StreamItem>, s: Slot)
    requires !d.Filled(s)
    ensures Run(d, items).Filled(s) ==> Arrived(items, s)
    decreases |items|
  {
    if items != [] {
      var prefix := items[..|items| - 1];
      var last := items[|items| - 1];
      FilledOnlyByDelivery(d, prefix, s);
      ArrivedSplit(items, s);
      var before := Run(d, prefix);
      if before.phase == Running && IsSlotCompletion(last) {
        StoreFrame(before, last);
      } else if !IsSlotCompletion(last) {
        OtherItemsKeepResults(before, last);
      }
    }
  }

  /** Before any terminal item, a slot that starts empty is filled exactly
      when its result has arrived, in whichever order the three arrive. */
  lemma {:induction false} FilledIffArrived(d: Driver, items: seq<StreamItem>, s: Slot)
    requires d.phase == Running && !d.Filled(s) && !HasTerminal(items)
    ensures Run(d, items).Filled(s) <==> Arrived(items, s)
    decreases |items|
  {
    if items != [] {
      var prefix := items[..|items| - 1];
      var last := items[|items| - 1];
      assert !HasTerminal(prefix) by {
        forall j | 0 <= j < |prefix| ensures !IsTerminal(prefix[j]) {
          assert prefix[j] == items[j];
        }
      }
      FilledIffArrived(d, prefix, s);
      ArrivedSplit(items, s);
      var before := Run(d, prefix);
      if IsSlotCompletion(last) {
        StoreFrame(before, last);
      } else {
        OtherItemsKeepResults(before, last);
      }
    }
  }

  /** If one of the three results never arrives, the stage never hands over. */
  lemma {:induction false} MissingResultNeverHandsOver(d: Driver, items: seq<StreamItem>, s: Slot)
    requires d.Empty() && !Arrived(items, s)
    ensures Run(d, items).transitions == d.transitions
    decreases |items|
  {
    if items != [] {
      var prefix := items[..|items| - 1];
      var last := items[|items| - 1];
      ArrivedSplit(items, s);
      MissingResultNeverHandsOver(d, prefix, s);
      FilledOnlyByDelivery(d, items, s);
      var before := Run(d, prefix);
      if before.phase == Running && IsSlotCompletion(last) {
        StoreFrame(before, last);
      } else if !IsSlotCompletion(last) {
        OtherItemsKeepResults(before, last);
      }
    }
  }

  /**
   How many hand-overs a stream with no terminal item causes, counted from the
   stream alone: one for every bounds, point-cloud or poses completion at or
   after which all three results have arrived. A stream that delivers a result
   again after all three are in therefore hands over again.
   */
  function ExpectedHandOvers(items: seq<StreamItem>): nat
    decreases |items|
  {
    if items == [] then 0
    else
      ExpectedHandOvers(items[..|items| - 1])
      + (if IsSlotCompletion(items[|items| - 1]) && AllArrived(items) then 1 else 0)
  }

  /** The stage hands over once per completion that finds all three results
      in. (What each hand-over carries is stated one step at a time by
      `StoreFrame`.) */
  lemma {:induction false} HandOverCount(d: Driver, items: seq<StreamItem>)
    requires d.phase == Running && d.Empty() && !HasTerminal(items)
    ensures |Run(d, items).transitions| == |d.transitions| + ExpectedHandOvers(items)
    decreases |items|
  {
    if items != [] {
      var prefix := items[..|items| - 1];
      var last := items[|items| - 1];
      assert !HasTerminal(prefix) by {
        forall j | 0 <= j < |prefix| ensures !IsTerminal(prefix[j]) {
          assert prefix[j] == items[j];
        }
      }
      HandOverCount(d, prefix);
      var before := Run(d, prefix);
      if IsSlotCompletion(last) {
        StoreFrame(before, last);
        FilledIffArrived(d, items, BoundsSlot);
        FilledIffArrived(d, items, PointCloudSlot);
        FilledIffArrived(d, items, PosesSlot);
      } else {
        OtherItemsKeepResults(before, last);
      }
    }
  }

  /** No once-guard: bounds, point cloud and poses followed by a second bounds
      result hand over twice, the second time with the new bounds. */
  lemma HandsOverAgain(b1: Box, b2: Box, c: PointCloud, p: Poses, maxProgress: real)
    ensures var items := [Next(RequestComplete(BoundsResult(b1))), Next(RequestComplete(PointCloudResult(c))),
                          Next(RequestComplete(PosesResult(p))), Next(RequestComplete(BoundsResult(b2)))];
      Run(Start(maxProgress, 0.0), items).transitions == [Snapshot(b1, c, p), Snapshot(b2, c, p)]
  {
    var items := [Next(RequestComplete(BoundsResult(b1))), Next(RequestComplete(PointCloudResult(c))),
                  Next(RequestComplete(PosesResult(p))), Next(RequestComplete(BoundsResult(b2)))];
    var d0 := Start(maxProgress, 0.0);
    var d1 := Step(d0, items[0]);
    StoreFrame(d0, items[0]);
    var d2 := Step(d1, items[1]);
    StoreFrame(d1, items[1]);
    var d3 := Step(d2, items[2]);
    StoreFrame(d2, items[2]);
    var d4 := Step(d3, items[3]);
    StoreFrame(d3, items[3]);
    assert items[..1][..0] == [];
    assert items[..2][..1] == items[..1];
    assert items[..3][..2] == items[..2];
    assert items[..4][..3] == items[..3];
    assert Run(d0, items[..1]) == d1;
    assert Run(d0, items[..2]) == d2;
    assert Run(d0, items[..3]) == d3;
    assert items[..4] == items;
  }
}
