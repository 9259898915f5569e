/** What every item of a batch operation shows, read off the history of a run: the last write to it stands. */
module BatchResults {
  import opened Common
  import opened LastWriter
  import opened BatchOperations

  // ---------------------------------------------------------------- who writes an item

  function Interrupt(item: Item): Option<Item> {
    if item.status == Pending || item.status == Running then Some(Item(item.id, Interrupted, "stopped")) else None
  }

  /** A reading of a running item; the failures in a row are counted in the history of readings. */
  function ReadWrite(s: Operation, i: nat, reading: Reading): Option<Item>
    requires i < |s.items|
  {
    match reading
    case Read(_, next) => if next.status == s.items[i].status && next.detail == s.items[i].detail then None else Some(next)
    case Unreadable(_, missing) =>
      if missing || TrailingFailures(s.readings, i) + 1 >= 10 then Some(Item(s.items[i].id, Interrupted, "unconfirmed"))
      else Some(Item(s.items[i].id, Running, "unavailable"))
  }

  /** What the step writes into item `i`, None when it does not write it. */
  function ItemWrite(s: Operation, step: Step, i: nat): Option<Item>
    requires i < |s.items|
  {
    match step
    case DoTake(_) =>
      if !s.stopped && s.nextIndex == i && s.items[i].status == Pending then Some(Item(s.items[i].id, Running, s.items[i].detail)) else None
    case DoLand(w, result) => if w < |s.workers| && s.workers[w] == Performing(i) then Some(result) else None
    case DoJoin => if Crashed in s.workers then Interrupt(s.items[i]) else None
    case DoVisit(reading) => if s.poll == AtItem(i) && s.items[i].status == Running then ReadWrite(s, i, reading) else None
    case _ => None
  }

  lemma VisitWrites(s: Operation, reading: Reading, i: nat)
    requires Enabled(s, DoVisit(reading)) && i < |s.items| && PollOk(s, i)
    ensures |Visit(s, reading).items| == |s.items| && Visit(s, reading).items[i] == Else(ItemWrite(s, DoVisit(reading), i), s.items[i])
  {
  }

  lemma StepWrites(s: Operation, step: Step, i: nat)
    requires Enabled(s, step) && i < |s.items| && PollOk(s, i)
    ensures |Apply(s, step).items| == |s.items| && Apply(s, step).items[i] == Else(ItemWrite(s, step, i), s.items[i])
  {
    if step.DoVisit? { VisitWrites(s, step.reading, i); }
  }

  ghost predicate SameSize(trace: seq<Operation>, i: nat) {
    forall j | 0 <= j < |trace| :: i < |trace[j].items|
  }

  ghost function ItemWrites(trace: seq<Operation>, steps: seq<Step>, i: nat): seq<Option<Item>>
    requires |trace| == |steps| + 1 && SameSize(trace, i)
  {
    seq(|steps|, j requires 0 <= j < |steps| => ItemWrite(trace[j], steps[j], i))
  }

  lemma SizeIsKept(trace: seq<Operation>, steps: seq<Step>, i: nat)
    requires IsRun(trace, steps) && i < |trace[0].items|
    ensures SameSize(trace, i)
  {
    forall j | 0 <= j <= |steps| ensures i < |trace[j].items| { RunKeepsInv(trace[..j + 1], steps[..j]); }
  }

  lemma LastStepWrites(trace: seq<Operation>, steps: seq<Step>, i: nat)
    requires IsRun(trace, steps) && |steps| > 0 && SameSize(trace, i)
    ensures var last := |steps| - 1; trace[|steps|].items[i] == Else(ItemWrite(trace[last], steps[last], i), trace[last].items[i])
  {
    var last := |steps| - 1;
    RunKeepsInv(trace[..|steps|], steps[..last]);
    assert PollOk(trace[last], i);
    StepWrites(trace[last], steps[last], i);
  }

  lemma OneMoreItem(trace: seq<Operation>, steps: seq<Step>, i: nat)
    requires |trace| == |steps| + 1 && |steps| > 0 && SameSize(trace, i)
    ensures var last := |steps| - 1;
      Latest(ItemWrites(trace, steps, i)) == Or(ItemWrite(trace[last], steps[last], i), Latest(ItemWrites(trace[..|steps|], steps[..last], i)))
  {
    var last := |steps| - 1;
    OneMore(ItemWrites(trace, steps, i), ItemWrites(trace[..|steps|], steps[..last], i), ItemWrite(trace[last], steps[last], i));
  }

  /** Over every run, an item is what was last written into it, and the item of the preview until then. */
  lemma {:induction false} ItemsAreLastWritten(trace: seq<Operation>, steps: seq<Step>, i: nat)
    requires IsRun(trace, steps) && i < |trace[0].items|
    ensures SameSize(trace, i) && trace[|steps|].items[i] == Else(Latest(ItemWrites(trace, steps, i)), trace[0].items[i])
    decreases |steps|
  {
    SizeIsKept(trace, steps, i);
    if |steps| > 0 {
      ItemsAreLastWritten(trace[..|steps|], steps[..|steps| - 1], i);
      LastStepWrites(trace, steps, i);
      OneMoreItem(trace, steps, i);
    }
  }

  // ---------------------------------------------------------------- the answer of `perform`

  /** `perform` answers for item `i`. */
  predicate Answers(s: Operation, step: Step, i: nat, result: Item) {
    step.DoLand? && step.worker < |s.workers| && s.workers[step.worker] == Performing(i) && step.result == result
  }

  /** An answered item that was read shows its last reading. */
  predicate ShowsReading(item: Item, reading: Reading, failures: nat) {
    match reading
    case Read(_, next) => item.status == next.status && item.detail == next.detail
    case Unreadable(_, missing) =>
      if missing || failures >= 10 then item.status == Interrupted && item.detail == "unconfirmed"
      else item.status == Running && item.detail == "unavailable"
  }

  /** An item that was not read since shows the answer, except that a stop interrupts an answer that is not final. */
  predicate ShowsAnswer(s: Operation, i: nat, result: Item) {
    i < |s.items| &&
    match LastReading(s.readings, i)
    case None => s.items[i] == if s.status == Stopped then Else(Interrupt(result), result) else result
    case Some(reading) => ShowsReading(s.items[i], reading, TrailingFailures(s.readings, i))
  }

  /** No worker will write the item any more. */
  ghost predicate IsAnswered(s: Operation, i: nat) {
    i < s.nextIndex && s.status != Preview && forall w | 0 <= w < |s.workers| :: s.workers[w] != Performing(i)
  }

  lemma StepKeepsAnswered(s: Operation, step: Step, i: nat)
    requires Enabled(s, step) && IsAnswered(s, i)
    ensures IsAnswered(Apply(s, step), i)
  {
  }

  lemma ReadingShows(s: Operation, reading: Reading, i: nat)
    requires Enabled(s, DoVisit(reading)) && PollOk(s, i) && reading.index == i < |s.items| && s.items[i].status == Running
    ensures var t := Visit(s, reading);
      LastReading(t.readings, i) == Some(reading) && ShowsReading(t.items[i], reading, TrailingFailures(t.readings, i))
  {
    HistoryAfter(s.readings, reading, i);
  }

  lemma VisitKeepsAnswer(s: Operation, reading: Reading, i: nat, result: Item)
    requires Enabled(s, DoVisit(reading)) && PollOk(s, i) && ShowsAnswer(s, i, result)
    ensures ShowsAnswer(Visit(s, reading), i, result)
  {
    if reading.index < |s.items| && s.items[reading.index].status == Running {
      HistoryAfter(s.readings, reading, i);
      if reading.index == i { ReadingShows(s, reading, i); }
    }
  }

  lemma StepKeepsAnswer(s: Operation, step: Step, i: nat, result: Item)
    requires Inv(s) && Enabled(s, step) && IsAnswered(s, i) && ShowsAnswer(s, i, result)
    ensures ShowsAnswer(Apply(s, step), i, result)
  {
    assert PollOk(s, i);
    if step.DoVisit? { VisitKeepsAnswer(s, step.reading, i, result); }
  }

  /**
   * An item that was performed shows exactly what `perform` answered until it is read; then it shows its last reading. A
   * stop changes it only from pending or running to interrupted.
   */
  lemma {:induction false} PerformedItemShowsAnswer(trace: seq<Operation>, steps: seq<Step>, k: nat, i: nat, result: Item)
    requires IsRun(trace, steps) && k < |steps| && Answers(trace[k], steps[k], i, result)
    ensures IsAnswered(trace[|steps|], i) && ShowsAnswer(trace[|steps|], i, result)
    decreases |steps|
  {
    var last := |steps| - 1;
    RunKeepsInv(trace[..|steps|], steps[..last]);
    if k == last {
      AnswerLands(trace[last], steps[last], i, result);
    } else {
      PerformedItemShowsAnswer(trace[..|steps|], steps[..last], k, i, result);
      StepKeepsAnswered(trace[last], steps[last], i);
      StepKeepsAnswer(trace[last], steps[last], i, result);
    }
  }

  lemma AnswerLands(s: Operation, step: Step, i: nat, result: Item)
    requires Inv(s) && Enabled(s, step) && Answers(s, step, i, result)
    ensures IsAnswered(Apply(s, step), i) && ShowsAnswer(Apply(s, step), i, result)
  {
    assert PollOk(s, i) && WorkerOk(s, step.worker);
    forall w: nat | w < |s.workers| && w != step.worker ensures s.workers[w] != Performing(i) {
      assert PairOk(s, w, step.worker) && PairOk(s, step.worker, w);
    }
  }

  /** While `perform` works on an item, the item shows as running and is otherwise the one of the preview. */
  lemma PerformingItemIsRunning(trace: seq<Operation>, steps: seq<Step>, w: nat)
    requires IsRun(trace, steps) && w < |trace[|steps|].workers| && trace[|steps|].workers[w].Performing?
    ensures var s, i := trace[|steps|], trace[|steps|].workers[w].index;
      i < |s.items| && s.items[i].status == Running && i < |trace[0].items| && trace[0].items[i].status == Pending
  {
    RunKeepsInv(trace, steps);
    assert WorkerOk(trace[|steps|], w);
  }

  // ---------------------------------------------------------------- the operation as a whole

  /**
   * How the operation gets on: confirmed once, it executes until every worker has settled. It is then stopped if one of
   * them crashed, and completed once no item is running, or at once when progress cannot be read.
   */
  lemma StatusIsExact(trace: seq<Operation>, steps: seq<Step>, i: nat)
    requires IsRun(trace, steps) && i < |steps|
    ensures var s, t := trace[i], trace[i + 1];
      match steps[i]
      case DoExecute(concurrency, refreshes) =>
        if s.status != Preview then t == s
        else t.status == Executing && t.refreshes == refreshes && t.nextIndex == 0 && t.items == s.items && AllReady(t, concurrency)
      case DoJoin =>
        if Crashed in s.workers then t.status == Stopped
        else if s.refreshes then t.status == Executing && t.poll == BetweenRounds
        else t.status == Completed
      case DoNextRound =>
        if forall k | 0 <= k < |s.items| :: s.items[k].status != Running then t.status == Completed
        else t.status == Executing && t.poll == AtItem(0)
      case _ => t.status == s.status == Executing
  {
    assert Enabled(trace[i], steps[i]) && trace[i + 1] == Apply(trace[i], steps[i]);
  }

  /** As many workers start as were asked for, but between one and twenty and no more than there are items. */
  predicate AllReady(s: Operation, concurrency: int) {
    && (forall w | 0 <= w < |s.workers| :: s.workers[w] == Ready)
    && var allowed := if concurrency < 1 then 1 else if concurrency > 20 then 20 else concurrency;
      |s.workers| == if |s.items| < allowed then |s.items| else allowed
  }
}
