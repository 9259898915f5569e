/**
 * A batch operation from its preview to its result: several workers share one index over the frozen items, then the items
 * still running are polled. A worker's code between two awaits is one step; the steps of different workers interleave.
 */
module BatchOperations {
  import opened Common

  const MaxRefreshFailures := 10

  datatype ItemStatus = Pending | Running | Success | Failed | Skipped | Cancelled | Interrupted

  /** Of the explanations the process writes itself, `detail` keeps one word. */
  datatype Item = Item(id: string, status: ItemStatus, detail: string)

  datatype OperationStatus = Preview | Executing | Completed | Stopped

  datatype Worker = Ready | Performing(index: nat) | Finished | Crashed

  /** Where the polling loop stands: between rounds, or at an item of a round. */
  datatype Poll = NotPolling | BetweenRounds | AtItem(cursor: nat)

  /** How one progress read ended. */
  datatype Reading = Read(index: nat, next: Item) | Unreadable(index: nat, missing: bool)

  /**
   * `previewed` are the items as frozen by the preview, `performed` the indices handed to `perform` (oldest first),
   * `readings` the progress reads (oldest first) and `handedBack` the indices for which `perform` or `refresh` answered
   * `pending`.
   */
  datatype Operation = Operation(
    status: OperationStatus, items: seq<Item>, workers: seq<Worker>, nextIndex: nat, stopped: bool, refreshes: bool,
    poll: Poll, failures: map<nat, nat>,
    previewed: seq<Item>, performed: seq<nat>, readings: seq<Reading>, handedBack: set<nat>)

  // ---------------------------------------------------------------- executing

  function WorkerCount(items: nat, concurrency: int): (n: nat)
    ensures n <= items && n <= 20 && (concurrency >= 1 ==> n <= concurrency) && (concurrency < 1 ==> n <= 1)
    ensures n == items || n == 20 || n == concurrency || (n == 1 && concurrency < 1)
  {
    Min(items, Max(1, Min(20, concurrency)))
  }

  /** Confirming an operation a second time changes nothing. */
  function Execute(s: Operation, concurrency: int, refreshes: bool): Operation {
    if s.status != Preview then s
    else s.(status := Executing, refreshes := refreshes, nextIndex := 0, stopped := false,
            workers := seq(WorkerCount(|s.items|, concurrency), i => Ready))
  }

  function WithStatus(item: Item, status: ItemStatus): Item {
    item.(status := status)
  }

  /** A ready worker looks at the shared index. */
  function Take(s: Operation, w: nat): Operation
    requires w < |s.workers|
  {
    if s.stopped || s.nextIndex >= |s.items| then s.(workers := s.workers[w := Finished])
    else
      var index := s.nextIndex;
      var t := s.(nextIndex := index + 1);
      if s.items[index].status != Pending then t
      else t.(items := s.items[index := WithStatus(s.items[index], Running)],
              workers := s.workers[w := Performing(index)], performed := s.performed + [index])
  }

  /** `perform` returned an item, or threw and the error was turned into one. */
  function Land(s: Operation, w: nat, result: Item): Operation
    requires w < |s.workers| && s.workers[w].Performing? && s.workers[w].index < |s.items|
  {
    var index := s.workers[w].index;
    s.(items := s.items[index := result], workers := s.workers[w := Ready],
       handedBack := s.handedBack + if result.status == Pending then {index} else {})
  }

  /** An exception outside the item's own handler stops every worker at its next turn. */
  function Crash(s: Operation, w: nat): Operation
    requires w < |s.workers|
  {
    s.(workers := s.workers[w := Crashed], stopped := true)
  }

  function StopItem(item: Item): Item {
    if item.status == Pending || item.status == Running then Item(item.id, Interrupted, "stopped") else item
  }

  function StopItems(items: seq<Item>): seq<Item> {
    seq(|items|, i requires 0 <= i < |items| => StopItem(items[i]))
  }

  predicate AllDone(s: Operation) {
    forall w | 0 <= w < |s.workers| :: s.workers[w] == Finished || s.workers[w] == Crashed
  }

  /** All workers settled. */
  function Join(s: Operation): Operation {
    if Crashed in s.workers then s.(status := Stopped, items := StopItems(s.items))
    else if s.refreshes then s.(poll := BetweenRounds)
    else s.(status := Completed)
  }

  // ---------------------------------------------------------------- polling

  predicate AnyRunning(items: seq<Item>) {
    exists i | 0 <= i < |items| :: items[i].status == Running
  }

  function NextRound(s: Operation): Operation {
    if AnyRunning(s.items) then s.(poll := AtItem(0)) else s.(poll := NotPolling, status := Completed)
  }

  function FailureCount(failures: map<nat, nat>, index: nat): nat {
    if index in failures then failures[index] else 0
  }

  predicate Exhausted(failures: map<nat, nat>, reading: Reading)
    requires reading.Unreadable?
  {
    reading.missing || FailureCount(failures, reading.index) + 1 >= MaxRefreshFailures
  }

  function ItemAfter(item: Item, failures: map<nat, nat>, reading: Reading): Item {
    match reading
    case Read(_, next) => if next.status != item.status || next.detail != item.detail then next else item
    case Unreadable(_, _) =>
      if Exhausted(failures, reading) then Item(item.id, Interrupted, "unconfirmed") else Item(item.id, Running, "unavailable")
  }

  function FailuresAfter(failures: map<nat, nat>, reading: Reading): map<nat, nat> {
    match reading
    case Read(index, _) => failures - {index}
    case Unreadable(index, _) => failures[index := FailureCount(failures, index) + 1]
  }

  /** The polling loop moves on from an item; a running one is read first. */
  function Visit(s: Operation, reading: Reading): Operation
    requires s.poll.AtItem?
  {
    var index := s.poll.cursor;
    if index >= |s.items| then s.(poll := BetweenRounds)
    else if s.items[index].status != Running then s.(poll := AtItem(index + 1))
    else s.(items := s.items[index := ItemAfter(s.items[index], s.failures, reading)], failures := FailuresAfter(s.failures, reading),
            poll := AtItem(index + 1), readings := s.readings + [reading],
            handedBack := s.handedBack + if reading.Read? && reading.next.status == Pending then {index} else {})
  }

  // ---------------------------------------------------------------- steps

  datatype Step =
    | DoExecute(concurrency: int, refreshes: bool)
    | DoTake(worker: nat)
    | DoLand(worker: nat, result: Item)
    | DoCrash(worker: nat)
    | DoJoin
    | DoNextRound
    | DoVisit(reading: Reading)

  predicate WorkerIs(s: Operation, w: nat, performing: bool) {
    s.status == Executing && s.poll == NotPolling && w < |s.workers| && (if performing then s.workers[w].Performing? else s.workers[w] == Ready)
  }

  /** `perform` reports any item; an error it throws becomes failed, skipped or interrupted. */
  predicate Enabled(s: Operation, step: Step) {
    match step
    case DoExecute(_, _) => true
    case DoTake(w) => WorkerIs(s, w, false)
    case DoLand(w, _) => WorkerIs(s, w, true) && s.workers[w].index < |s.items|
    case DoCrash(w) => WorkerIs(s, w, true)
    case DoJoin => s.status == Executing && s.poll == NotPolling && AllDone(s)
    case DoNextRound => s.status == Executing && s.poll == BetweenRounds
    case DoVisit(reading) => s.status == Executing && s.poll.AtItem? && reading.index == s.poll.cursor
  }

  function Apply(s: Operation, step: Step): Operation
    requires Enabled(s, step)
  {
    match step
    case DoExecute(concurrency, refreshes) => Execute(s, concurrency, refreshes)
    case DoTake(w) => Take(s, w)
    case DoLand(w, result) => Land(s, w, result)
    case DoCrash(w) => Crash(s, w)
    case DoJoin => Join(s)
    case DoNextRound => NextRound(s)
    case DoVisit(reading) => Visit(s, reading)
  }

  /** A preview leaves every item pending or skipped. */
  predicate Init(s: Operation) {
    && s == Operation(Preview, s.previewed, [], 0, false, false, NotPolling, map[], s.previewed, [], [], {})
    && forall i | 0 <= i < |s.previewed| :: s.previewed[i].status == Pending || s.previewed[i].status == Skipped
  }

  predicate IsRun(trace: seq<Operation>, steps: seq<Step>) {
    && |trace| == |steps| + 1 && Init(trace[0])
    && forall i | 0 <= i < |steps| :: Enabled(trace[i], steps[i]) && trace[i + 1] == Apply(trace[i], steps[i])
  }

  // ---------------------------------------------------------------- the history, read independently of the loop's own counters

  /** Failed reads of an item since its last successful one. */
  function TrailingFailures(readings: seq<Reading>, index: nat): nat {
    if readings == [] then 0
    else
      var last := readings[|readings| - 1];
      var before := readings[..|readings| - 1];
      if last.index != index then TrailingFailures(before, index)
      else if last.Read? then 0
      else TrailingFailures(before, index) + 1
  }

  function LastReading(readings: seq<Reading>, index: nat): Option<Reading> {
    if readings == [] then None
    else
      var last := readings[|readings| - 1];
      if last.index == index then Some(last) else LastReading(readings[..|readings| - 1], index)
  }

  // ---------------------------------------------------------------- the invariant

  /** What holds of the item at `i` while the workers and the poll run. */
  predicate ItemOk(s: Operation, i: nat) {
    && multiset(s.performed)[i] == (if i < s.nextIndex && i < |s.previewed| && s.previewed[i].status == Pending then 1 else 0)
    && (i in s.handedBack ==> i < s.nextIndex)
    && (i < |s.items| && i < |s.previewed| ==>
          && (s.previewed[i].status == Pending || s.items[i] == s.previewed[i])
          && (s.status != Stopped && i >= s.nextIndex ==> s.items[i] == s.previewed[i])
          && (s.status != Stopped && i < s.nextIndex ==> (s.items[i].status == Pending <==> i in s.handedBack)))
  }

  /** The status polling leaves an item with, given its last reading and the failures in a row. */
  function StatusAfter(last: Reading, failures: nat): ItemStatus {
    match last
    case Read(_, next) => next.status
    case Unreadable(_, missing) => if missing || failures >= MaxRefreshFailures then Interrupted else Running
  }

  predicate Polled(readings: seq<Reading>, i: nat, status: ItemStatus) {
    var last := LastReading(readings, i);
    last.Some? ==> status == StatusAfter(last.value, TrailingFailures(readings, i))
  }

  predicate PollOk(s: Operation, i: nat) {
    && FailureCount(s.failures, i) == TrailingFailures(s.readings, i) <= MaxRefreshFailures
    && (TrailingFailures(s.readings, i) > 0 ==> LastReading(s.readings, i).Some? && LastReading(s.readings, i).value.Unreadable?)
    && (LastReading(s.readings, i).Some? ==> i < |s.items|)
    && (i < |s.items| ==> Polled(s.readings, i, s.items[i].status))
    && (s.poll == NotPolling && s.status != Completed ==> LastReading(s.readings, i).None?)
  }

  predicate WorkerOk(s: Operation, w: nat) {
    w < |s.workers| ==>
      && (s.workers[w].Performing? ==>
            && s.workers[w].index < s.nextIndex && s.workers[w].index < |s.items| && s.workers[w].index < |s.previewed|
            && s.items[s.workers[w].index].status == Running && s.previewed[s.workers[w].index].status == Pending)
      && (s.workers[w] == Finished ==> s.stopped || s.nextIndex >= |s.items|)
      && (s.poll != NotPolling || s.status == Completed ==> s.workers[w] == Finished)
  }

  predicate PairOk(s: Operation, v: nat, w: nat) {
    v < w < |s.workers| && s.workers[v].Performing? && s.workers[w].Performing? ==> s.workers[v].index != s.workers[w].index
  }

  predicate ShapeOk(s: Operation) {
    && |s.items| == |s.previewed| && s.nextIndex <= |s.items|
    && (s.status == Preview ==> s.workers == [] && s.nextIndex == 0)
    && (s.status != Executing ==> s.poll == NotPolling)
    && (s.status != Preview && |s.items| > 0 ==> |s.workers| > 0)
    && (s.stopped ==> Crashed in s.workers)
    && (s.poll != NotPolling || s.status == Completed ==> !s.stopped && s.nextIndex == |s.items|)
    && (s.poll != NotPolling ==> s.refreshes)
    && (s.status == Completed && s.refreshes ==> !AnyRunning(s.items))
    && (s.status == Stopped ==> forall i | 0 <= i < |s.items| :: s.items[i].status != Pending && s.items[i].status != Running)
    && (forall i | 0 <= i < |s.previewed| :: s.previewed[i].status == Pending || s.previewed[i].status == Skipped)
  }

  ghost predicate Inv(s: Operation) {
    && ShapeOk(s) && (forall i: nat :: ItemOk(s, i)) && (forall i: nat :: PollOk(s, i))
    && (forall w: nat :: WorkerOk(s, w)) && forall v: nat, w: nat :: PairOk(s, v, w)
  }

  lemma InitInv(s: Operation)
    requires Init(s)
    ensures Inv(s)
  {
    forall i: nat ensures ItemOk(s, i) {}
  }

  lemma ExecuteKeepsInv(s: Operation, concurrency: int, refreshes: bool)
    requires Inv(s)
    ensures Inv(Execute(s, concurrency, refreshes))
  {
    var t := Execute(s, concurrency, refreshes);
    forall i: nat ensures ItemOk(t, i) { assert ItemOk(s, i); }
    forall i: nat ensures PollOk(t, i) { assert PollOk(s, i); }
    forall w: nat ensures WorkerOk(t, w) { assert WorkerOk(s, w); }
    forall v: nat, w: nat ensures PairOk(t, v, w) { assert PairOk(s, v, w); }
  }

  lemma TakeKeepsInv(s: Operation, w: nat)
    requires Inv(s) && Enabled(s, DoTake(w))
    ensures Inv(Take(s, w))
  {
    if s.stopped || s.nextIndex >= |s.items| { FinishingKeepsInv(s, w); }
    else if s.items[s.nextIndex].status != Pending { PassingKeepsInv(s, w); }
    else { PerformingKeepsInv(s, w); }
  }

  lemma FinishingKeepsInv(s: Operation, w: nat)
    requires Inv(s) && Enabled(s, DoTake(w)) && (s.stopped || s.nextIndex >= |s.items|)
    ensures Inv(Take(s, w))
  {
    var t := Take(s, w);
    if Crashed in s.workers { CrashStays(s.workers, w, Finished); }
    forall i: nat ensures ItemOk(t, i) { assert ItemOk(s, i); }
    forall i: nat ensures PollOk(t, i) { assert PollOk(s, i); }
    forall v: nat ensures WorkerOk(t, v) { assert WorkerOk(s, v); }
    forall u: nat, v: nat ensures PairOk(t, u, v) { assert PairOk(s, u, v); }
  }

  lemma PassingKeepsInv(s: Operation, w: nat)
    requires Inv(s) && Enabled(s, DoTake(w)) && !s.stopped && s.nextIndex < |s.items| && s.items[s.nextIndex].status != Pending
    ensures Inv(Take(s, w))
  {
    var t := Take(s, w);
    assert ItemOk(s, s.nextIndex);
    forall i: nat ensures ItemOk(t, i) { assert ItemOk(s, i); }
    forall i: nat ensures PollOk(t, i) { assert PollOk(s, i); }
    forall v: nat ensures WorkerOk(t, v) { assert WorkerOk(s, v); }
    forall u: nat, v: nat ensures PairOk(t, u, v) { assert PairOk(s, u, v); }
  }

  lemma PerformingKeepsInv(s: Operation, w: nat)
    requires Inv(s) && Enabled(s, DoTake(w)) && !s.stopped && s.nextIndex < |s.items| && s.items[s.nextIndex].status == Pending
    ensures Inv(Take(s, w))
  {
    var t := Take(s, w);
    assert ItemOk(s, s.nextIndex);
    if Crashed in s.workers { CrashStays(s.workers, w, Performing(s.nextIndex)); }
    forall i: nat ensures ItemOk(t, i) { assert ItemOk(s, i); }
    forall i: nat ensures PollOk(t, i) { assert PollOk(s, i); }
    forall v: nat ensures WorkerOk(t, v) { assert WorkerOk(s, v); }
    forall u: nat, v: nat ensures PairOk(t, u, v) { assert PairOk(s, u, v) && WorkerOk(s, u) && WorkerOk(s, v); }
  }

  lemma CrashStays(workers: seq<Worker>, w: nat, worker: Worker)
    requires Crashed in workers && w < |workers| && workers[w] != Crashed
    ensures Crashed in workers[w := worker]
  {
    var v :| 0 <= v < |workers| && workers[v] == Crashed;
    assert workers[w := worker][v] == Crashed;
  }

  lemma LandKeepsInv(s: Operation, w: nat, result: Item)
    requires Inv(s) && Enabled(s, DoLand(w, result))
    ensures Inv(Land(s, w, result))
  {
    var t := Land(s, w, result);
    var index := s.workers[w].index;
    assert WorkerOk(s, w);
    if Crashed in s.workers { CrashStays(s.workers, w, Ready); }
    forall i: nat ensures ItemOk(t, i) { assert ItemOk(s, i); }
    forall i: nat ensures PollOk(t, i) { assert PollOk(s, i); }
    forall v: nat ensures WorkerOk(t, v) { assert WorkerOk(s, v) && PairOk(s, v, w) && PairOk(s, w, v); }
    forall u: nat, v: nat ensures PairOk(t, u, v) { assert PairOk(s, u, v); }
  }

  lemma CrashKeepsInv(s: Operation, w: nat)
    requires Inv(s) && Enabled(s, DoCrash(w))
    ensures Inv(Crash(s, w))
  {
    var t := Crash(s, w);
    assert t.workers[w] == Crashed;
    forall i: nat ensures ItemOk(t, i) { assert ItemOk(s, i); }
    forall i: nat ensures PollOk(t, i) { assert PollOk(s, i); }
    forall v: nat ensures WorkerOk(t, v) { assert WorkerOk(s, v); }
    forall u: nat, v: nat ensures PairOk(t, u, v) { assert PairOk(s, u, v); }
  }

  lemma JoinKeepsInv(s: Operation)
    requires Inv(s) && Enabled(s, DoJoin)
    ensures Inv(Join(s))
  {
    var t := Join(s);
    if Crashed !in s.workers && |s.workers| > 0 { assert WorkerOk(s, 0) && s.workers[0] in s.workers; }
    forall i: nat ensures ItemOk(t, i) { assert ItemOk(s, i); }
    forall i: nat ensures PollOk(t, i) { assert PollOk(s, i); }
    forall w: nat ensures WorkerOk(t, w) { assert WorkerOk(s, w); if w < |s.workers| { assert s.workers[w] in s.workers; } }
    forall u: nat, v: nat ensures PairOk(t, u, v) { assert PairOk(s, u, v); }
  }

  lemma NextRoundKeepsInv(s: Operation)
    requires Inv(s) && Enabled(s, DoNextRound)
    ensures Inv(NextRound(s))
  {
    var t := NextRound(s);
    forall i: nat ensures ItemOk(t, i) { assert ItemOk(s, i); }
    forall i: nat ensures PollOk(t, i) { assert PollOk(s, i); }
    forall w: nat ensures WorkerOk(t, w) { assert WorkerOk(s, w); }
    forall u: nat, v: nat ensures PairOk(t, u, v) { assert PairOk(s, u, v); }
  }

  lemma HistoryAfter(readings: seq<Reading>, reading: Reading, i: nat)
    ensures TrailingFailures(readings + [reading], i) ==
      if reading.index != i then TrailingFailures(readings, i) else if reading.Read? then 0 else TrailingFailures(readings, i) + 1
    ensures LastReading(readings + [reading], i) == if reading.index == i then Some(reading) else LastReading(readings, i)
  {
    assert (readings + [reading])[..|readings|] == readings;
  }

  lemma ReadingKeepsPollOk(s: Operation, reading: Reading, i: nat)
    requires Enabled(s, DoVisit(reading)) && PollOk(s, i) && reading.index < |s.items| && s.items[reading.index].status == Running
    ensures PollOk(Visit(s, reading), i)
  {
    HistoryAfter(s.readings, reading, i);
  }

  lemma ReadingKeepsItemOk(s: Operation, reading: Reading, i: nat)
    requires Enabled(s, DoVisit(reading)) && ItemOk(s, i) && reading.index < s.nextIndex <= |s.items| == |s.previewed|
    requires s.items[reading.index].status == Running && (i < |s.previewed| ==> s.previewed[i].status != Running)
    ensures ItemOk(Visit(s, reading), i)
  {
  }

  lemma VisitKeepsInv(s: Operation, reading: Reading)
    requires Inv(s) && Enabled(s, DoVisit(reading))
    ensures Inv(Visit(s, reading))
  {
    var t := Visit(s, reading);
    if reading.index < |s.items| && s.items[reading.index].status == Running {
      forall i: nat ensures ItemOk(t, i) { assert ItemOk(s, i); ReadingKeepsItemOk(s, reading, i); }
      forall i: nat ensures PollOk(t, i) { assert PollOk(s, i); ReadingKeepsPollOk(s, reading, i); }
    } else {
      forall i: nat ensures ItemOk(t, i) { assert ItemOk(s, i); }
      forall i: nat ensures PollOk(t, i) { assert PollOk(s, i); }
    }
    forall w: nat ensures WorkerOk(t, w) { assert WorkerOk(s, w); }
    forall u: nat, v: nat ensures PairOk(t, u, v) { assert PairOk(s, u, v); }
  }

  lemma StepKeepsInv(s: Operation, step: Step)
    requires Inv(s) && Enabled(s, step)
    ensures Inv(Apply(s, step))
  {
    match step
    case DoExecute(concurrency, refreshes) => ExecuteKeepsInv(s, concurrency, refreshes);
    case DoTake(w) => TakeKeepsInv(s, w);
    case DoLand(w, result) => LandKeepsInv(s, w, result);
    case DoCrash(w) => CrashKeepsInv(s, w);
    case DoJoin => JoinKeepsInv(s);
    case DoNextRound => NextRoundKeepsInv(s);
    case DoVisit(reading) => VisitKeepsInv(s, reading);
  }

  lemma {:induction false} RunKeepsInv(trace: seq<Operation>, steps: seq<Step>)
    requires IsRun(trace, steps)
    ensures Inv(trace[|steps|]) && trace[|steps|].previewed == trace[0].items
    decreases |steps|
  {
    if |steps| == 0 {
      InitInv(trace[0]);
    } else {
      var last := |steps| - 1;
      RunKeepsInv(trace[..|steps|], steps[..last]);
      StepKeepsInv(trace[last], steps[last]);
    }
  }

  // ---------------------------------------------------------------- theorems over whole runs

  /**
   * However the workers interleave and however often the operation is confirmed, an item is performed at most once, an
   * item the preview skipped never is and keeps its row, and a completed operation performed every pending item.
   */
  lemma PerformedExactlyOnce(trace: seq<Operation>, steps: seq<Step>, i: nat)
    requires IsRun(trace, steps)
    ensures var s, frozen := trace[|steps|], trace[0].items;
      && multiset(s.performed)[i] <= 1 && |s.items| == |frozen|
      && (i in s.performed ==> i < |frozen| && frozen[i].status == Pending)
      && (i < |frozen| && frozen[i].status == Skipped ==> s.items[i] == frozen[i])
      && (s.status == Completed ==> (i in s.performed <==> i < |frozen| && frozen[i].status == Pending))
  {
    RunKeepsInv(trace, steps);
    assert ItemOk(trace[|steps|], i);
  }

  /**
   * A completed operation shows an item as pending exactly when `perform` or `refresh` answered `pending` for it, and with
   * a refresh function shows none as running; an operation stopped by a crash shows neither.
   */
  lemma FinishedItemsAreSettled(trace: seq<Operation>, steps: seq<Step>, i: nat)
    requires IsRun(trace, steps) && i < |trace[|steps|].items|
    ensures var s := trace[|steps|];
      && (s.status == Completed ==> (s.items[i].status == Pending <==> i in s.handedBack))
      && (s.status == Completed && s.refreshes ==> s.items[i].status != Running)
      && (s.status == Completed ==> Crashed !in s.workers)
      && (s.status == Stopped ==> s.items[i].status != Pending && s.items[i].status != Running)
  {
    RunKeepsInv(trace, steps);
    var s := trace[|steps|];
    assert ItemOk(s, i);
    if Crashed in s.workers {
      var w :| 0 <= w < |s.workers| && s.workers[w] == Crashed;
      assert WorkerOk(s, w);
    }
  }

  /** A `perform` that answers `pending` leaves its item pending in a completed operation, which confirming does not run again. */
  lemma CompletedCanShowPending(item: Item) returns (trace: seq<Operation>, steps: seq<Step>)
    requires item.status == Pending
    ensures IsRun(trace, steps) && trace[0].previewed == [item]
    ensures var s := trace[|steps|];
      && s.status == Completed && |s.items| == 1 && s.items[0].status == Pending
      && forall concurrency: int, refreshes: bool :: Execute(s, concurrency, refreshes) == s
  {
    var frozen := Operation(Preview, [item], [], 0, false, false, NotPolling, map[], [item], [], [], {});
    steps := [DoExecute(1, true), DoTake(0), DoLand(0, item), DoTake(0), DoJoin, DoNextRound];
    var started := Execute(frozen, 1, true);
    assert started.workers == [Ready];
    var taken := Take(started, 0);
    assert taken.workers == [Performing(0)];
    var landed := Land(taken, 0, item);
    var finished := Take(landed, 0);
    assert finished.workers == [Finished];
    var joined := Join(finished);
    trace := [frozen, started, taken, landed, finished, joined, NextRound(joined)];
  }

  /**
   * Reads of one item never fail more than ten times in a row: with the tenth failure, or a first "not found", the item is
   * interrupted and no longer read; any successful read starts the count again. An item that has been read shows what its
   * last reading says.
   */
  lemma PollingIsBounded(trace: seq<Operation>, steps: seq<Step>, i: nat)
    requires IsRun(trace, steps)
    ensures var s := trace[|steps|]; var failures := TrailingFailures(s.readings, i);
      && failures <= MaxRefreshFailures
      && (LastReading(s.readings, i).Some? ==>
            i < |s.items| && s.items[i].status == StatusAfter(LastReading(s.readings, i).value, failures))
      && (failures == MaxRefreshFailures ==> i < |s.items| && s.items[i].status == Interrupted)
  {
    RunKeepsInv(trace, steps);
    assert PollOk(trace[|steps|], i);
  }
}
