/** The batch operations as the process keeps them: records changed in place by the workers, the poll and the sweep. */
module OperationManager {
  import opened Common
  import opened BatchOperations

  const BatchLimit := 1000
  const PreviewTtlMs := 600_000
  const ResultTtlMs := 60 * 60 * 1000

  // ---------------------------------------------------------------- one running operation

  /** A worker's turn: it passes over items that are not pending until it performs one or finds no more. */
  function Turn(s: Operation, w: nat): (t: Operation)
    requires w < |s.workers|
    ensures |t.workers| == |s.workers| && t.workers[w] != Ready
    decreases |s.items| - s.nextIndex
  {
    if s.workers[w] != Ready then s
    else if s.stopped || s.nextIndex >= |s.items| then Take(s, w)
    else Turn(Take(s, w), w)
  }

  /** A turn is a run of single looks at the shared index, so it keeps the invariant of the workers. */
  lemma {:induction false} TurnKeepsInv(s: Operation, w: nat)
    requires Inv(s) && s.status == Executing && s.poll == NotPolling && w < |s.workers|
    ensures Inv(Turn(s, w))
    decreases |s.items| - s.nextIndex
  {
    if s.workers[w] == Ready {
      TakeKeepsInv(s, w);
      if !s.stopped && s.nextIndex < |s.items| { TurnKeepsInv(Take(s, w), w); }
    }
  }

  /** One polling round from the cursor on; `answers[i]` is what a read of item `i` would report. */
  function Round(s: Operation, answers: seq<Reading>): Operation
    requires s.poll.AtItem? && |answers| == |s.items|
    decreases |s.items| - s.poll.cursor
  {
    if s.poll.cursor >= |s.items| then s.(poll := BetweenRounds)
    else Round(Visit(s, answers[s.poll.cursor]), answers)
  }

  lemma {:induction false} RoundKeepsInv(s: Operation, answers: seq<Reading>)
    requires Inv(s) && s.status == Executing && s.poll.AtItem? && |answers| == |s.items|
    requires forall i | 0 <= i < |answers| :: answers[i].index == i
    ensures Inv(Round(s, answers))
    decreases |s.items| - s.poll.cursor
  {
    if s.poll.cursor < |s.items| {
      VisitKeepsInv(s, answers[s.poll.cursor]);
      RoundKeepsInv(Visit(s, answers[s.poll.cursor]), answers);
    } else {
      VisitKeepsInv(s, Unreadable(s.poll.cursor, false));
    }
  }

  /** A round in which every read fails. */
  predicate AllUnreadable(answers: seq<Reading>) {
    forall i | 0 <= i < |answers| :: answers[i].index == i && answers[i].Unreadable?
  }

  lemma {:induction false} FailingRoundCounts(s: Operation, answers: seq<Reading>, i: nat)
    requires s.poll.AtItem? && |answers| == |s.items| && AllUnreadable(answers) && i < |s.items|
    ensures var t := Round(s, answers);
      && t.status == s.status && t.poll == BetweenRounds && |t.items| == |s.items|
      && (t.items[i].status == Running ==>
            && s.items[i].status == Running
            && FailureCount(t.failures, i) == FailureCount(s.failures, i) + if i >= s.poll.cursor then 1 else 0)
    decreases |s.items| - s.poll.cursor
  {
    if s.poll.cursor < |s.items| { FailingRoundCounts(Visit(s, answers[s.poll.cursor]), answers, i); }
  }

  /** The polling loop over several rounds; it ends as soon as nothing is running. */
  function PollOn(s: Operation, rounds: seq<seq<Reading>>): Operation
    requires forall k | 0 <= k < |rounds| :: |rounds[k]| == |s.items|
    decreases |rounds|
  {
    if rounds == [] || !AnyRunning(s.items) then NextRound(s)
    else
      var t := Round(NextRound(s), rounds[0]);
      if |t.items| != |s.items| then t else PollOn(t, rounds[1..])
  }

  /** When progress can no longer be read at all, ten more rounds end the operation. */
  lemma UnreachableServiceEndsPolling(s: Operation, rounds: seq<seq<Reading>>)
    requires Inv(s) && s.status == Executing && s.poll == BetweenRounds && |rounds| >= MaxRefreshFailures
    requires forall k | 0 <= k < |rounds| :: |rounds[k]| == |s.items| && AllUnreadable(rounds[k])
    ensures PollOn(s, rounds).status == Completed && !AnyRunning(PollOn(s, rounds).items)
  {
    FailingRoundsEnd(s, rounds);
  }

  lemma {:induction false} FailingRoundsEnd(s: Operation, rounds: seq<seq<Reading>>)
    requires Inv(s) && s.status == Executing && s.poll == BetweenRounds
    requires forall k | 0 <= k < |rounds| :: |rounds[k]| == |s.items| && AllUnreadable(rounds[k])
    requires forall i: nat | i < |s.items| && s.items[i].status == Running :: FailureCount(s.failures, i) + |rounds| >= MaxRefreshFailures
    ensures PollOn(s, rounds).status == Completed && !AnyRunning(PollOn(s, rounds).items)
    decreases |rounds|
  {
    forall i: nat | i < |s.items| && s.items[i].status == Running ensures FailureCount(s.failures, i) < MaxRefreshFailures {
      assert PollOk(s, i);
    }
    if AnyRunning(s.items) && rounds != [] {
      NextRoundKeepsInv(s);
      RoundKeepsInv(NextRound(s), rounds[0]);
      var t := Round(NextRound(s), rounds[0]);
      forall i: nat | i < |s.items|
        ensures |t.items| == |s.items| && (t.items[i].status == Running ==> FailureCount(t.failures, i) + |rounds[1..]| >= MaxRefreshFailures)
      {
        FailingRoundCounts(NextRound(s), rounds[0], i);
      }
      FailingRoundCounts(NextRound(s), rounds[0], 0);
      FailingRoundsEnd(t, rounds[1..]);
    }
  }

  class RunningOperation {
    var status: OperationStatus
    var items: seq<Item>
    var workers: seq<Worker>
    var nextIndex: nat
    var stopped: bool
    var refreshes: bool
    var poll: Poll
    var failures: map<nat, nat>
    ghost var previewed: seq<Item>
    ghost var performed: seq<nat>
    ghost var readings: seq<Reading>
    ghost var handedBack: set<nat>

    ghost function View(): Operation
      reads this
    {
      Operation(status, items, workers, nextIndex, stopped, refreshes, poll, failures, previewed, performed, readings, handedBack)
    }

    ghost predicate Valid()
      reads this
    {
      Inv(View())
    }

    /** The worker's loop up to the next call of `perform`. */
    method WorkerTurn(w: nat)
      requires Valid() && Enabled(View(), DoTake(w))
      modifies this
      ensures Valid() && View() == Turn(old(View()), w)
    {
      TurnKeepsInv(View(), w);
      while !stopped && nextIndex < |items| && workers[w] == Ready
        invariant w < |workers| && Turn(View(), w) == Turn(old(View()), w)
        decreases |items| - nextIndex
      {
        var index := nextIndex;
        nextIndex := nextIndex + 1;
        if items[index].status == Pending {
          items := items[index := WithStatus(items[index], Running)];
          workers := workers[w := Performing(index)];
          performed := performed + [index];
        }
      }
      if workers[w] == Ready { workers := workers[w := Finished]; }
    }

    method PerformReturned(w: nat, result: Item)
      requires Valid() && Enabled(View(), DoLand(w, result))
      modifies this
      ensures Valid() && View() == Land(old(View()), w, result)
      ensures items == old(items)[old(workers)[w].index := result] && workers == old(workers)[w := Ready]
    {
      LandKeepsInv(View(), w, result);
      var index := workers[w].index;
      items, workers := items[index := result], workers[w := Ready];
      handedBack := handedBack + if result.status == Pending then {index} else {};
    }

    /** The catch clause of `execute`, once every worker has settled and one of them crashed. */
    method Stop()
      requires Valid() && Enabled(View(), DoJoin) && Crashed in workers
      modifies this
      ensures Valid() && View() == Join(old(View()))
    {
      JoinKeepsInv(View());
      status := Stopped;
      ghost var before := items;
      var i := 0;
      while i < |items|
        invariant i <= |items| && |items| == |before|
        invariant View() == old(View()).(status := Stopped, items := items)
        invariant forall k | 0 <= k < i :: items[k] == StopItem(before[k])
        invariant forall k | i <= k < |items| :: items[k] == before[k]
      {
        if items[i].status == Pending || items[i].status == Running { items := items[i := Item(items[i].id, Interrupted, "stopped")]; }
        i := i + 1;
      }
      assert items == StopItems(before);
    }

    /** The body of the polling loop for one item. */
    method VisitItem(reading: Reading)
      requires poll == AtItem(reading.index) && reading.index < |items|
      modifies this
      ensures View() == Visit(old(View()), reading)
    {
      var index := reading.index;
      poll := AtItem(index + 1);
      if items[index].status != Running { return; }
      readings := readings + [reading];
      match reading {
      case Read(_, next) =>
        failures := failures - {index};
        handedBack := handedBack + if next.status == Pending then {index} else {};
        if next.status != items[index].status || next.detail != items[index].detail { items := items[index := next]; }
      case Unreadable(_, missing) =>
        var attempts := FailureCount(failures, index) + 1;
        failures := failures[index := attempts];
        var exhausted := missing || attempts >= MaxRefreshFailures;
        var id := items[index].id;
        items := items[index := if exhausted then Item(id, Interrupted, "unconfirmed") else Item(id, Running, "unavailable")];
      }
      assert failures == FailuresAfter(old(failures), reading);
      assert items == old(items)[index := ItemAfter(old(items)[index], old(failures), reading)];
    }

    /** One round of `awaitCompletion` over all items. */
    method PollRound(answers: seq<Reading>)
      requires Valid() && status == Executing && poll == AtItem(0) && |answers| == |items|
      requires forall i | 0 <= i < |answers| :: answers[i].index == i
      modifies this
      ensures Valid() && View() == Round(old(View()), answers)
    {
      RoundKeepsInv(View(), answers);
      var index := 0;
      while index < |items|
        invariant poll == AtItem(index) && |items| == |answers|
        invariant Round(View(), answers) == Round(old(View()), answers)
      {
        VisitItem(answers[index]);
        index := index + 1;
      }
      poll := BetweenRounds;
    }
  }

  // ---------------------------------------------------------------- the manager

  datatype Record = Record(scope: string, expiresAt: int, updatedAt: int, operation: Operation)

  predicate Expired(r: Record, now: int) {
    if r.operation.status == Preview then r.expiresAt <= now else r.operation.status != Executing && r.updatedAt + ResultTtlMs <= now
  }

  /** The items frozen by a preview: skipped when a reason was given, pending otherwise. */
  function Frozen(ids: seq<string>, reasons: seq<string>): seq<Item>
    requires |ids| == |reasons|
  {
    seq(|ids|, i requires 0 <= i < |ids| => Item(ids[i], if reasons[i] != "" then Skipped else Pending, reasons[i]))
  }

  class Manager {
    const scope: string
    var operations: map<string, Record>

    constructor (scope: string)
      ensures this.scope == scope && operations == map[]
    {
      this.scope, operations := scope, map[];
    }

    /** Drops expired previews and old results; an executing operation always survives. */
    method Sweep(now: int)
      modifies this
      ensures forall id | id in old(operations) ::
        id in operations <==> var r := old(operations)[id];
          match r.operation.status
          case Executing => true
          case Preview => now < r.expiresAt
          case _ => now < r.updatedAt + 3_600_000
      ensures operations == map id | id in old(operations) && !Expired(old(operations)[id], now) :: old(operations)[id]
    {
      var left := operations.Keys;
      while left != {}
        invariant left <= old(operations).Keys
        invariant operations == map id | id in old(operations) && (id in left || !Expired(old(operations)[id], now)) :: old(operations)[id]
        decreases |left|
      {
        var id :| id in left;
        left := left - {id};
        if Expired(operations[id], now) { operations := operations - {id}; }
      }
    }

    method Get(id: string, now: int) returns (found: Option<Record>)
      modifies this
      ensures found.Some? <==> id in old(operations) && !Expired(old(operations)[id], now) && old(operations)[id].scope == scope
      ensures found.Some? ==> id in operations && found.value == operations[id] == old(operations)[id]
      ensures operations == map id | id in old(operations) && !Expired(old(operations)[id], now) :: old(operations)[id]
    {
      Sweep(now);
      found := if id in operations && operations[id].scope == scope then Some(operations[id]) else None;
    }

    /** `reasons[i]` is the answer of the eligibility check of `ids[i]`, empty when it gave none. */
    method StartPreview(id: string, ids: seq<string>, reasons: seq<string>, now: int) returns (operation: Option<Operation>)
      requires |ids| == |reasons| && id !in operations
      modifies this
      ensures operation.Some? <==> 0 < |ids| <= 1000
      ensures operation.None? ==> operations == old(operations)
      ensures operation.Some? ==> Init(operation.value) && |operation.value.items| == |ids|
      ensures operation.Some? ==> forall i | 0 <= i < |ids| ::
        operation.value.items[i] == Item(ids[i], if reasons[i] == "" then Pending else Skipped, reasons[i])
      ensures operation.Some? ==> id in operations && operations[id] == Record(scope, now + 600_000, now, operation.value)
    {
      if ids == [] || |ids| > BatchLimit { return None; }
      var items: seq<Item> := [];
      for i := 0 to |ids|
        invariant items == Frozen(ids[..i], reasons[..i])
      {
        items := items + [Item(ids[i], if reasons[i] != "" then Skipped else Pending, reasons[i])];
      }
      assert ids[..|ids|] == ids && reasons[..|ids|] == reasons;
      operation := Some(Operation(Preview, items, [], 0, false, false, NotPolling, map[], items, [], [], {}));
      Sweep(now);
      operations := operations[id := Record(scope, now + PreviewTtlMs, now, operation.value)];
    }

    /** Confirms a preview; a repeated confirmation reports the operation as it stands. */
    method Confirm(id: string, refreshes: bool, concurrency: int, now: int) returns (found: bool)
      modifies this
      ensures found <==> id in old(operations) && !Expired(old(operations)[id], now) && old(operations)[id].scope == scope
      ensures found ==> id in operations && var was := old(operations)[id];
        operations[id] == if was.operation.status != Preview then was
                          else Record(was.scope, was.expiresAt, now, Execute(was.operation, concurrency, refreshes))
      ensures forall other | other in old(operations) && other != id && !Expired(old(operations)[other], now) ::
        other in operations && operations[other] == old(operations)[other]
    {
      var record := Get(id, now);
      found := record.Some?;
      if !found || record.value.operation.status != Preview { return; }
      var started := Execute(record.value.operation, concurrency, refreshes);
      operations := operations[id := record.value.(operation := started, updatedAt := now)];
    }
  }
}
