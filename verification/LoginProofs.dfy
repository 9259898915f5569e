module LoginProofs {
  import opened Common
  import opened LoginStore
  import opened LoginService
  import opened LoginInvariants

  // ---------------------------------------------------------------- sequences

  lemma {:induction false} SubsequenceAppend(a: seq<AttemptId>, b: seq<AttemptId>, x: AttemptId)
    requires Subsequence(a, b)
    ensures Subsequence(a, b + [x])
    ensures Subsequence(a + [x], b + [x])
    decreases |b|
  {
    if b == [] {
      assert a == [];
      assert (a + [x])[1..] == [] && (b + [x])[1..] == [];
    } else {
      assert (b + [x])[1..] == b[1..] + [x];
      if a == [] {
        SubsequenceAppend([], b[1..], x);
        assert [x][1..] == [];
      } else {
        assert (a + [x])[1..] == a[1..] + [x];
        if a[0] == b[0] && Subsequence(a[1..], b[1..]) { SubsequenceAppend(a[1..], b[1..], x); }
        else { SubsequenceAppend(a, b[1..], x); }
      }
    }
  }

  lemma {:induction false} DropFromSubsequence(front: seq<AttemptId>, x: AttemptId, back: seq<AttemptId>, b: seq<AttemptId>)
    requires Subsequence(front + [x] + back, b)
    ensures Subsequence(front + back, b)
    decreases |b|
  {
    var all := front + [x] + back;
    if all[0] == b[0] && Subsequence(all[1..], b[1..]) {
      if front == [] {
        assert all[1..] == front + back;
      } else {
        assert all[1..] == front[1..] + [x] + back;
        DropFromSubsequence(front[1..], x, back, b[1..]);
        assert (front + back)[1..] == front[1..] + back;
      }
    } else {
      DropFromSubsequence(front, x, back, b[1..]);
    }
  }

  lemma {:induction false} SubsequenceCounts(a: seq<AttemptId>, b: seq<AttemptId>)
    requires Subsequence(a, b)
    ensures multiset(a) <= multiset(b)
    decreases |b|
  {
    if a != [] {
      assert b == [b[0]] + b[1..];
      if a[0] == b[0] && Subsequence(a[1..], b[1..]) {
        SubsequenceCounts(a[1..], b[1..]);
        assert a == [a[0]] + a[1..];
      } else {
        SubsequenceCounts(a, b[1..]);
      }
    }
  }

  lemma {:induction false} AttemptsAppend(pending: seq<Payload>, p: Payload)
    ensures Attempts(pending + [p]) == Attempts(pending) + [p.attempt]
  {
    if pending != [] {
      AttemptsAppend(pending[1..], p);
      assert (pending + [p])[1..] == pending[1..] + [p];
    }
  }

  lemma {:induction false} InQueueAppend(pending: seq<Payload>, p: Payload, t: TaskId)
    ensures InQueue(pending + [p], t) <==> InQueue(pending, t) || p.task == t
  {
    if pending != [] {
      InQueueAppend(pending[1..], p, t);
      assert (pending + [p])[1..] == pending[1..] + [p];
    }
  }

  lemma {:induction false} RemoveTaskMembers(pending: seq<Payload>, task: TaskId, t: TaskId)
    ensures t != task ==> InQueue(RemoveTask(pending, task), t) == InQueue(pending, t)
    ensures InQueue(RemoveTask(pending, task), t) ==> InQueue(pending, t)
  {
    if pending != [] && pending[0].task != task {
      RemoveTaskMembers(pending[1..], task, t);
      assert ([pending[0]] + RemoveTask(pending[1..], task))[1..] == RemoveTask(pending[1..], task);
    }
  }

  /** The queue depends only on the rows and slots of the tasks in it. */
  lemma {:induction false} QueueFrame(tasks: Tasks, runs: map<TaskId, Run>, tasks': Tasks, runs': map<TaskId, Run>, pending: seq<Payload>)
    requires QueueOk(tasks, runs, pending)
    requires forall t | InQueue(pending, t) :: t in tasks' && (t in tasks ==> tasks'[t] == tasks[t]) && (t in runs' ==> t in runs)
    ensures QueueOk(tasks', runs', pending)
  {
    if pending != [] {
      assert InQueue(pending, pending[0].task);
      assert forall t | InQueue(pending[1..], t) :: InQueue(pending, t);
      QueueFrame(tasks, runs, tasks', runs', pending[1..]);
    }
  }

  lemma {:induction false} QueueAppend(tasks: Tasks, runs: map<TaskId, Run>, pending: seq<Payload>, p: Payload)
    requires QueueOk(tasks, runs, pending) && PayloadOk(tasks, runs, p) && !InQueue(pending, p.task)
    ensures QueueOk(tasks, runs, pending + [p])
  {
    if pending != [] {
      QueueAppend(tasks, runs, pending[1..], p);
      assert (pending + [p])[1..] == pending[1..] + [p];
      InQueueAppend(pending[1..], p, pending[0].task);
    }
  }

  lemma {:induction false} QueueRemove(tasks: Tasks, runs: map<TaskId, Run>, pending: seq<Payload>, task: TaskId)
    requires QueueOk(tasks, runs, pending)
    ensures QueueOk(tasks, runs, RemoveTask(pending, task)) && !InQueue(RemoveTask(pending, task), task)
  {
    if pending != [] && pending[0].task != task {
      QueueRemove(tasks, runs, pending[1..], task);
      RemoveTaskMembers(pending[1..], task, pending[0].task);
      assert ([pending[0]] + RemoveTask(pending[1..], task))[1..] == RemoveTask(pending[1..], task);
    }
  }

  lemma {:induction false} QueuedIsPending(tasks: Tasks, runs: map<TaskId, Run>, pending: seq<Payload>, t: TaskId)
    requires QueueOk(tasks, runs, pending) && InQueue(pending, t)
    ensures t in tasks && tasks[t].status == Pending && tasks[t].stage == Queued && t !in runs
  {
    if pending[0].task != t { QueuedIsPending(tasks, runs, pending[1..], t); }
  }

  lemma {:induction false} RemoveTaskKeepsOrder(front: seq<AttemptId>, pending: seq<Payload>, task: TaskId, b: seq<AttemptId>)
    requires Subsequence(front + Attempts(pending), b)
    ensures Subsequence(front + Attempts(RemoveTask(pending, task)), b)
    decreases |pending|
  {
    if pending != [] {
      var head, rest := pending[0].attempt, pending[1..];
      assert front + Attempts(pending) == front + [head] + Attempts(rest);
      if pending[0].task == task {
        DropFromSubsequence(front, head, Attempts(rest), b);
      } else {
        RemoveTaskKeepsOrder(front + [head], rest, task, b);
        var removed := RemoveTask(rest, task);
        assert ([pending[0]] + removed)[1..] == removed;
        assert front + Attempts([pending[0]] + removed) == front + [head] + Attempts(removed);
      }
    }
  }

  // ---------------------------------------------------------------- steps that touch one task

  /** Everything the invariant says about a task other than `t` is the same in both states. */
  ghost predicate OnlyTask(s: Login, s': Login, t: TaskId) {
    && (forall u | u != t :: (u in s'.db.tasks <==> u in s.db.tasks) && (u in s.db.tasks ==> s'.db.tasks[u] == s.db.tasks[u]))
    && (forall u | u != t :: (u in s'.runs <==> u in s.runs) && (u in s.runs ==> s'.runs[u] == s.runs[u]))
    && (forall u | u != t ::
          (u in s'.cancellers <==> u in s.cancellers) && (u in s.cancellers ==> s'.cancellers[u] == s.cancellers[u]))
    && (forall u | u != t && InQueue(s.pending, u) :: InQueue(s'.pending, u))
    && (forall a | a in s.preparing && s.preparing[a].task != t :: a in s'.preparing && s'.preparing[a] == s.preparing[a])
    && (forall a | a in s'.preparing && s'.preparing[a].task != t :: a in s.preparing && s'.preparing[a] == s.preparing[a])
    && (forall u, a | u != t :: (u, a) in s'.past.stranded <==> (u, a) in s.past.stranded)
    && s.past.confirmed <= s'.past.confirmed && s'.past.enqueued == s.past.enqueued
  }

  lemma OthersKept(s: Login, s': Login, t: TaskId, u: TaskId)
    requires LocalOk(s, u) && OnlyTask(s, s', t) && u != t
    ensures LocalOk(s', u)
  {
  }

  lemma OneTaskStep(s: Login, s': Login, t: TaskId)
    requires forall u :: LocalOk(s, u)
    requires OnlyTask(s, s', t) && LocalOk(s', t)
    ensures forall u :: LocalOk(s', u)
  {
    forall u ensures LocalOk(s', u) {
      assert LocalOk(s, u);
      if u != t { OthersKept(s, s', t, u); }
    }
  }

  /** A step on a task that is not in the queue. */
  lemma QuietStep(s: Login, s': Login, t: TaskId)
    requires QueueInv(s) && OnlyTask(s, s', t) && LocalOk(s', t)
    requires s'.pending == s.pending && !InQueue(s.pending, t)
    requires KeysOk(s'.cancelled, s'.cancellers) && IdsOk(s') && OrderOk(s')
    ensures QueueInv(s')
  {
    OneTaskStep(s, s', t);
    forall u | InQueue(s.pending, u)
      ensures u in s'.db.tasks && (u in s.db.tasks ==> s'.db.tasks[u] == s.db.tasks[u]) && (u in s'.runs ==> u in s.runs)
    {
      QueuedIsPending(s.db.tasks, s.runs, s.pending, u);
    }
    QueueFrame(s.db.tasks, s.runs, s'.db.tasks, s'.runs, s.pending);
  }

  predicate SameOwner(before: Task, after: Task) {
    after.mapping == before.mapping && after.attempt == before.attempt
  }

  /** A step of a run: the slot is held throughout, so the queue does not hold the task. */
  lemma RunStep(s: Login, s': Login, id: TaskId)
    requires QueueInv(s) && id in s.runs && LocalOk(s', id)
    requires s' == s.(db := s'.db, runs := s'.runs, sent := s'.sent, past := s.past.(confirmed := s'.past.confirmed))
    requires s.past.confirmed <= s'.past.confirmed
    requires id in s'.runs && s'.runs == s.runs[id := s'.runs[id]] && s'.runs[id].attempt == s.runs[id].attempt
    requires s'.db.attempts.Keys == s.db.attempts.Keys
    requires if id in s.db.tasks
             then id in s'.db.tasks && s'.db.tasks == s.db.tasks[id := s'.db.tasks[id]] && SameOwner(s.db.tasks[id], s'.db.tasks[id])
             else s'.db.tasks == s.db.tasks
    ensures QueueInv(s')
  {
    if InQueue(s.pending, id) { QueuedIsPending(s.db.tasks, s.runs, s.pending, id); assert false; }
    assert OnlyTask(s, s', id);
    QuietStep(s, s', id);
  }

  lemma StageReportedKeeps(s: Login, id: TaskId, stage: Stage)
    requires QueueInv(s) && RunIn(s, id, Authorizing) && stage.Reported?
    ensures QueueInv(StageReported(s, id, stage))
  {
    var s' := StageReported(s, id, stage);
    assert LocalOk(s, id);
    assert s'.runs == s.runs[id := s'.runs[id]];
    RunStep(s, s', id);
  }

  lemma TokenObtainedKeeps(s: Login, id: TaskId, token: Token)
    requires QueueInv(s) && RunIn(s, id, Authorizing) && !s.runs[id].aborted
    ensures QueueInv(TokenObtained(s, id, token))
  {
    assert LocalOk(s, id);
    RunStep(s, TokenObtained(s, id, token), id);
  }

  lemma RunThrewLocal(s: Login, id: TaskId)
    requires LocalOk(s, id) && id in s.runs && Live(s.runs[id])
    ensures LocalOk(RunThrew(s, id), id)
  {
  }

  lemma RunThrewKeeps(s: Login, id: TaskId)
    requires QueueInv(s) && id in s.runs && Live(s.runs[id])
    ensures QueueInv(RunThrew(s, id))
  {
    assert LocalOk(s, id);
    RunThrewLocal(s, id);
    RunStep(s, RunThrew(s, id), id);
  }

  lemma TokenSavedLocal(s: Login, id: TaskId)
    requires LocalOk(s, id) && RunIn(s, id, Saving)
    ensures LocalOk(TokenSaved(s, id), id)
  {
  }

  lemma TokenSavedKeeps(s: Login, id: TaskId)
    requires QueueInv(s) && RunIn(s, id, Saving)
    ensures QueueInv(TokenSaved(s, id))
  {
    assert LocalOk(s, id);
    TokenSavedLocal(s, id);
    RunStep(s, TokenSaved(s, id), id);
  }

  /** `failRun` finds the attempt already closed, whatever happened since the runner threw. */
  lemma RunCaughtFindsClosed(s: Login, id: TaskId)
    requires LocalOk(s, id) && RunIn(s, id, Threw)
    ensures RunCaught(s, id).db == s.db
  {
  }

  lemma RunCaughtLocal(s: Login, id: TaskId)
    requires LocalOk(s, id) && RunIn(s, id, Threw)
    ensures RunCaught(s, id).db == s.db
    ensures LocalOk(RunCaught(s, id), id)
  {
    RunCaughtFindsClosed(s, id);
    var phase := RunCaught(s, id).runs[id].phase;
    QuietPhaseLocal(s, id, phase, RunCaught(s, id).sent);
  }

  /** A run that has let go of its task may move on without touching what holds of it. */
  lemma QuietPhaseLocal(s: Login, id: TaskId, phase: Phase, sent: set<Request>)
    requires LocalOk(s, id) && RunIn(s, id, Threw) && (phase == Reporting || phase == Settling)
    ensures LocalOk(InPhase(s, id, phase).(sent := sent), id)
  {
  }

  lemma RunCaughtKeeps(s: Login, id: TaskId)
    requires QueueInv(s) && RunIn(s, id, Threw)
    ensures QueueInv(RunCaught(s, id))
  {
    assert LocalOk(s, id);
    RunCaughtLocal(s, id);
    RunStep(s, RunCaught(s, id), id);
  }

  lemma ReportedKeeps(s: Login, id: TaskId)
    requires QueueInv(s) && RunIn(s, id, Reporting)
    ensures QueueInv(InPhase(s, id, Settling))
  {
    assert LocalOk(s, id);
    RunStep(s, InPhase(s, id, Settling), id);
  }

  // ---------------------------------------------------------------- cancellation

  lemma CancelLocal(s: Login, enterprise: EnterpriseId, id: TaskId)
    requires LocalOk(s, id) && KeysOk(s.cancelled, s.cancellers)
    requires Has(s.db, enterprise, id) && Active(s.db.tasks[id].status)
    ensures LocalOk(Cancel(s, enterprise, id), id)
    ensures KeysOk(Cancel(s, enterprise, id).cancelled, Cancel(s, enterprise, id).cancellers)
  {
  }

  lemma CancelFrame(s: Login, enterprise: EnterpriseId, id: TaskId)
    requires Has(s.db, enterprise, id) && Active(s.db.tasks[id].status)
    ensures OnlyTask(s, Cancel(s, enterprise, id), id)
  {
    forall u | u != id && InQueue(s.pending, u) ensures InQueue(Cancel(s, enterprise, id).pending, u) {
      RemoveTaskMembers(s.pending, id, u);
    }
  }

  lemma CancelKeepsLocal(s: Login, enterprise: EnterpriseId, id: TaskId)
    requires (forall t :: LocalOk(s, t)) && KeysOk(s.cancelled, s.cancellers) && Has(s.db, enterprise, id) && Active(s.db.tasks[id].status)
    ensures var s' := Cancel(s, enterprise, id); (forall t :: LocalOk(s', t)) && KeysOk(s'.cancelled, s'.cancellers)
  {
    assert LocalOk(s, id);
    CancelLocal(s, enterprise, id);
    CancelFrame(s, enterprise, id);
    OneTaskStep(s, Cancel(s, enterprise, id), id);
  }

  lemma CancelKeepsOrder(s: Login, enterprise: EnterpriseId, id: TaskId)
    requires OrderOk(s)
    ensures OrderOk(Cancel(s, enterprise, id))
  {
    RemoveTaskKeepsOrder(s.past.started, s.pending, id, s.past.enqueued);
  }

  lemma CancelKeepsIds(s: Login, enterprise: EnterpriseId, id: TaskId)
    requires IdsOk(s)
    ensures IdsOk(Cancel(s, enterprise, id))
  {
    var s' := Cancel(s, enterprise, id);
    assert s'.db.tasks.Keys == s.db.tasks.Keys && s'.db.attempts.Keys == s.db.attempts.Keys && s'.runs.Keys == s.runs.Keys;
    forall t | t in s'.db.tasks
      ensures s'.db.tasks[t].attempt == s.db.tasks[t].attempt && s'.db.tasks[t].mapping == s.db.tasks[t].mapping {}
    forall t | t in s'.runs ensures s'.runs[t].attempt == s.runs[t].attempt {}
  }

  lemma CancelKeeps(s: Login, enterprise: EnterpriseId, id: TaskId)
    requires QueueInv(s)
    ensures QueueInv(Cancel(s, enterprise, id))
  {
    if Has(s.db, enterprise, id) && Active(s.db.tasks[id].status) {
      CancelKeepsLocal(s, enterprise, id);
      CancelKeepsQueue(s, enterprise, id);
      CancelKeepsIds(s, enterprise, id);
      CancelKeepsOrder(s, enterprise, id);
    }
  }

  lemma CancelKeepsQueue(s: Login, enterprise: EnterpriseId, id: TaskId)
    requires QueueOk(s.db.tasks, s.runs, s.pending) && Has(s.db, enterprise, id) && Active(s.db.tasks[id].status)
    ensures var s' := Cancel(s, enterprise, id); QueueOk(s'.db.tasks, s'.runs, s'.pending)
  {
    var s' := Cancel(s, enterprise, id);
    QueueRemove(s.db.tasks, s.runs, s.pending, id);
    forall u | InQueue(s'.pending, u)
      ensures u in s'.db.tasks && (u in s.db.tasks ==> s'.db.tasks[u] == s.db.tasks[u]) && (u in s'.runs ==> u in s.runs)
    {
      QueuedIsPending(s.db.tasks, s.runs, s'.pending, u);
    }
    QueueFrame(s.db.tasks, s.runs, s'.db.tasks, s'.runs, s'.pending);
  }

  lemma CancellerNotQueued(s: Login, id: TaskId)
    requires QueueInv(s) && id in s.cancellers
    ensures !InQueue(s.pending, id)
  {
    assert LocalOk(s, id);
    if InQueue(s.pending, id) { QueuedIsPending(s.db.tasks, s.runs, s.pending, id); assert false; }
  }

  lemma FinishCancellationLocal(s: Login, id: TaskId)
    requires LocalOk(s, id) && id in s.cancellers && !s.cancellers[id].reported && AwaitedRunSettled(s, id)
    ensures LocalOk(FinishCancellation(s, id), id)
  {
    var s', c := FinishCancellation(s, id), s.cancellers[id];
    if id in s.db.tasks && s.db.tasks[id].status == Cancelling {
      assert s'.db.tasks[id] == s.db.tasks[id].(status := Cancelled, stage := Ended(Cancelled));
    } else {
      assert s'.db == s.db;
    }
  }

  lemma FinishCancellationKeys(s: Login, id: TaskId)
    requires KeysOk(s.cancelled, s.cancellers) && id in s.cancellers
    ensures KeysOk(s.cancelled, FinishCancellation(s, id).cancellers)
  {
  }

  lemma FinishCancellationFrame(s: Login, id: TaskId)
    requires id in s.cancellers
    ensures OnlyTask(s, FinishCancellation(s, id), id)
  {
  }

  lemma FinishCancellationIds(s: Login, id: TaskId)
    requires id in s.cancellers && IdsOk(s)
    ensures IdsOk(FinishCancellation(s, id))
  {
  }

  lemma FinishCancellationKeeps(s: Login, id: TaskId)
    requires QueueInv(s) && id in s.cancellers && !s.cancellers[id].reported && AwaitedRunSettled(s, id)
    ensures QueueInv(FinishCancellation(s, id))
  {
    var s' := FinishCancellation(s, id);
    assert LocalOk(s, id);
    FinishCancellationLocal(s, id);
    FinishCancellationKeys(s, id);
    CancellerNotQueued(s, id);
    FinishCancellationFrame(s, id);
    FinishCancellationIds(s, id);
    QuietStep(s, s', id);
  }

  lemma CloseCancellationKeeps(s: Login, id: TaskId)
    requires QueueInv(s) && id in s.cancellers && s.cancellers[id].reported
    ensures QueueInv(CloseCancellation(s, id))
  {
    var s' := CloseCancellation(s, id);
    assert LocalOk(s, id);
    CancellerNotQueued(s, id);
    assert OnlyTask(s, s', id);
    assert KeysOk(s'.cancelled, s'.cancellers) by {
      assert forall key | key in s.cancelled && key.0 == id :: key == (id, s.cancellers[id].attempt);
    }
    QuietStep(s, s', id);
  }

  // ---------------------------------------------------------------- drain

  /** The head of the queue is always runnable, so draining never discards a payload. */
  lemma HeadIsRunnable(s: Login)
    requires QueueInv(s) && s.pending != []
    ensures IsRunnable(s.(pending := s.pending[1..]), s.pending[0])
    ensures s.pending[0].task !in s.runs && s.pending[0].task !in s.cancellers
  {
    assert LocalOk(s, s.pending[0].task);
  }

  function ShiftAndStart(s: Login): Login
    requires s.pending != []
  {
    Start(s.(pending := s.pending[1..]), s.pending[0])
  }

  lemma StartLocal(s: Login)
    requires s.pending != [] && LocalOk(s, s.pending[0].task) && PayloadOk(s.db.tasks, s.runs, s.pending[0])
    ensures LocalOk(ShiftAndStart(s), s.pending[0].task)
    ensures OnlyTask(s, ShiftAndStart(s), s.pending[0].task)
  {
  }

  lemma StartKeepsQueue(s: Login)
    requires s.pending != [] && QueueOk(s.db.tasks, s.runs, s.pending)
    ensures var s' := ShiftAndStart(s); QueueOk(s'.db.tasks, s'.runs, s'.pending)
  {
    var s' := ShiftAndStart(s);
    var rest := s.pending[1..];
    forall u | InQueue(rest, u)
      ensures u in s'.db.tasks && (u in s.db.tasks ==> s'.db.tasks[u] == s.db.tasks[u]) && (u in s'.runs ==> u in s.runs)
    {
      QueuedIsPending(s.db.tasks, s.runs, rest, u);
    }
    QueueFrame(s.db.tasks, s.runs, s'.db.tasks, s'.runs, rest);
  }

  lemma StartKeepsOrder(s: Login)
    requires s.pending != [] && OrderOk(s)
    ensures OrderOk(ShiftAndStart(s))
  {
    var p := s.pending[0];
    assert s.past.started + Attempts(s.pending) == (s.past.started + [p.attempt]) + Attempts(s.pending[1..]);
  }

  lemma StartKeeps(s: Login)
    requires QueueInv(s) && s.pending != []
    ensures QueueInv(ShiftAndStart(s))
  {
    var p, s' := s.pending[0], ShiftAndStart(s);
    assert LocalOk(s, p.task);
    StartLocal(s);
    OneTaskStep(s, s', p.task);
    StartKeepsQueue(s);
    StartKeepsOrder(s);
    StartKeepsIds(s);
  }

  lemma StartKeepsIds(s: Login)
    requires s.pending != [] && IdsOk(s) && PayloadOk(s.db.tasks, s.runs, s.pending[0])
    requires s.pending[0].attempt in s.past.attemptIds
    ensures IdsOk(ShiftAndStart(s))
  {
  }

  lemma {:induction false} DrainKeeps(s: Login, limit: nat)
    requires QueueInv(s)
    ensures QueueInv(Drain(s, limit))
    decreases |s.pending|
  {
    if s.accepting && |s.runs| < limit && s.pending != [] {
      HeadIsRunnable(s);
      StartKeeps(s);
      DrainKeeps(ShiftAndStart(s), limit);
    }
  }

  lemma SlotFreedKeeps(s: Login, id: TaskId, limit: nat)
    requires QueueInv(s) && RunIn(s, id, Settling)
    ensures QueueInv(SlotFreed(s, id, limit))
  {
    var s' := s.(runs := s.runs - {id});
    assert LocalOk(s, id);
    if InQueue(s.pending, id) { QueuedIsPending(s.db.tasks, s.runs, s.pending, id); assert false; }
    assert OnlyTask(s, s', id);
    assert LocalOk(s', id);
    QuietStep(s, s', id);
    DrainKeeps(s', limit);
  }

  // ---------------------------------------------------------------- submissions

  /** A payload enters the queue for a pending task that nothing else owns. */
  ghost predicate MayPush(s: Login, p: Payload) {
    && PayloadOk(s.db.tasks, s.runs, p) && !InQueue(s.pending, p.task) && p.attempt in s.past.attemptIds
    && (forall u | u in s.db.tasks && s.db.tasks[u].attempt == p.attempt :: u == p.task)
  }

  lemma PushKeepsOrder(s: Login, p: Payload)
    requires OrderOk(s) && MayPush(s, p)
    ensures OrderOk(Push(s, p))
  {
    var s' := Push(s, p);
    AttemptsAppend(s.pending, p);
    assert s'.past.started + Attempts(s'.pending) == (s.past.started + Attempts(s.pending)) + [p.attempt];
    SubsequenceAppend(s.past.started + Attempts(s.pending), s.past.enqueued, p.attempt);
  }

  /** `s` may miss the queue entry of the pushed task; it is well formed everywhere else. */
  lemma PushKeeps(s: Login, p: Payload)
    requires forall u | u != p.task :: LocalOk(s, u)
    requires LocalOk(Push(s, p), p.task)
    requires KeysOk(s.cancelled, s.cancellers) && QueueOk(s.db.tasks, s.runs, s.pending) && IdsOk(s) && OrderOk(s)
    requires MayPush(s, p)
    ensures QueueInv(Push(s, p))
  {
    var s' := Push(s, p);
    forall u | u != p.task ensures LocalOk(s', u) {
      assert LocalOk(s, u);
      InQueueAppend(s.pending, p, u);
    }
    QueueAppend(s.db.tasks, s.runs, s.pending, p);
    PushKeepsOrder(s, p);
  }

  lemma RegisterFrame(s: Login, enterprise: EnterpriseId, mapping: Mapping, attempt: AttemptId, id: TaskId)
    requires QueueInv(s) && id !in s.past.taskIds
    ensures var t := Register(s, enterprise, mapping, attempt, id);
      OnlyTask(s, t, id) && IdsOk(t) && QueueOk(t.db.tasks, t.runs, t.pending)
  {
    var t := Register(s, enterprise, mapping, attempt, id);
    forall u | InQueue(s.pending, u)
      ensures u in t.db.tasks && (u in s.db.tasks ==> t.db.tasks[u] == s.db.tasks[u]) && (u in t.runs ==> u in s.runs)
    {
      QueuedIsPending(s.db.tasks, s.runs, s.pending, u);
    }
    QueueFrame(s.db.tasks, s.runs, t.db.tasks, t.runs, s.pending);
  }

  lemma FreshIsIdle(s: Login, id: TaskId)
    requires QueueInv(s) && id !in s.past.taskIds
    ensures !IsBusy(s, id) && id !in s.cancellers && id !in s.db.tasks
  {
    if InQueue(s.pending, id) { QueuedIsPending(s.db.tasks, s.runs, s.pending, id); assert false; }
  }

  lemma SubmitKeeps(s: Login, enterprise: EnterpriseId, mapping: Mapping, attempt: AttemptId, id: TaskId, limit: nat)
    requires QueueInv(s) && id !in s.past.taskIds && forall u | u in s.db.tasks :: s.db.tasks[u].attempt != attempt
    ensures QueueInv(Submit(s, enterprise, mapping, attempt, id, limit))
  {
    var t := Register(s, enterprise, mapping, attempt, id);
    var p := Payload(enterprise, id, attempt, mapping.identity);
    FreshIsIdle(s, id);
    RegisterFrame(s, enterprise, mapping, attempt, id);
    forall u | u != id ensures LocalOk(t, u) { assert LocalOk(s, u); OthersKept(s, t, id, u); }
    InQueueAppend(s.pending, p, id);
    RegisteredLocal(s, enterprise, mapping, attempt, id);
    PushKeeps(t, p);
    DrainKeeps(Push(t, p), limit);
  }

  lemma RegisteredLocal(s: Login, enterprise: EnterpriseId, mapping: Mapping, attempt: AttemptId, id: TaskId)
    requires id !in s.runs && id !in s.cancellers && IdsOk(s) && id !in s.past.taskIds
    requires InQueue(s.pending + [Payload(enterprise, id, attempt, mapping.identity)], id)
    ensures LocalOk(Push(Register(s, enterprise, mapping, attempt, id), Payload(enterprise, id, attempt, mapping.identity)), id)
  {
  }

  /** Submitting an attempt again never queues it again: a pending, queued attempt is in the queue already. */
  lemma ResubmissionIsBusy(s: Login, attempt: AttemptId)
    requires LoginInv(s) && attempt in s.db.attempts
    requires s.db.attempts[attempt].status == Pending && s.db.attempts[attempt].stage == Queued
    ensures IsBusy(s, s.db.attempts[attempt].task)
  {
    var t := s.db.attempts[attempt].task;
    assert !IsSuperseded(s.db, attempt);
    assert LocalOk(s, t);
  }

  lemma EnqueueKeeps(s: Login, enterprise: EnterpriseId, mapping: Mapping, attempt: AttemptId, id: TaskId, limit: nat)
    requires LoginInv(s) && id !in s.past.taskIds
    ensures QueueInv(Enqueue(s, enterprise, mapping, attempt, id, limit))
  {
    match CreateVerdict(s.db, enterprise, mapping, attempt, id)
    case Created(_) => SubmitKeeps(s, enterprise, mapping, attempt, id, limit);
    case Existing(task) =>
      if s.db.attempts[attempt].status == Pending && s.db.attempts[attempt].stage == Queued { ResubmissionIsBusy(s, attempt); }
    case _ =>
  }

  // ---------------------------------------------------------------- retry

  lemma ReserveLocal(s: Login, q: Inquiry, attempt: AttemptId)
    requires LocalOk(s, q.task) && attempt !in s.past.attemptIds
    requires q.task in s.runs ==> s.runs[q.task].attempt in s.past.attemptIds
    requires attempt !in s.preparing && attempt !in s.past.enqueued && (q.task, attempt) !in s.past.stranded
    requires CanReserve(s.db, q.enterprise, q.task, q.snapshot.mapping.identity, q.snapshot.attempt)
    requires s.db.tasks[q.task].mapping == q.snapshot.mapping
    ensures LocalOk(ReserveRetry(s, q, attempt), q.task)
    ensures OnlyTask(s, ReserveRetry(s, q, attempt), q.task)
  {
  }

  lemma ReserveKeepsIds(s: Login, q: Inquiry, attempt: AttemptId)
    requires IdsOk(s) && attempt !in s.past.attemptIds
    requires CanReserve(s.db, q.enterprise, q.task, q.snapshot.mapping.identity, q.snapshot.attempt)
    ensures IdsOk(ReserveRetry(s, q, attempt))
  {
  }

  lemma ReserveRetryKeeps(s: Login, q: Inquiry, attempt: AttemptId)
    requires QueueInv(s) && q in s.inquiries && attempt !in s.past.attemptIds
    ensures QueueInv(ReserveRetry(s, q, attempt))
  {
    if CanReserve(s.db, q.enterprise, q.task, q.snapshot.mapping.identity, q.snapshot.attempt) {
      var s' := ReserveRetry(s, q, attempt);
      assert LocalOk(s, q.task);
      ReserveLocal(s, q, attempt);
      ReserveKeepsIds(s, q, attempt);
      if InQueue(s.pending, q.task) { QueuedIsPending(s.db.tasks, s.runs, s.pending, q.task); assert false; }
      assert OrderOk(s');
      QuietStep(s, s', q.task);
    }
  }

  /** No two tasks point at one attempt. */
  ghost predicate OwnAttempts(tasks: Tasks) {
    forall t, u | t in tasks && u in tasks && tasks[t].attempt == tasks[u].attempt :: t == u
  }

  /** The queue drops a retry whose task is busy. */
  lemma StrandedKeeps(s: Login, attempt: AttemptId)
    requires QueueInv(s) && attempt in s.preparing && s.preparing[attempt].task in s.runs
    requires CanMarkRunning(s.db, s.preparing[attempt].enterprise, s.preparing[attempt].task, attempt)
    ensures QueueInv(s.(preparing := s.preparing - {attempt},
                        past := s.past.(stranded := s.past.stranded + {(s.preparing[attempt].task, attempt)})))
  {
    var task := s.preparing[attempt].task;
    var t := s.(preparing := s.preparing - {attempt}, past := s.past.(stranded := s.past.stranded + {(task, attempt)}));
    assert LocalOk(s, task);
    assert OnlyTask(s, t, task);
    assert LocalOk(t, task);
    OneTaskStep(s, t, task);
  }

  lemma QueueRetryKeeps(s: Login, t: Login, attempt: AttemptId, limit: nat)
    requires QueueInv(s) && OwnAttempts(s.db.tasks) && attempt in s.preparing && t == s.(preparing := s.preparing - {attempt})
    requires CanMarkRunning(s.db, s.preparing[attempt].enterprise, s.preparing[attempt].task, attempt)
    ensures QueueInv(QueueRetry(t, attempt, s.preparing[attempt], limit))
  {
    PreparationNotQueued(s, attempt);
    if IsBusy(t, s.preparing[attempt].task) { StrandedKeeps(s, attempt); } else { QueueIdleRetry(s, t, attempt, limit); }
  }

  lemma QueueIdleRetry(s: Login, t: Login, attempt: AttemptId, limit: nat)
    requires QueueInv(s) && OwnAttempts(s.db.tasks) && attempt in s.preparing && t == s.(preparing := s.preparing - {attempt})
    requires CanMarkRunning(s.db, s.preparing[attempt].enterprise, s.preparing[attempt].task, attempt)
    requires !IsBusy(t, s.preparing[attempt].task)
    ensures QueueInv(QueueRetry(t, attempt, s.preparing[attempt], limit))
  {
    var p := s.preparing[attempt];
    var staged := t.(db := SetStage(t.db, p.enterprise, p.task, attempt, Queued));
    var payload := Payload(p.enterprise, p.task, attempt, p.identity);
    assert LocalOk(s, p.task);
    StagedFrame(s, t, staged, attempt);
    forall u | u != p.task ensures LocalOk(staged, u) { assert LocalOk(s, u); OthersKept(s, staged, p.task, u); }
    InQueueAppend(s.pending, payload, p.task);
    PushKeeps(staged, payload);
    DrainKeeps(Push(staged, payload), limit);
  }

  lemma StagedFrame(s: Login, t: Login, staged: Login, attempt: AttemptId)
    requires QueueInv(s) && attempt in s.preparing && t == s.(preparing := s.preparing - {attempt})
    requires CanMarkRunning(s.db, s.preparing[attempt].enterprise, s.preparing[attempt].task, attempt)
    requires !IsBusy(t, s.preparing[attempt].task)
    requires staged == t.(db := SetStage(t.db, s.preparing[attempt].enterprise, s.preparing[attempt].task, attempt, Queued))
    ensures OnlyTask(s, staged, s.preparing[attempt].task)
    ensures QueueOk(staged.db.tasks, staged.runs, staged.pending) && IdsOk(staged) && OrderOk(staged)
  {
    StagedTouchesOneTask(s, staged, attempt);
    StagedKeepsQueue(s, staged, attempt);
  }

  lemma StagedTouchesOneTask(s: Login, staged: Login, attempt: AttemptId)
    requires attempt in s.preparing
    requires staged == s.(preparing := s.preparing - {attempt},
                          db := SetStage(s.db, s.preparing[attempt].enterprise, s.preparing[attempt].task, attempt, Queued))
    ensures OnlyTask(s, staged, s.preparing[attempt].task) && (IdsOk(s) && OrderOk(s) ==> IdsOk(staged) && OrderOk(staged))
  {
  }

  lemma StagedKeepsQueue(s: Login, staged: Login, attempt: AttemptId)
    requires attempt in s.preparing && QueueOk(s.db.tasks, s.runs, s.pending) && !InQueue(s.pending, s.preparing[attempt].task)
    requires staged == s.(preparing := s.preparing - {attempt},
                          db := SetStage(s.db, s.preparing[attempt].enterprise, s.preparing[attempt].task, attempt, Queued))
    ensures QueueOk(staged.db.tasks, staged.runs, staged.pending)
  {
    forall u | InQueue(s.pending, u)
      ensures u in staged.db.tasks && (u in s.db.tasks ==> staged.db.tasks[u] == s.db.tasks[u]) && (u in staged.runs ==> u in s.runs)
    {
      QueuedIsPending(s.db.tasks, s.runs, s.pending, u);
    }
    QueueFrame(s.db.tasks, s.runs, staged.db.tasks, staged.runs, s.pending);
  }

  /** A preparation that came back for nothing: only the call disappears. */
  lemma PreparationDropped(s: Login, t: Login, attempt: AttemptId)
    requires QueueInv(s) && attempt in s.preparing
    requires t == s.(preparing := s.preparing - {attempt}, sent := t.sent)
    requires !CanMarkRunning(s.db, s.preparing[attempt].enterprise, s.preparing[attempt].task, attempt)
    ensures QueueInv(t)
  {
    var task := s.preparing[attempt].task;
    assert LocalOk(s, task);
    PreparationDroppedLocal(s, t, attempt);
    OneTaskStep(s, t, task);
  }

  lemma PreparationDroppedLocal(s: Login, t: Login, attempt: AttemptId)
    requires attempt in s.preparing && LocalOk(s, s.preparing[attempt].task)
    requires t == s.(preparing := s.preparing - {attempt}, sent := t.sent)
    requires !CanMarkRunning(s.db, s.preparing[attempt].enterprise, s.preparing[attempt].task, attempt)
    ensures OnlyTask(s, t, s.preparing[attempt].task) && LocalOk(t, s.preparing[attempt].task)
  {
  }

  lemma PreparationNotQueued(s: Login, attempt: AttemptId)
    requires QueueInv(s) && attempt in s.preparing
    requires CanMarkRunning(s.db, s.preparing[attempt].enterprise, s.preparing[attempt].task, attempt)
    ensures !InQueue(s.pending, s.preparing[attempt].task)
  {
    var task := s.preparing[attempt].task;
    assert LocalOk(s, task);
    if InQueue(s.pending, task) { QueuedIsPending(s.db.tasks, s.runs, s.pending, task); assert false; }
  }

  lemma PreparationFailedLocal(s: Login, t: Login, attempt: AttemptId)
    requires attempt in s.preparing && LocalOk(s, s.preparing[attempt].task)
    requires var p := s.preparing[attempt];
      && t == s.(preparing := s.preparing - {attempt}, sent := t.sent, db := FinishAttempt(s.db, p.enterprise, p.task, attempt, Failed))
      && CanMarkRunning(s.db, p.enterprise, p.task, attempt)
    ensures LocalOk(t, s.preparing[attempt].task)
    ensures OnlyTask(s, t, s.preparing[attempt].task)
  {
  }

  lemma PreparationFailedIds(s: Login, t: Login, attempt: AttemptId)
    requires attempt in s.preparing && IdsOk(s)
    requires var p := s.preparing[attempt];
      && t == s.(preparing := s.preparing - {attempt}, sent := t.sent, db := FinishAttempt(s.db, p.enterprise, p.task, attempt, Failed))
    ensures IdsOk(t)
  {
  }

  /** A preparation that failed closes the attempt it reserved. */
  lemma PreparationFailed(s: Login, t: Login, attempt: AttemptId)
    requires QueueInv(s) && attempt in s.preparing
    requires var p := s.preparing[attempt];
      && t == s.(preparing := s.preparing - {attempt}, sent := t.sent, db := FinishAttempt(s.db, p.enterprise, p.task, attempt, Failed))
      && CanMarkRunning(s.db, p.enterprise, p.task, attempt)
    ensures QueueInv(t)
  {
    var task := s.preparing[attempt].task;
    assert LocalOk(s, task);
    PreparationNotQueued(s, attempt);
    PreparationFailedLocal(s, t, attempt);
    PreparationFailedIds(s, t, attempt);
    QuietStep(s, t, task);
  }

  lemma PrepareReturnedKeeps(s: Login, attempt: AttemptId, ok: bool, limit: nat)
    requires QueueInv(s) && OwnAttempts(s.db.tasks) && attempt in s.preparing
    ensures QueueInv(PrepareReturned(s, attempt, ok, limit))
  {
    var p := s.preparing[attempt];
    var t := s.(preparing := s.preparing - {attempt});
    var released := t.(sent := t.sent + {FailRequest(p.enterprise, p.identity, attempt)});
    assert LocalOk(s, p.task);
    if CanMarkRunning(s.db, p.enterprise, p.task, attempt) {
      if ok { QueueRetryKeeps(s, t, attempt, limit); }
      else { PreparationFailed(s, PrepareReturned(s, attempt, ok, limit), attempt); }
    } else {
      PreparationDropped(s, t, attempt);
      PreparationDropped(s, released, attempt);
      CancelKeeps(t, p.enterprise, p.task);
    }
  }

  // ---------------------------------------------------------------- deletion and restart

  /** A change of a finished task's row, or its removal. */
  lemma FinishedTaskStep(s: Login, s': Login, id: TaskId)
    requires QueueInv(s) && id in s.db.tasks && !Active(s.db.tasks[id].status)
    requires s' == s.(db := s'.db) && s'.db.attempts.Keys <= s.db.attempts.Keys
    requires if id in s'.db.tasks
             then s'.db.tasks == s.db.tasks[id := s'.db.tasks[id]] && SameOwner(s.db.tasks[id], s'.db.tasks[id])
                  && s'.db.tasks[id].status == s.db.tasks[id].status && s'.db.tasks[id].enterprise == s.db.tasks[id].enterprise
             else s'.db.tasks == s.db.tasks - {id}
    ensures QueueInv(s')
  {
    assert LocalOk(s, id);
    if InQueue(s.pending, id) { QueuedIsPending(s.db.tasks, s.runs, s.pending, id); assert false; }
    FinishedTaskLocal(s, s', id);
    QuietStep(s, s', id);
  }

  lemma FinishedTaskLocal(s: Login, s': Login, id: TaskId)
    requires LocalOk(s, id) && id in s.db.tasks && !Active(s.db.tasks[id].status) && s' == s.(db := s'.db)
    requires if id in s'.db.tasks
             then s'.db.tasks == s.db.tasks[id := s'.db.tasks[id]] && SameOwner(s.db.tasks[id], s'.db.tasks[id])
                  && s'.db.tasks[id].status == s.db.tasks[id].status && s'.db.tasks[id].enterprise == s.db.tasks[id].enterprise
             else s'.db.tasks == s.db.tasks - {id}
    ensures OnlyTask(s, s', id) && LocalOk(s', id)
  {
  }

  lemma DeletionKeeps(s: Login, enterprise: EnterpriseId, id: TaskId)
    requires QueueInv(s)
    ensures QueueInv(s.(db := ClaimTaskDeletion(s.db, enterprise, id)))
    ensures QueueInv(s.(db := DeleteTask(s.db, enterprise, id)))
  {
    if CanDelete(s.db, enterprise, id) {
      FinishedTaskStep(s, s.(db := DeleteTask(s.db, enterprise, id)), id);
      if s.db.tasks[id].stage != Deleting { FinishedTaskStep(s, s.(db := ClaimTaskDeletion(s.db, enterprise, id)), id); }
    }
    assert !CanDelete(s.db, enterprise, id) ==> s.(db := s.db) == s;
  }

  lemma ReleaseKeeps(s: Login, enterprise: EnterpriseId, id: TaskId)
    requires QueueInv(s)
    ensures QueueInv(s.(db := ReleaseTaskDeletion(s.db, enterprise, id)))
  {
    var db' := ReleaseTaskDeletion(s.db, enterprise, id);
    if CanDelete(s.db, enterprise, id) {
      FinishedTaskStep(s, s.(db := db'), id);
    } else if Has(s.db, enterprise, id) {
      assert db'.tasks == s.db.tasks;
    }
  }

  lemma RestartedKeeps(s: Login)
    requires QueueInv(s)
    ensures QueueInv(Restarted(s))
  {
    var s' := Restarted(s);
    forall t ensures LocalOk(s', t) {
      assert LocalOk(s, t);
      if t in s.db.tasks { assert s'.db.tasks[t] == ClosedTask(s.db.tasks[t]); }
    }
    assert s.past.started + Attempts(s.pending) == s.past.started + Attempts(s.pending);
    DropPending(s.past.started, Attempts(s.pending), s.past.enqueued);
    assert s.past.started + Attempts(s'.pending) == s.past.started;
    assert forall t | t in s'.db.tasks :: s'.db.tasks[t].attempt == s.db.tasks[t].attempt;
  }

  lemma {:induction false} DropPending(front: seq<AttemptId>, back: seq<AttemptId>, b: seq<AttemptId>)
    requires Subsequence(front + back, b)
    ensures Subsequence(front, b)
    decreases |back|
  {
    if back == [] {
      assert front + back == front;
    } else {
      assert front + back == front + [back[0]] + back[1..];
      DropFromSubsequence(front, back[0], back[1..], b);
      DropPending(front, back[1..], b);
    }
  }
}
