/** What holds over every run of the Login process, whatever interleaves, fails, is cancelled, deleted or restarted. */
module LoginTheorems {
  import opened Common
  import opened LoginStore
  import opened LoginService
  import opened LoginInvariants
  import opened LoginProofs

  // ---------------------------------------------------------------- the tables under each step

  lemma {:induction false} DrainKeepsStore(s: Login, limit: nat)
    requires StoreInv(s.db)
    ensures StoreInv(Drain(s, limit).db)
    decreases |s.pending|
  {
    if s.accepting && |s.runs| < limit && s.pending != [] {
      var p := s.pending[0];
      var rest := s.(pending := s.pending[1..]);
      if IsRunnable(rest, p) {
        MarkRunningKeepsInv(s.db, p.enterprise, p.task, p.attempt);
        DrainKeepsStore(Start(rest, p), limit);
      } else {
        DrainKeepsStore(rest, limit);
      }
    }
  }

  lemma PushKeepsStore(s: Login, p: Payload, limit: nat)
    requires StoreInv(s.db)
    ensures StoreInv(Drain(Push(s, p), limit).db)
  {
    DrainKeepsStore(Push(s, p), limit);
  }

  lemma SubmitKeepsStore(s: Login, enterprise: EnterpriseId, mapping: Mapping, attempt: AttemptId, id: TaskId, limit: nat)
    requires StoreInv(InsertTask(s.db, enterprise, mapping, attempt, id))
    ensures StoreInv(Submit(s, enterprise, mapping, attempt, id, limit).db)
  {
    PushKeepsStore(Register(s, enterprise, mapping, attempt, id), Payload(enterprise, id, attempt, mapping.identity), limit);
  }

  lemma EnqueueKeepsStore(s: Login, enterprise: EnterpriseId, mapping: Mapping, attempt: AttemptId, id: TaskId, limit: nat)
    requires StoreInv(s.db) && id !in s.db.tasks
    ensures StoreInv(Enqueue(s, enterprise, mapping, attempt, id, limit).db)
  {
    match CreateVerdict(s.db, enterprise, mapping, attempt, id)
    case Created(_) =>
      CreateKeepsInv(s.db, enterprise, mapping, attempt, id);
      SubmitKeepsStore(s, enterprise, mapping, attempt, id, limit);
    case Existing(task) => PushKeepsStore(s, Payload(enterprise, task, attempt, mapping.identity), limit);
    case _ =>
  }

  lemma QueueRetryKeepsStore(s: Login, attempt: AttemptId, p: Preparation, limit: nat)
    requires StoreInv(s.db)
    ensures StoreInv(QueueRetry(s, attempt, p, limit).db)
  {
    SetStageKeepsInv(s.db, p.enterprise, p.task, attempt, Queued);
    var staged := s.(db := SetStage(s.db, p.enterprise, p.task, attempt, Queued));
    DrainKeepsStore(Push(staged, Payload(p.enterprise, p.task, attempt, p.identity)), limit);
  }

  lemma PreparedKeepsStore(s: Login, attempt: AttemptId, limit: nat)
    requires StoreInv(s.db) && attempt in s.preparing
    requires !(Has(s.db, s.preparing[attempt].enterprise, s.preparing[attempt].task)
               && s.db.tasks[s.preparing[attempt].task].status == Cancelling)
    ensures StoreInv(PrepareReturned(s, attempt, true, limit).db)
  {
    QueueRetryKeepsStore(s.(preparing := s.preparing - {attempt}), attempt, s.preparing[attempt], limit);
  }

  lemma NotPreparedKeepsStore(s: Login, attempt: AttemptId, limit: nat)
    requires StoreInv(s.db) && attempt in s.preparing
    requires !(Has(s.db, s.preparing[attempt].enterprise, s.preparing[attempt].task)
               && s.db.tasks[s.preparing[attempt].task].status == Cancelling)
    ensures StoreInv(PrepareReturned(s, attempt, false, limit).db)
  {
    FinishKeepsInv(s.db, s.preparing[attempt].enterprise, s.preparing[attempt].task, attempt, Failed);
  }

  lemma PrepareReturnedKeepsStore(s: Login, attempt: AttemptId, ok: bool, limit: nat)
    requires StoreInv(s.db) && attempt in s.preparing
    ensures StoreInv(PrepareReturned(s, attempt, ok, limit).db)
  {
    var p := s.preparing[attempt];
    if Has(s.db, p.enterprise, p.task) && s.db.tasks[p.task].status == Cancelling {
      CancellationKeepsInv(s.db, p.enterprise, p.task);
    } else if ok {
      PreparedKeepsStore(s, attempt, limit);
    } else {
      NotPreparedKeepsStore(s, attempt, limit);
    }
  }

  lemma ReserveRetryKeepsStore(s: Login, q: Inquiry, attempt: AttemptId)
    requires StoreInv(s.db) && IdsOk(s) && q in s.inquiries && attempt !in s.past.attemptIds
    ensures StoreInv(ReserveRetry(s, q, attempt).db)
  {
    var identity := q.snapshot.mapping.identity;
    if CanReserve(s.db, q.enterprise, q.task, identity, q.snapshot.attempt) {
      ReserveKeepsInv(s.db, q.enterprise, q.task, identity, q.snapshot.attempt, attempt);
    }
  }

  lemma RunStepKeepsStore(s: Login, id: TaskId, stage: Stage)
    requires StoreInv(s.db) && id in s.runs
    ensures StoreInv(StageReported(s, id, stage).db)
    ensures StoreInv(RunThrew(s, id).db) && StoreInv(TokenSaved(s, id).db) && StoreInv(RunCaught(s, id).db)
  {
    var run := s.runs[id];
    SetStageKeepsInv(s.db, run.enterprise, id, run.attempt, stage);
    FinishKeepsInv(s.db, run.enterprise, id, run.attempt, Failed);
    FinishKeepsInv(s.db, run.enterprise, id, run.attempt, Success);
  }

  lemma StepKeepsStoreOfRun(s: Login, step: Step)
    requires StoreInv(s.db) && IdsOk(s) && Enabled(s, step)
    requires IsRunStep(step)
    ensures StoreInv(Apply(s, step).db)
  {
    match step
    case DoStage(id, stage) => RunStepKeepsStore(s, id, stage);
    case DoTokenObtained(id, _) => RunStepKeepsStore(s, id, Reported("saving-token"));
    case DoLoginThrew(id) => RunStepKeepsStore(s, id, Queued);
    case DoTokenSaved(id) => RunStepKeepsStore(s, id, Queued);
    case DoSaveThrew(id) => RunStepKeepsStore(s, id, Queued);
    case DoCaught(id) => RunStepKeepsStore(s, id, Queued);
    case _ =>
  }

  lemma StepKeepsStoreOfQueue(s: Login, step: Step)
    requires StoreInv(s.db) && IdsOk(s) && Enabled(s, step)
    requires IsQueueStep(step)
    ensures StoreInv(Apply(s, step).db)
  {
    match step
    case DoEnqueue(enterprise, mapping, attempt, id, limit) => EnqueueKeepsStore(s, enterprise, mapping, attempt, id, limit);
    case DoSettled(id, limit) => DrainKeepsStore(s.(runs := s.runs - {id}), limit);
    case DoSettingsUpdated(limit) => DrainKeepsStore(s, limit);
    case DoReserve(q, attempt) => ReserveRetryKeepsStore(s, q, attempt);
    case DoPrepareReturned(attempt, ok, limit) => PrepareReturnedKeepsStore(s, attempt, ok, limit);
  }

  lemma StepKeepsStoreOfTables(s: Login, step: Step)
    requires StoreInv(s.db) && Enabled(s, step)
    requires !IsRunStep(step) && !IsQueueStep(step)
    ensures StoreInv(Apply(s, step).db)
  {
    match step
    case DoCancel(enterprise, id) => CancellationKeepsInv(s.db, enterprise, id);
    case DoFinishCancellation(id) => FinishKeepsInv(s.db, s.cancellers[id].enterprise, id, s.cancellers[id].attempt, Cancelled);
    case DoClaimDeletion(enterprise, id) => ClaimKeepsInv(s.db, enterprise, id);
    case DoDelete(enterprise, id) => DeleteKeepsInv(s.db, enterprise, id);
    case DoReleaseDeletion(enterprise, id) => ClaimKeepsInv(s.db, enterprise, id);
    case DoRestart => CloseKeepsInv(s.db);
    case _ =>
  }

  lemma StepKeepsStore(s: Login, step: Step)
    requires StoreInv(s.db) && IdsOk(s) && Enabled(s, step)
    ensures StoreInv(Apply(s, step).db)
  {
    if IsRunStep(step) { StepKeepsStoreOfRun(s, step); }
    else if IsQueueStep(step) { StepKeepsStoreOfQueue(s, step); }
    else { StepKeepsStoreOfTables(s, step); }
  }

  // ---------------------------------------------------------------- the whole invariant

  lemma StopKeeps(s: Login)
    requires QueueInv(s)
    ensures QueueInv(s.(accepting := false))
  {
    forall t ensures LocalOk(s.(accepting := false), t) { assert LocalOk(s, t); }
  }

  lemma InquiryKeeps(s: Login, q: Inquiry)
    requires QueueInv(s) && Has(s.db, q.enterprise, q.task) && q.snapshot == s.db.tasks[q.task]
    ensures QueueInv(s.(inquiries := s.inquiries + {q}))
  {
    forall t ensures LocalOk(s.(inquiries := s.inquiries + {q}), t) { assert LocalOk(s, t); }
  }

  lemma StepKeepsQueueOfRun(s: Login, step: Step)
    requires LoginInv(s) && Enabled(s, step)
    requires IsRunStep(step)
    ensures QueueInv(Apply(s, step))
  {
    match step
    case DoStage(id, stage) => StageReportedKeeps(s, id, stage);
    case DoTokenObtained(id, token) => TokenObtainedKeeps(s, id, token);
    case DoLoginThrew(id) => RunThrewKeeps(s, id);
    case DoTokenSaved(id) => TokenSavedKeeps(s, id);
    case DoSaveThrew(id) => RunThrewKeeps(s, id);
    case DoCaught(id) => RunCaughtKeeps(s, id);
    case DoReported(id) => ReportedKeeps(s, id);
    case _ =>
  }

  lemma LinkedOwnAttempts(db: Db)
    requires Linked(db)
    ensures OwnAttempts(db.tasks)
  {
  }

  lemma StepKeepsQueueOfQueue(s: Login, step: Step)
    requires LoginInv(s) && Enabled(s, step)
    requires IsQueueStep(step)
    ensures QueueInv(Apply(s, step))
  {
    match step
    case DoEnqueue(enterprise, mapping, attempt, id, limit) => EnqueueKeeps(s, enterprise, mapping, attempt, id, limit);
    case DoSettled(id, limit) => SlotFreedKeeps(s, id, limit);
    case DoSettingsUpdated(limit) => DrainKeeps(s, limit);
    case DoReserve(q, attempt) => ReserveRetryKeeps(s, q, attempt);
    case DoPrepareReturned(attempt, ok, limit) =>
      LinkedOwnAttempts(s.db);
      PrepareReturnedKeeps(s, attempt, ok, limit);
  }

  lemma StepKeepsQueueOfTables(s: Login, step: Step)
    requires LoginInv(s) && Enabled(s, step)
    requires !IsRunStep(step) && !IsQueueStep(step)
    ensures QueueInv(Apply(s, step))
  {
    match step
    case DoCancel(enterprise, id) => CancelKeeps(s, enterprise, id);
    case DoFinishCancellation(id) => FinishCancellationKeeps(s, id);
    case DoCloseCancellation(id) => CloseCancellationKeeps(s, id);
    case DoStopAccepting => StopKeeps(s);
    case DoRetry(enterprise, id) => InquiryKeeps(s, Inquiry(enterprise, id, s.db.tasks[id]));
    case DoClaimDeletion(enterprise, id) => DeletionKeeps(s, enterprise, id);
    case DoDelete(enterprise, id) => DeletionKeeps(s, enterprise, id);
    case DoReleaseDeletion(enterprise, id) => ReleaseKeeps(s, enterprise, id);
    case DoRestart => RestartedKeeps(s);
    case _ =>
  }

  lemma StepKeepsQueue(s: Login, step: Step)
    requires LoginInv(s) && Enabled(s, step)
    ensures QueueInv(Apply(s, step))
  {
    if IsRunStep(step) { StepKeepsQueueOfRun(s, step); }
    else if IsQueueStep(step) { StepKeepsQueueOfQueue(s, step); }
    else { StepKeepsQueueOfTables(s, step); }
  }

  lemma StepKeepsInv(s: Login, step: Step)
    requires LoginInv(s) && Enabled(s, step)
    ensures LoginInv(Apply(s, step))
  {
    StepKeepsStore(s, step);
    StepKeepsQueue(s, step);
  }

  lemma InitHoldsInv(s: Login)
    requires Init(s)
    ensures LoginInv(s)
  {
    forall t ensures LocalOk(s, t) {}
  }

  lemma {:induction false} RunKeepsInv(trace: seq<Login>, steps: seq<Step>)
    requires IsRun(trace, steps)
    ensures LoginInv(trace[|steps|])
    decreases |steps|
  {
    if |steps| == 0 {
      InitHoldsInv(trace[0]);
    } else {
      var last := |steps| - 1;
      RunKeepsInv(trace[..|steps|], steps[..last]);
      assert IsStep(trace[last], steps[last], trace[last + 1]);
      StepKeepsInv(trace[last], steps[last]);
    }
  }

  // ---------------------------------------------------------------- theorems

  /** At most one task per identity is pending, running or cancelling, across all enterprises. */
  lemma OneActiveTaskPerIdentity(trace: seq<Login>, steps: seq<Step>, t: TaskId, u: TaskId)
    requires IsRun(trace, steps)
    requires var tasks := trace[|steps|].db.tasks;
      && t in tasks && u in tasks && Active(tasks[t].status) && Active(tasks[u].status)
      && tasks[t].mapping.identity == tasks[u].mapping.identity
    ensures t == u
  {
    RunKeepsInv(trace, steps);
  }

  /**
   * The attempt history of a task: it shows the status of its current attempt, every other attempt is failed, the numbers
   * are exactly 1..n with the current attempt at n, and the counter is the number of attempts that started.
   */
  lemma HistoryIsConsistent(trace: seq<Login>, steps: seq<Step>, t: TaskId, a: AttemptId, k: nat)
    requires IsRun(trace, steps) && t in trace[|steps|].db.tasks
    ensures var db := trace[|steps|].db; var n := CurrentNumber(db, t);
      && db.tasks[t].attempt in db.attempts
      && db.attempts[db.tasks[t].attempt].task == t
      && db.attempts[db.tasks[t].attempt].status == db.tasks[t].status
      && (a in db.attempts && db.attempts[a].task == t && a != db.tasks[t].attempt ==>
            db.attempts[a].status == Failed && 1 <= db.attempts[a].number < n)
      && (1 <= k <= n <==> HasNumber(db, t, k))
      && db.tasks[t].attempts == |StartedAttempts(db, t)|
  {
    RunKeepsInv(trace, steps);
    var db := trace[|steps|].db;
    if a in db.attempts && db.attempts[a].task == t && a != db.tasks[t].attempt {
      assert IsSuperseded(db, a);
      assert db.attempts[a].number != db.attempts[db.tasks[t].attempt].number;
    }
  }

  /**
   * Every unfinished task is owned by something that will move it on, with one exception, stated exactly: a pending task is
   * neither queued nor being prepared if and only if the queue dropped its prepared retry.
   */
  lemma UnfinishedTasksAreOwned(trace: seq<Login>, steps: seq<Step>, t: TaskId)
    requires IsRun(trace, steps) && t in trace[|steps|].db.tasks && Active(trace[|steps|].db.tasks[t].status)
    ensures var s := trace[|steps|]; var task := s.db.tasks[t];
      match task.status
      case Running => t in s.runs && Live(s.runs[t]) && s.runs[t].attempt == task.attempt
      case Cancelling => t in s.cancellers && !s.cancellers[t].reported && s.cancellers[t].attempt == task.attempt
      case _ => IsStranded(s, t) <==> exists i | 0 <= i < |steps| :: Strands(trace[i], steps[i], t, task.attempt)
  {
    RunKeepsInv(trace, steps);
    var s := trace[|steps|];
    assert LocalOk(s, t);
    if s.db.tasks[t].status == Pending {
      StrandedIff(s, t);
      StrandedWasDropped(trace, steps, t, s.db.tasks[t].attempt);
    }
  }

  /** The task waits, but nothing will ever start it. */
  predicate IsStranded(s: Login, t: TaskId) {
    t in s.db.tasks && s.db.tasks[t].status == Pending && !InQueue(s.pending, t) && !IsPreparing(s, t, s.db.tasks[t].attempt)
  }

  /** Proxy's answer to a retry arrives while an earlier run of the task still holds its slot. */
  predicate Strands(s: Login, step: Step, t: TaskId, attempt: AttemptId) {
    && step.DoPrepareReturned? && step.ok && step.attempt == attempt && IsPreparing(s, t, attempt)
    && CanMarkRunning(s.db, s.preparing[attempt].enterprise, t, attempt) && IsBusy(s, t)
  }

  lemma StrandedIff(s: Login, t: TaskId)
    requires QueueInv(s) && t in s.db.tasks && s.db.tasks[t].status == Pending
    ensures IsStranded(s, t) <==> (t, s.db.tasks[t].attempt) in s.past.stranded
  {
    assert LocalOk(s, t);
    if InQueue(s.pending, t) { QueuedIsPending(s.db.tasks, s.runs, s.pending, t); }
  }

  lemma {:induction false} DrainStrandsNone(s: Login, limit: nat)
    ensures SameIds(s, Drain(s, limit))
    decreases |s.pending|
  {
    if s.accepting && |s.runs| < limit && s.pending != [] {
      var p := s.pending[0];
      var rest := s.(pending := s.pending[1..]);
      DrainStrandsNone(if IsRunnable(rest, p) then Start(rest, p) else rest, limit);
    }
  }

  lemma PrepareReturnedStrands(s: Login, attempt: AttemptId, ok: bool, limit: nat)
    requires attempt in s.preparing
    ensures var t := PrepareReturned(s, attempt, ok, limit); var p := s.preparing[attempt];
      t.past.stranded == s.past.stranded
        + if Strands(s, DoPrepareReturned(attempt, ok, limit), p.task, attempt) then {(p.task, attempt)} else {}
  {
    var p := s.preparing[attempt];
    var staged := s.(preparing := s.preparing - {attempt}, db := SetStage(s.db, p.enterprise, p.task, attempt, Queued));
    DrainStrandsNone(Push(staged, Payload(p.enterprise, p.task, attempt, p.identity)), limit);
  }

  lemma EnqueueStrandsNone(s: Login, enterprise: EnterpriseId, mapping: Mapping, a: AttemptId, id: TaskId, limit: nat)
    ensures Enqueue(s, enterprise, mapping, a, id, limit).past.stranded == s.past.stranded
  {
    match CreateVerdict(s.db, enterprise, mapping, a, id)
    case Created(_) =>
      DrainStrandsNone(Push(Register(s, enterprise, mapping, a, id), Payload(enterprise, id, a, mapping.identity)), limit);
    case Existing(task) => DrainStrandsNone(Push(s, Payload(enterprise, task, a, mapping.identity)), limit);
    case _ =>
  }

  predicate SameIds(s: Login, t: Login) {
    t.past.taskIds == s.past.taskIds && t.past.stranded == s.past.stranded && t.past.enqueued == s.past.enqueued
  }

  lemma RunStepsKeepIds(s: Login, step: Step)
    requires Enabled(s, step) && IsRunStep(step)
    ensures SameIds(s, Apply(s, step))
  {
  }

  lemma TableStepsKeepIds(s: Login, step: Step)
    requires Enabled(s, step) && !IsRunStep(step) && !IsQueueStep(step)
    ensures SameIds(s, Apply(s, step))
  {
  }

  /** Outside submissions and retries nothing is named, queued or dropped. */
  lemma OtherStepsKeepIds(s: Login, step: Step)
    requires Enabled(s, step) && !step.DoEnqueue? && !step.DoPrepareReturned?
    ensures SameIds(s, Apply(s, step))
  {
    if IsRunStep(step) { RunStepsKeepIds(s, step); }
    else if !IsQueueStep(step) { TableStepsKeepIds(s, step); }
    else if step.DoSettled? { DrainStrandsNone(s.(runs := s.runs - {step.id}), step.limit); }
    else if step.DoSettingsUpdated? { DrainStrandsNone(s, step.limit); }
  }

  lemma StepStrands(s: Login, step: Step, t: TaskId, attempt: AttemptId)
    requires Enabled(s, step)
    ensures (t, attempt) in Apply(s, step).past.stranded <==> (t, attempt) in s.past.stranded || Strands(s, step, t, attempt)
  {
    if step.DoEnqueue? { EnqueueStrandsNone(s, step.enterprise, step.mapping, step.attempt, step.id, step.limit); }
    else if step.DoPrepareReturned? { PrepareReturnedStrands(s, step.attempt, step.ok, step.limit); }
    else { OtherStepsKeepIds(s, step); }
  }

  lemma {:induction false} StrandedWasDropped(trace: seq<Login>, steps: seq<Step>, t: TaskId, attempt: AttemptId)
    requires IsRun(trace, steps)
    ensures (t, attempt) in trace[|steps|].past.stranded <==> exists i | 0 <= i < |steps| :: Strands(trace[i], steps[i], t, attempt)
    decreases |steps|
  {
    if |steps| > 0 {
      var last := |steps| - 1;
      assert IsStep(trace[last], steps[last], trace[last + 1]);
      StrandedWasDropped(trace[..|steps|], steps[..last], t, attempt);
      StepStrands(trace[last], steps[last], t, attempt);
      StrandsBefore(trace, steps, t, attempt);
    }
  }

  lemma StrandsBefore(trace: seq<Login>, steps: seq<Step>, t: TaskId, attempt: AttemptId)
    requires |trace| == |steps| + 1 && |steps| > 0
    ensures (exists i | 0 <= i < |steps| :: Strands(trace[i], steps[i], t, attempt)) <==>
      ((exists i | 0 <= i < |steps| - 1 :: Strands(trace[..|steps|][i], steps[..|steps| - 1][i], t, attempt))
       || Strands(trace[|steps| - 1], steps[|steps| - 1], t, attempt))
  {
    if i :| 0 <= i < |steps| && Strands(trace[i], steps[i], t, attempt) {
      if i < |steps| - 1 { assert Strands(trace[..|steps|][i], steps[..|steps| - 1][i], t, attempt); }
    }
    if i :| 0 <= i < |steps| - 1 && Strands(trace[..|steps|][i], steps[..|steps| - 1][i], t, attempt) {
      assert Strands(trace[i], steps[i], t, attempt);
    }
  }

  /**
   * Proxy prepared a retry that is still wanted. The task is then queued or started, unless an earlier run of it still
   * holds its slot: exactly in that case it is stranded.
   */
  lemma RetryIsStrandedIff(trace: seq<Login>, steps: seq<Step>, attempt: AttemptId, limit: nat)
    requires IsRun(trace, steps) && attempt in trace[|steps|].preparing
    requires var s := trace[|steps|]; CanMarkRunning(s.db, s.preparing[attempt].enterprise, s.preparing[attempt].task, attempt)
    ensures var s := trace[|steps|]; var t := s.preparing[attempt].task;
      IsStranded(PrepareReturned(s, attempt, true, limit), t) <==> IsBusy(s, t)
  {
    var s := trace[|steps|];
    var t := s.preparing[attempt].task;
    RunKeepsInv(trace, steps);
    StepKeepsInv(s, DoPrepareReturned(attempt, true, limit));
    assert LocalOk(s, t);
    PrepareReturnedStrands(s, attempt, true, limit);
    var after := PrepareReturned(s, attempt, true, limit);
    if t in after.db.tasks && after.db.tasks[t].status == Pending { StrandedIff(after, t); }
    PrepareReturnedKeepsAttempt(s, attempt, limit);
  }

  lemma PrepareReturnedKeepsAttempt(s: Login, attempt: AttemptId, limit: nat)
    requires attempt in s.preparing && CanMarkRunning(s.db, s.preparing[attempt].enterprise, s.preparing[attempt].task, attempt)
    ensures var t := s.preparing[attempt].task; var after := PrepareReturned(s, attempt, true, limit);
      t in after.db.tasks && after.db.tasks[t].attempt == attempt && (IsBusy(s, t) ==> after.db.tasks[t].status == Pending)
  {
    var p := s.preparing[attempt];
    var staged := s.(preparing := s.preparing - {attempt}, db := SetStage(s.db, p.enterprise, p.task, attempt, Queued));
    DrainKeepsAttempts(Push(staged, Payload(p.enterprise, p.task, attempt, p.identity)), limit, p.task);
  }

  lemma {:induction false} DrainKeepsAttempts(s: Login, limit: nat, t: TaskId)
    requires t in s.db.tasks
    ensures t in Drain(s, limit).db.tasks && Drain(s, limit).db.tasks[t].attempt == s.db.tasks[t].attempt
    decreases |s.pending|
  {
    if s.accepting && |s.runs| < limit && s.pending != [] {
      var p := s.pending[0];
      var rest := s.(pending := s.pending[1..]);
      DrainKeepsAttempts(if IsRunnable(rest, p) then Start(rest, p) else rest, limit, t);
    }
  }

  /** Login records `success` only for an attempt whose token write Proxy confirmed. */
  lemma SuccessWasConfirmed(trace: seq<Login>, steps: seq<Step>, t: TaskId)
    requires IsRun(trace, steps) && t in trace[|steps|].db.tasks && trace[|steps|].db.tasks[t].status == Success
    ensures (trace[|steps|].db.tasks[t].mapping.identity, trace[|steps|].db.tasks[t].attempt) in trace[|steps|].past.confirmed
  {
    RunKeepsInv(trace, steps);
    assert LocalOk(trace[|steps|], t);
  }

  /** Attempts start in the order they were queued. */
  lemma StartsFollowQueueOrder(trace: seq<Login>, steps: seq<Step>)
    requires IsRun(trace, steps)
    ensures Subsequence(trace[|steps|].past.started, trace[|steps|].past.enqueued)
  {
    RunKeepsInv(trace, steps);
    var s := trace[|steps|];
    DropPending(s.past.started, Attempts(s.pending), s.past.enqueued);
  }

  /** The submission creates a new task for an attempt whose earlier task, queued at the time, was deleted. */
  ghost predicate Resubmits(s: Login, step: Step, a: AttemptId) {
    && step.DoEnqueue? && step.attempt == a && a in s.past.enqueued
    && a !in s.db.attempts && !HasActiveTask(s.db.tasks, step.mapping.identity)
  }

  /** The step puts the attempt into the queue: a submission that creates its task, or a retry of an idle task. */
  ghost predicate Queues(s: Login, step: Step, a: AttemptId) {
    || (step.DoEnqueue? && step.attempt == a && a !in s.db.attempts && !HasActiveTask(s.db.tasks, step.mapping.identity))
    || (step.DoPrepareReturned? && step.ok && step.attempt == a && a in s.preparing
        && CanMarkRunning(s.db, s.preparing[a].enterprise, s.preparing[a].task, a) && !IsBusy(s, s.preparing[a].task))
  }

  lemma SubmitQueues(s: Login, enterprise: EnterpriseId, mapping: Mapping, a: AttemptId, id: TaskId, limit: nat)
    requires QueueInv(s) && id !in s.past.taskIds
    ensures Submit(s, enterprise, mapping, a, id, limit).past.enqueued == s.past.enqueued + [a]
  {
    FreshIsIdle(s, id);
    DrainStrandsNone(Push(Register(s, enterprise, mapping, a, id), Payload(enterprise, id, a, mapping.identity)), limit);
  }

  lemma EnqueueQueues(s: Login, enterprise: EnterpriseId, mapping: Mapping, a: AttemptId, id: TaskId, limit: nat)
    requires LoginInv(s) && id !in s.past.taskIds
    ensures Enqueue(s, enterprise, mapping, a, id, limit).past.enqueued == s.past.enqueued
      + if a !in s.db.attempts && !HasActiveTask(s.db.tasks, mapping.identity) then [a] else []
  {
    match CreateVerdict(s.db, enterprise, mapping, a, id)
    case Created(_) => SubmitQueues(s, enterprise, mapping, a, id, limit);
    case Existing(task) =>
      if s.db.attempts[a].status == Pending && s.db.attempts[a].stage == Queued { ResubmissionIsBusy(s, a); }
    case _ =>
  }

  lemma PrepareReturnedQueues(s: Login, a: AttemptId, ok: bool, limit: nat)
    requires a in s.preparing
    ensures PrepareReturned(s, a, ok, limit).past.enqueued == s.past.enqueued
      + if Queues(s, DoPrepareReturned(a, ok, limit), a) then [a] else []
  {
    var p := s.preparing[a];
    var staged := s.(preparing := s.preparing - {a}, db := SetStage(s.db, p.enterprise, p.task, a, Queued));
    DrainStrandsNone(Push(staged, Payload(p.enterprise, p.task, a, p.identity)), limit);
  }

  lemma CountAppended(enqueued: seq<AttemptId>, x: AttemptId, a: AttemptId)
    ensures multiset(enqueued + [x])[a] == multiset(enqueued)[a] + if x == a then 1 else 0
  {
  }

  /** A retry that is being prepared was never queued, so only a submission can queue an attempt again. */
  lemma QueuedAgainIff(s: Login, step: Step, a: AttemptId)
    requires LoginInv(s) && Enabled(s, step)
    ensures Queues(s, step, a) && a in s.past.enqueued <==> Resubmits(s, step, a)
  {
    if step.DoPrepareReturned? { assert LocalOk(s, s.preparing[step.attempt].task); }
  }

  lemma EnqueueCounts(s: Login, step: Step, a: AttemptId)
    requires LoginInv(s) && Enabled(s, step) && step.DoEnqueue?
    ensures multiset(Apply(s, step).past.enqueued)[a] == multiset(s.past.enqueued)[a] + if Queues(s, step, a) then 1 else 0
  {
    EnqueueQueues(s, step.enterprise, step.mapping, step.attempt, step.id, step.limit);
    CountAppended(s.past.enqueued, step.attempt, a);
    assert s.past.enqueued + [] == s.past.enqueued;
  }

  lemma PrepareReturnedCounts(s: Login, step: Step, a: AttemptId)
    requires Enabled(s, step) && step.DoPrepareReturned?
    ensures multiset(Apply(s, step).past.enqueued)[a] == multiset(s.past.enqueued)[a] + if Queues(s, step, a) then 1 else 0
  {
    PrepareReturnedQueues(s, step.attempt, step.ok, step.limit);
    CountAppended(s.past.enqueued, step.attempt, a);
    assert s.past.enqueued + [] == s.past.enqueued;
  }

  /** At most one attempt is queued per step, and one that was queued before only by its resubmission. */
  lemma StepQueues(s: Login, step: Step, a: AttemptId)
    requires LoginInv(s) && Enabled(s, step)
    ensures multiset(Apply(s, step).past.enqueued)[a] == multiset(s.past.enqueued)[a] + if Queues(s, step, a) then 1 else 0
    ensures Queues(s, step, a) && a in s.past.enqueued <==> Resubmits(s, step, a)
  {
    QueuedAgainIff(s, step, a);
    if step.DoEnqueue? { EnqueueCounts(s, step, a); }
    else if step.DoPrepareReturned? { PrepareReturnedCounts(s, step, a); }
    else { OtherStepsKeepIds(s, step); }
  }

  /** An attempt is queued more than once exactly when it is submitted again after its task was deleted. */
  lemma {:induction false} QueuedTwiceIff(trace: seq<Login>, steps: seq<Step>, a: AttemptId)
    requires IsRun(trace, steps)
    ensures multiset(trace[|steps|].past.enqueued)[a] > 1 <==> exists i | 0 <= i < |steps| :: Resubmits(trace[i], steps[i], a)
    decreases |steps|
  {
    if |steps| > 0 {
      var last := |steps| - 1;
      assert IsStep(trace[last], steps[last], trace[last + 1]);
      QueuedTwiceIff(trace[..|steps|], steps[..last], a);
      RunKeepsInv(trace[..|steps|], steps[..last]);
      StepQueues(trace[last], steps[last], a);
      ResubmitsBefore(trace, steps, a);
    }
  }

  lemma ResubmitsBefore(trace: seq<Login>, steps: seq<Step>, a: AttemptId)
    requires |trace| == |steps| + 1 && |steps| > 0
    ensures (exists i | 0 <= i < |steps| :: Resubmits(trace[i], steps[i], a)) <==>
      ((exists i | 0 <= i < |steps| - 1 :: Resubmits(trace[..|steps|][i], steps[..|steps| - 1][i], a))
       || Resubmits(trace[|steps| - 1], steps[|steps| - 1], a))
  {
    if i :| 0 <= i < |steps| && Resubmits(trace[i], steps[i], a) {
      if i < |steps| - 1 { assert Resubmits(trace[..|steps|][i], steps[..|steps| - 1][i], a); }
    }
    if i :| 0 <= i < |steps| - 1 && Resubmits(trace[..|steps|][i], steps[..|steps| - 1][i], a) {
      assert Resubmits(trace[i], steps[i], a);
    }
  }

  /** An attempt that is not submitted again after the deletion of its task reaches the runner at most once in all. */
  lemma AttemptStartsAtMostOnce(trace: seq<Login>, steps: seq<Step>, a: AttemptId)
    requires IsRun(trace, steps) && forall i | 0 <= i < |steps| :: !Resubmits(trace[i], steps[i], a)
    ensures multiset(trace[|steps|].past.started)[a] <= 1
  {
    QueuedTwiceIff(trace, steps, a);
    StartsFollowQueueOrder(trace, steps);
    SubsequenceCounts(trace[|steps|].past.started, trace[|steps|].past.enqueued);
  }

  lemma {:induction false} QueueIsDistinct(tasks: Tasks, runs: map<TaskId, Run>, pending: seq<Payload>, i: nat, j: nat)
    requires QueueOk(tasks, runs, pending) && i < j < |pending|
    ensures pending[i].task != pending[j].task && pending[i].task !in runs && pending[j].task !in runs
    decreases |pending|
  {
    QueuedAtIsQueued(pending, i);
    QueuedAtIsQueued(pending, j);
    QueuedIsPending(tasks, runs, pending, pending[i].task);
    QueuedIsPending(tasks, runs, pending, pending[j].task);
    if i == 0 { QueuedAtIsQueued(pending[1..], j - 1); } else { QueueIsDistinct(tasks, runs, pending[1..], i - 1, j - 1); }
  }

  lemma {:induction false} QueuedAtIsQueued(pending: seq<Payload>, i: nat)
    requires i < |pending|
    ensures InQueue(pending, pending[i].task)
  {
    if i > 0 { QueuedAtIsQueued(pending[1..], i - 1); }
  }

  /** Queued tasks are distinct and hold no slot, so starting one never replaces the controller of a live run. */
  lemma SlotsAreExclusive(trace: seq<Login>, steps: seq<Step>, i: nat, j: nat)
    requires IsRun(trace, steps) && i < |trace[|steps|].pending| && j < |trace[|steps|].pending|
    ensures var s := trace[|steps|];
      s.pending[i].task !in s.runs && (i != j ==> s.pending[i].task != s.pending[j].task)
  {
    RunKeepsInv(trace, steps);
    var s := trace[|steps|];
    QueuedAtIsQueued(s.pending, i);
    QueuedIsPending(s.db.tasks, s.runs, s.pending, s.pending[i].task);
    if i < j { QueueIsDistinct(s.db.tasks, s.runs, s.pending, i, j); }
    if j < i { QueueIsDistinct(s.db.tasks, s.runs, s.pending, j, i); }
  }

  lemma StartTakesOneSlot(s: Login, p: Payload)
    ensures |Start(s, p).runs| <= |s.runs| + 1
  {
    var runs := Start(s, p).runs;
    assert runs.Keys == s.runs.Keys + {p.task} && |runs.Keys| == |runs| && |s.runs.Keys| == |s.runs|;
  }

  /** Draining never passes the limit it reads, even when the limit shrank, and stops only at the limit or an empty queue. */
  lemma {:induction false} DrainFillsSlots(s: Login, limit: nat)
    ensures var t := Drain(s, limit);
      && (t.runs == s.runs || |t.runs| <= limit)
      && (s.accepting ==> t.pending == [] || |t.runs| >= limit)
      && (!s.accepting ==> t == s)
    decreases |s.pending|
  {
    if s.accepting && |s.runs| < limit && s.pending != [] {
      var p := s.pending[0];
      var rest := s.(pending := s.pending[1..]);
      var next := if IsRunnable(rest, p) then Start(rest, p) else rest;
      assert Drain(s, limit) == Drain(next, limit);
      StartTakesOneSlot(rest, p);
      DrainFillsSlots(next, limit);
    }
  }

  // ---------------------------------------------------------------- a cancelling task

  lemma {:induction false} DrainKeepsRow(s: Login, limit: nat, t: TaskId)
    requires t in s.db.tasks && s.db.tasks[t].status != Pending
    ensures t in Drain(s, limit).db.tasks && Drain(s, limit).db.tasks[t] == s.db.tasks[t]
    decreases |s.pending|
  {
    if s.accepting && |s.runs| < limit && s.pending != [] {
      var p := s.pending[0];
      var rest := s.(pending := s.pending[1..]);
      if IsRunnable(rest, p) { DrainKeepsRow(Start(rest, p), limit, t); } else { DrainKeepsRow(rest, limit, t); }
    }
  }

  // ---------------------------------------------------------------- whole runs

  /** The task is closing that attempt, has closed it without failing it, or was deleted afterwards. */
  predicate ClosedUnfailed(s: Login, t: TaskId, attempt: AttemptId) {
    t in s.past.taskIds && (t in s.db.tasks ==>
      && s.db.tasks[t].attempt == attempt
      && (s.db.tasks[t].status == Cancelling || s.db.tasks[t].status == Cancelled || s.db.tasks[t].status == Success))
  }

  lemma {:induction false} DrainKeepsTaskIds(s: Login, limit: nat, t: TaskId)
    ensures Drain(s, limit).past.taskIds == s.past.taskIds
    ensures t in Drain(s, limit).db.tasks <==> t in s.db.tasks
    decreases |s.pending|
  {
    if s.accepting && |s.runs| < limit && s.pending != [] {
      var p := s.pending[0];
      var rest := s.(pending := s.pending[1..]);
      if IsRunnable(rest, p) { DrainKeepsTaskIds(Start(rest, p), limit, t); } else { DrainKeepsTaskIds(rest, limit, t); }
    }
  }

  /** A draining step ends in `Drain(before, limit)`; a task that is not pending passes through it untouched. */
  lemma DrainKeepsClosed(before: Login, limit: nat, t: TaskId, attempt: AttemptId)
    requires ClosedUnfailed(before, t, attempt)
    ensures ClosedUnfailed(Drain(before, limit), t, attempt)
  {
    DrainKeepsTaskIds(before, limit, t);
    if t in before.db.tasks { DrainKeepsRow(before, limit, t); }
  }

  lemma RunKeepsClosed(s: Login, id: TaskId, t: TaskId, attempt: AttemptId)
    requires LocalOk(s, id) && ClosedUnfailed(s, t, attempt)
    requires id in s.runs && (Live(s.runs[id]) || s.runs[id].phase == Threw)
    ensures ClosedUnfailed(RunThrew(s, id), t, attempt)
    ensures ClosedUnfailed(RunCaught(s, id), t, attempt)
    ensures ClosedUnfailed(TokenSaved(s, id), t, attempt)
  {
  }

  lemma EnqueueKeepsClosed(s: Login, enterprise: EnterpriseId, mapping: Mapping, a: AttemptId, id: TaskId, limit: nat, t: TaskId, attempt: AttemptId)
    requires ClosedUnfailed(s, t, attempt) && id !in s.past.taskIds
    ensures ClosedUnfailed(Enqueue(s, enterprise, mapping, a, id, limit), t, attempt)
  {
    match CreateVerdict(s.db, enterprise, mapping, a, id)
    case Created(_) =>
      DrainKeepsClosed(Push(Register(s, enterprise, mapping, a, id), Payload(enterprise, id, a, mapping.identity)), limit, t, attempt);
    case Existing(task) => DrainKeepsClosed(Push(s, Payload(enterprise, task, a, mapping.identity)), limit, t, attempt);
    case _ =>
  }

  lemma QueueRetryKeepsClosed(s: Login, a: AttemptId, p: Preparation, limit: nat, t: TaskId, attempt: AttemptId)
    requires ClosedUnfailed(s, t, attempt) && CanMarkRunning(s.db, p.enterprise, p.task, a)
    ensures ClosedUnfailed(QueueRetry(s, a, p, limit), t, attempt)
  {
    var staged := s.(db := SetStage(s.db, p.enterprise, p.task, a, Queued));
    DrainKeepsClosed(Push(staged, Payload(p.enterprise, p.task, a, p.identity)), limit, t, attempt);
  }

  lemma PrepareReturnedKeepsClosed(s: Login, a: AttemptId, ok: bool, limit: nat, t: TaskId, attempt: AttemptId)
    requires LocalOk(s, t) && ClosedUnfailed(s, t, attempt) && a in s.preparing
    ensures ClosedUnfailed(PrepareReturned(s, a, ok, limit), t, attempt)
  {
    var p := s.preparing[a];
    var rest := s.(preparing := s.preparing - {a});
    if Has(s.db, p.enterprise, p.task) && s.db.tasks[p.task].status == Cancelling {
      CancelKeepsClosed(rest, p.enterprise, p.task, t, attempt);
    } else if CanMarkRunning(s.db, p.enterprise, p.task, a) {
      QueueRetryKeepsClosed(rest, a, p, limit, t, attempt);
    }
  }

  lemma CancelKeepsClosed(s: Login, enterprise: EnterpriseId, id: TaskId, t: TaskId, attempt: AttemptId)
    requires ClosedUnfailed(s, t, attempt)
    ensures ClosedUnfailed(Cancel(s, enterprise, id), t, attempt)
  {
  }

  lemma StepKeepsClosedOfRun(s: Login, step: Step, t: TaskId, attempt: AttemptId)
    requires (forall u :: LocalOk(s, u)) && Enabled(s, step) && ClosedUnfailed(s, t, attempt)
    requires IsRunStep(step)
    ensures ClosedUnfailed(Apply(s, step), t, attempt)
  {
    match step
    case DoLoginThrew(id) => RunKeepsClosed(s, id, t, attempt);
    case DoSaveThrew(id) => RunKeepsClosed(s, id, t, attempt);
    case DoTokenSaved(id) => RunKeepsClosed(s, id, t, attempt);
    case DoCaught(id) => RunKeepsClosed(s, id, t, attempt);
    case _ =>
  }

  lemma StepKeepsClosedOfQueue(s: Login, step: Step, t: TaskId, attempt: AttemptId)
    requires LocalOk(s, t) && Enabled(s, step) && ClosedUnfailed(s, t, attempt)
    requires IsQueueStep(step)
    ensures ClosedUnfailed(Apply(s, step), t, attempt)
  {
    match step
    case DoEnqueue(enterprise, mapping, a, id, limit) => EnqueueKeepsClosed(s, enterprise, mapping, a, id, limit, t, attempt);
    case DoSettled(id, limit) => DrainKeepsClosed(s.(runs := s.runs - {id}), limit, t, attempt);
    case DoSettingsUpdated(limit) => DrainKeepsClosed(s, limit, t, attempt);
    case DoPrepareReturned(a, ok, limit) => PrepareReturnedKeepsClosed(s, a, ok, limit, t, attempt);
    case DoReserve(_, _) =>
  }

  lemma StepKeepsClosedOfTables(s: Login, step: Step, t: TaskId, attempt: AttemptId)
    requires Enabled(s, step) && ClosedUnfailed(s, t, attempt)
    requires !IsRunStep(step) && !IsQueueStep(step)
    ensures ClosedUnfailed(Apply(s, step), t, attempt)
  {
    match step
    case DoCancel(enterprise, id) => CancelKeepsClosed(s, enterprise, id, t, attempt);
    case DoRestart => if t in s.db.tasks { assert Restarted(s).db.tasks[t] == ClosedTask(s.db.tasks[t]); }
    case _ =>
  }

  lemma StepKeepsClosed(s: Login, step: Step, t: TaskId, attempt: AttemptId)
    requires (forall u :: LocalOk(s, u)) && Enabled(s, step) && ClosedUnfailed(s, t, attempt)
    ensures ClosedUnfailed(Apply(s, step), t, attempt)
  {
    assert LocalOk(s, t);
    if IsRunStep(step) { StepKeepsClosedOfRun(s, step, t, attempt); }
    else if IsQueueStep(step) { StepKeepsClosedOfQueue(s, step, t, attempt); }
    else { StepKeepsClosedOfTables(s, step, t, attempt); }
  }

  /**
   * Once a task is cancelling it is never recorded as failed: at every later moment of the run it is still cancelling,
   * cancelled, successful (its token write was in flight) or deleted, although the repository alone would let
   * `markFailed` through.
   */
  lemma {:induction false} CancellingNeverFails(trace: seq<Login>, steps: seq<Step>, i: nat, t: TaskId)
    requires IsRun(trace, steps) && i <= |steps|
    requires t in trace[i].db.tasks && trace[i].db.tasks[t].status == Cancelling
    ensures ClosedUnfailed(trace[|steps|], t, trace[i].db.tasks[t].attempt)
    decreases |steps|
  {
    if i == |steps| {
      RunKeepsInv(trace, steps);
    } else {
      var last := |steps| - 1;
      CancellingNeverFails(trace[..|steps|], steps[..last], i, t);
      RunKeepsInv(trace[..|steps|], steps[..last]);
      assert IsStep(trace[last], steps[last], trace[last + 1]);
      StepKeepsClosed(trace[last], steps[last], t, trace[i].db.tasks[t].attempt);
    }
  }

  // ---------------------------------------------------------------- attempts that ended

  /** The task's current attempt is `a`. */
  predicate Shows(db: Db, t: TaskId, a: AttemptId) {
    t in db.tasks && db.tasks[t].attempt == a
  }

  /** The row of the attempt is untouched and no task took it up again, or it is gone together with its task. */
  predicate Frozen(db: Db, db': Db, a: AttemptId)
    requires a in db.attempts
  {
    var t := db.attempts[a].task;
    if t in db'.tasks then a in db'.attempts && db'.attempts[a] == db.attempts[a] && (Shows(db', t, a) ==> Shows(db, t, a))
    else a !in db'.attempts
  }

  /** No unfinished task points at the attempt. */
  ghost predicate AtRest(db: Db, a: AttemptId) {
    a in db.attempts && db.attempts[a].task in db.tasks && forall t | Shows(db, t, a) :: !Active(db.tasks[t].status)
  }

  /** Writes are fenced on the current attempt of an unfinished task, so they never reach one that ended. */
  lemma WritesFreeze(db: Db, enterprise: EnterpriseId, id: TaskId, attempt: AttemptId, stage: Stage, status: TaskStatus, a: AttemptId)
    requires AtRest(db, a)
    ensures Frozen(db, SetStage(db, enterprise, id, attempt, stage), a)
    ensures Frozen(db, MarkRunning(db, enterprise, id, attempt), a)
    ensures Frozen(db, RequestCancellation(db, enterprise, id), a)
    ensures Frozen(db, FinishAttempt(db, enterprise, id, attempt, status), a)
  {
  }

  lemma {:induction false} DrainFreezes(s: Login, limit: nat, a: AttemptId)
    requires AtRest(s.db, a)
    ensures Frozen(s.db, Drain(s, limit).db, a)
    decreases |s.pending|
  {
    if s.accepting && |s.runs| < limit && s.pending != [] {
      var p := s.pending[0];
      var rest := s.(pending := s.pending[1..]);
      if IsRunnable(rest, p) {
        WritesFreeze(s.db, p.enterprise, p.task, p.attempt, Queued, Failed, a);
        DrainFreezes(Start(rest, p), limit, a);
      } else {
        DrainFreezes(rest, limit, a);
      }
    }
  }

  /** A change of the tables followed by a drain. */
  lemma ThenDrainFreezes(db: Db, s: Login, limit: nat, a: AttemptId)
    requires AtRest(db, a) && Frozen(db, s.db, a) && AtRest(s.db, a)
    ensures Frozen(db, Drain(s, limit).db, a)
  {
    DrainFreezes(s, limit, a);
  }

  lemma EnqueueFreezes(s: Login, enterprise: EnterpriseId, mapping: Mapping, attempt: AttemptId, id: TaskId, limit: nat, a: AttemptId)
    requires AtRest(s.db, a) && id !in s.db.tasks
    ensures Frozen(s.db, Enqueue(s, enterprise, mapping, attempt, id, limit).db, a)
  {
    match CreateVerdict(s.db, enterprise, mapping, attempt, id)
    case Created(_) =>
      ThenDrainFreezes(s.db, Push(Register(s, enterprise, mapping, attempt, id), Payload(enterprise, id, attempt, mapping.identity)), limit, a);
    case Existing(task) => ThenDrainFreezes(s.db, Push(s, Payload(enterprise, task, attempt, mapping.identity)), limit, a);
    case _ =>
  }

  lemma QueueRetryFreezes(s: Login, attempt: AttemptId, p: Preparation, limit: nat, a: AttemptId)
    requires AtRest(s.db, a)
    ensures Frozen(s.db, QueueRetry(s, attempt, p, limit).db, a)
  {
    WritesFreeze(s.db, p.enterprise, p.task, attempt, Queued, Failed, a);
    var staged := s.(db := SetStage(s.db, p.enterprise, p.task, attempt, Queued));
    ThenDrainFreezes(s.db, Push(staged, Payload(p.enterprise, p.task, attempt, p.identity)), limit, a);
  }

  lemma PrepareReturnedFreezes(s: Login, attempt: AttemptId, ok: bool, limit: nat, a: AttemptId)
    requires AtRest(s.db, a) && attempt in s.preparing
    ensures Frozen(s.db, PrepareReturned(s, attempt, ok, limit).db, a)
  {
    var p := s.preparing[attempt];
    WritesFreeze(s.db, p.enterprise, p.task, attempt, Queued, Failed, a);
    QueueRetryFreezes(s.(preparing := s.preparing - {attempt}), attempt, p, limit, a);
  }

  lemma ReserveFreezes(s: Login, q: Inquiry, attempt: AttemptId, a: AttemptId)
    requires AtRest(s.db, a) && attempt !in s.db.attempts
    ensures Frozen(s.db, ReserveRetry(s, q, attempt).db, a)
  {
  }

  lemma RunFreezes(s: Login, id: TaskId, stage: Stage, a: AttemptId)
    requires AtRest(s.db, a) && id in s.runs
    ensures Frozen(s.db, StageReported(s, id, stage).db, a)
    ensures Frozen(s.db, RunThrew(s, id).db, a) && Frozen(s.db, TokenSaved(s, id).db, a) && Frozen(s.db, RunCaught(s, id).db, a)
  {
    WritesFreeze(s.db, s.runs[id].enterprise, id, s.runs[id].attempt, stage, Failed, a);
    WritesFreeze(s.db, s.runs[id].enterprise, id, s.runs[id].attempt, stage, Success, a);
  }

  /** The task of the attempt keeps the row as it was and does not take the attempt up again, or is gone for good. */
  predicate FrozenRow(db: Db, db': Db, a: AttemptId)
    requires a in db.attempts
  {
    var t := db.attempts[a].task;
    if t in db'.tasks then a in db'.attempts && db'.attempts[a] == db.attempts[a] && (Shows(db', t, a) ==> Shows(db, t, a))
    else a in db'.attempts ==> db'.attempts[a].task != t
  }

  lemma DeletedTaskNeverReturns(s: Login, step: Step, t: TaskId)
    requires (forall u :: LocalOk(s, u)) && Enabled(s, step) && t in s.past.taskIds && t !in s.db.tasks
    ensures t in Apply(s, step).past.taskIds && t !in Apply(s, step).db.tasks
  {
    StepKeepsClosed(s, step, t, AttemptId("a"));
    StepKeepsClosed(s, step, t, AttemptId("b"));
    assert "a"[0] != "b"[0];
  }

  lemma StepKeepsFrozen(db: Db, s: Login, step: Step, a: AttemptId)
    requires LoginInv(s) && Enabled(s, step) && HasEnded(db, a) && FrozenRow(db, s.db, a) && db.attempts[a].task in s.past.taskIds
    ensures FrozenRow(db, Apply(s, step).db, a) && db.attempts[a].task in Apply(s, step).past.taskIds
  {
    var t := db.attempts[a].task;
    StepKeepsStore(s, step);
    if t in s.db.tasks {
      EndedIsAtRest(s.db, a);
      EndedStep(s, step, a);
      StepKeepsTaskIds(s, step, t);
    } else {
      DeletedTaskNeverReturns(s, step, t);
    }
  }

  lemma StepKeepsTaskIds(s: Login, step: Step, t: TaskId)
    requires Enabled(s, step) && t in s.past.taskIds
    ensures t in Apply(s, step).past.taskIds
  {
    if step.DoEnqueue? { EnqueueKeepsTaskIds(s, step.enterprise, step.mapping, step.attempt, step.id, step.limit, t); }
    else if step.DoPrepareReturned? { PrepareReturnedKeepsTaskIds(s, step.attempt, step.ok, step.limit, t); }
    else { OtherStepsKeepIds(s, step); }
  }

  lemma EnqueueKeepsTaskIds(s: Login, enterprise: EnterpriseId, mapping: Mapping, a: AttemptId, id: TaskId, limit: nat, t: TaskId)
    requires t in s.past.taskIds
    ensures t in Enqueue(s, enterprise, mapping, a, id, limit).past.taskIds
  {
    match CreateVerdict(s.db, enterprise, mapping, a, id)
    case Created(_) =>
      DrainKeepsTaskIds(Push(Register(s, enterprise, mapping, a, id), Payload(enterprise, id, a, mapping.identity)), limit, t);
    case Existing(task) => DrainKeepsTaskIds(Push(s, Payload(enterprise, task, a, mapping.identity)), limit, t);
    case _ =>
  }

  lemma PrepareReturnedKeepsTaskIds(s: Login, a: AttemptId, ok: bool, limit: nat, t: TaskId)
    requires t in s.past.taskIds && a in s.preparing
    ensures t in PrepareReturned(s, a, ok, limit).past.taskIds
  {
    var p := s.preparing[a];
    var staged := s.(preparing := s.preparing - {a}, db := SetStage(s.db, p.enterprise, p.task, a, Queued));
    DrainKeepsTaskIds(Push(staged, Payload(p.enterprise, p.task, a, p.identity)), limit, t);
  }

  predicate HasEnded(db: Db, a: AttemptId) {
    a in db.attempts && !Active(db.attempts[a].status)
  }

  /**
   * An attempt that ended never changes again: at every later moment of the run its row is the same, or its task is gone
   * for good.
   */
  lemma {:induction false} EndedAttemptIsFinal(trace: seq<Login>, steps: seq<Step>, i: nat, a: AttemptId)
    requires IsRun(trace, steps) && i <= |steps| && HasEnded(trace[i].db, a)
    ensures FrozenRow(trace[i].db, trace[|steps|].db, a) && trace[i].db.attempts[a].task in trace[|steps|].past.taskIds
    decreases |steps|
  {
    if i == |steps| {
      RunKeepsInv(trace, steps);
      EndedIsAtRest(trace[i].db, a);
    } else {
      var last := |steps| - 1;
      assert IsStep(trace[last], steps[last], trace[last + 1]);
      EndedAttemptIsFinal(trace[..|steps|], steps[..last], i, a);
      RunKeepsInv(trace[..|steps|], steps[..last]);
      StepKeepsFrozen(trace[i].db, trace[last], steps[last], a);
    }
  }

  /**
   * An attempt that is no longer its task's current one has ended, and is never taken up again: at every later moment of
   * the run its row is the same and still superseded, or its task is gone.
   */
  lemma SupersededAttemptIsFrozen(trace: seq<Login>, steps: seq<Step>, i: nat, a: AttemptId)
    requires IsRun(trace, steps) && i <= |steps| && IsSuperseded(trace[i].db, a)
    ensures trace[i].db.attempts[a].status == Failed && FrozenRow(trace[i].db, trace[|steps|].db, a)
    ensures IsSuperseded(trace[|steps|].db, a) || trace[i].db.attempts[a].task !in trace[|steps|].db.tasks
  {
    RunKeepsInv(trace[..i + 1], steps[..i]);
    EndedAttemptIsFinal(trace, steps, i, a);
  }

  lemma EndedIsAtRest(db: Db, a: AttemptId)
    requires Linked(db) && HasEnded(db, a)
    ensures AtRest(db, a)
  {
  }

  lemma EndedStepOfRun(s: Login, step: Step, a: AttemptId)
    requires AtRest(s.db, a) && s.db.tasks.Keys <= s.past.taskIds && s.db.attempts.Keys <= s.past.attemptIds
    requires Enabled(s, step)
    requires IsRunStep(step)
    ensures Frozen(s.db, Apply(s, step).db, a)
  {
    match step
    case DoStage(id, stage) => RunFreezes(s, id, stage, a);
    case DoTokenObtained(id, _) => RunFreezes(s, id, Reported("saving-token"), a);
    case DoLoginThrew(id) => RunFreezes(s, id, Queued, a);
    case DoTokenSaved(id) => RunFreezes(s, id, Queued, a);
    case DoSaveThrew(id) => RunFreezes(s, id, Queued, a);
    case DoCaught(id) => RunFreezes(s, id, Queued, a);
    case _ =>
  }

  lemma EndedStepOfQueue(s: Login, step: Step, a: AttemptId)
    requires AtRest(s.db, a) && s.db.tasks.Keys <= s.past.taskIds && s.db.attempts.Keys <= s.past.attemptIds
    requires Enabled(s, step) && IsQueueStep(step)
    ensures Frozen(s.db, Apply(s, step).db, a)
  {
    match step
    case DoEnqueue(enterprise, mapping, attempt, id, limit) => EnqueueFreezes(s, enterprise, mapping, attempt, id, limit, a);
    case DoSettled(id, limit) => DrainFreezes(s.(runs := s.runs - {id}), limit, a);
    case DoSettingsUpdated(limit) => DrainFreezes(s, limit, a);
    case DoReserve(q, attempt) => ReserveFreezes(s, q, attempt, a);
    case DoPrepareReturned(attempt, ok, limit) => PrepareReturnedFreezes(s, attempt, ok, limit, a);
  }

  lemma EndedStepOfTables(s: Login, step: Step, a: AttemptId)
    requires AtRest(s.db, a) && Enabled(s, step) && !IsRunStep(step) && !IsQueueStep(step)
    ensures Frozen(s.db, Apply(s, step).db, a)
  {
    match step
    case DoCancel(enterprise, id) => WritesFreeze(s.db, enterprise, id, a, Queued, Failed, a);
    case DoFinishCancellation(id) => WritesFreeze(s.db, s.cancellers[id].enterprise, id, s.cancellers[id].attempt, Queued, Cancelled, a);
    case DoClaimDeletion(enterprise, id) => DeletionFreezes(s.db, enterprise, id, a);
    case DoDelete(enterprise, id) => DeletionFreezes(s.db, enterprise, id, a);
    case DoReleaseDeletion(enterprise, id) => DeletionFreezes(s.db, enterprise, id, a);
    case DoRestart => assert CloseInterrupted(s.db).attempts[a] == ClosedAttempt(s.db, a);
    case _ =>
  }

  lemma EndedStep(s: Login, step: Step, a: AttemptId)
    requires AtRest(s.db, a) && s.db.tasks.Keys <= s.past.taskIds && s.db.attempts.Keys <= s.past.attemptIds
    requires Enabled(s, step)
    ensures Frozen(s.db, Apply(s, step).db, a)
  {
    if IsRunStep(step) { EndedStepOfRun(s, step, a); }
    else if IsQueueStep(step) { EndedStepOfQueue(s, step, a); }
    else { EndedStepOfTables(s, step, a); }
  }

  lemma DeletionFreezes(db: Db, enterprise: EnterpriseId, id: TaskId, a: AttemptId)
    requires AtRest(db, a)
    ensures Frozen(db, ClaimTaskDeletion(db, enterprise, id), a) && Frozen(db, DeleteTask(db, enterprise, id), a)
    ensures Frozen(db, ReleaseTaskDeletion(db, enterprise, id), a)
  {
  }
}
